/**
 * GLFW key codes, the values of the engine's KeyCode enumeration. Every code
 * is below ArraySize, the length of the key-state array.
 */
module KeyCodes {
  const Space: nat := 32
  const Apostrophe: nat := 39
  const Comma: nat := 44
  const Minus: nat := 45
  const Period: nat := 46
  const Slash: nat := 47
  const D0: nat := 48
  const D1: nat := 49
  const D2: nat := 50
  const D3: nat := 51
  const D4: nat := 52
  const D5: nat := 53
  const D6: nat := 54
  const D7: nat := 55
  const D8: nat := 56
  const D9: nat := 57
  const Semicolon: nat := 59
  const Equal: nat := 61
  const A: nat := 65
  const B: nat := 66
  const C: nat := 67
  const D: nat := 68
  const E: nat := 69
  const F: nat := 70
  const G: nat := 71
  const H: nat := 72
  const I: nat := 73
  const J: nat := 74
  const K: nat := 75
  const L: nat := 76
  const M: nat := 77
  const N: nat := 78
  const O: nat := 79
  const P: nat := 80
  const Q: nat := 81
  const R: nat := 82
  const S: nat := 83
  const T: nat := 84
  const U: nat := 85
  const V: nat := 86
  const W: nat := 87
  const X: nat := 88
  const Y: nat := 89
  const Z: nat := 90
  const LeftBracket: nat := 91
  const Backslash: nat := 92
  const RightBracket: nat := 93
  const GraveAccent: nat := 96
  const World1: nat := 161
  const World2: nat := 162
  const Escape: nat := 256
  const Enter: nat := 257
  const Tab: nat := 258
  const Backspace: nat := 259
  const Insert: nat := 260
  const Delete: nat := 261
  const Right: nat := 262
  const Left: nat := 263
  const Down: nat := 264
  const Up: nat := 265
  const PageUp: nat := 266
  const PageDown: nat := 267
  const Home: nat := 268
  const End: nat := 269
  const CapsLock: nat := 280
  const ScrollLock: nat := 281
  const NumLock: nat := 282
  const PrintScreen: nat := 283
  const Pause: nat := 284
  const F1: nat := 290
  const F2: nat := 291
  const F3: nat := 292
  const F4: nat := 293
  const F5: nat := 294
  const F6: nat := 295
  const F7: nat := 296
  const F8: nat := 297
  const F9: nat := 298
  const F10: nat := 299
  const F11: nat := 300
  const F12: nat := 301
  const F13: nat := 302
  const F14: nat := 303
  const F15: nat := 304
  const F16: nat := 305
  const F17: nat := 306
  const F18: nat := 307
  const F19: nat := 308
  const F20: nat := 309
  const F21: nat := 310
  const F22: nat := 311
  const F23: nat := 312
  const F24: nat := 313
  const F25: nat := 314
  const KP0: nat := 320
  const KP1: nat := 321
  const KP2: nat := 322
  const KP3: nat := 323
  const KP4: nat := 324
  const KP5: nat := 325
  const KP6: nat := 326
  const KP7: nat := 327
  const KP8: nat := 328
  const KP9: nat := 329
  const KPDecimal: nat := 330
  const KPDivide: nat := 331
  const KPMultiply: nat := 332
  const KPSubtract: nat := 333
  const KPAdd: nat := 334
  const KPEnter: nat := 335
  const KPEqual: nat := 336
  const LeftShift: nat := 340
  const LeftControl: nat := 341
  const LeftAlt: nat := 342
  const LeftSuper: nat := 343
  const RightShift: nat := 344
  const RightControl: nat := 345
  const RightAlt: nat := 346
  const RightSuper: nat := 347
  const Menu: nat := 348
  const ArraySize: nat := 349
}
