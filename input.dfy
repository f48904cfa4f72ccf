/**
 * Keyboard and mouse state kept by the engine: one down/changed pair per key
 * and per mouse button, updated by the window callbacks and reset once per
 * frame, and the mouse-capture rules.
 */
module Input {
  import opened Wrappers
  import KeyCodes

  /** MouseCode::ArraySize: eight buttons and MouseCode::None. */
  const MouseArraySize: nat := 9

  /** The down/changed pair stored per key and per mouse button. */
  datatype ButtonState = ButtonState(down: bool, changed: bool)

  /** A cursor position or movement (floating point in the source). */
  datatype Vec2 = Vec2(x: int, y: int)

  const Zero := Vec2(0, 0)

  function Delta(a: Vec2, b: Vec2): Vec2
  {
    Vec2(a.x - b.x, a.y - b.y)
  }

  /** The actions GLFW reports for a key or a mouse button. */
  datatype Action = Release | Press | Repeat

  /** The events the callbacks pass on to the window's event callback. */
  datatype InputEvent =
    | KeyPressed(key: nat, isRepeat: bool)
    | KeyReleased(key: nat)
    | MouseMoved(x: int, y: int)
    | MouseButtonPressed(button: nat)
    | MouseButtonReleased(button: nat)

  /** Became down during this frame. */
  predicate IsPressed(s: ButtonState)
  {
    s.down && s.changed
  }

  /** Became up during this frame. */
  predicate IsReleased(s: ButtonState)
  {
    !s.down && s.changed
  }

  /** A key or button is never pressed and released in the same frame. */
  lemma PressedReleasedExclusive(s: ButtonState)
    ensures !(IsPressed(s) && IsReleased(s))
  {
  }

  /**
   * The state of a key or button after an action reaches it: a press makes
   * it pressed, a release makes it released, and a repeat changes nothing.
   */
  function AfterAction(s: ButtonState, a: Action): (r: ButtonState)
    ensures a == Press ==> IsPressed(r)
    ensures a == Release ==> IsReleased(r)
    ensures a == Repeat ==> r == s
  {
    match a
    case Press => ButtonState(true, true)
    case Release => ButtonState(false, true)
    case Repeat => s
  }

  /** The per-frame reset of one key or button: it stays down or up, but is no longer new. */
  function FrameReset(s: ButtonState): (r: ButtonState)
    ensures r.down == s.down
    ensures !IsPressed(r) && !IsReleased(r)
  {
    ButtonState(s.down, false)
  }

  /** The engine's input state: the static members of Input and the callbacks' statics. */
  class InputState {
    const keyInputs: array<ButtonState>
    const buttons: array<ButtonState>
    var movement: Vec2
    var position: Vec2
    var preCapturePosition: Vec2
    var captureMouseCursor: bool
    var enteredWindow: bool
    var exitedWindow: bool
    var insideWindow: bool
    /** InputManager::Offset, subtracted from the position of a mouse-moved event. */
    var offset: Vec2
    /** The static last position of the cursor callback; None before its first call. */
    var lastPosition: Option<Vec2>

    ghost predicate Valid()
      reads this
    {
      keyInputs.Length == KeyCodes.ArraySize && buttons.Length == MouseArraySize && keyInputs != buttons
    }

    constructor ()
      ensures Valid() && fresh(keyInputs) && fresh(buttons)
      ensures forall i :: 0 <= i < keyInputs.Length ==> keyInputs[i] == ButtonState(false, false)
      ensures forall i :: 0 <= i < buttons.Length ==> buttons[i] == ButtonState(false, false)
      ensures movement == Zero && position == Zero && !captureMouseCursor && lastPosition.None?
    {
      keyInputs := new ButtonState[KeyCodes.ArraySize](_ => ButtonState(false, false));
      buttons := new ButtonState[MouseArraySize](_ => ButtonState(false, false));
      movement, position, preCapturePosition, offset := Zero, Zero, Zero, Zero;
      captureMouseCursor, enteredWindow, exitedWindow, insideWindow := false, false, false, false;
      lastPosition := None;
    }

    function GetKeyDown(key: nat): bool
      requires Valid() && key < KeyCodes.ArraySize
      reads this, keyInputs
    {
      keyInputs[key].down
    }

    function GetKeyPressed(key: nat): bool
      requires Valid() && key < KeyCodes.ArraySize
      reads this, keyInputs
    {
      IsPressed(keyInputs[key])
    }

    function GetKeyReleased(key: nat): bool
      requires Valid() && key < KeyCodes.ArraySize
      reads this, keyInputs
    {
      IsReleased(keyInputs[key])
    }

    function GetMouseButtonDown(button: nat): bool
      requires Valid() && button < MouseArraySize
      reads this, buttons
    {
      buttons[button].down
    }

    function GetMouseButtonPressed(button: nat): bool
      requires Valid() && button < MouseArraySize
      reads this, buttons
    {
      IsPressed(buttons[button])
    }

    function GetMouseButtonReleased(button: nat): bool
      requires Valid() && button < MouseArraySize
      reads this, buttons
    {
      IsReleased(buttons[button])
    }

    /**
     * GetMouseMovement: nothing while the cursor is free and either outside
     * the viewport or only just entered it; the recorded movement otherwise.
     */
    function GetMouseMovement(): (r: Vec2)
      reads this
      ensures !captureMouseCursor && (!insideWindow || enteredWindow) ==> r == Zero
      ensures captureMouseCursor || (insideWindow && !enteredWindow) ==> r == movement
    {
      if !captureMouseCursor && (!insideWindow || enteredWindow) then Zero else movement
    }

    /** UpdateInputs: forgets which keys and buttons changed this frame, and the movement. */
    method UpdateInputs()
      requires Valid()
      modifies buttons, keyInputs, this`movement
      ensures Valid() && movement == Zero
      ensures forall i :: 0 <= i < buttons.Length ==> buttons[i] == FrameReset(old(buttons[i]))
      ensures forall i :: 0 <= i < keyInputs.Length ==> keyInputs[i] == FrameReset(old(keyInputs[i]))
    {
      for i := 0 to buttons.Length
        invariant forall j :: 0 <= j < i ==> buttons[j] == FrameReset(old(buttons[j]))
        invariant forall j :: i <= j < buttons.Length ==> buttons[j] == old(buttons[j])
        invariant forall j :: 0 <= j < keyInputs.Length ==> keyInputs[j] == old(keyInputs[j])
      {
        buttons[i] := FrameReset(buttons[i]);
      }
      movement := Zero;
      for i := 0 to keyInputs.Length
        invariant forall j :: 0 <= j < i ==> keyInputs[j] == FrameReset(old(keyInputs[j]))
        invariant forall j :: i <= j < keyInputs.Length ==> keyInputs[j] == old(keyInputs[j])
        invariant forall j :: 0 <= j < buttons.Length ==> buttons[j] == FrameReset(old(buttons[j]))
        invariant movement == Zero
      {
        keyInputs[i] := FrameReset(keyInputs[i]);
      }
    }

    /**
     * CaptureMouse: asking for the current mode does nothing. Capturing
     * remembers where the cursor was; releasing puts it back there and drops
     * the movement.
     */
    method CaptureMouse(capture: bool)
      modifies this`position, this`preCapturePosition, this`movement, this`captureMouseCursor
      ensures captureMouseCursor == capture
      ensures capture == old(captureMouseCursor) ==>
                position == old(position) && preCapturePosition == old(preCapturePosition) &&
                movement == old(movement)
      ensures capture && !old(captureMouseCursor) ==>
                preCapturePosition == old(position) && position == old(position) && movement == old(movement)
      ensures !capture && old(captureMouseCursor) ==>
                position == old(preCapturePosition) && preCapturePosition == old(preCapturePosition) &&
                movement == Zero
    {
      if capture == captureMouseCursor {
        return;
      }
      if capture {
        preCapturePosition := position;
      } else {
        position := preCapturePosition;
        movement := Zero;
      }
      captureMouseCursor := capture;
    }

    /** The callbacks only act while ImGui does not want the mouse, or while the cursor is captured. */
    predicate Accepts(wantCaptureMouse: bool)
      reads this
    {
      !wantCaptureMouse || captureMouseCursor
    }

    /**
     * The key callback: a press or release updates that key's state as
     * AfterAction says, and every accepted action is passed on as an event.
     * GLFW's unknown key (-1) is outside the array and is not accepted here.
     */
    method OnKey(key: nat, action: Action, wantCaptureMouse: bool) returns (ev: Option<InputEvent>)
      requires Valid() && key < KeyCodes.ArraySize
      modifies keyInputs
      ensures Accepts(wantCaptureMouse) ==> keyInputs[key] == AfterAction(old(keyInputs[key]), action)
      ensures !Accepts(wantCaptureMouse) ==> keyInputs[key] == old(keyInputs[key])
      ensures forall i :: 0 <= i < keyInputs.Length && i != key ==> keyInputs[i] == old(keyInputs[i])
      ensures ev == if !Accepts(wantCaptureMouse) then None
                    else match action
                      case Press => Some(KeyPressed(key, false))
                      case Release => Some(KeyReleased(key))
                      case Repeat => Some(KeyPressed(key, true))
    {
      ev := None;
      if !wantCaptureMouse || captureMouseCursor {
        match action {
          case Press =>
            keyInputs[key] := ButtonState(true, true);
            ev := Some(KeyPressed(key, false));
          case Release =>
            keyInputs[key] := ButtonState(false, true);
            ev := Some(KeyReleased(key));
          case Repeat =>
            ev := Some(KeyPressed(key, true));
        }
      }
    }

    /**
     * The mouse-button callback: like the key callback, with no repeat
     * action; a repeat (which GLFW never reports for buttons) is ignored.
     */
    method OnMouseButton(button: nat, action: Action, wantCaptureMouse: bool) returns (ev: Option<InputEvent>)
      requires Valid() && button < MouseArraySize
      modifies buttons
      ensures Accepts(wantCaptureMouse) ==> buttons[button] == AfterAction(old(buttons[button]), action)
      ensures !Accepts(wantCaptureMouse) ==> buttons[button] == old(buttons[button])
      ensures forall i :: 0 <= i < buttons.Length && i != button ==> buttons[i] == old(buttons[i])
      ensures ev == if !Accepts(wantCaptureMouse) then None
                    else match action
                      case Press => Some(MouseButtonPressed(button))
                      case Release => Some(MouseButtonReleased(button))
                      case Repeat => None
    {
      ev := None;
      if !wantCaptureMouse || captureMouseCursor {
        match action {
          case Press =>
            buttons[button] := ButtonState(true, true);
            ev := Some(MouseButtonPressed(button));
          case Release =>
            buttons[button] := ButtonState(false, true);
            ev := Some(MouseButtonReleased(button));
          case Repeat =>
        }
      }
    }

    /**
     * The cursor-position callback: when accepted, the position becomes the
     * new one and the movement is the step from the previous report; the
     * previous report is recorded either way. On the first report the
     * previous position is the report itself.
     */
    method OnCursorPos(p: Vec2, wantCaptureMouse: bool) returns (ev: Option<InputEvent>)
      modifies this`position, this`movement, this`lastPosition
      ensures lastPosition == Some(p)
      ensures var last := if old(lastPosition).Some? then old(lastPosition).value else p;
              if old(Accepts(wantCaptureMouse)) then
                position == p && movement == Delta(p, last) &&
                ev == Some(MouseMoved(p.x - offset.x, p.y - offset.y))
              else
                position == old(position) && movement == old(movement) && ev == None
    {
      var last := if lastPosition.Some? then lastPosition.value else p;
      ev := None;
      if !wantCaptureMouse || captureMouseCursor {
        position := p;
        movement := Delta(position, last);
        ev := Some(MouseMoved(p.x - offset.x, p.y - offset.y));
      }
      lastPosition := Some(p);
    }

    /** SetInputOffset. */
    method SetInputOffset(o: Vec2)
      modifies this`offset
      ensures offset == o
    {
      offset := o;
    }
  }

  /** A pressed key reads as down and changed, a released one as up and changed, never both. */
  lemma KeyQueries(s: InputState, key: nat)
    requires s.Valid() && key < KeyCodes.ArraySize
    ensures s.GetKeyPressed(key) <==> s.GetKeyDown(key) && s.keyInputs[key].changed
    ensures s.GetKeyReleased(key) <==> !s.GetKeyDown(key) && s.keyInputs[key].changed
    ensures !(s.GetKeyPressed(key) && s.GetKeyReleased(key))
  {
  }

  /** The same for mouse buttons. */
  lemma MouseButtonQueries(s: InputState, button: nat)
    requires s.Valid() && button < MouseArraySize
    ensures s.GetMouseButtonPressed(button) <==> s.GetMouseButtonDown(button) && s.buttons[button].changed
    ensures s.GetMouseButtonReleased(button) <==> !s.GetMouseButtonDown(button) && s.buttons[button].changed
    ensures !(s.GetMouseButtonPressed(button) && s.GetMouseButtonReleased(button))
  {
  }

  /**
   * Dear ImGui's named keys that the engine translates, grouped by kind in the
   * order the engine's table lists them; every other ImGui key is OtherImGuiKey.
   */
  datatype ImGuiKey =
    | Editing(editingKey: EditingKey)
    | Punctuation(punctuationKey: PunctuationKey)
    | Lock(lockKey: LockKey)
    | Keypad(keypadKey: KeypadKey)
    | Modifier(modifierKey: ModifierKey)
    | Digit(digitKey: DigitKey)
    | Letter(letterKey: LetterKey)
    | Function(functionKey: FunctionKey)
    | OtherImGuiKey(id: nat)

  /** The editing and navigation keys. */
  datatype EditingKey =
    | Tab | LeftArrow | RightArrow | UpArrow | DownArrow | PageUp | PageDown | Home
    | End | Insert | Delete | Backspace | Space | Enter | Escape

  /** The punctuation keys. */
  datatype PunctuationKey =
    | Apostrophe | Comma | Minus | Period | Slash | Semicolon | Equal | LeftBracket
    | Backslash | RightBracket | GraveAccent

  /** The lock, print-screen and pause keys. */
  datatype LockKey = CapsLock | ScrollLock | NumLock | PrintScreen | Pause

  /** The keypad keys. */
  datatype KeypadKey =
    | Keypad0 | Keypad1 | Keypad2 | Keypad3 | Keypad4 | Keypad5 | Keypad6 | Keypad7
    | Keypad8 | Keypad9 | KeypadDecimal | KeypadDivide | KeypadMultiply | KeypadSubtract
    | KeypadAdd | KeypadEnter | KeypadEqual

  /** The modifier keys and the menu key. */
  datatype ModifierKey =
    | LeftShift | LeftCtrl | LeftAlt | LeftSuper | RightShift | RightCtrl | RightAlt
    | RightSuper | Menu

  /** The digit keys. */
  datatype DigitKey = Num0 | Num1 | Num2 | Num3 | Num4 | Num5 | Num6 | Num7 | Num8 | Num9

  /** The letter keys. */
  datatype LetterKey =
    | A | B | C | D | E | F | G | H | I | J | K | L | M | N | O | P | Q | R | S | T | U
    | V | W | X | Y | Z

  /** The function keys. */
  datatype FunctionKey = F1 | F2 | F3 | F4 | F5 | F6 | F7 | F8 | F9 | F10 | F11 | F12

  /** A KeyCode, or KeyCode::None for an ImGui key the engine has no code for. */
  datatype MappedKey = Mapped(code: nat) | NoKey

  /**
   * ImGuiToKeyCode: the GLFW code of an ImGui key; keys outside the table
   * give KeyCode::None. Every code it gives indexes the key-state array.
   */
  function ImGuiToKeyCode(k: ImGuiKey): (r: MappedKey)
    ensures k.OtherImGuiKey? ==> r == NoKey
    ensures r.Mapped? ==> r.code < KeyCodes.ArraySize
  {
    match k
    case Editing(key) => Mapped(EditingCode(key))
    case Punctuation(key) => Mapped(PunctuationCode(key))
    case Lock(key) => Mapped(LockCode(key))
    case Keypad(key) => Mapped(KeypadCode(key))
    case Modifier(key) => Mapped(ModifierCode(key))
    case Digit(key) => Mapped(DigitCode(key))
    case Letter(key) => Mapped(LetterCode(key))
    case Function(key) => Mapped(FunctionCode(key))
    case OtherImGuiKey(_) => NoKey
  }

  /** The codes of the editing and navigation keys. */
  function EditingCode(key: EditingKey): (code: nat)
    ensures code < KeyCodes.ArraySize
  {
    match key
    case Tab => KeyCodes.Tab
    case LeftArrow => KeyCodes.Left
    case RightArrow => KeyCodes.Right
    case UpArrow => KeyCodes.Up
    case DownArrow => KeyCodes.Down
    case PageUp => KeyCodes.PageUp
    case PageDown => KeyCodes.PageDown
    case Home => KeyCodes.Home
    case End => KeyCodes.End
    case Insert => KeyCodes.Insert
    case Delete => KeyCodes.Delete
    case Backspace => KeyCodes.Backspace
    case Space => KeyCodes.Space
    case Enter => KeyCodes.Enter
    case Escape => KeyCodes.Escape
  }

  /** The codes of the punctuation keys. */
  function PunctuationCode(key: PunctuationKey): (code: nat)
    ensures code < KeyCodes.ArraySize
  {
    match key
    case Apostrophe => KeyCodes.Apostrophe
    case Comma => KeyCodes.Comma
    case Minus => KeyCodes.Minus
    case Period => KeyCodes.Period
    case Slash => KeyCodes.Slash
    case Semicolon => KeyCodes.Semicolon
    case Equal => KeyCodes.Equal
    case LeftBracket => KeyCodes.LeftBracket
    case Backslash => KeyCodes.Backslash
    case RightBracket => KeyCodes.RightBracket
    case GraveAccent => KeyCodes.GraveAccent
  }

  /** The codes of the lock, print-screen and pause keys. */
  function LockCode(key: LockKey): (code: nat)
    ensures code < KeyCodes.ArraySize
  {
    match key
    case CapsLock => KeyCodes.CapsLock
    case ScrollLock => KeyCodes.ScrollLock
    case NumLock => KeyCodes.NumLock
    case PrintScreen => KeyCodes.PrintScreen
    case Pause => KeyCodes.Pause
  }

  /** The codes of the keypad keys. */
  function KeypadCode(key: KeypadKey): (code: nat)
    ensures code < KeyCodes.ArraySize
  {
    match key
    case Keypad0 => KeyCodes.KP0
    case Keypad1 => KeyCodes.KP1
    case Keypad2 => KeyCodes.KP2
    case Keypad3 => KeyCodes.KP3
    case Keypad4 => KeyCodes.KP4
    case Keypad5 => KeyCodes.KP5
    case Keypad6 => KeyCodes.KP6
    case Keypad7 => KeyCodes.KP7
    case Keypad8 => KeyCodes.KP8
    case Keypad9 => KeyCodes.KP9
    case KeypadDecimal => KeyCodes.KPDecimal
    case KeypadDivide => KeyCodes.KPDivide
    case KeypadMultiply => KeyCodes.KPMultiply
    case KeypadSubtract => KeyCodes.KPSubtract
    case KeypadAdd => KeyCodes.KPAdd
    case KeypadEnter => KeyCodes.KPEnter
    case KeypadEqual => KeyCodes.KPEqual
  }

  /** The codes of the modifier keys and the menu key. */
  function ModifierCode(key: ModifierKey): (code: nat)
    ensures code < KeyCodes.ArraySize
  {
    match key
    case LeftShift => KeyCodes.LeftShift
    case LeftCtrl => KeyCodes.LeftControl
    case LeftAlt => KeyCodes.LeftAlt
    case LeftSuper => KeyCodes.LeftSuper
    case RightShift => KeyCodes.RightShift
    case RightCtrl => KeyCodes.RightControl
    case RightAlt => KeyCodes.RightAlt
    case RightSuper => KeyCodes.RightSuper
    case Menu => KeyCodes.Menu
  }

  /** The codes of the digit keys. */
  function DigitCode(key: DigitKey): (code: nat)
    ensures code < KeyCodes.ArraySize
  {
    match key
    case Num0 => KeyCodes.D0
    case Num1 => KeyCodes.D1
    case Num2 => KeyCodes.D2
    case Num3 => KeyCodes.D3
    case Num4 => KeyCodes.D4
    case Num5 => KeyCodes.D5
    case Num6 => KeyCodes.D6
    case Num7 => KeyCodes.D7
    case Num8 => KeyCodes.D8
    case Num9 => KeyCodes.D9
  }

  /** The codes of the letter keys. */
  function LetterCode(key: LetterKey): (code: nat)
    ensures code < KeyCodes.ArraySize
  {
    match key
    case A => KeyCodes.A
    case B => KeyCodes.B
    case C => KeyCodes.C
    case D => KeyCodes.D
    case E => KeyCodes.E
    case F => KeyCodes.F
    case G => KeyCodes.G
    case H => KeyCodes.H
    case I => KeyCodes.I
    case J => KeyCodes.J
    case K => KeyCodes.K
    case L => KeyCodes.L
    case M => KeyCodes.M
    case N => KeyCodes.N
    case O => KeyCodes.O
    case P => KeyCodes.P
    case Q => KeyCodes.Q
    case R => KeyCodes.R
    case S => KeyCodes.S
    case T => KeyCodes.T
    case U => KeyCodes.U
    case V => KeyCodes.V
    case W => KeyCodes.W
    case X => KeyCodes.X
    case Y => KeyCodes.Y
    case Z => KeyCodes.Z
  }

  /** The codes of the function keys. */
  function FunctionCode(key: FunctionKey): (code: nat)
    ensures code < KeyCodes.ArraySize
  {
    match key
    case F1 => KeyCodes.F1
    case F2 => KeyCodes.F2
    case F3 => KeyCodes.F3
    case F4 => KeyCodes.F4
    case F5 => KeyCodes.F5
    case F6 => KeyCodes.F6
    case F7 => KeyCodes.F7
    case F8 => KeyCodes.F8
    case F9 => KeyCodes.F9
    case F10 => KeyCodes.F10
    case F11 => KeyCodes.F11
    case F12 => KeyCodes.F12
  }

  /**
   * The ImGui key that a GLFW code comes from, when the table has one,
   * looked up by the blocks GLFW numbers its keys in.
   */
  function KeyCodeToImGui(code: nat): Option<ImGuiKey>
  {
    if code < KeyCodes.A then PunctuationDigitToImGui(code)
    else if code < KeyCodes.Escape then LetterToImGui(code)
    else if code < KeyCodes.F1 then NavigationToImGui(code)
    else if code < KeyCodes.KP0 then FunctionToImGui(code)
    else KeypadModifierToImGui(code)
  }

  /** The GLFW block of the space, punctuation and digit keys. */
  function PunctuationDigitToImGui(code: nat): Option<ImGuiKey>
  {
    if code == KeyCodes.Space then Some(Editing(Space))
    else if code == KeyCodes.Apostrophe then Some(Punctuation(Apostrophe))
    else if code == KeyCodes.Comma then Some(Punctuation(Comma))
    else if code == KeyCodes.Minus then Some(Punctuation(Minus))
    else if code == KeyCodes.Period then Some(Punctuation(Period))
    else if code == KeyCodes.Slash then Some(Punctuation(Slash))
    else if code == KeyCodes.D0 then Some(Digit(Num0))
    else if code == KeyCodes.D1 then Some(Digit(Num1))
    else if code == KeyCodes.D2 then Some(Digit(Num2))
    else if code == KeyCodes.D3 then Some(Digit(Num3))
    else if code == KeyCodes.D4 then Some(Digit(Num4))
    else if code == KeyCodes.D5 then Some(Digit(Num5))
    else if code == KeyCodes.D6 then Some(Digit(Num6))
    else if code == KeyCodes.D7 then Some(Digit(Num7))
    else if code == KeyCodes.D8 then Some(Digit(Num8))
    else if code == KeyCodes.D9 then Some(Digit(Num9))
    else if code == KeyCodes.Semicolon then Some(Punctuation(Semicolon))
    else if code == KeyCodes.Equal then Some(Punctuation(Equal))
    else None
  }

  /** The GLFW block of the letter, bracket and grave accent keys. */
  function LetterToImGui(code: nat): Option<ImGuiKey>
  {
    if code == KeyCodes.A then Some(Letter(A))
    else if code == KeyCodes.B then Some(Letter(B))
    else if code == KeyCodes.C then Some(Letter(C))
    else if code == KeyCodes.D then Some(Letter(D))
    else if code == KeyCodes.E then Some(Letter(E))
    else if code == KeyCodes.F then Some(Letter(F))
    else if code == KeyCodes.G then Some(Letter(G))
    else if code == KeyCodes.H then Some(Letter(H))
    else if code == KeyCodes.I then Some(Letter(I))
    else if code == KeyCodes.J then Some(Letter(J))
    else if code == KeyCodes.K then Some(Letter(K))
    else if code == KeyCodes.L then Some(Letter(L))
    else if code == KeyCodes.M then Some(Letter(M))
    else if code == KeyCodes.N then Some(Letter(N))
    else if code == KeyCodes.O then Some(Letter(O))
    else if code == KeyCodes.P then Some(Letter(P))
    else if code == KeyCodes.Q then Some(Letter(Q))
    else if code == KeyCodes.R then Some(Letter(R))
    else if code == KeyCodes.S then Some(Letter(S))
    else if code == KeyCodes.T then Some(Letter(T))
    else if code == KeyCodes.U then Some(Letter(U))
    else if code == KeyCodes.V then Some(Letter(V))
    else if code == KeyCodes.W then Some(Letter(W))
    else if code == KeyCodes.X then Some(Letter(X))
    else if code == KeyCodes.Y then Some(Letter(Y))
    else if code == KeyCodes.Z then Some(Letter(Z))
    else if code == KeyCodes.LeftBracket then Some(Punctuation(LeftBracket))
    else if code == KeyCodes.Backslash then Some(Punctuation(Backslash))
    else if code == KeyCodes.RightBracket then Some(Punctuation(RightBracket))
    else if code == KeyCodes.GraveAccent then Some(Punctuation(GraveAccent))
    else None
  }

  /** The GLFW block of the editing, navigation and lock keys. */
  function NavigationToImGui(code: nat): Option<ImGuiKey>
  {
    if code == KeyCodes.Escape then Some(Editing(Escape))
    else if code == KeyCodes.Enter then Some(Editing(Enter))
    else if code == KeyCodes.Tab then Some(Editing(Tab))
    else if code == KeyCodes.Backspace then Some(Editing(Backspace))
    else if code == KeyCodes.Insert then Some(Editing(Insert))
    else if code == KeyCodes.Delete then Some(Editing(Delete))
    else if code == KeyCodes.Right then Some(Editing(RightArrow))
    else if code == KeyCodes.Left then Some(Editing(LeftArrow))
    else if code == KeyCodes.Down then Some(Editing(DownArrow))
    else if code == KeyCodes.Up then Some(Editing(UpArrow))
    else if code == KeyCodes.PageUp then Some(Editing(PageUp))
    else if code == KeyCodes.PageDown then Some(Editing(PageDown))
    else if code == KeyCodes.Home then Some(Editing(Home))
    else if code == KeyCodes.End then Some(Editing(End))
    else if code == KeyCodes.CapsLock then Some(Lock(CapsLock))
    else if code == KeyCodes.ScrollLock then Some(Lock(ScrollLock))
    else if code == KeyCodes.NumLock then Some(Lock(NumLock))
    else if code == KeyCodes.PrintScreen then Some(Lock(PrintScreen))
    else if code == KeyCodes.Pause then Some(Lock(Pause))
    else None
  }

  /** The GLFW block of the function keys. */
  function FunctionToImGui(code: nat): Option<ImGuiKey>
  {
    if code == KeyCodes.F1 then Some(Function(F1))
    else if code == KeyCodes.F2 then Some(Function(F2))
    else if code == KeyCodes.F3 then Some(Function(F3))
    else if code == KeyCodes.F4 then Some(Function(F4))
    else if code == KeyCodes.F5 then Some(Function(F5))
    else if code == KeyCodes.F6 then Some(Function(F6))
    else if code == KeyCodes.F7 then Some(Function(F7))
    else if code == KeyCodes.F8 then Some(Function(F8))
    else if code == KeyCodes.F9 then Some(Function(F9))
    else if code == KeyCodes.F10 then Some(Function(F10))
    else if code == KeyCodes.F11 then Some(Function(F11))
    else if code == KeyCodes.F12 then Some(Function(F12))
    else None
  }

  /** The GLFW block of the keypad, modifier and menu keys. */
  function KeypadModifierToImGui(code: nat): Option<ImGuiKey>
  {
    if code == KeyCodes.KP0 then Some(Keypad(Keypad0))
    else if code == KeyCodes.KP1 then Some(Keypad(Keypad1))
    else if code == KeyCodes.KP2 then Some(Keypad(Keypad2))
    else if code == KeyCodes.KP3 then Some(Keypad(Keypad3))
    else if code == KeyCodes.KP4 then Some(Keypad(Keypad4))
    else if code == KeyCodes.KP5 then Some(Keypad(Keypad5))
    else if code == KeyCodes.KP6 then Some(Keypad(Keypad6))
    else if code == KeyCodes.KP7 then Some(Keypad(Keypad7))
    else if code == KeyCodes.KP8 then Some(Keypad(Keypad8))
    else if code == KeyCodes.KP9 then Some(Keypad(Keypad9))
    else if code == KeyCodes.KPDecimal then Some(Keypad(KeypadDecimal))
    else if code == KeyCodes.KPDivide then Some(Keypad(KeypadDivide))
    else if code == KeyCodes.KPMultiply then Some(Keypad(KeypadMultiply))
    else if code == KeyCodes.KPSubtract then Some(Keypad(KeypadSubtract))
    else if code == KeyCodes.KPAdd then Some(Keypad(KeypadAdd))
    else if code == KeyCodes.KPEnter then Some(Keypad(KeypadEnter))
    else if code == KeyCodes.KPEqual then Some(Keypad(KeypadEqual))
    else if code == KeyCodes.LeftShift then Some(Modifier(LeftShift))
    else if code == KeyCodes.LeftControl then Some(Modifier(LeftCtrl))
    else if code == KeyCodes.LeftAlt then Some(Modifier(LeftAlt))
    else if code == KeyCodes.LeftSuper then Some(Modifier(LeftSuper))
    else if code == KeyCodes.RightShift then Some(Modifier(RightShift))
    else if code == KeyCodes.RightControl then Some(Modifier(RightCtrl))
    else if code == KeyCodes.RightAlt then Some(Modifier(RightAlt))
    else if code == KeyCodes.RightSuper then Some(Modifier(RightSuper))
    else if code == KeyCodes.Menu then Some(Modifier(Menu))
    else None
  }

  /** Exactly the named ImGui keys have a GLFW code. */
  lemma ImGuiToKeyCodeMapsNamed(k: ImGuiKey)
    ensures ImGuiToKeyCode(k).Mapped? <==> !k.OtherImGuiKey?
  {
  }

  /** The table is one-to-one: the code of a named ImGui key leads back to that key. */
  lemma ImGuiToKeyCodeInjective(k: ImGuiKey)
    ensures ImGuiToKeyCode(k).Mapped? ==> KeyCodeToImGui(ImGuiToKeyCode(k).code) == Some(k)
  {
    match k
    case Editing(key) => EditingRoundTrip(key);
    case Punctuation(key) => PunctuationRoundTrip(key);
    case Lock(key) => LockRoundTrip(key);
    case Keypad(key) => KeypadRoundTrip(key);
    case Modifier(key) => ModifierRoundTrip(key);
    case Digit(key) => DigitRoundTrip(key);
    case Letter(key) => LetterRoundTrip(key);
    case Function(key) => FunctionRoundTrip(key);
    case OtherImGuiKey(_) =>
  }

  lemma EditingRoundTrip(key: EditingKey)
    ensures KeyCodeToImGui(EditingCode(key)) == Some(Editing(key))
  {
  }

  lemma PunctuationRoundTrip(key: PunctuationKey)
    ensures KeyCodeToImGui(PunctuationCode(key)) == Some(Punctuation(key))
  {
  }

  lemma LockRoundTrip(key: LockKey)
    ensures KeyCodeToImGui(LockCode(key)) == Some(Lock(key))
  {
  }

  lemma KeypadRoundTrip(key: KeypadKey)
    ensures KeyCodeToImGui(KeypadCode(key)) == Some(Keypad(key))
  {
  }

  lemma ModifierRoundTrip(key: ModifierKey)
    ensures KeyCodeToImGui(ModifierCode(key)) == Some(Modifier(key))
  {
  }

  lemma DigitRoundTrip(key: DigitKey)
    ensures KeyCodeToImGui(DigitCode(key)) == Some(Digit(key))
  {
  }

  lemma LetterRoundTrip(key: LetterKey)
    ensures KeyCodeToImGui(LetterCode(key)) == Some(Letter(key))
  {
  }

  lemma FunctionRoundTrip(key: FunctionKey)
    ensures KeyCodeToImGui(FunctionCode(key)) == Some(Function(key))
  {
  }
}
