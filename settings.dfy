/**
 * Engine-wide constants. The number of frames in flight is defined in a
 * settings header that is not part of this model; two is the value used here,
 * and the proofs rely on nothing about it beyond its being positive.
 */
module Settings {
  const MaxFramesInFlight: nat := 2
}
