/** Byte arithmetic helpers (Assets/Scripts/Helpers/Mathb.cs). */
module Mathb {
  /** C#'s `byte`: an unsigned 8-bit integer. */
  type byte = x: int | 0 <= x < 256

  /** `Mathb.Clamp`: `min` when below it, otherwise `max` when above it, otherwise the value itself. */
  function Clamp(value: byte, min: byte, max: byte): (r: byte)
    ensures value < min ==> r == min
    ensures min <= value <= max ==> r == value
    ensures min <= value && max < value ==> r == max
    ensures min <= max ==> min <= r <= max
  {
    if value < min then min
    else if value > max then max
    else value
  }

  /** Clamping an already clamped value changes nothing. */
  lemma ClampIdempotent(value: byte, min: byte, max: byte)
    requires min <= max
    ensures Clamp(Clamp(value, min, max), min, max) == Clamp(value, min, max)
  {
  }
}
