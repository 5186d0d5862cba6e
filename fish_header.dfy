/** Constants, enumerations and the vertical placement rule of the flappy-fish game
    scene (flappy-fish/code/Game_Scene.hpp). */
module FishHeader {

  /** Scene life cycle. */
  datatype State = Loading | Running

  /** Game progress; Paused is declared but never entered. */
  datatype GameState = Playing | GameOver | Paused

  const BgSpeed: real := 100.0
  const Gravity: real := 9.8
  const PipeSpeed: real := 130.0
  /** Vertical offset of an upper pipe above its lower partner. */
  const DistanceUp: real := 1100.0
  /** Horizontal distance between consecutive pipe pairs. */
  const DistanceX: real := 400.0

  /** Length of the pipes array: lower pipes in the first half, their upper partners
      in the second half, slot i + Half partnering slot i. */
  const ArraySize: nat := 6
  const Half: nat := 3

  /** The pipes array splits evenly into lower and upper halves. */
  lemma HalvesFill()
    ensures ArraySize == 2 * Half && ArraySize % 2 == 0
  {
  }

  /** Values of a 32-bit `unsigned`. */
  const UnsignedRange: nat := 0x1_0000_0000

  /** Below twice the range, wrapping subtracts the range at most once. */
  lemma WrapOnce(n: nat)
    requires n < 2 * UnsignedRange
    ensures n % UnsignedRange == if n < UnsignedRange then n else n - UnsignedRange
  {
  }

  /** The lesser and the greater of two reals (std::min, std::max). */
  function Min(a: real, b: real): (m: real) { if b < a then b else a }
  function Max(a: real, b: real): (m: real) { if a < b then b else a }

  /** Height of a new pipe gap: the previous height moved by `r % 600 - 300`, where `r`
      is the value rand() returned, clamped into [-600, 200]. */
  function RandomYPos(previousY: real, r: nat): (v: real)
    ensures -600.0 <= v <= 200.0
    // an offset that keeps the height in range is applied unchanged
    ensures -600.0 <= previousY + (r % 600) as real - 300.0 <= 200.0 ==>
              v == previousY + (r % 600) as real - 300.0
    // otherwise the nearer bound is returned
    ensures previousY + (r % 600) as real - 300.0 > 200.0 ==> v == 200.0
    ensures previousY + (r % 600) as real - 300.0 < -600.0 ==> v == -600.0
    // a height strictly inside the band is at most 300 below or 299 above the previous one
    ensures -600.0 < v < 200.0 ==> previousY - 300.0 <= v <= previousY + 299.0
  {
    Max(-600.0, Min(previousY + (r % 600) as real + (-300) as real, 200.0))
  }
}
