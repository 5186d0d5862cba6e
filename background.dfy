/** The scrolling background both game scenes draw: two copies of one tile, side by
    side, that move left and trade places when one has left the screen. */
module Background {

  /** The horizontal centres of the two tiles (bgx and bg2x in the scenes). */
  datatype Tiles = Tiles(first: real, second: real)

  /** A tile counts as gone once its centre lies more than half a tile plus 5 pixels
      left of x = 0; half a tile is the integer half of the tile's pixel width. */
  predicate OffScreen(centre: real, width: nat)
  {
    centre + (width / 2) as real + 5.0 < 0.0
  }

  /** A gone tile's centre lies more than the 5-pixel margin left of x = 0, a centre
      more than a whole tile plus the margin left of it is certainly gone, and a gone
      tile that moves further left stays gone. */
  lemma OffScreenBounds(centre: real, width: nat, d: real)
    ensures OffScreen(centre, width) ==> centre < -5.0
    ensures centre + width as real + 5.0 < 0.0 ==> OffScreen(centre, width)
    ensures OffScreen(centre, width) && d >= 0.0 ==> OffScreen(centre - d, width)
  {
  }

  /** The two tiles lie exactly one tile width apart, in either order. */
  predicate Adjacent(t: Tiles, width: nat)
  {
    t.first - t.second == width as real || t.second - t.first == width as real
  }

  /** One scroll step: both tiles move left by `d`; then the first tile, if gone, is
      put one width right of the second, or else the second, if gone, one width right
      of the first. */
  function ScrollTiles(first: real, second: real, d: real, width: nat): (r: Tiles)
    // at most one tile is repositioned: the other has just moved by d
    ensures r.first == first - d || r.second == second - d
    // a repositioned tile lands exactly one width to the right of the other
    ensures r.first != first - d ==> r.first == r.second + width as real
    ensures r.second != second - d ==> r.second == r.first + width as real
    // the first tile takes precedence when both are gone
    ensures OffScreen(first - d, width) ==> r == Tiles(second - d + width as real, second - d)
    // the second tile wraps when it alone is gone
    ensures !OffScreen(first - d, width) && OffScreen(second - d, width) ==>
              r == Tiles(first - d, first - d + width as real)
    // while neither is gone, the step is a plain shift
    ensures !OffScreen(first - d, width) && !OffScreen(second - d, width) ==>
              r == Tiles(first - d, second - d)
  {
    var a, b := first - d, second - d;
    if OffScreen(a, width) then Tiles(b + width as real, b)
    else if OffScreen(b, width) then Tiles(a, a + width as real)
    else Tiles(a, b)
  }

  /** Scrolling keeps two adjacent tiles adjacent, and a wrap always leaves them adjacent. */
  lemma ScrollKeepsAdjacent(first: real, second: real, d: real, width: nat)
    ensures var r := ScrollTiles(first, second, d, width);
      (Adjacent(Tiles(first, second), width) ==> Adjacent(r, width)) &&
      (r != Tiles(first - d, second - d) ==> Adjacent(r, width))
  {
  }
}
