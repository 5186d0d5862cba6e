/** The obstacle ring of the flappy-fish game scene as values: the pipes array is a
    sequence of ArraySize points, and the steps of Game_Scene::initialize and
    Game_Scene::run that rewrite it are functions on such sequences. */
module FishPipes {
  import opened Basics
  import opened FishHeader

  /** The upper pipe that belongs to a lower pipe at `p`. */
  function UpperOf(p: Point): (u: Point)
  {
    Point(p.x, p.y + DistanceUp)
  }

  /** Every upper pipe sits at its lower partner's x, DistanceUp higher. */
  predicate Paired(p: seq<Point>)
  {
    |p| == ArraySize && forall i :: 0 <= i < Half ==> p[i + Half] == UpperOf(p[i])
  }

  /** Every lower pipe except slot 0, whose starting height lies above the band,
      has its gap inside RandomYPos's band. */
  predicate GapsInBand(p: seq<Point>)
  {
    |p| == ArraySize && forall i :: 0 < i < Half ==> -600.0 <= p[i].y <= 200.0
  }

  // ---------------------------------------------------------------- set-up

  /** Lower pipe j as initialize places it: slot 0 at half the canvas width and at
      the canvas height plus 600, each next one DistanceX further right at a height
      drawn from its predecessor's; draws[j] is the rand() value used for slot j. */
  function InitialLower(j: nat, canvasWidth: nat, canvasHeight: nat, draws: seq<nat>): (q: Point)
    requires j < Half <= |draws|
    // lower pipe j starts j times DistanceX right of half the canvas width
    ensures q.x == (canvasWidth / 2) as real + DistanceX * j as real
    // slot 0 starts far above the band, so the clamp puts slot 1 at the band's top
    // and every later slot inside the band
    ensures j == 0 ==> q.y == (canvasHeight + 600) as real
    ensures j == 1 ==> q.y == 200.0
    ensures j > 0 ==> -600.0 <= q.y <= 200.0
    decreases j
  {
    if j == 0 then Point((canvasWidth / 2) as real, (canvasHeight + 600) as real)
    else
      var q := InitialLower(j - 1, canvasWidth, canvasHeight, draws);
      Point(q.x + DistanceX, RandomYPos(q.y, draws[j]))
  }

  // ---------------------------------------------------------------- recycling

  /** The slot a recycled lower pipe i is placed after: i - 1, and for slot 0 the last
      slot of the whole array, which is the UPPER partner of the last lower pipe. */
  function Prev(i: nat): (j: nat)
    requires i < Half
    ensures j < ArraySize && j != i && j != i + Half
  {
    if i == 0 then ArraySize - 1 else i - 1
  }

  /** The pipes, all shifted left by `d`. */
  function Shifted(p: seq<Point>, d: real): (s: seq<Point>)
    ensures |s| == |p|
  {
    seq(|p|, i requires 0 <= i < |p| => Point(p[i].x - d, p[i].y))
  }

  /** A shift moves every pipe left by exactly `d` and keeps its height, so it keeps
      every pair together and every gap where it was. */
  lemma ShiftKeepsShape(p: seq<Point>, d: real)
    ensures forall i :: 0 <= i < |p| ==> p[i].x - Shifted(p, d)[i].x == d && Shifted(p, d)[i].y == p[i].y
    ensures Paired(p) ==> Paired(Shifted(p, d))
    ensures GapsInBand(p) ==> GapsInBand(Shifted(p, d))
  {
  }

  /** A lower pipe has left the screen once its centre plus half the pipe width is
      at or left of x = 0. */
  predicate Crossed(p: Point, halfWidth: real)
  {
    p.x + halfWidth <= 0.0
  }

  /** Iteration i of the recycling loop: a crossed lower pipe i and its partner move
      DistanceX right of slot Prev(i), at a height drawn from that slot's. */
  function RecycleSlot(p: seq<Point>, i: nat, halfWidth: real, draw: nat): (q: seq<Point>)
    requires |p| == ArraySize && i < Half
    ensures |q| == ArraySize
  {
    if Crossed(p[i], halfWidth) then
      var prev := Prev(i);
      var lower := Point(p[prev].x + DistanceX, RandomYPos(p[prev].y, draw));
      p[i := lower][i + Half := UpperOf(lower)]
    else p
  }

  /** One iteration leaves a pair that has not crossed alone and never touches another
      pair; a crossed pair moves DistanceX right of slot Prev(i), with a gap inside the
      band drawn from that slot's height and the upper pipe above its partner. */
  lemma RecycleSlotEffect(p: seq<Point>, i: nat, halfWidth: real, draw: nat)
    requires |p| == ArraySize && i < Half
    ensures !Crossed(p[i], halfWidth) ==> RecycleSlot(p, i, halfWidth, draw) == p
    ensures forall j :: 0 <= j < ArraySize && j != i && j != i + Half ==>
              RecycleSlot(p, i, halfWidth, draw)[j] == p[j]
    ensures Crossed(p[i], halfWidth) ==>
              var q := RecycleSlot(p, i, halfWidth, draw);
              q[i].x == p[Prev(i)].x + DistanceX && q[i].y == RandomYPos(p[Prev(i)].y, draw) &&
              -600.0 <= q[i].y <= 200.0 && q[i + Half] == UpperOf(q[i])
  {
  }

  /** The pipes after iterations 0 .. k-1 of the recycling loop. */
  function RecycleUpTo(p: seq<Point>, k: nat, halfWidth: real, draws: seq<nat>): (q: seq<Point>)
    requires |p| == ArraySize && k <= Half <= |draws|
    ensures |q| == ArraySize
  {
    if k == 0 then p
    else RecycleSlot(RecycleUpTo(p, k - 1, halfWidth, draws), k - 1, halfWidth, draws[k - 1])
  }

  /** How many of the lower pipes 0 .. k-1 have crossed. */
  function CrossedCount(p: seq<Point>, k: nat, halfWidth: real): (n: nat)
    requires k <= |p|
    ensures n <= k
    ensures n == 0 <==> forall i :: 0 <= i < k ==> !Crossed(p[i], halfWidth)
  {
    if k == 0 then 0
    else CrossedCount(p, k - 1, halfWidth) + (if Crossed(p[k - 1], halfWidth) then 1 else 0)
  }

  /** Iterations before k have not touched pair j >= k. */
  lemma {:induction false} RecycleKeepsLaterSlots(p: seq<Point>, k: nat, halfWidth: real, draws: seq<nat>, j: nat)
    requires |p| == ArraySize && k <= j < Half <= |draws|
    ensures RecycleUpTo(p, k, halfWidth, draws)[j] == p[j]
    ensures RecycleUpTo(p, k, halfWidth, draws)[j + Half] == p[j + Half]
  {
    if k > 0 {
      RecycleKeepsLaterSlots(p, k - 1, halfWidth, draws, j);
    }
  }

  /** With no crossed lower pipe among the first k, the first k iterations leave the
      ring as it was. */
  lemma {:induction false} RecycleWithoutCrossing(p: seq<Point>, k: nat, halfWidth: real, draws: seq<nat>)
    requires |p| == ArraySize && k <= Half <= |draws|
    requires forall i :: 0 <= i < k ==> !Crossed(p[i], halfWidth)
    ensures RecycleUpTo(p, k, halfWidth, draws) == p
  {
    if k > 0 {
      RecycleWithoutCrossing(p, k - 1, halfWidth, draws);
    }
  }

  /** Iterations after j do not touch pair j again. */
  lemma {:induction false} RecycleKeepsEarlierSlots(p: seq<Point>, k: nat, halfWidth: real, draws: seq<nat>, j: nat)
    requires |p| == ArraySize && j < k <= Half <= |draws|
    ensures RecycleUpTo(p, k, halfWidth, draws)[j] == RecycleUpTo(p, j + 1, halfWidth, draws)[j]
    ensures RecycleUpTo(p, k, halfWidth, draws)[j + Half] == RecycleUpTo(p, j + 1, halfWidth, draws)[j + Half]
  {
    if k > j + 1 {
      RecycleKeepsEarlierSlots(p, k - 1, halfWidth, draws, j);
    }
  }

  /** Recycling keeps every pair paired. */
  lemma {:induction false} RecyclePreservesPairing(p: seq<Point>, k: nat, halfWidth: real, draws: seq<nat>)
    requires Paired(p) && k <= Half <= |draws|
    ensures Paired(RecycleUpTo(p, k, halfWidth, draws))
  {
    if k > 0 {
      RecyclePreservesPairing(p, k - 1, halfWidth, draws);
    }
  }

  /** Recycling keeps the gaps of slots 1 .. Half-1 in the band. */
  lemma {:induction false} RecyclePreservesBand(p: seq<Point>, k: nat, halfWidth: real, draws: seq<nat>)
    requires GapsInBand(p) && k <= Half <= |draws|
    ensures GapsInBand(RecycleUpTo(p, k, halfWidth, draws))
  {
    if k > 0 {
      RecyclePreservesBand(p, k - 1, halfWidth, draws);
    }
  }

  /** What the whole loop does to pair i: a crossed pair is placed DistanceX right of its
      predecessor, which for i > 0 is lower pipe i-1 as the loop leaves it and for i = 0
      is the last slot as the loop found it; a pair that has not crossed is kept. */
  lemma RecycleOutcome(p: seq<Point>, halfWidth: real, draws: seq<nat>, i: nat)
    requires |p| == ArraySize && i < Half <= |draws|
    ensures var q := RecycleUpTo(p, Half, halfWidth, draws);
      var before := if i == 0 then p[ArraySize - 1] else q[i - 1];
      (!Crossed(p[i], halfWidth) ==> q[i] == p[i] && q[i + Half] == p[i + Half]) &&
      (Crossed(p[i], halfWidth) ==>
         q[i] == Point(before.x + DistanceX, RandomYPos(before.y, draws[i])) &&
         q[i + Half] == UpperOf(q[i]))
  {
    var r := RecycleUpTo(p, i, halfWidth, draws);
    RecycleKeepsLaterSlots(p, i, halfWidth, draws, i);
    RecycleKeepsEarlierSlots(p, Half, halfWidth, draws, i);
    if i == 0 {
      RecycleKeepsLaterSlots(p, 0, halfWidth, draws, Half - 1);
    } else {
      RecycleKeepsEarlierSlots(p, Half, halfWidth, draws, i - 1);
      RecycleKeepsEarlierSlots(p, i, halfWidth, draws, i - 1);
    }
  }

  /** Because slot 0's predecessor is an upper pipe, at least DistanceUp - 300 above the
      band's bottom, a recycled slot 0 always gets the band's top height 200. */
  lemma RecycledFirstSlotAtTop(p: seq<Point>, halfWidth: real, draws: seq<nat>)
    requires Paired(p) && GapsInBand(p) && Half <= |draws| && Crossed(p[0], halfWidth)
    ensures RecycleUpTo(p, Half, halfWidth, draws)[0].y == 200.0
  {
    RecycleOutcome(p, halfWidth, draws, 0);
    assert p[ArraySize - 1] == UpperOf(p[Half - 1]);
  }

  // ---------------------------------------------------------------- collision

  /** The fish at (fishX, fishY) lies strictly inside the box of half-size `dims`
      around pipe `p`. */
  predicate Hits(fishX: real, fishY: real, p: Point, dims: Point)
  {
    fishX > p.x - dims.x && fishX < p.x + dims.x &&
    fishY > p.y - dims.y && fishY < p.y + dims.y
  }

  /** Before the pipe slice size is known the box is empty and nothing hits. */
  lemma NoHitWithoutDimensions(fishX: real, fishY: real, p: Point)
    ensures !Hits(fishX, fishY, p, Point(0.0, 0.0))
  {
  }
}
