/** The flappy-fish game scene (flappy-fish/code/Game_Scene.cpp): the fish under
    gravity and impulse, the scrolling background, the ring of pipe pairs, the score
    and the end of the game. Values the framework supplies each step (the background
    texture's width, the pipe slice size kept in `dimensions`, whether resources
    loaded, the values rand() returns) are parameters. */
module FishGame {
  import opened Basics
  import opened FishHeader
  import opened FishPipes
  import Background

  class GameScene {
    var state: State
    var gameState: GameState
    var suspended: bool
    const canvasWidth: nat
    const canvasHeight: nat
    var hasStartedPlaying: bool
    /** The score, an `unsigned`. */
    var punctuation: nat
    var bgx: real
    var bgy: real
    var bg2x: real
    var x: real
    var y: real
    var yForce: real
    const pipes: array<Point>

    ghost predicate Valid()
      reads this
    {
      pipes.Length == ArraySize && punctuation < UnsignedRange
    }

    /** The effect of one call of Run: nothing at all unless the game is being played;
        otherwise gravity and impulse, the background scroll, the pipe shift and
        recycling, one point per recycled pair, and the game-over test. */
    twostate predicate Ran(dT: real, bgWidth: nat, dims: Point, draws: seq<nat>)
      reads this, pipes
    {
      pipes.Length == ArraySize && Half <= |draws| && KeptScene() &&
      if old(gameState) != Playing then Idle()
      else Moved(dT, bgWidth) && PipesStepped(dT, dims, draws) && Scored(dT, dims) && Ended(dims)
    }

    /** What Run never changes. */
    twostate predicate KeptScene()
      reads this
    {
      state == old(state) && suspended == old(suspended) &&
      hasStartedPlaying == old(hasStartedPlaying) && x == old(x) && bgy == old(bgy)
    }

    /** Nothing changes at all. */
    twostate predicate Idle()
      reads this, pipes
    {
      gameState == old(gameState) && punctuation == old(punctuation) &&
      yForce == old(yForce) && y == old(y) && bgx == old(bgx) && bg2x == old(bg2x) &&
      pipes[..] == old(pipes[..])
    }

    /** Gravity lowers the impulse, the fish moves by 1.5 times the new impulse, and the
        background scrolls by dT * BgSpeed. */
    twostate predicate Moved(dT: real, bgWidth: nat)
      reads this
    {
      yForce == old(yForce) - Gravity * dT &&
      y == old(y) + yForce * 1.5 &&
      Background.Tiles(bgx, bg2x) == Background.ScrollTiles(old(bgx), old(bg2x), dT * BgSpeed, bgWidth)
    }

    /** All pipes shift left by dT * PipeSpeed, then the crossed pairs are recycled. */
    twostate predicate PipesStepped(dT: real, dims: Point, draws: seq<nat>)
      reads this, pipes
    {
      pipes.Length == ArraySize && Half <= |draws| &&
      pipes[..] == RecycleUpTo(Shifted(old(pipes[..]), dT * PipeSpeed), Half, dims.x / 2.0, draws)
    }

    /** One point for every lower pipe that crossed after the shift. */
    twostate predicate Scored(dT: real, dims: Point)
      reads this, pipes
    {
      pipes.Length == ArraySize &&
      punctuation == (old(punctuation) + CrossedCount(Shifted(old(pipes[..]), dT * PipeSpeed), Half, dims.x / 2.0)) % UnsignedRange
    }

    /** The game ends when the fish is inside the box of pipes[Half] or below y = 0. */
    twostate predicate Ended(dims: Point)
      reads this, pipes
    {
      pipes.Length == ArraySize &&
      gameState == if Hits(x, y, pipes[Half], dims) || y < 0.0 then GameOver else Playing
    }

    /** Fixes the canvas size; everything else is set by Initialize. */
    constructor ()
      ensures pipes.Length == ArraySize && fresh(pipes)
      ensures canvasWidth == 720 && canvasHeight == 1280
    {
      canvasWidth := 720;
      canvasHeight := 1280;
      pipes := new Point[ArraySize];
    }

    /** Starts a game: loading, playing, score 0, the fish at (100, half the canvas
        height), the background tiles one tile apart, and the pipe pairs laid out left
        to right; draws[j] is the rand() value used to place lower pipe j (j > 0).
        The impulse is left as it was. */
    method Initialize(draws: seq<nat>) returns (ok: bool)
      requires pipes.Length == ArraySize && Half <= |draws|
      modifies this, pipes
      ensures Valid() && ok
      ensures gameState == Playing && state == Loading && !suspended && !hasStartedPlaying
      ensures punctuation == 0 && yForce == old(yForce)
      ensures x == 100.0 && y == (canvasHeight / 2) as real
      ensures bgx == 640.0 && bgy == 640.0 && bg2x == bgx + 1280.0
      ensures forall j :: 0 <= j < Half ==>
                pipes[j] == InitialLower(j, canvasWidth, canvasHeight, draws) &&
                pipes[j + Half] == UpperOf(pipes[j])
      ensures forall j :: 0 < j < Half ==> pipes[j].x == pipes[j - 1].x + DistanceX
      ensures Paired(pipes[..]) && GapsInBand(pipes[..])
    {
      gameState := Playing;
      state := Loading;
      suspended := false;
      hasStartedPlaying := false;
      punctuation := 0;
      x := 100.0;
      y := (canvasHeight / 2) as real;
      bgx := (1280 / 2) as real;
      bgy := (1280 / 2) as real;
      bg2x := bgx + 1280.0;

      PlacePipes(draws);
      ok := true;
    }

    /** The pipe layout part of Initialize: pair 0 at half the canvas width and the canvas
        height plus 600, each next pair DistanceX further right. */
    method PlacePipes(draws: seq<nat>)
      requires pipes.Length == ArraySize && Half <= |draws|
      modifies pipes
      ensures forall j :: 0 <= j < Half ==>
                pipes[j] == InitialLower(j, canvasWidth, canvasHeight, draws) &&
                pipes[j + Half] == UpperOf(pipes[j])
      ensures Paired(pipes[..]) && GapsInBand(pipes[..])
    {
      pipes[0] := Point((canvasWidth / 2) as real, (canvasHeight + 600) as real);
      pipes[Half] := pipes[0];
      pipes[Half] := pipes[Half].(y := pipes[Half].y + DistanceUp);
      var i := 1;
      while i < Half
        invariant 1 <= i <= Half
        invariant forall j :: 0 <= j < i ==>
                    pipes[j] == InitialLower(j, canvasWidth, canvasHeight, draws) &&
                    pipes[j + Half] == UpperOf(pipes[j])
      {
        var lower := Point(pipes[i - 1].x + DistanceX, RandomYPos(pipes[i - 1].y, draws[i]));
        assert lower == InitialLower(i, canvasWidth, canvasHeight, draws);
        pipes[i] := lower;
        pipes[i + Half] := lower;
        pipes[i + Half] := pipes[i + Half].(y := pipes[i + Half].y + DistanceUp);
        i := i + 1;
      }
    }

    method Suspend()
      modifies this`suspended
      ensures suspended
    {
      suspended := true;
    }

    method Resume()
      modifies this`suspended
      ensures !suspended
    {
      suspended := false;
    }

    /** While running, a touch starting marks the game as started and gives the fish
        an upward impulse of 5; every other event, and every event while loading, is
        ignored. */
    method Handle(event: Event)
      modifies this`hasStartedPlaying, this`yForce
      ensures if old(state) == Running && event.TouchStarted? then
                hasStartedPlaying && yForce == 5.0
              else
                hasStartedPlaying == old(hasStartedPlaying) && yForce == old(yForce)
    {
      if state == Running {
        match event {
          case TouchStarted(_) =>
            if !hasStartedPlaying {
              hasStartedPlaying := true;
            }
            yForce := 5.0;
          case _ =>
        }
      }
    }

    /** One frame: while loading, try to load; while running, play a step of `dT`
        seconds, but only once the first touch has started the game. */
    method Update(dT: real, loaded: bool, bgWidth: nat, dims: Point, draws: seq<nat>)
      requires Valid() && Half <= |draws|
      modifies this, pipes
      ensures Valid()
      ensures old(state) == Loading ==>
                state == (if !old(suspended) && loaded then Running else Loading) &&
                gameState == old(gameState) && punctuation == old(punctuation) &&
                hasStartedPlaying == old(hasStartedPlaying) && suspended == old(suspended) &&
                x == old(x) && y == old(y) && yForce == old(yForce) &&
                bgx == old(bgx) && bg2x == old(bg2x) && bgy == old(bgy) &&
                pipes[..] == old(pipes[..])
      ensures old(state) == Running && !old(hasStartedPlaying) ==>
                unchanged(this) && unchanged(pipes)
      ensures old(state) == Running && old(hasStartedPlaying) ==>
                Ran(dT, bgWidth, dims, draws)
      ensures old(gameState) == GameOver ==> gameState == GameOver
    {
      match state {
        case Loading => Load(loaded);
        case Running =>
          if hasStartedPlaying {
            Run(dT, bgWidth, dims, draws);
          }
      }
    }

    /** `loaded` says whether the graphics context was obtained and the fish texture,
        the background, the atlas and the font were all created. */
    method Load(loaded: bool)
      modifies this`state
      ensures state == if !suspended && loaded then Running else old(state)
    {
      if !suspended {
        if loaded {
          state := Running;
        }
      }
    }

    /** ++punctuation on an `unsigned`. */
    method AddPunctuation()
      requires Valid()
      modifies this`punctuation
      ensures Valid()
      ensures punctuation == (old(punctuation) + 1) % UnsignedRange
      ensures punctuation == if old(punctuation) + 1 < UnsignedRange then old(punctuation) + 1 else 0
    {
      punctuation := (punctuation + 1) % UnsignedRange;
      WrapOnce(old(punctuation) + 1);
    }

    /** The first part of Run: gravity and impulse move the fish, and the background
        tiles scroll and wrap. */
    method MoveFishAndBackground(dT: real, bgWidth: nat)
      modifies this`yForce, this`y, this`bgx, this`bg2x
      ensures Moved(dT, bgWidth)
      ensures Background.Adjacent(Background.Tiles(old(bgx), old(bg2x)), bgWidth) ==>
                Background.Adjacent(Background.Tiles(bgx, bg2x), bgWidth)
    {
      yForce := yForce - Gravity * dT;
      y := y + yForce * 1.5;

      bgx := bgx - dT * BgSpeed;
      bg2x := bg2x - dT * BgSpeed;
      if bgx + (bgWidth / 2) as real + 5.0 < 0.0 {
        bgx := bg2x + bgWidth as real;
      } else if bg2x + (bgWidth / 2) as real + 5.0 < 0.0 {
        bg2x := bgx + bgWidth as real;
      }
      Background.ScrollKeepsAdjacent(old(bgx), old(bg2x), dT * BgSpeed, bgWidth);
    }

    /** The first pipe loop of Run: every pipe moves left by `d`. */
    method ShiftPipes(d: real)
      requires pipes.Length == ArraySize
      modifies pipes
      ensures pipes[..] == Shifted(old(pipes[..]), d)
    {
      var i := 0;
      while i < ArraySize
        invariant 0 <= i <= ArraySize
        invariant forall j :: 0 <= j < i ==> pipes[j] == Point(old(pipes[j]).x - d, old(pipes[j]).y)
        invariant forall j :: i <= j < ArraySize ==> pipes[j] == old(pipes[j])
      {
        pipes[i] := pipes[i].(x := pipes[i].x - d);
        i := i + 1;
      }
    }

    /** The second pipe loop of Run: each crossed pair, taken in slot order, is placed
        after slot Prev(index) and scores a point. Returns the loop variable `index`,
        which the collision test goes on to use. */
    method RecyclePipes(halfWidth: real, draws: seq<nat>) returns (index: nat)
      requires Valid() && Half <= |draws|
      modifies pipes, this`punctuation
      ensures Valid() && index == Half
      ensures pipes[..] == RecycleUpTo(old(pipes[..]), Half, halfWidth, draws)
      ensures punctuation == (old(punctuation) + CrossedCount(old(pipes[..]), Half, halfWidth)) % UnsignedRange
    {
      ghost var start := pipes[..];
      index := 0;
      while index < Half
        invariant 0 <= index <= Half && Valid()
        invariant pipes[..] == RecycleUpTo(start, index, halfWidth, draws)
        invariant var total := old(punctuation) + CrossedCount(start, index, halfWidth);
                  punctuation == if total < UnsignedRange then total else total - UnsignedRange
      {
        RecycleKeepsLaterSlots(start, index, halfWidth, draws, index);
        ghost var current := pipes[..];
        if pipes[index].x + halfWidth <= 0.0 {
          var previousPos := if index == 0 then ArraySize - 1 else index - 1;
          // both x coordinates, then the lower y, then the upper y from the lower one;
          // slot previousPos is neither of the two written
          var lower := Point(pipes[previousPos].x + DistanceX, RandomYPos(pipes[previousPos].y, draws[index]));
          pipes[index] := lower;
          pipes[index + Half] := UpperOf(lower);
          assert pipes[..] == current[index := lower][index + Half := UpperOf(lower)];
          AddPunctuation();
        }
        assert CrossedCount(start, index + 1, halfWidth) ==
               CrossedCount(start, index, halfWidth) + if Crossed(start[index], halfWidth) then 1 else 0;
        index := index + 1;
      }
      WrapOnce(old(punctuation) + CrossedCount(start, Half, halfWidth));
    }

    /** The two pipe loops of Run: shift every pipe left by `d`, then recycle. */
    method StepPipes(d: real, halfWidth: real, draws: seq<nat>) returns (index: nat)
      requires Valid() && Half <= |draws|
      modifies pipes, this`punctuation
      ensures Valid() && index == Half
      ensures pipes[..] == RecycleUpTo(Shifted(old(pipes[..]), d), Half, halfWidth, draws)
      ensures punctuation == (old(punctuation) + CrossedCount(Shifted(old(pipes[..]), d), Half, halfWidth)) % UnsignedRange
      ensures Paired(old(pipes[..])) ==> Paired(pipes[..])
      ensures GapsInBand(old(pipes[..])) ==> GapsInBand(pipes[..])
    {
      ShiftPipes(d);
      ghost var moved := pipes[..];
      index := RecyclePipes(halfWidth, draws);
      if Paired(old(pipes[..])) {
        assert Paired(moved);
        RecyclePreservesPairing(moved, Half, halfWidth, draws);
      }
      if GapsInBand(old(pipes[..])) {
        RecyclePreservesBand(moved, Half, halfWidth, draws);
      }
    }

    /** The collision loop of Run: ArraySize rounds of the same test of the fish against
        the box around pipes[index]. */
    method CheckCollision(index: nat, dims: Point)
      requires index < pipes.Length
      modifies this`gameState
      ensures gameState == if Hits(x, y, pipes[index], dims) then GameOver else old(gameState)
    {
      var i := 0;
      while i < ArraySize
        invariant 0 <= i <= ArraySize
        invariant gameState == if 0 < i && Hits(x, y, pipes[index], dims) then GameOver else old(gameState)
      {
        if x > pipes[index].x - dims.x && x < pipes[index].x + dims.x &&
           y > pipes[index].y - dims.y && y < pipes[index].y + dims.y {
          gameState := GameOver;
        }
        i := i + 1;
      }
    }

    /** One step of play lasting `dT` seconds; `bgWidth` is the background texture's
        width and `dims` the pipe slice size (0 x 0 until a pipe is first drawn). */
    method Run(dT: real, bgWidth: nat, dims: Point, draws: seq<nat>)
      requires Valid() && Half <= |draws|
      modifies this, pipes
      ensures Valid() && KeptScene()
      ensures old(gameState) != Playing ==> Idle()
      ensures old(gameState) == Playing ==> Moved(dT, bgWidth)
      ensures old(gameState) == Playing ==> PipesStepped(dT, dims, draws)
      ensures old(gameState) == Playing ==> Scored(dT, dims)
      ensures old(gameState) == Playing ==> Ended(dims)
      // the game, once over, stays over
      ensures old(gameState) == GameOver ==> gameState == GameOver
      // falling below the screen ends the game
      ensures old(gameState) == Playing && y < 0.0 ==> gameState == GameOver
      // with no pipe size known yet, only falling can end the game
      ensures old(gameState) == Playing && dims == Point(0.0, 0.0) ==>
                (gameState == GameOver <==> y < 0.0)
      // the pipe ring keeps its shape
      ensures Paired(old(pipes[..])) ==> Paired(pipes[..])
      ensures GapsInBand(old(pipes[..])) ==> GapsInBand(pipes[..])
      ensures Background.Adjacent(Background.Tiles(old(bgx), old(bg2x)), bgWidth) ==>
                Background.Adjacent(Background.Tiles(bgx, bg2x), bgWidth)
      // the score only grows, apart from the wrap of a 32-bit unsigned
      ensures old(punctuation) + Half < UnsignedRange ==>
                old(punctuation) <= punctuation <= old(punctuation) + Half
    {
      if gameState == Playing {
        MoveFishAndBackground(dT, bgWidth);
        var index := StepPipes(dT * PipeSpeed, dims.x / 2.0, draws);
        CheckCollision(index, dims);
        if y < 0.0 {
          gameState := GameOver;
        }
      }
    }
  }
}
