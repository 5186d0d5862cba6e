/** The earlier flappy-bird game scene (flappy-bird/code/Game_Scene.cpp): a bird under
    gravity and impulse over a scrolling two-tile background of 1280-pixel tiles. */
module BirdGame {
  import opened Basics
  import Background

  /** Scene life cycle; Paused is declared but never entered. */
  datatype State = Loading | Running | Paused

  const BgSpeed: real := 10.0
  const Gravity: real := 9.8
  /** Width of the background tile, written into the scene as a literal. */
  const TileWidth: nat := 1280

  class GameScene {
    var state: State
    var suspended: bool
    const canvasWidth: nat
    const canvasHeight: nat
    var bgx: real
    var bgy: real
    var bg2x: real
    var x: real
    var y: real
    var yForce: real

    constructor ()
      ensures canvasWidth == 720 && canvasHeight == 1280
    {
      canvasWidth := 720;
      canvasHeight := 1280;
    }

    /** Loading, not suspended, the bird at (100, half the canvas height), the tiles one
        tile width apart; the impulse is left as it was. */
    method Initialize() returns (ok: bool)
      modifies this
      ensures ok && state == Loading && !suspended
      ensures x == 100.0 && y == (canvasHeight / 2) as real
      ensures bgx == 640.0 && bgy == 640.0 && bg2x == bgx + TileWidth as real
      ensures yForce == old(yForce)
      ensures Background.Adjacent(Background.Tiles(bgx, bg2x), TileWidth)
    {
      state := Loading;
      suspended := false;
      x := 100.0;
      y := (canvasHeight / 2) as real;
      bgx := (1280 / 2) as real;
      bgy := (1280 / 2) as real;
      bg2x := bgx + 1280.0;
      ok := true;
    }

    method Suspend()
      modifies this`suspended
      ensures suspended
    {
      suspended := true;
    }

    method Resume()
      modifies this`suspended
      ensures !suspended
    {
      suspended := false;
    }

    /** While running, a touch starting sets the impulse to 7; touches moving or
        ending, other events and every event while not running leave it alone. */
    method Handle(event: Event)
      modifies this`yForce
      ensures yForce == if state == Running && event.TouchStarted? then 7.0 else old(yForce)
    {
      if state == Running {
        match event {
          case TouchStarted(_) =>
            yForce := 7.0;
          case TouchMoved(_) =>
          case TouchEnded(_) =>
          case OtherEvent =>
        }
      }
    }

    /** One frame: load while loading, run a step of `dT` seconds while running. */
    method Update(dT: real, loaded: bool)
      modifies this`state, this`yForce, this`y, this`bgx, this`bg2x
      ensures old(state) == Loading ==>
                state == (if !suspended && loaded then Running else Loading) &&
                yForce == old(yForce) && y == old(y) && bgx == old(bgx) && bg2x == old(bg2x)
      ensures old(state) == Running ==> state == Running && Stepped(dT)
      ensures old(state) == Paused ==>
                state == Paused && yForce == old(yForce) && y == old(y) && bgx == old(bgx) && bg2x == old(bg2x)
    {
      match state {
        case Loading => Load(loaded);
        case Running => Run(dT);
        case Paused =>
      }
    }

    /** `loaded` says whether the graphics context was obtained and both the bird
        texture and the background were created. */
    method Load(loaded: bool)
      modifies this`state
      ensures state == if !suspended && loaded then Running else old(state)
    {
      if !suspended {
        if loaded {
          state := Running;
        }
      }
    }

    /** The effect of Run: gravity lowers the impulse first, the bird then moves by the
        new impulse, and the tiles scroll by dT * BgSpeed and wrap. */
    twostate predicate Stepped(dT: real)
      reads this
    {
      yForce == old(yForce) - Gravity * dT &&
      y == old(y) + yForce &&
      Background.Tiles(bgx, bg2x) == Background.ScrollTiles(old(bgx), old(bg2x), dT * BgSpeed, TileWidth)
    }

    method Run(dT: real)
      modifies this`yForce, this`y, this`bgx, this`bg2x
      ensures Stepped(dT)
      ensures Background.Adjacent(Background.Tiles(old(bgx), old(bg2x)), TileWidth) ==>
                Background.Adjacent(Background.Tiles(bgx, bg2x), TileWidth)
    {
      yForce := yForce - Gravity * dT;
      y := y + yForce;

      bgx := bgx - dT * BgSpeed;
      bg2x := bg2x - dT * BgSpeed;
      if bgx + (1280 / 2) as real + 5.0 < 0.0 {
        bgx := bg2x + 1280.0;
      } else if bg2x + (1280 / 2) as real + 5.0 < 0.0 {
        bg2x := bgx + 1280.0;
      }
      Background.ScrollKeepsAdjacent(old(bgx), old(bg2x), dT * BgSpeed, TileWidth);
    }
  }
}
