# Flappy Fish and Flappy Bird scenes in Dafny

A model of the gameplay and menu logic of two iterations of a small "Flappy Bird"
style mobile game built on the "basics" scene framework:

- the **flappy-fish game scene**: a fish that falls under gravity (9.8 per second)
  and whose impulse is set to 5 on each touch, a two-tile background scrolling at 100 pixels
  per second, and a ring of three pipe pairs scrolling at 130 pixels per second. A
  pipe pair that leaves the screen is recycled to the right of its predecessor at a
  new random height and scores a point. The game ends when the fish falls below
  y = 0 or touches the box of the pipe the collision test reads;
- the **flappy-fish menu scene**: two options, PLAY and QUIT, stacked and centred on
  the canvas, and matched against touches by a hit test; releasing a touch over PLAY starts the
  game and over QUIT stops the program;
- the earlier **flappy-bird game scene**: the same gravity and background scroll,
  with an impulse of 7, a background speed of 10 and a fixed 1280-pixel tile.

Each scene is a Dafny class whose fields are the scene's fields and whose methods
are the scene's `initialize`, `handle`, `update`, `load` and `run`, with contracts
that state the new state in terms of the old one. The pipe ring of the fish game
is an `array<Point>` with the source's layout: lower pipes in slots 0-2, their upper
partners in slots 3-5. Its step is also given as functions on sequences
(module `FishPipes`), and the lemmas about those functions state what the
recycling does. The menu's hit test is a recursive first-match function. The
stacked layout is stated through `OptionTop`, and a lemma shows that the stack is
centred.

Floats are `real`. Values that come from the framework are method parameters:

- the background texture's width (`bgWidth`, a whole number of pixels whose half
  is taken with integer division);
- the pipe slice size kept in `dimensions` (`dims`);
- whether the resources loaded (`loaded`);
- the atlas slices of the menu options;
- the values `rand()` returns (`draws`). `draws[i]` is the value used when lower
  pipe `i` is placed. Since each slot is placed at most once per call, this covers
  every sequence of `rand()` results.

The director's `run_scene` and `stop` calls become the menu's returned `Outcome`.

Proved behaviour of the source as written, which readers may find surprising:

- The recycling loop gives slot 0 the predecessor `array_size - 1`, which is the
  upper partner of the last lower pipe. That pipe's x is the same as its lower
  partner's, so the spacing is right. Its y, however, is `DistanceUp` higher, so a
  recycled slot 0 always gets height 200, the top of the clamp
  (`FishPipes.RecycledFirstSlotAtTop`).
- The collision loop runs `array_size` times, but each time it tests
  `pipes[index]` with `index` left at `array_size / 2` by the loop before it. Only
  the upper pipe of pair 0 is ever tested (`FishGame.GameScene.CheckCollision`).
  While `dimensions` is still 0 x 0, no collision is possible.
- In flappy-bird the impulse is not set by `initialize`, and `run` uses it from the
  first running frame, before any touch. The model leaves it unconstrained.
- The score is a 32-bit `unsigned`: it is modelled modulo 2^32.

## Model

| member | source | states |
|---|---|---|
| `Background.ScrollTiles` | flappy-fish/code/Game_Scene.cpp:184-189 | Both tiles move left by the same amount. At most one is repositioned. A repositioned tile lands exactly one width right of the other. The first tile wins when both are off screen. The second tile wraps to the first's x + width when it alone is off screen. Without a wrap the step is a plain shift. |
| `Background.OffScreen` | flappy-fish/code/Game_Scene.cpp:188-189 | A tile is gone once its centre plus the integer half of the tile width plus 5 is below 0; its bounds are stated by `OffScreenBounds`. |
| `Background.OffScreenBounds` | flappy-fish/code/Game_Scene.cpp:188-189 | A gone tile's centre is more than 5 left of x = 0. A centre more than a whole width plus 5 left of it is gone. A gone tile that moves further left stays gone. |
| `Background.ScrollKeepsAdjacent` | flappy-bird/code/Game_Scene.cpp:146-151 | Two tiles one width apart stay one width apart after a scroll step. After any wrap they are one width apart. |
| `FishHeader.RandomYPos` | flappy-fish/code/Game_Scene.hpp:103-106 | The result lies in [-600, 200]. An offset `r % 600 - 300` that stays in range is applied unchanged. Otherwise the nearer bound is returned. A result strictly inside the band is within [-300, +299] of the previous height. |
| `FishHeader.HalvesFill` | flappy-fish/code/Game_Scene.hpp:75-76 | `array_size` (6) is even, so it splits into lower and upper halves. |
| `FishPipes.InitialLower` | flappy-fish/code/Game_Scene.cpp:52-59 | Lower pipe j starts at half the canvas width plus j times `DISTANCE_X`. Slot 0 starts at the canvas height plus 600. Slot 1 is always clamped to 200. Every later slot starts in [-600, 200]. |
| `FishPipes.Prev` | flappy-fish/code/Game_Scene.cpp:204-209 | The predecessor slot is a valid slot and is neither of the two slots being rewritten. |
| `FishPipes.Shifted` | flappy-fish/code/Game_Scene.cpp:193-196 | The shifted ring has as many slots as before; what a shift does to each slot is stated by `ShiftKeepsShape`. |
| `FishPipes.ShiftKeepsShape` | flappy-fish/code/Game_Scene.cpp:193-196 | Every pipe moves left by exactly the shift and keeps its height. Pairing and the gap band are preserved. |
| `FishPipes.RecycleSlot` | flappy-fish/code/Game_Scene.cpp:202-216 | One iteration keeps the ring at `array_size` slots; its effect is stated by `RecycleSlotEffect`. |
| `FishPipes.RecycleSlotEffect` | flappy-fish/code/Game_Scene.cpp:202-216 | A pair that has not crossed is left alone. No other pair is touched. A crossed pair i gets x = slot `Prev(i)`'s x + `DISTANCE_X` and y = `random_Y_pos` of that slot's y, inside [-600, 200], with its upper partner `DISTANCE_UP` above it. |
| `FishPipes.RecycleUpTo` | flappy-fish/code/Game_Scene.cpp:199-218 | The first k iterations keep the ring at `array_size` slots; their effect is stated by the `Recycle...` lemmas below. |
| `FishPipes.RecycleWithoutCrossing` | flappy-fish/code/Game_Scene.cpp:199-218 | When none of the first k lower pipes has crossed, the first k iterations change nothing. |
| `FishPipes.CrossedCount` | flappy-fish/code/Game_Scene.cpp:202 | At most k of the first k lower pipes have crossed. The count is 0 exactly when none has crossed. |
| `FishPipes.RecycleKeepsLaterSlots` | flappy-fish/code/Game_Scene.cpp:199-218 | Iterations before k leave every pair j >= k as it was. |
| `FishPipes.RecycleKeepsEarlierSlots` | flappy-fish/code/Game_Scene.cpp:199-218 | Iterations after j never touch pair j again. |
| `FishPipes.RecyclePreservesPairing` | flappy-fish/code/Game_Scene.cpp:211-213 | Recycling keeps every upper pipe at its lower partner's x, `DISTANCE_UP` higher. |
| `FishPipes.RecyclePreservesBand` | flappy-fish/code/Game_Scene.cpp:212 | Recycling keeps the gaps of lower slots 1-2 in [-600, 200]. |
| `FishPipes.RecycleOutcome` | flappy-fish/code/Game_Scene.cpp:199-218 | A pair that has not crossed is kept. A crossed pair i gets x = predecessor's x + `DISTANCE_X` and y = `random_Y_pos` of the predecessor's y, with its upper partner above it. The predecessor is lower pipe i-1 as the loop leaves it, or for i = 0 slot `array_size-1` as the loop found it. |
| `FishPipes.RecycledFirstSlotAtTop` | flappy-fish/code/Game_Scene.cpp:206-212 | Because slot 0's predecessor is an upper pipe, a recycled slot 0 always gets height 200. |
| `FishPipes.NoHitWithoutDimensions` | flappy-fish/code/Game_Scene.cpp:223-226 | With `dimensions` = {0,0} the strict box test never holds. |
| `FishGame.GameScene.constructor` | flappy-fish/code/Game_Scene.cpp:21-25 | The canvas is 720 x 1280, and there is a fresh six-slot pipe array. |
| `FishGame.GameScene.Initialize` | flappy-fish/code/Game_Scene.cpp:27-64 | Sets loading, playing, not suspended, not started and score 0. Puts the fish at (100, 640) and the tiles at 640 and 640 + 1280. Lays out the pipes: paired, consecutive lower pipes `DISTANCE_X` apart, gaps of slots 1-2 in the band. |
| `FishGame.GameScene.PlacePipes` | flappy-fish/code/Game_Scene.cpp:52-59 | Each pair j holds `InitialLower(j)` and its upper partner. |
| `FishGame.GameScene.Suspend` | flappy-fish/code/Game_Scene.cpp:66-69 | Sets the suspended flag. |
| `FishGame.GameScene.Resume` | flappy-fish/code/Game_Scene.cpp:71-74 | Clears the suspended flag. |
| `FishGame.GameScene.Handle` | flappy-fish/code/Game_Scene.cpp:76-90 | Only while running, a touch start sets `hasStartedPlaying` and an impulse of 5. Nothing else changes. |
| `FishGame.GameScene.Update` | flappy-fish/code/Game_Scene.cpp:92-99 | Loading: only the load transition. Running before the first touch: nothing changes. Running after it: exactly one `run` step. Game over stays game over. |
| `FishGame.GameScene.Load` | flappy-fish/code/Game_Scene.cpp:149-172 | Moves to running exactly when not suspended and all resources loaded. |
| `FishGame.GameScene.AddPunctuation` | flappy-fish/code/Game_Scene.cpp:258-261 | The score goes up by one, wrapping to 0 at 2^32. |
| `FishGame.GameScene.MoveFishAndBackground` | flappy-fish/code/Game_Scene.cpp:179-189 | The impulse first loses `GRAVITY*dT`. Then y gains 1.5 times the new impulse. The tiles scroll by `dT*BGSPEED` and wrap, staying adjacent. |
| `FishGame.GameScene.ShiftPipes` | flappy-fish/code/Game_Scene.cpp:193-196 | Every pipe moves left by the same amount, and its y is kept. |
| `FishGame.GameScene.RecyclePipes` | flappy-fish/code/Game_Scene.cpp:199-218 | The pipes become the recycled ring. The score rises by the number of crossed lower pipes, modulo 2^32. The loop variable is left at `array_size/2`. |
| `FishGame.GameScene.StepPipes` | flappy-fish/code/Game_Scene.cpp:193-218 | Shift, then recycle. Pairing and the gap band are preserved. |
| `FishGame.GameScene.CheckCollision` | flappy-fish/code/Game_Scene.cpp:221-230 | The game ends exactly when the fish is strictly inside the box around `pipes[index]`; otherwise the game state is kept. |
| `FishGame.GameScene.Run` | flappy-fish/code/Game_Scene.cpp:174-238 | Nothing changes unless playing, and game over is absorbing. Otherwise: motion, scroll, pipe shift and recycling, one point per crossed lower pipe, and game over exactly on a hit on `pipes[array_size/2]` or on y < 0. With `dimensions` 0 x 0 only y < 0 ends the game. Pairing, the gap band and tile adjacency are preserved. Below the wrap, the score never decreases and grows by at most 3. |
| `FishMenu.OptionAtFrom` | flappy-fish/code/Menu_Scene.cpp:206-225 | Returns -1 or an index at or after `from`. A hit is inside its box and inside no earlier box. -1 exactly when no box holds the point. |
| `FishMenu.OptionAt` | flappy-fish/code/Menu_Scene.cpp:206-225 | Returns -1 or an index below the option count. A hit is the first option strictly inside whose box (± slice width/height) the point lies. -1 exactly when the point is inside no box. |
| `FishMenu.OptionAtIgnoresPressed` | flappy-fish/code/Menu_Scene.cpp:70-79 | Releasing the options before the hit test does not change its answer. |
| `FishMenu.ReleaseOutcome` | flappy-fish/code/Menu_Scene.cpp:75-82 | Releasing over PLAY, and only over PLAY, runs the game. Releasing over QUIT, and only over QUIT, stops the program. Anything else does nothing. |
| `FishMenu.OptionTop` | flappy-fish/code/Menu_Scene.cpp:184-197 | The top of the stack is the centre plus half the total height. The bottom of the last option is the centre minus half the total height. |
| `FishMenu.MenuStackCentred` | flappy-fish/code/Menu_Scene.cpp:190-197 | Each next top is the previous top minus the previous height. |
| `FishMenu.MenuScene.constructor` | flappy-fish/code/Menu_Scene.cpp:20-26 | Loading, suspended, 720 x 1280. |
| `FishMenu.MenuScene.Initialize` | flappy-fish/code/Menu_Scene.cpp:30-38 | Every option is released, and nothing else changes. |
| `FishMenu.MenuScene.Suspend` | flappy-fish/code/Menu_Scene.hpp:85-88 | Sets the suspended flag. |
| `FishMenu.MenuScene.Resume` | flappy-fish/code/Menu_Scene.hpp:90-93 | Clears the suspended flag. |
| `FishMenu.MenuScene.Handle` | flappy-fish/code/Menu_Scene.cpp:42-88 | Ignored unless ready. A touch start or move presses exactly the touched option and releases the rest (none pressed on a miss). A touch end releases all and returns RunGame over PLAY, StopGame over QUIT, and NoAction otherwise. At most one option is pressed afterwards. |
| `FishMenu.MenuScene.PressOnly` | flappy-fish/code/Menu_Scene.cpp:59-62 | Exactly option `touched` is pressed, and at most one option is pressed. |
| `FishMenu.MenuScene.Update` | flappy-fish/code/Menu_Scene.cpp:92-119 | Moves from loading to ready, and lays out the options, exactly when not suspended and loaded. Otherwise it changes nothing. |
| `FishMenu.MenuScene.ConfigureOptions` | flappy-fish/code/Menu_Scene.cpp:176-202 | Assigns the PLAY and QUIT slices. Every option gets x = canvas width / 2. Option 0's top is canvas height / 2 plus half the total height. Each next top is the previous top minus the previous height. No option is pressed. |
| `BirdGame.GameScene.constructor` | flappy-bird/code/Game_Scene.cpp:25-29 | The canvas is 720 x 1280. |
| `BirdGame.GameScene.Initialize` | flappy-bird/code/Game_Scene.cpp:31-47 | Loading, not suspended, the bird at (100, 640), tiles at 640 and 640 + 1280 (adjacent). The impulse is untouched. |
| `BirdGame.GameScene.Suspend` | flappy-bird/code/Game_Scene.cpp:49-52 | Sets the suspended flag. |
| `BirdGame.GameScene.Resume` | flappy-bird/code/Game_Scene.cpp:54-57 | Clears the suspended flag. |
| `BirdGame.GameScene.Handle` | flappy-bird/code/Game_Scene.cpp:59-77 | Only a touch start while running sets the impulse to 7. Touch moves, touch ends and other events change nothing. |
| `BirdGame.GameScene.Update` | flappy-bird/code/Game_Scene.cpp:79-86 | Loading: the load transition only. Running: one `run` step. Paused: nothing. |
| `BirdGame.GameScene.Load` | flappy-bird/code/Game_Scene.cpp:114-135 | Moves to running exactly when not suspended and both textures were created. |
| `BirdGame.GameScene.Run` | flappy-bird/code/Game_Scene.cpp:137-156 | The impulse first loses `GRAVITY*dT`, then y gains the new impulse. Both tiles scroll by `dT*BGSPEED`, at most one wraps to the other's x + 1280, and adjacency is kept. |

## Left out

- Rendering: all `render` methods, `draw_slice` and the canvas and transform calls
  belong to the framework. `dimensions`, which `draw_slice` fills in on first use,
  is a parameter of `Run` that may be 0 x 0.
- Resource loading: textures, atlas, font and graphics context are foreign calls.
  Their success is the boolean `loaded`, and the menu's slices are parameters.
- `director.run_scene` and `director.stop`: they are returned as `Outcome` values.
- `srand(time(nullptr))` and `rand()`: the values drawn are the `draws` parameter.
- IEEE float rounding: `float` fields are `real`, and `9.8f` is the real 9.8.
- `Game_Scene::game_over` in flappy-fish is empty. `pressed_false` and
  `help_button` in the menu have no implementation.
- The basics-project-template scene is template code: its `run` is empty and its
  `handle` only copies touch coordinates. flappy-fish/code/Intro_Scene.hpp and
  flappy-bird/code/Menu_Scene.hpp have no implementation part.
- flappy-bird/code/Game_Scene.hpp names the texture field `background`, while its
  .cpp uses `backgorund`. Both are the one texture whose creation `loaded` reports.
