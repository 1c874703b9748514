# Lane Dash gameplay, modelled in Dafny

Lane Dash (`assets/js/drive.js`) is a two-lane browser game. A car sits at the bottom of the canvas and switches lanes on a tap, click or space. Trucks and coins fall towards it. A truck that overlaps the car ends the game. A coin that overlaps it is collected for 100 points, written to storage and replaced by a burst of 20 fading particles. Every truck that leaves the bottom edge is worth 10 points. When the game is over, the final score earns one, two or three stars.

The model has four modules:

- `Seqs` (`seqs.dfy`) holds generic sequence helpers: `Map`, `Filter` and `All`. Each is defined by peeling off the last element. That is the order in which the script's `splice(i, 1); i--` loops walk their arrays. Their lemmas give membership, order preservation, partition, and one element appended.
- `Play` (`rules.dfy`) holds the fixed rules as values:
  - the constants, and the entities as datatypes;
  - the strict rectangle-overlap test and lane placement;
  - the star rating and the scrolling centre line;
  - one specification function per pass of a frame (`FallenObstacles`, `FallenCoins`, `UpdatedParticles`, `Filter(Missed(v), _)`, `Bursts`);
  - the ghost predicate `CollectProgress`, which says where the coin-collection loop stands;
  - the lemmas about particle lifetime over many frames.
- `Frames` (`frame.dfy`) describes one running frame as a function on values.
  - `Scene` holds the part of the state a frame changes.
  - `Moved`, `Checked` and `Spawned` are the frame's three phases, and `Step` composes them.
  - The lemmas state what a frame does to the score, the game-over flag and storage, and which invariant it keeps (`Stocked`: every obstacle and coin sits in a lane, and no particle has more than 30 frames of life).
- `Drive` (`drive.dfy`) holds the imperative part:
  - The class `World` has the script's module-level variables as fields, and one method per script function. Each method changes exactly the fields the script's function changes.
  - The `splice(i, 1); i--` loops are kept as loops, each proved against the specification function above.
  - The two passes of `gameLoop` (obstacles and coins) and `updateParticles` are methods that take the list and return the updated list. `World.Move` stores the results back.
  - `World.Tick` is one call of `gameLoop`, and `World.Run` is the part of it that runs while the game is on. Their contracts tie the new state to `Frames.Step` of the old one.

The browser's inputs become parameters:

- `now` stands for `Date.now()`.
- `Rolls` holds the two spawn rolls (`Math.random() < 0.02` and `< 0.01`) and the two lanes chosen by `Math.floor(Math.random() * 2)`.
- `rng: nat -> Spark` gives the random size and velocity of each particle. Particle j of one coin-collection pass uses `rng(j)`.

The canvas size is fixed by the constructor. Positions, speeds and opacity are exact `real`s. Scores and times are unbounded integers.

A frame in which a truck hits the car still runs `checkCoinCollection` and both spawners (`assets/js/drive.js:414-428`). Only the next `gameLoop` call returns early (`assets/js/drive.js:349-352`). `Frames.Checked` and `World.Tick` do the same.

## Model

| member | source | states |
|---|---|---|
| Drive.World.constructor | assets/js/drive.js:19-61 | The lanes are half the canvas wide, and the car starts centred in lane 0, with its top edge 70 px and its bottom edge 30 px above the canvas bottom. All lists are empty, both spawn times are 0 and the line offset is 0. The score is the stored score, or 0 when nothing is stored. |
| Drive.World.Valid | assets/js/drive.js:19-23 | The lanes are half the canvas wide. The car's top edge is 70 px above the canvas bottom (its bottom edge 30 px), and the car is centred in its current lane. The line offset stays within [0, 50]. |
| Drive.World.UnlockSound | assets/js/drive.js:70-92 | Afterwards both sound flags are set. Once both were set, a call changes nothing. |
| Drive.World.SwitchLane | assets/js/drive.js:95-99 | When the game is over, the lane and x are unchanged. Otherwise the lane becomes the other one and the car is re-centred in it (through `Valid`). Nothing else is modified. |
| Drive.SwitchTwice | assets/js/drive.js:95-99 | Two switches in a running game restore the original lane and x. |
| Play.OtherLane | assets/js/drive.js:98 | The new lane differs from the old one. |
| Play.LaneX | assets/js/drive.js:99 | The left edge of a box of a given width centred in lane 0 or lane 1. The same formula places the car (line 99), obstacles (line 127) and coins (line 145). |
| Play.LaneXCentred | assets/js/drive.js:99 | The lane x formula centres a box of the given width in lane 0 at laneWidth/2, or in lane 1 at laneWidth + laneWidth/2. |
| Drive.World.CreateObstacle | assets/js/drive.js:122-137 | Less than 500 ms after the last obstacle, nothing changes. Otherwise exactly one new obstacle is appended after the untouched old ones, and the spawn time becomes `now`. |
| Play.NewObstacle | assets/js/drive.js:127-134 | The new obstacle is sized like the car, starts with its bottom edge at the top of the canvas (y = -40), and is centred in the chosen lane. |
| Drive.World.CreateCoin | assets/js/drive.js:140-154 | The same as for obstacles, with a 1000 ms gap. |
| Play.NewCoin | assets/js/drive.js:145-151 | The new coin is 30 wide, starts just above the canvas (y = -30), and is centred in the chosen lane. |
| Play.Overlap | assets/js/drive.js:160-165 | The four strict inequalities between two boxes. The same test is used for coins at lines 177-181. |
| Play.Collides | assets/js/drive.js:158-170 | Some obstacle in the list overlaps the car. |
| Drive.World.CheckCollision | assets/js/drive.js:157-171 | gameOver afterwards is the old flag OR "some obstacle overlaps the car": never cleared, set iff such an obstacle exists. Only `gameOver` may change. |
| Play.OverlapIsCommonInterior | assets/js/drive.js:160-165 | For boxes of positive size, the four strict inequalities hold iff the boxes share an interior point. |
| Play.OverlapExcludesTouching | assets/js/drive.js:177-181 | Boxes that only touch along an edge do not overlap. The test is symmetric. |
| Drive.World.CheckCoinCollection | assets/js/drive.js:174-200 | The coins left are exactly the old coins not overlapping the car, in the old order. The score rises by 100 per overlapping coin. Storage holds the new score iff some coin was caught, and is otherwise unchanged. The old particles are kept and one burst per caught coin, in order, is appended. |
| Play.CollectStart | assets/js/drive.js:175 | Before the loop, nothing is examined, caught or changed. |
| Play.CollectCaught | assets/js/drive.js:177-197 | Examining a caught coin splices it out, keeps the loop's account for one more examined original, adds 100 to the score, writes it to storage, and appends its burst after the earlier bursts. |
| Play.CollectMissed | assets/js/drive.js:175-199 | Examining a missed coin keeps it in place and accounts for one more examined original. |
| Play.CollectDone | assets/js/drive.js:174-200 | When every original coin has been examined exactly once, the loop's result is as in `CheckCoinCollection`. |
| Play.CaughtStep | assets/js/drive.js:183-197 | One more caught coin adds nothing to the remaining coins, adds itself to the caught ones, and adds a burst at its centre using the next 20 draws. |
| Play.MissedStep | assets/js/drive.js:177-182 | One more missed coin joins the remaining ones and is not caught. |
| Play.CollectionPartitions | assets/js/drive.js:174-200 | Every coin is either caught or kept, never both. No kept coin overlaps the car, and every caught one does. |
| Play.CollectedOnce | assets/js/drive.js:196 | A coin overlapping the car is not among the coins left, so it cannot be counted twice. |
| Drive.World.CreateParticles | assets/js/drive.js:203-218 | Appends exactly the burst at (x, y) after the untouched old particles. |
| Play.NewParticle | assets/js/drive.js:207-216 | A particle at the given point with the draw's size and velocity, opacity 1 and life 30. |
| Play.Burst | assets/js/drive.js:204 | A burst has 20 particles. |
| Play.BurstAt | assets/js/drive.js:207-216 | Particle j of a burst starts at the given point, with opacity 1 and life 30, and takes its size and velocity from draw `from + j`. |
| Play.BurstFresh | assets/js/drive.js:214-215 | Every particle of a burst starts with opacity 1 and life 30. |
| Play.Bursts | assets/js/drive.js:194 | n caught coins produce 20·n particles. |
| Play.BurstsSnoc | assets/js/drive.js:194 | The burst of the next caught coin follows the earlier ones, at that coin's centre, using the next 20 draws. |
| Play.BurstsAt | assets/js/drive.js:194 | Particle k of a collection pass sits at the centre of caught coin k/20 and uses draw k. |
| Play.BurstsFresh | assets/js/drive.js:214-215 | Every particle a collection pass creates starts with opacity 1 and life 30. |
| Drive.UpdateParticles | assets/js/drive.js:221-241 | The loop leaves exactly `UpdatedParticles` of the old list: every particle stepped once, in order, the dead ones removed. |
| Play.Age | assets/js/drive.js:224-227 | One update of a particle: it moves by its velocity, its opacity drops by 0.03 and its life by 1. |
| Play.Alive | assets/js/drive.js:236 | A particle is kept while its life is > 0 and its opacity > 0. |
| Play.UpdatedParticles | assets/js/drive.js:221-241 | The reference for one `updateParticles`: every particle aged, the living ones kept in order. |
| Play.UpdatedParticlesKeepOrder | assets/js/drive.js:221-241 | The survivors of a list's front part come before those of its back part, each in their old order. |
| Play.UpdatedParticlesAre | assets/js/drive.js:222-239 | A particle is kept iff it is an old one moved by its velocity, with opacity lowered by 0.03 and life by 1, whose life is still > 0 and opacity still > 0. |
| Play.UpdatedParticlesSnoc | assets/js/drive.js:222-240 | One more particle at the end is kept, aged, exactly when it is still alive after aging. |
| Play.UpdateOne | assets/js/drive.js:222-240 | A lone particle that stays alive is just aged. |
| Play.UpdateLowersLife | assets/js/drive.js:227-236 | After an update, every particle's life is positive and at most the old bound minus one. |
| Play.UpdateKeepsLifeBound | assets/js/drive.js:227 | An update keeps every particle within 30 frames of life. |
| Play.LifeAfterUpdates | assets/js/drive.js:227 | After n updates every particle has lost at least n frames of life. |
| Play.AllGoneAfter | assets/js/drive.js:236 | Particles with at most n frames of life are all gone after n updates. |
| Play.FreshParticleLifetime | assets/js/drive.js:214-236 | A fresh particle survives updates 1 to 29 with life 30 - k and opacity 1 - 0.03·k > 0, so the life limit, not fading, removes it. |
| Play.FreshParticleGone | assets/js/drive.js:215-237 | A fresh particle is gone after 30 updates. |
| Play.Stars | assets/js/drive.js:258-265 | 1 to 3 stars: 1 iff score ≤ 500, 3 iff score > 1500, otherwise 2. |
| Play.StarsMonotone | assets/js/drive.js:258-265 | A higher score never earns fewer stars. |
| Play.Scroll | assets/js/drive.js:366-369 | The line offset either advances by 5 or wraps to 0. It wraps exactly when it would pass 50. It stays within [0, 50]. |
| Drive.World.ScrollLine | assets/js/drive.js:366-369 | The scroll code computes `Scroll` of the old offset. |
| Drive.AdvanceObstacles | assets/js/drive.js:378-392 | The loop leaves exactly `FallenObstacles` of the old list, and adds 10 to the score per obstacle removed. |
| Play.FallObstacle | assets/js/drive.js:381 | An obstacle moved down by 5. |
| Play.FallenObstacles | assets/js/drive.js:378-392 | The reference for the obstacle pass: every obstacle moved down by 5, the ones whose top edge is not below the bottom edge kept in order. |
| Play.FallenObstaclesKeepOrder | assets/js/drive.js:378-392 | The survivors of a list's front part come before those of its back part, each in their old order. |
| Play.FallenObstaclesAre | assets/js/drive.js:378-392 | An obstacle is kept iff it is an old one moved down by exactly 5 whose top edge is not below the bottom edge. |
| Play.FallenObstaclesSnoc | assets/js/drive.js:381-391 | One more obstacle at the end is kept, moved, exactly when it stays on screen. Order is kept. |
| Play.FallenObstaclesPlaced | assets/js/drive.js:381 | Falling never moves an obstacle sideways or resizes it, so every obstacle stays in a lane. |
| Drive.AdvanceCoins | assets/js/drive.js:395-408 | The loop leaves exactly `FallenCoins` of the old list, for no points. |
| Play.FallCoin | assets/js/drive.js:398 | A coin moved down by 5. |
| Play.FallenCoins | assets/js/drive.js:395-408 | The reference for the coin pass: every coin moved down by 5, the ones still on screen kept in order. |
| Play.FallenCoinsKeepOrder | assets/js/drive.js:395-408 | The same order property for coins. |
| Play.FallenCoinsAre | assets/js/drive.js:395-408 | A coin is kept iff it is an old one moved down by exactly 5 whose top edge is not below the bottom edge. |
| Play.FallenCoinsSnoc | assets/js/drive.js:398-407 | One more coin at the end is kept, moved, exactly when it stays on screen. |
| Play.FallenCoinsPlaced | assets/js/drive.js:398 | Falling never moves a coin sideways or resizes it. |
| Play.CollectKeepsLanes | assets/js/drive.js:196 | Collection only removes coins, so the rest stay in their lanes. |
| Play.BurstsKeepLifeBound | assets/js/drive.js:194 | New bursts keep every particle within 30 frames of life. |
| Frames.Moved | assets/js/drive.js:366-411 | The motion phase on values: the line scrolls, the obstacle and coin passes run with +10 per obstacle removed, and particles update. Nothing else changes. |
| Frames.Checked | assets/js/drive.js:414-417 | The checks on values: gameOver is set if an obstacle overlaps the car. The caught coins are removed for 100 points each, the score is stored when a coin was caught, and their bursts are appended. |
| Frames.Spawned | assets/js/drive.js:423-428 | The spawn phase on values: each spawner places one new obstacle or coin when its roll came up and its gap has passed, and records the time. |
| Frames.Step | assets/js/drive.js:366-428 | A running frame: `Moved`, then `Checked`, then `Spawned`. |
| Frames.Stocked | assets/js/drive.js:122-154 | Every obstacle and coin is sized and centred in a lane as its spawner made it, and no particle has more than 30 frames of life. |
| Drive.World.Move | assets/js/drive.js:366-411 | The motion part of a frame is `Frames.Moved` of the state before it. |
| Frames.MovedFields | assets/js/drive.js:366-411 | A scene is the moved one when each of its fields is. |
| Drive.World.Checks | assets/js/drive.js:414-417 | The two checks are `Frames.Checked` of the state before them, with the car where it stands. |
| Frames.CheckedFields | assets/js/drive.js:414-417 | A scene is the checked one when each of its fields is. |
| Drive.World.Spawn | assets/js/drive.js:423-428 | The spawn part of a frame is `Frames.Spawned`: each spawner runs when its roll came up, and places something only when its gap has passed. |
| Drive.World.Run | assets/js/drive.js:366-428 | A running frame is `Frames.Step` of the state before it. The frame keeps `Valid`, and the car, its lane and the sound flags are outside its frame. |
| Drive.World.Tick | assets/js/drive.js:348-431 | Once the game is over, a frame changes nothing and yields the final score's star rating. Otherwise the frame is `Frames.Step` of the old state. The car, its lane and the sound flags never change. |
| Frames.MovedKeepsStocked | assets/js/drive.js:378-411 | Motion keeps obstacles and coins in their lanes and particles within 30 frames of life. |
| Frames.CheckedKeepsStocked | assets/js/drive.js:174-200 | The checks only remove coins and add fresh particles, so the invariant holds. |
| Frames.SpawnedKeepsStocked | assets/js/drive.js:122-154 | New obstacles and coins are placed in a lane. |
| Frames.StepKeepsStocked | assets/js/drive.js:348-431 | A whole frame keeps every object in a lane and every particle within 30 frames of life. |
| Frames.StepScore | assets/js/drive.js:378-417 | In one frame the score gains exactly 10 per obstacle that left the screen and 100 per coin caught, and never goes down. |
| Frames.StepGameOver | assets/js/drive.js:378-414 | A frame ends the game iff it had ended or some obstacle, after falling, overlaps the car. |
| Frames.StepStored | assets/js/drive.js:184-188 | Storage is written in a frame iff some coin, after falling, overlaps the car, and then it holds the frame's final score. The obstacle bonus alone never writes storage. |

## Left out

- Drawing is not modelled: the canvas, the road line, the sprites, the particles' circles and colour, and the commented-out collision boxes. The car is drawn at 1/1.5 size, but collisions use its full 100 × 40 box, as in the script.
- DOM updates are not modelled: the score text, the star images and CSS classes, the game-over modal and its listeners, the page reload and the three share links. `World.Tick` returns the star count instead.
- Audio playback (`play`, `pause`, `load`, `currentTime`) is not modelled. It is fire-and-forget and does not affect the state. `UnlockSound` keeps only the two flags, and `SwitchLane` ignores the switch sound.
- Event wiring (the click and keydown listeners), `requestAnimationFrame` scheduling and the resize listener are host plumbing. The canvas size is fixed for a game. A resize in the script changes `canvas.height`, which the fall passes compare against, but not `laneWidth` or `vehicleY`; that is not modelled.
- `localStorage` is a field holding the last written score. The constructor takes the stored integer, if any. `parseInt` of a non-numeric stored string (NaN) is not modelled.
- Randomness is not modelled; its outcomes are parameters. The 0.02 and 0.01 spawn probabilities become the booleans in `Rolls`. The lanes are parameters. The particle angle, speed and size (`Math.cos`, `Math.sin`) become arbitrary `Spark` values.
- Drive.World.Tick: one `now` serves both spawners. The script calls `Date.now()` separately in `createObstacle` and `createCoin`, which can differ by the few milliseconds between them.
- Numbers are exact reals and unbounded integers. IEEE double rounding, including that of the 0.03 opacity step, is not modelled.
- `Frames.Stocked` is not part of `World.Valid`. It is carried by the value-level lemma `Frames.StepKeepsStocked`, which applies to every frame through `World.Tick`'s contract, and the constructor starts with empty lists, where it holds.
