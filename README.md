# Cube shooter core, modelled in Dafny

`Main.c` is a small game for a real-time operating system on a 32-bit ARM board.
Five cubes wander on a 6x6 grid of cells. The player steers a crosshair with a
joystick and shoots the cubes. Each hit scores a point and may grant a power-up.
A cube that runs out of moves dies and costs a life, unless it carried a slow-down.
After the game ends, the player can save three initials into a four-entry high-score
table.

This project models the sequential core of that game and proves what it promises.
The modules are:

- `CArith` (`carith.dfy`) covers the C integer semantics the core relies on:
  division that truncates toward zero, conversion to `int16_t`, and `unsigned long`
  arithmetic modulo 2^32.
- `Lfsr` (`lfsr.dfy`) is the pseudo-random generator: two Galois shift registers,
  `lfsr32` and `lfsr31`.
  - `Register.Shift` is `shift_lfsr`.
  - `Rng.GetRand` is `get_rand`.
  - Both are proved against the pure `Step`, `Advance` and `Draw`.
  - The 32-bit step has a proved inverse. The 31-bit step has one on values below
    2^31, and it keeps `lfsr31` below 2^31. So a draw loses no state while `lfsr31`
    fits in 31 bits.
  - Above 31 bits the 31-bit step is not one-to-one (`Step31CollidesAbove31Bits`).
    The seed `rawY << 16 | rawX` (Main.c:1172) fits in 31 bits only when the
    vertical reading is below 0x8000.
- `Collision` (`collision.dfy`) is the overlap test of `CheckBlockIntersection`. It is
  proved equivalent to "the crosshair box and the cell rectangle meet on both axes".
- `Crosshair` (`crosshair.dfy`) is the arithmetic of `UpdatePosition`:
  - the deflection is scaled by the speed modifier;
  - the result is stored in `int16_t`;
  - the position is clamped to x in [0, 127] and y in [0, 107].
- `Lifecycle` (`lifecycle.dfy`) holds the session globals as the class `Session`:
  - `Life` and `Score`;
  - the `restarting` and `scoring` flags;
  - the crosshair position;
  - the three timed modifiers with their generation tokens.

  Every method is tied to a pure transition on a snapshot (`Info`), and the invariant
  `Sane` is preserved. The transitions cover `DecLife`, the admission guards of
  `Restart` and `HighScore`, the reward for a hit, and the "revert only if the token
  is unchanged" step of the power-up workers.
- `Board` (`board.dfy`) holds the grid and the cubes as the class `World`:
  - `blocks` is an `array2<bool>`; true means the cell's semaphore is 1, so the cell
    is free;
  - `cubes` is an `array<Cube>`.

  The invariant `Valid` says three things: every live cube holds an occupied cell
  inside the grid, no two live cubes share a cell, and every occupied cell is held by
  a live cube.
  - `MoveCube`, `KillCube`, `CheckBlockIntersection` and one cube's turn in a
    movement round (`AgeCube`) keep `Valid`. Each is proved against a pure
    description of its effect: `HeadingRule` and `Neighbour` for the move,
    `Rewarded` for the hit.
  - `get_movable_directions` only reads the grid and returns `ValidDirections`.
  - The placement loop of `InitCubes` (`PlaceCube`) follows the pure `Placement`,
    and each spawned cube (`SpawnCube`) gets `Placement`'s cell and `Traits`' draws.
  - `InitCubes` itself promises weaker things. It leaves the first `numCubes` cubes
    alive, on distinct cells that they hold, with 1 to 19 moves each. It keeps
    `Valid` only when the cubes after them were dead.
- `HighScores` (`highscores.dfy`) covers two things:
  - `MergeHighScore` works on an `array<Entry>`. It is proved equal to the pure
    insertion `Merged`. `Merged` keeps the table in descending order and admits a
    score exactly when it beats the last entry.
  - The initials editor of `HighScore` is proved to keep the letter index in [0, 2]
    and every letter in 'A'..'Z'. Its letter step is proved to rotate the alphabet.

A hardware semaphore on a cell becomes a boolean. A pointer to a cube becomes an
index into `cubes`. The random number is drawn from an explicit `Rng` object.

## Model

| member | source | states |
|---|---|---|
| CArith.CDiv | Main.c:802-806 | C division by a positive divisor truncates toward zero: the remainder has the dividend's sign and is smaller than the divisor |
| CArith.Int16 | Main.c:800-810 | conversion to `int16_t` yields a value in [-32768, 32767], congruent to the input modulo 2^16, and equal to it when it fits |
| CArith.Wrap32 | Main.c:411 | `unsigned long` arithmetic yields a value in [0, 2^32), congruent to the exact value, and equal to it when it fits |
| Lfsr.Step | Main.c:164-171 | an even value is simply shifted right by one; the feedback for odd values is characterised by the `Unstep` and `Undone` rows below |
| Lfsr.Advance | Main.c:180-182 | a draw keeps `lfsr31` within 31 bits when it starts there |
| Lfsr.Step31CollidesAbove31Bits | Main.c:164-171 | with bit 31 set, two different values of `lfsr31` step to the same value, so the 31-bit step loses state there |
| Lfsr.Unstep32 | Main.c:164-171 | every value is the step of some 32-bit register value (the step is onto) |
| Lfsr.Unstep31 | Main.c:164-171 | every 31-bit value is the step of some 31-bit register value |
| Lfsr.Step32Undone | Main.c:164-171 | a step of the 32-bit register can be undone, so it loses no state |
| Lfsr.Step31Undone | Main.c:164-171 | a step of the 31-bit register keeps it within 31 bits and can be undone |
| Lfsr.Step32KeepsNonzero | Main.c:164-171 | the 32-bit register reaches zero only from zero |
| Lfsr.Step31KeepsWidthAndNonzero | Main.c:164-171 | the 31-bit register stays within 31 bits and reaches zero only from zero |
| Lfsr.Draw | Main.c:180-183 | every draw lies in [0, 0xFFFF] |
| Lfsr.Roll | Main.c:185 | a draw reduced modulo n lies in [0, n) |
| Lfsr.AdvanceInjective | Main.c:180-183 | two distinct register states whose `lfsr31` values fit in 31 bits stay distinct after a draw |
| Lfsr.Register.constructor | Main.c:173-176 | the register holds its seed |
| Lfsr.Register.Shift | Main.c:164-171 | the register becomes `(old >> 1) ^ (old & 1 ? mask : 0)` and its new value is returned |
| Lfsr.Rng.constructor | Main.c:173-176 | `init_lfsrs` seeds `lfsr32` with x and `lfsr31` with y |
| Lfsr.Rng.GetRand | Main.c:180-183 | `lfsr32` advances twice and `lfsr31` once; the result is the masked exclusive-or of their new values, at most 0xFFFF |
| Collision.Hits | Main.c:405-406 | a hit puts the crosshair within the cell's span widened by the crosshair size on both axes; `HitsIffBoxesOverlap` gives the converse |
| Collision.MeetIffEndsCross | Main.c:405-406 | two closed intervals meet iff each starts no later than the other ends |
| Collision.HitsIffBoxesOverlap | Main.c:400-406 | the four comparisons hold iff `x±size` overlaps `[px, px+18]` and `y±size` overlaps `[py, py+18]` |
| Crosshair.Factor | Main.c:800-807 | the scale is 12 at speed 1, 6 at speed 0 and 3 at speed -1 |
| Crosshair.Step | Main.c:802-806 | a step is always an `int16_t` value, and zero when the stick is not deflected |
| Crosshair.Delta | Main.c:800-807 | both steps are `int16_t` values, and an axis whose reading equals the resting reading does not move |
| Crosshair.Clamp | Main.c:810-821 | a clamped coordinate lies in [0, hi], equals the input when that is in range, and is the nearer bound otherwise |
| Crosshair.Moved | Main.c:799-825 | the crosshair always ends on the field: x in [0, 127], y in [0, 107] |
| Crosshair.QuotientBounded | Main.c:802-806 | a truncated quotient of a dividend in [-b*f, b*f] lies in [-f, f] and keeps the dividend's sign |
| Crosshair.SmallStep | Main.c:802-806 | a deflection no larger than the resting reading yields a step of at most the scale, in the deflection's direction |
| Crosshair.AtRestStaysPut | Main.c:799-825 | a joystick at its resting reading leaves an on-screen crosshair where it is |
| Crosshair.BoundedMove | Main.c:799-825 | within the stick's range, one sample moves the crosshair at most the scale per axis, in the stick's direction, and by exactly the step when that stays on the field |
| Lifecycle.PickUp | Main.c:369-396 | a pickup sets the modifier and moves its category's token strictly forward |
| Lifecycle.Expire | Main.c:291-297 | a waking worker restores the resting value iff its token is still current; the token itself never changes |
| Lifecycle.ExpireAll | Main.c:291-297 | after any sequence of wake-ups the token is unchanged, and the modifier is either untouched or back at its resting value |
| Lifecycle.SupersededWorkersKeepEffect | Main.c:291-297 | workers holding outdated tokens leave the modifier as the newest pickup set it, however many wake |
| Lifecycle.OverlappingPickups | Main.c:283-298 | of two overlapping pickups, the first worker leaves the effect on and the second reverts it |
| Lifecycle.Initial | Main.c:1163-1166 | the start-up state is sane, with five lives and both flags clear |
| Lifecycle.LoseLife | Main.c:498-514 | `DecLife` takes exactly one life when some are left and none otherwise; it reports the game over iff it took the last life |
| Lifecycle.GameOverExactlyOnce | Main.c:498-514 | n calls leave max(life - n, 0) lives, and the game-over transition happens exactly once, iff 0 < life <= n |
| Lifecycle.RestartRequested | Main.c:1039-1046 | `Restart` changes nothing while restarting or while scoring is 1 or 2; otherwise it sets `restarting` to 1 and proceeds |
| Lifecycle.HighScoreRequested | Main.c:911-923 | `HighScore` does nothing while lives remain or while restarting; a second request moves scoring from 1 to 2; the entry starts (0 to 1) only from the idle state |
| Lifecycle.ScoringFinished | Main.c:968-970 | the finished entry moves scoring from 2 to 3 and keeps the state sane |
| Lifecycle.Restarted | Main.c:1088-1116 | a restart sets score 0, five lives, the crosshair to (63, 63), crosshair size 4, speed 0 and not frozen; it clears both flags, keeps the tokens, and leaves a sane state |
| Lifecycle.PoweredUp | Main.c:362-398 | an extra life adds a life (mod 2^32); a timed pickup sets its own modifier (size 7, speed 1 or -1, or frozen) and moves its category's token forward by one; the other categories, score, flags and position are untouched; no power-up changes nothing; sanity is kept |
| Lifecycle.Rewarded | Main.c:410-413 | a hit adds exactly one point (mod 2^32); everything else is as `PoweredUp` leaves it for the cube's power-up; the state stays sane |
| Lifecycle.EffectEnded | Main.c:283-360 | with its token current, a worker restores its own modifier (size 4, speed 0 or not frozen); with a stale token, or for a power-up without a worker, nothing changes; the other categories, tokens, lives, score, flags and position never change; sanity is kept |
| Lifecycle.PickupWearsOff | Main.c:283-360 | a timed pickup followed by its own worker's wake-up restores every modifier; only the token has moved, by one |
| Lifecycle.SpeedAndSlowShareToken | Main.c:305-338 | a slow-down picked up during a speed-up survives the speed-up's worker, and its own worker ends it |
| Lifecycle.RestartAndScoringExclusive | Main.c:1039-1046 | a repeated restart request is refused; a score entry in progress refuses restarts and only moves scoring from 1 to 2 |
| Lifecycle.Session.constructor | Main.c:1163-1166 | the globals start in the initial state |
| Lifecycle.Session.DecLife | Main.c:498-514 | `Life` becomes `LoseLife(Life)`; nothing else changes; `Life` never goes negative |
| Lifecycle.Session.RequestRestart | Main.c:1039-1046 | the state follows `RestartRequested` |
| Lifecycle.Session.ZeroLife | Main.c:1048-1050 | only `Life` changes, to 0 |
| Lifecycle.Session.CompleteRestart | Main.c:1088-1116 | the state follows `Restarted` |
| Lifecycle.Session.RequestHighScore | Main.c:911-923 | the state follows `HighScoreRequested` |
| Lifecycle.Session.FinishScoring | Main.c:968-970 | the state follows `ScoringFinished` |
| Lifecycle.Session.UpdatePosition | Main.c:799-825 | the position becomes `Moved` of the old one and the reading, the same position is returned for the queue, and the result is 1 |
| Lifecycle.Session.CenterCrosshair | Main.c:938-939 | only the crosshair moves, to (64, 64) |
| Lifecycle.Session.EndEffect | Main.c:291-297 | the state follows `EffectEnded` |
| Lifecycle.Session.Reward | Main.c:410-413 | the state follows `Rewarded` |
| Board.Traits | Main.c:624-645 | a new cube gets 1 to 19 moves of life |
| Board.PowerUpOf | Main.c:626-645 | the five residues 0 to 4 give a power-up and every other residue gives none |
| Board.Neighbour | Main.c:461-477 | the neighbour lies exactly one cell away, in the same column for Up and Down and the same row for Left and Right |
| Board.ChooseDirection | Main.c:447-458 | the selection loop always lands on a valid direction, the unique one with exactly `rand % total` valid directions before it, so the `Fatal` call is unreachable |
| Board.LivePositionsCount | Main.c:478-479 | live cubes on distinct cells occupy as many cells as there are live cubes |
| Board.World.ConsistentWhenRestDead | Main.c:602-648 | a grid consistent with the first n cubes is consistent with all of them when the rest are dead |
| Board.World.OccupiedCountIsLiveCount | Main.c:478-479 | in a consistent world, the number of occupied cells equals the number of live cubes |
| Board.World.CanMove | Main.c:225-248 | a direction is allowed only when its neighbour lies inside the grid |
| Board.World.ValidDirections | Main.c:223-250 | there are four direction flags |
| Board.World.ValidDirectionsAt | Main.c:225-248 | a flag is set iff the neighbour in that direction is inside the 6x6 grid and free |
| Board.World.GetMovableDirections | Main.c:223-250 | the flags are exactly the valid directions, the total is the number of flags set, and the grid is only read |
| Board.World.Relocate | Main.c:461-483 | the cube takes the free in-bounds neighbour; that cell goes from free to occupied and the old one from occupied to free; no other cell or cube changes; consistency is kept |
| Board.World.PickHeading | Main.c:439-459 | the current heading is kept, with no draw, when it is valid; otherwise one draw picks the valid direction with `rand % total` valid ones before it |
| Board.World.MoveCube | Main.c:421-484 | a dead or boxed-in cube changes nothing; otherwise the heading follows `HeadingRule` and the cube steps one cell as `Stepped` states; life, power-up and all other cubes are unchanged, and consistency (so the occupied count) is kept |
| Board.World.KillCube | Main.c:274-277 | the cube is marked dead and only its cell changes, to free; consistency is kept |
| Board.World.CheckBlockIntersection | Main.c:400-419 | a hit happens iff the crosshair box overlaps the cube's cell; then the cube dies, its cell is freed and the session gets the reward; on a miss nothing changes |
| Board.World.RandomDirection | Main.c:185 | one draw, reduced modulo 4 |
| Board.World.Placement | Main.c:607-619 | a placement that succeeds lands on a free cell inside the grid |
| Board.World.PlaceCube | Main.c:603-619 | the do-while loop ends on the first free cell `Placement` finds, or reports the halt after 51 rejected attempts |
| Board.World.FreeAllCells | Main.c:592-597 | every cell is free afterwards |
| Board.World.DrawTraits | Main.c:624-645 | heading, life and power-up are the `Traits` of the registers, which advance by three draws |
| Board.World.Occupy | Main.c:620-623 | the cube is placed alive on the free cell and claims it; no other cell or cube changes |
| Board.World.SpawnCube | Main.c:602-647 | the cube goes where `Placement` says, with `Traits` drawn after it, or the halt is reported |
| Board.World.SpawnCubes | Main.c:602-648 | unless placement halts, the first `numCubes` cubes are alive on distinct free cells, which they hold, and the grid is consistent |
| Board.World.InitCubes | Main.c:584-649 | records `num_cubes` and, unless placement halts, leaves `numCubes` live cubes consistent with the grid; the whole world is consistent when the cubes after them were dead |
| Board.World.SpendMove | Main.c:543 | only the cube's life changes, by -1 |
| Board.World.Expend | Main.c:543-547 | the cube uses one move and dies on its last; a player life is lost then unless it carried SlowDown |
| Board.World.AgeCube | Main.c:541-548 | a dead or frozen cube changes nothing. Otherwise a boxed-in cube keeps its cell, heading and the registers; any other cube takes its heading by `HeadingRule` and moves to that neighbour. Then it spends one move, dies on its last and costs a life unless it carried SlowDown. Consistency and liveliness are kept |
| HighScores.InitialTable | Main.c:1177-1179 | the table starts with four empty slots, each scoring -1 |
| HighScores.NewEntry | Main.c:878-882 | the new entry holds the score, the three letters and a terminating zero |
| HighScores.FirstBelow | Main.c:873-874 | the slot is the first entry scoring less than the new score: every entry before it scores at least as much |
| HighScores.Merged | Main.c:871-886 | the table keeps its size and is unchanged when no entry scores below the new score |
| HighScores.MergedShape | Main.c:873-882 | after an insertion at slot i, entries before i are kept, slot i holds the new entry, and later entries are the old ones one place down |
| HighScores.MergedStaysDescending | Main.c:871-886 | the insertion keeps the table's size and its descending order |
| HighScores.EntersIffBeatsLast | Main.c:871-886 | a score enters a descending table iff it beats the last entry; otherwise the table is unchanged |
| HighScores.EntryReplacesLast | Main.c:871-886 | an entering score takes its slot after any equal scores, the entries ahead stay put, and the table is the old one plus the new entry minus the last |
| HighScores.DroppedIsLowest | Main.c:871-886 | the entry that falls off scores no more than any entry kept |
| HighScores.FirstScoreHeadsTable | Main.c:1177-1179 | the first non-negative score saved after start-up heads the table |
| HighScores.Passed | Main.c:971 | the `unsigned long` score arrives as an `int`: unchanged below 2^31, negative from 2^31 on |
| HighScores.HugeScoreLost | Main.c:971 | a score of 2^31 or more never enters a table whose slots all score at least -1 |
| HighScores.ShiftDown | Main.c:875-877 | entries up to i keep their values and each later entry takes its predecessor's |
| HighScores.MergeHighScore | Main.c:871-886 | the array becomes `Merged` of its old contents and the new entry |
| HighScores.Edited | Main.c:941-953 | one pass keeps three capital letters and an index in [0, 2]; it changes either the index or only the selected letter |
| HighScores.Wrapped | Main.c:947-952 | a letter that stays within 'A'..'Z' moves by exactly the step; otherwise it is wrapped by exactly one lap of 26 |
| HighScores.WrappedRotates | Main.c:947-952 | the single wrap of the source is a rotation of the 26-letter alphabet by the step |
| HighScores.EditedSpec | Main.c:941-953 | a right flick from the centre selects the next letter, a left flick the previous one (both bounded), and otherwise the selected letter rotates by (y - 64) / 3 |
| HighScores.EditedAll | Main.c:936-966 | any number of passes keep the initials legal |
| HighScores.EditPass | Main.c:941-953 | the loop body computes exactly `Edited` |
| HighScores.EnterInitials | Main.c:936-966 | the loop yields `EditedAll` of its samples, always three capital letters |

## Left out

- Threads, semaphores and scheduling are left out, because their semantics live in
  `OS.h`, which is not part of this model. This covers `MoveCubeThread`'s loop,
  `InitAndSyncBlocks`, `DrawCubes`, `Consumer`, `Producer`'s timing, the teardown in
  `Restart` and `OS_AddThread`.
- Each grid or cube operation is modelled as one atomic step. The critical sections
  and `cube->sem` locks that make them atomic on the board are not modelled.
- The power-up workers' `OS_Sleep` and their interleaving are not modelled. A worker
  is modelled as one pickup step (`PoweredUp`) and one wake-up step (`EffectEnded`).
  Which wake-ups happen in which order is left to the caller.
- LCD output, bitmaps, colours, `DrawHighScores`, UART, and the joystick, ADC and
  `JsFifo` hardware are left out, because they are foreign hardware and library
  calls.
- Joystick readings enter `UpdatePosition` as parameters. The samples the score
  entry reads enter `EnterInitials` as a sequence. The seeds enter `Rng`'s
  constructor as parameters.
- Lifecycle.PickUp: the generation tokens `reset_crosshair_id`, `reset_speed_id` and
  `freeze_id` are C `int`s that would overflow after 2^31 pickups; here they are
  unbounded, because no game comes near that many pickups.
- Lfsr.Register.Shift: returns the new register value as a `bv32`, while `shift_lfsr`
  converts it to `int`. The only caller that uses the value, `get_rand`, keeps its low
  16 bits, so the conversion changes nothing there.
- The `Cube` field `color` is left out, because it only matters for drawing.
- Board.World.GetMovableDirections: returns the four flags as a value instead of
  filling the caller's `int8_t` array, because the array is a local of `MoveCube`
  that nothing else sees.
- Board.World.PlaceCube: the source halts in `Fatal` when placement runs out of
  attempts. Here that outcome is reported as `found == false`, and
  `SpawnCube`/`SpawnCubes`/`InitCubes` stop and return `ok == false`.
- Board.World.InitCubes: the state of the cubes after a halted placement is not
  described, because the source never continues from there.
- Board.World.InitCubes: does not state where each cube was placed or which traits it
  drew. `SpawnCube` states both for one cube, but the loops over all cubes keep only
  the invariant: the spawned cubes are alive and hold distinct cells.
- Board.World.SpawnCubes: the same as `InitCubes`. Its contract does not tie each
  cube to `Placement` and `Traits`.
- Board.World.SpawnCube: claims the cell after drawing the cube's traits instead of
  before. The draws never touch the grid, so the outcome is the same.
- Board.World.KillCube: requires a live cube. Every caller in the source kills only
  live cubes: `CheckBlockIntersection` halts in `ClearBlockLCD` for a dead one.
- Board.World.CheckBlockIntersection: requires a live cube, for the same reason.
- Board.World.MoveCube: the occupied-cell count is not stated in the method's
  `ensures`. It follows from the preserved invariant `Valid` through
  `OccupiedCountIsLiveCount`.
- `InitCubes`' thread spawning, `reinit`, `run_once`, `CheckIntOk` and the
  re-initialisation of other semaphores are left out, because they only serve the
  threads.
- Crosshair.Factor: only the speeds -1, 0 and 1 are covered, the only ones the
  speed modifier takes.
- Lifecycle.Session.UpdatePosition: requires a resting joystick reading above zero,
  because the source divides by it.
- HighScores.Edited: requires an on-screen sample, which every sample the producer
  queues is (`Crosshair.Moved`). The letter arithmetic on `char` then stays within
  one lap of the alphabet, whether `char` is signed or not.
- The end of `HighScore`, which stores `scoring = 3` and then calls
  `MergeHighScore(letters, Score)`, is modelled by its parts. Those parts are
  `Session.FinishScoring`, `HighScores.Passed` and `HighScores.MergeHighScore`;
  the call that chains them is not modelled.
- The game-over screen of `DecLife` is left out, because it is LCD output. Its
  trigger is the `gameOver` result.
- The jitter, latency and data-loss counters are left out. `Restart`'s busy-wait,
  the button debounce and `Producer`'s bookkeeping are left out too, because they
  depend on timers and carry no stateable logic.
