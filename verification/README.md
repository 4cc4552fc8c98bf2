# Grid raycaster, modelled in Dafny

This project models the two pygame raycasting scripts of the repository: `2D.py` (a top-down view with a fan of 10 rays) and `3D.py` (the same map view plus a first-person projection with 30 rays, and a wall collision test). It keeps the logic of both scripts and leaves out the drawing:

- the startup map-size check;
- the fan of rays, built by adding `STEP_ANGLE` to `start_angle` after each ray;
- the depth loop that marches an integer depth along one ray. It converts each sample point to a cell with `int()` and stops at the first cell that passes the upper-bound test and holds `'1'`;
- the 3D projection: the shade, the fish-eye correction, the clamped wall height and the slice rectangle;
- turning and stepping with the arrow keys and W/S;
- the 3D collision test `isCollidingWalls` and the reversal of the last step.

Modules:

- `Python`: the two bits of Python semantics the scripts rely on. `int()` on a float truncates toward zero. `s[i]` counts from the end for a negative `i` and raises IndexError outside `[-len(s), len(s))`. Nothing in either script catches the error, so IndexError ends the program; the model carries it as an outcome (`Outcome.IndexError`, `RayOutcome.Crashed`).
- `Grid`: the constants, the map, the size check, the map reads of `drawMap` (which raise IndexError on a short row) and the guarded cell lookup. The lookup tests only `row < MAP_SIZE and col < MAP_SIZE`, as the scripts do. A negative index is never rejected by the test; Python either wraps it or raises.
- `Stepper`: the depth loop (`CastRay`, a method with a loop), proved equal to its recursive form `FirstHit`. Its specification is `LeastBlocking`, the least depth whose cell blocks the ray, and `FirstHitIsLeast` proves that the two agree. It also holds the fan specification `Fan`: the outcome of every ray, cut after the first ray that raised.
- `Movement`: turning, stepping and the W/S block.
- `Projection`: the shade, height and slice formulas of the 3D script.
- `Raycast2D` and `Raycast3D`: each script's `cast_rays` as a method with the script's loop. Each also has a `Game` class whose fields are the module-level globals the main loop updates in place.

`math.sin` and `math.cos` are inputs: a ray carries the sine and cosine of its angle, and the methods take `sin` and `cos` as function parameters. All arithmetic is on exact reals.

Behaviour of the scripts worth noting, which the model keeps:

- Cells are computed with `int()` (truncation), not `floor`. A point less than one cell left of or above the map maps to row or column 0.
- Out-of-bounds cells are not always skipped. A negative row or column passes the upper-bound test and reads a cell from the far side of the map, or raises IndexError below `-MAP_SIZE` (`Grid.NegativeRowsWrap`). A ray cast from above the map can report a hit on such a wrapped cell (`Stepper.RayHitsWrappedCell`).
- The wall height does not decrease strictly with depth. It is constant at `WIDTH` in the clamped region (`Projection.NearWallsClamped`) and strictly decreasing only below the clamp.
- Collision reversal is not idempotent. Each pass of the main loop in which the player's cell is a wall steps the player back once more (`Raycast3D.CollisionRepeats`).

## Model

| member | source | states |
|---|---|---|
| Python.Trunc | 3D.py:89-90 | `int()` on a float truncates toward zero: the result is within one of x, on the side of zero |
| Python.TruncMonotone | 3D.py:106 | `int()` keeps the order of non-negative values |
| Python.Index | 3D.py:95 | a list or string index succeeds exactly for `-len <= i < len`, and reads element `i mod len` |
| Grid.CheckMapSize | 2D.py:36-38 | the size check raises IndexError exactly for the empty map; accepting a map implies 8 rows and an 8-character first row |
| Grid.MapSizeAccepted | 2D.py:36-38 | the check accepts a map if and only if it has MAP_SIZE rows and a first row of MAP_SIZE characters |
| Grid.OtherRowsUnchecked | 3D.py:38-40 | changing any row but the first never changes the verdict |
| Grid.RaggedMapAccepted | 2D.py:36-59 | a non-rectangular map passes the check, and `drawMap` then raises IndexError on it |
| Grid.LiteralMapsAccepted | 2D.py:26-38 | both map literals, this one and the 3D one at 3D.py:28-40, pass the check, are rectangular, and let `drawMap` read every cell |
| Grid.DrawMap | 2D.py:51-61 | the nested `drawMap` loops over `range(MAP_SIZE)` (also 3D.py:54-64) finish exactly when no read `mMap[row][col]` raises IndexError |
| Grid.DrawMapRaisesOnShortRow | 3D.py:38-62 | on a map the size check accepted, `drawMap` raises exactly when some row is shorter than MAP_SIZE |
| Grid.BoundsTest | 3D.py:93 | definition: the upper-bound-only test `row < MAP_SIZE and col < MAP_SIZE`, also at 2D.py:89 and 3D.py:150; NegativeRowsWrap shows what it lets through |
| Grid.CellAt | 3D.py:95 | on a rectangular map `mMap[row][col]` succeeds exactly for row and col in `[-8, 8)`, and reads the cell at `row mod 8`, `col mod 8` |
| Grid.NegativeRowsWrap | 3D.py:93-95 | row -1 passes the bounds test and reads the last row; row -9 passes it and raises IndexError |
| Grid.CellOf | 3D.py:89-90 | definition: the cell `(int(y / TILE_SIZE), int(x / TILE_SIZE))`; CellOfContains characterises it |
| Grid.CellOfContains | 3D.py:89-90 | for non-negative coordinates the computed cell is the square containing the point; a coordinate in (-60, 0) still maps to index 0 |
| Grid.LookAt | 3D.py:93-95 | a cell is read only when row and col pass the upper-bound test; the result is Unchecked, the piece read, or Raised, and each case holds exactly under its condition |
| Grid.NoIndexErrorNearMap | 3D.py:93-95 | on a rectangular map the lookup cannot raise while the point is less than 9 cells left of or above the map |
| Stepper.SamplePoint | 3D.py:85-86 | definition: the sample point `(x - sin·d, y + cos·d)`; SampleAtDistance characterises it |
| Stepper.SampleAtDistance | 3D.py:85-86 | with a genuine sine and cosine, the sample at depth d lies at distance d from the player |
| Stepper.SearchFrom | 3D.py:83-128 | definition: the depth loop from a given depth on; SearchFromIsLeast characterises it |
| Stepper.FirstHit | 3D.py:83-128 | definition: the outcome of one ray, the search from depth 0; FirstHitIsLeast characterises it |
| Stepper.SearchFromIsLeast | 3D.py:83-128 | the search from any depth returns the least blocking depth at or after it, or NoHit when none blocks |
| Stepper.LeastBlockingUnique | 3D.py:83-128 | there is at most one least-blocking outcome |
| Stepper.FirstHitIsLeast | 3D.py:83-128 | a ray's outcome equals r if and only if r is the least depth in `[0, MAX_DEPTH)` whose cell passes the test and is a wall (or raises), with no blocking depth before it |
| Stepper.HitPassesBoundsTest | 2D.py:85-93 | a hit lies within the march, on the cell of its sample point, which passed the upper-bound test and holds a wall |
| Stepper.CastRay | 2D.py:79-101 | the depth loop with its `break` returns exactly `FirstHit` |
| Stepper.NoWallNoHit | 2D.py:89-101 | on a map without any `'1'` no ray ever reports a hit |
| Stepper.OpenMapNoHit | 2D.py:79-101 | from a point on or right of and below the map, a ray over the all-empty map marches to MAX_DEPTH with no hit and no IndexError |
| Stepper.StartRayHitsWallBelow | 3D.py:83-97 | from the 3D start position a ray along +y hits wall cell (5, 4) at depth 60 |
| Stepper.RayHitsWrappedCell | 3D.py:89-97 | a ray from above the 3D map hits at depth 0 on row -1, which passes the test and reads the last row |
| Stepper.RayAngle | 3D.py:78-140 | definition: ray i's angle `angle - HALF_FOV + i·step`; RayAngleNext and FanSpansFov characterise it |
| Stepper.RayAt | 3D.py:78-86 | definition: the ray cast from the player at ray i's angle |
| Stepper.RayAngleNext | 3D.py:140 | adding `STEP_ANGLE` to ray j's angle gives ray j+1's angle |
| Stepper.FanSpansFov | 3D.py:78-81 | ray 0 is cast at `angle - HALF_FOV`, and every ray of the fan at an angle in `[angle - HALF_FOV, angle + HALF_FOV)` |
| Stepper.UpToCrashIsPrefix | 3D.py:81-95 | the rays cast are a prefix of the fan; only the last can have raised, and it did raise if the prefix is short |
| Stepper.CastNext | 2D.py:77-113 | casting the next ray either continues the fan or, on IndexError, completes it |
| Stepper.Fan | 3D.py:76-140 | definition: the outcomes of one `cast_rays` call; FanRays characterises it |
| Stepper.FanRays | 2D.py:74-113 | `cast_rays` casts at most RAYS_NUM rays, each with the first-hit outcome at its own angle, and stops early only after a ray that raised |
| Movement.Turn | 2D.py:138-139 | the angle decreases exactly when LEFT is held, increases exactly when only RIGHT is held, and changes by at most LOOK_SENSITIVITY |
| Movement.TurnsCancel | 3D.py:194-197 | a RIGHT tick undoes a LEFT tick and the other way round |
| Movement.Step | 3D.py:199-205 | definition: one step of PLAYER_MOVE_SPEED along `(-sin, cos)`, forward or backward; StepLength and StepReversed characterise it |
| Movement.StepLength | 3D.py:199-205 | with a genuine sine and cosine, a step moves the player exactly PLAYER_MOVE_SPEED units |
| Movement.StepReversed | 3D.py:168-174 | the reversal delta negates the move delta, so a step back at the same angle restores the position |
| Movement.Move | 2D.py:141-146 | W wins over S and steps forward; with neither held the position is unchanged |
| Movement.BackIsReverseStep | 2D.py:144-146 | S alone steps backward: a forward step from its result returns to the start, and the player moves unless sine and cosine are both 0 |
| Movement.BackUndoesForward | 2D.py:141-146 | an S tick undoes a W tick at the same angle |
| Projection.Shade | 3D.py:106 | the shade is in `[0, 255]` and is 255 at depth 0 |
| Projection.ShadeNonIncreasing | 3D.py:106 | a farther hit is never lighter |
| Projection.Offset | 3D.py:109 | definition: `player_angle - start_angle` for ray i, `HALF_FOV - i·STEP_ANGLE`; OffsetWithinHalfFov bounds it |
| Projection.OffsetWithinHalfFov | 3D.py:109 | every ray's offset from the facing direction lies in `(-HALF_FOV, HALF_FOV]` |
| Projection.CorrectedDepth | 3D.py:109 | the fish-eye-corrected depth is non-negative and at most the raw depth |
| Projection.WallHeight | 3D.py:112-115 | the wall height is positive and at most WIDTH |
| Projection.HeightNonIncreasing | 3D.py:112-115 | a farther wall is never taller |
| Projection.HeightDecreasingBelowClamp | 3D.py:112-115 | below the clamp, a farther wall is strictly shorter |
| Projection.NearWallsClamped | 3D.py:115 | walls nearer than about 21.9 units all get height WIDTH |
| Projection.Project | 3D.py:118-124 | the slice of ray i starts at `WIDTH/2 + 16·i` with width SCALE and fits in the right half of the window; its height, top and shade are in range |
| Projection.SlicesTileRightHalf | 3D.py:16-124 | slices tile the right half: ray 0 starts at WIDTH/2, each slice starts where the previous ends, and the last ends at WIDTH |
| Projection.NearerIsTallerAndLighter | 3D.py:106-124 | for the same ray, a nearer hit gives a slice at least as tall and as light |
| Raycast2D.CastRays | 2D.py:72-113 | the fan loop returns exactly `Fan`: every ray's first-hit outcome, in order, up to and including a ray that raised |
| Raycast2D.Game.constructor | 2D.py:20-38 | the start state: a map that passed the check, the player at (240, 240) facing pi |
| Raycast2D.Game.ApplyKeys | 2D.py:137-146 | the angle becomes `Turn`, then the position becomes `Move` at the new angle; the map is unchanged |
| Raycast2D.Game.Tick | 2D.py:117-146 | one pass reads the map in `drawMap`, casts the fan from the current state, then applies the keys; when the map read or a ray raises, the pass stops with the state unchanged and no keys read |
| Raycast3D.SliceOf | 3D.py:97-124 | a ray gets a slice exactly when it hit; the slice's shade is that of the raw depth, and it sits at column `WIDTH/2 + 16·i` |
| Raycast3D.CosNonNegativeNearFacing | 3D.py:109 | a cosine non-negative within HALF_FOV of 0, as the real one is, is non-negative at every ray's offset, which CastRays requires |
| Raycast3D.CastRays | 3D.py:76-140 | the fan loop returns exactly `Fan`, and one slice entry per ray cast, each the projection of that ray's hit |
| Raycast3D.SliceFor | 3D.py:97-124 | the slice computed after the depth loop is the one `SliceOf` prescribes |
| Raycast3D.ProjectHit | 3D.py:106-124 | the hit branch computes exactly the projected slice |
| Raycast3D.IsCollidingWalls | 3D.py:144-157 | True exactly when the player's cell passes the upper-bound test and holds a wall; None exactly when it fails the test; IndexError exactly when reading it raises |
| Raycast3D.AfterCollision | 3D.py:168-174 | definition: the position after the collision block; CollisionUndoesLastStep and NoCollisionNoChange characterise it |
| Raycast3D.CollisionUndoesLastStep | 3D.py:168-174 | when a step at an angle ends inside a wall, the reversal at that angle restores the position from before the step |
| Raycast3D.NoCollisionNoChange | 3D.py:168 | when the test gives False or None the position is unchanged |
| Raycast3D.CollisionRepeats | 3D.py:168-174 | a player inside a wall is stepped back on every pass, not once: from (30, 30) to (30, 28) and then to (30, 26) |
| Raycast3D.WalkForwardAfter | 3D.py:199-206 | W sets the direction flag, S clears it, and otherwise it is kept |
| Raycast3D.NextCollisionUndoesMove | 3D.py:161-206 | a move into a wall is undone by the collision block of the next pass, which sees the same angle and flag |
| Raycast3D.Game.constructor | 3D.py:20-40 | the start state: a map that passed the check, the player at (240, 240) facing pi, walking forward |
| Raycast3D.Game.ResolveCollision | 3D.py:168-174 | the position becomes `AfterCollision`; on IndexError the program ends with the state unchanged |
| Raycast3D.Game.ApplyKeys | 3D.py:193-206 | the angle becomes `Turn`, the position `Move` at the new angle, the direction flag `WalkForwardAfter`; the map is unchanged |
| Raycast3D.Game.Tick | 3D.py:161-206 | one pass: collision, then the map reads of `drawMap`, then the fan from the corrected position, then the keys; an IndexError in any of the first three stops the pass, keeping the position the collision block left |

## Left out

- Drawing: the window, the rectangles and circle `drawMap` draws (its map reads are modelled by `Grid.DrawMap`), the ray lines inside the depth loop, the green rectangle over a hit cell, the background, and the slice rectangles, which are computed but not drawn.
- Event handling and the quit path (the QUIT and ESCAPE events, `sys.exit`), the frame clock and FPS caption. These are I/O and timing. The infinite main loop is modelled as one pass (`Tick`).
- The failed size check's message and exit. `CheckMapSize` returns the verdict, and the constructors require a map that passed it.
- `math.sin`, `math.cos` and IEEE float rounding. Sine and cosine are inputs and the arithmetic is exact over the reals, so truncation at float boundaries and any rounding drift of `start_angle += STEP_ANGLE` are not modelled.
- Raycast3D.CastRays: requires the cosine to be non-negative at every ray's offset. This holds for the real cosine, since each offset lies within pi/6 of 0 (`Projection.OffsetWithinHalfFov`), but the model does not derive it from `sin` and `cos` being genuine; `Raycast3D.CosNonNegativeNearFacing` derives it from a cosine that is non-negative within HALF_FOV of 0. The same requirement rules out a negative corrected depth, for which the height formula could divide by zero.
- Raycast3D.Game.Tick: inherits the cosine requirement of CastRays.
- `2D Base.py` is not part of this model.
