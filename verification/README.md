# Breaking-dam fluid demo: scene construction, tick driver and drag

This project models the sequential logic of the position-based-dynamics
fluid demo (`Demos/FluidDemo/main.cpp`) in Dafny and proves properties of it.
The demo does three things the model covers:

- **Scene construction.** `createBreakingDam` fills a flat vector with a
  `width * height * depth` block of fluid particle positions. It places cell
  (i, j, k) at slot `i*height*depth + j*depth + k`, at position
  `diam * (i, j, k) + start`. `initBoundaryData` then appends six container
  faces, each through `addWall`, which samples the box `[minX, maxX]` on a
  lattice of spacing `2 * particleRadius`. A face has
  `trunc(extent / distance) + 1` layers per axis. Each face's block is
  appended after the entries already present.
- **Tick driver.** `timeStep` latches the pause flag once a positive
  pause-at threshold lies strictly below the clock. Unless paused, it runs
  the configured number of (solver step, base step) pairs. `reset` resets
  the model and the solver and sets the clock to zero.
- **Drag perturbation.** `selection` stores the picked particle indices. It
  installs the mouse-move handler exactly when something was picked, and
  anchors the drag at the rectangle's end corner. `mouseMove` adds
  `5 * (mousePos - anchor) / h` to the velocity of every selected particle,
  then moves the anchor to the cursor.

Modules:

- `Vectors` — exact 3-vectors.
- `Arith` — multiplication and division facts, plus a repeated-addition
  `Mul` that keeps the fill loops' proofs linear.
- `Lattice` — the row-major index layout and the generic nested-loop fill
  shared by the fluid and the walls.
- `Scene` — constants, step counts, walls, `AddWall`, `InitBoundaryData`
  and `CreateBreakingDam`.
- `Driver` — `TimeStep`, `Reset` and runs of several ticks.
- `Interaction` — `MouseMove`, `Select` and the delivery of mouse moves.

Modelling choices:

- Positions and velocities are exact `real` vectors; the source's
  floating-point `Real` is not modelled bit for bit.
- The OpenMP-parallel fill loops write disjoint slots, so they are modelled
  as sequential nested loops. A `writes` out-parameter counts the writes
  each slot receives, which states "every slot is written exactly once".
- The solver step, the demo base's step, the model reset and the solver
  reset are opaque collaborators. They appear as `Driver.Event`s in a
  trace. The clock is assumed to advance by the step size `h` on every
  solver step, as the time-step controller does. `Driver.Advance` counts
  these additions one at a time, and `Driver.AdvanceIsProduct` relates them
  to `k * h`.
- Picking (`Selection::selectRect`) and screen-to-world mapping
  (`MiniGL::unproject`) are inputs: the picked indices and the world
  positions are parameters.

Consequences of the code that the model makes explicit:

- The auto-pause compares strictly (`pauseAt < time`, line 158). A tick
  that starts exactly at `pauseAt` does not latch, so it runs all its steps
  and the clock can end at `pauseAt + numSteps * h`
  (`Driver.PauseAtOvershoot`, `Driver.ClockStaysNearThreshold`).
- The steps-per-render count is an `unsigned int`, so 0 is allowed. An
  unpaused tick with a count of 0 issues nothing.

## Model

| member | source | states |
|---|---|---|
| `Lattice.FlatIsBijection` | Demos/FluidDemo/main.cpp:231-245 | The index `a*ny*nz + b*nz + c` maps the cells of an nx*ny*nz block into `[0, nx*ny*nz)`, injectively and onto every slot, with `Unflat` as its inverse |
| `Lattice.FillRow` | Demos/FluidDemo/main.cpp:278-282 | The innermost loop writes cells (a, b, 0) .. (a, b, nz-1) once each, in order, and touches no other slot. Afterwards the fill has progressed by exactly nz slots, each holding its cell's value |
| `Lattice.FillPlane` | Demos/FluidDemo/main.cpp:276-283 | The middle loop writes the ny rows of layer a. Afterwards the fill has covered every cell of layers 0..a, each slot exactly once |
| `Lattice.FillLattice` | Demos/FluidDemo/main.cpp:268-283 | The nested fill grows `base` by nx*ny*nz slots and keeps the earlier entries. Every new slot is written exactly once and earlier slots are never written. The slot at offset `a*ny*nz + b*nz + c` past the end of `base` receives the generator's value for cell (a, b, c) |
| `Lattice.FilledIsLayout` | Demos/FluidDemo/main.cpp:236-245 | A vector that keeps its prefix and holds each cell's value at that cell's flat index, with no other slots, equals the prefix followed by the reference layout |
| `Lattice.FillBlock` | Demos/FluidDemo/main.cpp:274-283 | The lattice fill equals `base` followed by the reference block. Cell (a, b, c) lands at origin + spacing*(a, b, c). Earlier entries are untouched and each new slot is written once |
| `Scene.AxisSteps` | Demos/FluidDemo/main.cpp:264-266 | The per-axis layer count is the unique n >= 1 with `(n-1)*d <= extent < n*d`, that is, the truncated quotient plus one. A zero extent gives exactly one layer |
| `Scene.WallCount` | Demos/FluidDemo/main.cpp:269 | A wall with non-negative extents contributes at least one particle |
| `Scene.AddWall` | Demos/FluidDemo/main.cpp:259-286 | `addWall` appends exactly stepsX*stepsY*stepsZ entries and leaves every entry before `startIndex` unchanged. The entry at `startIndex + j*stepsY*stepsZ + k*stepsZ + l` is `minX + distance*(j, k, l)`. Each new slot is written exactly once |
| `Scene.Walls` | Demos/FluidDemo/main.cpp:290-310 | Six faces, in the order floor, top, left, right, back, front, all with non-negative extents. Floor and top are flat in y at 0 and containerHeight. Left and right are flat in x at -containerWidth/2 and containerWidth/2; back and front are flat in z at -containerDepth/2 and containerDepth/2 |
| `Scene.BoundaryLength` | Demos/FluidDemo/main.cpp:300-310 | The concatenated boundary holds exactly the sum of the wall counts, at least one particle per wall |
| `Scene.BoundarySegment` | Demos/FluidDemo/main.cpp:268-269 | Wall i occupies exactly the slots between the sum of the earlier walls' counts and that sum plus its own count |
| `Scene.FaceCounts` | Demos/FluidDemo/main.cpp:290-310 | Each face is one layer thick across its normal. So floor and top hold stepsX*stepsZ, left and right stepsY*stepsZ, back and front stepsX*stepsY, and the boundary holds twice their sum |
| `Scene.AddWalls` | Demos/FluidDemo/main.cpp:300-310 | `addWall` applied to each wall in turn appends the walls' lattices in order after the existing entries. The length grows by the sum of the wall counts |
| `Scene.InitBoundaryData` | Demos/FluidDemo/main.cpp:288-311 | `initBoundaryData` appends the six faces' lattices in order after the existing entries. Its total is the sum of the six wall counts |
| `Scene.CreateBreakingDam` | Demos/FluidDemo/main.cpp:221-256 | The fluid vector has width*height*depth entries, each written exactly once. The entry at `i*height*depth + j*depth + k` is `diam*(i, j, k) + (startX, startY, startZ)`. The boundary is the six walls' lattices |
| `Driver.AdvanceIsProduct` | Demos/FluidDemo/main.cpp:166-173 | k solver steps of size h advance the clock by exactly k*h |
| `Driver.RunSteps` | Demos/FluidDemo/main.cpp:165-173 | k loop iterations issue exactly k (solver step, base step) pairs in that order. They advance the clock by k steps of h |
| `Driver.TimeStep` | Demos/FluidDemo/main.cpp:155-174 | Pause is latched iff it was set or `pauseAt > 0 && pauseAt < time`, and it is never cleared. A paused tick issues nothing. An unpaused tick issues exactly numSteps alternating pairs. The threshold and steps per render are unchanged |
| `Driver.Reset` | Demos/FluidDemo/main.cpp:114-122 | `reset` resets the model, then the solver, then sets the clock to 0. Everything else is kept |
| `Driver.PausedTicksAreInert` | Demos/FluidDemo/main.cpp:161-162 | Once paused, any number of ticks changes nothing and issues nothing |
| `Driver.RunningClock` | Demos/FluidDemo/main.cpp:157-173 | Without a threshold, n ticks issue n*numSteps alternating pairs and advance the clock by n*numSteps steps of h |
| `Driver.PauseAtOvershoot` | Demos/FluidDemo/main.cpp:157-166 | The threshold is compared with the clock before the tick's steps: a tick starting at or below it runs all its steps, and the next tick after crossing latches pause and runs nothing |
| `Driver.ClockStaysNearThreshold` | Demos/FluidDemo/main.cpp:157-173 | With a positive threshold, the clock never passes the threshold by more than numSteps steps of h (pauseAt + numSteps*h), however many ticks run |
| `Driver.ResetDoesNotLatch` | Demos/FluidDemo/main.cpp:121 | After a reset the clock is 0, so whatever the threshold, the next tick does not latch pause; the pause flag stays as it was |
| `Driver.ResetKeepsPause` | Demos/FluidDemo/main.cpp:114-122 | Reset does not clear the pause flag: a paused driver stays inert after a reset |
| `Interaction.MouseMove` | Demos/FluidDemo/main.cpp:124-139 | Every selected particle's velocity gains 5*diff/h once per occurrence of its index. Every unselected velocity is unchanged, and the anchor becomes the new mouse position |
| `Interaction.Select` | Demos/FluidDemo/main.cpp:141-153 | The selection becomes the picked indices. The drag handler is enabled iff the selection is non-empty, and the anchor is the rectangle's end corner |
| `Interaction.SelectionGatesDrag` | Demos/FluidDemo/main.cpp:147-150 | After an empty selection a mouse move changes nothing. After a non-empty one it changes exactly the selected velocities, by the impulse measured from the end corner |
| `Interaction.DragAccumulates` | Demos/FluidDemo/main.cpp:128-138 | Because the anchor follows the cursor, two drags to m1 and then m2 give the same velocities and anchor as one drag to m2 |

## Left out

- `render`, `main` and `cleanup`: drawing, GUI parameter registration, callback wiring and viewport setup are presentation and plumbing.
- Logging and the timing statistics in `reset` and `timeStep` have no effect on the modelled state.
- The bodies of the solver step and reset, the model reset, `DemoBase::step` and `TimeManager` are not part of this model. They are recorded as events, and the clock advance per solver step is an assumption.
- The user's own pause toggle lives in the demo base's GUI and is not part of this model. Only the auto-pause latch of `timeStep` is.
- Mouse-move delivery by the window layer is not part of this model. `Interaction.DeliverMove` assumes a move reaches `mouseMove` exactly when a handler is installed, and ignores the button argument `2` passed to `setMouseMoveFunc` (line 148).
- The idle-callback scheduling is not part of this model. `Driver.Ticks` assumes idle callbacks run back to back, with no user pause toggle or reset between them.
- `Selection::selectRect` and `MiniGL::unproject` are not part of this model. Their results are parameters, and the unprojection is assumed to succeed.
- Interaction.MouseMove: requires every selected index to address a particle, as the picker only returns indices of existing particles.
- Interaction.MouseMove: requires a non-zero step size; the demo sets it to 0.0025 in `buildModel`.
- Floating-point rounding of `Real` is not modelled. Exact reals are used, so no particle counts are claimed for the shipped constants.
- The 32-bit unsigned wrap-around of counts and indices is not modelled, because integers are unbounded.
- Scene.AddWall: requires non-negative extents. The source's cast is undefined once the quotient is -1 or below. An extent in (-distance, 0) gives one layer in the source and is excluded here too. `Walls` never produces a negative extent.
- OpenMP parallelism: the fill loops are modelled sequentially, which is faithful because their slots are disjoint.
- `yshift` in `createBreakingDam` is computed but never used, so it is not modelled.
- Particle velocities before the fill, the radius setter and `initModel` belong to the fluid model and are not part of this model.
