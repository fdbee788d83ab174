# OpenGL_Game3D: the game logic behind three OpenGL demos

This project models the non-graphical core of three OpenGL demos in Dafny and
proves properties of that model.

- **Character animation control (Assignment5).** Each frame, the render loop
  drives a ten-state machine (`IDLE`, `IDLE_WALK`, `WALK`, `WALK_IDLE`, and
  an enter and an exit state for each of punch, kick and talk). The blend
  accumulator grows by 0.055 per frame, modulo one, and the state commits to
  its successor once the accumulator passes 0.9. The exit states of the three
  actions first wait until the animator clock passes 0.7, 1.0 or 3.0. Arrow
  keys turn the character and take one step out of `IDLE`. Hotkeys 1-5 cut
  straight to a clip. `AnimationSpec.Next` is one frame as a pure function.
  `AnimationController.Controller.Step` is the source's `switch`, branch by
  branch, proved equal to it.
- **Crossy-road bookkeeping (Assignment4).** The world is a list of rows:
  - A road row (flag 1) has one lane of one or two cars. A safe row (flag 0)
    sometimes has one to three trees.
  - `spawnNewRow` appends rows from a random engine.
  - `updateCars` drives the cars and wraps them at x = ±42.
  - `checkCollisions` ends the game when a car comes within 1 of the player.
  - `canMoveTo` refuses cells within 1.5 of a tree.
  - `processInput` moves the player one grid cell per key press, using static
    latches. R restarts the game.
  - The frame update credits new rows to the score and speed, and keeps 15
    rows spawned beyond the player.

  `CrossySpec` states all of this as functions. `CrossyWorld.World` holds the
  game's globals and implements the source's functions as methods, each
  proved against `CrossySpec`.
- **Sphere mesh (Assignment3).** `createSphereVAO` builds a
  (stackCount+1)×(sectorCount+1) vertex grid and an index buffer of two
  triangles per cell: the first stack gets no upper triangles and the last
  stack no lower ones. `loadTexture` picks GL_RED, GL_RGB or GL_RGBA from the
  image's channel count. `SphereBuilder.CreateSphere` runs the source's loops.
  `SphereMesh` defines what the loops build. `SphereProperties` proves:
  - the vertex and index counts;
  - every index names an existing vertex;
  - the buffer is made of whole triangles, each spanning two neighbouring
    stack rows.

The random engine becomes a stream of draws in [0, 1), `draws: nat -> real`,
plus a cursor. The world reads the stream one draw at a time. Keys, frame
times, the animator's clocks and `glm::normalize` are parameters. Floats are
modelled as exact reals.

In the source paths below, `A3`, `A4` and `A5` stand for:
- `A3` = `Assignment3-3D-Kinetic-sculpture-animation/main.cpp`
- `A4` = `Assignment4-Load-3D-model-camera-following-collision-detection/main.cpp`
- `A5` = `Assignment5-Character-animation-control/main.cpp`

The table's source column spells the paths out in full.

## Model

| member | source | states |
|---|---|---|
| Geometry.Trunc | Assignment4-Load-3D-model-camera-following-collision-detection/main.cpp:162 | a float-to-int cast truncates toward zero: the result is within one of x, on the side of zero |
| Geometry.FmodOne | Assignment5-Character-animation-control/main.cpp:214-215 | `fmod(x, 1)` lies in [0, 1) for x >= 0 and in (-1, 0] for x < 0, is x itself on [0, 1), and differs from x by an integer |
| AnimationSpec.Hotkey | Assignment5-Character-animation-control/main.cpp:137-146 | the last held key of 1-5 decides, as the five `if`s in order overwrite each other: 5 → talk, else 4 → kick, else 3 → punch, else 2 → walk, else 1 → idle; no clip is forced exactly when none is held, and the idle clip only when key 1 alone is held |
| AnimationSpec.AfterHotkeys | Assignment5-Character-animation-control/main.cpp:137-146 | without a hotkey the animator is untouched; with one it plays the clip `Hotkey` selects, alone, from time 0 with blend 0 |
| AnimationSpec.IdleDirection | Assignment5-Character-animation-control/main.cpp:159-181 | the direction IDLE builds is nonzero whenever an arrow is held and never leaves the ground plane |
| AnimationController.Controller.constructor | Assignment5-Character-animation-control/main.cpp:39-118 | the character starts in IDLE at the origin (line 39), unrotated (line 40), playing the idle clip with blend 0 (lines 116-118) |
| AnimationController.Controller.Blend | Assignment5-Character-animation-control/main.cpp:214-222 | the blend block shared by every blending state is one `BlendStep`: add 0.055 modulo one and cross-fade; past 0.9, commit to the target clip alone from the secondary clock |
| AnimationController.Controller.Hotkeys | Assignment5-Character-animation-control/main.cpp:137-146 | the five hotkey tests leave the animator as `AfterHotkeys` says |
| AnimationController.Controller.IdleBranch | Assignment5-Character-animation-control/main.cpp:150-212 | the IDLE case, including its dead exit test, ends in exactly the snapshot `IdleStep` gives |
| AnimationController.Controller.WalkBranch | Assignment5-Character-animation-control/main.cpp:225-267 | the WALK case turns with the arrows, never moves, and leaves for WALK_IDLE without arrows, as `WalkStep` says |
| AnimationController.Controller.Step | Assignment5-Character-animation-control/main.cpp:126-374 | one pass of the render loop (clocks from the last update, hotkeys, then the switch) yields exactly `Next` of the old state, and keeps the accumulator in [0, 1) |
| AnimationProperties.IdleArrowEntersWalk | Assignment5-Character-animation-control/main.cpp:152-195 | from IDLE any held arrow wins over J/K/T: IDLE_WALK with blend 0, turned by the last arrow, one step of `2 * deltaTime` along the normalised direction |
| AnimationProperties.IdleActionPriority | Assignment5-Character-animation-control/main.cpp:196-211 | without arrows J beats K beats T; with none held, state, accumulator, position and rotation stay |
| AnimationProperties.ArrowRotationIsLastHeld | Assignment5-Character-animation-control/main.cpp:159-181 | the rotation is that of the last held arrow when UP (180), DOWN (0), LEFT (-90), RIGHT (90) are checked in order, else unchanged |
| AnimationProperties.BlendingStateAdvances | Assignment5-Character-animation-control/main.cpp:213-370 | an ungated blending state advances the accumulator modulo one and, past 0.9, resets it and moves to its successor; position and rotation stay |
| AnimationProperties.Successors | Assignment5-Character-animation-control/main.cpp:213-370 | the successor table: IDLE_WALK→WALK, WALK_IDLE→IDLE, each action's enter state→its exit state, each exit state→IDLE |
| AnimationProperties.GateHolds | Assignment5-Character-animation-control/main.cpp:292-370 | PUNCH_IDLE, KICK_IDLE and TALK_IDLE stay untouched until the animator clock passes 0.7, 1.0 and 3.0 |
| AnimationProperties.CommitRestartsTarget | Assignment5-Character-animation-control/main.cpp:213-370 | every state change out of a blending state goes to its successor with blend 0 and the target clip alone at the secondary clock's time |
| AnimationProperties.WalkExitsExactlyWithoutArrows | Assignment5-Character-animation-control/main.cpp:225-267 | WALK goes to WALK_IDLE (accumulator reset) exactly when no arrow is held and stays WALK exactly when one is; the position never changes |
| AnimationProperties.HotkeysOnlyTouchAnimator | Assignment5-Character-animation-control/main.cpp:137-146 | outside the gated states, hotkeys change no state, accumulator, position or rotation compared with the same frame without them |
| AnimationProperties.HotkeyKeepsGateClosed | Assignment5-Character-animation-control/main.cpp:137-146 | in a gated state a hotkey resets the clock the gate reads, so that frame the state and accumulator stay |
| AnimationProperties.NextKeepsBlendInRange | Assignment5-Character-animation-control/main.cpp:213-370 | one frame keeps the accumulator in [0, 1) |
| AnimationProperties.RunKeepsBlendInRange | Assignment5-Character-animation-control/main.cpp:126-374 | any number of frames keeps the accumulator in [0, 1) |
| AnimationProperties.EnteringBlendCommitsOnSeventeenthFrame | Assignment5-Character-animation-control/main.cpp:213-222 | an entering blend holds n·0.055 after n frames, stays for 16 frames and commits on exactly the 17th, whatever the keys |
| CrossySpec.MoveCars | Assignment4-Load-3D-model-camera-following-collision-detection/main.cpp:446-460 | `updateCars` keeps the number and order of the cars, changes nothing but each car's x, and leaves right-moving cars at x ≤ 42 and left-moving ones at x ≥ -42 |
| CrossyProperties.MoveCarStaysOnRoad | Assignment4-Load-3D-model-camera-following-collision-detection/main.cpp:446-460 | one car's move changes only its x, to at most 42 when it drives right and at least -42 when it drives left, whatever the speed and frame time |
| CrossyProperties.SpacedIsProduct | Assignment4-Load-3D-model-camera-following-collision-detection/main.cpp:531-537 | the spacings laid end to end equal `i * carSpacing` |
| CrossyProperties.SpawnCarsOnRow | Assignment4-Load-3D-model-camera-following-collision-detection/main.cpp:519-540 | the car loop makes exactly n cars, all on the row (row index, lane 10·row, z, y = 0) and all driving one way |
| CrossyProperties.SpawnCarsOffScreen | Assignment4-Load-3D-model-camera-following-collision-detection/main.cpp:519-540 | new cars start beyond the road's edge on the side they come from (x ≤ -42 or x ≥ 42), with speeds in [7, 13) |
| CrossyProperties.SpawnTreesOnRow | Assignment4-Load-3D-model-camera-following-collision-detection/main.cpp:546-557 | the tree loop makes exactly n trees on the row's z with x in [-17.6, 17.6) |
| CrossyProperties.SpawnRowShape | Assignment4-Load-3D-model-camera-following-collision-detection/main.cpp:503-563 | the row flag is 1 exactly when cars were spawned (one or two of them, no trees); a safe row has no cars and at most three trees; draws are consumed |
| CrossyProperties.SpawnRowPlacement | Assignment4-Load-3D-model-camera-following-collision-detection/main.cpp:503-563 | everything a new row spawns belongs to it: cars with its index, lane and z, one direction, off-screen; trees on its z within 17.6 of the centre |
| CrossyProperties.CurrentRowOfRowZ | Assignment4-Load-3D-model-camera-following-collision-detection/main.cpp:162 | the player's row number at row r's z is r |
| CrossyProperties.PressMovesOneStep | Assignment4-Load-3D-model-camera-following-collision-detection/main.cpp:330-389 | each movement key moves the player exactly one step of 2 along its axis or not at all, and leaves its latch equal to the key |
| CrossyProperties.HeldKeyMovesOnce | Assignment4-Load-3D-model-camera-following-collision-detection/main.cpp:324-389 | holding a key across frames moves at most once: after the first frame sets the latch, the next frame changes nothing, whatever the camera and trees are by then |
| CrossyProperties.BlockedForwardStillLatches | Assignment4-Load-3D-model-camera-following-collision-detection/main.cpp:332-345 | a forward press into a tree or behind the camera margin changes nothing but the latch |
| CrossyProperties.LeftTestsTheOtherSide | Assignment4-Load-3D-model-camera-following-collision-detection/main.cpp:361-374 | A moves to x + 2 exactly when the cell at x − 2 is in view, inside the grid and free of trees |
| CrossyProperties.RightTestsTheOtherSide | Assignment4-Load-3D-model-camera-following-collision-detection/main.cpp:376-389 | D moves to x − 2 exactly when the cell at x + 2 is in view, inside the grid and free of trees |
| CrossyProperties.NoMovementWhenOver | Assignment4-Load-3D-model-camera-following-collision-detection/main.cpp:330 | once the game is over no key moves the player or changes a latch |
| CrossyProperties.FollowNeverBacksUp | Assignment4-Load-3D-model-camera-following-collision-detection/main.cpp:177-189 | with a non-negative follow rate the camera never moves back in z |
| CrossyProperties.ExtendKeepsConsistent | Assignment4-Load-3D-model-camera-following-collision-detection/main.cpp:503-563 | `spawnNewRow` keeps every flag 0 or 1, every car on the road row it names and every tree on a safe row |
| CrossyProperties.SpawnedAppends | Assignment4-Load-3D-model-camera-following-collision-detection/main.cpp:496-498 | n spawns add exactly n rows and never rewrite earlier rows, cars or trees |
| CrossyProperties.SpawnedKeepsConsistent | Assignment4-Load-3D-model-camera-following-collision-detection/main.cpp:496-498 | n spawns keep the rows, cars and trees consistent |
| CrossyProperties.FillToReachesTarget | Assignment4-Load-3D-model-camera-following-collision-detection/main.cpp:170-172 | the frame's spawn loop ends with more than `target` rows, exactly target + 1 when it spawns at all, none added otherwise, earlier rows kept |
| CrossyProperties.FillToKeepsConsistent | Assignment4-Load-3D-model-camera-following-collision-detection/main.cpp:170-172 | the frame's spawn loop keeps the world consistent |
| CrossyProperties.MoveCarsKeepsConsistent | Assignment4-Load-3D-model-camera-following-collision-detection/main.cpp:446-460 | driving the cars keeps every car on the road row it names |
| CrossyProperties.SpawnedStep | Assignment4-Load-3D-model-camera-following-collision-detection/main.cpp:496-498 | one more spawn after n is n + 1 spawns |
| CrossyWorld.World.constructor | Assignment4-Load-3D-model-camera-following-collision-detection/main.cpp:42-75 | the globals before `main`: player at (0, 0, -10), no rows, score 0, speed 1, camera at (0, 8, 8) (lines 42-75), and all five key latches released (the `static bool`s of `processInput`, lines 324-328) |
| CrossyWorld.World.Draw | Assignment4-Load-3D-model-camera-following-collision-detection/main.cpp:74-75 | a draw is the next value of the engine's stream, in [0, 1), and advances the cursor by one |
| CrossyWorld.World.SpawnNewRow | Assignment4-Load-3D-model-camera-following-collision-detection/main.cpp:503-563 | appends exactly the row `Extend` describes and keeps the world consistent |
| CrossyWorld.World.SpawnRoad | Assignment4-Load-3D-model-camera-following-collision-detection/main.cpp:511-540 | the road branch appends `RoadRow`'s cars and leaves the cursor where `RoadRow` says |
| CrossyWorld.World.SpawnSafe | Assignment4-Load-3D-model-camera-following-collision-detection/main.cpp:541-558 | the safe branch appends `SafeRow`'s trees and leaves the cursor where `SafeRow` says |
| CrossyWorld.World.SpawnLane | Assignment4-Load-3D-model-camera-following-collision-detection/main.cpp:519-540 | the car loop appends `SpawnCars` and takes two draws per car |
| CrossyWorld.World.SpawnGrove | Assignment4-Load-3D-model-camera-following-collision-detection/main.cpp:546-557 | the tree loop appends `SpawnTrees` and takes one draw per tree |
| CrossyWorld.World.ResetGame | Assignment4-Load-3D-model-camera-following-collision-detection/main.cpp:478-501 | `resetGame` puts the player at the start, spawns 30 fresh rows from where the engine stood, zeroes the score, sets speed 1 and places the camera 10 above and 6 behind the player |
| CrossyWorld.World.ResetFields | Assignment4-Load-3D-model-camera-following-collision-detection/main.cpp:479-490 | the assignments at the head of `resetGame`: every field back to its start value, all rows dropped |
| CrossyWorld.World.SpawnRows | Assignment4-Load-3D-model-camera-following-collision-detection/main.cpp:496-498 | the start-up loop is n calls of `spawnNewRow` |
| CrossyWorld.World.UpdateCars | Assignment4-Load-3D-model-camera-following-collision-detection/main.cpp:446-460 | the cars become `MoveCars` of the old cars: each drives `speed · gameSpeed · deltaTime` along x and wraps at ±42, so afterwards every right-moving car is at x ≤ 42 and every left-moving one at x ≥ -42; the world stays consistent |
| CrossyWorld.World.CheckCollisions | Assignment4-Load-3D-model-camera-following-collision-detection/main.cpp:462-476 | the game is over afterwards exactly when it was before or some car is within 1 of the player |
| CrossyWorld.World.CanMoveTo | Assignment4-Load-3D-model-camera-following-collision-detection/main.cpp:635-645 | true exactly when no tree stands within 1.5 of the cell in the ground plane; when false, a blocking tree is named |
| CrossyWorld.World.PressForward | Assignment4-Load-3D-model-camera-following-collision-detection/main.cpp:332-345 | the W block does what `Forward` says |
| CrossyWorld.World.PressBackward | Assignment4-Load-3D-model-camera-following-collision-detection/main.cpp:347-359 | the S block does what `Backward` says |
| CrossyWorld.World.PressLeft | Assignment4-Load-3D-model-camera-following-collision-detection/main.cpp:361-374 | the A block does what `Left` says |
| CrossyWorld.World.PressRight | Assignment4-Load-3D-model-camera-following-collision-detection/main.cpp:376-389 | the D block does what `Right` says |
| CrossyWorld.World.Move | Assignment4-Load-3D-model-camera-following-collision-detection/main.cpp:330-390 | the movement block does what `Movement` says, and nothing once the game is over |
| CrossyWorld.World.ProcessInput | Assignment4-Load-3D-model-camera-following-collision-detection/main.cpp:318-403 | the movement latches follow `Movement`; a fresh R press resets the game, even after game over; otherwise only the player and latches change |
| CrossyWorld.World.Restart | Assignment4-Load-3D-model-camera-following-collision-detection/main.cpp:393-399 | the R latch equals the key; a fresh press resets the game; otherwise nothing changes |
| CrossyWorld.World.Tick | Assignment4-Load-3D-model-camera-following-collision-detection/main.cpp:157-173 | once the game is over the world stands still; otherwise cars move, the game is over exactly on a hit, a new furthest row becomes the score and adds 0.01 to the speed, and more than 15 rows lie beyond the player's row |
| CrossyWorld.World.Play | Assignment4-Load-3D-model-camera-following-collision-detection/main.cpp:158-172 | the running frame equals `FillTo` over the moved cars, with the collision, score and speed updates stated outright |
| CrossyWorld.World.Advance | Assignment4-Load-3D-model-camera-following-collision-detection/main.cpp:162-167 | a row beyond the furthest so far becomes the furthest row and the score and speeds the game up by 0.01; the score stays equal to the furthest row |
| CrossyWorld.World.FillRows | Assignment4-Load-3D-model-camera-following-collision-detection/main.cpp:170-172 | the frame's spawn loop is `FillTo` and ends with more than `target` rows |
| CrossyWorld.World.Follow | Assignment4-Load-3D-model-camera-following-collision-detection/main.cpp:177-189 | the camera eases towards 10 above and 6 behind the player at rate 2.5·deltaTime and never moves back in z |
| SphereMesh.FormatFor | Assignment3-3D-Kinetic-sculpture-animation/main.cpp:331-334 | the chosen format stores the image's channel count, or is GL_RGB when the count is neither 1 nor 4 |
| SphereProperties.GridRowShape | Assignment3-3D-Kinetic-sculpture-animation/main.cpp:220-241 | one stack row has n vertices, vertex j at sector j |
| SphereProperties.GridLength | Assignment3-3D-Kinetic-sculpture-animation/main.cpp:214-241 | m stack rows of `columns` vertices hold m·columns vertices |
| SphereProperties.GridAt | Assignment3-3D-Kinetic-sculpture-animation/main.cpp:214-241 | vertex (i, j) sits at position i·columns + j |
| SphereProperties.SphereVertexCount | Assignment3-3D-Kinetic-sculpture-animation/main.cpp:214-241 | the sphere has (stackCount+1)(sectorCount+1) vertices, 8 floats each |
| SphereProperties.SphereVertexAt | Assignment3-3D-Kinetic-sculpture-animation/main.cpp:214-241 | vertex (i, j) is at `i * (sectorCount + 1) + j`, the numbering `k1`/`k2` assume |
| SphereProperties.StackIndicesLength | Assignment3-3D-Kinetic-sculpture-animation/main.cpp:249-262 | n sectors of a stack push n times the cell's index count |
| SphereProperties.StackTriangles | Assignment3-3D-Kinetic-sculpture-animation/main.cpp:249-262 | a stack pushes 3 indices per sector on the first or last stack and 6 on the others |
| SphereProperties.StacksIndicesLength | Assignment3-3D-Kinetic-sculpture-animation/main.cpp:244-263 | the index count after m stacks |
| SphereProperties.SphereIndexCount | Assignment3-3D-Kinetic-sculpture-animation/main.cpp:244-263 | the index buffer holds 6·sectorCount·(stackCount−1) indices, and is empty without sectors or stacks |
| SphereProperties.StacksIndicesBound | Assignment3-3D-Kinetic-sculpture-animation/main.cpp:244-263 | every index pushed for the first m stacks names a grid vertex |
| SphereProperties.StackIndicesBound | Assignment3-3D-Kinetic-sculpture-animation/main.cpp:246-262 | every index pushed for one stack names a grid vertex |
| SphereProperties.SphereIndexBound | Assignment3-3D-Kinetic-sculpture-animation/main.cpp:244-263 | every index in the buffer is a valid vertex number |
| SphereProperties.CellTriangles | Assignment3-3D-Kinetic-sculpture-animation/main.cpp:250-261 | one cell pushes whole triangles on stack rows i and i+1 |
| SphereProperties.StackIndicesTriangles | Assignment3-3D-Kinetic-sculpture-animation/main.cpp:246-262 | one stack pushes whole triangles, each on two neighbouring stack rows |
| SphereProperties.StacksIndicesTriangles | Assignment3-3D-Kinetic-sculpture-animation/main.cpp:244-263 | the stacks so far form whole triangles, each on two neighbouring stack rows |
| SphereProperties.SphereTriangles | Assignment3-3D-Kinetic-sculpture-animation/main.cpp:244-265 | the index buffer is a multiple of three long and each triangle spans two neighbouring stack rows |
| SphereProperties.TextureFormatRoundTrip | Assignment3-3D-Kinetic-sculpture-animation/main.cpp:331-334 | a format's own channel count selects it back; the format matches the channel count exactly for 1, 3 and 4 channels |
| SphereBuilder.CreateSphere | Assignment3-3D-Kinetic-sculpture-animation/main.cpp:208-266 | builds exactly the grid and index buffer above; `vertexCount` is the index count 6·sectorCount·(stackCount−1), a multiple of three, with every index a valid vertex |
| SphereBuilder.BuildVertices | Assignment3-3D-Kinetic-sculpture-animation/main.cpp:214-241 | the vertex loops push the grid row by row |
| SphereBuilder.BuildIndices | Assignment3-3D-Kinetic-sculpture-animation/main.cpp:244-263 | the index loops push `SphereIndices` |
| SphereBuilder.AppendStack | Assignment3-3D-Kinetic-sculpture-animation/main.cpp:246-262 | the inner index loop appends stack i's cells, with `k1`/`k2` walking rows i and i+1 |

## Left out

- Rendering: OpenGL/GLFW setup, shaders, VAOs and draw calls, `renderCube`, and the window and mouse callbacks. They only display state.
- Loading models, animations and textures. `stbi_load`, its failure path and the GL texture calls are left out; only `loadTexture`'s format choice is modelled.
- The animator's internals. `learnopengl/animator.h` is not part of this model. `PlayAnimation` is taken to store its five arguments (two clips, two clocks, blend). `UpdateAnimation` is taken to advance the clocks, which come back as the `animTime`/`animTime2` parameters of the next frame.
- Floating point. Every float is an exact real, so 0.055, 0.01, 0.7 and the rest have no rounding. The step-counting lemmas rely on exact reals.
- Lengths are compared squared. Because `glm::length(v) < c` is equivalent to its square for c ≥ 0, no square root is modelled.
- `glm::normalize` is a parameter. The source calls it only on a nonzero vector, and `IdleDirection` proves that vector is nonzero.
- The camera's yaw, pitch and look-at (`atan2`/`asin`, `GetViewMatrix`) are left out; only the camera position is modelled.
- Assignment3's trigonometry is left out: the vertex coordinates, normals and texture coordinates, and the orbiting bodies' positions. `GridVertex(i, j)` stands for the eight floats pushed for vertex (i, j). The vertex count is modelled through `FloatsPerVertex`.
- The random engine's distribution. `std::default_random_engine` is a stream of draws in [0, 1); which values it yields is not modelled.
- `std::cout`/`printf` output and the ESC key (`glfwSetWindowShouldClose`) are left out.
- The spawn loop compares `currentRow + VISIBLE_ROWS` with an unsigned `roadRows.size()`; the model compares them as integers. They differ only when `currentRow + 15` is negative. Row -16 is first reached at z = -42, 32 units behind the start at z = -10. There the negative sum converts to a huge unsigned value, and the source's loop would call `spawnNewRow` without end; the model spawns nothing. The S key's camera margin keeps the player at z ≥ -14 after `resetGame`, which rules this out in play, but the model does not prove it.
- `checkGameOver` is declared but never defined or called, so it has no model.
- The run clip (`runAnimation`) is loaded but never played; no state refers to it.
- SphereBuilder.CreateSphere: the indices are unbounded integers. C++ `int` overflow of `i * (sectorCount + 1)` needs grids larger than 2^31 vertices and is not modelled.
- CrossyWorld.World.Follow: `glm::mix` is modelled on exact reals; the camera is proved never to move back in z only for a non-negative `deltaTime`.

## Notes on the source

- `spawnNewRow`'s comment promises one to three cars per lane. The code computes `1 + distribution(generator) * 2` and truncates it, which in exact arithmetic gives one or two. The model follows the code in exact reals; `CrossyProperties.SpawnRowShape` proves the bound of two. In single-precision floats the largest draw below one, 1 - 2^-24, makes `1 + d * 2` round to 3.0f, so the program as compiled can spawn three cars; the model, working on exact reals, does not capture that case.
- The A key's guard tests the cell at x − 2 but moves the player to x + 2, and D mirrors this. The model keeps the code's behaviour; `LeftTestsTheOtherSide` and `RightTestsTheOtherSide` state it.
- In the IDLE case the exit test after the movement block is dead: `isMoving` is always true there, and the state is overwritten right after in any case. `Controller.IdleBranch` keeps it and proves it has no effect.
- In the WALK case every component of the direction is set to zero, so WALK never moves the character. `WalkExitsExactlyWithoutArrows` states this.
- Hotkeys run before the switch. In a gated exit state a hotkey therefore resets the clock that the gate reads, which holds the state for that frame (`HotkeyKeepsGateClosed`).
- The camera is constructed at (0, 8, 8) (line 42). The `resetGame` call in `main` moves it at once to 10 above and 6 behind the start position.
