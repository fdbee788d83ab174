/** The global game state of Assignment4 (`playerPosition`, `cars`, `trees`,
    `roadRows`, the score and speed, the camera position, the random engine
    and `processInput`'s static key latches) as one object, with the game
    logic functions as its methods, each proved against `CrossySpec`. */
module CrossyWorld {
  import opened Geometry
  import opened CrossySpec
  import opened CrossyProperties

  class World {
    var player: Vec3
    var rotation: real
    var cars: seq<Car>
    var trees: seq<Tree>
    var roadRows: seq<int>
    var score: int
    var gameOver: bool
    var gameSpeed: real
    var furthestRow: int
    var camera: Vec3
    /** The random engine: the stream of its draws and how many were taken. */
    const draws: nat -> real
    var drawn: nat
    var wLatch: bool
    var sLatch: bool
    var aLatch: bool
    var dLatch: bool
    var rLatch: bool

    /** The score always equals the furthest row reached, the speed never
        drops below 1, and the rows, cars and trees agree. */
    ghost predicate Valid()
      reads this
    {
      && UnitDraws(draws)
      && score == furthestRow
      && gameSpeed >= 1.0
      && RowsConsistent(cars, trees, roadRows)
    }

    function Mover(): CrossySpec.Mover
      reads this
    {
      CrossySpec.Mover(player, rotation, wLatch, sLatch, aLatch, dLatch)
    }

    /** What `resetGame` leaves behind when the engine stood at draw `start`:
        the player at the start facing forward, 30 fresh rows, score 0, speed
        1, and the camera 10 above and 6 behind the player. */
    ghost predicate ResetState(start: nat)
      reads this
    {
      && player == StartPosition && rotation == 0.0
      && |roadRows| == 2 * VisibleRows
      && Layout(cars, trees, roadRows, drawn) == Spawned(Layout([], [], [], start), |roadRows|, draws)
      && score == 0 && furthestRow == 0 && !gameOver && gameSpeed == 1.0
      && camera == Vec3(0.0, 10.0, -16.0)
    }

    /** The globals before `main` runs. */
    constructor (draws: nat -> real)
      requires UnitDraws(draws)
      ensures Valid()
      ensures this.draws == draws && drawn == 0
      ensures player == StartPosition && rotation == 0.0
      ensures cars == [] && trees == [] && roadRows == []
      ensures score == 0 && furthestRow == 0 && !gameOver && gameSpeed == 1.0
      ensures camera == Vec3(0.0, 8.0, 8.0)
      ensures !wLatch && !sLatch && !aLatch && !dLatch && !rLatch
    {
      player := StartPosition;
      rotation := 0.0;
      cars := [];
      trees := [];
      roadRows := [];
      score := 0;
      gameOver := false;
      gameSpeed := 1.0;
      furthestRow := 0;
      camera := Vec3(0.0, 8.0, 8.0);
      this.draws := draws;
      drawn := 0;
      wLatch, sLatch, aLatch, dLatch, rLatch := false, false, false, false, false;
    }

    /** `distribution(generator)`: the next draw, in [0, 1). */
    method Draw() returns (r: real)
      requires UnitDraws(draws)
      modifies this`drawn
      ensures r == draws(old(drawn)) && drawn == old(drawn) + 1
      ensures 0.0 <= r < 1.0
    {
      r := draws(drawn);
      drawn := drawn + 1;
    }

    /** `spawnNewRow`: append row `roadRows.size()` with its cars or trees. */
    method SpawnNewRow()
      requires Valid()
      modifies this`cars, this`trees, this`roadRows, this`drawn
      ensures Valid()
      ensures Layout(cars, trees, roadRows, drawn) == Extend(old(Layout(cars, trees, roadRows, drawn)), draws)
    {
      ExtendKeepsConsistent(Layout(cars, trees, roadRows, drawn), draws);
      var rowIndex := |roadRows|;
      var rowZ := rowIndex as real * MoveDistance - 10.0;
      var hasRoad := false;
      var roadDraw := Draw();
      if roadDraw < 0.5 {
        hasRoad := true;
        SpawnRoad(rowIndex, rowZ);
      } else {
        SpawnSafe(rowIndex, rowZ);
      }
      roadRows := roadRows + [if hasRoad then 1 else 0];
    }

    /** The road branch of `spawnNewRow`: a direction and a count, then the cars. */
    method SpawnRoad(rowIndex: int, rowZ: real)
      requires UnitDraws(draws) && rowZ == RowZ(rowIndex)
      modifies this`cars, this`drawn
      ensures cars == old(cars) + RoadRow(rowIndex, draws, old(drawn)).cars
      ensures drawn == RoadRow(rowIndex, draws, old(drawn)).next
    {
      var directionDraw := Draw();
      var movingRight := directionDraw < 0.5;
      var countDraw := Draw();
      var numCarsPerLane := CarsPerLane(countDraw);
      assert RoadRow(rowIndex, draws, old(drawn)).cars
          == SpawnCars(rowIndex, movingRight, Count(numCarsPerLane), draws, drawn);
      SpawnLane(rowIndex, rowZ, movingRight, numCarsPerLane);
    }

    /** The safe branch of `spawnNewRow`: maybe a few trees. */
    method SpawnSafe(rowIndex: int, rowZ: real)
      requires UnitDraws(draws) && rowZ == RowZ(rowIndex)
      modifies this`trees, this`drawn
      ensures trees == old(trees) + SafeRow(rowIndex, draws, old(drawn)).trees
      ensures drawn == SafeRow(rowIndex, draws, old(drawn)).next
    {
      var treeDraw := Draw();
      if treeDraw < 0.4 {
        var countDraw := Draw();
        var numTrees := TreesPerRow(countDraw);
        assert SafeRow(rowIndex, draws, old(drawn)).trees == SpawnTrees(rowIndex, Count(numTrees), draws, drawn);
        SpawnGrove(rowIndex, rowZ, numTrees);
      }
    }

    /** The car loop of `spawnNewRow`: car `i` takes a speed draw and a
        spacing draw and starts `i` spacings further off-screen. */
    method SpawnLane(rowIndex: int, rowZ: real, movingRight: bool, numCarsPerLane: int)
      requires UnitDraws(draws) && rowZ == RowZ(rowIndex)
      modifies this`cars, this`drawn
      ensures cars == old(cars) + SpawnCars(rowIndex, movingRight, Count(numCarsPerLane), draws, old(drawn))
      ensures drawn == old(drawn) + 2 * Count(numCarsPerLane)
    {
      var i := 0;
      while i < numCarsPerLane
        invariant 0 <= i <= Count(numCarsPerLane)
        invariant cars == old(cars) + SpawnCars(rowIndex, movingRight, i, draws, old(drawn))
        invariant drawn == old(drawn) + 2 * i
      {
        var speedDraw := Draw();
        var spacingDraw := Draw();
        var carSpacing := 6.0 + spacingDraw * 8.0;
        var x := if movingRight then -(GridWidth as real) * MoveDistance - 20.0 - i as real * carSpacing
                 else (GridWidth as real) * MoveDistance + 20.0 + i as real * carSpacing;
        SpacedIsProduct(i, carSpacing);
        var car := Car(Vec3(x, 0.0, rowZ), CarSpeed * (0.7 + speedDraw * 0.6), rowIndex * 10, movingRight, rowIndex);
        assert car == NewCar(rowIndex, movingRight, i, speedDraw, spacingDraw);
        cars := cars + [car];
        i := i + 1;
      }
    }

    /** The tree loop of `spawnNewRow`: tree `i` takes one draw for its x. */
    method SpawnGrove(rowIndex: int, rowZ: real, numTrees: int)
      requires UnitDraws(draws) && rowZ == RowZ(rowIndex)
      modifies this`trees, this`drawn
      ensures trees == old(trees) + SpawnTrees(rowIndex, Count(numTrees), draws, old(drawn))
      ensures drawn == old(drawn) + Count(numTrees)
    {
      var i := 0;
      while i < numTrees
        invariant 0 <= i <= Count(numTrees)
        invariant trees == old(trees) + SpawnTrees(rowIndex, i, draws, old(drawn))
        invariant drawn == old(drawn) + i
      {
        var xDraw := Draw();
        var minX := -(GridWidth as real) * MoveDistance * 0.8;
        var maxX := (GridWidth as real) * MoveDistance * 0.8;
        trees := trees + [Tree(Vec3(minX + xDraw * (maxX - minX), -0.5, rowZ))];
        i := i + 1;
      }
    }

    /** `resetGame`: back to the start with 30 fresh rows drawn from where
        the engine stands; the key latches are left alone. */
    method ResetGame()
      requires Valid()
      modifies this`player, this`rotation, this`cars, this`trees, this`roadRows, this`score,
               this`gameOver, this`gameSpeed, this`furthestRow, this`camera, this`drawn
      ensures Valid()
      ensures ResetState(old(drawn))
    {
      ResetFields();
      var rows := VisibleRows * 2;
      SpawnRows(rows);
    }

    /** The assignments at the head of `resetGame`: the camera goes 10 above
        and 6 behind the start position, and all rows are dropped. */
    method ResetFields()
      requires UnitDraws(draws)
      modifies this`player, this`rotation, this`cars, this`trees, this`roadRows, this`score,
               this`gameOver, this`gameSpeed, this`furthestRow, this`camera
      ensures Valid()
      ensures player == StartPosition && rotation == 0.0
      ensures cars == [] && trees == [] && roadRows == []
      ensures score == 0 && furthestRow == 0 && !gameOver && gameSpeed == 1.0
      ensures camera == Vec3(0.0, 10.0, -16.0)
    {
      player := StartPosition;
      rotation := 0.0;
      cars, trees, roadRows := [], [], [];
      score := 0;
      gameOver := false;
      gameSpeed := 1.0;
      furthestRow := 0;
      camera := Vec3(player.x, player.y + 10.0, player.z - 6.0);
    }

    /** The start-up loop of `resetGame`: `n` calls of `spawnNewRow`. */
    method SpawnRows(n: nat)
      requires Valid()
      modifies this`cars, this`trees, this`roadRows, this`drawn
      ensures Valid()
      ensures Layout(cars, trees, roadRows, drawn) == Spawned(old(Layout(cars, trees, roadRows, drawn)), n, draws)
      ensures |roadRows| == |old(roadRows)| + n
    {
      var row := 0;
      while row < n
        invariant 0 <= row <= n
        invariant Valid()
        invariant Layout(cars, trees, roadRows, drawn) == Spawned(old(Layout(cars, trees, roadRows, drawn)), row, draws)
        invariant |roadRows| == |old(roadRows)| + row
      {
        SpawnedStep(old(Layout(cars, trees, roadRows, drawn)), row, draws);
        SpawnNewRow();
        row := row + 1;
      }
    }

    /** `updateCars`: every car drives along its row and wraps at the road's edge. */
    method UpdateCars(deltaTime: real)
      requires Valid()
      modifies this`cars
      ensures Valid()
      ensures cars == MoveCars(old(cars), gameSpeed, deltaTime)
      ensures forall i :: 0 <= i < |cars| ==>
        (cars[i].movingRight ==> cars[i].position.x <= RoadEdge) && (!cars[i].movingRight ==> cars[i].position.x >= -RoadEdge)
    {
      var edge := (GridWidth as real) * MoveDistance + 20.0;
      assert edge == RoadEdge;
      var i := 0;
      while i < |cars|
        invariant 0 <= i <= |cars| == |old(cars)|
        invariant cars[..i] == MoveCars(old(cars), gameSpeed, deltaTime)[..i]
        invariant cars[i..] == old(cars)[i..]
      {
        var car := cars[i];
        assert car == old(cars)[i] by { assert cars[i..][0] == old(cars)[i..][0]; }
        var x := car.position.x;
        var step := car.speed * gameSpeed * deltaTime;
        if car.movingRight {
          x := x + step;
          if x > edge {
            x := -edge;
          }
        } else {
          x := x - step;
          if x < -edge {
            x := edge;
          }
        }
        assert x == Drive(car.position.x, step, car.movingRight);
        assert car.(position := car.position.(x := x)) == MoveCar(car, gameSpeed, deltaTime);
        ghost var before := cars;
        cars := cars[i := car.(position := car.position.(x := x))];
        assert cars[..i + 1] == before[..i] + [MoveCar(car, gameSpeed, deltaTime)];
        assert MoveCars(old(cars), gameSpeed, deltaTime)[..i + 1]
            == MoveCars(old(cars), gameSpeed, deltaTime)[..i] + [MoveCar(car, gameSpeed, deltaTime)];
        assert cars[i + 1..] == before[i + 1..];
        i := i + 1;
      }
      assert cars == cars[..i];
      MoveCarsKeepsConsistent(old(cars), trees, roadRows, gameSpeed, deltaTime);
    }

    /** `checkCollisions`: the game is over once some car is within 1 of the player. */
    method CheckCollisions()
      modifies this`gameOver
      ensures gameOver <==> old(gameOver) || exists i :: 0 <= i < |cars| && Hits(cars[i], player)
    {
      var i := 0;
      while i < |cars|
        invariant 0 <= i <= |cars|
        invariant forall j :: 0 <= j < i ==> !Hits(cars[j], player)
        invariant gameOver == old(gameOver)
      {
        var distance := DistanceSquared(player, cars[i].position);
        if distance < CollisionDistance * CollisionDistance {
          gameOver := true;
          assert Hits(cars[i], player);
          return;
        }
        i := i + 1;
      }
    }

    /** `canMoveTo`: no tree stands within 1.5 of `p` in the ground plane. */
    method CanMoveTo(p: Vec3) returns (ok: bool)
      ensures ok <==> Clear(p, trees)
      ensures !ok ==> exists i :: 0 <= i < |trees| && Blocks(trees[i], p)
    {
      var i := 0;
      while i < |trees|
        invariant 0 <= i <= |trees|
        invariant forall j :: 0 <= j < i ==> !Blocks(trees[j], p)
      {
        var dx := p.x - trees[i].position.x;
        var dz := p.z - trees[i].position.z;
        var distance := dx * dx + dz * dz;
        assert distance == PlanarDistanceSquared(p, trees[i].position);
        if distance < TreeCollisionDistance * TreeCollisionDistance {
          assert Blocks(trees[i], p) && trees[i] in trees;
          return false;
        }
        i := i + 1;
      }
      return true;
    }

    /** The W branch of `processInput`. */
    method PressForward(held: bool)
      modifies this`player, this`rotation, this`wLatch
      ensures Mover() == Forward(old(Mover()), held, camera, trees)
    {
      if held && !wLatch {
        var minZ := camera.z + 2.0;
        var nextZ := player.z + MoveDistance;
        var ok := CanMoveTo(player.(z := nextZ));
        if nextZ >= minZ && ok {
          player := player.(z := nextZ);
          rotation := 0.0;
        }
        wLatch := true;
      }
      if !held {
        wLatch := false;
      }
    }

    /** The S branch of `processInput`. */
    method PressBackward(held: bool)
      modifies this`player, this`rotation, this`sLatch
      ensures Mover() == Backward(old(Mover()), held, camera, trees)
    {
      if held && !sLatch {
        var minZ := camera.z + 2.0;
        var ok := CanMoveTo(player.(z := player.z - MoveDistance));
        if player.z - MoveDistance >= minZ && ok {
          player := player.(z := player.z - MoveDistance);
          rotation := 180.0;
        }
        sLatch := true;
      }
      if !held {
        sLatch := false;
      }
    }

    /** The A branch of `processInput`: guarded on the cell at x - 2, moving to x + 2. */
    method PressLeft(held: bool)
      modifies this`player, this`rotation, this`aLatch
      ensures Mover() == Left(old(Mover()), held, camera, trees)
    {
      if held && !aLatch {
        var minX := camera.x - HalfViewWidth;
        var ok := CanMoveTo(player.(x := player.x - MoveDistance));
        if player.x - MoveDistance >= minX && player.x > -(GridWidth as real) * MoveDistance && ok {
          player := player.(x := player.x + MoveDistance);
          rotation := 90.0;
        }
        aLatch := true;
      }
      if !held {
        aLatch := false;
      }
    }

    /** The D branch of `processInput`: guarded on the cell at x + 2, moving to x - 2. */
    method PressRight(held: bool)
      modifies this`player, this`rotation, this`dLatch
      ensures Mover() == Right(old(Mover()), held, camera, trees)
    {
      if held && !dLatch {
        var maxX := camera.x + HalfViewWidth;
        var ok := CanMoveTo(player.(x := player.x + MoveDistance));
        if player.x + MoveDistance <= maxX && player.x < (GridWidth as real) * MoveDistance && ok {
          player := player.(x := player.x - MoveDistance);
          rotation := -90.0;
        }
        dLatch := true;
      }
      if !held {
        dLatch := false;
      }
    }

    /** The movement block of `processInput` (W, S, A, D), skipped once the game is over. */
    method Move(keys: GameKeys)
      modifies this`player, this`rotation, this`wLatch, this`sLatch, this`aLatch, this`dLatch
      ensures Mover() == Movement(old(Mover()), keys, old(camera), old(trees), old(gameOver))
    {
      if !gameOver {
        PressForward(keys.w);
        PressBackward(keys.s);
        PressLeft(keys.a);
        PressRight(keys.d);
      }
    }

    /** `processInput`: the grid moves while the game runs, then R restarts
        the game once per press, even after game over. */
    method ProcessInput(keys: GameKeys)
      requires Valid()
      modifies this
      ensures Valid()
      ensures rLatch == keys.r
      ensures var m := Movement(old(Mover()), keys, old(camera), old(trees), old(gameOver));
        wLatch == m.wLatch && sLatch == m.sLatch && aLatch == m.aLatch && dLatch == m.dLatch
      ensures keys.r && !old(rLatch) ==> ResetState(old(drawn))
      ensures !(keys.r && !old(rLatch)) ==>
        && Mover() == Movement(old(Mover()), keys, old(camera), old(trees), old(gameOver))
        && cars == old(cars) && trees == old(trees) && roadRows == old(roadRows) && drawn == old(drawn)
        && camera == old(camera)
        && score == old(score) && furthestRow == old(furthestRow)
        && gameOver == old(gameOver) && gameSpeed == old(gameSpeed)
    {
      Move(keys);
      Restart(keys.r);
    }

    /** The R block of `processInput`: a fresh press resets the game. */
    method Restart(held: bool)
      requires Valid()
      modifies this`player, this`rotation, this`cars, this`trees, this`roadRows, this`score,
               this`gameOver, this`gameSpeed, this`furthestRow, this`camera, this`drawn, this`rLatch
      ensures Valid()
      ensures rLatch == held
      ensures held && !old(rLatch) ==> ResetState(old(drawn))
      ensures !(held && !old(rLatch)) ==>
        && player == old(player) && rotation == old(rotation)
        && cars == old(cars) && trees == old(trees) && roadRows == old(roadRows) && drawn == old(drawn)
        && camera == old(camera)
        && score == old(score) && furthestRow == old(furthestRow)
        && gameOver == old(gameOver) && gameSpeed == old(gameSpeed)
    {
      if held && !rLatch {
        ResetGame();
        rLatch := true;
      }
      if !held {
        rLatch := false;
      }
    }

    /** Lines 157-173 of the frame: nothing moves once the game is over. */
    method Tick(deltaTime: real)
      requires Valid()
      modifies this`cars, this`trees, this`roadRows, this`drawn, this`gameOver,
               this`furthestRow, this`score, this`gameSpeed
      ensures Valid()
      ensures old(gameOver) ==> (cars == old(cars) && trees == old(trees) && roadRows == old(roadRows)
        && drawn == old(drawn) && gameOver
        && furthestRow == old(furthestRow) && gameSpeed == old(gameSpeed))
      ensures !old(gameOver) ==>
        Layout(cars, trees, roadRows, drawn) == FillTo(Layout(MoveCars(old(cars), old(gameSpeed), deltaTime), old(trees), old(roadRows), old(drawn)),
                      CurrentRow(player.z) + VisibleRows, draws)
      ensures !old(gameOver) ==>
        var row := CurrentRow(player.z);
        var moved := MoveCars(old(cars), old(gameSpeed), deltaTime);
        && (gameOver <==> exists i :: 0 <= i < |moved| && Hits(moved[i], player))
        && furthestRow == (if row > old(furthestRow) then row else old(furthestRow))
        && gameSpeed == (if row > old(furthestRow) then old(gameSpeed) + 0.01 else old(gameSpeed))
        && |roadRows| > row + VisibleRows
    {
      if !gameOver {
        Play(deltaTime);
      }
    }

    /** The body of the frame while the game runs: move the cars, test for
        collisions, credit a new furthest row (score and a 0.01 speed-up) and
        spawn rows until 15 lie beyond the player's row. */
    method Play(deltaTime: real)
      requires Valid() && !gameOver
      modifies this`cars, this`trees, this`roadRows, this`drawn, this`gameOver,
               this`furthestRow, this`score, this`gameSpeed
      ensures Valid()
      ensures Layout(cars, trees, roadRows, drawn)
        == FillTo(Layout(MoveCars(old(cars), old(gameSpeed), deltaTime), old(trees), old(roadRows), old(drawn)),
                  CurrentRow(player.z) + VisibleRows, draws)
      ensures var moved := MoveCars(old(cars), old(gameSpeed), deltaTime);
        gameOver <==> exists i :: 0 <= i < |moved| && Hits(moved[i], player)
      ensures var row := CurrentRow(player.z);
        && furthestRow == (if row > old(furthestRow) then row else old(furthestRow))
        && gameSpeed == (if row > old(furthestRow) then old(gameSpeed) + 0.01 else old(gameSpeed))
      ensures |roadRows| > CurrentRow(player.z) + VisibleRows
    {
      UpdateCars(deltaTime);
      CheckCollisions();
      var currentRow := Advance();
      FillRows(currentRow + VisibleRows);
    }

    /** Lines 162-167: a row beyond the furthest so far becomes the furthest
        and the score, and speeds the game up by 0.01. */
    method Advance() returns (currentRow: int)
      requires Valid()
      modifies this`furthestRow, this`score, this`gameSpeed
      ensures Valid()
      ensures currentRow == CurrentRow(player.z)
      ensures furthestRow == (if currentRow > old(furthestRow) then currentRow else old(furthestRow))
      ensures gameSpeed == (if currentRow > old(furthestRow) then old(gameSpeed) + 0.01 else old(gameSpeed))
    {
      currentRow := Trunc((player.z + 10.0) / MoveDistance);
      if currentRow > furthestRow {
        furthestRow := currentRow;
        score := furthestRow;
        gameSpeed := gameSpeed + 0.01;
      }
    }

    /** The spawn loop of the frame: `spawnNewRow` until there are more than
        `target` rows. */
    method FillRows(target: int)
      requires Valid()
      modifies this`cars, this`trees, this`roadRows, this`drawn
      ensures Valid()
      ensures Layout(cars, trees, roadRows, drawn) == FillTo(old(Layout(cars, trees, roadRows, drawn)), target, draws)
      ensures |roadRows| > target
    {
      while target >= |roadRows|
        invariant Valid()
        invariant FillTo(Layout(cars, trees, roadRows, drawn), target, draws) == FillTo(old(Layout(cars, trees, roadRows, drawn)), target, draws)
        decreases target - |roadRows|
      {
        SpawnNewRow();
      }
    }

    /** Lines 177-189: the camera eases towards 10 above and 6 behind the
        player at rate `2.5 * deltaTime`, never aiming further back in z. */
    method Follow(deltaTime: real)
      modifies this`camera
      ensures camera == FollowCamera(player, old(camera), 2.5 * deltaTime)
      ensures deltaTime >= 0.0 ==> camera.z >= old(camera.z)
    {
      var target := Vec3(player.x, player.y + 10.0, player.z - 6.0);
      if target.z < camera.z {
        target := target.(z := camera.z);
      }
      var t := 2.5 * deltaTime;
      if deltaTime >= 0.0 {
        FollowNeverBacksUp(player, camera, t);
      }
      camera := Vec3(Mix(camera.x, target.x, t), Mix(camera.y, target.y, t), Mix(camera.z, target.z, t));
    }
  }
}
