/** What the crossy-road bookkeeping of Assignment4 promises, stated about the
    functions of `CrossySpec`. */
module CrossyProperties {
  import opened Geometry
  import opened CrossySpec

  /** `Spaced` is the product the source computes. */
  lemma {:induction false} SpacedIsProduct(i: nat, spacing: real)
    ensures Spaced(i, spacing) == i as real * spacing
    decreases i
  {
    if i > 0 {
      SpacedIsProduct(i - 1, spacing);
      assert i as real * spacing == (i - 1) as real * spacing + spacing;
    }
  }

  /** The cars of one road row: `n` of them, all on row `row` (its lane id,
      its z), all driving the same way. */
  lemma {:induction false} SpawnCarsOnRow(row: int, right: bool, n: nat, d: nat -> real, c: nat)
    ensures |SpawnCars(row, right, n, d, c)| == n
    ensures forall car :: car in SpawnCars(row, right, n, d, c) ==>
      car.rowIndex == row && car.lane == 10 * row && car.position.z == RowZ(row)
      && car.position.y == 0.0 && car.movingRight == right
    decreases n
  {
    if n > 0 {
      SpawnCarsOnRow(row, right, n - 1, d, c);
    }
  }

  /** New cars start off-screen: at x <= -42 when driving right, x >= 42
      otherwise, with speeds in [7, 13). */
  lemma {:induction false} SpawnCarsOffScreen(row: int, right: bool, n: nat, d: nat -> real, c: nat)
    requires UnitDraws(d)
    ensures forall car :: car in SpawnCars(row, right, n, d, c) ==>
      (right ==> car.position.x <= -RoadEdge) && (!right ==> car.position.x >= RoadEdge)
      && 7.0 <= car.speed < 13.0
    decreases n
  {
    if n > 0 {
      SpawnCarsOffScreen(row, right, n - 1, d, c);
      var i := n - 1;
      var spacing := 6.0 + d(c + 2 * i + 1) * 8.0;
      assert spacing >= 6.0;
      SpacedIsProduct(i, spacing);
      assert i as real * spacing >= 0.0;
    }
  }

  /** The trees of one safe row: `n` of them, on the row's z, inside x in [-17.6, 17.6). */
  lemma {:induction false} SpawnTreesOnRow(row: int, n: nat, d: nat -> real, c: nat)
    requires UnitDraws(d)
    ensures |SpawnTrees(row, n, d, c)| == n
    ensures forall t :: t in SpawnTrees(row, n, d, c) ==>
      t.position.z == RowZ(row) && -TreeSpan <= t.position.x < TreeSpan
    decreases n
  {
    if n > 0 {
      SpawnTreesOnRow(row, n - 1, d, c);
      var x := d(c + n - 1);
      assert 0.0 <= x < 1.0;
    }
  }

  /** `spawnNewRow` appends a road flag of 1 exactly when it spawns cars: one
      or two of them (`1 + d * 2` truncated, although the source's comment
      promises up to three); a safe row gets no cars and zero to three trees. */
  lemma SpawnRowShape(row: int, d: nat -> real, c: nat)
    requires UnitDraws(d)
    ensures var o := SpawnRow(row, d, c);
      && (o.road == 1 <==> |o.cars| > 0)
      && (o.road == 0 || o.road == 1)
      && (o.road == 1 ==> |o.cars| <= 2 && o.trees == [])
      && (o.road == 0 ==> o.cars == [] && |o.trees| <= 3)
      && o.next > c
  {
    var o := SpawnRow(row, d, c);
    if d(c) < 0.5 {
      var n := Count(CarsPerLane(d(c + 2)));
      assert 1 <= n <= 2 by { assert 0.0 <= d(c + 2) < 1.0; }
      SpawnCarsOnRow(row, d(c + 1) < 0.5, n, d, c + 3);
    } else if d(c + 1) < 0.4 {
      var n := Count(TreesPerRow(d(c + 2)));
      assert 1 <= n <= 3 by { assert 0.0 <= d(c + 2) < 1.0; }
      SpawnTreesOnRow(row, n, d, c + 3);
    }
  }

  /** Everything `spawnNewRow` creates belongs to row `row`: the cars carry
      `rowIndex == row`, `lane == 10 * row`, `z == 2 * row - 10` and one
      direction, and start beyond the road's edge; the trees stand on the
      row's z within 17.6 of the centre. */
  lemma SpawnRowPlacement(row: int, d: nat -> real, c: nat)
    requires UnitDraws(d)
    ensures var o := SpawnRow(row, d, c);
      && (forall car :: car in o.cars ==>
            car.rowIndex == row && car.lane == 10 * row && car.position.z == RowZ(row)
            && car.movingRight == o.cars[0].movingRight
            && (car.movingRight ==> car.position.x <= -RoadEdge)
            && (!car.movingRight ==> car.position.x >= RoadEdge))
      && (forall t :: t in o.trees ==> t.position.z == RowZ(row) && -TreeSpan <= t.position.x < TreeSpan)
  {
    if d(c) < 0.5 {
      var right := d(c + 1) < 0.5;
      var n := Count(CarsPerLane(d(c + 2)));
      SpawnCarsOnRow(row, right, n, d, c + 3);
      SpawnCarsOffScreen(row, right, n, d, c + 3);
    } else if d(c + 1) < 0.4 {
      SpawnTreesOnRow(row, Count(TreesPerRow(d(c + 2))), d, c + 3);
    }
  }

  /** Row `row`'s z and the player's row number agree. */
  lemma CurrentRowOfRowZ(row: nat)
    ensures CurrentRow(RowZ(row)) == row
  {
    assert (RowZ(row) + 10.0) / MoveDistance == row as real;
  }

  /** `updateCars` keeps right-moving cars at x <= 42 and left-moving ones at
      x >= -42, whatever the speed and frame time, and changes nothing but x. */
  lemma MoveCarStaysOnRoad(car: Car, gameSpeed: real, deltaTime: real)
    ensures var m := MoveCar(car, gameSpeed, deltaTime);
      && (m.movingRight ==> m.position.x <= RoadEdge)
      && (!m.movingRight ==> m.position.x >= -RoadEdge)
      && m == car.(position := car.position.(x := m.position.x))
  {
  }

  /** A fresh press of a movement key moves the player exactly 2 along its
      axis or not at all; it always sets the key's latch. */
  lemma PressMovesOneStep(m: Mover, k: GameKeys, camera: Vec3, trees: seq<Tree>)
    ensures var f := Forward(m, k.w, camera, trees);
      (f.position == m.position || f.position == m.position.(z := m.position.z + MoveDistance))
      && f.wLatch == k.w
    ensures var b := Backward(m, k.s, camera, trees);
      (b.position == m.position || b.position == m.position.(z := m.position.z - MoveDistance))
      && b.sLatch == k.s
    ensures var l := Left(m, k.a, camera, trees);
      (l.position == m.position || l.position == m.position.(x := m.position.x + MoveDistance))
      && l.aLatch == k.a
    ensures var r := Right(m, k.d, camera, trees);
      (r.position == m.position || r.position == m.position.(x := m.position.x - MoveDistance))
      && r.dLatch == k.d
  {
  }

  /** Holding a key moves at most once: once the first frame has set the
      latch, the next frame changes nothing, wherever the camera has moved
      and whatever trees have been spawned in between. */
  lemma HeldKeyMovesOnce(m: Mover, camera: Vec3, trees: seq<Tree>, nextCamera: Vec3, nextTrees: seq<Tree>)
    ensures var f := Forward(m, true, camera, trees); Forward(f, true, nextCamera, nextTrees) == f
    ensures var b := Backward(m, true, camera, trees); Backward(b, true, nextCamera, nextTrees) == b
    ensures var l := Left(m, true, camera, trees); Left(l, true, nextCamera, nextTrees) == l
    ensures var r := Right(m, true, camera, trees); Right(r, true, nextCamera, nextTrees) == r
  {
  }

  /** A forward move into a tree or behind the camera margin leaves the
      position and heading alone but still sets the latch. */
  lemma BlockedForwardStillLatches(m: Mover, camera: Vec3, trees: seq<Tree>)
    requires !m.wLatch
    requires m.position.z + MoveDistance < camera.z + 2.0
          || exists t :: t in trees && Blocks(t, m.position.(z := m.position.z + MoveDistance))
    ensures Forward(m, true, camera, trees) == m.(wLatch := true)
  {
  }

  /** A moves to x + 2 exactly when the cell at x - 2 is free and in view. */
  lemma LeftTestsTheOtherSide(m: Mover, camera: Vec3, trees: seq<Tree>)
    requires !m.aLatch
    ensures var l := Left(m, true, camera, trees);
      l.position.x == m.position.x + MoveDistance
      <==> (m.position.x - MoveDistance >= camera.x - HalfViewWidth
            && m.position.x > -(GridWidth as real) * MoveDistance
            && Clear(m.position.(x := m.position.x - MoveDistance), trees))
  {
  }

  /** D moves to x - 2 exactly when the cell at x + 2 is free and in view. */
  lemma RightTestsTheOtherSide(m: Mover, camera: Vec3, trees: seq<Tree>)
    requires !m.dLatch
    ensures var r := Right(m, true, camera, trees);
      r.position.x == m.position.x - MoveDistance
      <==> (m.position.x + MoveDistance <= camera.x + HalfViewWidth
            && m.position.x < (GridWidth as real) * MoveDistance
            && Clear(m.position.(x := m.position.x + MoveDistance), trees))
  {
  }

  /** Nothing moves, and no latch changes, once the game is over. */
  lemma NoMovementWhenOver(m: Mover, k: GameKeys, camera: Vec3, trees: seq<Tree>)
    ensures Movement(m, k, camera, trees, true) == m
  {
  }

  /** The camera never moves back along z while the follow speed is not negative. */
  lemma FollowNeverBacksUp(player: Vec3, camera: Vec3, t: real)
    requires t >= 0.0
    ensures FollowCamera(player, camera, t).z >= camera.z
  {
    var target := CameraTarget(player, camera);
    assert target.z >= camera.z;
    assert Mix(camera.z, target.z, t) == camera.z + (target.z - camera.z) * t;
    assert (target.z - camera.z) * t >= 0.0;
  }

  /** `spawnNewRow` keeps the world consistent: the new row's flag says road
      exactly when it brought cars, which name it; its trees stand on it only
      when it is safe; and what was there before keeps its rows. */
  lemma ExtendKeepsConsistent(l: Layout, d: nat -> real)
    requires UnitDraws(d)
    requires RowsConsistent(l.cars, l.trees, l.rows)
    ensures RowsConsistent(Extend(l, d).cars, Extend(l, d).trees, Extend(l, d).rows)
  {
    var row := |l.rows|;
    var o := SpawnRow(row, d, l.next);
    var e := Extend(l, d);
    SpawnRowShape(row, d, l.next);
    SpawnRowPlacement(row, d, l.next);
    assert e.rows[..row] == l.rows;
    forall i | 0 <= i < |e.cars|
      ensures CarOnRoad(e.cars[i], e.rows)
    {
      if i < |l.cars| {
        assert e.cars[i] == l.cars[i];
        assert CarOnRoad(l.cars[i], l.rows);
      } else {
        assert e.cars[i] == o.cars[i - |l.cars|];
        assert o.cars[i - |l.cars|] in o.cars;
      }
    }
    forall i | 0 <= i < |e.trees|
      ensures TreeOnSafeRow(e.trees[i], e.rows)
    {
      if i < |l.trees| {
        assert e.trees[i] == l.trees[i];
        assert TreeOnSafeRow(l.trees[i], l.rows);
        var r :| 0 <= r < row && l.rows[r] == 0 && l.trees[i].position.z == RowZ(r);
        assert e.rows[r] == 0;
      } else {
        assert e.trees[i] == o.trees[i - |l.trees|];
        assert o.trees[i - |l.trees|] in o.trees;
        assert e.rows[row] == 0;
      }
    }
  }

  /** `n` spawns append exactly `n` rows and never rewrite earlier ones. */
  lemma {:induction false} SpawnedAppends(l: Layout, n: nat, d: nat -> real)
    ensures var s := Spawned(l, n, d);
      && |s.rows| == |l.rows| + n
      && s.rows[..|l.rows|] == l.rows
      && |s.cars| >= |l.cars| && s.cars[..|l.cars|] == l.cars
      && |s.trees| >= |l.trees| && s.trees[..|l.trees|] == l.trees
    decreases n
  {
    if n > 0 {
      var e := Extend(l, d);
      SpawnedAppends(e, n - 1, d);
      var s := Spawned(l, n, d);
      assert s.rows[..|l.rows|] == s.rows[..|e.rows|][..|l.rows|];
      assert s.cars[..|l.cars|] == s.cars[..|e.cars|][..|l.cars|];
      assert s.trees[..|l.trees|] == s.trees[..|e.trees|][..|l.trees|];
    }
  }

  /** `n` spawns keep the world consistent. */
  lemma {:induction false} SpawnedKeepsConsistent(l: Layout, n: nat, d: nat -> real)
    requires UnitDraws(d)
    requires RowsConsistent(l.cars, l.trees, l.rows)
    ensures RowsConsistent(Spawned(l, n, d).cars, Spawned(l, n, d).trees, Spawned(l, n, d).rows)
    decreases n
  {
    if n > 0 {
      ExtendKeepsConsistent(l, d);
      SpawnedKeepsConsistent(Extend(l, d), n - 1, d);
    }
  }

  /** The spawn loop of the frame ends with more than `target` rows, adds
      none when there already are, and never rewrites earlier rows. */
  lemma {:induction false} FillToReachesTarget(l: Layout, target: int, d: nat -> real)
    ensures var f := FillTo(l, target, d);
      && |f.rows| > target
      && (target < |l.rows| ==> f == l)
      && (target >= |l.rows| ==> |f.rows| == target + 1)
      && f.rows[..|l.rows|] == l.rows
    decreases target + 1 - |l.rows|
  {
    if target >= |l.rows| {
      var e := Extend(l, d);
      FillToReachesTarget(e, target, d);
      var f := FillTo(l, target, d);
      assert f.rows[..|l.rows|] == f.rows[..|e.rows|][..|l.rows|];
    }
  }

  /** The spawn loop keeps the world consistent. */
  lemma {:induction false} FillToKeepsConsistent(l: Layout, target: int, d: nat -> real)
    requires UnitDraws(d)
    requires RowsConsistent(l.cars, l.trees, l.rows)
    ensures RowsConsistent(FillTo(l, target, d).cars, FillTo(l, target, d).trees, FillTo(l, target, d).rows)
    decreases target + 1 - |l.rows|
  {
    if target >= |l.rows| {
      ExtendKeepsConsistent(l, d);
      FillToKeepsConsistent(Extend(l, d), target, d);
    }
  }

  /** `updateCars` keeps every car on the row it names. */
  lemma MoveCarsKeepsConsistent(cars: seq<Car>, trees: seq<Tree>, rows: seq<int>, gameSpeed: real, deltaTime: real)
    requires RowsConsistent(cars, trees, rows)
    ensures RowsConsistent(MoveCars(cars, gameSpeed, deltaTime), trees, rows)
  {
    var moved := MoveCars(cars, gameSpeed, deltaTime);
    forall i | 0 <= i < |moved|
      ensures CarOnRoad(moved[i], rows)
    {
      assert moved[i] == MoveCar(cars[i], gameSpeed, deltaTime);
      assert CarOnRoad(cars[i], rows);
    }
  }

  /** One more spawn after `n` is `n + 1` spawns. */
  lemma {:induction false} SpawnedStep(l: Layout, n: nat, d: nat -> real)
    ensures Spawned(l, n + 1, d) == Extend(Spawned(l, n, d), d)
    decreases n
  {
    if n > 0 {
      SpawnedStep(Extend(l, d), n - 1, d);
    }
  }
}
