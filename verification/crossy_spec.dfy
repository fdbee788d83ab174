/** The world bookkeeping of Assignment4's crossy-road game as values and
    pure functions: the rows, cars and trees that `spawnNewRow` appends, the
    car motion of `updateCars`, the tree test of `canMoveTo` and the
    edge-latched grid movement of `processInput`. The random engine is a
    stream of draws in [0, 1) read from a cursor. `CrossyWorld.World` holds
    the game's global state and is proved against these functions. */
module CrossySpec {
  import opened Geometry

  const MoveDistance: real := 2.0
  const CarSpeed: real := 10.0
  const GridWidth: int := 11
  const VisibleRows: int := 15
  /** `GRID_WIDTH * MOVE_DISTANCE + 20`: cars live on x in [-42, 42]. */
  const RoadEdge: real := 42.0
  /** `GRID_WIDTH * MOVE_DISTANCE * 0.8`: trees stand on x in [-17.6, 17.6). */
  const TreeSpan: real := 17.6
  const CollisionDistance: real := 1.0
  const TreeCollisionDistance: real := 1.5
  const HalfViewWidth: real := 8.0
  const StartPosition: Vec3 := Vec3(0.0, 0.0, -10.0)

  datatype Car = Car(position: Vec3, speed: real, lane: int, movingRight: bool, rowIndex: int)
  datatype Tree = Tree(position: Vec3)

  /** The z coordinate of row `row`. */
  function RowZ(row: int): real {
    row as real * MoveDistance - 10.0
  }

  /** `(int)((z + 10) / MOVE_DISTANCE)`: the row the player stands on. */
  function CurrentRow(z: real): int {
    Trunc((z + 10.0) / MoveDistance)
  }

  /** The random engine yields draws in [0, 1). */
  ghost predicate UnitDraws(d: nat -> real) {
    forall n: nat :: 0.0 <= d(n) < 1.0
  }

  /** `i * spacing`, as `i` spacings laid end to end. */
  function Spaced(i: nat, spacing: real): real
    decreases i
  {
    if i == 0 then 0.0 else Spaced(i - 1, spacing) + spacing
  }

  /** Car `i` of a new road row, from its speed draw and its spacing draw. */
  function NewCar(row: int, right: bool, i: nat, speedDraw: real, spacingDraw: real): Car {
    var spacing := 6.0 + spacingDraw * 8.0;
    var x := if right then -(GridWidth as real) * MoveDistance - 20.0 - Spaced(i, spacing)
             else (GridWidth as real) * MoveDistance + 20.0 + Spaced(i, spacing);
    Car(Vec3(x, 0.0, RowZ(row)), CarSpeed * (0.7 + speedDraw * 0.6), row * 10, right, row)
  }

  /** The first `n` cars of a road row; car `i` reads draws `c + 2i` and `c + 2i + 1`. */
  function SpawnCars(row: int, right: bool, n: nat, d: nat -> real, c: nat): seq<Car>
    decreases n
  {
    if n == 0 then []
    else SpawnCars(row, right, n - 1, d, c) + [NewCar(row, right, n - 1, d(c + 2 * (n - 1)), d(c + 2 * (n - 1) + 1))]
  }

  function NewTree(row: int, xDraw: real): Tree {
    var minX := -(GridWidth as real) * MoveDistance * 0.8;
    var maxX := (GridWidth as real) * MoveDistance * 0.8;
    Tree(Vec3(minX + xDraw * (maxX - minX), -0.5, RowZ(row)))
  }

  /** The first `n` trees of a safe row; tree `i` reads draw `c + i`. */
  function SpawnTrees(row: int, n: nat, d: nat -> real, c: nat): seq<Tree>
    decreases n
  {
    if n == 0 then [] else SpawnTrees(row, n - 1, d, c) + [NewTree(row, d(c + n - 1))]
  }

  /** What one `spawnNewRow` call appends, and where it leaves the draw cursor. */
  datatype RowSpawn = RowSpawn(cars: seq<Car>, trees: seq<Tree>, road: int, next: nat)

  /** `int numCarsPerLane = 1 + (draw * 2)`: the float sum truncated. */
  function CarsPerLane(draw: real): int {
    Trunc(1.0 + draw * 2.0)
  }

  /** `1 + static_cast<int>(draw * 3)`. */
  function TreesPerRow(draw: real): int {
    1 + Trunc(draw * 3.0)
  }

  /** `spawnNewRow` for row `row`, reading draws from `c` on: half the rows
      are roads with one lane of cars; 40% of the others get trees. */
  function SpawnRow(row: int, d: nat -> real, c: nat): RowSpawn {
    if d(c) < 0.5 then RoadRow(row, d, c + 1) else SafeRow(row, d, c + 1)
  }

  /** A road row: a direction draw, a count draw, then the cars' draws. */
  function RoadRow(row: int, d: nat -> real, c: nat): RowSpawn {
    var n := Count(CarsPerLane(d(c + 1)));
    RowSpawn(SpawnCars(row, d(c) < 0.5, n, d, c + 2), [], 1, c + 2 + 2 * n)
  }

  /** A safe row: 40% of them get trees (a count draw, then one draw per tree). */
  function SafeRow(row: int, d: nat -> real, c: nat): RowSpawn {
    if d(c) < 0.4 then
      var n := Count(TreesPerRow(d(c + 1)));
      RowSpawn([], SpawnTrees(row, n, d, c + 2), 0, c + 2 + n)
    else
      RowSpawn([], [], 0, c + 1)
  }

  /** Car `car` sits on the road row it names. */
  ghost predicate CarOnRoad(car: Car, rows: seq<int>) {
    0 <= car.rowIndex < |rows| && rows[car.rowIndex] == 1 && car.position.z == RowZ(car.rowIndex)
  }

  /** Tree `t` stands on some safe row. */
  ghost predicate TreeOnSafeRow(t: Tree, rows: seq<int>) {
    exists r :: 0 <= r < |rows| && rows[r] == 0 && t.position.z == RowZ(r)
  }

  /** Every row flag is 0 or 1, every car sits on the road row it names and
      every tree on a safe row. */
  ghost predicate RowsConsistent(cars: seq<Car>, trees: seq<Tree>, rows: seq<int>) {
    && (forall i :: 0 <= i < |rows| ==> rows[i] == 0 || rows[i] == 1)
    && (forall i :: 0 <= i < |cars| ==> CarOnRoad(cars[i], rows))
    && (forall i :: 0 <= i < |trees| ==> TreeOnSafeRow(trees[i], rows))
  }

  /** The world's rows with their cars and trees, and the draw cursor. */
  datatype Layout = Layout(cars: seq<Car>, trees: seq<Tree>, rows: seq<int>, next: nat)

  /** One `spawnNewRow` call: row `|l.rows|` is appended with what it spawns. */
  function Extend(l: Layout, d: nat -> real): Layout {
    var o := SpawnRow(|l.rows|, d, l.next);
    Layout(l.cars + o.cars, l.trees + o.trees, l.rows + [o.road], o.next)
  }

  /** `n` calls of `spawnNewRow`. */
  function Spawned(l: Layout, n: nat, d: nat -> real): Layout
    decreases n
  {
    if n == 0 then l else Spawned(Extend(l, d), n - 1, d)
  }

  /** `while (target >= roadRows.size()) spawnNewRow();` */
  function FillTo(l: Layout, target: int, d: nat -> real): Layout
    decreases target + 1 - |l.rows|
  {
    if target >= |l.rows| then FillTo(Extend(l, d), target, d) else l
  }

  /** Where a car at `x` ends up after driving `step` along its direction:
      past the near edge of the road it wraps to the far one. */
  function Drive(x: real, step: real, movingRight: bool): real {
    if movingRight then
      (if x + step > RoadEdge then -RoadEdge else x + step)
    else
      (if x - step < -RoadEdge then RoadEdge else x - step)
  }

  /** One `updateCars` step for one car: drive `speed * gameSpeed * deltaTime`
      along x, wrapping at the road's edge. */
  function MoveCar(car: Car, gameSpeed: real, deltaTime: real): Car {
    car.(position := car.position.(x := Drive(car.position.x, car.speed * gameSpeed * deltaTime, car.movingRight)))
  }

  /** `updateCars` over the whole list: every car keeps its place in the
      list and everything but its x, and ends no further than the road's
      edge on the side it drives towards. */
  function MoveCars(cars: seq<Car>, gameSpeed: real, deltaTime: real): (r: seq<Car>)
    ensures |r| == |cars|
    ensures forall i :: 0 <= i < |r| ==> r[i] == cars[i].(position := cars[i].position.(x := r[i].position.x))
    ensures forall i :: 0 <= i < |r| ==>
      (r[i].movingRight ==> r[i].position.x <= RoadEdge) && (!r[i].movingRight ==> r[i].position.x >= -RoadEdge)
  {
    seq(|cars|, i requires 0 <= i < |cars| => MoveCar(cars[i], gameSpeed, deltaTime))
  }

  /** The squared distance in the ground plane (x and z). */
  function PlanarDistanceSquared(a: Vec3, b: Vec3): real {
    (a.x - b.x) * (a.x - b.x) + (a.z - b.z) * (a.z - b.z)
  }

  /** A tree blocks `p` when it stands within 1.5 of it in the ground plane. */
  predicate Blocks(t: Tree, p: Vec3) {
    PlanarDistanceSquared(p, t.position) < TreeCollisionDistance * TreeCollisionDistance
  }

  /** A car hits the player within distance 1 (in three dimensions). */
  predicate Hits(car: Car, p: Vec3) {
    DistanceSquared(p, car.position) < CollisionDistance * CollisionDistance
  }

  /** The keys `processInput` polls (true = GLFW_PRESS, false = GLFW_RELEASE). */
  datatype GameKeys = GameKeys(w: bool, s: bool, a: bool, d: bool, r: bool)

  /** The player's position and heading with the four static press latches. */
  datatype Mover = Mover(position: Vec3, rotation: real, wLatch: bool, sLatch: bool, aLatch: bool, dLatch: bool)

  predicate Clear(p: Vec3, trees: seq<Tree>) {
    forall t :: t in trees ==> !Blocks(t, p)
  }

  /** W: one step forward (+z), not behind the camera's margin, not into a tree. */
  function Forward(m: Mover, held: bool, camera: Vec3, trees: seq<Tree>): Mover {
    if held && !m.wLatch then
      var p := m.position;
      var next := p.(z := p.z + MoveDistance);
      if p.z + MoveDistance >= camera.z + 2.0 && Clear(next, trees)
      then m.(position := next, rotation := 0.0, wLatch := true)
      else m.(wLatch := true)
    else if !held then m.(wLatch := false)
    else m
  }

  /** S: one step back (-z), kept in front of the camera, not into a tree. */
  function Backward(m: Mover, held: bool, camera: Vec3, trees: seq<Tree>): Mover {
    if held && !m.sLatch then
      var p := m.position;
      var next := p.(z := p.z - MoveDistance);
      if p.z - MoveDistance >= camera.z + 2.0 && Clear(next, trees)
      then m.(position := next, rotation := 180.0, sLatch := true)
      else m.(sLatch := true)
    else if !held then m.(sLatch := false)
    else m
  }

  /** A: the guard tests the cell at x - 2 (the left bound and its trees) but
      the step goes to x + 2. */
  function Left(m: Mover, held: bool, camera: Vec3, trees: seq<Tree>): Mover {
    if held && !m.aLatch then
      var p := m.position;
      var probe := p.(x := p.x - MoveDistance);
      if p.x - MoveDistance >= camera.x - HalfViewWidth
         && p.x > -(GridWidth as real) * MoveDistance && Clear(probe, trees)
      then m.(position := p.(x := p.x + MoveDistance), rotation := 90.0, aLatch := true)
      else m.(aLatch := true)
    else if !held then m.(aLatch := false)
    else m
  }

  /** D: the guard tests the cell at x + 2 but the step goes to x - 2. */
  function Right(m: Mover, held: bool, camera: Vec3, trees: seq<Tree>): Mover {
    if held && !m.dLatch then
      var p := m.position;
      var probe := p.(x := p.x + MoveDistance);
      if p.x + MoveDistance <= camera.x + HalfViewWidth
         && p.x < (GridWidth as real) * MoveDistance && Clear(probe, trees)
      then m.(position := p.(x := p.x - MoveDistance), rotation := -90.0, dLatch := true)
      else m.(dLatch := true)
    else if !held then m.(dLatch := false)
    else m
  }

  /** The movement part of `processInput`: W, S, A, D in that order, and
      nothing at all (not even the latches) once the game is over. */
  function Movement(m: Mover, k: GameKeys, camera: Vec3, trees: seq<Tree>, gameOver: bool): Mover {
    if gameOver then m
    else Right(Left(Backward(Forward(m, k.w, camera, trees), k.s, camera, trees), k.a, camera, trees), k.d, camera, trees)
  }

  /** `glm::mix` on one coordinate. */
  function Mix(a: real, b: real, t: real): real {
    a * (1.0 - t) + b * t
  }

  /** The camera position the follow logic aims at: above and behind the
      player, never further back than the camera already is. */
  function CameraTarget(player: Vec3, camera: Vec3): Vec3 {
    var z := player.z - 6.0;
    Vec3(player.x, player.y + 10.0, if z < camera.z then camera.z else z)
  }

  function FollowCamera(player: Vec3, camera: Vec3, t: real): Vec3 {
    var target := CameraTarget(player, camera);
    Vec3(Mix(camera.x, target.x, t), Mix(camera.y, target.y, t), Mix(camera.z, target.z, t))
  }
}
