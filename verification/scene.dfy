/**
 * Scene construction of the breaking-dam demo: a width * height * depth block
 * of fluid particles and six box faces of boundary particles, all sampled on
 * lattices with spacing twice the particle radius.
 */
module Scene {
  import opened Vectors
  import opened Arith
  import opened Lattice

  /**
   * Scenario constants: particle radius, fluid lattice size and container
   * height. The demo uses radius 0.025, a 15 * 20 * 15 block and height 4.
   */
  datatype Config = Config(particleRadius: real, width: nat, height: nat, depth: nat, containerHeight: real)

  predicate Valid(cfg: Config) {
    cfg.particleRadius > 0.0 && cfg.containerHeight >= 0.0
  }

  /** Particle diameter, the lattice spacing of both the fluid and the walls. */
  function Diameter(cfg: Config): real {
    2.0 * cfg.particleRadius
  }

  function ContainerWidth(cfg: Config): real {
    (cfg.width + 1) as real * cfg.particleRadius * 10.0
  }

  function ContainerDepth(cfg: Config): real {
    (cfg.depth + 1) as real * cfg.particleRadius * 2.0
  }

  /** Lower corner of the fluid block: one diameter inside the container's minimum corner, one diameter above the floor. */
  function FluidStart(cfg: Config): Vec3 {
    var diam := Diameter(cfg);
    Vec3(-0.5 * ContainerWidth(cfg) + diam, diam, -0.5 * ContainerDepth(cfg) + diam)
  }

  /** An axis-aligned box face given by its minimum and maximum corner. */
  datatype Wall = Wall(lo: Vec3, hi: Vec3)

  /** Per-axis layer counts of a wall's lattice. */
  datatype Steps = Steps(x: nat, y: nat, z: nat)

  /** Every extent of the wall is non-negative. */
  predicate WellFormed(w: Wall) {
    w.lo.x <= w.hi.x && w.lo.y <= w.hi.y && w.lo.z <= w.hi.z
  }

  /**
   * Layers along one axis: the truncated quotient extent/distance plus one.
   * It is the unique count whose last layer lies inside the extent while one
   * more layer would lie beyond it.
   */
  function AxisSteps(extent: real, distance: real): (n: nat)
    requires 0.0 <= extent && 0.0 < distance
    ensures n >= 1
    ensures (n - 1) as real * distance <= extent < n as real * distance
    ensures extent == 0.0 ==> n == 1
  {
    var q := extent / distance;
    RealDivMul(extent, distance);
    var layers := q.Floor + 1;
    RealMulLe((layers - 1) as real, q, distance);
    RealMulLt(q, layers as real, distance);
    assert extent < layers as real * distance;
    layers
  }

  function WallSteps(w: Wall, distance: real): Steps
    requires WellFormed(w) && distance > 0.0
  {
    var diff := Sub(w.hi, w.lo);
    Steps(AxisSteps(diff.x, distance), AxisSteps(diff.y, distance), AxisSteps(diff.z, distance))
  }

  /** Number of particles a wall contributes. */
  function WallCount(w: Wall, distance: real): (n: nat)
    requires WellFormed(w) && distance > 0.0
    ensures n >= 1
  {
    var s := WallSteps(w, distance);
    MulMono(1, s.x, s.y);
    MulMono(1, s.x * s.y, s.z);
    s.x * s.y * s.z
  }

  /** Reference positions of a wall's lattice, starting at its minimum corner. */
  function WallBlock(w: Wall, distance: real): seq<Vec3>
    requires WellFormed(w) && distance > 0.0
  {
    var s := WallSteps(w, distance);
    Block(w.lo, distance, s.x, s.y, s.z)
  }

  /**
   * `addWall`: append the lattice of the box face [lo, hi] to `boundary`.
   * The entry at |boundary| + j*stepsY*stepsZ + k*stepsZ + l is
   * lo + distance * (j, k, l); earlier entries are kept and every new slot is
   * written exactly once.
   */
  method AddWall(lo: Vec3, hi: Vec3, particleRadius: real, boundary: seq<Vec3>)
    returns (r: seq<Vec3>, writes: seq<nat>)
    requires particleRadius > 0.0 && WellFormed(Wall(lo, hi))
    ensures r == boundary + WallBlock(Wall(lo, hi), 2.0 * particleRadius)
    ensures |r| == |boundary| + WallCount(Wall(lo, hi), 2.0 * particleRadius) > |boundary|
    ensures r[..|boundary|] == boundary
    ensures var s := WallSteps(Wall(lo, hi), 2.0 * particleRadius);
      forall cell :: InBlock(cell, s.x, s.y, s.z) ==>
        |boundary| + Flat(cell, s.y, s.z) < |r| &&
        r[|boundary| + Flat(cell, s.y, s.z)] == CellPosition(lo, 2.0 * particleRadius, cell)
    ensures |writes| == |r|
    ensures forall n :: 0 <= n < |boundary| ==> writes[n] == 0
    ensures forall n :: |boundary| <= n < |r| ==> writes[n] == 1
  {
    var particleDistance := 2.0 * particleRadius;
    var diff := Sub(hi, lo);
    var stepsX := AxisSteps(diff.x, particleDistance);
    var stepsY := AxisSteps(diff.y, particleDistance);
    var stepsZ := AxisSteps(diff.z, particleDistance);
    r, writes := FillBlock(boundary, lo, particleDistance, stepsX, stepsY, stepsZ);
  }

  /** The six container faces, in the order floor, top, left, right, back, front. */
  function Walls(cfg: Config): (ws: seq<Wall>)
    requires Valid(cfg)
    ensures |ws| == 6
    ensures forall i :: 0 <= i < |ws| ==> WellFormed(ws[i])
    ensures ws[0].lo.y == ws[0].hi.y == 0.0 && ws[1].lo.y == ws[1].hi.y == cfg.containerHeight
    ensures ws[2].lo.x == ws[2].hi.x == -ContainerWidth(cfg) / 2.0
    ensures ws[3].lo.x == ws[3].hi.x == ContainerWidth(cfg) / 2.0 > ws[2].lo.x
    ensures ws[4].lo.z == ws[4].hi.z == -ContainerDepth(cfg) / 2.0
    ensures ws[5].lo.z == ws[5].hi.z == ContainerDepth(cfg) / 2.0 > ws[4].lo.z
  {
    var x1, x2 := -ContainerWidth(cfg) / 2.0, ContainerWidth(cfg) / 2.0;
    var y1, y2 := 0.0, cfg.containerHeight;
    var z1, z2 := -ContainerDepth(cfg) / 2.0, ContainerDepth(cfg) / 2.0;
    assert ContainerWidth(cfg) > 0.0 && ContainerDepth(cfg) > 0.0;
    [ Wall(Vec3(x1, y1, z1), Vec3(x2, y1, z2)),   // floor
      Wall(Vec3(x1, y2, z1), Vec3(x2, y2, z2)),   // top
      Wall(Vec3(x1, y1, z1), Vec3(x1, y2, z2)),   // left
      Wall(Vec3(x2, y1, z1), Vec3(x2, y2, z2)),   // right
      Wall(Vec3(x1, y1, z1), Vec3(x2, y2, z1)),   // back
      Wall(Vec3(x1, y1, z2), Vec3(x2, y2, z2)) ]  // front
  }

  predicate AllWellFormed(ws: seq<Wall>) {
    forall i :: 0 <= i < |ws| ==> WellFormed(ws[i])
  }

  /** Reference boundary: the walls' lattices concatenated in order. */
  function Boundary(ws: seq<Wall>, distance: real): seq<Vec3>
    requires AllWellFormed(ws) && distance > 0.0
  {
    if |ws| == 0 then [] else Boundary(ws[..|ws| - 1], distance) + WallBlock(ws[|ws| - 1], distance)
  }

  /** Sum of the walls' particle counts. */
  function TotalCount(ws: seq<Wall>, distance: real): nat
    requires AllWellFormed(ws) && distance > 0.0
  {
    if |ws| == 0 then 0 else TotalCount(ws[..|ws| - 1], distance) + WallCount(ws[|ws| - 1], distance)
  }

  /** The concatenated boundary holds exactly the sum of the wall counts. */
  lemma {:induction false} BoundaryLength(ws: seq<Wall>, distance: real)
    requires AllWellFormed(ws) && distance > 0.0
    ensures |Boundary(ws, distance)| == TotalCount(ws, distance) >= |ws|
  {
    if |ws| > 0 {
      var w := ws[|ws| - 1];
      BoundaryLength(ws[..|ws| - 1], distance);
      var s := WallSteps(w, distance);
      assert |WallBlock(w, distance)| == s.x * s.y * s.z;
    }
  }

  /** Appending a wall appends its lattice and adds its count. */
  lemma BoundarySnoc(ws: seq<Wall>, w: Wall, distance: real)
    requires AllWellFormed(ws) && WellFormed(w) && distance > 0.0
    ensures AllWellFormed(ws + [w])
    ensures Boundary(ws + [w], distance) == Boundary(ws, distance) + WallBlock(w, distance)
    ensures TotalCount(ws + [w], distance) == TotalCount(ws, distance) + WallCount(w, distance)
  {
    assert (ws + [w])[..|ws|] == ws;
  }

  lemma ConcatAssoc<T>(a: seq<T>, b: seq<T>, c: seq<T>)
    ensures (a + b) + c == a + (b + c)
  {
  }

  /** A slice that ends inside the first part of a concatenation lies in that part. */
  lemma SliceInPrefix<T>(a: seq<T>, b: seq<T>, lo: nat, hi: nat)
    requires lo <= hi <= |a|
    ensures (a + b)[lo..hi] == a[lo..hi]
  {
  }

  /** The slots after the first part of a concatenation hold the second part. */
  lemma SliceIsSuffix<T>(a: seq<T>, b: seq<T>)
    ensures (a + b)[|a|..|a| + |b|] == b
  {
  }

  /**
   * Wall i occupies the slots from the sum of the counts of the walls before
   * it up to that sum plus its own count, and nothing else is there.
   */
  lemma {:induction false} BoundarySegment(ws: seq<Wall>, distance: real, i: nat)
    requires AllWellFormed(ws) && distance > 0.0 && i < |ws|
    ensures TotalCount(ws[..i + 1], distance) == TotalCount(ws[..i], distance) + WallCount(ws[i], distance)
    ensures TotalCount(ws[..i + 1], distance) <= |Boundary(ws, distance)|
    ensures Boundary(ws, distance)[TotalCount(ws[..i], distance)..TotalCount(ws[..i + 1], distance)]
      == WallBlock(ws[i], distance)
  {
    var last := |ws| - 1;
    var prefix := ws[..last];
    assert ws == prefix + [ws[last]];
    assert ws[..i + 1] == ws[..i] + [ws[i]];
    BoundarySnoc(ws[..i], ws[i], distance);
    BoundarySnoc(prefix, ws[last], distance);
    BoundaryLength(ws[..i], distance);
    BoundaryLength(prefix, distance);
    if i < last {
      assert prefix[..i] == ws[..i];
      assert prefix[..i + 1] == ws[..i + 1];
      BoundarySegment(prefix, distance, i);
      SliceInPrefix(Boundary(prefix, distance), WallBlock(ws[last], distance),
                    TotalCount(ws[..i], distance), TotalCount(ws[..i + 1], distance));
    } else {
      assert ws[..i] == prefix;
      SliceIsSuffix(Boundary(prefix, distance), WallBlock(ws[last], distance));
    }
  }

  /**
   * Each face is one layer thick across its normal, so it holds the product
   * of its two in-plane step counts: floor and top stepsX * stepsZ, left and
   * right stepsY * stepsZ, back and front stepsX * stepsY. The boundary holds
   * twice the sum of the three.
   */
  lemma FaceCounts(cfg: Config)
    requires Valid(cfg)
    ensures var ws, d := Walls(cfg), Diameter(cfg);
      var sx := AxisSteps(ContainerWidth(cfg), d);
      var sy := AxisSteps(cfg.containerHeight, d);
      var sz := AxisSteps(ContainerDepth(cfg), d);
      WallCount(ws[0], d) == WallCount(ws[1], d) == sx * sz &&
      WallCount(ws[2], d) == WallCount(ws[3], d) == sy * sz &&
      WallCount(ws[4], d) == WallCount(ws[5], d) == sx * sy &&
      TotalCount(ws, d) == 2 * (sx * sz + sy * sz + sx * sy)
  {
    var ws, d := Walls(cfg), Diameter(cfg);
    var w, dp := ContainerWidth(cfg), ContainerDepth(cfg);
    assert w / 2.0 - -w / 2.0 == w;
    assert dp / 2.0 - -dp / 2.0 == dp;
    assert ws[..6] == ws;
    forall i | 0 <= i < 6
      ensures TotalCount(ws[..i + 1], d) == TotalCount(ws[..i], d) + WallCount(ws[i], d)
    {
      assert ws[..i + 1][..i] == ws[..i];
    }
    assert TotalCount(ws[..0], d) == 0;
  }

  /** `addWall` applied to each wall in turn: the walls' lattices are appended in order. */
  method AddWalls(ws: seq<Wall>, particleRadius: real, boundary: seq<Vec3>) returns (r: seq<Vec3>)
    requires particleRadius > 0.0 && AllWellFormed(ws)
    ensures r == boundary + Boundary(ws, 2.0 * particleRadius)
    ensures |r| == |boundary| + TotalCount(ws, 2.0 * particleRadius)
  {
    var d := 2.0 * particleRadius;
    r := boundary;
    for i := 0 to |ws|
      invariant r == boundary + Boundary(ws[..i], d)
    {
      var writes;
      r, writes := AddWall(ws[i].lo, ws[i].hi, particleRadius, r);
      assert Wall(ws[i].lo, ws[i].hi) == ws[i];
      assert ws[..i + 1] == ws[..i] + [ws[i]];
      BoundarySnoc(ws[..i], ws[i], d);
      ConcatAssoc(boundary, Boundary(ws[..i], d), WallBlock(ws[i], d));
    }
    assert ws[..|ws|] == ws;
    BoundaryLength(ws, d);
  }

  /**
   * `initBoundaryData`: append the six container faces to `boundary`, one
   * `AddWall` after the other.
   */
  method InitBoundaryData(cfg: Config, boundary: seq<Vec3>) returns (r: seq<Vec3>)
    requires Valid(cfg)
    ensures r == boundary + Boundary(Walls(cfg), Diameter(cfg))
    ensures |r| == |boundary| + TotalCount(Walls(cfg), Diameter(cfg))
  {
    r := AddWalls(Walls(cfg), cfg.particleRadius, boundary);
  }

  /**
   * `createBreakingDam`: the fluid block of width * height * depth particles,
   * with the particle of lattice cell (i, j, k) at slot i*height*depth + j*depth + k
   * and position diam * (i, j, k) + start, followed by the boundary walls.
   */
  method CreateBreakingDam(cfg: Config) returns (fluid: seq<Vec3>, fluidWrites: seq<nat>, boundary: seq<Vec3>)
    requires Valid(cfg)
    ensures fluid == Block(FluidStart(cfg), Diameter(cfg), cfg.width, cfg.height, cfg.depth)
    ensures |fluid| == cfg.width * cfg.height * cfg.depth
    ensures forall cell :: InBlock(cell, cfg.width, cfg.height, cfg.depth) ==>
      Flat(cell, cfg.height, cfg.depth) < |fluid| &&
      fluid[Flat(cell, cfg.height, cfg.depth)] ==
        Add(Scale(Diameter(cfg), Vec3(cell.a as real, cell.b as real, cell.c as real)), FluidStart(cfg))
    ensures |fluidWrites| == |fluid| && forall n :: 0 <= n < |fluidWrites| ==> fluidWrites[n] == 1
    ensures boundary == Boundary(Walls(cfg), Diameter(cfg))
  {
    var diam := 2.0 * cfg.particleRadius;
    var start := FluidStart(cfg);
    fluid, fluidWrites := FillBlock([], start, diam, cfg.width, cfg.height, cfg.depth);
    ScaledPositions(fluid, start, diam, cfg.width, cfg.height, cfg.depth);
    boundary := InitBoundaryData(cfg, []);
  }

  /** Restates every cell's lattice position in the demo's form `spacing * (i, j, k) + origin`. */
  lemma ScaledPositions(r: seq<Vec3>, origin: Vec3, spacing: real, nx: nat, ny: nat, nz: nat)
    requires forall cell :: InBlock(cell, nx, ny, nz) ==>
      Flat(cell, ny, nz) < |r| && r[Flat(cell, ny, nz)] == CellPosition(origin, spacing, cell)
    ensures forall cell :: InBlock(cell, nx, ny, nz) ==>
      Flat(cell, ny, nz) < |r| &&
      r[Flat(cell, ny, nz)] == Add(Scale(spacing, Vec3(cell.a as real, cell.b as real, cell.c as real)), origin)
  {
    forall cell | InBlock(cell, nx, ny, nz)
      ensures r[Flat(cell, ny, nz)] == Add(Scale(spacing, Vec3(cell.a as real, cell.b as real, cell.c as real)), origin)
    {
      ScaledCellPosition(origin, spacing, cell);
    }
  }

  /** The demo's `diam * (i, j, k) + start` is the lattice position of cell (i, j, k). */
  lemma ScaledCellPosition(origin: Vec3, spacing: real, cell: Cell)
    ensures CellPosition(origin, spacing, cell) ==
      Add(Scale(spacing, Vec3(cell.a as real, cell.b as real, cell.c as real)), origin)
  {
  }
}
