/**
 * Row-major lattice layout shared by the fluid block and the boundary walls:
 * cell (a, b, c) of an nx * ny * nz block lives at flat slot a*ny*nz + b*nz + c.
 */
module Lattice {
  import opened Vectors
  import opened Arith

  /** Integer lattice coordinates of one cell. */
  datatype Cell = Cell(a: nat, b: nat, c: nat)

  predicate InBlock(cell: Cell, nx: nat, ny: nat, nz: nat) {
    cell.a < nx && cell.b < ny && cell.c < nz
  }

  /** Number of cells of an nx * ny * nz block. */
  function Size(nx: nat, ny: nat, nz: nat): nat {
    Mul(Mul(nx, ny), nz)
  }

  /** The flat index the demo computes for a lattice cell (see `FlatFormula`). */
  function Flat(cell: Cell, ny: nat, nz: nat): nat {
    Mul(Mul(cell.a, ny), nz) + Mul(cell.b, nz) + cell.c
  }

  /** The cell a flat index belongs to; the inverse of `Flat`. */
  function Unflat(n: nat, ny: nat, nz: nat): Cell
    requires ny > 0 && nz > 0
  {
    Cell(n / (ny * nz), (n % (ny * nz)) / nz, n % nz)
  }

  /** Position of a lattice cell: the origin plus the cell's coordinates times the spacing. */
  function CellPosition(origin: Vec3, spacing: real, cell: Cell): Vec3 {
    Add(origin, Vec3(cell.a as real * spacing, cell.b as real * spacing, cell.c as real * spacing))
  }

  /**
   * Reference layout of a filled block: slot n holds the value `gen` gives
   * the cell whose flat index is n.
   */
  function Layout<T>(gen: Cell -> T, nx: nat, ny: nat, nz: nat): seq<T> {
    if ny == 0 || nz == 0 then []
    else seq(nx * ny * nz, n requires 0 <= n => gen(Unflat(n, ny, nz)))
  }

  /** Generator placing each cell at origin + spacing * (a, b, c). */
  function Grid(origin: Vec3, spacing: real): Cell -> Vec3 {
    cell => CellPosition(origin, spacing, cell)
  }

  /** Reference positions of a regular lattice block with the given origin and spacing. */
  function Block(origin: Vec3, spacing: real, nx: nat, ny: nat, nz: nat): seq<Vec3> {
    Layout(Grid(origin, spacing), nx, ny, nz)
  }

  lemma SizeIsProduct(nx: nat, ny: nat, nz: nat)
    ensures Size(nx, ny, nz) == nx * ny * nz
  {
    MulIsProduct(nx, ny);
    MulIsProduct(nx * ny, nz);
  }

  /** `Flat` is the index expression a*ny*nz + b*nz + c of the demo's fill loops. */
  lemma FlatFormula(cell: Cell, ny: nat, nz: nat)
    ensures Flat(cell, ny, nz) == cell.a * ny * nz + cell.b * nz + cell.c
  {
    MulIsProduct(cell.a, ny);
    MulIsProduct(cell.a * ny, nz);
    MulIsProduct(cell.b, nz);
  }

  /** `Flat` maps every cell of an nx * ny * nz block into [0, nx*ny*nz). */
  lemma {:induction false} FlatBound(cell: Cell, nx: nat, ny: nat, nz: nat)
    requires InBlock(cell, nx, ny, nz)
    ensures Flat(cell, ny, nz) < nx * ny * nz
    ensures Flat(cell, ny, nz) < Size(nx, ny, nz)
  {
    FlatFormula(cell, ny, nz);
    SizeIsProduct(nx, ny, nz);
    var m := ny * nz;
    MulDistAdd(cell.b, 1, nz);
    MulMono(cell.b + 1, ny, nz);
    assert cell.b * nz + cell.c < m;
    MulDistAdd(cell.a, 1, m);
    MulMono(cell.a + 1, nx, m);
    MulAssoc(cell.a, ny, nz);
    MulAssoc(nx, ny, nz);
  }

  /** `Unflat` undoes `Flat` on every cell with in-range second and third coordinates. */
  lemma {:induction false} UnflatFlat(cell: Cell, ny: nat, nz: nat)
    requires cell.b < ny && cell.c < nz
    ensures Unflat(Flat(cell, ny, nz), ny, nz) == cell
  {
    FlatFormula(cell, ny, nz);
    var n := Flat(cell, ny, nz);
    var m := ny * nz;
    var inner := cell.b * nz + cell.c;
    MulDistAdd(cell.b, 1, nz);
    MulMono(cell.b + 1, ny, nz);
    MulAssoc(cell.a, ny, nz);
    assert n == cell.a * m + inner;
    DivModUnique(n, m, cell.a, inner);
    DivModUnique(inner, nz, cell.b, cell.c);
    MulDistAdd(cell.a * ny, cell.b, nz);
    assert n == (cell.a * ny + cell.b) * nz + cell.c;
    DivModUnique(n, nz, cell.a * ny + cell.b, cell.c);
  }

  /** `Flat` undoes `Unflat`: every slot below nx*ny*nz is the flat index of a cell of the block. */
  lemma {:induction false} FlatUnflat(n: nat, nx: nat, ny: nat, nz: nat)
    requires n < nx * ny * nz
    ensures ny > 0 && nz > 0
    ensures InBlock(Unflat(n, ny, nz), nx, ny, nz)
    ensures Flat(Unflat(n, ny, nz), ny, nz) == n
  {
    if ny == 0 || nz == 0 {
      MulZero(nx, ny, nz);
      assert false;
    }
    var m := ny * nz;
    var a, inner := n / m, n % m;
    var b, c := inner / nz, inner % nz;
    assert n == a * m + inner;
    assert inner == b * nz + c;
    MulAssoc(a, ny, nz);
    MulDistAdd(a * ny, b, nz);
    assert n == (a * ny + b) * nz + c;
    DivModUnique(n, nz, a * ny + b, c);
    assert Unflat(n, ny, nz) == Cell(a, b, c);
    if b >= ny {
      MulMono(ny, b, nz);
      assert false;
    }
    if a >= nx {
      MulMono(nx, a, m);
      MulAssoc(nx, ny, nz);
      assert false;
    }
    FlatFormula(Cell(a, b, c), ny, nz);
  }

  /** No other cell of the block shares the flat index of `cell`. */
  lemma {:induction false} FlatInjective(cell: Cell, nx: nat, ny: nat, nz: nat)
    requires InBlock(cell, nx, ny, nz)
    ensures forall other :: InBlock(other, nx, ny, nz) && Flat(other, ny, nz) == Flat(cell, ny, nz) ==> other == cell
  {
    UnflatFlat(cell, ny, nz);
    forall other | InBlock(other, nx, ny, nz) && Flat(other, ny, nz) == Flat(cell, ny, nz)
      ensures other == cell
    {
      UnflatFlat(other, ny, nz);
    }
  }

  /**
   * The flat index is a bijection between the cells of an nx * ny * nz block
   * and the slots [0, nx*ny*nz), with `Unflat` as its inverse.
   */
  lemma {:induction false} FlatIsBijection(nx: nat, ny: nat, nz: nat)
    ensures forall cell :: InBlock(cell, nx, ny, nz) ==>
      Flat(cell, ny, nz) < nx * ny * nz && Unflat(Flat(cell, ny, nz), ny, nz) == cell
    ensures forall cell, cell' ::
      (InBlock(cell, nx, ny, nz) && InBlock(cell', nx, ny, nz) && Flat(cell, ny, nz) == Flat(cell', ny, nz)) ==> cell == cell'
    ensures forall n: nat :: n < nx * ny * nz ==>
      ny > 0 && nz > 0 && InBlock(Unflat(n, ny, nz), nx, ny, nz) && Flat(Unflat(n, ny, nz), ny, nz) == n
  {
    forall cell | InBlock(cell, nx, ny, nz)
      ensures Flat(cell, ny, nz) < nx * ny * nz && Unflat(Flat(cell, ny, nz), ny, nz) == cell
    {
      FlatBound(cell, nx, ny, nz);
      UnflatFlat(cell, ny, nz);
    }
    forall n: nat | n < nx * ny * nz
      ensures ny > 0 && nz > 0 && InBlock(Unflat(n, ny, nz), nx, ny, nz) && Flat(Unflat(n, ny, nz), ny, nz) == n
    {
      FlatUnflat(n, nx, ny, nz);
    }
  }

  /**
   * A sequence that keeps `base` and holds gen(cell) at |base| + Flat(cell)
   * for every cell of the block, and has no other slots, is exactly `base`
   * followed by the reference layout.
   */
  lemma {:induction false} FilledIsLayout<T>(base: seq<T>, r: seq<T>, gen: Cell -> T, nx: nat, ny: nat, nz: nat)
    requires |r| == |base| + Size(nx, ny, nz)
    requires forall n :: 0 <= n < |base| ==> r[n] == base[n]
    requires forall cell :: InBlock(cell, nx, ny, nz) ==>
      |base| + Flat(cell, ny, nz) < |r| && r[|base| + Flat(cell, ny, nz)] == gen(cell)
    ensures |r| == |base| + nx * ny * nz
    ensures r == base + Layout(gen, nx, ny, nz)
  {
    SizeIsProduct(nx, ny, nz);
    var layout := Layout(gen, nx, ny, nz);
    if ny == 0 || nz == 0 {
      MulZero(nx, ny, nz);
    }
    assert |layout| == nx * ny * nz;
    forall n | 0 <= n < |r|
      ensures r[n] == (base + layout)[n]
    {
      if n >= |base| {
        FlatUnflat(n - |base|, nx, ny, nz);
      }
    }
  }

  /**
   * Progress of the nested fill after its first `done` slots (in row-major
   * order): the prefix `base` is kept and never written, the first `done`
   * new slots were written once each and hold their cell's value, and the
   * remaining new slots were not written yet.
   */
  ghost predicate Progress<T>(r: seq<T>, writes: seq<nat>, base: seq<T>, gen: Cell -> T,
                              nx: nat, ny: nat, nz: nat, done: nat)
  {
    |r| == |writes| == |base| + Size(nx, ny, nz) && done <= Size(nx, ny, nz) &&
    (forall n :: 0 <= n < |base| ==> r[n] == base[n] && writes[n] == 0) &&
    (forall n :: |base| <= n < |base| + done ==> writes[n] == 1) &&
    (forall n :: |base| + done <= n < |r| ==> writes[n] == 0) &&
    (forall cell :: InBlock(cell, nx, ny, nz) && Flat(cell, ny, nz) < done ==>
      r[|base| + Flat(cell, ny, nz)] == gen(cell))
  }

  /** The innermost loop of the fill: the nz cells (a, b, 0) .. (a, b, nz-1), in order. */
  method FillRow<T>(base: seq<T>, r0: seq<T>, w0: seq<nat>, gen: Cell -> T,
                    nx: nat, ny: nat, nz: nat, a: nat, b: nat)
    returns (r: seq<T>, writes: seq<nat>)
    requires a < nx && b < ny
    requires Progress(r0, w0, base, gen, nx, ny, nz, Flat(Cell(a, b, 0), ny, nz))
    ensures Progress(r, writes, base, gen, nx, ny, nz, Flat(Cell(a, b, 0), ny, nz) + nz)
  {
    r, writes := r0, w0;
    var c := 0;
    while c < nz
      invariant 0 <= c <= nz
      invariant Progress(r, writes, base, gen, nx, ny, nz, Flat(Cell(a, b, c), ny, nz))
    {
      var idx := |base| + Flat(Cell(a, b, c), ny, nz);
      FlatBound(Cell(a, b, c), nx, ny, nz);
      FlatInjective(Cell(a, b, c), nx, ny, nz);
      r := r[idx := gen(Cell(a, b, c))];
      writes := writes[idx := writes[idx] + 1];
      c := c + 1;
    }
  }

  /** The middle loop of the fill: the ny rows of layer a, in order. */
  method FillPlane<T>(base: seq<T>, r0: seq<T>, w0: seq<nat>, gen: Cell -> T,
                      nx: nat, ny: nat, nz: nat, a: nat)
    returns (r: seq<T>, writes: seq<nat>)
    requires a < nx
    requires Progress(r0, w0, base, gen, nx, ny, nz, Mul(Mul(a, ny), nz))
    ensures Progress(r, writes, base, gen, nx, ny, nz, Mul(Mul(a + 1, ny), nz))
  {
    r, writes := r0, w0;
    var b := 0;
    while b < ny
      invariant 0 <= b <= ny
      invariant Progress(r, writes, base, gen, nx, ny, nz, Mul(Mul(a, ny), nz) + Mul(b, nz))
    {
      r, writes := FillRow(base, r, writes, gen, nx, ny, nz, a, b);
      b := b + 1;
    }
    MulDistNat(Mul(a, ny), ny, nz);
  }

  /**
   * Resize `base` by nx*ny*nz slots (padding with `pad`) and fill them with the
   * nested loops of the demo: slot |base| + a*ny*nz + b*nz + c receives
   * gen(a, b, c). `writes` counts the writes each slot received.
   */
  method FillLattice<T>(base: seq<T>, gen: Cell -> T, pad: T, nx: nat, ny: nat, nz: nat)
    returns (r: seq<T>, writes: seq<nat>)
    ensures |r| == |writes| == |base| + Size(nx, ny, nz)
    ensures forall n :: 0 <= n < |base| ==> r[n] == base[n] && writes[n] == 0
    ensures forall n :: |base| <= n < |r| ==> writes[n] == 1
    ensures forall cell :: InBlock(cell, nx, ny, nz) ==>
      |base| + Flat(cell, ny, nz) < |r| && r[|base| + Flat(cell, ny, nz)] == gen(cell)
  {
    r := base + seq(Size(nx, ny, nz), _ => pad);
    writes := seq(|base| + Size(nx, ny, nz), _ => 0);
    var a := 0;
    while a < nx
      invariant 0 <= a <= nx
      invariant Progress(r, writes, base, gen, nx, ny, nz, Mul(Mul(a, ny), nz))
    {
      r, writes := FillPlane(base, r, writes, gen, nx, ny, nz, a);
      a := a + 1;
    }
    forall cell | InBlock(cell, nx, ny, nz)
      ensures |base| + Flat(cell, ny, nz) < |r| && r[|base| + Flat(cell, ny, nz)] == gen(cell)
    {
      FlatBound(cell, nx, ny, nz);
    }
  }

  /**
   * The demo's lattice fill: resize `base` and place cell (a, b, c) of an
   * nx * ny * nz block at origin + spacing * (a, b, c), in row-major order.
   */
  method FillBlock(base: seq<Vec3>, origin: Vec3, spacing: real, nx: nat, ny: nat, nz: nat)
    returns (r: seq<Vec3>, writes: seq<nat>)
    ensures r == base + Block(origin, spacing, nx, ny, nz)
    ensures |r| == |base| + nx * ny * nz
    ensures forall cell :: InBlock(cell, nx, ny, nz) ==>
      |base| + Flat(cell, ny, nz) < |r| && r[|base| + Flat(cell, ny, nz)] == CellPosition(origin, spacing, cell)
    ensures |writes| == |r|
    ensures forall n :: 0 <= n < |base| ==> writes[n] == 0
    ensures forall n :: |base| <= n < |r| ==> writes[n] == 1
  {
    r, writes := FillLattice(base, Grid(origin, spacing), Zero, nx, ny, nz);
    FilledIsLayout(base, r, Grid(origin, spacing), nx, ny, nz);
  }
}
