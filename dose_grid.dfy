/**
 * The dose voxel grid of `src/DoseVoxelGrid.cc`: a process-wide object holding the grid geometry
 * and a flat vector of cell energies (keV). `Initialize` re-assigns the geometry and zeroes the
 * storage; `AddEnergy` bins a deposit by truncating its offset from the minimum corner.
 */
module DoseGrid {
  import opened Wrappers
  import opened Machine
  import opened RealArith

  /** The geometry fields `NX, NY, NZ, xmin, ymin, zmin, dx, dy, dz`. */
  datatype Geometry = Geometry(nx: int, ny: int, nz: int, xmin: real, ymin: real, zmin: real,
                               dx: real, dy: real, dz: real)

  predicate NonZeroPitch(g: Geometry) {
    g.dx != 0.0 && g.dy != 0.0 && g.dz != 0.0
  }

  function CellCount(g: Geometry): int {
    g.nx * g.ny * g.nz
  }

  /** The C++ conversion of a floating value to `int`: truncation toward zero. */
  function Trunc(r: real): (i: int)
    ensures r >= 0.0 ==> 0 <= i && i as real <= r < i as real + 1.0
    ensures r < 0.0 ==> i <= 0 && i as real - 1.0 < r <= i as real
  {
    if r >= 0.0 then r.Floor else -((-r).Floor)
  }

  /** `int((c - min) / pitch)` for one axis. */
  function AxisIndex(c: real, min: real, pitch: real): int
    requires pitch != 0.0
  {
    Trunc((c - min) / pitch)
  }

  /** `ix + NX * (iy + NY * iz)` */
  function FlatIndex(g: Geometry, ix: int, iy: int, iz: int): int {
    ix + g.nx * (iy + g.ny * iz)
  }

  predicate InCells(g: Geometry, ix: int, iy: int, iz: int) {
    0 <= ix < g.nx && 0 <= iy < g.ny && 0 <= iz < g.nz
  }

  /** The cell a deposit at (x, y, z) is added to, or `None` when any axis index is out of range. */
  function Bin(g: Geometry, x: real, y: real, z: real): (r: Option<int>)
    requires NonZeroPitch(g)
    ensures r.Some? <==> InCells(g, AxisIndex(x, g.xmin, g.dx), AxisIndex(y, g.ymin, g.dy), AxisIndex(z, g.zmin, g.dz))
    ensures r.Some? ==> 0 <= r.value < CellCount(g)
    ensures r.Some? ==> r.value == FlatIndex(g, AxisIndex(x, g.xmin, g.dx), AxisIndex(y, g.ymin, g.dy), AxisIndex(z, g.zmin, g.dz))
  {
    var ix, iy, iz := AxisIndex(x, g.xmin, g.dx), AxisIndex(y, g.ymin, g.dy), AxisIndex(z, g.zmin, g.dz);
    if InCells(g, ix, iy, iz) then
      FlatIndexInRange(g, ix, iy, iz);
      Some(FlatIndex(g, ix, iy, iz))
    else None
  }

  /** The cells after one `AddEnergy`: the binned cell gains `e`, nothing else changes. */
  function Deposit(g: Geometry, cells: seq<real>, x: real, y: real, z: real, e: real): (r: seq<real>)
    requires NonZeroPitch(g) && |cells| == CellCount(g)
    ensures |r| == |cells|
    ensures Bin(g, x, y, z).None? ==> r == cells
    ensures Bin(g, x, y, z).Some? ==>
      var k := Bin(g, x, y, z).value;
      r[k] == cells[k] + e && forall i :: 0 <= i < |r| && i != k ==> r[i] == cells[i]
  {
    match Bin(g, x, y, z)
    case None => cells
    case Some(k) => cells[k := cells[k] + e]
  }

  /** The sum of the cells, the grid's total deposited energy. */
  function Sum(cells: seq<real>): real
    decreases |cells|
  {
    if cells == [] then 0.0 else cells[0] + Sum(cells[1..])
  }

  /** A grid of `n` cells, all 0. */
  function Zeroes(n: nat): (r: seq<real>)
    ensures |r| == n && forall i :: 0 <= i < n ==> r[i] == 0.0
  {
    seq(n, i => 0.0)
  }

  // ---------------------------------------------------------------------------------------------
  // Index arithmetic

  /** For in-range indices the flat index addresses a cell of the storage. */
  lemma FlatIndexInRange(g: Geometry, ix: int, iy: int, iz: int)
    requires InCells(g, ix, iy, iz)
    ensures 0 <= FlatIndex(g, ix, iy, iz) < CellCount(g)
  {
    var m := iy + g.ny * iz;
    MulNonneg(g.ny, iz);
    MulNonneg(g.nx, m);
    assert m <= g.ny * g.nz - 1 by {
      assert g.ny * (g.nz - 1 - iz) >= 0 by { MulNonneg(g.ny, g.nz - 1 - iz); }
      assert g.ny * (g.nz - 1 - iz) == g.ny * g.nz - g.ny - g.ny * iz;
    }
    assert g.nx * (g.ny * g.nz - 1 - m) >= 0 by { MulNonneg(g.nx, g.ny * g.nz - 1 - m); }
    assert g.nx * (g.ny * g.nz - 1 - m) == g.nx * (g.ny * g.nz) - g.nx - g.nx * m;
    assert g.nx * (g.ny * g.nz) == CellCount(g);
  }

  /** Euclidean division is determined by quotient and remainder. */
  lemma DivModUnique(a: int, b: int, q: int, r: int)
    requires b >= 1 && 0 <= r < b && a == q * b + r
    ensures a / b == q && a % b == r
  {
    var q', r' := a / b, a % b;
    assert a == q' * b + r';
    MulCancel(q, q', b);
    MulCancel(q', q, b);
  }

  /** The flat index can be decoded back into its axis indices. */
  lemma FlatIndexDecodes(g: Geometry, ix: int, iy: int, iz: int)
    requires InCells(g, ix, iy, iz)
    ensures FlatIndex(g, ix, iy, iz) % g.nx == ix
    ensures (FlatIndex(g, ix, iy, iz) / g.nx) % g.ny == iy
    ensures (FlatIndex(g, ix, iy, iz) / g.nx) / g.ny == iz
  {
    var m := iy + g.ny * iz;
    DivModUnique(FlatIndex(g, ix, iy, iz), g.nx, m, ix);
    DivModUnique(m, g.ny, iz, iy);
  }

  /** Distinct in-range index triples address distinct cells. */
  lemma FlatIndexInjective(g: Geometry, ix: int, iy: int, iz: int, jx: int, jy: int, jz: int)
    requires InCells(g, ix, iy, iz) && InCells(g, jx, jy, jz)
    requires FlatIndex(g, ix, iy, iz) == FlatIndex(g, jx, jy, jz)
    ensures ix == jx && iy == jy && iz == jz
  {
    FlatIndexDecodes(g, ix, iy, iz);
    FlatIndexDecodes(g, jx, jy, jz);
  }

  /**
   * Truncation rounds toward zero: a coordinate less than one pitch below the minimum lands in
   * cell 0 instead of being dropped, like one in the first pitch above it.
   */
  lemma NearMinimumLandsInFirstCell(c: real, min: real, pitch: real)
    requires pitch > 0.0 && min - pitch < c < min + pitch
    ensures AxisIndex(c, min, pitch) == 0
  {
    QuotientBelow(c - min, pitch, 1.0);
    QuotientAbove(c - min, pitch, -1.0);
  }

  /** A coordinate at least one pitch below the minimum gets a negative index and is dropped. */
  lemma FarBelowMinimumDropped(c: real, min: real, pitch: real)
    requires pitch > 0.0 && c <= min - pitch
    ensures AxisIndex(c, min, pitch) < 0
  {
    QuotientAtMost(c - min, pitch, -1.0);
  }

  /** A coordinate at or beyond the far edge `min + n * pitch` gets an index of at least `n`. */
  lemma BeyondFarEdgeDropped(c: real, min: real, pitch: real, n: int)
    requires pitch > 0.0 && c >= min + n as real * pitch
    ensures AxisIndex(c, min, pitch) >= n
  {
    QuotientAtLeast(c - min, pitch, n as real);
  }

  // ---------------------------------------------------------------------------------------------
  // Totals

  lemma {:induction false} SumUpdate(s: seq<real>, k: int, v: real)
    requires 0 <= k < |s|
    ensures Sum(s[k := v]) == Sum(s) - s[k] + v
    decreases |s|
  {
    if k > 0 {
      assert s[k := v][1..] == s[1..][k - 1 := v];
      SumUpdate(s[1..], k - 1, v);
    } else {
      assert s[k := v][1..] == s[1..];
    }
  }

  lemma {:induction false} SumZeroes(n: nat)
    ensures Sum(Zeroes(n)) == 0.0
    decreases n
  {
    if n > 0 {
      assert Zeroes(n)[1..] == Zeroes(n - 1);
      SumZeroes(n - 1);
    }
  }

  /** The grid total rises by exactly `e` when the deposit is binned, and not at all otherwise. */
  lemma DepositTotal(g: Geometry, cells: seq<real>, x: real, y: real, z: real, e: real)
    requires NonZeroPitch(g) && |cells| == CellCount(g)
    ensures Sum(Deposit(g, cells, x, y, z, e)) == Sum(cells) + (if Bin(g, x, y, z).Some? then e else 0.0)
  {
    if Bin(g, x, y, z).Some? {
      var k := Bin(g, x, y, z).value;
      SumUpdate(cells, k, cells[k] + e);
    }
  }

  // ---------------------------------------------------------------------------------------------
  // The grid object

  /** `DoseVoxelGrid`: the public geometry fields and the private `grid` vector. */
  class DoseVoxelGrid {
    var NX: int
    var NY: int
    var NZ: int
    var xmin: real
    var ymin: real
    var zmin: real
    var dx: real
    var dy: real
    var dz: real
    var grid: seq<real>

    function Geom(): Geometry
      reads this
    {
      Geometry(NX, NY, NZ, xmin, ymin, zmin, dx, dy, dz)
    }

    /** `Data()` */
    function Data(): seq<real>
      reads this
    {
      grid
    }

    /** The storage matches the geometry. */
    predicate Valid()
      reads this
    {
      NX >= 0 && NY >= 0 && NZ >= 0 && |grid| == CellCount(Geom())
    }

    /** The static instance: zero-initialised fields and an empty vector. */
    constructor ()
      ensures Geom() == Geometry(0, 0, 0, 0.0, 0.0, 0.0, 0.0, 0.0, 0.0) && grid == []
      ensures Valid()
    {
      NX, NY, NZ := 0, 0, 0;
      xmin, ymin, zmin := 0.0, 0.0, 0.0;
      dx, dy, dz := 0.0, 0.0, 0.0;
      grid := [];
    }

    /** `Initialize`: take the geometry and resize the storage to `NX * NY * NZ` zeroes. */
    method Initialize(nx: int, ny: int, nz: int, xmin': real, ymin': real, zmin': real,
                      dx': real, dy': real, dz': real)
      requires nx >= 0 && ny >= 0 && nz >= 0 && InInt32(nx * ny * nz)
      modifies this
      ensures Geom() == Geometry(nx, ny, nz, xmin', ymin', zmin', dx', dy', dz')
      ensures grid == Zeroes(nx * ny * nz)
      ensures Valid()
    {
      NX, NY, NZ := nx, ny, nz;
      xmin, ymin, zmin := xmin', ymin', zmin';
      dx, dy, dz := dx', dy', dz';
      MulNonneg(nx, ny);
      MulNonneg(nx * ny, nz);
      grid := Zeroes(NX * NY * NZ);
    }

    /** `AddEnergy`: add `edep` to the cell the position falls in, if it falls in one. */
    method AddEnergy(x: real, y: real, z: real, edep: real)
      requires Valid() && NonZeroPitch(Geom())
      modifies this`grid
      ensures grid == Deposit(Geom(), old(grid), x, y, z, edep)
      ensures Valid()
    {
      var ix := Trunc((x - xmin) / dx);
      var iy := Trunc((y - ymin) / dy);
      var iz := Trunc((z - zmin) / dz);
      if ix < 0 || ix >= NX || iy < 0 || iy >= NY || iz < 0 || iz >= NZ {
        return;
      }
      var idx := ix + NX * (iy + NY * iz);
      FlatIndexInRange(Geom(), ix, iy, iz);
      grid := grid[idx := grid[idx] + edep];
    }
  }
}
