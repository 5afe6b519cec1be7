/**
 * `export_scene_vtk.py`: the scene's point and polygon lists, filled in place by `add_cube` and
 * `add_oriented_box`, and the legacy VTK POLYDATA text `write_vtk_polydata` writes from them.
 * Floats are printed by an abstract `fmt6` (the `:.6f` format); integers in decimal.
 */
module SceneVtk {
  import opened Wrappers
  import opened Text
  import opened Vectors
  import opened Paths

  /** A VERTICES, LINES or POLYGONS cell: indices into the point list. */
  type Cell = seq<int>

  // ---------------------------------------------------------------------------------------------
  // Corner and face tables

  /** The sign of each cube corner on x, y and z, in the order `add_cube` lists them. */
  const CubeSigns: seq<(int, int, int)> := [
    (-1, -1, -1), (1, -1, -1), (1, 1, -1), (-1, 1, -1),
    (-1, -1, 1), (1, -1, 1), (1, 1, 1), (-1, 1, 1) ]

  /** The faces of `add_cube` (-Z, +Z, -Y, +Y, +X, -X) as corner numbers. */
  const CubeFaceTable: seq<seq<int>> := [
    [0, 1, 2, 3], [4, 5, 6, 7], [0, 1, 5, 4], [2, 3, 7, 6], [1, 2, 6, 5], [0, 3, 7, 4] ]

  /** The faces of `add_oriented_box` as corner numbers. */
  const BoxFaceTable: seq<seq<int>> := [
    [0, 1, 3, 2], [4, 5, 7, 6], [0, 1, 5, 4], [2, 3, 7, 6], [1, 3, 7, 5], [0, 2, 6, 4] ]

  /** Python's loop tuple `(-1.0, 1.0)`. */
  const Signs: seq<real> := [-1.0, 1.0]

  function SignOf(s: int): real {
    if s < 0 then -1.0 else 1.0
  }

  /** The eight corners of an axis-aligned cube. */
  function CubeCorners(center: Vec3, half: real): (c: seq<Vec3>)
    ensures |c| == 8
    ensures forall i :: 0 <= i < 8 ==>
      c[i] == Vec3(center.x + SignOf(CubeSigns[i].0) * half, center.y + SignOf(CubeSigns[i].1) * half,
                   center.z + SignOf(CubeSigns[i].2) * half)
  {
    var cx, cy, cz := center.x, center.y, center.z;
    var hx, hy, hz := half, half, half;
    [ Vec3(cx - hx, cy - hy, cz - hz), Vec3(cx + hx, cy - hy, cz - hz),
      Vec3(cx + hx, cy + hy, cz - hz), Vec3(cx - hx, cy + hy, cz - hz),
      Vec3(cx - hx, cy - hy, cz + hz), Vec3(cx + hx, cy - hy, cz + hz),
      Vec3(cx + hx, cy + hy, cz + hz), Vec3(cx - hx, cy + hy, cz + hz) ]
  }

  /** Corner `i` of an oriented box: the signs of the three nested loops are the bits of `i`. */
  function BoxCorner(center: Vec3, ax: Vec3, ay: Vec3, az: Vec3, i: int): Vec3
    requires 0 <= i < 8
  {
    Add(center, Add(Add(Scale(ax, Signs[i / 4]), Scale(ay, Signs[(i / 2) % 2])), Scale(az, Signs[i % 2])))
  }

  function BoxCorners(center: Vec3, ax: Vec3, ay: Vec3, az: Vec3): (c: seq<Vec3>)
    ensures |c| == 8 && forall i :: 0 <= i < 8 ==> c[i] == BoxCorner(center, ax, ay, az, i)
  {
    seq(8, i requires 0 <= i < 8 => BoxCorner(center, ax, ay, az, i))
  }

  /** A face table shifted to start at point `base`. */
  function Faces(base: int, table: seq<seq<int>>): (faces: seq<Cell>)
    ensures |faces| == |table|
    ensures forall f :: 0 <= f < |table| ==> |faces[f]| == |table[f]|
    ensures forall f, j :: 0 <= f < |table| && 0 <= j < |table[f]| ==> faces[f][j] == base + table[f][j]
  {
    seq(|table|, f requires 0 <= f < |table| => seq(|table[f]|, j requires 0 <= j < |table[f]| => base + table[f][j]))
  }

  /** Both tables give six quads whose indices lie among the eight new points. */
  lemma FacesWithinNewPoints(base: int, table: seq<seq<int>>)
    requires table == CubeFaceTable || table == BoxFaceTable
    ensures |Faces(base, table)| == 6
    ensures forall f :: 0 <= f < 6 ==> |Faces(base, table)[f]| == 4
    ensures forall f, j :: 0 <= f < 6 && 0 <= j < 4 ==> base <= Faces(base, table)[f][j] < base + 8
  {
    forall f, j | 0 <= f < 6 && 0 <= j < 4
      ensures 0 <= table[f][j] < 8
    {
    }
  }

  /** Every cell is a quad. */
  predicate Quads(cells: seq<Cell>) {
    forall f :: 0 <= f < |cells| ==> |cells[f]| == 4
  }

  /** Every index of every cell names one of the first `n` points. */
  predicate CellsWithin(cells: seq<Cell>, n: int) {
    forall f, j :: 0 <= f < |cells| && 0 <= j < |cells[f]| ==> 0 <= cells[f][j] < n
  }

  /** Six quads over the eight points appended at `base`. */
  lemma FacesAreQuadsWithin(base: nat, table: seq<seq<int>>)
    requires table == CubeFaceTable || table == BoxFaceTable
    ensures Quads(Faces(base, table)) && CellsWithin(Faces(base, table), base + 8)
  {
    FacesWithinNewPoints(base, table);
  }

  /** Appending cells over more points keeps the earlier cells valid. */
  lemma CellsGrow(cells: seq<Cell>, more: seq<Cell>, n: int, m: int)
    requires Quads(cells) && CellsWithin(cells, n) && Quads(more) && CellsWithin(more, m) && n <= m
    ensures Quads(cells + more) && CellsWithin(cells + more, m)
  {
    forall f | 0 <= f < |cells + more|
      ensures (cells + more)[f] == if f < |cells| then cells[f] else more[f - |cells|]
    {
    }
  }

  /**
   * Every cube face is a genuine side: its four corners share the sign of one axis, and
   * consecutive corners (cyclically) differ on exactly one axis, so the quad is not twisted.
   */
  lemma CubeFacesAreSides(f: int, j: int)
    requires 0 <= f < 6 && 0 <= j < 4
    ensures var axis := [2, 2, 1, 1, 0, 0][f];
      var side := [-1, 1, -1, 1, 1, -1][f];
      Component(CubeSigns[CubeFaceTable[f][j]], axis) == side
    ensures Differences(CubeSigns[CubeFaceTable[f][j]], CubeSigns[CubeFaceTable[f][(j + 1) % 4]]) == 1
  {
  }

  /** The same for the oriented box, whose corner signs are the bits of the corner number. */
  lemma BoxFacesAreSides(f: int, j: int)
    requires 0 <= f < 6 && 0 <= j < 4
    ensures var axis := [0, 0, 1, 1, 2, 2][f];
      var side := [-1, 1, -1, 1, 1, -1][f];
      Component(BitSigns(BoxFaceTable[f][j]), axis) == side
    ensures Differences(BitSigns(BoxFaceTable[f][j]), BitSigns(BoxFaceTable[f][(j + 1) % 4])) == 1
  {
  }

  function Component(s: (int, int, int), axis: int): int {
    if axis == 0 then s.0 else if axis == 1 then s.1 else s.2
  }

  function BitSigns(i: int): (int, int, int) {
    (if i / 4 == 0 then -1 else 1, if (i / 2) % 2 == 0 then -1 else 1, if i % 2 == 0 then -1 else 1)
  }

  function Differences(a: (int, int, int), b: (int, int, int)): int {
    (if a.0 != b.0 then 1 else 0) + (if a.1 != b.1 then 1 else 0) + (if a.2 != b.2 then 1 else 0)
  }

  /** The oriented box's corner `i` is the centre plus or minus each scaled axis, by the bits of `i`. */
  lemma BoxCornerSigns(center: Vec3, ax: Vec3, ay: Vec3, az: Vec3, i: int)
    requires 0 <= i < 8
    ensures var s := BitSigns(i);
      BoxCorner(center, ax, ay, az, i) ==
        Add(center, Add(Add(Scale(ax, SignOf(s.0)), Scale(ay, SignOf(s.1))), Scale(az, SignOf(s.2))))
  {
  }

  // ---------------------------------------------------------------------------------------------
  // The scene lists

  /** The `points` and `polys` lists that `main` passes to both builders. */
  class SceneLists {
    var points: seq<Vec3>
    var polys: seq<Cell>

    constructor ()
      ensures points == [] && polys == []
    {
      points := [];
      polys := [];
    }

    /** `add_cube`: eight corners appended, then six quads over them, which are also returned. */
    method AddCube(center: Vec3, half: real) returns (faces: seq<Cell>)
      modifies this
      ensures points == old(points) + CubeCorners(center, half)
      ensures faces == Faces(|old(points)|, CubeFaceTable)
      ensures polys == old(polys) + faces
    {
      var corners := CubeCorners(center, half);
      var base := |points|;
      points := points + corners;
      faces := [
        [base + 0, base + 1, base + 2, base + 3],
        [base + 4, base + 5, base + 6, base + 7],
        [base + 0, base + 1, base + 5, base + 4],
        [base + 2, base + 3, base + 7, base + 6],
        [base + 1, base + 2, base + 6, base + 5],
        [base + 0, base + 3, base + 7, base + 4] ];
      forall f | 0 <= f < 6
        ensures faces[f] == Faces(base, CubeFaceTable)[f]
      {
      }
      polys := polys + faces;
    }

    /** `add_oriented_box`: the corners from the three nested sign loops, then six quads. */
    method AddOrientedBox(center: Vec3, right: Vec3, up: Vec3, forward: Vec3,
                          halfW: real, halfH: real, halfL: real) returns (faces: seq<Cell>)
      modifies this
      ensures points == old(points) + BoxCorners(center, Scale(right, halfW), Scale(up, halfH), Scale(forward, halfL))
      ensures faces == Faces(|old(points)|, BoxFaceTable)
      ensures polys == old(polys) + faces
    {
      var corners := OrientedCorners(center, Scale(right, halfW), Scale(up, halfH), Scale(forward, halfL));
      var base := |points|;
      points := points + corners;
      faces := BoxFaces(base);
      polys := polys + faces;
    }

    /** The detector-plane block of `main`: four corners appended, then one quad over them. */
    method AddDetectorQuad(c: Vec3, right: Vec3, up: Vec3, halfW: real, halfH: real) returns (face: Cell)
      modifies this
      ensures points == old(points) + DetectorCorners(c, right, up, halfW, halfH)
      ensures face == [|old(points)|, |old(points)| + 1, |old(points)| + 2, |old(points)| + 3]
      ensures polys == old(polys) + [face]
    {
      var detPts := [
        Add(Add(c, Scale(right, -halfW)), Scale(up, -halfH)),
        Add(Add(c, Scale(right, halfW)), Scale(up, -halfH)),
        Add(Add(c, Scale(right, halfW)), Scale(up, halfH)),
        Add(Add(c, Scale(right, -halfW)), Scale(up, halfH)) ];
      var detBase := |points|;
      points := points + detPts;
      face := [detBase + 0, detBase + 1, detBase + 2, detBase + 3];
      polys := polys + [face];
    }
  }

  /**
   * The detector plane's corners: the centre offset by plus or minus each scaled axis,
   * counter-clockwise. Consecutive corners step along `right` by the full width and along `up` by
   * the full height, and opposite corners are symmetric about the centre.
   */
  function DetectorCorners(c: Vec3, right: Vec3, up: Vec3, halfW: real, halfH: real): (r: seq<Vec3>)
    ensures |r| == 4
    ensures Sub(r[1], r[0]) == Scale(right, 2.0 * halfW) && Sub(r[2], r[3]) == Scale(right, 2.0 * halfW)
    ensures Sub(r[3], r[0]) == Scale(up, 2.0 * halfH) && Sub(r[2], r[1]) == Scale(up, 2.0 * halfH)
    ensures Add(r[0], r[2]) == Scale(c, 2.0) && Add(r[1], r[3]) == Scale(c, 2.0)
  {
    [ Add(Add(c, Scale(right, -halfW)), Scale(up, -halfH)),
      Add(Add(c, Scale(right, halfW)), Scale(up, -halfH)),
      Add(Add(c, Scale(right, halfW)), Scale(up, halfH)),
      Add(Add(c, Scale(right, -halfW)), Scale(up, halfH)) ]
  }

  /** The three nested sign loops of `add_oriented_box`: x outermost, z innermost. */
  method OrientedCorners(center: Vec3, ax: Vec3, ay: Vec3, az: Vec3) returns (corners: seq<Vec3>)
    ensures corners == BoxCorners(center, ax, ay, az)
  {
    corners := [];
    for a := 0 to 2
      invariant |corners| == 4 * a
      invariant forall t :: 0 <= t < |corners| ==> corners[t] == BoxCorner(center, ax, ay, az, t)
    {
      for b := 0 to 2
        invariant |corners| == 4 * a + 2 * b
        invariant forall t :: 0 <= t < |corners| ==> corners[t] == BoxCorner(center, ax, ay, az, t)
      {
        for c := 0 to 2
          invariant |corners| == 4 * a + 2 * b + c
          invariant forall t :: 0 <= t < |corners| ==> corners[t] == BoxCorner(center, ax, ay, az, t)
        {
          var offset := Add(Add(Scale(ax, Signs[a]), Scale(ay, Signs[b])), Scale(az, Signs[c]));
          var t := 4 * a + 2 * b + c;
          assert t / 4 == a && (t / 2) % 2 == b && t % 2 == c;
          corners := corners + [Add(center, offset)];
        }
      }
    }
    assert corners == BoxCorners(center, ax, ay, az);
  }

  /** The six quads `add_oriented_box` appends, written out as the source lists them. */
  method BoxFaces(base: int) returns (faces: seq<Cell>)
    ensures faces == Faces(base, BoxFaceTable)
  {
    faces := [
      [base + 0, base + 1, base + 3, base + 2],
      [base + 4, base + 5, base + 7, base + 6],
      [base + 0, base + 1, base + 5, base + 4],
      [base + 2, base + 3, base + 7, base + 6],
      [base + 1, base + 3, base + 7, base + 5],
      [base + 0, base + 2, base + 6, base + 4] ];
    forall f | 0 <= f < 6
      ensures faces[f] == Faces(base, BoxFaceTable)[f]
    {
    }
  }

  // ---------------------------------------------------------------------------------------------
  // The legacy POLYDATA text

  /** `map(str, xs)`: each integer in its decimal form. */
  function MapToString(c: seq<int>): (r: seq<string>)
    ensures |r| == |c| && forall i :: 0 <= i < |c| ==> r[i] == IntToString(c[i])
  {
    seq(|c|, i requires 0 <= i < |c| => IntToString(c[i]))
  }

  /** A cell line: its length, one space, then the indices joined by spaces. */
  function CellLine(c: Cell): string {
    IntToString(|c|) + " " + JoinWith(" ", MapToString(c))
  }

  /** `sum(1 + len(c) for c in cells)`: the size field of a section header. */
  function CellTotal(cells: seq<Cell>): int
    decreases |cells|
  {
    if cells == [] then 0 else CellTotal(cells[..|cells| - 1]) + 1 + |cells[|cells| - 1]|
  }

  function CellLines(cells: seq<Cell>): (r: seq<string>)
    ensures |r| == |cells| && forall i :: 0 <= i < |cells| ==> r[i] == CellLine(cells[i])
  {
    seq(|cells|, i requires 0 <= i < |cells| => CellLine(cells[i]))
  }

  /** A VERTICES, LINES or POLYGONS section: absent for an empty list. */
  function Section(keyword: string, cells: seq<Cell>): seq<string> {
    if cells == [] then []
    else [keyword + " " + IntToString(|cells|) + " " + IntToString(CellTotal(cells))] + CellLines(cells)
  }

  function PointLine(p: Vec3, fmt6: real -> string): string {
    fmt6(p.x) + " " + fmt6(p.y) + " " + fmt6(p.z)
  }

  function PointLines(points: seq<Vec3>, fmt6: real -> string): (r: seq<string>)
    ensures |r| == |points| && forall i :: 0 <= i < |points| ==> r[i] == PointLine(points[i], fmt6)
  {
    seq(|points|, i requires 0 <= i < |points| => PointLine(points[i], fmt6))
  }

  /** The POINTS header and one line per point. */
  function PointsBlock(points: seq<Vec3>, fmt6: real -> string): seq<string> {
    ["POINTS " + IntToString(|points|) + " float"] + PointLines(points, fmt6)
  }

  const Header: seq<string> := ["# vtk DataFile Version 3.0", "scene", "ASCII", "DATASET POLYDATA"]

  /** The CELL_DATA block over the concatenated part ids, absent when there are none. */
  function CellData(ids: seq<int>): seq<string> {
    if ids == [] then []
    else ["CELL_DATA " + IntToString(|ids|), "SCALARS part_id int 1", "LOOKUP_TABLE default"] + MapToString(ids)
  }

  /** The whole file, line by line. */
  function PolyDataLines(points: seq<Vec3>, vertices: seq<Cell>, lines: seq<Cell>, polys: seq<Cell>,
                         pidVertices: seq<int>, pidLines: seq<int>, pidPolys: seq<int>,
                         fmt6: real -> string): seq<string>
  {
    Header + PointsBlock(points, fmt6)
      + Section("VERTICES", vertices) + Section("LINES", lines) + Section("POLYGONS", polys)
      + CellData(pidVertices + pidLines + pidPolys)
  }

  /** The lines of one section, as the `if` block and its `for` loop write them. */
  method WriteSection(keyword: string, cells: seq<Cell>) returns (out: seq<string>)
    ensures out == Section(keyword, cells)
  {
    out := [];
    if |cells| > 0 {
      var total := CellTotal(cells);
      var head := keyword + " " + IntToString(|cells|) + " " + IntToString(total);
      out := [head];
      var k := 0;
      while k < |cells|
        invariant 0 <= k <= |cells|
        invariant out == [head] + CellLines(cells)[..k]
        decreases |cells| - k
      {
        var line := IntToString(|cells[k]|) + " " + JoinWith(" ", MapToString(cells[k]));
        assert line == CellLine(cells[k]);
        TakeSnoc(CellLines(cells), k);
        out := out + [line];
        k := k + 1;
      }
      assert CellLines(cells)[..k] == CellLines(cells);
    }
  }

  /** The POINTS block: its header and one line per point. */
  method WritePoints(points: seq<Vec3>, fmt6: real -> string) returns (out: seq<string>)
    ensures out == PointsBlock(points, fmt6)
  {
    out := ["POINTS " + IntToString(|points|) + " float"];
    var i := 0;
    while i < |points|
      invariant 0 <= i <= |points|
      invariant out == ["POINTS " + IntToString(|points|) + " float"] + PointLines(points, fmt6)[..i]
      decreases |points| - i
    {
      assert PointLines(points, fmt6)[..i + 1] == PointLines(points, fmt6)[..i] + [PointLine(points[i], fmt6)];
      var p := points[i];
      out := out + [fmt6(p.x) + " " + fmt6(p.y) + " " + fmt6(p.z)];
      i := i + 1;
    }
    assert PointLines(points, fmt6)[..i] == PointLines(points, fmt6);
  }

  /** The CELL_DATA block over the concatenated part ids. */
  method WriteCellData(ids: seq<int>) returns (out: seq<string>)
    ensures out == CellData(ids)
  {
    out := [];
    if |ids| > 0 {
      var head := ["CELL_DATA " + IntToString(|ids|), "SCALARS part_id int 1", "LOOKUP_TABLE default"];
      out := head;
      var k := 0;
      while k < |ids|
        invariant 0 <= k <= |ids|
        invariant out == head + MapToString(ids)[..k]
        decreases |ids| - k
      {
        TakeSnoc(MapToString(ids), k);
        out := out + [IntToString(ids[k])];
        k := k + 1;
      }
      assert MapToString(ids)[..k] == MapToString(ids);
    }
  }

  /** `write_vtk_polydata`: the file's lines in the order they are written. */
  method WritePolyData(points: seq<Vec3>, vertices: seq<Cell>, lines: seq<Cell>, polys: seq<Cell>,
                       pidVertices: seq<int>, pidLines: seq<int>, pidPolys: seq<int>,
                       fmt6: real -> string) returns (out: seq<string>)
    ensures out == PolyDataLines(points, vertices, lines, polys, pidVertices, pidLines, pidPolys, fmt6)
  {
    var pts := WritePoints(points, fmt6);
    var sv := WriteSection("VERTICES", vertices);
    var sl := WriteSection("LINES", lines);
    var sp := WriteSection("POLYGONS", polys);
    var cd := WriteCellData(pidVertices + pidLines + pidPolys);
    out := Header + pts + sv + sl + sp + cd;
  }

  // ---------------------------------------------------------------------------------------------
  // What a reader of the text recovers

  lemma {:induction false} CellTotalIsCountPlusSizes(cells: seq<Cell>, size: int)
    requires forall i :: 0 <= i < |cells| ==> |cells[i]| == size
    ensures CellTotal(cells) == |cells| * (1 + size)
    decreases |cells|
  {
    if cells != [] {
      CellTotalIsCountPlusSizes(cells[..|cells| - 1], size);
    }
  }

  /** A cell line splits into its length and its indices, each of which parses back. */
  lemma CellLineTokens(c: Cell)
    ensures Words(CellLine(c)) == [IntToString(|c|)] + MapToString(c)
    ensures ParseInt(Words(CellLine(c))[0]) == Some(|c|)
    ensures forall i :: 0 <= i < |c| ==> ParseInt(Words(CellLine(c))[i + 1]) == Some(c[i])
  {
    CellLineWords(c);
    ParseIntRoundTrip(|c|);
    IndicesParse(c);
    ConsIndices(Words(CellLine(c)), IntToString(|c|), MapToString(c));
  }

  lemma ConsIndices(w: seq<string>, x: string, m: seq<string>)
    requires w == [x] + m
    ensures |w| == |m| + 1 && w[0] == x && forall i :: 0 <= i < |m| ==> w[i + 1] == m[i]
  {
  }

  lemma CellLineWords(c: Cell)
    ensures Words(CellLine(c)) == [IntToString(|c|)] + MapToString(c)
  {
    var parts := MapToString(c);
    WordsOfJoin(parts);
    assert CellLine(c) == IntToString(|c|) + [' '] + JoinWith(" ", parts);
    WordThenSpace(IntToString(|c|), ' ', JoinWith(" ", parts));
  }

  lemma IndicesParse(c: Cell)
    ensures forall i :: 0 <= i < |c| ==> ParseInt(MapToString(c)[i]) == Some(c[i])
  {
    forall i | 0 <= i < |c|
      ensures ParseInt(MapToString(c)[i]) == Some(c[i])
    {
      ParseIntRoundTrip(c[i]);
    }
  }

  /** Three words separated by single spaces split back into those words. */
  lemma ThreeWords(a: string, b: string, c: string)
    requires IsWord(a) && IsWord(b) && IsWord(c)
    ensures Words(a + " " + b + " " + c) == [a, b, c]
  {
    WordsOfWord(c);
    assert b + " " + c == b + [' '] + c;
    WordThenSpace(b, ' ', c);
    assert a + " " + b + " " + c == a + [' '] + (b + " " + c);
    WordThenSpace(a, ' ', b + " " + c);
  }

  /** A section appears only for a non-empty list; its header carries the cell count and the size field. */
  lemma SectionHeader(keyword: string, cells: seq<Cell>)
    requires IsWord(keyword)
    ensures (Section(keyword, cells) == []) <==> cells == []
    ensures cells != [] ==>
      && |Section(keyword, cells)| == 1 + |cells|
      && Words(Section(keyword, cells)[0]) == [keyword, IntToString(|cells|), IntToString(CellTotal(cells))]
      && ParseInt(IntToString(|cells|)) == Some(|cells|)
      && ParseInt(IntToString(CellTotal(cells))) == Some(CellTotal(cells))
  {
    if cells != [] {
      ThreeWords(keyword, IntToString(|cells|), IntToString(CellTotal(cells)));
      ParseIntRoundTrip(|cells|);
      ParseIntRoundTrip(CellTotal(cells));
    }
  }

  // ---------------------------------------------------------------------------------------------
  // The scene `main` builds

  const PartSource: int := 1
  const PartBeam: int := 2
  const PartDetector: int := 3
  const PartVoxelBox: int := 4

  function Repeat(x: int, n: nat): (r: seq<int>)
    ensures |r| == n && forall i :: 0 <= i < n ==> r[i] == x
  {
    seq(n, i => x)
  }

  /** `min(5.0, max(0.2, 0.05 * 2.0 * half_size))`: the edge of the source marker cube. */
  function SourceBoxSize(halfSize: real): (s: real)
    ensures 0.2 <= s <= 5.0
  {
    var m := if 0.2 >= 0.05 * 2.0 * halfSize then 0.2 else 0.05 * 2.0 * halfSize;
    if 5.0 <= m then 5.0 else m
  }

  /** `args.output`, or `output/<setup stem>_scene.vtk`. */
  function ScenePath(setup: string, output: Option<string>): string {
    if output.Some? then output.value else Join("output", StripExtension(Basename(setup)) + "_scene.vtk")
  }

  /**
   * The list building of `main`: source cube, detector quad, beam box, voxel cube, with one part id
   * per polygon. The detector basis (`orthonormal_basis`) and the beam half-length (`v_norm`) are
   * inputs.
   */
  method BuildScene(src: Vec3, det: Vec3, halfSize: real, pixels: (real, real), pixelSize: (real, real),
                    right: Vec3, up: Vec3, forward: Vec3, beamHalfL: real)
    returns (points: seq<Vec3>, polys: seq<Cell>, partIdsPolys: seq<int>)
    ensures |points| == 28 && |polys| == 19
    ensures |partIdsPolys| == |polys|
    ensures partIdsPolys == Repeat(PartSource, 6) + [PartDetector] + Repeat(PartBeam, 6) + Repeat(PartVoxelBox, 6)
    ensures Quads(polys) && CellsWithin(polys, |points|)
    ensures points == ScenePoints(src, det, SourceBoxSize(halfSize) * 0.5, HalfExtent(pixels.0, pixelSize.0),
                                  HalfExtent(pixels.1, pixelSize.1), right, up, forward, beamHalfL, halfSize)
    ensures polys == SceneFaces()
  {
    var scene := new SceneLists();
    var ids: seq<int> := [];

    var boxSize := SourceBoxSize(halfSize);
    var sourceFaces := scene.AddCube(src, boxSize * 0.5);
    ids := ids + Repeat(PartSource, |sourceFaces|);
    assert |sourceFaces| == 6 && ids == Repeat(PartSource, 6);
    ghost var atDetector := scene.points;
    assert |atDetector| == 8;

    var halfW := HalfExtent(pixels.0, pixelSize.0);
    var halfH := HalfExtent(pixels.1, pixelSize.1);
    var detFace := scene.AddDetectorQuad(det, right, up, halfW, halfH);
    ids := ids + [PartDetector];
    ghost var atBeam := scene.points;
    assert |atBeam| == 12;

    var beamCenter := Scale(Add(src, det), 0.5);
    var beamFaces := scene.AddOrientedBox(beamCenter, right, up, forward, halfW, halfH, beamHalfL);
    ids := ids + Repeat(PartBeam, |beamFaces|);
    assert |beamFaces| == 6 && ids == Repeat(PartSource, 6) + [PartDetector] + Repeat(PartBeam, 6);
    ghost var atVoxel := scene.points;
    assert |atVoxel| == 20;

    var voxelFaces := scene.AddCube(Vec3(0.0, 0.0, 0.0), halfSize);
    ids := ids + Repeat(PartVoxelBox, |voxelFaces|);
    assert |voxelFaces| == 6;
    assert scene.points == ScenePoints(src, det, boxSize * 0.5, halfW, halfH, right, up, forward, beamHalfL, halfSize);
    AssembledFaces(scene.polys, |atDetector|, |atBeam|, |atVoxel|);

    points, polys, partIdsPolys := scene.points, scene.polys, ids;
  }

  /** `0.5 * float(det_pixels[k]) * float(det_pix_size[k])`: half the detector's extent along one axis. */
  function HalfExtent(pixels: real, pixelSize: real): real {
    0.5 * pixels * pixelSize
  }

  /**
   * The points of the scene: the source cube, the detector corners, the beam box about the
   * midpoint of source and detector with the detector's half extents, and the voxel cube, in that
   * order.
   */
  function ScenePoints(src: Vec3, det: Vec3, boxHalf: real, halfW: real, halfH: real,
                       right: Vec3, up: Vec3, forward: Vec3, beamHalfL: real, voxelHalf: real): seq<Vec3>
  {
    CubeCorners(src, boxHalf)
      + DetectorCorners(det, right, up, halfW, halfH)
      + BoxCorners(Scale(Add(src, det), 0.5), Scale(right, halfW), Scale(up, halfH), Scale(forward, beamHalfL))
      + CubeCorners(Vec3(0.0, 0.0, 0.0), voxelHalf)
  }

  /** The polygons of the scene: the source cube's faces, the detector quad, the beam box's and the voxel cube's faces. */
  function SceneFaces(): seq<Cell> {
    Faces(0, CubeFaceTable) + [[8, 9, 10, 11]] + Faces(12, BoxFaceTable) + Faces(20, CubeFaceTable)
  }

  /** The polygon list `build_scene` assembles from face lists appended at bases 0, 8, 12 and 20. */
  lemma AssembledFaces(polys: seq<Cell>, atDetector: int, atBeam: int, atVoxel: int)
    requires atDetector == 8 && atBeam == 12 && atVoxel == 20
    requires polys == [] + Faces(0, CubeFaceTable) + [[atDetector, atDetector + 1, atDetector + 2, atDetector + 3]]
                      + Faces(atBeam, BoxFaceTable) + Faces(atVoxel, CubeFaceTable)
    ensures polys == SceneFaces()
    ensures |polys| == 19 && Quads(polys) && CellsWithin(polys, 28)
  {
    assert [] + Faces(0, CubeFaceTable) == Faces(0, CubeFaceTable);
    SceneFacesWithin();
  }

  /** The scene's polygons are 19 quads over its 28 points. */
  lemma SceneFacesWithin()
    ensures |SceneFaces()| == 19 && Quads(SceneFaces()) && CellsWithin(SceneFaces(), 28)
  {
    FacesAreQuadsWithin(0, CubeFaceTable);
    FacesAreQuadsWithin(12, BoxFaceTable);
    FacesAreQuadsWithin(20, CubeFaceTable);
    CellsGrow(Faces(0, CubeFaceTable), [[8, 9, 10, 11]], 8, 12);
    CellsGrow(Faces(0, CubeFaceTable) + [[8, 9, 10, 11]], Faces(12, BoxFaceTable), 12, 20);
    CellsGrow(Faces(0, CubeFaceTable) + [[8, 9, 10, 11]] + Faces(12, BoxFaceTable), Faces(20, CubeFaceTable), 20, 28);
  }

  /**
   * Where each part of the scene sits: the source cube around the source, the detector rectangle
   * around the detector centre, the beam box around the midpoint of source and detector, and the
   * voxel cube around the origin; each face list indexes its own block.
   */
  lemma SceneLayout(src: Vec3, det: Vec3, boxHalf: real, halfW: real, halfH: real,
                    right: Vec3, up: Vec3, forward: Vec3, beamHalfL: real, voxelHalf: real)
    ensures var points := ScenePoints(src, det, boxHalf, halfW, halfH, right, up, forward, beamHalfL, voxelHalf);
      && |points| == 28
      && points[..8] == CubeCorners(src, boxHalf)
      && points[8..12] == DetectorCorners(det, right, up, halfW, halfH)
      && points[12..20] == BoxCorners(Scale(Add(src, det), 0.5), Scale(right, halfW), Scale(up, halfH), Scale(forward, beamHalfL))
      && points[20..] == CubeCorners(Vec3(0.0, 0.0, 0.0), voxelHalf)
    ensures |SceneFaces()| == 19
    ensures SceneFaces()[..6] == Faces(0, CubeFaceTable) && SceneFaces()[6] == [8, 9, 10, 11]
    ensures SceneFaces()[7..13] == Faces(12, BoxFaceTable) && SceneFaces()[13..] == Faces(20, CubeFaceTable)
  {
    FourBlocksSlices(CubeCorners(src, boxHalf), DetectorCorners(det, right, up, halfW, halfH),
                     BoxCorners(Scale(Add(src, det), 0.5), Scale(right, halfW), Scale(up, halfH), Scale(forward, beamHalfL)),
                     CubeCorners(Vec3(0.0, 0.0, 0.0), voxelHalf));
    FourBlocksSlices(Faces(0, CubeFaceTable), [[8, 9, 10, 11]], Faces(12, BoxFaceTable), Faces(20, CubeFaceTable));
  }

  /** The four blocks of a concatenation, recovered by slicing at their lengths. */
  lemma FourBlocksSlices<T>(a: seq<T>, b: seq<T>, c: seq<T>, d: seq<T>)
    ensures var s := a + b + c + d;
      && s[..|a|] == a && s[|a|..|a| + |b|] == b
      && s[|a| + |b|..|a| + |b| + |c|] == c && s[|a| + |b| + |c|..] == d
  {
    var s := a + b + c + d;
    assert s == a + (b + c + d);
    assert s[|a|..] == b + c + d;
    assert (b + c + d)[..|b|] == b;
    assert s[|a| + |b|..] == c + d;
    assert (c + d)[..|c|] == c;
  }

  /**
   * A document with only quads: header, points, the POLYGONS section (size field five per quad)
   * and one part id per polygon, at the positions a reader finds them.
   */
  lemma QuadDocumentLayout(points: seq<Vec3>, polys: seq<Cell>, partIdsPolys: seq<int>, fmt6: real -> string)
    requires |polys| > 0 && |partIdsPolys| == |polys| && Quads(polys)
    ensures var doc := PolyDataLines(points, [], [], polys, [], [], partIdsPolys, fmt6);
      && |doc| == 4 + 1 + |points| + 1 + |polys| + 3 + |polys|
      && doc[4] == "POINTS " + IntToString(|points|) + " float"
      && doc[5 + |points|] == "POLYGONS " + IntToString(|polys|) + " " + IntToString(5 * |polys|)
      && doc[6 + |points| + |polys|] == "CELL_DATA " + IntToString(|polys|)
  {
    var a := Header + PointsBlock(points, fmt6);
    var b := Section("POLYGONS", polys);
    var c := CellData(partIdsPolys);
    OnlyPolygons(points, polys, partIdsPolys, fmt6);
    QuadSectionHead(polys);
    ThreeBlocksAt(a, b, c);
  }

  lemma OnlyPolygons(points: seq<Vec3>, polys: seq<Cell>, partIdsPolys: seq<int>, fmt6: real -> string)
    ensures PolyDataLines(points, [], [], polys, [], [], partIdsPolys, fmt6)
         == Header + PointsBlock(points, fmt6) + Section("POLYGONS", polys) + CellData(partIdsPolys)
  {
    WithoutVerticesAndLines(points, [], [], polys, [], [], partIdsPolys, fmt6);
  }

  lemma WithoutVerticesAndLines(points: seq<Vec3>, vertices: seq<Cell>, lines: seq<Cell>, polys: seq<Cell>,
                                pidVertices: seq<int>, pidLines: seq<int>, pidPolys: seq<int>, fmt6: real -> string)
    requires |vertices| == 0 && |lines| == 0 && |pidVertices| == 0 && |pidLines| == 0
    ensures PolyDataLines(points, vertices, lines, polys, pidVertices, pidLines, pidPolys, fmt6)
         == Header + PointsBlock(points, fmt6) + Section("POLYGONS", polys) + CellData(pidPolys)
  {
    var h := Header + PointsBlock(points, fmt6);
    var sv, sl, sp := Section("VERTICES", vertices), Section("LINES", lines), Section("POLYGONS", polys);
    var cd := CellData(pidVertices + pidLines + pidPolys);
    assert sv == [] && sl == [] by {
      assert vertices == [] && lines == [];
    }
    assert cd == CellData(pidPolys) by {
      assert pidVertices + pidLines + pidPolys == pidPolys;
    }
    DropEmpty(h, sv, sl, sp, cd);
  }

  lemma DropEmpty(h: seq<string>, e1: seq<string>, e2: seq<string>, a: seq<string>, b: seq<string>)
    requires e1 == [] && e2 == []
    ensures h + e1 + e2 + a + b == h + a + b
  {
  }

  lemma QuadSectionHead(polys: seq<Cell>)
    requires |polys| > 0 && forall f :: 0 <= f < |polys| ==> |polys[f]| == 4
    ensures |Section("POLYGONS", polys)| == 1 + |polys|
    ensures Section("POLYGONS", polys)[0] == "POLYGONS " + IntToString(|polys|) + " " + IntToString(5 * |polys|)
  {
    CellTotalIsCountPlusSizes(polys, 4);
    assert CellTotal(polys) == 5 * |polys|;
    SectionHead("POLYGONS", polys);
    assert "POLYGONS " == "POLYGONS" + " ";
  }

  lemma SectionHead(keyword: string, cells: seq<Cell>)
    requires cells != []
    ensures |Section(keyword, cells)| == 1 + |cells|
    ensures Section(keyword, cells)[0] == keyword + " " + IntToString(|cells|) + " " + IntToString(CellTotal(cells))
  {
  }

  lemma ThreeBlocksAt(a: seq<string>, b: seq<string>, c: seq<string>)
    requires |a| > 4 && |b| > 0 && |c| > 0
    ensures (a + b + c)[4] == a[4] && (a + b + c)[|a|] == b[0] && (a + b + c)[|a| + |b|] == c[0]
  {
  }

  /**
   * The scene file: 28 points, no VERTICES or LINES section, 19 quads (size field 95) and one
   * part id per polygon, so CELL_DATA counts exactly the polygons.
   */
  lemma SceneFileCounts(points: seq<Vec3>, polys: seq<Cell>, partIdsPolys: seq<int>, fmt6: real -> string)
    requires |points| == 28 && |polys| == 19 && |partIdsPolys| == |polys| && Quads(polys)
    ensures var doc := PolyDataLines(points, [], [], polys, [], [], partIdsPolys, fmt6);
      && |doc| == 4 + 1 + 28 + 1 + 19 + 3 + 19
      && doc[4] == "POINTS " + IntToString(28) + " float"
      && doc[33] == "POLYGONS " + IntToString(19) + " " + IntToString(95)
      && doc[53] == "CELL_DATA " + IntToString(19)
  {
    QuadDocumentLayout(points, polys, partIdsPolys, fmt6);
  }
}
