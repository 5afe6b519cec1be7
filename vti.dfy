/**
 * `VTIWriter::Write` (src/GenVTI.cc): a VTK XML ImageData file (`.vti`) with one Float32 cell
 * array `edep_keV` and optional String field data. The document is modelled as the lines written
 * to the stream, without their "\n"; each float is printed by the abstract `fmt` (`operator<<`).
 */
module Vti {
  import opened Wrappers
  import opened Text
  import Paths

  type Metadata = seq<(string, string)>

  /** `0 NX 0 NY 0 NZ`: the extent in point indices, so each axis spans NX cells. */
  function ExtentText(nx: int, ny: int, nz: int): string {
    JoinWith(" ", ["0", IntToString(nx), "0", IntToString(ny), "0", IntToString(nz)])
  }

  function Triple(fmt: real -> string, a: real, b: real, c: real): string {
    JoinWith(" ", [fmt(a), fmt(b), fmt(c)])
  }

  const XmlDeclaration: string := "<?xml version=\"1.0\"?>"
  const VtkFileOpen: string := "<VTKFile type=\"ImageData\" version=\"0.1\" byte_order=\"LittleEndian\">"
  const FieldDataOpen: string := "    <FieldData>"
  const FieldDataClose: string := "    </FieldData>"

  function ImageDataOpen(nx: int, ny: int, nz: int, origin: string, spacing: string): string {
    "  <ImageData WholeExtent=\"" + ExtentText(nx, ny, nz) + "\" Origin=\"" + origin + "\" Spacing=\"" + spacing + "\">"
  }

  function PieceOpen(nx: int, ny: int, nz: int): string {
    "    <Piece Extent=\"" + ExtentText(nx, ny, nz) + "\">"
  }

  /** The three lines of one metadata pair: name and value are written verbatim. */
  function EntryLines(kv: (string, string)): seq<string> {
    [ "      <DataArray type=\"String\" Name=\"" + kv.0 + "\" format=\"ascii\" NumberOfComponents=\"1\" NumberOfTuples=\"1\">",
      "        " + kv.1,
      "      </DataArray>" ]
  }

  /** The entries of all pairs, in input order. */
  function MetaLines(meta: Metadata): seq<string>
    decreases |meta|
  {
    if meta == [] then [] else MetaLines(meta[..|meta| - 1]) + EntryLines(meta[|meta| - 1])
  }

  /** The `<FieldData>` block, present only for non-empty metadata. */
  function FieldDataLines(meta: Metadata): seq<string> {
    if meta == [] then [] else [FieldDataOpen] + MetaLines(meta) + [FieldDataClose]
  }

  /** Every value followed by one space, on one line. */
  function ValuesLine(data: seq<real>, fmt: real -> string): string
    decreases |data|
  {
    if data == [] then "" else fmt(data[0]) + " " + ValuesLine(data[1..], fmt)
  }

  const CellDataHead: seq<string> := [
    "      <PointData/>",
    "      <CellData Scalars=\"edep_keV\">",
    "        <DataArray type=\"Float32\" Name=\"edep_keV\" format=\"ascii\">" ]

  const Tail: seq<string> := [
    "        </DataArray>",
    "      </CellData>",
    "    </Piece>",
    "  </ImageData>",
    "</VTKFile>" ]

  /** The whole document, line by line. */
  function VtiLines(data: seq<real>, nx: int, ny: int, nz: int, xmin: real, ymin: real, zmin: real,
                    dx: real, dy: real, dz: real, meta: Metadata, fmt: real -> string): seq<string>
  {
    [XmlDeclaration, VtkFileOpen, ImageDataOpen(nx, ny, nz, Triple(fmt, xmin, ymin, zmin), Triple(fmt, dx, dy, dz))]
      + FieldDataLines(meta)
      + [PieceOpen(nx, ny, nz)] + CellDataHead + [ValuesLine(data, fmt)] + Tail
  }

  // ---------------------------------------------------------------------------------------------
  // The writer

  lemma {:induction false} ValuesLineAppend(data: seq<real>, x: real, fmt: real -> string)
    ensures ValuesLine(data + [x], fmt) == ValuesLine(data, fmt) + fmt(x) + " "
    decreases |data|
  {
    if data == [] {
      assert [x][1..] == [];
    } else {
      assert (data + [x])[1..] == data[1..] + [x];
      ValuesLineAppend(data[1..], x, fmt);
    }
  }

  /** The `<FieldData>` block as `Write` streams it: one entry per pair, in order. */
  method ComposeFieldData(meta: Metadata) returns (lines: seq<string>)
    ensures lines == FieldDataLines(meta)
  {
    lines := [];
    if |meta| > 0 {
      lines := [FieldDataOpen];
      var k := 0;
      while k < |meta|
        invariant 0 <= k <= |meta|
        invariant lines == [FieldDataOpen] + MetaLines(meta[..k])
        decreases |meta| - k
      {
        assert meta[..k + 1][..k] == meta[..k];
        lines := lines + EntryLines(meta[k]);
        k := k + 1;
      }
      assert meta[..k] == meta;
      lines := lines + [FieldDataClose];
    }
  }

  /** The data line as `Write` streams it: each value followed by a space. */
  method ComposeValues(data: seq<real>, fmt: real -> string) returns (values: string)
    ensures values == ValuesLine(data, fmt)
  {
    values := "";
    var i := 0;
    while i < |data|
      invariant 0 <= i <= |data|
      invariant values == ValuesLine(data[..i], fmt)
      decreases |data| - i
    {
      assert data[..i + 1] == data[..i] + [data[i]];
      ValuesLineAppend(data[..i], data[i], fmt);
      values := values + fmt(data[i]) + " ";
      i := i + 1;
    }
    assert data[..i] == data;
  }

  /** The stream output of `Write` once the file is open. */
  method Compose(data: seq<real>, nx: int, ny: int, nz: int, xmin: real, ymin: real, zmin: real,
                 dx: real, dy: real, dz: real, meta: Metadata, fmt: real -> string) returns (lines: seq<string>)
    ensures lines == VtiLines(data, nx, ny, nz, xmin, ymin, zmin, dx, dy, dz, meta, fmt)
  {
    var head := [XmlDeclaration, VtkFileOpen, ImageDataOpen(nx, ny, nz, Triple(fmt, xmin, ymin, zmin), Triple(fmt, dx, dy, dz))];
    var fieldData := ComposeFieldData(meta);
    var values := ComposeValues(data, fmt);
    lines := head + fieldData + [PieceOpen(nx, ny, nz)] + CellDataHead + [values] + Tail;
  }

  /**
   * `path.parent_path()` on a POSIX path: the path up to its file name, without the separators
   * before the file name; "/" when only the root directory precedes it, "" with no '/' at all.
   */
  function ParentPath(path: string): (r: string)
    ensures r == [] <==> Paths.LastIndex(path, '/') < 0
    ensures |r| <= Paths.LastIndex(path, '/') + 1 && path[..|r|] == r
    ensures forall k :: |r| <= k <= Paths.LastIndex(path, '/') ==> path[k] == '/'
    ensures r == [] || r == "/" || r[|r| - 1] != '/'
  {
    var head := path[..Paths.LastIndex(path, '/') + 1];
    if head == [] then []
    else if Paths.AllSlashes(head) then "/"
    else Paths.StripTrailingSlashes(head)
  }

  /**
   * A file name under a directory that ends in '/': the parent is that directory without its
   * trailing slashes, or the root when it is only slashes.
   */
  lemma ParentOfFileIn(dir: string, name: string)
    requires dir != [] && dir[|dir| - 1] == '/'
    requires forall k :: 0 <= k < |name| ==> name[k] != '/'
    ensures !Paths.AllSlashes(dir) ==> ParentPath(dir + name) == Paths.StripTrailingSlashes(dir)
    ensures Paths.AllSlashes(dir) ==> ParentPath(dir + name) == "/"
  {
    Paths.LastIndexAppend(dir, name, '/');
    assert (dir + name)[..|dir|] == dir;
  }

  /** The report of a parent directory that cannot be created; the root-less "" is never created. */
  function DirReport(filename: string, failingDirs: map<string, string>): seq<string> {
    var parent := ParentPath(filename);
    if parent != "" && parent in failingDirs then [DirFailure(parent, failingDirs[parent])] else []
  }

  /** The report of a file that cannot be opened for writing. */
  function OpenReport(filename: string, unopenable: set<string>): seq<string> {
    if filename in unopenable then [OpenFailure(filename)] else []
  }

  /** The path is printed quoted, as `operator<<` on a path does, then the error code's message. */
  function DirFailure(parent: string, message: string): string {
    "Failed to create directory for VTI output (\"" + parent + "\"): " + message
  }

  function OpenFailure(filename: string): string {
    "Unable to open VTI output file: " + filename
  }

  /**
   * The file system as `Write` sees it: directories that cannot be created (with the message of
   * the error code `create_directories` reports for each), paths that cannot be opened for
   * writing, the files' contents and the diagnostics printed to `std::cerr`.
   */
  class FileSystem {
    const failingDirs: map<string, string>
    const unopenable: set<string>
    var files: map<string, string>
    var diagnostics: seq<string>

    constructor (failingDirs: map<string, string>, unopenable: set<string>, files: map<string, string>)
      ensures this.failingDirs == failingDirs && this.unopenable == unopenable
      ensures this.files == files && diagnostics == []
    {
      this.failingDirs := failingDirs;
      this.unopenable := unopenable;
      this.files := files;
      diagnostics := [];
    }

    /** `create_directories` on the file's parent: a failure is only reported. */
    method CreateParent(filename: string)
      modifies this
      ensures files == old(files)
      ensures diagnostics == old(diagnostics) + DirReport(filename, failingDirs)
    {
      var parent := ParentPath(filename);
      if parent != "" {
        if parent in failingDirs {
          diagnostics := diagnostics + [DirFailure(parent, failingDirs[parent])];
        }
      }
    }

    /**
     * `VTIWriter::Write`. A directory that cannot be created is only reported; a file that cannot
     * be opened is reported and nothing is written; otherwise the file is replaced by the document.
     */
    method Write(filename: string, data: seq<real>, nx: int, ny: int, nz: int,
                 xmin: real, ymin: real, zmin: real, dx: real, dy: real, dz: real,
                 meta: Metadata, fmt: real -> string)
      modifies this
      ensures filename in unopenable ==> files == old(files)
      ensures filename !in unopenable ==>
        files == old(files)[filename := Unlines(VtiLines(data, nx, ny, nz, xmin, ymin, zmin, dx, dy, dz, meta, fmt))]
      ensures diagnostics == old(diagnostics) + DirReport(filename, failingDirs) + OpenReport(filename, unopenable)
    {
      CreateParent(filename);
      if filename in unopenable {
        diagnostics := diagnostics + [OpenFailure(filename)];
      } else {
        var lines := Compose(data, nx, ny, nz, xmin, ymin, zmin, dx, dy, dz, meta, fmt);
        var text := Unlines(lines);
        files := files[filename := text];
      }
    }
  }

  // ---------------------------------------------------------------------------------------------
  // Properties of the document

  lemma {:induction false} MetaLinesLength(meta: Metadata)
    ensures |MetaLines(meta)| == 3 * |meta|
    decreases |meta|
  {
    if meta != [] {
      MetaLinesLength(meta[..|meta| - 1]);
    }
  }

  /** The k-th pair occupies lines 3k .. 3k+2 of the entries, name and value verbatim. */
  lemma {:induction false} MetaLinesAt(meta: Metadata, k: int)
    requires 0 <= k < |meta|
    ensures |MetaLines(meta)| == 3 * |meta|
    ensures MetaLines(meta)[3 * k .. 3 * k + 3] == EntryLines(meta[k])
    decreases |meta|
  {
    MetaLinesLength(meta);
    var init := meta[..|meta| - 1];
    MetaLinesLength(init);
    if k < |meta| - 1 {
      MetaLinesAt(init, k);
      assert MetaLines(meta)[3 * k .. 3 * k + 3] == MetaLines(init)[3 * k .. 3 * k + 3];
    }
  }

  /**
   * Shape of the document: the XML declaration and the VTKFile/ImageData header first, a
   * FieldData block exactly when there is metadata, then the Piece with its cell data, and the
   * closing tags last in fixed order.
   */
  lemma DocumentShape(data: seq<real>, nx: int, ny: int, nz: int, xmin: real, ymin: real, zmin: real,
                      dx: real, dy: real, dz: real, meta: Metadata, fmt: real -> string)
    ensures var doc := VtiLines(data, nx, ny, nz, xmin, ymin, zmin, dx, dy, dz, meta, fmt);
      var f := if meta == [] then 0 else 2 + 3 * |meta|;
      && |doc| == 13 + f
      && doc[0] == XmlDeclaration && doc[1] == VtkFileOpen
      && doc[2] == ImageDataOpen(nx, ny, nz, Triple(fmt, xmin, ymin, zmin), Triple(fmt, dx, dy, dz))
      && (doc[3] == FieldDataOpen <==> meta != [])
      && doc[3 + f] == PieceOpen(nx, ny, nz)
      && doc[4 + f .. 7 + f] == CellDataHead
      && doc[7 + f] == ValuesLine(data, fmt)
      && doc[8 + f ..] == Tail
  {
    var head := [XmlDeclaration, VtkFileOpen, ImageDataOpen(nx, ny, nz, Triple(fmt, xmin, ymin, zmin), Triple(fmt, dx, dy, dz))];
    var fd := FieldDataLines(meta);
    MetaLinesLength(meta);
    assert |fd| == if meta == [] then 0 else 2 + 3 * |meta|;
    var piece := PieceOpen(nx, ny, nz);
    PartsAt(head, fd, piece, CellDataHead, ValuesLine(data, fmt), Tail);
    PieceIsNotFieldData(nx, ny, nz);
  }

  /** Where each part of a document assembled from its parts lies. */
  lemma PartsAt(head: seq<string>, fd: seq<string>, piece: string, cells: seq<string>, values: string, tail: seq<string>)
    requires |head| == 3 && |cells| == 3
    ensures var doc := head + fd + [piece] + cells + [values] + tail;
      var f := |fd|;
      && |doc| == 8 + f + |tail|
      && doc[0] == head[0] && doc[1] == head[1] && doc[2] == head[2]
      && (f > 0 ==> doc[3] == fd[0])
      && doc[3 + f] == piece
      && doc[4 + f .. 7 + f] == cells
      && doc[7 + f] == values
      && doc[8 + f ..] == tail
  {
  }

  lemma PieceIsNotFieldData(nx: int, ny: int, nz: int)
    ensures PieceOpen(nx, ny, nz) != FieldDataOpen
  {
    var head := "    <Piece Extent=\"";
    var piece := PieceOpen(nx, ny, nz);
    assert piece == head + (ExtentText(nx, ny, nz) + "\">");
    assert piece[5] == head[5] == 'P';
    assert FieldDataOpen[5] == 'F';
  }

  /** Pair k of the metadata is written at lines 4 + 3k (its name) and 5 + 3k (its value). */
  lemma MetadataVerbatim(data: seq<real>, nx: int, ny: int, nz: int, xmin: real, ymin: real, zmin: real,
                         dx: real, dy: real, dz: real, meta: Metadata, fmt: real -> string, k: int)
    requires 0 <= k < |meta|
    ensures var doc := VtiLines(data, nx, ny, nz, xmin, ymin, zmin, dx, dy, dz, meta, fmt);
      && |doc| > 6 + 3 * k
      && doc[4 + 3 * k] == "      <DataArray type=\"String\" Name=\"" + meta[k].0 +
                           "\" format=\"ascii\" NumberOfComponents=\"1\" NumberOfTuples=\"1\">"
      && doc[5 + 3 * k] == "        " + meta[k].1
      && doc[6 + 3 * k] == "      </DataArray>"
  {
    MetaLinesAt(meta, k);
    MetaLinesLength(meta);
    var m := MetaLines(meta);
    var e := EntryLines(meta[k]);
    assert m[3 * k] == e[0] && m[3 * k + 1] == e[1] && m[3 * k + 2] == e[2];
    MetaLineInDocument(data, nx, ny, nz, xmin, ymin, zmin, dx, dy, dz, meta, fmt, 3 * k);
    MetaLineInDocument(data, nx, ny, nz, xmin, ymin, zmin, dx, dy, dz, meta, fmt, 3 * k + 1);
    MetaLineInDocument(data, nx, ny, nz, xmin, ymin, zmin, dx, dy, dz, meta, fmt, 3 * k + 2);
    EntryText(meta[k]);
  }

  lemma EntryText(kv: (string, string))
    ensures EntryLines(kv)[0] == "      <DataArray type=\"String\" Name=\"" + kv.0 +
                                 "\" format=\"ascii\" NumberOfComponents=\"1\" NumberOfTuples=\"1\">"
    ensures EntryLines(kv)[1] == "        " + kv.1
    ensures EntryLines(kv)[2] == "      </DataArray>"
  {
  }

  /** Line i of the metadata entries is line 4 + i of the document. */
  lemma MetaLineInDocument(data: seq<real>, nx: int, ny: int, nz: int, xmin: real, ymin: real, zmin: real,
                           dx: real, dy: real, dz: real, meta: Metadata, fmt: real -> string, i: int)
    requires meta != [] && 0 <= i < |MetaLines(meta)|
    ensures var doc := VtiLines(data, nx, ny, nz, xmin, ymin, zmin, dx, dy, dz, meta, fmt);
      |doc| > 4 + i && doc[4 + i] == MetaLines(meta)[i]
  {
    var head := [XmlDeclaration, VtkFileOpen, ImageDataOpen(nx, ny, nz, Triple(fmt, xmin, ymin, zmin), Triple(fmt, dx, dy, dz))];
    var rest := [PieceOpen(nx, ny, nz)] + CellDataHead + [ValuesLine(data, fmt)] + Tail;
    assert VtiLines(data, nx, ny, nz, xmin, ymin, zmin, dx, dy, dz, meta, fmt)
        == head + ([FieldDataOpen] + MetaLines(meta) + [FieldDataClose]) + rest;
    FramedAt(head, FieldDataOpen, MetaLines(meta), FieldDataClose, rest, i);
  }

  lemma FramedAt(a: seq<string>, x: string, b: seq<string>, y: string, c: seq<string>, i: int)
    requires 0 <= i < |b|
    ensures |a + ([x] + b + [y]) + c| > |a| + 1 + i && (a + ([x] + b + [y]) + c)[|a| + 1 + i] == b[i]
  {
  }

  /** Splitting the value line gives every element's text, in index order: `data.size()` values. */
  lemma {:induction false} ValuesLineTokens(data: seq<real>, fmt: real -> string)
    requires forall i :: 0 <= i < |data| ==> IsWord(fmt(data[i]))
    ensures |Words(ValuesLine(data, fmt))| == |data|
    ensures forall i :: 0 <= i < |data| ==> Words(ValuesLine(data, fmt))[i] == fmt(data[i])
    decreases |data|
  {
    if data != [] {
      ValuesLineTokens(data[1..], fmt);
      var rest := ValuesLine(data[1..], fmt);
      assert fmt(data[0]) + " " + rest == fmt(data[0]) + [' '] + rest;
      WordThenSpace(fmt(data[0]), ' ', rest);
    }
  }

  // ---------------------------------------------------------------------------------------------
  // The reader's view (`parse_vti` of the Python post-processors)

  /** `tuple(map(int, extent.split()))` unpacked into six values, then `x1 - x0` etc. for cell data. */
  function CellDims(extent: string): Option<(int, int, int)> {
    var t := Words(extent);
    if |t| != 6 then None
    else
      match (ParseInt(t[0]), ParseInt(t[1]), ParseInt(t[2]), ParseInt(t[3]), ParseInt(t[4]), ParseInt(t[5]))
      case (Some(x0), Some(x1), Some(y0), Some(y1), Some(z0), Some(z1)) => Some((x1 - x0, y1 - y0, z1 - z0))
      case _ => None
  }

  /** A cell-data reader recovers NX, NY, NZ from the written extent. */
  lemma ExtentRoundTrip(nx: int, ny: int, nz: int)
    ensures CellDims(ExtentText(nx, ny, nz)) == Some((nx, ny, nz))
  {
    var parts := ["0", IntToString(nx), "0", IntToString(ny), "0", IntToString(nz)];
    assert IsWord("0") by {
      assert "0"[0] == '0';
    }
    WordsOfJoin(parts);
    ParseIntRoundTrip(0);
    assert IntToString(0) == "0";
    ParseIntRoundTrip(nx);
    ParseIntRoundTrip(ny);
    ParseIntRoundTrip(nz);
  }
}
