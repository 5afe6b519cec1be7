# MVE386 run path and file formats in Dafny

This project models the integer-heavy, sequential core of the MVE386 X-ray dose simulation and
its helper tools, and proves properties of that model. It covers seven parts:

- **Chunked run controller** (`src/main.cc`): the argument loop, the resolution of the target
  event count, the `G4int`-bounded chunk cap and the chunked `BeamOn` loop. The engine calls
  `BeamOn`, `SetEventOffset` and `SetIsFinalChunk` are recorded as a trace of invocations in the
  `Published` class.
- **Projection-angle schedule** (the `angle_deg` lambda of `src/PrimaryGeneratorAction.cc`): step
  and fly acquisition, with the integer bucket arithmetic written out and the interpolation over
  `real`. The zero-axis fallback is also modelled.
- **Dose voxel grid** (`src/DoseVoxelGrid.cc`): a class holding the geometry fields and a flat
  `seq<real>` of cells. `Initialize` re-assigns the fields and zeroes the cells. `AddEnergy` bins
  a deposit by truncation toward zero.
- **Deposit filter and run lifecycle** (`src/SteppingAction.cc`, `src/RunAction.cc`): the guard
  chain that decides which steps reach the grid, and the grid reset at every begin-of-run. Also
  the master-only end-of-run, which writes `dose.vti` with six metadata pairs. A `Lifecycle`
  module puts one engine run together and chains runs the way the chunk loop issues them.
- **VTI serialiser** (`src/GenVTI.cc`): the VTK XML ImageData document, as the lines written to the
  stream. The directory-creation and open failures are modelled on a small file-system class.
- **Scene mesh builder and legacy VTK POLYDATA writer** (`export_scene_vtk.py`): `add_cube` and
  `add_oriented_box` extend the point and polygon lists in place, and `write_vtk_polydata` writes
  the sections with their size fields. The part-id bookkeeping of `main` is included.
- **STL reader, writer and converter** (`helper_scalestl.py`, `helper_asciistl.py`): the binary
  and ASCII StereoLithography layouts, format detection and the binary record loop. Also the
  ASCII token scan, the two ASCII writers, the unit table, the output naming, and the
  converter's read-then-write discipline. Round trips are proved: what either writer produces
  from at least one triangle, `read_stl` reads back. A file written from no triangles is
  shorter than the 84 bytes `read_stl` demands and is rejected as too small.

Modules and files:

| module | file | models |
|---|---|---|
| `Wrappers` | `wrappers.dfy` | `Option`, `Result` |
| `Machine` | `machine.dfy` | 32-bit `G4int` bounds and the `static_cast<int>` wrap-around; C++ integer division |
| `Vectors` | `vectors.dfy` | three-component real vectors |
| `RealArith` | `real_arith.dfy` | facts about real quotients and the linear interpolation `start + frac * span` |
| `Text` | `text.dfy` | decimal integers, Python `str.split()`, `" ".join`, ASCII `lower()`, files as lines |
| `Paths` | `paths.dfy` | POSIX `os.path.basename`, `dirname`, `join`, `splitext` |
| `SceneConfig` | `scene_config.dfy` | the configuration records of `include/SceneConfig.hh` and their defaults |
| `RunController` | `run_controller.dfy` | `src/main.cc` |
| `Acquisition` | `projection.dfy` | `angle_deg` and the rotation-axis fallback |
| `DoseGrid` | `dose_grid.dfy` | `DoseVoxelGrid` |
| `Vti` | `vti.dfy` | `VTIWriter::Write` |
| `RunActions` | `run_actions.dfy` | `SteppingAction`, `RunAction` |
| `Lifecycle` | `lifecycle.dfy` | one engine run, and the chunks of a whole process |
| `SceneVtk` | `scene_vtk.dfy` | `export_scene_vtk.py` |
| `StlFormat` | `stl_format.dfy` | the binary and ASCII STL layouts shared by both helpers |
| `StlRead` | `stl_read.dfy` | `read_stl`, `write_ascii_stl`, units and names of `helper_scalestl.py` |
| `StlRoundTrip` | `stl_roundtrip.dfy` | written ASCII files of at least one triangle read back by `read_stl`, empty ones are too small; binary images read back |
| `StlConvert` | `stl_ascii.dfy` | `helper_asciistl.py` |

The model follows the code where the code and its own headers, comments or documentation
disagree:

- `include/GenVTI.hh:13-17` declares `VTIWriter::Write` without the metadata argument. The
  definition (`src/GenVTI.cc:10-15`) and its caller (`src/RunAction.cc:69-74`) take it, so
  `Vti.FileSystem.Write` takes it.
- The comment at `src/GenVTI.cc:33` speaks of adding one to the extent. The code writes
  `0 NX 0 NY 0 NZ`, so the extent counts cells, and a reader computing `x1 - x0` recovers `NX`
  (`Vti.ExtentRoundTrip`).
- `read_stl` raises "Could not parse STL" only on the ASCII path. A binary file whose count
  is 0 (exactly 84 bytes, header not opening with "solid") returns an empty list without error
  (`StlRead.ReadStlSpec`).
- `src/main.cc:106` stores the `long long` target into the `int` field `total_events`. The model
  wraps it (`Machine.ToInt32`). A target of 2^31 events or more therefore reaches the angle
  schedule as a different number: for exactly 2^31 it is -2^31, and a fly sweep stays at the start
  angle (`Acquisition.NarrowedTotalFreezesFlySweep`).
- `SteppingAction` forwards only volumes named "ModelPV", but `src/DetectorConstruction.cc:78-80`
  places the mesh as "DragonPV". As written, no step of the placed mesh reaches the grid
  (`RunActions.PlacedVolumeNeverScored`).
- `SetIsFinalChunk` and `SetEventOffset` (`src/main.cc:143-144`, `152-153`) are not declared
  in `include/RunAction.hh` or `include/PrimaryGeneratorAction.hh`. They are modelled only as
  state published by the controller. The angle schedule reads the engine's event ID and no offset.

Inputs the model takes as parameters rather than computing:

- `strtoll` is `toInt: string -> int`, and `getenv("G4_CHUNK_EVENTS")` is an `Option<int>`.
- The flux-derived suggestion after `llround` is `suggested: string -> int` of the config path.
- Number printing is abstract:
  - `operator<<` on a float is `fmt`;
  - `std::to_string(double)` is `toStr`;
  - Python `str(float)` is `fmt`;
  - Python `:.6f` is `fmt6`.
- `float(token)` is `toFloat: string -> Option<real>`, with `None` where Python raises.
- `struct.unpack("<f")` is `word: seq<byte> -> real`.
- Whether the process is the master thread is a field of `RunActions.RunAction`.
- Files are maps from path to contents:
  - for the C++ writer, a set of unopenable paths and a map from directory to error message;
  - for the converter, a map from path to bytes.
- The STL round trips assume two things about the abstract printer:
  - `PlainFormat(fmt)`: every printed float is ASCII without carriage returns;
  - `AllPrint(fs, fmt, toFloat)`: each component of each written facet prints as one token that
    reads back as the same value; nothing is assumed of values the file does not contain;
  - for the converter, `WordsPrint(word, fmt, toFloat)`: every `float32` word, widened to a double,
    prints as such a token. These are finitely many values, and `repr` round-trips each finite
    one. `word` is real-valued, so NaN and infinite words are outside the model.

## Model

| member | source | states |
|---|---|---|
| Machine.ToInt32 | src/main.cc:150-151 | the result is in the `int` range and agrees with the input modulo 2^32; an input already in range is unchanged |
| Machine.TruncDiv | src/PrimaryGeneratorAction.cc:60 | C++ `int` division: the quotient rounds toward zero, with the remainder's sign following the dividend |
| Machine.Min | src/main.cc:134 | `std::min`: at most both arguments and equal to one of them |
| Machine.Max | src/main.cc:104-105 | `std::max`: at least both arguments and equal to one of them |
| RunController.ParseArgs | src/main.cc:48-72 | the argument `for` loop computes exactly the scan `Scan` of `argv[1..]` |
| RunController.Scan | src/main.cc:48-72 | the scan exits only with code 0 or 1; a finished scan keeps the positionals seen so far as a prefix and adds at most one per remaining argument |
| RunController.Resolve | src/main.cc:74-85 | a flag value wins; otherwise the first positional is the count (through `strtoll`) and the second the config path |
| RunController.ExitOnlyForHelpOrUnknown | src/main.cc:62-70 | the scan stops early only with 0 when `--help` is present, or with 1 when an argument starting with '-' that is no known option is present |
| RunController.PlainArgumentsArePositional | src/main.cc:71 | arguments that do not start with '-' are appended to the positionals in order and change nothing else |
| RunController.PositionalsFillMissing | src/main.cc:74-79 | without flags, the first positional is the event count and the second the config path; missing ones stay unset |
| RunController.FlagsTakePrecedence | src/main.cc:48-79 | with `--events n --setup p` the positionals are ignored; with only `--events n` the second positional still gives the path |
| RunController.BothFlags | src/main.cc:50-61 | `--events n --setup p` followed by plain arguments sets both options and keeps the plain arguments as positionals |
| RunController.EventsThenSetup | src/main.cc:50-61 | an argument list starting with `--events`, a value, `--setup`, a value scans to those two options and the rest as positionals |
| RunController.EventsFlagOnly | src/main.cc:56-61 | `--events n` followed by plain arguments sets only the count |
| RunController.EventsThenPlain | src/main.cc:56-61 | an argument list starting with `--events` and a value scans to that count and the rest as positionals |
| RunController.EventsStep | src/main.cc:56-61 | `--events` with a following argument consumes both and records `strtoll` of the value |
| RunController.SetupStep | src/main.cc:50-55 | `--setup` with a following argument consumes both and records the path |
| RunController.FlagValueHandling | src/main.cc:50-61 | a trailing `--events` or `--setup` without a value is skipped; the value after `--setup` is taken whatever it is |
| RunController.TargetEvents | src/main.cc:95-105 | the target is never negative: a CLI count is clamped at 0; otherwise the suggestion is used only when positive, else 0 |
| RunController.ChunkCap | src/main.cc:128-139 | the cap lies in [1, 2^31-1], is at most a positive env request and at most a positive target, and is one of these three values |
| RunController.PlanFrom | src/main.cc:147-157 | every invocation from an offset starts at or after it, has a size in (0, cap] and ends within the target |
| RunController.Plan | src/main.cc:141-157 | at least one invocation; only the last is final; the sizes sum to the target, or to 0 when the target is not positive |
| RunController.PlanFromStep | src/main.cc:149-155 | one loop pass issues `(offset, min(cap, remaining), remaining ≤ cap)` and continues from offset + size; it is the last pass iff the remainder fits the cap |
| RunController.PlanFromCount | src/main.cc:147-157 | the loop from any offset makes ceil((target-offset)/cap) invocations whose sizes sum to the remainder; only the last one is final |
| RunController.PlanFromEntry | src/main.cc:149-154 | invocation k from a start offset has offset start + k·cap, size min(cap, remaining) > 0, and is final iff its size reaches the target |
| RunController.PlanCovers | src/main.cc:147-157 | for target > 0: ceil(target/cap) invocations; chunk k has offset k·cap and size min(cap, target - k·cap) in (0, cap]; the sizes sum to the target; chunk k is final iff it is the last iff offset + size == target |
| RunController.EmptyTargetPlan | src/main.cc:142-145 | a target ≤ 0 gives exactly one invocation: offset 0, size 0, final |
| RunController.PlanExample | src/main.cc:147-157 | 250 events with a cap of 100 run as (0, 100), (100, 100), then the final (200, 50) |
| RunController.ChunkNarrowingIsLossless | src/main.cc:150-151 | casting min(cap, remaining) to `G4int` keeps its value, since the cap is at most the `G4int` maximum |
| RunController.Published.constructor | src/main.cc:141 | nothing is published yet: offset 0, not final, no invocations |
| RunController.Published.SetIsFinalChunk | src/main.cc:152 | sets the published final flag and nothing else |
| RunController.Published.SetEventOffset | src/main.cc:153 | sets the published offset and nothing else |
| RunController.Published.BeamOn | src/main.cc:154 | appends one invocation carrying the offset and flag published before it |
| RunController.Dispatch | src/main.cc:141-158 | the dispatch (both branches) appends exactly the chunk plan of the target and cap to the trace |
| RunController.RunMain | src/main.cc:44-158 | an early exit returns its code with nothing launched; otherwise the config path is the flag, positional or default, `total_events` is the target narrowed to `int`, and the trace gains the plan for the target and the chunk cap |
| Acquisition.Projections | src/PrimaryGeneratorAction.cc:58 | `max(1, num_projections)`: at least 1, equal to the configured count when that is positive |
| Acquisition.TotalEvents | src/PrimaryGeneratorAction.cc:49 | `max(1, total_events)`: at least 1, equal to the configured total when that is positive |
| Acquisition.EventsPerProjection | src/PrimaryGeneratorAction.cc:59 | at least 1, and the integer quotient of the total by the projections when the total is at least the projection count |
| Acquisition.ProjIdx | src/PrimaryGeneratorAction.cc:60-61 | the index is at most projections-1, and at least 0 for a non-negative event ID |
| Acquisition.AngleDeg | src/PrimaryGeneratorAction.cc:47-64 | a single step projection, or a single event in fly mode, gives the start angle |
| Acquisition.FractionInUnitRange | src/PrimaryGeneratorAction.cc:50-63 | for a non-negative event ID both the fly and the step fraction lie in [0, 1] |
| Acquisition.AngleWithinSweep | src/PrimaryGeneratorAction.cc:47-64 | the angle lies between the start and end angles, in either direction of the sweep |
| Acquisition.ProjIdxMonotone | src/PrimaryGeneratorAction.cc:59-61 | the projection index is non-decreasing in the event ID |
| Acquisition.StepFractionMonotone | src/PrimaryGeneratorAction.cc:62 | the step fraction is non-decreasing in the event ID |
| Acquisition.StepAngleMonotone | src/PrimaryGeneratorAction.cc:58-63 | for an increasing sweep the step-mode angle is non-decreasing in the event ID |
| Acquisition.BucketSharesProjection | src/PrimaryGeneratorAction.cc:59-63 | every ID in [k·eventsPerProj, (k+1)·eventsPerProj) has projection k and the angle of the bucket's first ID |
| Acquisition.TailGetsEndAngle | src/PrimaryGeneratorAction.cc:60-63 | with several projections, every ID from (projections-1)·eventsPerProj on gets the last projection and the end angle |
| Acquisition.FlyEndpoints | src/PrimaryGeneratorAction.cc:50-56 | in fly mode ID 0 gives the start angle, and every ID ≥ total-1 gives the end angle when total > 1 |
| Acquisition.FirstEventAtStartAngle | src/PrimaryGeneratorAction.cc:47-64 | event 0 is at the start angle in either mode |
| Acquisition.FourProjectionExample | src/PrimaryGeneratorAction.cc:58-63 | 100 events, 4 projections over 0..360: IDs 0-24 at 0, 25-49 at 120, 50-74 at 240, 75-99 at 360 |
| Acquisition.NarrowedTotalFreezesFlySweep | src/main.cc:106 | a target of 2^31 narrowed to `int` is -2^31, and then every fly-mode event is at the start angle |
| Acquisition.EffectiveAxis | src/PrimaryGeneratorAction.cc:68-70 | the axis used is never zero: the zero vector becomes +z and any non-zero axis is kept |
| Acquisition.TruncDivIs | src/PrimaryGeneratorAction.cc:60 | the truncating quotient is the unique k with k·b ≤ a < (k+1)·b |
| Acquisition.TruncDivMonotone | src/PrimaryGeneratorAction.cc:60 | the truncating quotient is monotone in the dividend |
| DoseGrid.Trunc | src/DoseVoxelGrid.cc:28-30 | `int(...)` of a real truncates toward zero: the result is within one of the value, on the zero side |
| DoseGrid.Bin | src/DoseVoxelGrid.cc:28-37 | a deposit has a cell iff all three truncated indices are in range; that cell is ix + NX·(iy + NY·iz) and lies in [0, NX·NY·NZ) |
| DoseGrid.Deposit | src/DoseVoxelGrid.cc:32-38 | the length never changes; an out-of-range deposit changes nothing; an accepted one adds the energy to exactly its cell and leaves every other cell alone |
| DoseGrid.FlatIndexInRange | src/DoseVoxelGrid.cc:37 | in-range indices give a flat index in [0, NX·NY·NZ) |
| DoseGrid.FlatIndexDecodes | src/DoseVoxelGrid.cc:37 | the flat index decodes back to ix, iy, iz by `%` and `/` |
| DoseGrid.FlatIndexInjective | src/DoseVoxelGrid.cc:37 | distinct in-range triples map to distinct cells |
| DoseGrid.DivModUnique | src/DoseVoxelGrid.cc:37 | a quotient and remainder in range are those of division |
| DoseGrid.NearMinimumLandsInFirstCell | src/DoseVoxelGrid.cc:28-30 | a coordinate less than one pitch below (or above) the minimum lands in cell 0 rather than being dropped |
| DoseGrid.FarBelowMinimumDropped | src/DoseVoxelGrid.cc:28-35 | a coordinate at least one pitch below the minimum gets a negative index |
| DoseGrid.BeyondFarEdgeDropped | src/DoseVoxelGrid.cc:28-35 | a coordinate at or beyond min + N·pitch gets an index ≥ N |
| DoseGrid.SumUpdate | src/DoseVoxelGrid.cc:38 | replacing one cell changes the total by the difference |
| DoseGrid.SumZeroes | src/DoseVoxelGrid.cc:22 | a freshly assigned grid totals zero |
| DoseGrid.DepositTotal | src/DoseVoxelGrid.cc:32-38 | the grid total rises by exactly the energy when the deposit is accepted, and by 0 otherwise |
| DoseGrid.DoseVoxelGrid.constructor | include/DoseVoxelGrid.hh:20-26 | a fresh grid has zero geometry and no cells |
| DoseGrid.DoseVoxelGrid.Initialize | src/DoseVoxelGrid.cc:13-23 | the geometry fields become the arguments and the storage becomes NX·NY·NZ zero cells |
| DoseGrid.DoseVoxelGrid.AddEnergy | src/DoseVoxelGrid.cc:25-39 | the cells become `Deposit` of the old cells; geometry and length are unchanged |
| RunActions.StepEffect | src/SteppingAction.cc:34-59 | a step that is not forwarded leaves the grid unchanged; the length never changes |
| RunActions.StepEffectTotal | src/SteppingAction.cc:36-58 | the grid total rises by the step's scored energy, and a step with edep ≤ 0 leaves the grid unchanged |
| RunActions.PlacedVolumeNeverScored | src/SteppingAction.cc:41-47 | a step in "DragonPV", the name the mesh is placed under, or with no volume never changes the grid |
| RunActions.SteppingAction.constructor | src/SteppingAction.cc:18-32 | the CSV file is never opened and no rows are written |
| RunActions.SteppingAction.UserSteppingAction | src/SteppingAction.cc:34-59 | the grid becomes exactly the step's effect (one `AddEnergy` at the pre-step position in mm with edep in keV, if forwarded); with the file closed no CSV row is written |
| RunActions.PitchTimesCount | src/RunAction.cc:32-34 | N voxels of pitch 2·half/N span 2·half |
| RunActions.AxisSpansCube | src/RunAction.cc:30-34 | an axis from -half with N voxels of pitch 2·half/N ends at +half; the pitch is zero iff half is |
| RunActions.AxisCovers | src/RunAction.cc:30-34 | every coordinate in [-half, half) gets an index in [0, N) |
| RunActions.RunGeometryCoversCube | src/RunAction.cc:25-36 | under the begin-of-run geometry every point of [-half, half)^3 is binned into some cell |
| RunActions.RunMetadata | src/RunAction.cc:47-65 | exactly six pairs in order: formula, density, energy, flux, exposure time, and the run's event count |
| RunActions.SimulatedEventsRoundTrip | src/RunAction.cc:64-65 | the simulated_events value reads back as the run's own event count |
| RunActions.JoinPath | src/RunAction.cc:67 | `path / name`: the name alone for an empty directory; otherwise the directory, one '/' unless it already ends with one, then the name |
| RunActions.ParentOfJoinPath | src/RunAction.cc:67 | the directory `Write` creates for `dir / name` is none for an empty `dir`, otherwise `dir` without its trailing slashes, or the root for an all-slash `dir` |
| RunActions.OutputParent | src/RunAction.cc:67-68 | the same for `output_dir / "dose.vti"` |
| RunActions.OutputParentOfDoubledSlash | src/GenVTI.cc:17-20 | for `out//dose.vti` the created directory is `out` |
| RunActions.RunAction.constructor | src/RunAction.cc:19-21 | the action keeps the configuration it is given |
| RunActions.RunAction.BeginOfRunAction | src/RunAction.cc:23-38 | the grid takes the geometry (-half, 2·half/N per axis) and all cells are zeroed |
| RunActions.RunAction.EndOfRunAction | src/RunAction.cc:40-75 | a non-master thread writes nothing; the master writes output_dir/dose.vti with the grid's own cells, dims, origin, spacing and the six pairs, unless the file cannot be opened |
| Lifecycle.Absorb | src/SteppingAction.cc:34-59 | applying a sequence of steps keeps the grid length |
| Lifecycle.AbsorbAppend | src/SteppingAction.cc:34-59 | absorbing two step sequences one after the other is absorbing their concatenation |
| Lifecycle.AbsorbTotal | src/SteppingAction.cc:36-58 | the grid total rises by the sum of the steps' scored energies |
| Lifecycle.NoDepositNoChange | src/SteppingAction.cc:36-38 | steps without deposited energy leave the grid unchanged |
| Lifecycle.RunnablePitch | src/RunAction.cc:30-34 | a positive half size and positive counts give non-zero pitches |
| Lifecycle.RunCells | src/RunAction.cc:36 | one run's cells start from a zeroed grid and have NX·NY·NZ entries |
| Lifecycle.RunCellsTotal | src/RunAction.cc:36 | a run's grid totals the scored energy of its own steps only |
| Lifecycle.BeamOnRun | src/main.cc:154 | one engine run leaves the begin-of-run geometry, the cells of its own steps, and the files after its end-of-run |
| Lifecycle.RunChunks | src/main.cc:147-157 | after every chunk has run, the grid holds only the last chunk's deposits and the files are those its run writes |
| Lifecycle.FilesAfterTwice | src/RunAction.cc:67-74 | two runs leave the files the second run alone leaves: `dose.vti` is overwritten, with no final-chunk check |
| Lifecycle.LastChunkIsReported | src/RunAction.cc:64-65 | with several chunks, the file left holds the final chunk's event count, which is less than the target |
| Vti.ComposeFieldData | src/GenVTI.cc:48-57 | the field-data loop writes exactly `FieldDataLines`: nothing for empty metadata, else one String DataArray per pair |
| Vti.ComposeValues | src/GenVTI.cc:68-69 | the value loop prints every element of `data` in index order, each followed by one space |
| Vti.Compose | src/GenVTI.cc:39-76 | the stream receives exactly the lines of `VtiLines` |
| Vti.ValuesLineAppend | src/GenVTI.cc:68-69 | one more element adds its printed form and one space at the end |
| Vti.ValuesLineTokens | src/GenVTI.cc:68-69 | the values line splits into exactly `data.size()` tokens, the printed elements in order |
| Vti.DocumentShape | src/GenVTI.cc:39-76 | XML declaration, VTKFile, ImageData header with extent, origin and spacing; FieldData iff metadata is non-empty; Piece, CellData head, values line, and the closing tags in fixed order |
| Vti.MetaLinesLength | src/GenVTI.cc:50-55 | three lines per metadata pair |
| Vti.MetaLinesAt | src/GenVTI.cc:50-55 | pair k occupies lines 3k..3k+2 of the field data |
| Vti.MetadataVerbatim | src/GenVTI.cc:50-55 | pair k's name and value appear in the document verbatim, with no escaping, in input order |
| Vti.ExtentRoundTrip | src/GenVTI.cc:34-46 | the extent `0 NX 0 NY 0 NZ` gives back NX, NY, NZ to a reader computing x1-x0 |
| Vti.ParentPath | src/GenVTI.cc:17-20 | `parent_path()`: empty iff the path has no '/'; otherwise a prefix before the last '/' followed only by separators, with no trailing '/' unless it is the root |
| Vti.ParentOfFileIn | src/GenVTI.cc:17-20 | a slash-free file name under a directory ending in '/' has that directory without its trailing slashes as parent, or the root |
| Vti.FileSystem.constructor | src/GenVTI.cc:17-31 | the file system starts with the given files, failing directories and unopenable paths, and no diagnostics |
| Vti.FileSystem.CreateParent | src/GenVTI.cc:17-25 | a failing parent directory is only reported; no file changes |
| Vti.FileSystem.Write | src/GenVTI.cc:10-77 | an unopenable file leaves all files unchanged; otherwise the file's contents become the document; both failures are reported in order |
| SceneVtk.CubeCorners | export_scene_vtk.py:74-85 | eight corners, each the centre ± half on every axis, in `add_cube`'s order |
| SceneVtk.FacesWithinNewPoints | export_scene_vtk.py:86-95 | six quads, each index in [base, base+8) |
| SceneVtk.FacesAreQuadsWithin | export_scene_vtk.py:122-129 | both face tables give quads whose indices stay below base+8 |
| SceneVtk.CellsGrow | export_scene_vtk.py:96 | appending quads within a larger point count keeps every index within it |
| SceneVtk.CubeFacesAreSides | export_scene_vtk.py:88-95 | each cube face lies on its named side (-Z, +Z, -Y, +Y, +X, -X), and consecutive corners are edges |
| SceneVtk.BoxFacesAreSides | export_scene_vtk.py:122-129 | each box face lies on one side of one axis, and consecutive corners differ in one sign |
| SceneVtk.BoxCornerSigns | export_scene_vtk.py:115-119 | box corner i is the centre plus the half-axes with the signs of the nested `for` loops |
| SceneVtk.SceneLists.constructor | export_scene_vtk.py:204-207 | the lists start empty |
| SceneVtk.SceneLists.AddCube | export_scene_vtk.py:73-97 | appends exactly the eight corners and the six faces over the old point count, and returns those faces |
| SceneVtk.SceneLists.AddOrientedBox | export_scene_vtk.py:100-131 | appends the eight box corners and six faces over the old point count, and returns those faces |
| SceneVtk.SceneLists.AddDetectorQuad | export_scene_vtk.py:228-236 | appends the four detector corners and one quad over them |
| SceneVtk.DetectorCorners | export_scene_vtk.py:228-233 | four corners of a rectangle about the centre: opposite sides are `2·halfW·right` and `2·halfH·up`, and both diagonals meet at the centre |
| SceneVtk.OrientedCorners | export_scene_vtk.py:114-119 | the nested sign loops produce exactly `BoxCorners` |
| SceneVtk.BoxFaces | export_scene_vtk.py:122-129 | the face list is the box table over the base |
| SceneVtk.WriteSection | export_scene_vtk.py:151-167 | the section loop writes exactly `Section` of the cells |
| SceneVtk.WritePoints | export_scene_vtk.py:147-149 | the point loop writes exactly the POINTS block |
| SceneVtk.WriteCellData | export_scene_vtk.py:169-175 | the part-id loop writes exactly the CELL_DATA block |
| SceneVtk.WritePolyData | export_scene_vtk.py:134-175 | the writer produces exactly `PolyDataLines` |
| SceneVtk.SectionHeader | export_scene_vtk.py:151-167 | a section is written iff its list is non-empty; its header is the keyword, the cell count and the total size, which read back as those numbers |
| SceneVtk.SectionHead | export_scene_vtk.py:163-165 | a non-empty section has one line per cell after a header of count and Σ(1+len) |
| SceneVtk.CellTotalIsCountPlusSizes | export_scene_vtk.py:164 | cells of equal size s total count·(1+s) |
| SceneVtk.CellLineTokens | export_scene_vtk.py:167 | a cell line is its length followed by its indices, and each token reads back as that number |
| SceneVtk.QuadSectionHead | export_scene_vtk.py:163-165 | a list of quads gets the header `POLYGONS n 5n` |
| SceneVtk.OnlyPolygons | export_scene_vtk.py:151-161 | with no vertices and no lines the file is header, points, polygons and cell data only |
| SceneVtk.QuadDocumentLayout | export_scene_vtk.py:143-175 | a quads-only scene has POINTS, POLYGONS and CELL_DATA headers at fixed lines, with CELL_DATA counting the polygons |
| SceneVtk.SourceBoxSize | export_scene_vtk.py:218 | the source cube's size is clamped to [0.2, 5.0] |
| SceneVtk.BuildScene | export_scene_vtk.py:204-248 | the points are exactly `ScenePoints` of the inputs (clamped source box, detector half extents `0.5·pixels·size`, the box at the source-detector midpoint) and the polygons exactly the four face lists over bases 0, 8, 12 and 20; 28 points and 19 quads with one part id per polygon (6 source, 1 detector, 6 beam, 6 voxel box); every index is within the points (SceneLayout splits the points into the four corner blocks) |
| SceneVtk.SceneLayout | export_scene_vtk.py:217-248 | points 0-7 are the source cube about the source, 8-11 the detector rectangle about the detector centre, 12-19 the beam box about the source-detector midpoint, 20-27 the voxel cube about the origin; polygons 0-5, 6, 7-12 and 13-18 are those blocks' faces |
| SceneVtk.SceneFacesWithin | export_scene_vtk.py:217-248 | the scene's 19 polygons are all quads, and every index in them names one of its 28 points |
| SceneVtk.SceneFileCounts | export_scene_vtk.py:143-175 | the scene file declares 28 points, 19 polygons of total size 95, and 19 cell-data values |
| Paths.LastIndex | helper_asciistl.py:65 | the last position of the character, or -1 when it does not occur |
| Paths.Basename | helper_scalestl.py:171 | the base name is a slash-free suffix of the path, preceded by a '/' unless it is the whole path |
| Paths.StripTrailingSlashes | helper_scalestl.py:172 | a prefix with no trailing slash, and only slashes were removed |
| Paths.Dirname | helper_scalestl.py:172 | empty iff the path has no '/'; otherwise a prefix before the last '/' followed only by slashes, with no trailing '/' unless it is all slashes |
| Paths.Join | helper_scalestl.py:173 | an absolute second part replaces the first; otherwise the first part, at most one '/', then the second, the '/' only when the first is non-empty and does not end with one |
| Paths.StripExtension | helper_asciistl.py:65 | `splitext(p)[0]` is a prefix of the path, and the whole path when there is no extension |
| Paths.Extension | helper_asciistl.py:65 | root and extension concatenate to the path; the extension is empty or a dot followed by no dot or slash |
| Paths.StripAppendedExtension | helper_asciistl.py:65 | a named stem followed by an extension splits back into that stem |
| Paths.LastIndexAppend | helper_asciistl.py:65 | the last occurrence in a + b is in b if b has one, else in a |
| StlFormat.U32At | helper_scalestl.py:35 | the little-endian `uint32` at an offset lies in [0, 2^32) |
| StlFormat.U32RoundTrip | helper_asciistl.py:33 | packing a count and unpacking it gives it back |
| StlFormat.RecordAt | helper_scalestl.py:44-45 | a record gives a facet of three normal and nine vertex components |
| StlFormat.RecordLocal | helper_scalestl.py:44-45 | a record depends only on its own 50 bytes |
| StlFormat.BinaryFacetsIgnoreTrailing | helper_asciistl.py:36-44 | bytes after the n-th record change nothing |
| StlFormat.BinaryImageLayout | helper_scalestl.py:35-48 | a header, a count and 50-byte records are read back as that count and those records in order |
| StlFormat.DecodeAscii | helper_scalestl.py:57 | ASCII text written as bytes decodes back to itself |
| StlFormat.RemoveCRNoop | helper_scalestl.py:62 | removing carriage returns from text without any is the identity |
| StlFormat.AsciiStlLines | helper_scalestl.py:92-103 | 7 lines per facet plus the `solid`/`endsolid` lines with the name |
| StlFormat.AllFacetLinesAt | helper_scalestl.py:95-102 | facet i's seven lines are lines 7i..7i+6 of the body |
| StlFormat.FacetPlacement | helper_scalestl.py:92-103 | facet i occupies lines 1+7i..7+7i of the file, in input order |
| StlRead.Floats3 | helper_scalestl.py:67 | three numbers iff all three tokens convert; otherwise the first that does not is the error |
| StlRead.FindVertices | helper_scalestl.py:68-78 | the vertex search stays within the tokens, never loses coordinates, and stops short of three vertices only at the end |
| StlRead.Scan | helper_scalestl.py:62-85 | the scan only appends well-formed facets; it can fail only on a float that does not convert |
| StlRead.ReadStlSpec | helper_scalestl.py:22-89 | too small iff under 84 bytes; results are well-formed; an empty result only from a binary file with count 0; never "truncated" |
| StlRead.ParseBinary | helper_scalestl.py:38-48 | n records when they fit, else the truncation error |
| StlRead.SearchVertices | helper_scalestl.py:68-78 | the inner `while` computes exactly `FindVertices` from i+5 |
| StlRead.ScanTokens | helper_scalestl.py:62-85 | the outer `while` computes exactly `Scan` of all tokens |
| StlRead.ReadStl | helper_scalestl.py:22-89 | `read_stl` computes exactly `ReadStlSpec` |
| StlRead.WriteFacet | helper_scalestl.py:96-102 | one triangle's text is its seven lines |
| StlRead.WriteFacets | helper_scalestl.py:95-102 | the loop writes every triangle's lines in order |
| StlRead.WriteAsciiStl | helper_scalestl.py:92-103 | the file is "solid scaled", seven lines per triangle, "endsolid scaled" |
| StlRead.SolidText | helper_scalestl.py:92-103 | the text is the header line, the triangles' lines and the closing line |
| StlRead.UnitScale | helper_scalestl.py:134 | mm→1, cm→10, m→1000, anything else→1 |
| StlRead.JoinEndsWith | helper_scalestl.py:173 | joining a file name keeps it as the base name |
| StlRead.ScaledOutputNotRescaled | helper_scalestl.py:125-126 | a scaled output is named `<stem>_ascii_scaled.stl` and is excluded from the default targets |
| StlRoundTrip.FacetLineWords | helper_scalestl.py:62 | a written facet's seven lines split into its 21 tokens |
| StlRoundTrip.AllFacetLineWords | helper_scalestl.py:62 | the facets' lines split into their tokens in order |
| StlRoundTrip.DocumentWords | helper_scalestl.py:62 | a written file splits into `solid name`, the facets' tokens, `endsolid name` |
| StlRoundTrip.SearchFacet | helper_scalestl.py:68-78 | at a written facet the vertex search finds its nine coordinates and stops after them |
| StlRoundTrip.ScanFacet | helper_scalestl.py:65-81 | at a written facet the scan records exactly that facet and moves 21 tokens on |
| StlRoundTrip.ScanEveryFacet | helper_scalestl.py:62-85 | consecutive written facets scan to exactly those facets |
| StlRoundTrip.ScanDocument | helper_scalestl.py:62-85 | the tokens of a written file scan to exactly the written facets |
| StlRoundTrip.DocumentPlain | helper_scalestl.py:92-103 | a written file is plain ASCII text when the name and every printed float are |
| StlRoundTrip.WrittenBytes | helper_scalestl.py:57 | the bytes of a written file decode back to its text |
| StlRoundTrip.WrittenLength | helper_scalestl.py:30-31 | a written file with at least one facet has at least 84 bytes |
| StlRoundTrip.AsciiRoundTrip | helper_scalestl.py:51-53 | a written ASCII file with at least one facet opens with "solid", so it never takes the binary branch, and `read_stl` returns exactly the written facets |
| StlRoundTrip.EmptyWrittenNotReadable | helper_scalestl.py:30-31 | a file written from no triangles has 17 bytes plus twice the name's length; it is too small to read up to a 33-character name, and has no triangles to find beyond that |
| StlRoundTrip.EmptyScaledFileTooSmall | helper_scalestl.py:92-103 | the scaling tool's output for no triangles is 29 bytes and reads back as "STL file too small" |
| StlRoundTrip.BinaryRoundTrip | helper_scalestl.py:51-53 | a binary image whose header does not open with "solid" reads back as its records, in order |
| StlConvert.IsAsciiStl | helper_asciistl.py:18-24 | true iff the file exists and its first five bytes, lower-cased, are "solid"; a missing file gives false |
| StlConvert.DstDiffers | helper_asciistl.py:65-66 | the destination is never the source |
| StlConvert.DstOfStl | helper_asciistl.py:65-66 | `<stem>.stl` becomes `<stem>_ascii.stl` |
| StlConvert.DstOfExtension | helper_asciistl.py:65-66 | the destination replaces the extension by `_ascii.stl` |
| StlConvert.SourceFile.Read | helper_asciistl.py:29-39 | `read(k)` returns up to k bytes from the cursor and advances it by what it returned |
| StlConvert.ConvertSpec | helper_asciistl.py:28-44 | under 84 bytes: cannot read the count; truncated at triangle i of n exactly when the data ends inside record i; otherwise the n records from offset 84 |
| StlConvert.ReadCount | helper_asciistl.py:29-33 | the header is skipped and the count is read iff 84 bytes are there |
| StlConvert.ReadTriangles | helper_asciistl.py:28-44 | the cursor reads compute exactly `ConvertSpec` |
| StlConvert.WriteTriangle | helper_asciistl.py:49-55 | one triangle's text is its seven lines |
| StlConvert.WriteTriangles | helper_asciistl.py:48-55 | every triangle's lines in input order |
| StlConvert.WriteConverted | helper_asciistl.py:46-56 | "solid converted", seven lines per triangle, "endsolid converted" |
| StlConvert.ConvertedBytes | helper_asciistl.py:46-56 | the bytes written decode to that text |
| StlConvert.ConvertFiles | helper_asciistl.py:27-56 | a failure changes no file; success adds or replaces only the destination |
| StlConvert.Step | helper_asciistl.py:60-79 | skipped iff missing; left alone iff ASCII, noting an existing output; only a conversion changes files |
| StlConvert.Run | helper_asciistl.py:59-79 | one outcome per path |
| StlConvert.ConvertIgnoresTrailing | helper_asciistl.py:36-44 | bytes after the n-th triangle are never read |
| StlConvert.ConvertAgreesWithReader | helper_asciistl.py:36-44 | on a file of exactly the binary size the converter reads what `read_stl` reads |
| StlConvert.ConvertBinaryImage | helper_asciistl.py:28-44 | a binary image converts to its records whatever its header says |
| StlConvert.StepTouchesOnlyDst | helper_asciistl.py:59-79 | a step writes at most its own destination; every other file keeps its bytes |
| StlConvert.StepKeepsSource | helper_asciistl.py:59-79 | the source file itself is never modified |
| StlConvert.TruncatedWritesNothing | helper_asciistl.py:35-46 | a truncated source fails and creates or overwrites nothing, the destination included |
| StlConvert.StepConverts | helper_asciistl.py:75-77 | a readable binary source is written to its destination as exactly its triangles |
| StlConvert.StepIdempotent | helper_asciistl.py:59-79 | running a path twice leaves the same files and outcome as running it once |
| StlConvert.ConvertedReadsBack | helper_asciistl.py:46-56 | a converted file with at least one triangle is ASCII to `is_ascii_stl` and reads back under `read_stl` as exactly the source's triangles |
| StlConvert.EmptyConversionTooSmall | helper_asciistl.py:46-56 | converting a source with no triangles writes 35 bytes, which `read_stl` rejects as too small |
| StlConvert.ConvertedPrint | helper_asciistl.py:36-55 | when every `float32` word prints as a token that reads back, so does every component of every converted triangle |
| StlConvert.RecordPrints | helper_asciistl.py:40-44 | the same for the facet of one 50-byte record |
| StlConvert.RunTouchesOnlyDsts | helper_asciistl.py:59-79 | a whole run changes no file but the destinations of its paths |
| StlConvert.Folder.Convert | helper_asciistl.py:27-56 | all triangles are read before the destination is written; the result is `ConvertFiles` |
| StlConvert.Folder.Process | helper_asciistl.py:60-79 | one loop body is exactly `Step` |
| StlConvert.Folder.ProcessAll | helper_asciistl.py:59-79 | the loop over the paths is exactly `Run` |
| Text.WordsSplitAt | helper_scalestl.py:62 | `split()` separates at every whitespace character |
| Text.Words | helper_scalestl.py:62 | `split()` returns only non-empty tokens without whitespace |
| Text.WordsOfJoin | export_scene_vtk.py:155 | words joined by single spaces split back into those words |
| Text.WordsOfUnlines | helper_scalestl.py:62 | the tokens of a text are the tokens of its lines in order |
| Text.Lower | helper_scalestl.py:65 | ASCII lower-casing: same length; an upper-case letter moves up by 32 to its lower-case form, every other character is kept, and no upper-case letter is left |
| Text.LowerIdempotent | helper_scalestl.py:65 | lower-casing twice is lower-casing once, and text is its own lower case iff it has no upper-case letter |
| Text.NatToString | export_scene_vtk.py:155 | a non-negative integer prints as a non-empty digit string |
| Text.IntToString | export_scene_vtk.py:155 | a single token; a leading '-' iff the number is negative, followed by digits only |
| Text.ParseIntRoundTrip | export_scene_vtk.py:167 | a printed integer reads back as itself |

## Left out

- Rodrigues rotation, `unit()`, the `mt19937` jitter and the beam basis of
  `src/PrimaryGeneratorAction.cc`: floating-point trigonometry and a random number generator.
  The direction is fixed and the origin is jittered, which is also not modelled.
- `v_unit` and `orthonormal_basis` of `export_scene_vtk.py`: square roots and float tolerances.
  `SceneVtk.BuildScene` takes the beam basis and the half length as inputs.
- STL bounding-box fitting and scaling in `helper_scalestl.py` (lines 142-169): float numerics.
  The scaling script's argument handling, globbing and printing are also not modelled.
- `G4AutoLock`, worker threads and `G4NUM_THREADS`: the grid is modelled as sequential.
- Float rounding in general: coordinates, energies and cells are `real`, and `float` casts are
  not modelled. Number formatting is abstract, as described above.
- Console output (`std::cout`, `std::cerr`, Python `print`), apart from the VTI writer's two
  diagnostics, and timing.
- Directory creation and file-open failures other than the ones named in
  `Vti.FileSystem`. The converter's `open(dst)` and permissions are not modelled.
- `src/SceneConfig.cc` (JSON loading) and the Geant4 wiring: detector construction, physics
  list, action initialisation, the engine's event loop. Engine steps are given as a sequence of
  events per run.
- The Python post-processors, `gvxr_setup.py` and `test.py`.
- `Vti.DirFailure`: the parent path is printed as `std::filesystem::path` does, with quotes, but
  the escaping of quotes inside the path is not modelled.
- RunActions.RunGeometry, RunActions.RunAction.BeginOfRunAction and Lifecycle.Runnable require
  `nx, ny, nz >= 1`. With a zero count the C++ pitch `2·half/0` is an IEEE infinity, binning a
  step then converts an infinite or NaN value to `int`, which is undefined, and
  `assign(0, 0)` leaves no cell; the model leaves that configuration out.
- `struct.unpack("<f")` as a real-valued `word`: NaN and infinite `float32` values, and the
  formatting of `nan` and `inf`, are not modelled, because `real` has no such values.
- `StlRead.ParseBinary` requires at least 84 bytes, which its only caller has checked already.
- `DoseGrid.DoseVoxelGrid.AddEnergy` requires non-zero pitches. A zero pitch divides by zero,
  and converting the resulting float to `int` is undefined in C++.
- `DoseGrid.DoseVoxelGrid.Initialize` requires non-negative counts whose product fits in `int`.
  An overflow there is undefined in C++.
- `Acquisition.EffectiveAxis` states the zero-vector case and the non-zero case, but not the
  normalisation that follows.
- `StlFormat.Decode`: `decode("utf-8", errors="ignore")` is approximated by keeping the ASCII
  bytes. Multi-byte UTF-8 characters of an ASCII-path file are not modelled, and Python's
  Unicode `lower()` is modelled as ASCII lower-casing.
