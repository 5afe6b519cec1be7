/**
 * The user actions of the run path: `SteppingAction::UserSteppingAction`, which decides which
 * steps reach the dose grid, and `RunAction`, which zeroes the grid at the start of every run and
 * writes `dose.vti` with its metadata at the end. The process-wide grid (`DoseVoxelGrid::Instance()`)
 * and the file system are passed in explicitly.
 */
module RunActions {
  import opened Wrappers
  import opened Machine
  import opened Text
  import opened Vectors
  import opened SceneConfig
  import opened RealArith
  import opened DoseGrid
  import opened Vti
  import Paths

  /** Geant4's internal units: lengths in mm, energies in MeV. */
  const Mm: real := 1.0
  const KeV: real := 0.001

  /** The only volume whose deposits are scored. */
  const ScoredVolume: string := "ModelPV"
  /** The name under which `DetectorConstruction` places the mesh. */
  const PlacedVolume: string := "DragonPV"

  /** The pre-step point: its physical volume (`None` when `GetPhysicalVolume()` is null) and its position. */
  datatype StepPoint = StepPoint(volume: Option<string>, position: Vec3)

  datatype Step = Step(totalEnergyDeposit: real, preStepPoint: StepPoint)

  /** The guard chain: a positive deposit inside a volume named `ModelPV`. */
  predicate Forwards(s: Step) {
    && s.totalEnergyDeposit > 0.0
    && s.preStepPoint.volume.Some?
    && s.preStepPoint.volume.value == ScoredVolume
  }

  /** What a step does to the cells: one `AddEnergy` with the position in mm and the deposit in keV. */
  function StepEffect(g: Geometry, cells: seq<real>, s: Step): (r: seq<real>)
    requires NonZeroPitch(g) && |cells| == CellCount(g)
    ensures |r| == |cells|
    ensures !Forwards(s) ==> r == cells
  {
    if Forwards(s) then
      var p := s.preStepPoint.position;
      Deposit(g, cells, p.x / Mm, p.y / Mm, p.z / Mm, s.totalEnergyDeposit / KeV)
    else cells
  }

  /** The deposit in keV that a step adds to the grid total: 0 unless it is forwarded and binned. */
  function ScoredEnergy(g: Geometry, s: Step): real
    requires NonZeroPitch(g)
  {
    var p := s.preStepPoint.position;
    if Forwards(s) && Bin(g, p.x / Mm, p.y / Mm, p.z / Mm).Some? then s.totalEnergyDeposit / KeV else 0.0
  }

  /** A step that is not forwarded never changes the grid, and a forwarded one changes its total by its scored energy. */
  lemma StepEffectTotal(g: Geometry, cells: seq<real>, s: Step)
    requires NonZeroPitch(g) && |cells| == CellCount(g)
    ensures Sum(StepEffect(g, cells, s)) == Sum(cells) + ScoredEnergy(g, s)
    ensures s.totalEnergyDeposit <= 0.0 ==> StepEffect(g, cells, s) == cells
  {
    if Forwards(s) {
      var p := s.preStepPoint.position;
      DepositTotal(g, cells, p.x / Mm, p.y / Mm, p.z / Mm, s.totalEnergyDeposit / KeV);
    }
  }

  /** With the geometry as built, every step lies in `DragonPV` or in no volume, so nothing is scored. */
  lemma PlacedVolumeNeverScored(g: Geometry, cells: seq<real>, s: Step)
    requires NonZeroPitch(g) && |cells| == CellCount(g)
    requires s.preStepPoint.volume == Some(PlacedVolume) || s.preStepPoint.volume == None
    ensures StepEffect(g, cells, s) == cells
  {
    assert PlacedVolume[0] != ScoredVolume[0];
  }

  /**
   * `SteppingAction`. The per-thread CSV stream `file_` is never opened (the constructor's body is
   * commented out), so its rows stay empty; they are kept to show that branch is inert.
   */
  class SteppingAction {
    var fileOpen: bool
    var csvRows: seq<string>

    constructor (outputDir: string)
      ensures !fileOpen && csvRows == []
    {
      fileOpen := false;
      csvRows := [];
    }

    /** `UserSteppingAction`: the early-return guards, the inert CSV row and one `AddEnergy`. */
    method UserSteppingAction(step: Step, grid: DoseVoxelGrid, fmt: real -> string)
      requires grid.Valid() && NonZeroPitch(grid.Geom())
      modifies grid`grid, this`csvRows
      ensures grid.grid == StepEffect(grid.Geom(), old(grid.grid), step)
      ensures grid.Valid()
      ensures !fileOpen ==> csvRows == old(csvRows)
    {
      var edep := step.totalEnergyDeposit;
      if edep <= 0.0 {
        return;
      }
      var pre := step.preStepPoint;
      if pre.volume.None? {
        return;
      }
      if pre.volume.value != ScoredVolume {
        return;
      }
      var pos := pre.position;
      if fileOpen {
        csvRows := csvRows + [JoinWith(",", [fmt(pos.x / Mm), fmt(pos.y / Mm), fmt(pos.z / Mm), fmt(edep / KeV)])];
      }
      grid.AddEnergy(pos.x / Mm, pos.y / Mm, pos.z / Mm, edep / KeV);
    }
  }

  // ---------------------------------------------------------------------------------------------
  // Begin of run: the grid geometry

  /** `min = -half`, `pitch = 2 * half / N` on every axis. */
  function RunGeometry(v: VoxelGridConfig): Geometry
    requires v.nx >= 1 && v.ny >= 1 && v.nz >= 1
  {
    var h := v.halfSizeMm;
    Geometry(v.nx, v.ny, v.nz, -h, -h, -h, 2.0 * h / v.nx as real, 2.0 * h / v.ny as real, 2.0 * h / v.nz as real)
  }

  lemma PitchTimesCount(h: real, n: int)
    requires n >= 1
    ensures (2.0 * h / n as real) * n as real == 2.0 * h
  {
  }

  /** N pitches from `-half` end at `+half`, and the pitch is zero exactly for a zero half-size. */
  lemma AxisSpansCube(h: real, n: int)
    requires n >= 1
    ensures -h + n as real * (2.0 * h / n as real) == h
    ensures (2.0 * h / n as real == 0.0) <==> h == 0.0
  {
    PitchTimesCount(h, n);
  }

  /** On one axis of a positive half-size, every coordinate in [-half, +half) lands in a cell in [0, N). */
  lemma AxisCovers(c: real, h: real, n: int)
    requires n >= 1 && h > 0.0 && -h <= c < h
    ensures 2.0 * h / n as real > 0.0
    ensures 0 <= AxisIndex(c, -h, 2.0 * h / n as real) < n
  {
    var p := 2.0 * h / n as real;
    QuotientAbove(2.0 * h, n as real, 0.0);
    PitchTimesCount(h, n);
    QuotientAtLeast(c - -h, p, 0.0);
    QuotientBelow(c - -h, p, n as real);
  }

  /** The run grid spans the cube [-half, +half] on every axis, and every point inside it is binned. */
  lemma RunGeometryCoversCube(v: VoxelGridConfig, x: real, y: real, z: real)
    requires v.nx >= 1 && v.ny >= 1 && v.nz >= 1 && v.halfSizeMm > 0.0
    requires -v.halfSizeMm <= x < v.halfSizeMm && -v.halfSizeMm <= y < v.halfSizeMm && -v.halfSizeMm <= z < v.halfSizeMm
    ensures NonZeroPitch(RunGeometry(v))
    ensures Bin(RunGeometry(v), x, y, z).Some?
  {
    AxisCovers(x, v.halfSizeMm, v.nx);
    AxisCovers(y, v.halfSizeMm, v.ny);
    AxisCovers(z, v.halfSizeMm, v.nz);
  }

  // ---------------------------------------------------------------------------------------------
  // End of run: metadata and output path

  /**
   * The six metadata pairs, in order. `toStr` is `std::to_string` on a double; the event count
   * is a decimal integer.
   */
  function RunMetadata(cfg: Config, numberOfEvent: int, toStr: real -> string): (meta: Metadata)
    ensures |meta| == 6
    ensures meta[0] == ("material_formula", cfg.obj.material.formula)
    ensures meta[1] == ("material_density_g_cm3", toStr(cfg.obj.material.densityGCm3))
    ensures meta[2] == ("beam_mono_energy_keV", toStr(cfg.beam.monoEnergyKeV))
    ensures meta[3] == ("beam_photon_flux_per_s", toStr(cfg.beam.photonFluxPerS))
    ensures meta[4] == ("beam_exposure_time_s", toStr(cfg.beam.exposureTimeS))
    ensures meta[5].0 == "simulated_events" && IsWord(meta[5].1)
  {
    [ ("material_formula", cfg.obj.material.formula),
      ("material_density_g_cm3", toStr(cfg.obj.material.densityGCm3)),
      ("beam_mono_energy_keV", toStr(cfg.beam.monoEnergyKeV)),
      ("beam_photon_flux_per_s", toStr(cfg.beam.photonFluxPerS)),
      ("beam_exposure_time_s", toStr(cfg.beam.exposureTimeS)),
      ("simulated_events", IntToString(numberOfEvent)) ]
  }

  /** A reader parsing `simulated_events` gets back this run's event count. */
  lemma SimulatedEventsRoundTrip(cfg: Config, numberOfEvent: int, toStr: real -> string)
    ensures ParseInt(RunMetadata(cfg, numberOfEvent, toStr)[5].1) == Some(numberOfEvent)
  {
    ParseIntRoundTrip(numberOfEvent);
  }

  /** `std::filesystem::path(dir) / name` for a relative file name without a root. */
  function JoinPath(dir: string, name: string): (p: string)
    ensures dir == "" ==> p == name
    ensures dir != "" ==> |p| == |dir| + |name| + (if dir[|dir| - 1] == '/' then 0 else 1)
    ensures dir != "" ==> p[..|dir|] == dir && p[|p| - |name|..] == name
    ensures forall k :: |dir| <= k < |p| - |name| ==> p[k] == '/'
  {
    if dir == "" then name
    else if dir[|dir| - 1] == '/' then dir + name
    else dir + "/" + name
  }

  const OutputName: string := "dose.vti"

  /**
   * The directory `Write` creates for `dir / name`: none for an empty `dir`, otherwise `dir`
   * without its trailing slashes (the root for an all-slash one).
   */
  lemma ParentOfJoinPath(dir: string, name: string)
    requires forall k :: 0 <= k < |name| ==> name[k] != '/'
    ensures dir == "" ==> ParentPath(JoinPath(dir, name)) == ""
    ensures dir != "" && !Paths.AllSlashes(dir) ==> ParentPath(JoinPath(dir, name)) == Paths.StripTrailingSlashes(dir)
    ensures dir != "" && Paths.AllSlashes(dir) ==> ParentPath(JoinPath(dir, name)) == "/"
  {
    if dir != "" {
      var a := if dir[|dir| - 1] == '/' then dir else dir + "/";
      assert JoinPath(dir, name) == a + name;
      assert a[..|dir|] == dir;
      assert Paths.AllSlashes(a) <==> Paths.AllSlashes(dir);
      ParentOfFileIn(a, name);
    }
  }

  /** The directory made for `output_dir / "dose.vti"`. */
  lemma OutputParent(dir: string)
    ensures dir == "" ==> ParentPath(JoinPath(dir, OutputName)) == ""
    ensures dir != "" && !Paths.AllSlashes(dir) ==> ParentPath(JoinPath(dir, OutputName)) == Paths.StripTrailingSlashes(dir)
    ensures dir != "" && Paths.AllSlashes(dir) ==> ParentPath(JoinPath(dir, OutputName)) == "/"
  {
    assert forall k :: 0 <= k < |OutputName| ==> OutputName[k] != '/';
    ParentOfJoinPath(dir, OutputName);
  }

  /** A doubled trailing separator is not part of the directory created. */
  lemma OutputParentOfDoubledSlash()
    ensures ParentPath(JoinPath("out//", OutputName)) == "out"
  {
    OutputParent("out//");
    assert Paths.StripTrailingSlashes("out//") == Paths.StripTrailingSlashes("out/") == "out";
  }

  /** `RunAction`: the copied configuration and whether this instance runs on the master thread. */
  class RunAction {
    const config: Config
    const isMaster: bool

    constructor (cfg: Config, isMaster: bool)
      ensures config == cfg && this.isMaster == isMaster
    {
      config := cfg;
      this.isMaster := isMaster;
    }

    /** `BeginOfRunAction`: re-initialise the grid over [-half, +half]^3, discarding every earlier deposit. */
    method BeginOfRunAction(grid: DoseVoxelGrid)
      requires config.voxelGrid.nx >= 1 && config.voxelGrid.ny >= 1 && config.voxelGrid.nz >= 1
      requires InInt32(config.voxelGrid.nx * config.voxelGrid.ny * config.voxelGrid.nz)
      modifies grid
      ensures grid.Geom() == RunGeometry(config.voxelGrid)
      ensures grid.grid == Zeroes(CellCount(RunGeometry(config.voxelGrid)))
      ensures grid.Valid()
    {
      var nx, ny, nz := config.voxelGrid.nx, config.voxelGrid.ny, config.voxelGrid.nz;
      var half := config.voxelGrid.halfSizeMm;
      var xmin, ymin, zmin := -half, -half, -half;
      var dx := (2.0 * half) / nx as real;
      var dy := (2.0 * half) / ny as real;
      var dz := (2.0 * half) / nz as real;
      grid.Initialize(nx, ny, nz, xmin, ymin, zmin, dx, dy, dz);
    }

    /**
     * `EndOfRunAction`: worker threads return at once; the master writes `output_dir/dose.vti`
     * from the grid's own geometry and data with this run's metadata, whatever chunk it is.
     */
    method EndOfRunAction(numberOfEvent: int, grid: DoseVoxelGrid, fs: FileSystem,
                          toStr: real -> string, fmt: real -> string)
      modifies fs
      ensures !isMaster ==> fs.files == old(fs.files) && fs.diagnostics == old(fs.diagnostics)
      ensures var path := JoinPath(config.outputDir, OutputName);
        isMaster && path !in fs.unopenable ==>
          fs.files == old(fs.files)[path := Unlines(VtiLines(grid.grid, grid.NX, grid.NY, grid.NZ,
            grid.xmin, grid.ymin, grid.zmin, grid.dx, grid.dy, grid.dz,
            RunMetadata(config, numberOfEvent, toStr), fmt))]
      ensures isMaster && JoinPath(config.outputDir, OutputName) in fs.unopenable ==> fs.files == old(fs.files)
    {
      if !isMaster {
        return;
      }
      var meta: Metadata := [];
      meta := meta + [("material_formula", config.obj.material.formula)];
      meta := meta + [("material_density_g_cm3", toStr(config.obj.material.densityGCm3))];
      meta := meta + [("beam_mono_energy_keV", toStr(config.beam.monoEnergyKeV))];
      meta := meta + [("beam_photon_flux_per_s", toStr(config.beam.photonFluxPerS))];
      meta := meta + [("beam_exposure_time_s", toStr(config.beam.exposureTimeS))];
      meta := meta + [("simulated_events", IntToString(numberOfEvent))];
      assert meta == RunMetadata(config, numberOfEvent, toStr);
      var outPath := JoinPath(config.outputDir, OutputName);
      fs.Write(outPath, grid.Data(), grid.NX, grid.NY, grid.NZ, grid.xmin, grid.ymin, grid.zmin,
               grid.dx, grid.dy, grid.dz, meta, fmt);
    }
  }
}
