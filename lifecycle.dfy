/**
 * One process run as the engine drives the user actions: every `BeamOn` of the chunk loop is one
 * Geant4 run, which calls `BeginOfRunAction`, then `UserSteppingAction` for every step of its
 * events, then `EndOfRunAction`. Each run therefore starts from a zeroed grid and rewrites
 * `dose.vti` with its own deposits and its own event count.
 */
module Lifecycle {
  import opened Wrappers
  import opened Machine
  import opened Text
  import opened SceneConfig
  import opened DoseGrid
  import opened Vti
  import opened RunActions
  import opened RunController

  /** The steps of a run's events, in event order. */
  function Flatten(events: seq<seq<Step>>): seq<Step>
    decreases |events|
  {
    if events == [] then [] else Flatten(events[..|events| - 1]) + events[|events| - 1]
  }

  /** The cells after every step of `steps` has gone through the stepping action, in order. */
  function Absorb(g: Geometry, cells: seq<real>, steps: seq<Step>): (r: seq<real>)
    requires NonZeroPitch(g) && |cells| == CellCount(g)
    ensures |r| == |cells|
    decreases |steps|
  {
    if steps == [] then cells
    else StepEffect(g, Absorb(g, cells, steps[..|steps| - 1]), steps[|steps| - 1])
  }

  /** The energy in keV the grid receives from `steps`: each forwarded, binned deposit once. */
  function ScoredTotal(g: Geometry, steps: seq<Step>): real
    requires NonZeroPitch(g)
    decreases |steps|
  {
    if steps == [] then 0.0 else ScoredTotal(g, steps[..|steps| - 1]) + ScoredEnergy(g, steps[|steps| - 1])
  }

  lemma {:induction false} AbsorbAppend(g: Geometry, cells: seq<real>, s: seq<Step>, t: seq<Step>)
    requires NonZeroPitch(g) && |cells| == CellCount(g)
    ensures Absorb(g, cells, s + t) == Absorb(g, Absorb(g, cells, s), t)
    decreases |t|
  {
    if t == [] {
      assert s + t == s;
    } else {
      assert (s + t)[..|s + t| - 1] == s + t[..|t| - 1];
      AbsorbAppend(g, cells, s, t[..|t| - 1]);
    }
  }

  /** The grid total after a run is exactly the scored energy of its steps. */
  lemma {:induction false} AbsorbTotal(g: Geometry, cells: seq<real>, steps: seq<Step>)
    requires NonZeroPitch(g) && |cells| == CellCount(g)
    ensures Sum(Absorb(g, cells, steps)) == Sum(cells) + ScoredTotal(g, steps)
    decreases |steps|
  {
    if steps != [] {
      var init := steps[..|steps| - 1];
      AbsorbTotal(g, cells, init);
      StepEffectTotal(g, Absorb(g, cells, init), steps[|steps| - 1]);
    }
  }

  /** A run whose steps all have a non-positive deposit leaves the grid as it found it. */
  lemma {:induction false} NoDepositNoChange(g: Geometry, cells: seq<real>, steps: seq<Step>)
    requires NonZeroPitch(g) && |cells| == CellCount(g)
    requires forall i :: 0 <= i < |steps| ==> steps[i].totalEnergyDeposit <= 0.0
    ensures Absorb(g, cells, steps) == cells
    decreases |steps|
  {
    if steps != [] {
      var init := steps[..|steps| - 1];
      NoDepositNoChange(g, cells, init);
      StepEffectTotal(g, cells, steps[|steps| - 1]);
    }
  }

  /** The configuration a run needs: positive voxel counts whose product fits an `int`, and a non-zero half-size. */
  predicate Runnable(cfg: Config) {
    var v := cfg.voxelGrid;
    && v.nx >= 1 && v.ny >= 1 && v.nz >= 1
    && InInt32(v.nx * v.ny * v.nz)
    && v.halfSizeMm != 0.0
  }

  lemma RunnablePitch(cfg: Config)
    requires Runnable(cfg)
    ensures NonZeroPitch(RunGeometry(cfg.voxelGrid))
  {
    var v := cfg.voxelGrid;
    AxisSpansCube(v.halfSizeMm, v.nx);
    AxisSpansCube(v.halfSizeMm, v.ny);
    AxisSpansCube(v.halfSizeMm, v.nz);
  }

  /** The cells a run leaves behind: its own steps absorbed into a zeroed grid. */
  function RunCells(cfg: Config, events: seq<seq<Step>>): (r: seq<real>)
    requires Runnable(cfg)
    ensures |r| == CellCount(RunGeometry(cfg.voxelGrid))
  {
    RunnablePitch(cfg);
    var g := RunGeometry(cfg.voxelGrid);
    Absorb(g, Zeroes(CellCount(g)), Flatten(events))
  }

  /** The `dose.vti` text a run's end writes. */
  function RunDocument(cfg: Config, events: seq<seq<Step>>, toStr: real -> string, fmt: real -> string): string
    requires Runnable(cfg)
  {
    var g := RunGeometry(cfg.voxelGrid);
    Unlines(VtiLines(RunCells(cfg, events), g.nx, g.ny, g.nz, g.xmin, g.ymin, g.zmin, g.dx, g.dy, g.dz,
                     RunMetadata(cfg, |events|, toStr), fmt))
  }

  /** The total dose written by a run is the scored energy of that run's steps alone. */
  lemma RunCellsTotal(cfg: Config, events: seq<seq<Step>>)
    requires Runnable(cfg)
    ensures NonZeroPitch(RunGeometry(cfg.voxelGrid))
    ensures Sum(RunCells(cfg, events)) == ScoredTotal(RunGeometry(cfg.voxelGrid), Flatten(events))
  {
    RunnablePitch(cfg);
    var g := RunGeometry(cfg.voxelGrid);
    AbsorbTotal(g, Zeroes(CellCount(g)), Flatten(events));
    SumZeroes(CellCount(g));
  }

  /** One `BeamOn`: begin of run, every step of every event, end of run with the run's event count. */
  method BeamOnRun(run: RunAction, stepping: SteppingAction, grid: DoseVoxelGrid, fs: FileSystem,
                   events: seq<seq<Step>>, toStr: real -> string, fmt: real -> string)
    requires Runnable(run.config)
    modifies grid, fs, stepping
    ensures grid.Geom() == RunGeometry(run.config.voxelGrid) && grid.Valid()
    ensures grid.grid == RunCells(run.config, events)
    ensures fs.files == FilesAfterRun(run.config, run.isMaster, fs.unopenable, old(fs.files), events, toStr, fmt)
  {
    RunnablePitch(run.config);
    run.BeginOfRunAction(grid);
    var g := grid.Geom();
    var steps := Flatten(events);
    var i := 0;
    while i < |steps|
      invariant 0 <= i <= |steps|
      invariant grid.Geom() == g && grid.Valid()
      invariant fs.files == old(fs.files) && fs.diagnostics == old(fs.diagnostics)
      invariant grid.grid == Absorb(g, Zeroes(CellCount(g)), steps[..i])
      decreases |steps| - i
    {
      assert steps[..i + 1][..i] == steps[..i];
      stepping.UserSteppingAction(steps[i], grid, fmt);
      i := i + 1;
    }
    assert steps[..i] == steps;
    run.EndOfRunAction(|events|, grid, fs, toStr, fmt);
  }

  /**
   * The chunk loop on the engine side: one run per chunk. Every run rezeroes the grid, so after
   * the last one the grid holds the last chunk's deposits only, and the master's `dose.vti` is
   * the last chunk's document, with the last chunk's event count.
   */
  method RunChunks(run: RunAction, stepping: SteppingAction, grid: DoseVoxelGrid, fs: FileSystem,
                   chunks: seq<seq<seq<Step>>>, toStr: real -> string, fmt: real -> string)
    requires Runnable(run.config) && |chunks| >= 1
    modifies grid, fs, stepping
    ensures grid.grid == RunCells(run.config, chunks[|chunks| - 1])
    ensures fs.files == FilesAfterRun(run.config, run.isMaster, fs.unopenable, old(fs.files), chunks[|chunks| - 1], toStr, fmt)
  {
    ghost var start := fs.files;
    BeamOnRun(run, stepping, grid, fs, chunks[0], toStr, fmt);
    var k := 1;
    while k < |chunks|
      invariant 1 <= k <= |chunks|
      invariant grid.grid == RunCells(run.config, chunks[k - 1])
      invariant fs.files == FilesAfterRun(run.config, run.isMaster, fs.unopenable, start, chunks[k - 1], toStr, fmt)
      decreases |chunks| - k
    {
      BeamOnRun(run, stepping, grid, fs, chunks[k], toStr, fmt);
      FilesAfterTwice(run.config, run.isMaster, fs.unopenable, start, chunks[k - 1], chunks[k], toStr, fmt);
      k := k + 1;
    }
    assert chunks[k - 1] == chunks[|chunks| - 1];
  }

  /** The files after one run: the master replaces `dose.vti` when it can open it, nothing else changes. */
  ghost function FilesAfterRun(cfg: Config, isMaster: bool, unopenable: set<string>, before: map<string, string>,
                               events: seq<seq<Step>>, toStr: real -> string, fmt: real -> string): map<string, string>
    requires Runnable(cfg)
  {
    var path := JoinPath(cfg.outputDir, OutputName);
    if isMaster && path !in unopenable then before[path := RunDocument(cfg, events, toStr, fmt)] else before
  }

  /** Writing a key twice keeps only the second value. */
  lemma OverwriteTwice<K, V>(m: map<K, V>, key: K, a: V, b: V)
    ensures m[key := a][key := b] == m[key := b]
  {
  }

  /** A second run overwrites whatever the first one wrote. */
  lemma FilesAfterTwice(cfg: Config, isMaster: bool, unopenable: set<string>, before: map<string, string>,
                        first: seq<seq<Step>>, second: seq<seq<Step>>, toStr: real -> string, fmt: real -> string)
    requires Runnable(cfg)
    ensures FilesAfterRun(cfg, isMaster, unopenable, FilesAfterRun(cfg, isMaster, unopenable, before, first, toStr, fmt), second, toStr, fmt)
         == FilesAfterRun(cfg, isMaster, unopenable, before, second, toStr, fmt)
  {
    var path := JoinPath(cfg.outputDir, OutputName);
    if isMaster && path !in unopenable {
      OverwriteTwice(before, path, RunDocument(cfg, first, toStr, fmt), RunDocument(cfg, second, toStr, fmt));
    }
  }

  /**
   * With the chunks of the plan, the run that writes last is the final chunk, of
   * `target - (n - 1) * cap` events; for a target above the cap that is fewer than the target,
   * so `simulated_events` never reports the overall target then.
   */
  lemma LastChunkIsReported(target: int, cap: int, cfg: Config, toStr: real -> string)
    requires cap >= 1 && target > cap
    ensures |Plan(target, cap)| >= 2
    ensures var last := Plan(target, cap)[|Plan(target, cap)| - 1];
      && last.isFinal
      && last.size == target - (|Plan(target, cap)| - 1) * cap
      && 0 < last.size < target
      && ParseInt(RunMetadata(cfg, last.size, toStr)[5].1) == Some(last.size)
  {
    PlanCovers(target, cap);
    var p := Plan(target, cap);
    var n := |p|;
    PlanFromEntry(target, cap, 0, n - 1);
    var last := p[n - 1];
    SimulatedEventsRoundTrip(cfg, last.size, toStr);
  }
}
