/**
 * The run path of `src/main.cc`: the command-line loop, the target-event resolution, the
 * `G4int`-bounded chunk cap and the chunked `BeamOn` loop. The engine calls `BeamOn`,
 * `SetEventOffset` and `SetIsFinalChunk` are modelled by `Published`, which records every
 * invocation together with the offset and final flag published just before it.
 */
module RunController {
  import opened Wrappers
  import opened Machine

  // ---------------------------------------------------------------------------------------------
  // Command line

  /** What the argument loop collects: `cliEvents`, `cliConfig` and `positionals`. */
  datatype Options = Options(events: Option<int>, setup: Option<string>, positionals: seq<string>)

  const NoOptions: Options := Options(None, None, [])

  /** The loop either runs to the end or returns from `main` with an exit code. */
  datatype ArgScan = Scanned(opts: Options) | Exit(code: int)

  predicate IsOptionLike(arg: string) {
    |arg| > 0 && arg[0] == '-'
  }

  predicate IsKnownOption(arg: string) {
    arg == "--setup" || arg == "--events" || arg == "--help"
  }

  /**
   * The argument loop as a function of the arguments not read yet. `toInt` is `strtoll(s, nullptr, 10)`.
   * A flag with no following argument is skipped; the value after a flag is taken whatever it is.
   */
  function Scan(rest: seq<string>, o: Options, toInt: string -> int): (r: ArgScan)
    ensures r.Exit? ==> r.code == 0 || r.code == 1
    ensures r.Scanned? ==> o.positionals <= r.opts.positionals && |r.opts.positionals| <= |o.positionals| + |rest|
    decreases |rest|
  {
    if rest == [] then Scanned(o)
    else
      var arg := rest[0];
      if arg == "--setup" then
        if |rest| > 1 then Scan(rest[2..], o.(setup := Some(rest[1])), toInt) else Scan(rest[1..], o, toInt)
      else if arg == "--events" then
        if |rest| > 1 then Scan(rest[2..], o.(events := Some(toInt(rest[1]))), toInt) else Scan(rest[1..], o, toInt)
      else if arg == "--help" then Exit(0)
      else if IsOptionLike(arg) then Exit(1)
      else Scan(rest[1..], o.(positionals := o.positionals + [arg]), toInt)
  }

  /** The `for` loop over `argv[1..]` (`args` excludes the program name). */
  method ParseArgs(args: seq<string>, toInt: string -> int) returns (r: ArgScan)
    ensures r == Scan(args, NoOptions, toInt)
  {
    var cliEvents: Option<int> := None;
    var cliConfig: Option<string> := None;
    var positionals: seq<string> := [];
    var i := 0;
    while i < |args|
      invariant 0 <= i <= |args|
      invariant Scan(args[i..], Options(cliEvents, cliConfig, positionals), toInt) == Scan(args, NoOptions, toInt)
      decreases |args| - i
    {
      var arg := args[i];
      if arg == "--setup" {
        if i + 1 < |args| {
          assert args[i..][2..] == args[i + 2..];
          i := i + 1;
          cliConfig := Some(args[i]);
        }
        i := i + 1;
        continue;
      }
      if arg == "--events" {
        if i + 1 < |args| {
          assert args[i..][2..] == args[i + 2..];
          i := i + 1;
          cliEvents := Some(toInt(args[i]));
        }
        i := i + 1;
        continue;
      }
      if arg == "--help" {
        return Exit(0);
      }
      if IsOptionLike(arg) {
        return Exit(1);
      }
      positionals := positionals + [arg];
      i := i + 1;
    }
    assert args[i..] == [];
    r := Scanned(Options(cliEvents, cliConfig, positionals));
  }

  /** The event count and configuration path the run will use, if given at all. */
  datatype Request = Request(events: Option<int>, config: Option<string>)

  /** Positionals fill only what the flags left unset: the first is the count, the second the path. */
  function Resolve(o: Options, toInt: string -> int): (r: Request)
    ensures o.events.Some? ==> r.events == o.events
    ensures o.setup.Some? ==> r.config == o.setup
    ensures o.events.None? ==> r.events == (if |o.positionals| > 0 then Some(toInt(o.positionals[0])) else None)
    ensures o.setup.None? ==> r.config == (if |o.positionals| > 1 then Some(o.positionals[1]) else None)
  {
    var config := if o.setup.None? && |o.positionals| > 1 then Some(o.positionals[1]) else o.setup;
    var events := if o.events.None? && |o.positionals| > 0 then Some(toInt(o.positionals[0])) else o.events;
    Request(events, config)
  }

  /** `main` returns early only for `--help` (0) or an unrecognised argument beginning with '-' (1). */
  lemma {:induction false} ExitOnlyForHelpOrUnknown(rest: seq<string>, o: Options, toInt: string -> int)
    ensures Scan(rest, o, toInt).Exit? ==>
      (Scan(rest, o, toInt).code == 0 && "--help" in rest) ||
      (Scan(rest, o, toInt).code == 1 && exists a :: a in rest && IsOptionLike(a) && !IsKnownOption(a))
    decreases |rest|
  {
    if rest != [] {
      var arg := rest[0];
      if arg == "--setup" || arg == "--events" {
        var next := if |rest| > 1 then rest[2..] else rest[1..];
        var o' := if arg == "--setup" && |rest| > 1 then o.(setup := Some(rest[1]))
                  else if |rest| > 1 then o.(events := Some(toInt(rest[1]))) else o;
        assert Scan(rest, o, toInt) == Scan(next, o', toInt);
        ExitOnlyForHelpOrUnknown(next, o', toInt);
        if Scan(next, o', toInt).Exit? && Scan(next, o', toInt).code == 1 {
          var a :| a in next && IsOptionLike(a) && !IsKnownOption(a);
          assert a in rest;
        }
      } else if arg != "--help" && !IsOptionLike(arg) {
        ExitOnlyForHelpOrUnknown(rest[1..], o.(positionals := o.positionals + [arg]), toInt);
        if Scan(rest, o, toInt).Exit? && Scan(rest, o, toInt).code == 1 {
          var a :| a in rest[1..] && IsOptionLike(a) && !IsKnownOption(a);
          assert a in rest;
        }
      }
    }
  }

  /** Arguments that do not begin with '-' are all collected as positionals, in order. */
  lemma {:induction false} PlainArgumentsArePositional(rest: seq<string>, o: Options, toInt: string -> int)
    requires forall i :: 0 <= i < |rest| ==> !IsOptionLike(rest[i])
    ensures Scan(rest, o, toInt) == Scanned(o.(positionals := o.positionals + rest))
    decreases |rest|
  {
    if rest == [] {
      assert o.positionals + rest == o.positionals;
    } else {
      assert rest[0] != "--setup" && rest[0] != "--events" && rest[0] != "--help";
      PlainArgumentsArePositional(rest[1..], o.(positionals := o.positionals + [rest[0]]), toInt);
      assert o.positionals + [rest[0]] + rest[1..] == o.positionals + rest;
    }
  }

  /** Without flags, the first positional is the count and the second the configuration path. */
  lemma PositionalsFillMissing(args: seq<string>, toInt: string -> int)
    requires forall i :: 0 <= i < |args| ==> !IsOptionLike(args[i])
    ensures Scan(args, NoOptions, toInt).Scanned?
    ensures Resolve(Scan(args, NoOptions, toInt).opts, toInt) ==
      Request(if |args| > 0 then Some(toInt(args[0])) else None, if |args| > 1 then Some(args[1]) else None)
  {
    PlainArgumentsArePositional(args, NoOptions, toInt);
    assert [] + args == args;
  }

  /**
   * `--events N` and `--setup P` win over positionals. With only `--events N` given, the count
   * positional is ignored but the second positional still becomes the configuration path.
   */
  lemma FlagsTakePrecedence(n: string, p: string, pos: seq<string>, toInt: string -> int)
    requires forall i :: 0 <= i < |pos| ==> !IsOptionLike(pos[i])
    ensures Scan(["--events", n, "--setup", p] + pos, NoOptions, toInt).Scanned?
    ensures Resolve(Scan(["--events", n, "--setup", p] + pos, NoOptions, toInt).opts, toInt) ==
      Request(Some(toInt(n)), Some(p))
    ensures Scan(["--events", n] + pos, NoOptions, toInt).Scanned?
    ensures Resolve(Scan(["--events", n] + pos, NoOptions, toInt).opts, toInt) ==
      Request(Some(toInt(n)), if |pos| > 1 then Some(pos[1]) else None)
  {
    BothFlags(n, p, pos, toInt);
    EventsFlagOnly(n, pos, toInt);
  }

  lemma EventsStep(rest: seq<string>, o: Options, toInt: string -> int)
    requires |rest| > 1 && rest[0] == "--events"
    ensures Scan(rest, o, toInt) == Scan(rest[2..], o.(events := Some(toInt(rest[1]))), toInt)
  {
    assert "--events" != "--setup";
  }

  lemma SetupStep(rest: seq<string>, o: Options, toInt: string -> int)
    requires |rest| > 1 && rest[0] == "--setup"
    ensures Scan(rest, o, toInt) == Scan(rest[2..], o.(setup := Some(rest[1])), toInt)
  {
  }

  lemma BothFlags(n: string, p: string, pos: seq<string>, toInt: string -> int)
    requires forall i :: 0 <= i < |pos| ==> !IsOptionLike(pos[i])
    ensures Scan(["--events", n, "--setup", p] + pos, NoOptions, toInt) ==
      Scanned(Options(Some(toInt(n)), Some(p), pos))
  {
    var both := ["--events", n, "--setup", p] + pos;
    assert both[0] == "--events" && both[1] == n && both[2] == "--setup" && both[3] == p && both[4..] == pos;
    EventsThenSetup(both, toInt);
  }

  lemma EventsThenSetup(args: seq<string>, toInt: string -> int)
    requires |args| >= 4 && args[0] == "--events" && args[2] == "--setup"
    requires forall i :: 4 <= i < |args| ==> !IsOptionLike(args[i])
    ensures Scan(args, NoOptions, toInt) == Scanned(Options(Some(toInt(args[1])), Some(args[3]), args[4..]))
  {
    EventsStep(args, NoOptions, toInt);
    var second := args[2..];
    assert second[2..] == args[4..];
    SetupStep(second, Options(Some(toInt(args[1])), None, []), toInt);
    PlainArgumentsArePositional(args[4..], Options(Some(toInt(args[1])), Some(args[3]), []), toInt);
  }

  lemma EventsFlagOnly(n: string, pos: seq<string>, toInt: string -> int)
    requires forall i :: 0 <= i < |pos| ==> !IsOptionLike(pos[i])
    ensures Scan(["--events", n] + pos, NoOptions, toInt) == Scanned(Options(Some(toInt(n)), None, pos))
  {
    var one := ["--events", n] + pos;
    assert one[0] == "--events" && one[1] == n && one[2..] == pos;
    EventsThenPlain(one, toInt);
  }

  lemma EventsThenPlain(args: seq<string>, toInt: string -> int)
    requires |args| >= 2 && args[0] == "--events"
    requires forall i :: 2 <= i < |args| ==> !IsOptionLike(args[i])
    ensures Scan(args, NoOptions, toInt) == Scanned(Options(Some(toInt(args[1])), None, args[2..]))
  {
    EventsStep(args, NoOptions, toInt);
    PlainArgumentsArePositional(args[2..], Options(Some(toInt(args[1])), None, []), toInt);
  }

  /** A trailing flag with no value is skipped, and the value after `--setup` may itself begin with '-'. */
  lemma FlagValueHandling(v: string, toInt: string -> int)
    ensures Scan(["--events"], NoOptions, toInt) == Scanned(NoOptions)
    ensures Scan(["--setup"], NoOptions, toInt) == Scanned(NoOptions)
    ensures Scan(["--setup", v], NoOptions, toInt) == Scanned(NoOptions.(setup := Some(v)))
  {
    assert ["--setup", v][2..] == [];
  }

  // ---------------------------------------------------------------------------------------------
  // Target event count and chunk cap

  /**
   * `targetEvents`: the command-line count if there is one, otherwise the rounded photon budget
   * of the configuration (`std::llround(totalPhotons)`, given here as `suggested`) when positive;
   * a negative result becomes 0.
   */
  function TargetEvents(cliEvents: Option<int>, suggested: int): (t: int)
    ensures t >= 0
    ensures cliEvents.Some? ==> t == Max(cliEvents.value, 0)
    ensures cliEvents.None? ==> t == (if suggested > 0 then suggested else 0)
  {
    var t := if cliEvents.Some? then cliEvents.value else if suggested > 0 then suggested else 0;
    if t < 0 then 0 else t
  }

  /**
   * `chunkSize`: the smallest of the caps that apply, namely the `G4int` maximum, a positive
   * `G4_CHUNK_EVENTS` value (`envRequested`: unset is `None`, a set value is its `strtoll`), and a
   * positive target.
   */
  function ChunkCap(envRequested: Option<int>, target: int): (c: int)
    ensures 1 <= c <= Int32Max
    ensures envRequested.Some? && envRequested.value > 0 ==> c <= envRequested.value
    ensures target > 0 ==> c <= target
    ensures c == Int32Max || (envRequested.Some? && envRequested.value > 0 && c == envRequested.value) ||
            (target > 0 && c == target)
  {
    var c := if envRequested.Some? && envRequested.value > 0 then Min(envRequested.value, Int32Max) else Int32Max;
    if target > 0 && c > target then target else c
  }

  // ---------------------------------------------------------------------------------------------
  // Chunk plan

  /** One `BeamOn(size)` with the offset and final flag published just before it. */
  datatype Invocation = Invocation(offset: int, size: int, isFinal: bool)

  /** The invocations the loop issues from `offset` on. */
  function PlanFrom(target: int, cap: int, offset: int): (r: seq<Invocation>)
    requires cap >= 1 && offset <= target
    ensures forall k :: 0 <= k < |r| ==> offset <= r[k].offset && 0 < r[k].size <= cap && r[k].offset + r[k].size <= target
    decreases target - offset
  {
    if offset >= target then []
    else
      var remaining := target - offset;
      var size := Min(cap, remaining);
      [Invocation(offset, size, remaining <= cap)] + PlanFrom(target, cap, offset + size)
  }

  /** Every invocation of a run: a single empty final one when there is nothing to do. */
  function Plan(target: int, cap: int): (r: seq<Invocation>)
    requires cap >= 1
    ensures |r| >= 1 && r[|r| - 1].isFinal
    ensures forall k :: 0 <= k < |r| - 1 ==> !r[k].isFinal
    ensures TotalSize(r) == Max(target, 0)
  {
    if target <= 0 then [Invocation(0, 0, true)] else PlanFromCount(target, cap, 0); PlanFrom(target, cap, 0)
  }

  function TotalSize(inv: seq<Invocation>): int
    decreases |inv|
  {
    if inv == [] then 0 else inv[0].size + TotalSize(inv[1..])
  }

  /** Count, sum and final flag of the invocations issued from `offset` on. */
  lemma PlanFromCount(target: int, cap: int, offset: int)
    requires cap >= 1 && offset <= target
    ensures |PlanFrom(target, cap, offset)| * cap >= target - offset
    ensures |PlanFrom(target, cap, offset)| == 0 || (|PlanFrom(target, cap, offset)| - 1) * cap < target - offset
    ensures TotalSize(PlanFrom(target, cap, offset)) == target - offset
    ensures forall k :: 0 <= k < |PlanFrom(target, cap, offset)| ==>
      (PlanFrom(target, cap, offset)[k].isFinal <==> k == |PlanFrom(target, cap, offset)| - 1)
  {
    PlanFromLength(target, cap, offset);
    PlanFromTotal(target, cap, offset);
    PlanFromFinal(target, cap, offset);
  }

  /** The first invocation from `offset` and the ones after it. */
  lemma PlanFromStep(target: int, cap: int, offset: int)
    requires cap >= 1 && offset < target
    ensures var size := Min(cap, target - offset);
      && PlanFrom(target, cap, offset) == [Invocation(offset, size, target - offset <= cap)] + PlanFrom(target, cap, offset + size)
      && (PlanFrom(target, cap, offset + size) == [] <==> target - offset <= cap)
  {
  }

  /** ceil((target - offset) / cap) invocations. */
  lemma {:induction false} PlanFromLength(target: int, cap: int, offset: int)
    requires cap >= 1 && offset <= target
    ensures |PlanFrom(target, cap, offset)| * cap >= target - offset
    ensures |PlanFrom(target, cap, offset)| == 0 || (|PlanFrom(target, cap, offset)| - 1) * cap < target - offset
    decreases target - offset
  {
    if offset < target {
      var size := Min(cap, target - offset);
      PlanFromStep(target, cap, offset);
      PlanFromLength(target, cap, offset + size);
      var n := |PlanFrom(target, cap, offset + size)|;
      assert |PlanFrom(target, cap, offset)| == n + 1;
      assert (n + 1) * cap == n * cap + cap;
    }
  }

  /** The sizes add up to what is left of the target. */
  lemma {:induction false} PlanFromTotal(target: int, cap: int, offset: int)
    requires cap >= 1 && offset <= target
    ensures TotalSize(PlanFrom(target, cap, offset)) == target - offset
    decreases target - offset
  {
    if offset < target {
      var size := Min(cap, target - offset);
      var p := PlanFrom(target, cap, offset);
      PlanFromStep(target, cap, offset);
      PlanFromTotal(target, cap, offset + size);
      assert p[1..] == PlanFrom(target, cap, offset + size);
    }
  }

  /** Only the last invocation from `offset` is final. */
  lemma {:induction false} PlanFromFinal(target: int, cap: int, offset: int)
    requires cap >= 1 && offset <= target
    ensures forall k :: 0 <= k < |PlanFrom(target, cap, offset)| ==>
      (PlanFrom(target, cap, offset)[k].isFinal <==> k == |PlanFrom(target, cap, offset)| - 1)
    decreases target - offset
  {
    if offset < target {
      var size := Min(cap, target - offset);
      var p, rest := PlanFrom(target, cap, offset), PlanFrom(target, cap, offset + size);
      PlanFromStep(target, cap, offset);
      PlanFromFinal(target, cap, offset + size);
      forall k | 0 <= k < |p|
        ensures p[k].isFinal <==> k == |p| - 1
      {
        if k > 0 {
          assert p[k] == rest[k - 1];
        }
      }
    }
  }

  /**
   * An invocation starting at `start`: at most one chunk, the rest of the target when that is
   * smaller, never empty, and final exactly when it reaches the target.
   */
  predicate ChunkAt(e: Invocation, target: int, cap: int, start: int) {
    && e.offset == start
    && e.size == Min(cap, target - start)
    && 0 < e.size <= cap
    && (e.isFinal <==> e.offset + e.size == target)
  }

  /** The k-th invocation from `offset` starts k full chunks later and is never empty. */
  lemma {:induction false} PlanFromEntry(target: int, cap: int, offset: int, k: nat)
    requires cap >= 1 && offset <= target
    requires k < |PlanFrom(target, cap, offset)|
    ensures ChunkAt(PlanFrom(target, cap, offset)[k], target, cap, offset + k * cap)
    decreases k
  {
    var size := Min(cap, target - offset);
    PlanFromStep(target, cap, offset);
    if k > 0 {
      var rest := PlanFrom(target, cap, offset + size);
      assert PlanFrom(target, cap, offset)[k] == rest[k - 1];
      assert size == cap;
      PlanFromEntry(target, cap, offset + size, k - 1);
      assert offset + size + (k - 1) * cap == offset + k * cap;
    }
  }

  /**
   * The chunk plan of a positive target: ceil(target / cap) invocations (the fewest whose full
   * chunks reach the target), the k-th at offset k * cap
   * of size min(cap, remaining) > 0, sizes summing to the target, and the final flag set on the last
   * invocation only, which is the one that reaches the target.
   */
  lemma PlanCovers(target: int, cap: int)
    requires cap >= 1 && target > 0
    ensures |Plan(target, cap)| * cap >= target && (|Plan(target, cap)| - 1) * cap < target
    ensures TotalSize(Plan(target, cap)) == target
    ensures forall k :: 0 <= k < |Plan(target, cap)| ==>
      && Plan(target, cap)[k].offset == k * cap
      && Plan(target, cap)[k].size == Min(cap, target - k * cap)
      && 0 < Plan(target, cap)[k].size <= cap
      && (Plan(target, cap)[k].isFinal <==> k == |Plan(target, cap)| - 1)
      && (Plan(target, cap)[k].isFinal <==> Plan(target, cap)[k].offset + Plan(target, cap)[k].size == target)
  {
    PlanFromCount(target, cap, 0);
    forall k | 0 <= k < |Plan(target, cap)|
      ensures Plan(target, cap)[k].offset == k * cap
      ensures Plan(target, cap)[k].size == Min(cap, target - k * cap)
      ensures 0 < Plan(target, cap)[k].size <= cap
      ensures Plan(target, cap)[k].isFinal <==> Plan(target, cap)[k].offset + Plan(target, cap)[k].size == target
    {
      PlanFromEntry(target, cap, 0, k);
    }
  }

  /** Nothing to do still issues exactly one invocation: size 0, offset 0, marked final. */
  lemma EmptyTargetPlan(target: int, cap: int)
    requires cap >= 1 && target <= 0
    ensures Plan(target, cap) == [Invocation(0, 0, true)]
  {
  }

  /** 250 events in chunks of at most 100: sizes 100, 100, 50 at offsets 0, 100, 200; only the last final. */
  lemma PlanExample()
    ensures Plan(250, 100) == [Invocation(0, 100, false), Invocation(100, 100, false), Invocation(200, 50, true)]
  {
    assert PlanFrom(250, 100, 250) == [];
    assert PlanFrom(250, 100, 200) == [Invocation(200, 50, true)];
    assert PlanFrom(250, 100, 100) == [Invocation(100, 100, false), Invocation(200, 50, true)];
  }

  /** `static_cast<G4int>(std::min(chunkSize, remaining))` keeps its value because the cap fits a `G4int`. */
  lemma ChunkNarrowingIsLossless(cap: int, remaining: int)
    requires 1 <= cap <= Int32Max && remaining >= 1
    ensures ToInt32(Min(cap, remaining)) == Min(cap, remaining)
  {
  }

  // ---------------------------------------------------------------------------------------------
  // Published state and the dispatch loop

  /** The state `main` publishes for the engine, and the `BeamOn` calls it made, in order. */
  class Published {
    var eventOffset: int
    var isFinalChunk: bool
    var beamOns: seq<Invocation>

    constructor ()
      ensures eventOffset == 0 && !isFinalChunk && beamOns == []
    {
      eventOffset := 0;
      isFinalChunk := false;
      beamOns := [];
    }

    /** `RunAction::SetIsFinalChunk` */
    method SetIsFinalChunk(b: bool)
      modifies this`isFinalChunk
      ensures isFinalChunk == b
    {
      isFinalChunk := b;
    }

    /** `PrimaryGeneratorAction::SetEventOffset` */
    method SetEventOffset(offset: int)
      modifies this`eventOffset
      ensures eventOffset == offset
    {
      eventOffset := offset;
    }

    /** `runManager->BeamOn(n)`, recorded with the state published for it. */
    method BeamOn(n: int)
      modifies this`beamOns
      ensures beamOns == old(beamOns) + [Invocation(eventOffset, n, isFinalChunk)]
    {
      beamOns := beamOns + [Invocation(eventOffset, n, isFinalChunk)];
    }
  }

  /** The dispatch of `main` (the `if`/`while` after `runManager->Initialize()`). */
  lemma AppendShift<T>(a: seq<T>, x: T, r: seq<T>)
    ensures (a + [x]) + r == a + ([x] + r)
  {
  }

  method Dispatch(p: Published, targetEvents: int, chunkSize: int)
    requires 1 <= chunkSize <= Int32Max
    modifies p
    ensures p.beamOns == old(p.beamOns) + Plan(targetEvents, chunkSize)
  {
    var eventOffset := 0;
    if targetEvents <= 0 {
      p.SetIsFinalChunk(true);
      p.SetEventOffset(0);
      p.BeamOn(0);
    } else {
      var chunkIndex := 0;
      while eventOffset < targetEvents
        invariant 0 <= eventOffset <= targetEvents
        invariant chunkIndex == |p.beamOns| - |old(p.beamOns)|
        invariant p.beamOns + PlanFrom(targetEvents, chunkSize, eventOffset) ==
                  old(p.beamOns) + PlanFrom(targetEvents, chunkSize, 0)
        decreases targetEvents - eventOffset
      {
        var remaining := targetEvents - eventOffset;
        ghost var before := p.beamOns;
        ghost var entry := Invocation(eventOffset, Min(chunkSize, remaining), remaining <= chunkSize);
        ghost var rest := PlanFrom(targetEvents, chunkSize, eventOffset + Min(chunkSize, remaining));
        PlanFromStep(targetEvents, chunkSize, eventOffset);
        var thisChunk := ToInt32(Min(chunkSize, remaining));
        p.SetIsFinalChunk(remaining <= chunkSize);
        p.SetEventOffset(eventOffset);
        p.BeamOn(thisChunk);
        assert p.beamOns == before + [entry];
        AppendShift(before, entry, rest);
        eventOffset := eventOffset + thisChunk;
        chunkIndex := chunkIndex + 1;
      }
    }
  }

  /** What `main` hands on besides its exit code. */
  datatype Launch = Launch(configPath: string, totalEventsSetting: int)

  /**
   * `main` up to the end of the dispatch. `defaultConfig` is the path probed next to the executable;
   * `suggested(path)` is the rounded flux-times-exposure budget of the configuration at `path`;
   * `totalEventsSetting` is what `cfg.acquisition.total_events` (an `int`) receives.
   */
  method RunMain(args: seq<string>, toInt: string -> int, defaultConfig: string, suggested: string -> int,
                 envChunk: Option<int>, p: Published) returns (code: int, launch: Option<Launch>)
    modifies p
    ensures Scan(args, NoOptions, toInt).Exit? ==>
      code == Scan(args, NoOptions, toInt).code && launch == None && p.beamOns == old(p.beamOns)
    ensures Scan(args, NoOptions, toInt).Scanned? ==>
      var req := Resolve(Scan(args, NoOptions, toInt).opts, toInt);
      var path := if req.config.Some? then req.config.value else defaultConfig;
      var t := TargetEvents(req.events, suggested(path));
      && code == 0
      && launch == Some(Launch(path, ToInt32(t)))
      && p.beamOns == old(p.beamOns) + Plan(t, ChunkCap(envChunk, t))
  {
    var scan := ParseArgs(args, toInt);
    if scan.Exit? {
      return scan.code, None;
    }
    var req := Resolve(scan.opts, toInt);
    var configPath := if req.config.Some? then req.config.value else defaultConfig;
    var targetEvents := TargetEvents(req.events, suggested(configPath));
    var totalEventsSetting := ToInt32(targetEvents);
    var chunkSize := ChunkCap(envChunk, targetEvents);
    Dispatch(p, targetEvents, chunkSize);
    code := 0;
    launch := Some(Launch(configPath, totalEventsSetting));
  }
}
