/** The executor of one run (`run_circleguard` in circleguard/gui.py):
    announce loading, count and load every replay, compare, push every
    comparison, finish. The engine, the cancellation latch and exceptions are
    abstract inputs:
    - the checks the engine built, each with its replays and its comparisons;
    - `cancelAt`, the index of the first cancellation checkpoint at which the
      latch is seen set (checkpoint k < n precedes the k-th load, checkpoint
      n + j precedes pushing the j-th comparison, n being the replay count);
    - `fail`, the place where an exception is raised, if any. */
module Executor {
  import opened Optional
  import opened Runs
  import opened Trace

  /** One engine check: the replays it loads and the comparisons its run
      yields, both in engine order. */
  datatype Check = Check(replays: seq<Replay>, results: seq<Comparison>)

  /** What the engine's check constructor returned: one check, or, for a
      screen run, a list of lists of checks. */
  datatype EngineChecks = Single(check: Check) | Nested(lists: seq<seq<Check>>)

  /** Where inside the guarded block an exception is raised. */
  datatype FailPoint =
    | Prepare            // engine options, engine, check construction or replay counting
    | NewSession         // the loader session or the loading message
    | LoadAt(index: nat) // the load of the index-th replay
    | CompareStart       // the comparing message
    | FetchAt(index: nat) // producing the index-th comparison; index = count: the stream raising at its end

  datatype Outcome = Completed | Canceled | Raised

  /** The events emitted inside the guarded block, and how the block ended. */
  datatype Segment = Segment(events: seq<Event>, outcome: Outcome)

  /** The checks in processing order, or `None` when the engine's answer
      does not have the shape the run's kind iterates over (a list for a
      non-screen run, a single check for a screen run), which raises. */
  function CheckList(kind: RunKind, ec: EngineChecks): (r: Option<seq<Check>>)
    ensures r.Some? <==> (kind.ScreenRun? <==> ec.Nested?)
    ensures r.Some? && ec.Single? ==> r.value == [ec.check]
    ensures r.Some? && ec.Nested? ==> r.value == Flatten(ec.lists)
  {
    match ec
    case Single(c) => if kind.ScreenRun? then None else Some([c])
    case Nested(ls) => if kind.ScreenRun? then Some(Flatten(ls)) else None
  }

  function AllReplays(cs: seq<Check>): seq<Replay>
  {
    if |cs| == 0 then [] else cs[0].replays + AllReplays(cs[1..])
  }

  function AllResults(cs: seq<Check>): seq<Comparison>
  {
    if |cs| == 0 then [] else cs[0].results + AllResults(cs[1..])
  }

  /** Every replay the run loads, in loading order. */
  function Replays(kind: RunKind, ec: EngineChecks): seq<Replay>
  {
    match CheckList(kind, ec)
    case Some(cs) => AllReplays(cs)
    case None => []
  }

  /** Every comparison the engine yields for the run, in order. */
  function Results(kind: RunKind, ec: EngineChecks): seq<Comparison>
  {
    match CheckList(kind, ec)
    case Some(cs) => AllResults(cs)
    case None => []
  }

  /** The replay count the executor sizes the bar and the loader session
      with: for a screen run a sum over every check of every nested list,
      otherwise the one check's count. */
  function NumToLoad(ec: EngineChecks): nat
  {
    match ec
    case Single(c) => |c.replays|
    case Nested(ls) => NestedCount(ls)
  }

  function ListCount(cs: seq<Check>): nat
  {
    if |cs| == 0 then 0 else |cs[0].replays| + ListCount(cs[1..])
  }

  function NestedCount(ls: seq<seq<Check>>): nat
  {
    if |ls| == 0 then 0 else ListCount(ls[0]) + NestedCount(ls[1..])
  }

  function Opening(id: nat): seq<Event> { [Label(LOADING), Status(id, LOADING)] }

  function ComparingBlock(id: nat): seq<Event> { [Label(COMPARING), Status(id, COMPARING)] }

  function Closing(id: nat): seq<Event> { [Label(IDLE), Status(id, FINISHED)] }

  const CancelBlock: seq<Event> := [Label(CANCELED), ProgressReset(-1)]

  /** A completed load followed by its progress step, for each replay. */
  function LoadSteps(rs: seq<Replay>): (r: seq<Event>)
    ensures |r| == 2 * |rs|
  {
    if |rs| == 0 then [] else [Load(rs[0]), ProgressInc(1)] + LoadSteps(rs[1..])
  }

  /** A push onto the result queue, for each comparison. */
  function PushSteps(res: seq<Comparison>): (r: seq<Event>)
    ensures |r| == |res|
  {
    if |res| == 0 then [] else [Push(res[0])] + PushSteps(res[1..])
  }

  /** The loading loop from replay `i` on: checkpoint, load, progress step. */
  function LoadPhase(rs: seq<Replay>, i: nat, cancelAt: Option<nat>, fail: Option<FailPoint>): Segment
    requires i <= |rs|
    decreases |rs| - i
  {
    if i == |rs| then Segment([], Completed)
    else if cancelAt == Some(i) then Segment(CancelBlock, Canceled)
    else if fail == Some(LoadAt(i)) then Segment([], Raised)
    else
      var rest := LoadPhase(rs, i + 1, cancelAt, fail);
      Segment([Load(rs[i]), ProgressInc(1)] + rest.events, rest.outcome)
  }

  /** The comparing loop from comparison `j` on: fetch, checkpoint `n + j`, push. */
  function ComparePhase(res: seq<Comparison>, j: nat, n: nat, cancelAt: Option<nat>, fail: Option<FailPoint>): Segment
    requires j <= |res|
    decreases |res| - j
  {
    if fail == Some(FetchAt(j)) then Segment([], Raised)
    else if j == |res| then Segment([], Completed)
    else if cancelAt == Some(n + j) then Segment(CancelBlock, Canceled)
    else
      var rest := ComparePhase(res, j + 1, n, cancelAt, fail);
      Segment([Push(res[j])] + rest.events, rest.outcome)
  }

  /** The guarded block of the executor. */
  function Attempt(id: nat, kind: RunKind, ec: EngineChecks, cancelAt: Option<nat>, fail: Option<FailPoint>): Segment
  {
    match CheckList(kind, ec)
    case None => Segment([], Raised)
    case Some(cs) =>
      if fail == Some(Prepare) then Segment([], Raised)
      else
        var rs := AllReplays(cs);
        var counted := [ProgressReset(|rs|)];
        if fail == Some(NewSession) then Segment(counted, Raised)
        else
          var load := LoadPhase(rs, 0, cancelAt, fail);
          if load.outcome != Completed then Segment(counted + load.events, load.outcome)
          else if fail == Some(CompareStart) then Segment(counted + load.events + [ProgressReset(0)], Raised)
          else
            var cmp := ComparePhase(AllResults(cs), 0, |rs|, cancelAt, fail);
            var before := counted + load.events + [ProgressReset(0)] + ComparingBlock(id) + cmp.events;
            if cmp.outcome != Completed then Segment(before, cmp.outcome)
            else Segment(before + [ProgressReset(-1)], Completed)
  }

  /** The whole trace of one run: the opening announcements, the guarded
      block, and, unless the block returned on cancellation, the closing
      announcements that follow the exception handler. */
  function RunCircleguard(run: Run, ec: EngineChecks, cancelAt: Option<nat>, fail: Option<FailPoint>): (t: seq<Event>)
    ensures |t| >= 4 && t[..2] == Opening(run.runId)
    ensures t[|t| - 2..] == CancelBlock || t[|t| - 2..] == Closing(run.runId)
  {
    var a := Attempt(run.runId, run.kind, ec, cancelAt, fail);
    var t := Opening(run.runId) + a.events + (if a.outcome == Canceled then [] else Closing(run.runId));
    CutHappyPath(run, ec, cancelAt, fail);
    t
  }

  /** The outcome of the run. */
  function OutcomeOf(run: Run, ec: EngineChecks, cancelAt: Option<nat>, fail: Option<FailPoint>): Outcome
  {
    Attempt(run.runId, run.kind, ec, cancelAt, fail).outcome
  }

  // ---------------------------------------------------------------------
  // Reference: the uninterrupted trace, cut where the earliest abort fires.

  /** The events up to and including the comparing announcements of a run
      that nothing interrupts. */
  function Compared(id: nat, rs: seq<Replay>): (c: seq<Event>)
    ensures |c| == 6 + 2 * |rs|
  {
    Opening(id) + [ProgressReset(|rs|)] + LoadSteps(rs) + [ProgressReset(0)] + ComparingBlock(id)
  }

  /** The trace of a run that nothing interrupts, up to the closing block. */
  function HappyPath(id: nat, rs: seq<Replay>, res: seq<Comparison>): (h: seq<Event>)
    ensures |h| == 7 + 2 * |rs| + |res|
  {
    Compared(id, rs) + PushSteps(res) + [ProgressReset(-1)]
  }

  /** How many happy-path events precede an abort at checkpoint `c`. */
  function CheckpointCut(c: nat, n: nat): nat
  {
    if c < n then 3 + 2 * c else 6 + 2 * n + (c - n)
  }

  /** How many happy-path events precede an exception at `f`. */
  function FailCut(f: FailPoint, n: nat): nat
  {
    match f
    case Prepare => 2
    case NewSession => 3
    case LoadAt(k) => 3 + 2 * k
    case CompareStart => 4 + 2 * n
    case FetchAt(j) => 6 + 2 * n + j
  }

  /** Whether the program reaches failure point `f` when nothing aborts before. */
  predicate FailReachable(f: FailPoint, n: nat, m: nat)
  {
    match f
    case LoadAt(k) => k < n
    case FetchAt(j) => j <= m
    case _ => true
  }

  /** Whether checkpoint `c` comes before failure point `f` in program order:
      at the same cut only a load comes after its checkpoint. */
  predicate CancelFirst(c: nat, f: FailPoint, n: nat)
  {
    CheckpointCut(c, n) < FailCut(f, n) || (CheckpointCut(c, n) == FailCut(f, n) && f.LoadAt?)
  }

  datatype Stop = Stop(cut: nat, outcome: Outcome)

  /** The earliest abort among a cancellation seen at checkpoint `cancelAt`
      and an exception at `fail`, for a run with `n` replays and `m`
      comparisons, and how many happy-path events are emitted before it. */
  function ScheduleNM(n: nat, m: nat, cancelAt: Option<nat>, fail: Option<FailPoint>): Stop
  {
    var cf := cancelAt.Some? && cancelAt.value < n + m;
    var ff := fail.Some? && FailReachable(fail.value, n, m);
    if cf && (!ff || CancelFirst(cancelAt.value, fail.value, n)) then Stop(CheckpointCut(cancelAt.value, n), Canceled)
    else if ff then Stop(FailCut(fail.value, n), Raised)
    else Stop(7 + 2 * n + m, Completed)
  }

  /** The schedule of a run; an engine answer of the wrong shape raises
      before anything is counted. */
  function Schedule(kind: RunKind, ec: EngineChecks, cancelAt: Option<nat>, fail: Option<FailPoint>): Stop
  {
    match CheckList(kind, ec)
    case None => Stop(2, Raised)
    case Some(cs) => ScheduleNM(|AllReplays(cs)|, |AllResults(cs)|, cancelAt, fail)
  }

  function Tail(id: nat, o: Outcome): seq<Event>
  {
    if o == Canceled then CancelBlock else Closing(id)
  }

  // ---------------------------------------------------------------------
  // Proof of the correspondence.

  lemma {:induction false} LoadStepsAppend(a: seq<Replay>, b: seq<Replay>)
    ensures LoadSteps(a + b) == LoadSteps(a) + LoadSteps(b)
    decreases |a|
  {
    if |a| == 0 {
      assert a + b == b;
    } else {
      assert (a + b)[1..] == a[1..] + b;
      LoadStepsAppend(a[1..], b);
    }
  }

  lemma {:induction false} PushStepsAppend(a: seq<Comparison>, b: seq<Comparison>)
    ensures PushSteps(a + b) == PushSteps(a) + PushSteps(b)
    decreases |a|
  {
    if |a| == 0 {
      assert a + b == b;
    } else {
      assert (a + b)[1..] == a[1..] + b;
      PushStepsAppend(a[1..], b);
    }
  }

  lemma LoadStepsPrefix(rs: seq<Replay>, s: nat)
    requires s <= |rs|
    ensures LoadSteps(rs)[..2 * s] == LoadSteps(rs[..s])
  {
    assert rs == rs[..s] + rs[s..];
    LoadStepsAppend(rs[..s], rs[s..]);
  }

  lemma PushStepsPrefix(res: seq<Comparison>, s: nat)
    requires s <= |res|
    ensures PushSteps(res)[..s] == PushSteps(res[..s])
  {
    assert res == res[..s] + res[s..];
    PushStepsAppend(res[..s], res[s..]);
  }

  lemma LoadStepsCons(rs: seq<Replay>, i: nat, s: nat)
    requires i < s <= |rs|
    ensures LoadSteps(rs[i..s]) == [Load(rs[i]), ProgressInc(1)] + LoadSteps(rs[i + 1..s])
  {
    assert rs[i..s][1..] == rs[i + 1..s];
  }

  lemma PushStepsCons(res: seq<Comparison>, j: nat, s: nat)
    requires j < s <= |res|
    ensures PushSteps(res[j..s]) == [Push(res[j])] + PushSteps(res[j + 1..s])
  {
    assert res[j..s][1..] == res[j + 1..s];
  }

  function Min(a: nat, b: nat): nat { if a <= b then a else b }

  /** The first loading checkpoint from `i` on that sees the latch, or `n`. */
  function LoadCancelAt(i: nat, n: nat, cancelAt: Option<nat>): nat
  {
    if cancelAt.Some? && i <= cancelAt.value < n then cancelAt.value else n
  }

  /** The first load from `i` on that raises, or `n`. */
  function LoadFailAt(i: nat, n: nat, fail: Option<FailPoint>): nat
  {
    if fail.Some? && fail.value.LoadAt? && i <= fail.value.index < n then fail.value.index else n
  }

  function LoadStop(i: nat, n: nat, cancelAt: Option<nat>, fail: Option<FailPoint>): nat
  {
    Min(LoadCancelAt(i, n, cancelAt), LoadFailAt(i, n, fail))
  }

  /** A checkpoint precedes the load it guards. */
  function LoadOutcome(i: nat, n: nat, cancelAt: Option<nat>, fail: Option<FailPoint>): Outcome
  {
    var cc := LoadCancelAt(i, n, cancelAt);
    var fc := LoadFailAt(i, n, fail);
    if cc < n && cc <= fc then Canceled else if fc < n then Raised else Completed
  }

  /** The first comparing checkpoint from `n + j` on that sees the latch,
      counted from the first comparison, or `m`. */
  function CompareCancelAt(j: nat, n: nat, m: nat, cancelAt: Option<nat>): nat
  {
    if cancelAt.Some? && n + j <= cancelAt.value < n + m then cancelAt.value - n else m
  }

  /** The first fetch from `j` on that raises, or `m + 1`. */
  function CompareFailAt(j: nat, m: nat, fail: Option<FailPoint>): nat
  {
    if fail.Some? && fail.value.FetchAt? && j <= fail.value.index <= m then fail.value.index else m + 1
  }

  function CompareStop(j: nat, n: nat, m: nat, cancelAt: Option<nat>, fail: Option<FailPoint>): nat
  {
    Min(CompareCancelAt(j, n, m, cancelAt), CompareFailAt(j, m, fail))
  }

  /** A fetch precedes the checkpoint that guards its push. */
  function CompareOutcome(j: nat, n: nat, m: nat, cancelAt: Option<nat>, fail: Option<FailPoint>): Outcome
  {
    var cc := CompareCancelAt(j, n, m, cancelAt);
    var fc := CompareFailAt(j, m, fail);
    if fc <= cc then Raised else if cc < m then Canceled else Completed
  }

  /** Where the loading loop stops and why. */
  lemma {:induction false} LoadPhaseOutcome(rs: seq<Replay>, i: nat, cancelAt: Option<nat>, fail: Option<FailPoint>)
    requires i <= |rs|
    ensures LoadStop(i, |rs|, cancelAt, fail) <= |rs|
    ensures LoadPhase(rs, i, cancelAt, fail).outcome == LoadOutcome(i, |rs|, cancelAt, fail)
    decreases |rs| - i
  {
    if !(i == |rs| || cancelAt == Some(i) || fail == Some(LoadAt(i))) {
      LoadPhaseOutcome(rs, i + 1, cancelAt, fail);
      assert LoadOutcome(i + 1, |rs|, cancelAt, fail) == LoadOutcome(i, |rs|, cancelAt, fail);
    }
  }

  /** What the loading loop emits on the way. */
  lemma {:induction false} LoadPhaseEvents(rs: seq<Replay>, i: nat, cancelAt: Option<nat>, fail: Option<FailPoint>)
    requires i <= |rs| && LoadStop(i, |rs|, cancelAt, fail) <= |rs|
    ensures LoadPhase(rs, i, cancelAt, fail).events
            == LoadSteps(rs[i..LoadStop(i, |rs|, cancelAt, fail)])
               + (if LoadOutcome(i, |rs|, cancelAt, fail) == Canceled then CancelBlock else [])
    decreases |rs| - i
  {
    var stop := LoadStop(i, |rs|, cancelAt, fail);
    var o := LoadOutcome(i, |rs|, cancelAt, fail);
    if i == |rs| {
      assert stop == i && o == Completed;
      assert rs[i..i] == [];
    } else if cancelAt == Some(i) {
      assert stop == i && o == Canceled;
      assert rs[i..i] == [];
    } else if fail == Some(LoadAt(i)) {
      assert stop == i && o == Raised;
      assert rs[i..i] == [];
    } else {
      var rest := LoadPhase(rs, i + 1, cancelAt, fail);
      var tail := if o == Canceled then CancelBlock else [];
      assert LoadPhase(rs, i, cancelAt, fail).events == [Load(rs[i]), ProgressInc(1)] + rest.events;
      assert LoadStop(i + 1, |rs|, cancelAt, fail) == stop;
      assert LoadOutcome(i + 1, |rs|, cancelAt, fail) == o;
      LoadPhaseEvents(rs, i + 1, cancelAt, fail);
      LoadStepsCons(rs, i, stop);
      ConsStep([Load(rs[i]), ProgressInc(1)], LoadSteps(rs[i + 1..stop]), tail, rest.events);
    }
  }

  /** The loading loop stops at the first checkpoint that sees the latch or
      the first load that raises, whichever comes first. */
  lemma LoadPhaseClosed(rs: seq<Replay>, i: nat, cancelAt: Option<nat>, fail: Option<FailPoint>)
    requires i <= |rs|
    ensures LoadStop(i, |rs|, cancelAt, fail) <= |rs|
    ensures LoadPhase(rs, i, cancelAt, fail).outcome == LoadOutcome(i, |rs|, cancelAt, fail)
    ensures LoadPhase(rs, i, cancelAt, fail).events
            == LoadSteps(rs[i..LoadStop(i, |rs|, cancelAt, fail)])
               + (if LoadOutcome(i, |rs|, cancelAt, fail) == Canceled then CancelBlock else [])
  {
    LoadPhaseOutcome(rs, i, cancelAt, fail);
    LoadPhaseEvents(rs, i, cancelAt, fail);
  }

  /** Where the comparing loop stops and why. */
  lemma {:induction false} ComparePhaseOutcome(res: seq<Comparison>, j: nat, n: nat, cancelAt: Option<nat>, fail: Option<FailPoint>)
    requires j <= |res|
    ensures CompareStop(j, n, |res|, cancelAt, fail) <= |res|
    ensures ComparePhase(res, j, n, cancelAt, fail).outcome == CompareOutcome(j, n, |res|, cancelAt, fail)
    decreases |res| - j
  {
    if !(fail == Some(FetchAt(j)) || j == |res| || cancelAt == Some(n + j)) {
      ComparePhaseOutcome(res, j + 1, n, cancelAt, fail);
      assert CompareOutcome(j + 1, n, |res|, cancelAt, fail) == CompareOutcome(j, n, |res|, cancelAt, fail);
    }
  }

  /** What the comparing loop emits on the way. */
  lemma {:induction false} ComparePhaseEvents(res: seq<Comparison>, j: nat, n: nat, cancelAt: Option<nat>, fail: Option<FailPoint>)
    requires j <= |res| && CompareStop(j, n, |res|, cancelAt, fail) <= |res|
    ensures ComparePhase(res, j, n, cancelAt, fail).events
            == PushSteps(res[j..CompareStop(j, n, |res|, cancelAt, fail)])
               + (if CompareOutcome(j, n, |res|, cancelAt, fail) == Canceled then CancelBlock else [])
    decreases |res| - j
  {
    var stop := CompareStop(j, n, |res|, cancelAt, fail);
    var o := CompareOutcome(j, n, |res|, cancelAt, fail);
    if fail == Some(FetchAt(j)) {
      assert stop == j && o == Raised;
      assert res[j..j] == [];
    } else if j == |res| {
      assert stop == j && o == Completed;
      assert res[j..j] == [];
    } else if cancelAt == Some(n + j) {
      assert stop == j && o == Canceled;
      assert res[j..j] == [];
    } else {
      var rest := ComparePhase(res, j + 1, n, cancelAt, fail);
      var tail := if o == Canceled then CancelBlock else [];
      assert ComparePhase(res, j, n, cancelAt, fail).events == [Push(res[j])] + rest.events;
      assert CompareStop(j + 1, n, |res|, cancelAt, fail) == stop;
      assert CompareOutcome(j + 1, n, |res|, cancelAt, fail) == o;
      ComparePhaseEvents(res, j + 1, n, cancelAt, fail);
      PushStepsCons(res, j, stop);
      ConsStep([Push(res[j])], PushSteps(res[j + 1..stop]), tail, rest.events);
    }
  }

  /** The comparing loop stops at the first fetch that raises or the first
      checkpoint that sees the latch, whichever comes first. */
  lemma ComparePhaseClosed(res: seq<Comparison>, j: nat, n: nat, cancelAt: Option<nat>, fail: Option<FailPoint>)
    requires j <= |res|
    ensures CompareStop(j, n, |res|, cancelAt, fail) <= |res|
    ensures ComparePhase(res, j, n, cancelAt, fail).outcome == CompareOutcome(j, n, |res|, cancelAt, fail)
    ensures ComparePhase(res, j, n, cancelAt, fail).events
            == PushSteps(res[j..CompareStop(j, n, |res|, cancelAt, fail)])
               + (if CompareOutcome(j, n, |res|, cancelAt, fail) == Canceled then CancelBlock else [])
  {
    ComparePhaseOutcome(res, j, n, cancelAt, fail);
    ComparePhaseEvents(res, j, n, cancelAt, fail);
  }

  // Schedule arithmetic, one lemma per place where the guarded block ends.

  lemma ScheduleEarly(n: nat, m: nat, cancelAt: Option<nat>, fail: Option<FailPoint>)
    requires fail == Some(Prepare) || fail == Some(NewSession)
    ensures ScheduleNM(n, m, cancelAt, fail) == Stop(FailCut(fail.value, n), Raised)
  {
  }

  lemma ScheduleLoading(n: nat, m: nat, cancelAt: Option<nat>, fail: Option<FailPoint>)
    requires fail != Some(Prepare) && fail != Some(NewSession)
    requires LoadOutcome(0, n, cancelAt, fail) != Completed
    ensures ScheduleNM(n, m, cancelAt, fail) == Stop(3 + 2 * LoadStop(0, n, cancelAt, fail), LoadOutcome(0, n, cancelAt, fail))
  {
  }

  lemma ScheduleCompareStart(n: nat, m: nat, cancelAt: Option<nat>)
    requires LoadOutcome(0, n, cancelAt, Some(CompareStart)) == Completed
    ensures ScheduleNM(n, m, cancelAt, Some(CompareStart)) == Stop(4 + 2 * n, Raised)
  {
  }

  lemma ScheduleComparing(n: nat, m: nat, cancelAt: Option<nat>, fail: Option<FailPoint>)
    requires fail != Some(Prepare) && fail != Some(NewSession) && fail != Some(CompareStart)
    requires LoadOutcome(0, n, cancelAt, fail) == Completed
    ensures
      var o := CompareOutcome(0, n, m, cancelAt, fail);
      ScheduleNM(n, m, cancelAt, fail)
      == Stop(if o == Completed then 7 + 2 * n + m else 6 + 2 * n + CompareStop(0, n, m, cancelAt, fail), o)
  {
  }

  // Trace shapes, one lemma per place where the guarded block ends.

  lemma HappyPathLoading(id: nat, rs: seq<Replay>, res: seq<Comparison>, s: nat)
    requires s <= |rs|
    ensures HappyPath(id, rs, res)[..3 + 2 * s] == Opening(id) + [ProgressReset(|rs|)] + LoadSteps(rs[..s])
  {
    var c := Compared(id, rs);
    var loaded := Opening(id) + [ProgressReset(|rs|)] + LoadSteps(rs);
    PrefixLeft(c + PushSteps(res), [ProgressReset(-1)], 3 + 2 * s);
    PrefixLeft(c, PushSteps(res), 3 + 2 * s);
    PrefixLeft(loaded + [ProgressReset(0)], ComparingBlock(id), 3 + 2 * s);
    PrefixLeft(loaded, [ProgressReset(0)], 3 + 2 * s);
    PrefixRight(Opening(id) + [ProgressReset(|rs|)], LoadSteps(rs), 2 * s);
    LoadStepsPrefix(rs, s);
  }

  lemma HappyPathCompareStart(id: nat, rs: seq<Replay>, res: seq<Comparison>)
    ensures HappyPath(id, rs, res)[..4 + 2 * |rs|]
            == Opening(id) + [ProgressReset(|rs|)] + LoadSteps(rs) + [ProgressReset(0)]
  {
    var c := Compared(id, rs);
    var primed := Opening(id) + [ProgressReset(|rs|)] + LoadSteps(rs) + [ProgressReset(0)];
    PrefixLeft(c + PushSteps(res), [ProgressReset(-1)], 4 + 2 * |rs|);
    PrefixLeft(c, PushSteps(res), 4 + 2 * |rs|);
    PrefixLeft(primed, ComparingBlock(id), 4 + 2 * |rs|);
    assert primed[..4 + 2 * |rs|] == primed;
  }

  lemma HappyPathComparing(id: nat, rs: seq<Replay>, res: seq<Comparison>, s: nat)
    requires s <= |res|
    ensures HappyPath(id, rs, res)[..6 + 2 * |rs| + s] == Compared(id, rs) + PushSteps(res[..s])
  {
    var c := Compared(id, rs);
    PrefixLeft(c + PushSteps(res), [ProgressReset(-1)], 6 + 2 * |rs| + s);
    PrefixRight(c, PushSteps(res), s);
    PushStepsPrefix(res, s);
  }

  // The guarded block, one lemma per place where it ends.

  lemma AttemptLoading(id: nat, kind: RunKind, ec: EngineChecks, cs: seq<Check>, cancelAt: Option<nat>, fail: Option<FailPoint>)
    requires CheckList(kind, ec) == Some(cs)
    requires fail != Some(Prepare) && fail != Some(NewSession)
    requires LoadOutcome(0, |AllReplays(cs)|, cancelAt, fail) != Completed
    ensures
      var rs := AllReplays(cs);
      var o := LoadOutcome(0, |rs|, cancelAt, fail);
      Attempt(id, kind, ec, cancelAt, fail)
      == Segment([ProgressReset(|rs|)] + LoadSteps(rs[..LoadStop(0, |rs|, cancelAt, fail)])
                 + (if o == Canceled then CancelBlock else []), o)
  {
    var rs := AllReplays(cs);
    LoadPhaseClosed(rs, 0, cancelAt, fail);
    assert rs[0..LoadStop(0, |rs|, cancelAt, fail)] == rs[..LoadStop(0, |rs|, cancelAt, fail)];
  }

  lemma AttemptLoaded(rs: seq<Replay>, cancelAt: Option<nat>, fail: Option<FailPoint>)
    requires LoadOutcome(0, |rs|, cancelAt, fail) == Completed
    ensures LoadPhase(rs, 0, cancelAt, fail) == Segment(LoadSteps(rs), Completed)
  {
    LoadPhaseClosed(rs, 0, cancelAt, fail);
    assert rs[0..|rs|] == rs;
  }

  lemma AttemptComparing(id: nat, kind: RunKind, ec: EngineChecks, cs: seq<Check>, cancelAt: Option<nat>, fail: Option<FailPoint>)
    requires CheckList(kind, ec) == Some(cs)
    requires fail != Some(Prepare) && fail != Some(NewSession) && fail != Some(CompareStart)
    requires LoadOutcome(0, |AllReplays(cs)|, cancelAt, fail) == Completed
    ensures
      var rs := AllReplays(cs);
      var res := AllResults(cs);
      var o := CompareOutcome(0, |rs|, |res|, cancelAt, fail);
      Attempt(id, kind, ec, cancelAt, fail)
      == Segment([ProgressReset(|rs|)] + LoadSteps(rs) + [ProgressReset(0)] + ComparingBlock(id)
                 + PushSteps(res[..CompareStop(0, |rs|, |res|, cancelAt, fail)]) + Ending(o), o)
  {
    var rs := AllReplays(cs);
    var res := AllResults(cs);
    AttemptLoaded(rs, cancelAt, fail);
    ComparePhaseClosed(res, 0, |rs|, cancelAt, fail);
    assert res[0..CompareStop(0, |rs|, |res|, cancelAt, fail)] == res[..CompareStop(0, |rs|, |res|, cancelAt, fail)];
  }

  lemma CutLoading(id: nat, kind: RunKind, ec: EngineChecks, cs: seq<Check>, cancelAt: Option<nat>, fail: Option<FailPoint>)
    requires CheckList(kind, ec) == Some(cs)
    requires fail != Some(Prepare) && fail != Some(NewSession)
    requires LoadOutcome(0, |AllReplays(cs)|, cancelAt, fail) != Completed
    ensures
      var s := Schedule(kind, ec, cancelAt, fail);
      var h := HappyPath(id, Replays(kind, ec), Results(kind, ec));
      var a := Attempt(id, kind, ec, cancelAt, fail);
      && s.cut <= |h|
      && a.outcome == s.outcome
      && Opening(id) + a.events + (if a.outcome == Canceled then [] else Closing(id)) == h[..s.cut] + Tail(id, s.outcome)
  {
    var rs := AllReplays(cs);
    var res := AllResults(cs);
    var n := |rs|;
    assert Replays(kind, ec) == rs && Results(kind, ec) == res;
    assert Schedule(kind, ec, cancelAt, fail) == ScheduleNM(n, |res|, cancelAt, fail);
    var stop := LoadStop(0, n, cancelAt, fail);
    var o := LoadOutcome(0, n, cancelAt, fail);
    AttemptLoading(id, kind, ec, cs, cancelAt, fail);
    ScheduleLoading(n, |res|, cancelAt, fail);
    LoadPhaseClosed(rs, 0, cancelAt, fail);
    HappyPathLoading(id, rs, res, stop);
    var steps := LoadSteps(rs[..stop]);
    if o == Canceled {
      RegroupLoad(Opening(id), [ProgressReset(n)], steps, CancelBlock);
    } else {
      RegroupLoadClose(Opening(id), [ProgressReset(n)], steps, Closing(id));
    }
  }

  lemma CutCompareStart(id: nat, kind: RunKind, ec: EngineChecks, cs: seq<Check>, cancelAt: Option<nat>)
    requires CheckList(kind, ec) == Some(cs)
    requires LoadOutcome(0, |AllReplays(cs)|, cancelAt, Some(CompareStart)) == Completed
    ensures
      var s := Schedule(kind, ec, cancelAt, Some(CompareStart));
      var h := HappyPath(id, Replays(kind, ec), Results(kind, ec));
      var a := Attempt(id, kind, ec, cancelAt, Some(CompareStart));
      && s.cut <= |h|
      && a.outcome == s.outcome
      && Opening(id) + a.events + (if a.outcome == Canceled then [] else Closing(id)) == h[..s.cut] + Tail(id, s.outcome)
  {
    var rs := AllReplays(cs);
    var res := AllResults(cs);
    var n := |rs|;
    AttemptLoaded(rs, cancelAt, Some(CompareStart));
    ScheduleCompareStart(n, |res|, cancelAt);
    HappyPathCompareStart(id, rs, res);
    var primed := [ProgressReset(n)] + LoadSteps(rs) + [ProgressReset(0)];
    assert Attempt(id, kind, ec, cancelAt, Some(CompareStart)) == Segment(primed, Raised);
    assert Opening(id) + primed == Opening(id) + [ProgressReset(n)] + LoadSteps(rs) + [ProgressReset(0)];
  }

  lemma ComparingShapeAborted(id: nat, rs: seq<Replay>, res: seq<Comparison>, stop: nat, tail: seq<Event>)
    requires stop <= |res|
    ensures
      Opening(id) + ([ProgressReset(|rs|)] + LoadSteps(rs) + [ProgressReset(0)] + ComparingBlock(id)
                     + PushSteps(res[..stop]) + tail)
      == HappyPath(id, rs, res)[..6 + 2 * |rs| + stop] + tail
  {
    HappyPathComparing(id, rs, res, stop);
    Regroup(Opening(id), [ProgressReset(|rs|)], LoadSteps(rs), [ProgressReset(0)], ComparingBlock(id),
            PushSteps(res[..stop]), tail);
  }

  /** What the guarded block emits after the last push. */
  function Ending(o: Outcome): seq<Event>
  {
    if o == Canceled then CancelBlock else if o == Completed then [ProgressReset(-1)] else []
  }

  lemma HappyPathSpelled(id: nat, rs: seq<Replay>, res: seq<Comparison>, stop: nat)
    requires stop == |res|
    ensures HappyPath(id, rs, res)[..7 + 2 * |rs| + stop] == Compared(id, rs) + PushSteps(res[..stop]) + Ending(Completed)
  {
    SliceAll(HappyPath(id, rs, res));
    SliceAll(res);
    EndingValues();
  }

  lemma ComparingShapeCompleted(id: nat, rs: seq<Replay>, res: seq<Comparison>, stop: nat)
    requires stop == |res|
    ensures
      Opening(id) + ([ProgressReset(|rs|)] + LoadSteps(rs) + [ProgressReset(0)] + ComparingBlock(id)
                     + PushSteps(res[..stop]) + Ending(Completed)) + Closing(id)
      == HappyPath(id, rs, res)[..7 + 2 * |rs| + stop] + Tail(id, Completed)
  {
    HappyPathSpelled(id, rs, res, stop);
    WholeThenClose(Opening(id), [ProgressReset(|rs|)], LoadSteps(rs), [ProgressReset(0)], ComparingBlock(id),
                   PushSteps(res[..stop]), Ending(Completed), Closing(id));
  }

  lemma ComparingShapeCanceled(id: nat, rs: seq<Replay>, res: seq<Comparison>, stop: nat)
    requires stop <= |res|
    ensures
      Opening(id) + ([ProgressReset(|rs|)] + LoadSteps(rs) + [ProgressReset(0)] + ComparingBlock(id)
                     + PushSteps(res[..stop]) + Ending(Canceled)) + []
      == HappyPath(id, rs, res)[..6 + 2 * |rs| + stop] + Tail(id, Canceled)
  {
    ComparingShapeAborted(id, rs, res, stop, CancelBlock);
  }

  lemma ComparingShapeRaised(id: nat, rs: seq<Replay>, res: seq<Comparison>, stop: nat)
    requires stop <= |res|
    ensures
      Opening(id) + ([ProgressReset(|rs|)] + LoadSteps(rs) + [ProgressReset(0)] + ComparingBlock(id)
                     + PushSteps(res[..stop]) + Ending(Raised)) + Closing(id)
      == HappyPath(id, rs, res)[..6 + 2 * |rs| + stop] + Tail(id, Raised)
  {
    HappyPathComparing(id, rs, res, stop);
    EndingValues();
    RegroupClose(Opening(id), [ProgressReset(|rs|)], LoadSteps(rs), [ProgressReset(0)], ComparingBlock(id),
                 PushSteps(res[..stop]), Closing(id));
  }

  lemma EndingValues()
    ensures Ending(Canceled) == CancelBlock
    ensures Ending(Completed) == [ProgressReset(-1)]
    ensures Ending(Raised) == []
  {
  }

  lemma CutComparing(id: nat, kind: RunKind, ec: EngineChecks, cs: seq<Check>, cancelAt: Option<nat>, fail: Option<FailPoint>)
    requires CheckList(kind, ec) == Some(cs)
    requires fail != Some(Prepare) && fail != Some(NewSession) && fail != Some(CompareStart)
    requires LoadOutcome(0, |AllReplays(cs)|, cancelAt, fail) == Completed
    ensures
      var s := Schedule(kind, ec, cancelAt, fail);
      var h := HappyPath(id, Replays(kind, ec), Results(kind, ec));
      var a := Attempt(id, kind, ec, cancelAt, fail);
      && s.cut <= |h|
      && a.outcome == s.outcome
      && Opening(id) + a.events + (if a.outcome == Canceled then [] else Closing(id)) == h[..s.cut] + Tail(id, s.outcome)
  {
    var rs := AllReplays(cs);
    var res := AllResults(cs);
    var n := |rs|;
    assert Replays(kind, ec) == rs && Results(kind, ec) == res;
    assert Schedule(kind, ec, cancelAt, fail) == ScheduleNM(n, |res|, cancelAt, fail);
    AttemptComparing(id, kind, ec, cs, cancelAt, fail);
    ScheduleComparing(n, |res|, cancelAt, fail);
    ComparePhaseOutcome(res, 0, n, cancelAt, fail);
    var stop := CompareStop(0, n, |res|, cancelAt, fail);
    var o := CompareOutcome(0, n, |res|, cancelAt, fail);
    ComparingCut(id, rs, res, stop, o);
  }

  /** The comparing shapes, by outcome, over plain sequences. */
  lemma ComparingCut(id: nat, rs: seq<Replay>, res: seq<Comparison>, stop: nat, o: Outcome)
    requires stop <= |res| && (o == Completed ==> stop == |res|)
    ensures
      var body := [ProgressReset(|rs|)] + LoadSteps(rs) + [ProgressReset(0)] + ComparingBlock(id) + PushSteps(res[..stop]) + Ending(o);
      var cut := if o == Completed then 7 + 2 * |rs| + |res| else 6 + 2 * |rs| + stop;
      && cut <= |HappyPath(id, rs, res)|
      && Opening(id) + body + (if o == Canceled then [] else Closing(id)) == HappyPath(id, rs, res)[..cut] + Tail(id, o)
  {
    if o == Completed {
      ComparingShapeCompleted(id, rs, res, stop);
    } else if o == Canceled {
      ComparingShapeCanceled(id, rs, res, stop);
    } else {
      ComparingShapeRaised(id, rs, res, stop);
    }
  }

  /** A run whose checks cannot be built raises before loading anything. */
  lemma CutNoChecks(id: nat, kind: RunKind, ec: EngineChecks, cancelAt: Option<nat>, fail: Option<FailPoint>)
    requires CheckList(kind, ec) == None
    ensures
      var s := Schedule(kind, ec, cancelAt, fail);
      var h := HappyPath(id, Replays(kind, ec), Results(kind, ec));
      var a := Attempt(id, kind, ec, cancelAt, fail);
      && s.cut <= |h|
      && a.outcome == s.outcome
      && Opening(id) + a.events + (if a.outcome == Canceled then [] else Closing(id)) == h[..s.cut] + Tail(id, s.outcome)
  {
    assert Replays(kind, ec) == [] && Results(kind, ec) == [];
    assert HappyPath(id, [], [])[..2] == Opening(id);
  }

  /** A run that raises while preparing its checks or opening the loader
      session has sent only the opening signals and the bar's reset. */
  lemma CutEarly(id: nat, kind: RunKind, ec: EngineChecks, cs: seq<Check>, cancelAt: Option<nat>, fail: Option<FailPoint>)
    requires CheckList(kind, ec) == Some(cs)
    requires fail == Some(Prepare) || fail == Some(NewSession)
    ensures
      var s := Schedule(kind, ec, cancelAt, fail);
      var h := HappyPath(id, Replays(kind, ec), Results(kind, ec));
      var a := Attempt(id, kind, ec, cancelAt, fail);
      && s.cut <= |h|
      && a.outcome == s.outcome
      && Opening(id) + a.events + (if a.outcome == Canceled then [] else Closing(id)) == h[..s.cut] + Tail(id, s.outcome)
  {
    var rs := AllReplays(cs);
    assert Replays(kind, ec) == rs && Results(kind, ec) == AllResults(cs);
    ScheduleEarly(|rs|, |AllResults(cs)|, cancelAt, fail);
    HappyPathLoading(id, rs, AllResults(cs), 0);
    assert rs[..0] == [];
  }

  /** The executor's trace is the uninterrupted trace cut at the earliest
      abort, followed by the cancellation block when that abort is a
      cancellation and by the closing block otherwise. */
  lemma CutHappyPath(run: Run, ec: EngineChecks, cancelAt: Option<nat>, fail: Option<FailPoint>)
    ensures
      var id := run.runId;
      var s := Schedule(run.kind, ec, cancelAt, fail);
      var h := HappyPath(id, Replays(run.kind, ec), Results(run.kind, ec));
      var a := Attempt(id, run.kind, ec, cancelAt, fail);
      && s.cut <= |h|
      && a.outcome == s.outcome
      && Opening(id) + a.events + (if a.outcome == Canceled then [] else Closing(id)) == h[..s.cut] + Tail(id, s.outcome)
  {
    var id := run.runId;
    match CheckList(run.kind, ec)
    case None =>
      CutNoChecks(id, run.kind, ec, cancelAt, fail);
    case Some(cs) =>
      var rs := AllReplays(cs);
      if fail == Some(Prepare) || fail == Some(NewSession) {
        CutEarly(id, run.kind, ec, cs, cancelAt, fail);
      } else if LoadOutcome(0, |rs|, cancelAt, fail) != Completed {
        CutLoading(id, run.kind, ec, cs, cancelAt, fail);
      } else if fail == Some(CompareStart) {
        CutCompareStart(id, run.kind, ec, cs, cancelAt);
      } else {
        CutComparing(id, run.kind, ec, cs, cancelAt, fail);
      }
  }

  /** The executor against the reference: the run's trace is the
      uninterrupted trace cut where the schedule says, then the cancellation
      block or the closing block, and the run ends as the schedule says. */
  lemma RunMatchesSchedule(run: Run, ec: EngineChecks, cancelAt: Option<nat>, fail: Option<FailPoint>)
    ensures
      var s := Schedule(run.kind, ec, cancelAt, fail);
      var h := HappyPath(run.runId, Replays(run.kind, ec), Results(run.kind, ec));
      && s.cut <= |h|
      && OutcomeOf(run, ec, cancelAt, fail) == s.outcome
      && RunCircleguard(run, ec, cancelAt, fail) == h[..s.cut] + Tail(run.runId, s.outcome)
  {
    CutHappyPath(run, ec, cancelAt, fail);
  }

  // ---------------------------------------------------------------------
  // Sequence regrouping. Each lemma states one way of re-associating or
  // slicing a concatenation; the trace lemmas above call the one they need
  // instead of leaving the solver to search for it among the long
  // concatenations they compare.

  lemma ConsStep<T>(x: seq<T>, steps: seq<T>, tail: seq<T>, rest: seq<T>)
    requires rest == steps + tail
    ensures x + rest == (x + steps) + tail
  {
  }

  lemma PrefixLeft<T>(a: seq<T>, b: seq<T>, k: nat)
    requires k <= |a|
    ensures (a + b)[..k] == a[..k]
  {
  }

  lemma PrefixRight<T>(a: seq<T>, b: seq<T>, k: nat)
    requires k <= |b|
    ensures (a + b)[..|a| + k] == a + b[..k]
  {
  }

  lemma RegroupLoad<T>(o: seq<T>, r: seq<T>, ls: seq<T>, tail: seq<T>)
    ensures o + (r + ls + tail) == o + r + ls + tail
  {
  }

  lemma RegroupLoadClose<T>(o: seq<T>, r: seq<T>, ls: seq<T>, cl: seq<T>)
    ensures o + (r + ls + []) + cl == o + r + ls + cl
  {
  }

  lemma Regroup<T>(o: seq<T>, r: seq<T>, ls: seq<T>, z: seq<T>, cb: seq<T>, ps: seq<T>, tail: seq<T>)
    ensures o + (r + ls + z + cb + ps + tail) == (o + r + ls + z + cb) + ps + tail
  {
  }

  lemma WholeThenClose<T>(o: seq<T>, r: seq<T>, ls: seq<T>, z: seq<T>, cb: seq<T>, ps: seq<T>, e: seq<T>, cl: seq<T>)
    ensures o + (r + ls + z + cb + ps + e) + cl == (o + r + ls + z + cb + ps + e) + cl
  {
  }

  lemma RegroupClose<T>(o: seq<T>, r: seq<T>, ls: seq<T>, z: seq<T>, cb: seq<T>, ps: seq<T>, cl: seq<T>)
    ensures o + (r + ls + z + cb + ps + []) + cl == (o + r + ls + z + cb) + ps + cl
  {
  }

  lemma SliceAll<T>(s: seq<T>)
    ensures s[..|s|] == s
  {
  }
}
