/** What a run of the executor shows the window, derived from the
    reference trace: per outcome, the statuses, labels, loads, pushes and
    progress signals it emits. */
module RunFacts {
  import opened Optional
  import opened Runs
  import opened Trace
  import opened Executor

  // Views of the building blocks.

  lemma ViewsOpening(id: nat)
    ensures ViewsOf(Opening(id)) == Views([(id, LOADING)], [LOADING], [], [], [], [id])
  {
    ViewsTwo(Label(LOADING), Status(id, LOADING));
    ViewsOne(Label(LOADING));
    ViewsOne(Status(id, LOADING));
  }

  lemma ViewsComparing(id: nat)
    ensures ViewsOf(ComparingBlock(id)) == Views([(id, COMPARING)], [COMPARING], [], [], [], [])
  {
    ViewsTwo(Label(COMPARING), Status(id, COMPARING));
    ViewsOne(Label(COMPARING));
    ViewsOne(Status(id, COMPARING));
  }

  lemma ViewsClosing(id: nat)
    ensures ViewsOf(Closing(id)) == Views([(id, FINISHED)], [IDLE], [], [], [], [])
  {
    ViewsTwo(Label(IDLE), Status(id, FINISHED));
    ViewsOne(Label(IDLE));
    ViewsOne(Status(id, FINISHED));
  }

  lemma ViewsCancel()
    ensures ViewsOf(CancelBlock) == Views([], [CANCELED], [], [], [ProgressReset(-1)], [])
  {
    ViewsTwo(Label(CANCELED), ProgressReset(-1));
    ViewsOne(Label(CANCELED));
    ViewsOne(ProgressReset(-1));
  }

  lemma ViewsReset(k: int)
    ensures ViewsOf([ProgressReset(k)]) == Views([], [], [], [], [ProgressReset(k)], [])
  {
    ViewsOne(ProgressReset(k));
  }

  /** The loading steps show exactly the loaded replays and one progress
      step per replay. */
  lemma {:induction false} ViewsLoadSteps(rs: seq<Replay>)
    ensures ViewsOf(LoadSteps(rs)) == Views([], [], rs, [], Increments(|rs|), [])
    decreases |rs|
  {
    if |rs| > 0 {
      var r := rs[0];
      assert LoadSteps(rs) == [Load(r), ProgressInc(1)] + LoadSteps(rs[1..]);
      ViewsAppend([Load(r), ProgressInc(1)], LoadSteps(rs[1..]));
      ViewsLoadStep(r);
      ViewsLoadSteps(rs[1..]);
      JoinLoadStep(r, rs[1..], Increments(|rs| - 1));
      assert [r] + rs[1..] == rs;
      assert [ProgressInc(1)] + Increments(|rs| - 1) == Increments(|rs|);
    }
  }

  lemma ViewsLoadStep(r: Replay)
    ensures ViewsOf([Load(r), ProgressInc(1)]) == Views([], [], [r], [], [ProgressInc(1)], [])
  {
    ViewsTwo(Load(r), ProgressInc(1));
    ViewsOne(Load(r));
    ViewsOne(ProgressInc(1));
  }

  lemma JoinLoadStep(r: Replay, rest: seq<Replay>, incs: seq<Event>)
    ensures Join(Views([], [], [r], [], [ProgressInc(1)], []), Views([], [], rest, [], incs, []))
            == Views([], [], [r] + rest, [], [ProgressInc(1)] + incs, [])
  {
  }

  /** The pushing steps show exactly the pushed comparisons. */
  lemma {:induction false} ViewsPushSteps(res: seq<Comparison>)
    ensures ViewsOf(PushSteps(res)) == Views([], [], [], res, [], [])
    decreases |res|
  {
    if |res| == 0 {
    } else {
      ViewsAppend([Push(res[0])], PushSteps(res[1..]));
      ViewsOne(Push(res[0]));
      ViewsPushSteps(res[1..]);
      assert [res[0]] + res[1..] == res;
    }
  }

  // Views of the reference trace and of its prefixes.

  /** Loading announced and the bar sized. */
  lemma ViewsAnnounced(id: nat, n: nat)
    ensures ViewsOf(Opening(id) + [ProgressReset(n)])
            == Views([(id, LOADING)], [LOADING], [], [], [ProgressReset(n)], [id])
  {
    ViewsAppend(Opening(id), [ProgressReset(n)]);
    ViewsOpening(id);
    ViewsReset(n);
  }

  lemma JoinLoads(st: seq<(nat, string)>, lb: seq<string>, pr: seq<Event>, sr: seq<nat>, done: seq<Replay>, incs: seq<Event>)
    ensures Join(Views(st, lb, [], [], pr, sr), Views([], [], done, [], incs, []))
            == Views(st, lb, done, [], pr + incs, sr)
  {
  }

  /** Loading announced, `done` loaded. */
  lemma ViewsLoading(id: nat, n: nat, done: seq<Replay>)
    ensures ViewsOf(Opening(id) + [ProgressReset(n)] + LoadSteps(done))
            == Views([(id, LOADING)], [LOADING], done, [], [ProgressReset(n)] + Increments(|done|), [id])
  {
    ViewsAnnounced(id, n);
    ViewsAppend(Opening(id) + [ProgressReset(n)], LoadSteps(done));
    ViewsLoadSteps(done);
    JoinLoads([(id, LOADING)], [LOADING], [ProgressReset(n)], [id], done, Increments(|done|));
  }

  lemma JoinCompared(st: seq<(nat, string)>, lb: seq<string>, ld: seq<Replay>, pr: seq<Event>, sr: seq<nat>, id: nat)
    ensures Join(Join(Views(st, lb, ld, [], pr, sr), Views([], [], [], [], [ProgressReset(0)], [])),
                 Views([(id, COMPARING)], [COMPARING], [], [], [], []))
            == Views(st + [(id, COMPARING)], lb + [COMPARING], ld, [], pr + [ProgressReset(0)], sr)
  {
  }

  /** Everything loaded and comparing announced. */
  lemma ViewsCompared(id: nat, rs: seq<Replay>)
    ensures ViewsOf(Compared(id, rs))
            == Views([(id, LOADING), (id, COMPARING)], [LOADING, COMPARING], rs, [],
                     [ProgressReset(|rs|)] + Increments(|rs|) + [ProgressReset(0)], [id])
  {
    var loaded := Opening(id) + [ProgressReset(|rs|)] + LoadSteps(rs);
    ViewsAppend(loaded + [ProgressReset(0)], ComparingBlock(id));
    ViewsAppend(loaded, [ProgressReset(0)]);
    ViewsLoading(id, |rs|, rs);
    ViewsReset(0);
    ViewsComparing(id);
    JoinCompared([(id, LOADING)], [LOADING], rs, [ProgressReset(|rs|)] + Increments(|rs|), [id], id);
  }

  lemma JoinPushes(v: Views, pushed: seq<Comparison>)
    requires v.pushes == []
    ensures Join(v, Views([], [], [], pushed, [], [])) == v.(pushes := pushed)
  {
  }

  /** Everything loaded, comparing announced, `pushed` put on the queue. */
  lemma ViewsPushing(id: nat, rs: seq<Replay>, pushed: seq<Comparison>)
    ensures ViewsOf(Compared(id, rs) + PushSteps(pushed))
            == Views([(id, LOADING), (id, COMPARING)], [LOADING, COMPARING], rs, pushed,
                     [ProgressReset(|rs|)] + Increments(|rs|) + [ProgressReset(0)], [id])
  {
    ViewsAppend(Compared(id, rs), PushSteps(pushed));
    ViewsCompared(id, rs);
    ViewsPushSteps(pushed);
    JoinPushes(ViewsOf(Compared(id, rs)), pushed);
  }

  /** The uninterrupted trace shows every replay loaded, every comparison
      pushed, and a bar sized, stepped once per replay, made busy and
      emptied. */
  lemma ViewsHappyPath(id: nat, rs: seq<Replay>, res: seq<Comparison>)
    ensures ViewsOf(HappyPath(id, rs, res))
            == Views([(id, LOADING), (id, COMPARING)], [LOADING, COMPARING], rs, res,
                     [ProgressReset(|rs|)] + Increments(|rs|) + [ProgressReset(0), ProgressReset(-1)], [id])
  {
    ViewsAppend(Compared(id, rs) + PushSteps(res), [ProgressReset(-1)]);
    ViewsPushing(id, rs, res);
    ViewsReset(-1);
  }

  // Where the schedule cuts, per outcome.

  lemma ScheduleCompleted(kind: RunKind, ec: EngineChecks, cancelAt: Option<nat>, fail: Option<FailPoint>)
    requires Schedule(kind, ec, cancelAt, fail).outcome == Completed
    ensures CheckList(kind, ec).Some?
    ensures Schedule(kind, ec, cancelAt, fail).cut == 7 + 2 * |Replays(kind, ec)| + |Results(kind, ec)|
  {
  }

  lemma ScheduleCanceled(kind: RunKind, ec: EngineChecks, cancelAt: Option<nat>, fail: Option<FailPoint>)
    requires Schedule(kind, ec, cancelAt, fail).outcome == Canceled
    ensures CheckList(kind, ec).Some? && cancelAt.Some?
    ensures cancelAt.value < |Replays(kind, ec)| + |Results(kind, ec)|
    ensures Schedule(kind, ec, cancelAt, fail).cut == CheckpointCut(cancelAt.value, |Replays(kind, ec)|)
  {
  }

  lemma ScheduleRaised(kind: RunKind, ec: EngineChecks, cancelAt: Option<nat>, fail: Option<FailPoint>)
    requires Schedule(kind, ec, cancelAt, fail).outcome == Raised
    ensures 2 <= Schedule(kind, ec, cancelAt, fail).cut <= 6 + 2 * |Replays(kind, ec)| + |Results(kind, ec)|
  {
  }

  lemma JoinClosing(v: Views, id: nat)
    ensures Join(v, Views([(id, FINISHED)], [IDLE], [], [], [], []))
            == v.(statuses := v.statuses + [(id, FINISHED)], labels := v.labels + [IDLE])
  {
  }

  lemma JoinCancel(v: Views)
    ensures Join(v, Views([], [CANCELED], [], [], [ProgressReset(-1)], []))
            == v.(labels := v.labels + [CANCELED], progress := v.progress + [ProgressReset(-1)])
  {
  }

  /** A run that completes announces loading, comparing and finishing, loads
      every replay, pushes every comparison, and leaves the label idle and
      the bar emptied after one step per replay. */
  lemma CompletedRun(run: Run, ec: EngineChecks, cancelAt: Option<nat>, fail: Option<FailPoint>)
    requires OutcomeOf(run, ec, cancelAt, fail) == Completed
    ensures
      var id, rs := run.runId, Replays(run.kind, ec);
      ViewsOf(RunCircleguard(run, ec, cancelAt, fail))
      == Views([(id, LOADING), (id, COMPARING), (id, FINISHED)], [LOADING, COMPARING, IDLE],
               rs, Results(run.kind, ec),
               [ProgressReset(|rs|)] + Increments(|rs|) + [ProgressReset(0), ProgressReset(-1)], [id])
  {
    var id := run.runId;
    var h := HappyPath(id, Replays(run.kind, ec), Results(run.kind, ec));
    RunMatchesSchedule(run, ec, cancelAt, fail);
    ScheduleCompleted(run.kind, ec, cancelAt, fail);
    assert h[..|h|] == h;
    CompletedTrace(id, Replays(run.kind, ec), Results(run.kind, ec));
  }

  lemma CompletedTrace(id: nat, rs: seq<Replay>, res: seq<Comparison>)
    ensures
      ViewsOf(HappyPath(id, rs, res) + Closing(id))
      == Views([(id, LOADING), (id, COMPARING), (id, FINISHED)], [LOADING, COMPARING, IDLE], rs, res,
               [ProgressReset(|rs|)] + Increments(|rs|) + [ProgressReset(0), ProgressReset(-1)], [id])
  {
    var h := HappyPath(id, rs, res);
    ViewsAppend(h, Closing(id));
    ViewsHappyPath(id, rs, res);
    ViewsClosing(id);
    JoinClosing(ViewsOf(h), id);
  }

  /** A run whose latch is seen at checkpoint `c` stops there: before the
      c-th load it has loaded the first c replays and announced nothing
      after loading; before the push of comparison c - n it has loaded
      everything and pushed the comparisons before it. Either way the label
      ends on "Canceled", the bar is emptied, and the run is never marked
      finished. */
  lemma CanceledRun(run: Run, ec: EngineChecks, cancelAt: Option<nat>, fail: Option<FailPoint>)
    requires OutcomeOf(run, ec, cancelAt, fail) == Canceled
    ensures cancelAt.Some? && cancelAt.value < |Replays(run.kind, ec)| + |Results(run.kind, ec)|
    ensures
      var id, rs, c := run.runId, Replays(run.kind, ec), cancelAt.value;
      c < |rs| ==>
      ViewsOf(RunCircleguard(run, ec, cancelAt, fail))
      == Views([(id, LOADING)], [LOADING, CANCELED], rs[..c], [],
               [ProgressReset(|rs|)] + Increments(c) + [ProgressReset(-1)], [id])
    ensures
      var id, rs, c := run.runId, Replays(run.kind, ec), cancelAt.value;
      c >= |rs| ==>
      ViewsOf(RunCircleguard(run, ec, cancelAt, fail))
      == Views([(id, LOADING), (id, COMPARING)], [LOADING, COMPARING, CANCELED], rs,
               Results(run.kind, ec)[..c - |rs|],
               [ProgressReset(|rs|)] + Increments(|rs|) + [ProgressReset(0), ProgressReset(-1)], [id])
  {
    var id, rs, res := run.runId, Replays(run.kind, ec), Results(run.kind, ec);
    RunMatchesSchedule(run, ec, cancelAt, fail);
    ScheduleCanceled(run.kind, ec, cancelAt, fail);
    if cancelAt.value < |rs| {
      CanceledLoading(id, rs, res, cancelAt.value);
    } else {
      CanceledComparing(id, rs, res, cancelAt.value);
    }
  }

  lemma CanceledLoading(id: nat, rs: seq<Replay>, res: seq<Comparison>, c: nat)
    requires c < |rs|
    ensures ViewsOf(HappyPath(id, rs, res)[..CheckpointCut(c, |rs|)] + CancelBlock)
            == Views([(id, LOADING)], [LOADING, CANCELED], rs[..c], [],
                     [ProgressReset(|rs|)] + Increments(c) + [ProgressReset(-1)], [id])
  {
    var p := Opening(id) + [ProgressReset(|rs|)] + LoadSteps(rs[..c]);
    HappyPathLoading(id, rs, res, c);
    ViewsAppend(p, CancelBlock);
    ViewsLoading(id, |rs|, rs[..c]);
    ViewsCancel();
    JoinCancel(ViewsOf(p));
  }

  lemma CanceledComparing(id: nat, rs: seq<Replay>, res: seq<Comparison>, c: nat)
    requires |rs| <= c < |rs| + |res|
    ensures ViewsOf(HappyPath(id, rs, res)[..CheckpointCut(c, |rs|)] + CancelBlock)
            == Views([(id, LOADING), (id, COMPARING)], [LOADING, COMPARING, CANCELED], rs, res[..c - |rs|],
                     [ProgressReset(|rs|)] + Increments(|rs|) + [ProgressReset(0), ProgressReset(-1)], [id])
  {
    var p := Compared(id, rs) + PushSteps(res[..c - |rs|]);
    HappyPathComparing(id, rs, res, c - |rs|);
    ViewsAppend(p, CancelBlock);
    ViewsPushing(id, rs, res[..c - |rs|]);
    ViewsCancel();
    JoinCancel(ViewsOf(p));
  }

  /** Before the closing block, an exception leaves a prefix of the trace up
      to the pushes: loading was announced, and no more than everything was
      loaded and pushed. */
  lemma RaisedPrefix(id: nat, rs: seq<Replay>, res: seq<Comparison>, cut: nat)
    requires 2 <= cut <= 6 + 2 * |rs| + |res|
    ensures
      var v := ViewsOf(HappyPath(id, rs, res)[..cut]);
      && v.statuses <= [(id, LOADING), (id, COMPARING)] && v.labels <= [LOADING, COMPARING]
      && |v.statuses| >= 1 && |v.labels| >= 1
      && v.loads <= rs && v.pushes <= res && v.starts == [id]
      && v.progress <= [ProgressReset(|rs|)] + Increments(|rs|) + [ProgressReset(0)]
  {
    var q := Compared(id, rs) + PushSteps(res);
    HappyPathComparing(id, rs, res, |res|);
    assert res[..|res|] == res;
    assert HappyPath(id, rs, res)[..cut] == q[..cut];
    ViewsPrefix(q, cut);
    ViewsPushing(id, rs, res);
    assert q[..cut] == Opening(id) + q[2..cut];
    ViewsAppend(Opening(id), q[2..cut]);
    ViewsOpening(id);
  }

  /** Resetting the bar to "empty" is not among the signals sent before the
      comparisons are all pushed. */
  lemma NotEmptiedEarly(n: nat, p: seq<Event>)
    requires p <= [ProgressReset(n)] + Increments(n) + [ProgressReset(0)]
    ensures ProgressReset(-1) !in p
  {
    var q := [ProgressReset(n)] + Increments(n) + [ProgressReset(0)];
    forall k | 0 <= k < |p|
      ensures p[k] != ProgressReset(-1)
    {
      assert p[k] == q[k];
      if 1 <= k <= n {
        assert q[k] == Increments(n)[k - 1];
      }
    }
  }

  /** The views of a trace followed by the closing block. */
  lemma ViewsClosed(p: seq<Event>, id: nat)
    ensures ViewsOf(p + Closing(id))
            == ViewsOf(p).(statuses := Statuses(p) + [(id, FINISHED)], labels := Labels(p) + [IDLE])
  {
    ViewsAppend(p, Closing(id));
    ViewsClosing(id);
    JoinClosing(ViewsOf(p), id);
  }

  lemma RaisedTrace(id: nat, rs: seq<Replay>, res: seq<Comparison>, cut: nat)
    requires 2 <= cut <= 6 + 2 * |rs| + |res|
    ensures
      var v := ViewsOf(HappyPath(id, rs, res)[..cut] + Closing(id));
      && |v.statuses| >= 2 && v.statuses[0] == (id, LOADING) && v.statuses[|v.statuses| - 1] == (id, FINISHED)
      && (forall k :: 0 <= k < |v.statuses| ==> v.statuses[k].0 == id)
      && |v.labels| >= 2 && v.labels[|v.labels| - 1] == IDLE
      && v.loads <= rs && v.pushes <= res && v.starts == [id]
      && v.progress <= [ProgressReset(|rs|)] + Increments(|rs|) + [ProgressReset(0)]
      && ProgressReset(-1) !in v.progress
  {
    var p := HappyPath(id, rs, res)[..cut];
    RaisedPrefix(id, rs, res, cut);
    NotEmptiedEarly(|rs|, ViewsOf(p).progress);
    ViewsClosed(p, id);
    RaisedStatuses(id, ViewsOf(p).statuses);
  }

  /** A run that raises is still marked finished and leaves the label idle,
      but the bar is never emptied: it keeps the progress it had. */
  lemma RaisedRun(run: Run, ec: EngineChecks, cancelAt: Option<nat>, fail: Option<FailPoint>)
    requires OutcomeOf(run, ec, cancelAt, fail) == Raised
    ensures
      var id, v := run.runId, ViewsOf(RunCircleguard(run, ec, cancelAt, fail));
      && |v.statuses| >= 2 && v.statuses[0] == (id, LOADING) && v.statuses[|v.statuses| - 1] == (id, FINISHED)
      && (forall k :: 0 <= k < |v.statuses| ==> v.statuses[k].0 == id)
      && |v.labels| >= 2 && v.labels[|v.labels| - 1] == IDLE
      && v.loads <= Replays(run.kind, ec) && v.pushes <= Results(run.kind, ec) && v.starts == [id]
      && v.progress <= [ProgressReset(|Replays(run.kind, ec)|)] + Increments(|Replays(run.kind, ec)|) + [ProgressReset(0)]
      && ProgressReset(-1) !in v.progress
  {
    RunMatchesSchedule(run, ec, cancelAt, fail);
    ScheduleRaised(run.kind, ec, cancelAt, fail);
    RaisedTrace(run.runId, Replays(run.kind, ec), Results(run.kind, ec), Schedule(run.kind, ec, cancelAt, fail).cut);
  }

  lemma RaisedStatuses(id: nat, st: seq<(nat, string)>)
    requires st <= [(id, LOADING), (id, COMPARING)] && |st| >= 1
    ensures var all := st + [(id, FINISHED)];
      && all[0] == (id, LOADING) && (forall k :: 0 <= k < |all| ==> all[k].0 == id)
  {
  }

  /** Which outcome a run has, in terms of its inputs: it completes exactly
      when the engine's answer has the expected shape, the latch is not seen
      at any checkpoint and no reachable step raises; it is canceled exactly
      when the latch is seen at a checkpoint that comes before any step that
      raises. */
  lemma OutcomeByInputs(run: Run, ec: EngineChecks, cancelAt: Option<nat>, fail: Option<FailPoint>)
    ensures
      var n, m := |Replays(run.kind, ec)|, |Results(run.kind, ec)|;
      var fires := cancelAt.Some? && cancelAt.value < n + m;
      var raises := fail.Some? && FailReachable(fail.value, n, m);
      && (OutcomeOf(run, ec, cancelAt, fail) == Completed
          <==> CheckList(run.kind, ec).Some? && !fires && !raises)
      && (OutcomeOf(run, ec, cancelAt, fail) == Canceled
          <==> CheckList(run.kind, ec).Some? && fires && (!raises || CancelFirst(cancelAt.value, fail.value, n)))
  {
    RunMatchesSchedule(run, ec, cancelAt, fail);
  }

  /** A run with nothing to load and nothing to compare never reaches a
      checkpoint, so setting its latch changes nothing: it finishes. */
  lemma EmptyRunIgnoresCancel(run: Run, ec: EngineChecks, cancelAt: Option<nat>)
    requires CheckList(run.kind, ec).Some?
    requires Replays(run.kind, ec) == [] && Results(run.kind, ec) == []
    ensures OutcomeOf(run, ec, cancelAt, None) == Completed
    ensures RunCircleguard(run, ec, cancelAt, None) == HappyPath(run.runId, [], []) + Closing(run.runId)
  {
    RunMatchesSchedule(run, ec, cancelAt, None);
    assert HappyPath(run.runId, [], [])[..7] == HappyPath(run.runId, [], []);
  }

  /** A run whose latch was set while it waited in the queue is still
      started: it announces loading and sizes the bar, then stops at its
      first checkpoint. */
  lemma CanceledWhileQueued(run: Run, ec: EngineChecks, fail: Option<FailPoint>)
    requires CheckList(run.kind, ec).Some? && |Replays(run.kind, ec)| > 0
    requires fail != Some(Prepare) && fail != Some(NewSession)
    ensures OutcomeOf(run, ec, Some(0), fail) == Canceled
    ensures RunCircleguard(run, ec, Some(0), fail)
            == Opening(run.runId) + [ProgressReset(|Replays(run.kind, ec)|)] + CancelBlock
  {
    var id, rs, res := run.runId, Replays(run.kind, ec), Results(run.kind, ec);
    RunMatchesSchedule(run, ec, Some(0), fail);
    HappyPathLoading(id, rs, res, 0);
    assert rs[..0] == [];
  }

  /** Whatever happens, a run starts once, speaks only about itself, and
      loads and pushes a prefix of what the engine offers. */
  lemma RunStaysInLane(run: Run, ec: EngineChecks, cancelAt: Option<nat>, fail: Option<FailPoint>)
    ensures
      var id, v := run.runId, ViewsOf(RunCircleguard(run, ec, cancelAt, fail));
      && v.starts == [id]
      && |v.statuses| >= 1 && v.statuses[0] == (id, LOADING)
      && (forall k :: 0 <= k < |v.statuses| ==> v.statuses[k].0 == id)
      && v.loads <= Replays(run.kind, ec) && v.pushes <= Results(run.kind, ec)
  {
    match OutcomeOf(run, ec, cancelAt, fail)
    case Completed =>
      CompletedRun(run, ec, cancelAt, fail);
    case Canceled =>
      CanceledRun(run, ec, cancelAt, fail);
    case Raised =>
      RaisedRun(run, ec, cancelAt, fail);
  }

  lemma {:induction false} AllReplaysAppend(a: seq<Check>, b: seq<Check>)
    ensures AllReplays(a + b) == AllReplays(a) + AllReplays(b)
    decreases |a|
  {
    if |a| == 0 {
      assert a + b == b;
    } else {
      assert (a + b)[1..] == a[1..] + b;
      AllReplaysAppend(a[1..], b);
    }
  }

  lemma {:induction false} ListCountAll(cs: seq<Check>)
    ensures ListCount(cs) == |AllReplays(cs)|
    decreases |cs|
  {
    if |cs| > 0 {
      ListCountAll(cs[1..]);
    }
  }

  lemma {:induction false} NestedCountAll(ls: seq<seq<Check>>)
    ensures NestedCount(ls) == |AllReplays(Flatten(ls))|
    decreases |ls|
  {
    if |ls| > 0 {
      NestedCountAll(ls[1..]);
      ListCountAll(ls[0]);
      AllReplaysAppend(ls[0], Flatten(ls[1..]));
    }
  }

  /** The bar's size, counted the way the executor counts (a nested sum for
      a screen run), is the number of replays the loading loop visits. */
  lemma NumToLoadCounts(kind: RunKind, ec: EngineChecks)
    requires CheckList(kind, ec).Some?
    ensures NumToLoad(ec) == |Replays(kind, ec)|
  {
    match ec
    case Single(c) =>
      assert AllReplays([c]) == c.replays + AllReplays([]);
    case Nested(ls) =>
      NestedCountAll(ls);
  }
}
