/** The sequential drain of the run queue (`check_circleguard_queue` in
    circleguard/gui.py): while the queue is not empty, take the oldest run
    and execute it to its end before taking the next; when the queue is
    empty, clear the busy flag. Threads are abstracted away: a drain is the
    concatenation of the traces of the runs it executes. */
module Supervisor {
  import opened Optional
  import opened Runs
  import opened Trace
  import opened Executor
  import opened RunFacts
  import opened Registry

  /** What the outside world does to one run: the engine's checks, the
      first checkpoint at which a cancellation made during the run is seen,
      and where an exception is raised. */
  datatype RunEnv = RunEnv(ec: EngineChecks, cancelAt: Option<nat>, fail: Option<FailPoint>)

  /** A latch already set when the run is taken from the queue is seen at
      the very first checkpoint. */
  function EffectiveCancel(e: RunEnv, latched: set<nat>, id: nat): (c: Option<nat>)
    ensures id in latched ==> c == Some(0)
    ensures id !in latched ==> c == e.cancelAt
  {
    if id in latched then Some(0) else e.cancelAt
  }

  /** The trace of one run as the drain executes it. */
  function RunTrace(run: Run, latched: set<nat>, env: nat -> RunEnv): seq<Event>
  {
    var e := env(run.runId);
    RunCircleguard(run, e.ec, EffectiveCancel(e, latched, run.runId), e.fail)
  }

  function RunOutcome(run: Run, latched: set<nat>, env: nat -> RunEnv): Outcome
  {
    var e := env(run.runId);
    OutcomeOf(run, e.ec, EffectiveCancel(e, latched, run.runId), e.fail)
  }

  /** The runs of the queue one after the other, oldest first. */
  function DrainTrace(q: seq<Run>, latched: set<nat>, env: nat -> RunEnv): seq<Event>
    decreases |q|
  {
    if |q| == 0 then [] else RunTrace(q[0], latched, env) + DrainTrace(q[1..], latched, env)
  }

  /** The state a drain leaves: what it emitted, the queue, the busy flag. */
  datatype Drain = Drain(trace: seq<Event>, queue: seq<Run>, busy: bool)

  /** One call of the queue check. When a drain is already running it does
      nothing; otherwise it takes the runs off the queue in order, executes
      each to its end, and clears the busy flag once the queue is empty. */
  method CheckQueue(busy: bool, queue: seq<Run>, latched: set<nat>, env: nat -> RunEnv) returns (d: Drain)
    ensures busy ==> d == Drain([], queue, true)
    ensures !busy ==> d.queue == [] && !d.busy
    ensures !busy ==> d.trace == DrainTrace(queue, latched, env)
    ensures !busy ==> Starts(d.trace) == Ids(queue)
  {
    if busy {
      return Drain([], queue, true);
    }
    var trace: seq<Event> := [];
    var i := 0;
    while i < |queue|
      invariant i <= |queue|
      invariant trace == DrainTrace(queue[..i], latched, env)
    {
      DrainStep(queue, i, latched, env);
      trace := trace + RunTrace(queue[i], latched, env);
      i := i + 1;
    }
    assert queue[..i] == queue;
    DrainStarts(queue, latched, env);
    return Drain(trace, [], false);
  }

  lemma DrainStep(q: seq<Run>, i: nat, latched: set<nat>, env: nat -> RunEnv)
    requires i < |q|
    ensures DrainTrace(q[..i + 1], latched, env) == DrainTrace(q[..i], latched, env) + RunTrace(q[i], latched, env)
  {
    assert q[..i + 1] == q[..i] + [q[i]];
    DrainAppend(q[..i], [q[i]], latched, env);
  }

  // ---------------------------------------------------------------------
  // Properties.

  lemma {:induction false} DrainAppend(a: seq<Run>, b: seq<Run>, latched: set<nat>, env: nat -> RunEnv)
    ensures DrainTrace(a + b, latched, env) == DrainTrace(a, latched, env) + DrainTrace(b, latched, env)
    decreases |a|
  {
    if |a| == 0 {
      assert a + b == b;
    } else {
      assert (a + b)[1..] == a[1..] + b;
      DrainAppend(a[1..], b, latched, env);
    }
  }

  /** Every queued run is started, in queue order, whether an earlier run
      completed, was cancelled or raised, and whether or not its own latch
      was set while it waited. */
  lemma {:induction false} DrainStarts(q: seq<Run>, latched: set<nat>, env: nat -> RunEnv)
    ensures Starts(DrainTrace(q, latched, env)) == Ids(q)
    decreases |q|
  {
    if |q| > 0 {
      var e := env(q[0].runId);
      RunStaysInLane(q[0], e.ec, EffectiveCancel(e, latched, q[0].runId), e.fail);
      ViewsAppend(RunTrace(q[0], latched, env), DrainTrace(q[1..], latched, env));
      DrainStarts(q[1..], latched, env);
      assert Ids(q) == [q[0].runId] + Ids(q[1..]);
    }
  }

  /** Runs never interleave: with ids increasing along the queue, the run
      ids of the status updates never go back, and none precedes the run
      at the head. */
  lemma {:induction false} DrainSingleFlight(q: seq<Run>, latched: set<nat>, env: nat -> RunEnv)
    requires forall i, j :: 0 <= i < j < |q| ==> q[i].runId < q[j].runId
    ensures IdsNonDecreasing(Statuses(DrainTrace(q, latched, env)))
    ensures |q| > 0 ==> IdsFrom(Statuses(DrainTrace(q, latched, env)), q[0].runId)
    decreases |q|
  {
    if |q| > 0 {
      var first := RunTrace(q[0], latched, env);
      var rest := DrainTrace(q[1..], latched, env);
      assert DrainTrace(q, latched, env) == first + rest;
      RunTraceOwnStatuses(q[0], latched, env);
      ProjectAppend(first, rest, StatusOf);
      if |q| == 1 {
        assert rest == [];
        SortedJoin(Statuses(first), [], q[0].runId, q[0].runId + 1);
      } else {
        IncreasingTail(q);
        DrainSingleFlight(q[1..], latched, env);
        SortedJoin(Statuses(first), Statuses(rest), q[0].runId, q[1].runId);
      }
    }
  }

  lemma IncreasingTail(q: seq<Run>)
    requires |q| > 1
    requires forall i, j :: 0 <= i < j < |q| ==> q[i].runId < q[j].runId
    ensures forall i, j :: 0 <= i < j < |q[1..]| ==> q[1..][i].runId < q[1..][j].runId
    ensures q[1..][0] == q[1] && q[0].runId < q[1].runId
  {
    forall i, j | 0 <= i < j < |q[1..]| ensures q[1..][i].runId < q[1..][j].runId {
      assert q[1..][i] == q[i + 1] && q[1..][j] == q[j + 1];
    }
  }

  /** The status updates of a run all name that run. */
  lemma RunTraceOwnStatuses(run: Run, latched: set<nat>, env: nat -> RunEnv)
    ensures forall k :: 0 <= k < |Statuses(RunTrace(run, latched, env))| ==> Statuses(RunTrace(run, latched, env))[k].0 == run.runId
  {
    var e := env(run.runId);
    RunStaysInLane(run, e.ec, EffectiveCancel(e, latched, run.runId), e.fail);
  }

  /** The run ids of status updates never go back. */
  predicate IdsNonDecreasing(st: seq<(nat, string)>)
  {
    forall i, j :: 0 <= i <= j < |st| ==> st[i].0 <= st[j].0
  }

  predicate IdsFrom(st: seq<(nat, string)>, id: nat)
  {
    forall k :: 0 <= k < |st| ==> id <= st[k].0
  }

  lemma SortedJoin(a: seq<(nat, string)>, b: seq<(nat, string)>, id: nat, next: nat)
    requires forall k :: 0 <= k < |a| ==> a[k].0 == id
    requires id < next && IdsFrom(b, next) && IdsNonDecreasing(b)
    ensures IdsNonDecreasing(a + b) && IdsFrom(a + b, id)
  {
  }

  /** The comparisons of every run of the queue, in queue order. */
  function ResultsOf(q: seq<Run>, env: nat -> RunEnv): seq<Comparison>
    decreases |q|
  {
    if |q| == 0 then [] else Results(q[0].kind, env(q[0].runId).ec) + ResultsOf(q[1..], env)
  }

  /** When every run completes, the result queue receives every comparison
      of every run, run after run in queue order. */
  lemma {:induction false} DrainPushes(q: seq<Run>, latched: set<nat>, env: nat -> RunEnv)
    requires forall k :: 0 <= k < |q| ==> RunOutcome(q[k], latched, env) == Completed
    ensures Pushes(DrainTrace(q, latched, env)) == ResultsOf(q, env)
    decreases |q|
  {
    if |q| > 0 {
      var e := env(q[0].runId);
      assert RunOutcome(q[0], latched, env) == Completed;
      CompletedRun(q[0], e.ec, EffectiveCancel(e, latched, q[0].runId), e.fail);
      ViewsAppend(RunTrace(q[0], latched, env), DrainTrace(q[1..], latched, env));
      assert forall k :: 0 <= k < |q[1..]| ==> q[1..][k] == q[k + 1];
      DrainPushes(q[1..], latched, env);
    }
  }

  /** A run whose latch was set while it waited is not skipped: it
      announces loading, sizes the bar and stops at its first checkpoint. */
  lemma LatchedRunStillStarts(run: Run, latched: set<nat>, env: nat -> RunEnv)
    requires run.runId in latched
    requires CheckList(run.kind, env(run.runId).ec).Some? && |Replays(run.kind, env(run.runId).ec)| > 0
    requires env(run.runId).fail != Some(Prepare) && env(run.runId).fail != Some(NewSession)
    ensures RunOutcome(run, latched, env) == Canceled
    ensures RunTrace(run, latched, env)
            == Opening(run.runId) + [ProgressReset(|Replays(run.kind, env(run.runId).ec)|)] + CancelBlock
  {
    CanceledWhileQueued(run, env(run.runId).ec, env(run.runId).fail);
  }

  /** The last status a run shows: "Finished" unless it was cancelled, in
      which case the status it had when the latch was seen. */
  lemma RunLastStatus(run: Run, ec: EngineChecks, cancelAt: Option<nat>, fail: Option<FailPoint>)
    ensures
      var st := Statuses(RunCircleguard(run, ec, cancelAt, fail));
      && |st| > 0
      && (forall k :: 0 <= k < |st| ==> st[k].0 == run.runId)
      && (st[|st| - 1].1 == FINISHED <==> OutcomeOf(run, ec, cancelAt, fail) != Canceled)
      && (OutcomeOf(run, ec, cancelAt, fail) == Canceled ==> st[|st| - 1].1 in {LOADING, COMPARING})
  {
    RunStaysInLane(run, ec, cancelAt, fail);
    match OutcomeOf(run, ec, cancelAt, fail)
    case Completed =>
      CompletedRun(run, ec, cancelAt, fail);
    case Canceled =>
      CanceledRun(run, ec, cancelAt, fail);
    case Raised =>
      RaisedRun(run, ec, cancelAt, fail);
  }

  lemma {:induction false} ApplyStatusesAppend(r: Registry, a: seq<(nat, string)>, b: seq<(nat, string)>)
    ensures ApplyStatuses(r, a + b) == ApplyStatuses(ApplyStatuses(r, a), b)
    decreases |a|
  {
    if |a| == 0 {
      assert a + b == b;
    } else {
      assert (a + b)[1..] == a[1..] + b;
      ApplyStatusesAppend(UpdateStatus(r, a[0].0, a[0].1), a[1..], b);
    }
  }

  /** Applying one run's status updates moves its own row to the run's last
      status, "Finished" exactly when the run was not cancelled, and leaves
      the other rows alone. */
  lemma ApplyOneRun(r: Registry, run: Run, latched: set<nat>, env: nat -> RunEnv)
    requires run.runId < |r.rows|
    ensures
      var r1 := ApplyStatuses(r, Statuses(RunTrace(run, latched, env)));
      && (r1.rows[run.runId].status == Some(FINISHED) <==> RunOutcome(run, latched, env) != Canceled)
      && (forall i :: 0 <= i < |r.rows| && i != run.runId ==> r1.rows[i] == r.rows[i])
  {
    var e := env(run.runId);
    RunLastStatus(run, e.ec, EffectiveCancel(e, latched, run.runId), e.fail);
    ApplyStatusesOneRun(r, run.runId, Statuses(RunTrace(run, latched, env)));
  }

  /** A drain's status updates are those of its first run, then the rest. */
  lemma DrainStatusesHead(q: seq<Run>, latched: set<nat>, env: nat -> RunEnv, r: Registry)
    requires |q| > 0
    ensures ApplyStatuses(r, Statuses(DrainTrace(q, latched, env)))
         == ApplyStatuses(ApplyStatuses(r, Statuses(RunTrace(q[0], latched, env))), Statuses(DrainTrace(q[1..], latched, env)))
  {
    ProjectAppend(RunTrace(q[0], latched, env), DrainTrace(q[1..], latched, env), StatusOf);
    ApplyStatusesAppend(r, Statuses(RunTrace(q[0], latched, env)), Statuses(DrainTrace(q[1..], latched, env)));
  }

  /** A drain touches only the rows of the runs it drains. */
  lemma {:induction false} RowsUntouched(r: Registry, q: seq<Run>, latched: set<nat>, env: nat -> RunEnv)
    requires forall k :: 0 <= k < |q| ==> q[k].runId < |r.rows|
    ensures
      var r' := ApplyStatuses(r, Statuses(DrainTrace(q, latched, env)));
      forall i :: 0 <= i < |r.rows| && (forall k :: 0 <= k < |q| ==> q[k].runId != i) ==> r'.rows[i] == r.rows[i]
    decreases |q|
  {
    if |q| > 0 {
      DrainStatusesHead(q, latched, env, r);
      ApplyOneRun(r, q[0], latched, env);
      var r1 := ApplyStatuses(r, Statuses(RunTrace(q[0], latched, env)));
      assert forall k :: 1 <= k < |q| ==> q[k] == q[1..][k - 1];
      RowsUntouched(r1, q[1..], latched, env);
    }
  }

  /** The queue-tab rows after a drain: each queued run's row says
      "Finished" exactly when the run was not cancelled. */
  lemma {:induction false} RowsAfterDrain(r: Registry, q: seq<Run>, latched: set<nat>, env: nat -> RunEnv)
    requires forall k :: 0 <= k < |q| ==> q[k].runId < |r.rows|
    requires forall i, j :: 0 <= i < j < |q| ==> q[i].runId < q[j].runId
    ensures
      var r' := ApplyStatuses(r, Statuses(DrainTrace(q, latched, env)));
      forall k :: 0 <= k < |q| ==>
        q[k].runId < |r'.rows| &&
        (r'.rows[q[k].runId].status == Some(FINISHED) <==> RunOutcome(q[k], latched, env) != Canceled)
    decreases |q|
  {
    if |q| > 0 {
      var tail := q[1..];
      var r1 := ApplyStatuses(r, Statuses(RunTrace(q[0], latched, env)));
      var r' := ApplyStatuses(r, Statuses(DrainTrace(q, latched, env)));
      DrainStatusesHead(q, latched, env, r);
      assert r' == ApplyStatuses(r1, Statuses(DrainTrace(tail, latched, env)));
      ApplyOneRun(r, q[0], latched, env);
      assert forall k :: 0 <= k < |tail| ==> tail[k] == q[k + 1];
      RowsUntouched(r1, tail, latched, env);
      RowsAfterDrain(r1, tail, latched, env);
      forall k | 0 <= k < |q|
        ensures q[k].runId < |r'.rows|
        ensures r'.rows[q[k].runId].status == Some(FINISHED) <==> RunOutcome(q[k], latched, env) != Canceled
      {
        if k > 0 {
          assert q[k] == tail[k - 1];
        }
      }
    }
  }

  /** Draining a consistent registry: the queue empties, the latches and
      the run list stay, and every queued run's row ends on "Finished"
      exactly when it was not cancelled. */
  function DrainRegistry(r: Registry, env: nat -> RunEnv): (r': Registry)
    ensures r'.queue == [] && r'.runs == r.runs && r'.latched == r.latched && r'.nextId == r.nextId
  {
    ApplyStatuses(r.(queue := []), Statuses(DrainTrace(r.queue, r.latched, env)))
  }

  lemma DrainRegistryRows(r: Registry, env: nat -> RunEnv)
    requires Valid(r)
    ensures Valid(DrainRegistry(r, env))
    ensures forall k :: 0 <= k < |r.queue| ==>
      (DrainRegistry(r, env).rows[r.queue[k].runId].status == Some(FINISHED)
       <==> RunOutcome(r.queue[k], r.latched, env) != Canceled)
  {
    var base := |r.runs| - |r.queue|;
    assert forall k :: 0 <= k < |r.queue| ==> r.queue[k] == r.runs[base + k];
    assert forall k :: 0 <= k < |r.queue| ==> r.queue[k].runId == base + k;
    ApplyStatusesValid(r.(queue := []), Statuses(DrainTrace(r.queue, r.latched, env)));
    RowsUntouched(r.(queue := []), r.queue, r.latched, env);
    RowsAfterDrain(r.(queue := []), r.queue, r.latched, env);
  }

  /** Pressing "Run" (`add_circleguard_run`): the submission, then the
      immediate queue check. A tab index outside the register raises before
      anything happens, the queue check included. When no drain is running,
      the new run is executed last, after every run queued before it. */
  method AddRun(r: Registry, index: int, f: Form, busy: bool, env: nat -> RunEnv)
    returns (r': Registry, run: Option<Run>, d: Drain)
    ensures run == Submit(r, index, f).1
    ensures run.None? ==> r' == r && d == Drain([], r.queue, busy)
    ensures run.Some? && busy ==> r' == Submit(r, index, f).0 && d == Drain([], r'.queue, true)
    ensures run.Some? && !busy ==>
      && r' == DrainRegistry(Submit(r, index, f).0, env) && r'.queue == [] && !d.busy
      && Starts(d.trace) == Ids(r.queue) + [run.value.runId]
  {
    var submitted := Submit(r, index, f);
    run := submitted.1;
    if run.None? {
      return r, run, Drain([], r.queue, busy);
    }
    var r0 := submitted.0;
    d := CheckQueue(busy, r0.queue, r0.latched, env);
    if busy {
      r' := r0;
    } else {
      r' := DrainRegistry(r0, env);
      assert Ids(r0.queue) == Ids(r.queue) + [run.value.runId];
    }
  }
}
