/** The run registry of the main tab and the queue tab (circleguard/gui.py):
    a run counter, the list of submitted runs indexed by id, the FIFO of runs
    waiting for the executor, the cancellation latches, and one queue-tab row
    per run. */
module Registry {
  import opened Optional
  import opened Runs

  /** The values read from every tab when "Run" is pressed. Text fields are
      already parsed: an empty field is `None`. */
  datatype Form = Form(
    mapMapId: Option<int>, mapUserId: Option<int>, mapNum: int, mapThresh: int,
    screenUserId: Option<int>, screenNumTop: int, screenNumUsers: int, screenThresh: int,
    localPath: string, localMapId: Option<int>, localUserId: Option<int>, localNum: int, localThresh: int,
    verifyMapId: Option<int>, verifyUserId1: Option<int>, verifyUserId2: Option<int>, verifyThresh: int)

  /** The tab names, in tab order. */
  const TAB_REGISTER: seq<string> := ["MAP", "SCREEN", "LOCAL", "VERIFY"]

  /** The register entry at a tab index, with list indexing as in Python:
      a negative index counts from the end, anything else out of range
      raises. */
  function TabName(index: int): (r: Option<string>)
    ensures r.Some? <==> -|TAB_REGISTER| <= index < |TAB_REGISTER|
    ensures 0 <= index < |TAB_REGISTER| ==> r == Some(TAB_REGISTER[index])
    ensures r.Some? ==> r.value in TAB_REGISTER
  {
    if 0 <= index < |TAB_REGISTER| then Some(TAB_REGISTER[index])
    else if -|TAB_REGISTER| <= index < 0 then Some(TAB_REGISTER[index + |TAB_REGISTER|])
    else None
  }

  /** The run kind a tab name stands for, built from that tab's fields. */
  function KindFor(name: string, f: Form): Option<RunKind>
  {
    if name == "MAP" then Some(MapRun(f.mapMapId, f.mapUserId, f.mapNum, f.mapThresh))
    else if name == "SCREEN" then Some(ScreenRun(f.screenUserId, f.screenNumTop, f.screenNumUsers, f.screenThresh))
    else if name == "LOCAL" then Some(LocalRun(f.localPath, f.localMapId, f.localUserId, f.localNum, f.localThresh))
    else if name == "VERIFY" then Some(VerifyRun(f.verifyMapId, f.verifyUserId1, f.verifyUserId2, f.verifyThresh))
    else None
  }

  /** A queue-tab row: the last status shown for the run, and whether its
      cancel button was pressed. */
  datatype Row = Row(runId: nat, status: Option<string>, canceled: bool)

  datatype Registry = Registry(nextId: nat, runs: seq<Run>, latched: set<nat>, queue: seq<Run>, rows: seq<Row>)

  const Initial := Registry(0, [], {}, [], [])

  /** The counter counts the runs, a run's id is its index in the run list
      and in the row list, latches belong to submitted runs, and the queue
      holds the latest submissions in submission order. */
  predicate Valid(r: Registry)
  {
    && r.nextId == |r.runs| == |r.rows|
    && (forall i :: 0 <= i < |r.runs| ==> r.runs[i].runId == i)
    && (forall i :: 0 <= i < |r.rows| ==> r.rows[i].runId == i)
    && (forall id :: id in r.latched ==> id < |r.runs|)
    && |r.queue| <= |r.runs|
    && r.queue == r.runs[|r.runs| - |r.queue|..]
  }

  lemma InitialValid()
    ensures Valid(Initial)
  {
  }

  /** Pressing "Run" on tab `index`: the run gets the next id, is recorded,
      gets its queue-tab row and is queued; the counter moves on. An index
      outside the register raises before anything changes. */
  function Submit(r: Registry, index: int, f: Form): (res: (Registry, Option<Run>))
    ensures res.1.Some? <==> TabName(index).Some?
    ensures res.1.None? ==> res.0 == r
    ensures res.1.Some? ==>
      var run := res.1.value;
      && run.runId == r.nextId
      && res.0 == Registry(r.nextId + 1, r.runs + [run], r.latched, r.queue + [run],
                           r.rows + [Row(run.runId, None, false)])
  {
    match TabName(index)
    case None => (r, None)
    case Some(name) =>
      match KindFor(name, f)
      case None => (r, None)
      case Some(kind) =>
        var run := Run(r.nextId, kind);
        (Registry(r.nextId + 1, r.runs + [run], r.latched, r.queue + [run], r.rows + [Row(run.runId, None, false)]),
         Some(run))
  }

  /** Setting a run's latch (`WindowWrapper.cancel_run`); an id that names
      no run raises and changes nothing. */
  function Cancel(r: Registry, id: nat): (res: Registry)
    ensures res.nextId == r.nextId && res.runs == r.runs && res.queue == r.queue && res.rows == r.rows
    ensures id < |r.runs| ==> res.latched == r.latched + {id}
    ensures id >= |r.runs| ==> res.latched == r.latched
  {
    if id < |r.runs| then r.(latched := r.latched + {id}) else r
  }

  /** Showing a status in a run's row (`QueueTab.update_status`). */
  function UpdateStatus(r: Registry, id: nat, status: string): (res: Registry)
    ensures res.nextId == r.nextId && res.runs == r.runs && res.queue == r.queue && res.latched == r.latched
    ensures |res.rows| == |r.rows|
    ensures forall i :: 0 <= i < |r.rows| && i != id ==> res.rows[i] == r.rows[i]
    ensures id < |r.rows| ==> res.rows[id] == r.rows[id].(status := Some(status))
  {
    if id < |r.rows| then r.(rows := r.rows[id := r.rows[id].(status := Some(status))]) else r
  }

  /** The cancel button of a row (`QueueTab.cancel_run`): the cancel signal
      is handled at once and sets the latch, then the row is marked. */
  function QueueCancel(r: Registry, id: nat): (res: Registry)
    ensures res.nextId == r.nextId && res.runs == r.runs && res.queue == r.queue
    ensures res.latched == Cancel(r, id).latched
    ensures |res.rows| == |r.rows|
    ensures forall i :: 0 <= i < |r.rows| && i != id ==> res.rows[i] == r.rows[i]
    ensures id < |r.rows| ==> res.rows[id] == r.rows[id].(canceled := true)
  {
    var latched := Cancel(r, id);
    if id < |latched.rows| then latched.(rows := latched.rows[id := latched.rows[id].(canceled := true)]) else latched
  }

  /** The status signals of a run's trace, shown one after the other. */
  function ApplyStatuses(r: Registry, statuses: seq<(nat, string)>): (res: Registry)
    ensures res.nextId == r.nextId && res.runs == r.runs && res.queue == r.queue && res.latched == r.latched
    ensures |res.rows| == |r.rows|
    decreases |statuses|
  {
    if |statuses| == 0 then r
    else ApplyStatuses(UpdateStatus(r, statuses[0].0, statuses[0].1), statuses[1..])
  }

  /** Submissions one after the other; rejected ones change nothing. */
  function SubmitAll(r: Registry, presses: seq<(int, Form)>): Registry
    decreases |presses|
  {
    if |presses| == 0 then r else SubmitAll(Submit(r, presses[0].0, presses[0].1).0, presses[1..])
  }

  // ---------------------------------------------------------------------
  // Properties.

  /** Every tab of the register builds a run. */
  lemma TabNameBuildsRun(index: int, f: Form)
    requires TabName(index).Some?
    ensures KindFor(TabName(index).value, f).Some?
  {
  }

  /** Negative indices reach the same tabs as their non-negative twins. */
  lemma TabNameWraps(index: int)
    requires 0 <= index < |TAB_REGISTER|
    ensures TabName(index - |TAB_REGISTER|) == TabName(index)
  {
  }

  /** The kind of a run follows the tab it was submitted from. */
  lemma SubmitKind(r: Registry, index: int, f: Form)
    requires TabName(index).Some?
    ensures
      var kind, name := Submit(r, index, f).1.value.kind, TabName(index).value;
      && (kind.MapRun? <==> name == "MAP") && (kind.ScreenRun? <==> name == "SCREEN")
      && (kind.LocalRun? <==> name == "LOCAL") && (kind.VerifyRun? <==> name == "VERIFY")
  {
  }

  /** A submission keeps the registry consistent, and afterwards the run
      list at the new id holds the submitted run, which is last in the
      queue. */
  lemma SubmitValid(r: Registry, index: int, f: Form)
    requires Valid(r)
    ensures Valid(Submit(r, index, f).0)
    ensures
      var (r', run) := Submit(r, index, f);
      run.Some? ==> r'.runs[run.value.runId] == run.value && r'.queue[|r'.queue| - 1] == run.value
  {
    var (r', run) := Submit(r, index, f);
    if run.Some? {
      assert r'.runs[|r'.runs| - |r'.queue|..] == r.runs[|r.runs| - |r.queue|..] + [run.value];
    }
  }

  /** The counter never goes back, and earlier runs and latches stay as
      they were. */
  lemma {:induction false} SubmitAllGrows(r: Registry, presses: seq<(int, Form)>)
    requires Valid(r)
    ensures Valid(SubmitAll(r, presses))
    ensures r.nextId <= SubmitAll(r, presses).nextId
    ensures r.runs <= SubmitAll(r, presses).runs
    ensures SubmitAll(r, presses).latched == r.latched
    decreases |presses|
  {
    if |presses| > 0 {
      SubmitValid(r, presses[0].0, presses[0].1);
      SubmitAllGrows(Submit(r, presses[0].0, presses[0].1).0, presses[1..]);
    }
  }

  /** From the start, the i-th accepted press gets id i, and the run with
      that id is the one that press built from its tab and fields. */
  lemma SubmitAllIds(presses: seq<(int, Form)>)
    ensures
      var r, a := SubmitAll(Initial, presses), AcceptedPresses(presses);
      && |r.runs| == |a|
      && forall i :: 0 <= i < |r.runs| ==> r.runs[i].runId == i && r.runs[i] == PressRun(i, a[i])
  {
    SubmitAllRuns(Initial, presses);
    var r, a := SubmitAll(Initial, presses), AcceptedPresses(presses);
    forall i | 0 <= i < |r.runs|
      ensures r.runs[i] == PressRun(i, a[i])
    {
      assert r.runs[|Initial.runs| + i] == PressRun(|Initial.runs| + i, a[i]);
    }
  }

  /** The run an accepted press builds when it is given id `id`. */
  function PressRun(id: nat, press: (int, Form)): Run
    requires TabName(press.0).Some?
  {
    Run(id, KindFor(TabName(press.0).value, press.1).value)
  }

  /** Submitting presses one after the other appends, in order, the run of
      each accepted press, numbered on from the run list's length. */
  lemma {:induction false} SubmitAllRuns(r: Registry, presses: seq<(int, Form)>)
    requires r.nextId == |r.runs|
    ensures
      var r', a := SubmitAll(r, presses), AcceptedPresses(presses);
      && |r'.runs| == |r.runs| + |a|
      && r.runs <= r'.runs
      && forall i :: 0 <= i < |a| ==> r'.runs[|r.runs| + i] == PressRun(|r.runs| + i, a[i])
    decreases |presses|
  {
    if |presses| > 0 {
      var p := presses[0];
      var r1 := Submit(r, p.0, p.1).0;
      var a, a' := AcceptedPresses(presses), AcceptedPresses(presses[1..]);
      SubmitAllRuns(r1, presses[1..]);
      var r' := SubmitAll(r1, presses[1..]);
      assert r' == SubmitAll(r, presses);
      if TabName(p.0).Some? {
        assert a == [p] + a';
        SubmitRun(r, p);
        forall i | 0 <= i < |a|
          ensures r'.runs[|r.runs| + i] == PressRun(|r.runs| + i, a[i])
        {
          if i == 0 {
            assert r'.runs[|r.runs|] == r1.runs[|r.runs|];
          } else {
            assert a[i] == a'[i - 1];
          }
        }
      } else {
        assert a == a' && r1 == r;
      }
    }
  }

  /** An accepted press appends its run to the run list. */
  lemma SubmitRun(r: Registry, press: (int, Form))
    requires r.nextId == |r.runs| && TabName(press.0).Some?
    ensures Submit(r, press.0, press.1).0.runs == r.runs + [PressRun(|r.runs|, press)]
    ensures Submit(r, press.0, press.1).0.nextId == |Submit(r, press.0, press.1).0.runs|
  {
  }

  /** The presses whose tab index is in the register. */
  function AcceptedPresses(presses: seq<(int, Form)>): (a: seq<(int, Form)>)
    ensures |a| <= |presses|
    ensures forall i :: 0 <= i < |a| ==> TabName(a[i].0).Some? && a[i] in presses
  {
    if |presses| == 0 then []
    else (if TabName(presses[0].0).Some? then [presses[0]] else []) + AcceptedPresses(presses[1..])
  }

  lemma {:induction false} SubmitAllCounts(r: Registry, presses: seq<(int, Form)>)
    ensures |SubmitAll(r, presses).runs| == |r.runs| + |AcceptedPresses(presses)|
    decreases |presses|
  {
    if |presses| > 0 {
      SubmitAllCounts(Submit(r, presses[0].0, presses[0].1).0, presses[1..]);
    }
  }

  /** Cancelling keeps the registry consistent, latches exactly the named
      run, and a latch once set stays set. */
  lemma CancelValid(r: Registry, id: nat)
    requires Valid(r)
    ensures Valid(Cancel(r, id)) && Valid(QueueCancel(r, id))
    ensures r.latched <= Cancel(r, id).latched
    ensures forall j :: j != id ==> (j in Cancel(r, id).latched <==> j in r.latched)
    ensures id in Cancel(r, id).latched <==> id < |r.runs|
  {
  }

  /** Cancelling twice is cancelling once. */
  lemma CancelIdempotent(r: Registry, id: nat)
    ensures Cancel(Cancel(r, id), id) == Cancel(r, id)
    ensures QueueCancel(QueueCancel(r, id), id) == QueueCancel(r, id)
  {
  }

  /** Cancellations commute: the latches set do not depend on the order of
      the presses. */
  lemma CancelCommutes(r: Registry, a: nat, b: nat)
    ensures Cancel(Cancel(r, a), b) == Cancel(Cancel(r, b), a)
  {
  }

  /** No operation clears a latch. */
  lemma LatchesOnlyGrow(r: Registry, index: int, f: Form, id: nat, s: string, statuses: seq<(nat, string)>)
    ensures r.latched <= Submit(r, index, f).0.latched
    ensures r.latched <= Cancel(r, id).latched && r.latched <= QueueCancel(r, id).latched
    ensures r.latched == UpdateStatus(r, id, s).latched == ApplyStatuses(r, statuses).latched
  {
  }

  /** Showing statuses keeps the registry consistent. */
  lemma {:induction false} ApplyStatusesValid(r: Registry, statuses: seq<(nat, string)>)
    requires Valid(r)
    ensures Valid(ApplyStatuses(r, statuses))
    decreases |statuses|
  {
    if |statuses| > 0 {
      ApplyStatusesValid(UpdateStatus(r, statuses[0].0, statuses[0].1), statuses[1..]);
    }
  }

  /** Statuses that all concern one run leave that run's row showing the
      last of them, and every other row as it was. */
  lemma {:induction false} ApplyStatusesOneRun(r: Registry, id: nat, statuses: seq<(nat, string)>)
    requires id < |r.rows| && |statuses| > 0
    requires forall k :: 0 <= k < |statuses| ==> statuses[k].0 == id
    ensures ApplyStatuses(r, statuses).rows[id] == r.rows[id].(status := Some(statuses[|statuses| - 1].1))
    ensures forall i :: 0 <= i < |r.rows| && i != id ==> ApplyStatuses(r, statuses).rows[i] == r.rows[i]
    decreases |statuses|
  {
    var r1 := UpdateStatus(r, id, statuses[0].1);
    if |statuses| > 1 {
      ApplyStatusesOneRun(r1, id, statuses[1..]);
    }
  }
}
