/** Views of an event trace: the statuses, labels, loads, pushes and
    progress signals it contains, each kept in emission order. */
module Trace {
  import opened Optional
  import opened Runs

  function Keep<T>(o: Option<T>): seq<T>
  {
    if o.Some? then [o.value] else []
  }

  /** The payloads that `pick` extracts from the elements of `t` (events
      of a run, or effects of the result handler), in order. */
  function Project<E, T>(t: seq<E>, pick: E -> Option<T>): (r: seq<T>)
    ensures |r| <= |t|
  {
    if |t| == 0 then [] else Keep(pick(t[0])) + Project(t[1..], pick)
  }

  function StatusOf(e: Event): Option<(nat, string)>
  {
    if e.Status? then Some((e.runId, e.status)) else None
  }

  function StartOf(e: Event): Option<nat>
  {
    if e.Status? && e.status == LOADING then Some(e.runId) else None
  }

  function LabelOf(e: Event): Option<string>
  {
    if e.Label? then Some(e.text) else None
  }

  function LoadOf(e: Event): Option<Replay>
  {
    if e.Load? then Some(e.replay) else None
  }

  function PushOf(e: Event): Option<Comparison>
  {
    if e.Push? then Some(e.result) else None
  }

  function ProgressOf(e: Event): Option<Event>
  {
    if e.ProgressReset? || e.ProgressInc? then Some(e) else None
  }

  /** The (run, status) pairs sent to the queue tab. */
  function Statuses(t: seq<Event>): seq<(nat, string)> { Project(t, StatusOf) }

  /** The ids of the runs that entered loading, in order. */
  function Starts(t: seq<Event>): seq<nat> { Project(t, StartOf) }

  /** The texts given to the activity label. */
  function Labels(t: seq<Event>): seq<string> { Project(t, LabelOf) }

  /** The replays whose load completed. */
  function Loads(t: seq<Event>): seq<Replay> { Project(t, LoadOf) }

  /** The comparisons put on the result queue. */
  function Pushes(t: seq<Event>): seq<Comparison> { Project(t, PushOf) }

  /** The progress-bar signals. */
  function Progress(t: seq<Event>): seq<Event> { Project(t, ProgressOf) }

  /** `n` copies of the one-step progress increment. */
  function Increments(n: nat): (r: seq<Event>)
    ensures |r| == n
    ensures forall i :: 0 <= i < n ==> r[i] == ProgressInc(1)
  {
    seq(n, _ => ProgressInc(1))
  }

  lemma {:induction false} ProjectAppend<E, T>(a: seq<E>, b: seq<E>, pick: E -> Option<T>)
    ensures Project(a + b, pick) == Project(a, pick) + Project(b, pick)
    decreases |a|
  {
    if |a| == 0 {
      assert a + b == b;
    } else {
      assert (a + b)[0] == a[0];
      assert (a + b)[1..] == a[1..] + b;
      ProjectAppend(a[1..], b, pick);
    }
  }

  lemma ProjectOne<E, T>(e: E, pick: E -> Option<T>)
    ensures Project([e], pick) == Keep(pick(e))
  {
    assert [e][1..] == [];
  }

  lemma ProjectTwo<E, T>(e1: E, e2: E, pick: E -> Option<T>)
    ensures Project([e1, e2], pick) == Keep(pick(e1)) + Keep(pick(e2))
  {
    assert [e1, e2] == [e1] + [e2];
    ProjectAppend([e1], [e2], pick);
    ProjectOne(e1, pick);
    ProjectOne(e2, pick);
  }

  /** A view of a prefix of a trace is a prefix of the view of the trace. */
  lemma ProjectPrefix<E, T>(t: seq<E>, k: nat, pick: E -> Option<T>)
    requires k <= |t|
    ensures Project(t[..k], pick) <= Project(t, pick)
  {
    assert t == t[..k] + t[k..];
    ProjectAppend(t[..k], t[k..], pick);
  }

  /** All views of a trace at once. */
  datatype Views = Views(statuses: seq<(nat, string)>, labels: seq<string>, loads: seq<Replay>,
                         pushes: seq<Comparison>, progress: seq<Event>, starts: seq<nat>)

  function ViewsOf(t: seq<Event>): Views
  {
    Views(Statuses(t), Labels(t), Loads(t), Pushes(t), Progress(t), Starts(t))
  }

  /** The views of two traces one after the other. */
  function Join(v: Views, w: Views): Views
  {
    Views(v.statuses + w.statuses, v.labels + w.labels, v.loads + w.loads,
          v.pushes + w.pushes, v.progress + w.progress, v.starts + w.starts)
  }

  const NoViews := Views([], [], [], [], [], [])

  lemma ViewsAppend(a: seq<Event>, b: seq<Event>)
    ensures ViewsOf(a + b) == Join(ViewsOf(a), ViewsOf(b))
  {
    ProjectAppend(a, b, StatusOf);
    ProjectAppend(a, b, LabelOf);
    ProjectAppend(a, b, LoadOf);
    ProjectAppend(a, b, PushOf);
    ProjectAppend(a, b, ProgressOf);
    ProjectAppend(a, b, StartOf);
  }

  /** The views of a one-event trace. */
  lemma ViewsOne(e: Event)
    ensures ViewsOf([e]) == Views(Keep(StatusOf(e)), Keep(LabelOf(e)), Keep(LoadOf(e)),
                                  Keep(PushOf(e)), Keep(ProgressOf(e)), Keep(StartOf(e)))
  {
    ProjectOne(e, StatusOf);
    ProjectOne(e, LabelOf);
    ProjectOne(e, LoadOf);
    ProjectOne(e, PushOf);
    ProjectOne(e, ProgressOf);
    ProjectOne(e, StartOf);
  }

  lemma ViewsTwo(e1: Event, e2: Event)
    ensures ViewsOf([e1, e2]) == Join(ViewsOf([e1]), ViewsOf([e2]))
  {
    assert [e1, e2] == [e1] + [e2];
    ViewsAppend([e1], [e2]);
  }

  /** The views of a prefix are prefixes of the views. */
  lemma ViewsPrefix(t: seq<Event>, k: nat)
    requires k <= |t|
    ensures var v, w := ViewsOf(t[..k]), ViewsOf(t);
      && v.statuses <= w.statuses && v.labels <= w.labels && v.loads <= w.loads
      && v.pushes <= w.pushes && v.progress <= w.progress && v.starts <= w.starts
  {
    ProjectPrefix(t, k, StatusOf);
    ProjectPrefix(t, k, LabelOf);
    ProjectPrefix(t, k, LoadOf);
    ProjectPrefix(t, k, PushOf);
    ProjectPrefix(t, k, ProgressOf);
    ProjectPrefix(t, k, StartOf);
  }
}
