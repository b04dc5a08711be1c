/** The status-bar progress bar (`reset_progressbar` and
    `increment_progressbar` in circleguard/gui.py) and what the progress
    signals of one run leave it showing. */
module ProgressBar {
  import opened Optional
  import opened Runs
  import opened Trace
  import opened Executor
  import opened RunFacts

  /** A progress bar's range and value. A value of `minimum - 1` shows no
      progress at all; a range of 0 to 0 shows the "busy" animation. */
  datatype Bar = Bar(minimum: int, maximum: int, value: int)

  /** What `reset()` leaves on a 0 to 100 bar: nothing shown. */
  const Empty := Bar(0, 100, -1)

  /** The bar shows real progress: the value lies inside a range that
      starts at zero, so the widget never has to clamp it. */
  predicate Showing(b: Bar)
  {
    b.minimum == 0 && 0 <= b.value <= b.maximum
  }

  /** The bar shows real progress or nothing. */
  predicate Sane(b: Bar)
  {
    b == Empty || Showing(b)
  }

  /** `reset_progressbar`: -1 empties the bar, any other maximum restarts it
      from zero. */
  function Reset(b: Bar, maxValue: int): (r: Bar)
    ensures r.value == r.minimum - 1 <==> maxValue == -1
  {
    if maxValue != -1 then Bar(0, maxValue, 0) else Empty
  }

  /** `increment_progressbar`. */
  function Increment(b: Bar, increment: int): Bar
  {
    b.(value := b.value + increment)
  }

  /** The bar after one signal; signals that are not about the bar leave it
      alone. */
  function Apply(b: Bar, e: Event): Bar
  {
    match e
    case ProgressReset(m) => Reset(b, m)
    case ProgressInc(i) => Increment(b, i)
    case _ => b
  }

  /** The bar after a sequence of signals, delivered in order. */
  function ApplyAll(b: Bar, es: seq<Event>): Bar
    decreases |es|
  {
    if |es| == 0 then b else ApplyAll(Apply(b, es[0]), es[1..])
  }

  /** The progress signals a run sends before its closing reset. */
  function Base(n: nat): seq<Event>
  {
    [ProgressReset(n)] + Increments(n) + [ProgressReset(0)]
  }

  // ---------------------------------------------------------------------
  // Folding signals.

  lemma {:induction false} ApplyAllAppend(b: Bar, a: seq<Event>, c: seq<Event>)
    ensures ApplyAll(b, a + c) == ApplyAll(ApplyAll(b, a), c)
    decreases |a|
  {
    if |a| == 0 {
      assert a + c == c;
    } else {
      assert (a + c)[0] == a[0];
      assert (a + c)[1..] == a[1..] + c;
      ApplyAllAppend(Apply(b, a[0]), a[1..], c);
    }
  }

  /** `k` one-step increments add `k` to the value and keep the range. */
  lemma {:induction false} IncrementsAdd(b: Bar, k: nat)
    ensures ApplyAll(b, Increments(k)) == b.(value := b.value + k)
    decreases k
  {
    if k > 0 {
      assert Increments(k)[1..] == Increments(k - 1);
      IncrementsAdd(Increment(b, 1), k - 1);
    }
  }

  /** After the reset to `n` replays and `k` loads the bar shows `k` of `n`;
      it is full exactly when every replay is loaded. */
  lemma LoadingBar(b: Bar, n: nat, k: nat)
    requires k <= n
    ensures ApplyAll(b, [ProgressReset(n)] + Increments(k)) == Bar(0, n, k)
    ensures Showing(Bar(0, n, k)) && (k == n <==> Bar(0, n, k).value == Bar(0, n, k).maximum)
  {
    ApplyAllAppend(b, [ProgressReset(n)], Increments(k));
    assert ApplyAll(b, [ProgressReset(n)]) == Bar(0, n, 0) by {
      assert [ProgressReset(n)][1..] == [];
    }
    IncrementsAdd(Bar(0, n, 0), k);
  }

  /** Every prefix of the signals sent before the closing reset leaves the
      bar as it was (nothing sent yet) or showing progress; all of them
      leave it busy. */
  lemma PrefixBar(b: Bar, n: nat, p: seq<Event>)
    requires p <= Base(n)
    ensures p == [] ==> ApplyAll(b, p) == b
    ensures p != [] ==> Showing(ApplyAll(b, p))
    ensures p == Base(n) ==> ApplyAll(b, p) == Bar(0, 0, 0)
  {
    var q := Base(n);
    if 1 <= |p| <= n + 1 {
      assert p == [ProgressReset(n)] + Increments(|p| - 1) by {
        assert forall k :: 0 <= k < |p| ==> p[k] == q[k];
        assert forall k :: 1 <= k < |p| ==> q[k] == Increments(n)[k - 1];
      }
      LoadingBar(b, n, |p| - 1);
    } else if |p| == n + 2 {
      assert p == q;
      ApplyAllAppend(b, [ProgressReset(n)] + Increments(n), [ProgressReset(0)]);
      LoadingBar(b, n, n);
      assert [ProgressReset(0)][1..] == [];
    }
  }

  /** The closing reset empties the bar whatever it showed. */
  lemma Emptied(b: Bar, p: seq<Event>)
    ensures ApplyAll(b, p + [ProgressReset(-1)]) == Empty
  {
    ApplyAllAppend(b, p, [ProgressReset(-1)]);
    assert [ProgressReset(-1)][1..] == [];
  }

  // ---------------------------------------------------------------------
  // What a run leaves on the bar.

  /** A run that completes ends with the bar empty, after it was full when
      loading ended and busy while comparing. */
  lemma CompletedBar(run: Run, ec: EngineChecks, cancelAt: Option<nat>, fail: Option<FailPoint>, b: Bar)
    requires OutcomeOf(run, ec, cancelAt, fail) == Completed
    ensures ApplyAll(b, Progress(RunCircleguard(run, ec, cancelAt, fail))) == Empty
    ensures var n := |Replays(run.kind, ec)|;
      ApplyAll(b, [ProgressReset(n)] + Increments(n)) == Bar(0, n, n)
  {
    var n := |Replays(run.kind, ec)|;
    CompletedRun(run, ec, cancelAt, fail);
    assert [ProgressReset(n)] + Increments(n) + [ProgressReset(0), ProgressReset(-1)]
        == Base(n) + [ProgressReset(-1)];
    Emptied(b, Base(n));
    LoadingBar(b, n, n);
  }

  /** A canceled run also ends with the bar empty. */
  lemma CanceledBar(run: Run, ec: EngineChecks, cancelAt: Option<nat>, fail: Option<FailPoint>, b: Bar)
    requires OutcomeOf(run, ec, cancelAt, fail) == Canceled
    ensures ApplyAll(b, Progress(RunCircleguard(run, ec, cancelAt, fail))) == Empty
  {
    var n := |Replays(run.kind, ec)|;
    CanceledRun(run, ec, cancelAt, fail);
    if cancelAt.value < n {
      Emptied(b, [ProgressReset(n)] + Increments(cancelAt.value));
    } else {
      assert [ProgressReset(n)] + Increments(n) + [ProgressReset(0), ProgressReset(-1)]
          == Base(n) + [ProgressReset(-1)];
      Emptied(b, Base(n));
    }
  }

  /** A run that raises is never emptied: the bar keeps whatever progress
      the run had reached. */
  lemma RaisedBar(run: Run, ec: EngineChecks, cancelAt: Option<nat>, fail: Option<FailPoint>, b: Bar)
    requires OutcomeOf(run, ec, cancelAt, fail) == Raised
    ensures var p := Progress(RunCircleguard(run, ec, cancelAt, fail));
      (p == [] ==> ApplyAll(b, p) == b) && (p != [] ==> Showing(ApplyAll(b, p)))
  {
    RaisedRun(run, ec, cancelAt, fail);
    PrefixBar(b, |Replays(run.kind, ec)|, Progress(RunCircleguard(run, ec, cancelAt, fail)));
  }

  /** The loading signals up to the `c`-th load open the signals sent
      before the closing reset. */
  lemma LoadingOpensBase(n: nat, c: nat)
    requires c <= n
    ensures [ProgressReset(n)] + Increments(c) <= Base(n)
  {
    var x, q := [ProgressReset(n)] + Increments(c), Base(n);
    forall k | 1 <= k < |x|
      ensures x[k] == q[k]
    {
      assert x[k] == Increments(c)[k - 1];
      assert q[k] == Increments(n)[k - 1];
    }
  }

  /** A cut of `x` followed by the closing reset, with `x` a prefix of the
      signals sent before the closing reset, leaves a sane bar sane. */
  lemma CutBeforeClose(b: Bar, n: nat, x: seq<Event>, k: nat)
    requires Sane(b) && x <= Base(n) && k <= |x| + 1
    ensures Sane(ApplyAll(b, (x + [ProgressReset(-1)])[..k]))
  {
    var t := x + [ProgressReset(-1)];
    if k <= |x| {
      assert t[..k] == x[..k];
      PrefixBar(b, n, x[..k]);
    } else {
      assert t[..k] == t;
      Emptied(b, x);
    }
  }

  /** Every signal of every run, whatever its outcome, leaves a sane bar
      sane: the value never leaves the range, so the widget's clamping is
      never exercised. */
  lemma NeverClamped(run: Run, ec: EngineChecks, cancelAt: Option<nat>, fail: Option<FailPoint>, b: Bar, k: nat)
    requires Sane(b)
    requires k <= |Progress(RunCircleguard(run, ec, cancelAt, fail))|
    ensures Sane(ApplyAll(b, Progress(RunCircleguard(run, ec, cancelAt, fail))[..k]))
  {
    var p := Progress(RunCircleguard(run, ec, cancelAt, fail));
    var n := |Replays(run.kind, ec)|;
    match OutcomeOf(run, ec, cancelAt, fail)
    case Raised =>
      RaisedRun(run, ec, cancelAt, fail);
      PrefixBar(b, n, p[..k]);
    case Completed =>
      CompletedRun(run, ec, cancelAt, fail);
      assert p == Base(n) + [ProgressReset(-1)];
      CutBeforeClose(b, n, Base(n), k);
    case Canceled =>
      CanceledRun(run, ec, cancelAt, fail);
      if cancelAt.value < n {
        LoadingOpensBase(n, cancelAt.value);
        CutBeforeClose(b, n, [ProgressReset(n)] + Increments(cancelAt.value), k);
      } else {
        assert p == Base(n) + [ProgressReset(-1)];
        CutBeforeClose(b, n, Base(n), k);
      }
  }
}
