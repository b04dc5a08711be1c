/** Result dispatch (`print_results` in circleguard/gui.py): every
    comparison waiting on the result queue is taken off and either raises an
    alert (written, beeped, the window flashed, forwarded to the results
    tab), is only written to the terminal, or is dropped. */
module Dispatch {
  import opened Optional
  import opened Runs
  import opened Trace

  datatype Action = Alert | Message | Ignore

  /** What the window does, in order. */
  datatype Effect =
    | Write(result: Comparison, cheat: bool)  // a line in the terminal, from the cheater or the no-cheater template
    | Beep
    | FlashWindow
    | Forward(result: Comparison)             // added to the results tab

  /** The engine's verdict wins; otherwise a result is shown when its
      similarity is below the display threshold. */
  function Classify(c: Comparison, thresholdDisplay: real): Action
  {
    if c.isCheat then Alert
    else if c.similarity < thresholdDisplay then Message
    else Ignore
  }

  function EffectsOf(c: Comparison, thresholdDisplay: real): seq<Effect>
  {
    match Classify(c, thresholdDisplay)
    case Alert => [Write(c, true), Beep, FlashWindow, Forward(c)]
    case Message => [Write(c, false)]
    case Ignore => []
  }

  /** The effects of handling the queued results in queue order. */
  function PrintResults(q: seq<Comparison>, thresholdDisplay: real): seq<Effect>
    decreases |q|
  {
    if |q| == 0 then [] else EffectsOf(q[0], thresholdDisplay) + PrintResults(q[1..], thresholdDisplay)
  }

  /** Whether handling `c` raises: only a result that gets a terminal line
      formats a message template, and `formatFails` says whether formatting
      that result's template raises (the templates are user settings). */
  predicate Raises(c: Comparison, thresholdDisplay: real, formatFails: Comparison -> bool)
  {
    Classify(c, thresholdDisplay) != Ignore && formatFails(c)
  }

  /** The position of the first queued result whose handling raises, or the
      queue's length when none does. */
  function FirstRaise(q: seq<Comparison>, thresholdDisplay: real, formatFails: Comparison -> bool): (k: nat)
    ensures k <= |q|
    ensures forall i :: 0 <= i < k ==> !Raises(q[i], thresholdDisplay, formatFails)
    ensures k < |q| ==> Raises(q[k], thresholdDisplay, formatFails)
    decreases |q|
  {
    if |q| == 0 then 0
    else if Raises(q[0], thresholdDisplay, formatFails) then 0
    else 1 + FirstRaise(q[1..], thresholdDisplay, formatFails)
  }

  /** One timer tick of `print_results`: results are taken off the queue and
      handled until the queue is empty, when the loop ends quietly. A result
      whose template raises has already been taken off the queue: it is lost,
      the exception leaves the handler, and the results behind it stay
      queued for the next tick. */
  method DrainResults(q: seq<Comparison>, thresholdDisplay: real, formatFails: Comparison -> bool)
    returns (effects: seq<Effect>, rest: seq<Comparison>, raised: bool)
    ensures var k := FirstRaise(q, thresholdDisplay, formatFails);
      && effects == PrintResults(q[..k], thresholdDisplay)
      && (raised <==> k < |q|)
      && (raised ==> rest == q[k + 1..])
      && (!raised ==> rest == [] && effects == PrintResults(q, thresholdDisplay))
  {
    var i := 0;
    effects := [];
    while i < |q|
      invariant i <= FirstRaise(q, thresholdDisplay, formatFails)
      invariant effects == PrintResults(q[..i], thresholdDisplay)
      decreases |q| - i
    {
      var result := q[i];
      if Raises(result, thresholdDisplay, formatFails) {
        rest, raised := q[i + 1..], true;
        return;
      }
      PrintResultsAppend(q[..i], [result], thresholdDisplay);
      assert q[..i + 1] == q[..i] + [result];
      assert PrintResults([result], thresholdDisplay) == EffectsOf(result, thresholdDisplay);
      effects := effects + EffectsOf(result, thresholdDisplay);
      i := i + 1;
    }
    assert q[..i] == q;
    rest, raised := [], false;
  }

  lemma {:induction false} PrintResultsAppend(a: seq<Comparison>, b: seq<Comparison>, thresholdDisplay: real)
    ensures PrintResults(a + b, thresholdDisplay) == PrintResults(a, thresholdDisplay) + PrintResults(b, thresholdDisplay)
    decreases |a|
  {
    if |a| == 0 {
      assert a + b == b;
    } else {
      assert (a + b)[0] == a[0];
      assert (a + b)[1..] == a[1..] + b;
      PrintResultsAppend(a[1..], b, thresholdDisplay);
    }
  }

  /** A tick that raises followed by a tick that does not handle every
      queued result except the one that raised, in queue order: the terminal
      lines are those of the queue without it. */
  lemma RaiseLosesOne(q: seq<Comparison>, thresholdDisplay: real, formatFails: Comparison -> bool)
    requires FirstRaise(q, thresholdDisplay, formatFails) < |q|
    ensures var k := FirstRaise(q, thresholdDisplay, formatFails);
      PrintResults(q[..k], thresholdDisplay) + PrintResults(q[k + 1..], thresholdDisplay)
        == PrintResults(q[..k] + q[k + 1..], thresholdDisplay)
    ensures var k := FirstRaise(q, thresholdDisplay, formatFails);
      Written(PrintResults(q[..k], thresholdDisplay) + PrintResults(q[k + 1..], thresholdDisplay))
        == Shown(q[..k] + q[k + 1..], thresholdDisplay)
  {
    var k := FirstRaise(q, thresholdDisplay, formatFails);
    PrintResultsAppend(q[..k], q[k + 1..], thresholdDisplay);
    WrittenAreShown(q[..k] + q[k + 1..], thresholdDisplay);
  }

  // ---------------------------------------------------------------------
  // Reference views.

  /** The results the engine flagged, in order. */
  function Cheats(q: seq<Comparison>): (r: seq<Comparison>)
    ensures |r| <= |q|
    ensures forall k :: 0 <= k < |r| ==> r[k].isCheat && r[k] in q
  {
    if |q| == 0 then [] else (if q[0].isCheat then [q[0]] else []) + Cheats(q[1..])
  }

  /** The results worth a terminal line: flagged, or below the threshold. */
  function Shown(q: seq<Comparison>, thresholdDisplay: real): (r: seq<Comparison>)
    ensures |r| <= |q|
    ensures forall k :: 0 <= k < |r| ==> (r[k].isCheat || r[k].similarity < thresholdDisplay) && r[k] in q
  {
    if |q| == 0 then []
    else (if q[0].isCheat || q[0].similarity < thresholdDisplay then [q[0]] else []) + Shown(q[1..], thresholdDisplay)
  }

  function ForwardOf(e: Effect): Option<Comparison>
  {
    if e.Forward? then Some(e.result) else None
  }

  function WriteOf(e: Effect): Option<Comparison>
  {
    if e.Write? then Some(e.result) else None
  }

  function BeepOf(e: Effect): Option<()>
  {
    if e.Beep? then Some(()) else None
  }

  /** The results forwarded to the results tab. */
  function Forwarded(es: seq<Effect>): seq<Comparison> { Project(es, ForwardOf) }

  /** The results written to the terminal. */
  function Written(es: seq<Effect>): seq<Comparison> { Project(es, WriteOf) }

  /** How many times the window beeped. */
  function Beeps(es: seq<Effect>): nat { |Project(es, BeepOf)| }

  /** The views of one result's effects. */
  lemma EffectsViews(c: Comparison, thresholdDisplay: real)
    ensures Forwarded(EffectsOf(c, thresholdDisplay)) == (if c.isCheat then [c] else [])
    ensures Written(EffectsOf(c, thresholdDisplay)) == (if c.isCheat || c.similarity < thresholdDisplay then [c] else [])
    ensures Beeps(EffectsOf(c, thresholdDisplay)) == (if c.isCheat then 1 else 0)
  {
    var es := EffectsOf(c, thresholdDisplay);
    if c.isCheat {
      assert es == [Write(c, true)] + [Beep] + [FlashWindow] + [Forward(c)];
      ProjectAppend([Write(c, true)] + [Beep] + [FlashWindow], [Forward(c)], ForwardOf);
      ProjectAppend([Write(c, true)] + [Beep] + [FlashWindow], [Forward(c)], WriteOf);
      ProjectAppend([Write(c, true)] + [Beep] + [FlashWindow], [Forward(c)], BeepOf);
      ProjectAppend([Write(c, true)] + [Beep], [FlashWindow], ForwardOf);
      ProjectAppend([Write(c, true)] + [Beep], [FlashWindow], WriteOf);
      ProjectAppend([Write(c, true)] + [Beep], [FlashWindow], BeepOf);
      ProjectAppend([Write(c, true)], [Beep], ForwardOf);
      ProjectAppend([Write(c, true)], [Beep], WriteOf);
      ProjectAppend([Write(c, true)], [Beep], BeepOf);
      ProjectOne(Write(c, true), ForwardOf);
      ProjectOne(Write(c, true), WriteOf);
      ProjectOne(Write(c, true), BeepOf);
      ProjectOne(Beep, ForwardOf);
      ProjectOne(Beep, WriteOf);
      ProjectOne(Beep, BeepOf);
      ProjectOne(FlashWindow, ForwardOf);
      ProjectOne(FlashWindow, WriteOf);
      ProjectOne(FlashWindow, BeepOf);
      ProjectOne(Forward(c), ForwardOf);
      ProjectOne(Forward(c), WriteOf);
      ProjectOne(Forward(c), BeepOf);
    } else if c.similarity < thresholdDisplay {
      ProjectOne(Write(c, false), ForwardOf);
      ProjectOne(Write(c, false), WriteOf);
      ProjectOne(Write(c, false), BeepOf);
    }
  }

  /** One step of handling the queue. */
  lemma PrintResultsStep(q: seq<Comparison>, thresholdDisplay: real)
    requires |q| > 0
    ensures Forwarded(PrintResults(q, thresholdDisplay)) == Forwarded(EffectsOf(q[0], thresholdDisplay)) + Forwarded(PrintResults(q[1..], thresholdDisplay))
    ensures Written(PrintResults(q, thresholdDisplay)) == Written(EffectsOf(q[0], thresholdDisplay)) + Written(PrintResults(q[1..], thresholdDisplay))
    ensures Beeps(PrintResults(q, thresholdDisplay)) == Beeps(EffectsOf(q[0], thresholdDisplay)) + Beeps(PrintResults(q[1..], thresholdDisplay))
  {
    var a, b := EffectsOf(q[0], thresholdDisplay), PrintResults(q[1..], thresholdDisplay);
    assert PrintResults(q, thresholdDisplay) == a + b;
    ProjectAppend(a, b, ForwardOf);
    ProjectAppend(a, b, WriteOf);
    ProjectAppend(a, b, BeepOf);
  }

  // ---------------------------------------------------------------------
  // Properties.

  /** Exactly the flagged results reach the results tab, in queue order. */
  lemma {:induction false} ForwardedAreCheats(q: seq<Comparison>, thresholdDisplay: real)
    ensures Forwarded(PrintResults(q, thresholdDisplay)) == Cheats(q)
    decreases |q|
  {
    if |q| > 0 {
      PrintResultsStep(q, thresholdDisplay);
      EffectsViews(q[0], thresholdDisplay);
      ForwardedAreCheats(q[1..], thresholdDisplay);
    }
  }

  /** The window beeps once per flagged result. */
  lemma {:induction false} OneBeepPerCheat(q: seq<Comparison>, thresholdDisplay: real)
    ensures Beeps(PrintResults(q, thresholdDisplay)) == |Cheats(q)|
    decreases |q|
  {
    if |q| > 0 {
      PrintResultsStep(q, thresholdDisplay);
      EffectsViews(q[0], thresholdDisplay);
      OneBeepPerCheat(q[1..], thresholdDisplay);
    }
  }

  /** Exactly the flagged results and those below the threshold get a
      terminal line, in queue order. */
  lemma {:induction false} WrittenAreShown(q: seq<Comparison>, thresholdDisplay: real)
    ensures Written(PrintResults(q, thresholdDisplay)) == Shown(q, thresholdDisplay)
    decreases |q|
  {
    if |q| > 0 {
      PrintResultsStep(q, thresholdDisplay);
      EffectsViews(q[0], thresholdDisplay);
      WrittenAreShown(q[1..], thresholdDisplay);
    }
  }

  /** Each result has exactly one of the three outcomes, and a flagged
      result is alerted whatever the display threshold. */
  lemma ClassifyExclusive(c: Comparison, thresholdDisplay: real, other: real)
    ensures Classify(c, thresholdDisplay) == Alert <==> c.isCheat
    ensures Classify(c, thresholdDisplay) == Message <==> !c.isCheat && c.similarity < thresholdDisplay
    ensures Classify(c, thresholdDisplay) == Ignore <==> !c.isCheat && thresholdDisplay <= c.similarity
    ensures c.isCheat ==> EffectsOf(c, thresholdDisplay) == EffectsOf(c, other)
  {
  }

  /** Raising the display threshold never hides a result that was shown. */
  lemma {:induction false} ShownMonotone(q: seq<Comparison>, low: real, high: real)
    requires low <= high
    ensures |Shown(q, low)| <= |Shown(q, high)|
    ensures forall c :: c in Shown(q, low) ==> c in Shown(q, high)
    decreases |q|
  {
    if |q| > 0 {
      ShownMonotone(q[1..], low, high);
    }
  }
}
