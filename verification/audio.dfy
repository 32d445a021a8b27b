/** The tone behind the buttons, with the delayed stop of its sources.

    Every call of startSound builds a fresh set of sources (the audible
    oscillator and the low-frequency modulator), numbered here by a
    generation 1, 2, 3, ...; the module variables oscillator, lfo and
    gainNode always hold the newest generation (`current`, 0 before the
    first start). A generation whose sources have been started and not
    stopped is `sounding`.

    stopSound ramps the current generation's gain towards 0 (`rampedDown`)
    and schedules a callback that calls stop() on the sources 200 ms later.
    The ramp does not silence the sources: the modulator keeps adding up to
    0.3 to the gain, so a ramped-down generation goes on sounding as a pulsing
    tone until stop() is called on it. The callback reads the module variables
    when it FIRES, not when it is scheduled. Timing is abstract: a callback is
    pending until a TimerFires event, and callbacks fire in the order they
    were scheduled.

    FireAsWritten follows the page; FireFixed stops the generation that was
    current when the callback was scheduled, which is the behaviour the page
    evidently intends. The system built on FireFixed has the newest tone at
    full gain exactly while the page is running with sound on, and leaves
    only that tone sounding once its callbacks have fired; the one built on
    FireAsWritten can stop the new tone and leave an old one sounding for
    good (StaleToneAsWritten, StaleToneNeverStops). */
module Audio {
  import Control

  datatype Graph = Graph(current: nat, sounding: set<nat>, rampedDown: set<nat>, pending: seq<nat>)

  const Quiet: Graph := Graph(0, {}, {}, [])

  /** The newest sources are running with their gain held at its target,
      not ramped down. */
  predicate FullTone(g: Graph) {
    g.current != 0 && g.current in g.sounding && g.current !in g.rampedDown
  }

  /** The effect of one command on the tone. Start builds a fresh generation
      that plays at full gain at once and leaves the older sources as they
      were; Stop ramps the current generation down and queues exactly one
      stop callback for it, but stops no source, so everything that was
      sounding goes on sounding. */
  function Apply(g: Graph, c: Control.Cmd): (r: Graph)
    ensures c == Control.Start && Known(g) ==> FullTone(r) && r.current !in g.sounding
    ensures c == Control.Start ==> r.sounding == g.sounding + {r.current} && r.pending == g.pending
    ensures c == Control.Stop ==> !FullTone(r) && r.current == g.current && r.sounding == g.sounding
    ensures c == Control.Stop ==> r.pending == g.pending + [g.current]
    ensures c == Control.Start ==> r.current == g.current + 1 && r.rampedDown == g.rampedDown
    ensures c == Control.Stop ==> r.rampedDown == g.rampedDown + {g.current}
  {
    match c
    case Start =>
      var n := g.current + 1;
      Graph(n, g.sounding + {n}, g.rampedDown, g.pending)
    case Stop =>
      Graph(g.current, g.sounding, g.rampedDown + {g.current}, g.pending + [g.current])
  }

  function ApplyAll(g: Graph, cmds: seq<Control.Cmd>): Graph
    decreases |cmds|
  {
    if |cmds| == 0 then g else ApplyAll(Apply(g, cmds[0]), cmds[1..])
  }

  /** The oldest pending callback fires as written: it stops whatever
      generation the module variables hold now. */
  function FireAsWritten(g: Graph): (r: Graph)
    ensures |g.pending| > 0 ==> r.pending == g.pending[1..] && r.sounding <= g.sounding
    ensures |g.pending| > 0 && g.current != 0 ==> r.sounding == g.sounding - {g.current}
    ensures |g.pending| == 0 ==> r == g
    ensures r.current == g.current && r.rampedDown == g.rampedDown
  {
    if |g.pending| == 0 then g
    else
      Graph(g.current, if g.current != 0 then g.sounding - {g.current} else g.sounding, g.rampedDown, g.pending[1..])
  }

  /** The oldest pending callback fires and stops the generation that was
      current when it was scheduled. */
  function FireFixed(g: Graph): (r: Graph)
    ensures |g.pending| > 0 ==> r.pending == g.pending[1..] && r.sounding == g.sounding - {g.pending[0]}
    ensures |g.pending| == 0 ==> r == g
    ensures r.current == g.current && r.rampedDown == g.rampedDown
  {
    if |g.pending| == 0 then g
    else Graph(g.current, g.sounding - {g.pending[0]}, g.rampedDown, g.pending[1..])
  }

  datatype Sys = Sys(flags: Control.Flags, graph: Graph)

  datatype Event = Click(action: Control.Action) | TimerFires

  const Init: Sys := Sys(Control.Init, Quiet)

  function Press(s: Sys, a: Control.Action): Sys {
    var t := Control.Press(s.flags, a);
    Sys(t.flags, ApplyAll(s.graph, t.cmds))
  }

  function StepAsWritten(s: Sys, e: Event): Sys {
    match e
    case Click(a) => Press(s, a)
    case TimerFires => s.(graph := FireAsWritten(s.graph))
  }

  function StepFixed(s: Sys, e: Event): Sys {
    match e
    case Click(a) => Press(s, a)
    case TimerFires => s.(graph := FireFixed(s.graph))
  }

  function RunAsWritten(s: Sys, evs: seq<Event>): Sys
    decreases |evs|
  {
    if |evs| == 0 then s else RunAsWritten(StepAsWritten(s, evs[0]), evs[1..])
  }

  function RunFixed(s: Sys, evs: seq<Event>): Sys
    decreases |evs|
  {
    if |evs| == 0 then s else RunFixed(StepFixed(s, evs[0]), evs[1..])
  }

  /** Every generation mentioned has been created. */
  predicate Known(g: Graph) {
    && (forall x :: x in g.sounding ==> 1 <= x <= g.current)
    && (forall x :: x in g.rampedDown ==> 1 <= x <= g.current)
    && (forall i :: 0 <= i < |g.pending| ==> 1 <= g.pending[i] <= g.current)
  }

  /** The invariant of the corrected system. */
  predicate Good(s: Sys) {
    var g := s.graph;
    && Control.Inv(s.flags)
    && Known(g)
    && (s.flags.hasGain <==> g.current != 0)
    // a live tone is running, not ramped down, and no stop is waiting for it
    && (s.flags.audioLive ==> g.current in g.sounding && g.current !in g.rampedDown && g.current !in g.pending)
    // every other running generation is ramped down and has a stop waiting
    && (forall x :: x in g.sounding && !(s.flags.audioLive && x == g.current) ==> x in g.pending)
    && (forall i :: 0 <= i < |g.pending| ==> g.pending[i] in g.rampedDown)
  }

  lemma InitGood()
    ensures Good(Init)
  {
  }

  lemma PressGood(s: Sys, a: Control.Action)
    requires Good(s)
    ensures Good(Press(s, a))
  {
  }

  lemma FireFixedGood(s: Sys)
    requires Good(s)
    ensures Good(StepFixed(s, TimerFires))
  {
  }

  lemma StepFixedGood(s: Sys, e: Event)
    requires Good(s)
    ensures Good(StepFixed(s, e))
  {
    match e
    case Click(a) => PressGood(s, a);
    case TimerFires => FireFixedGood(s);
  }

  lemma {:induction false} RunFixedGood(s: Sys, evs: seq<Event>)
    requires Good(s)
    ensures Good(RunFixed(s, evs))
    decreases |evs|
  {
    if |evs| > 0 {
      StepFixedGood(s, evs[0]);
      RunFixedGood(StepFixed(s, evs[0]), evs[1..]);
    }
  }

  /** With the corrected callback, after any clicks and timer firings the tone
      is audible exactly when the page is running with sound on. */
  lemma FixedToneFollowsFlags(evs: seq<Event>)
    ensures FullTone(RunFixed(Init, evs).graph) <==> Control.Live(RunFixed(Init, evs).flags)
  {
    RunFixedGood(Init, evs);
  }

  /** With the corrected callback, once every scheduled stop has fired, the
      only running sources are the live tone's, and none when not live. */
  lemma FixedLeavesNothingRunning(evs: seq<Event>)
    requires |RunFixed(Init, evs).graph.pending| == 0
    ensures var s := RunFixed(Init, evs);
      s.graph.sounding == if Control.Live(s.flags) then {s.graph.current} else {}
  {
    RunFixedGood(Init, evs);
  }

  /** The inputs of the finding: sound on, power on, power off, and power on
      again before the 200 ms callback of the power-off fires. */
  const StaleInputs: seq<Event> :=
    [Click(Control.Sound), Click(Control.Power), Click(Control.Power), Click(Control.Power), TimerFires]

  /** As written, the callback stops the NEW sources: the page is running with
      sound on, the tone it just started is stopped, and the first
      generation, ramped down but still pulsing, is the one sounding, with no
      stop pending for it. With the corrected callback only the new tone
      sounds, at full gain. */
  lemma StaleToneAsWritten()
    ensures var s := RunAsWritten(Init, StaleInputs);
      && Control.Live(s.flags)
      && s.graph.current == 2 && 2 !in s.graph.sounding
      && !FullTone(s.graph)
      && s.graph.sounding == {1} && 1 in s.graph.rampedDown
      && |s.graph.pending| == 0
    ensures var s := RunFixed(Init, StaleInputs);
      Control.Live(s.flags) && FullTone(s.graph) && s.graph.sounding == {2}
  {
  }

  /** As written, once the module variables have moved past generation 1
      while it is still sounding, no callback can ever stop it again. */
  predicate Stranded(s: Sys) {
    s.graph.current >= 2 && 1 in s.graph.sounding
  }

  lemma StepKeepsStranded(s: Sys, e: Event)
    requires Stranded(s)
    ensures Stranded(StepAsWritten(s, e))
  {
  }

  lemma {:induction false} RunKeepsStranded(s: Sys, evs: seq<Event>)
    requires Stranded(s)
    ensures Stranded(RunAsWritten(s, evs))
    decreases |evs|
  {
    if |evs| > 0 {
      StepKeepsStranded(s, evs[0]);
      RunKeepsStranded(StepAsWritten(s, evs[0]), evs[1..]);
    }
  }

  /** As written, after the inputs of the finding the first generation keeps
      sounding whatever happens next: no sequence of clicks and callbacks
      stops it. */
  lemma StaleToneNeverStops(later: seq<Event>)
    ensures 1 in RunAsWritten(RunAsWritten(Init, StaleInputs), later).graph.sounding
  {
    StaleToneAsWritten();
    RunKeepsStranded(RunAsWritten(Init, StaleInputs), later);
  }
}
