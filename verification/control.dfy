/** The two buttons of the page: power and sound.

    The page state is two flags, plus two facts about the tone:
    whether it has been started and not yet stopped (audioLive), and whether
    the gain node module variable has ever been assigned (hasGain). The
    second fact is what stopSound tests before it does anything, and nothing
    ever clears it again.

    Each toggle returns the new state together with the audio commands it
    actually issues: Start for a call of startSound, Stop for a call of
    stopSound whose gain-node guard passes. */
module Control {

  datatype Cmd = Start | Stop

  datatype Flags = Flags(isRunning: bool, isSoundOn: bool, audioLive: bool, hasGain: bool)

  /** A button press. */
  datatype Action = Power | Sound

  /** The outcome of one or more presses: the new state and the commands issued. */
  datatype Toggled = Toggled(flags: Flags, cmds: seq<Cmd>)

  /** Both flags off, no tone ever started. */
  const Init: Flags := Flags(false, false, false, false)

  /** The tone should be audible exactly in this state. */
  predicate Live(f: Flags) {
    f.isRunning && f.isSoundOn
  }

  /** Whether the tone is live after the commands cmds, starting from live. */
  function LiveAfter(cmds: seq<Cmd>, live: bool): bool {
    if |cmds| == 0 then live else LiveAfter(cmds[1..], cmds[0] == Start)
  }

  /** startSound: builds a fresh tone and assigns the gain node; it has no
      guard, so it starts a tone whatever the state. */
  function StartSound(f: Flags): (r: Toggled)
    ensures r.cmds == [Start]
    ensures r.flags.audioLive && r.flags.hasGain
    ensures r.flags.isRunning == f.isRunning && r.flags.isSoundOn == f.isSoundOn
  {
    Toggled(f.(audioLive := true, hasGain := true), [Start])
  }

  /** stopSound: does something only if a gain node was ever assigned, and
      leaves the gain node assigned, so the guard passes on every later call. */
  function StopSound(f: Flags): (r: Toggled)
    ensures Stop in r.cmds <==> f.hasGain
    ensures Start !in r.cmds && |r.cmds| <= 1
    ensures r.flags.hasGain == f.hasGain
    ensures r.flags.audioLive == (f.audioLive && !f.hasGain)
    ensures r.flags.isRunning == f.isRunning && r.flags.isSoundOn == f.isSoundOn
  {
    if f.hasGain then Toggled(f.(audioLive := false), [Stop]) else Toggled(f, [])
  }

  /** The power button: flip isRunning; start the tone on power-on with sound
      enabled; call stopSound on every power-off. */
  function TogglePower(f: Flags): (r: Toggled)
    ensures r.flags.isRunning == !f.isRunning
    ensures r.flags.isSoundOn == f.isSoundOn
    ensures Start in r.cmds <==> !Live(f) && Live(r.flags)
    ensures Stop in r.cmds <==> f.isRunning && f.hasGain
    ensures |r.cmds| <= 1
    ensures r.flags.audioLive == LiveAfter(r.cmds, f.audioLive)
    ensures r.flags.hasGain == (f.hasGain || Start in r.cmds)
  {
    var g := f.(isRunning := !f.isRunning);
    if g.isRunning then
      if g.isSoundOn then StartSound(g) else Toggled(g, [])
    else
      StopSound(g)
  }

  /** The sound button: flip isSoundOn; start the tone on sound-on while
      running; call stopSound on every sound-off. */
  function ToggleSound(f: Flags): (r: Toggled)
    ensures r.flags.isSoundOn == !f.isSoundOn
    ensures r.flags.isRunning == f.isRunning
    ensures Start in r.cmds <==> !Live(f) && Live(r.flags)
    ensures Stop in r.cmds <==> f.isSoundOn && f.hasGain
    ensures |r.cmds| <= 1
    ensures r.flags.audioLive == LiveAfter(r.cmds, f.audioLive)
    ensures r.flags.hasGain == (f.hasGain || Start in r.cmds)
  {
    var g := f.(isSoundOn := !f.isSoundOn);
    if g.isSoundOn then
      if g.isRunning then StartSound(g) else Toggled(g, [])
    else
      StopSound(g)
  }

  function Press(f: Flags, a: Action): Toggled {
    match a
    case Power => TogglePower(f)
    case Sound => ToggleSound(f)
  }

  /** The state after the presses acts, with every command issued on the way. */
  function Presses(f: Flags, acts: seq<Action>): Toggled
    decreases |acts|
  {
    if |acts| == 0 then Toggled(f, [])
    else
      var t := Press(f, acts[0]);
      var u := Presses(t.flags, acts[1..]);
      Toggled(u.flags, t.cmds + u.cmds)
  }

  /** Each toggle flips its own flag and leaves the other one alone, so pressing
      the same button twice restores both flags. */
  lemma ToggleTwice(f: Flags)
    ensures TogglePower(TogglePower(f).flags).flags.isRunning == f.isRunning
    ensures TogglePower(TogglePower(f).flags).flags.isSoundOn == f.isSoundOn
    ensures ToggleSound(ToggleSound(f).flags).flags.isRunning == f.isRunning
    ensures ToggleSound(ToggleSound(f).flags).flags.isSoundOn == f.isSoundOn
  {
  }

  /** What holds of every state the buttons can reach: the tone is started
      and not stopped exactly when running with sound on, and a live tone
      always has its gain node. */
  predicate Inv(f: Flags) {
    && f.audioLive == Live(f)
    && (f.audioLive ==> f.hasGain)
  }

  lemma PressPreservesInv(f: Flags, a: Action)
    requires Inv(f)
    ensures Inv(Press(f, a).flags)
  {
  }

  lemma {:induction false} PressesPreserveInv(f: Flags, acts: seq<Action>)
    requires Inv(f)
    ensures Inv(Presses(f, acts).flags)
    decreases |acts|
  {
    if |acts| > 0 {
      PressPreservesInv(f, acts[0]);
      PressesPreserveInv(Press(f, acts[0]).flags, acts[1..]);
    }
  }

  /** After any sequence of presses from page load the tone is live exactly
      when the page is running with sound on. */
  lemma ReachableInv(acts: seq<Action>)
    ensures Inv(Presses(Init, acts).flags)
    ensures Presses(Init, acts).flags.audioLive == Live(Presses(Init, acts).flags)
  {
    PressesPreserveInv(Init, acts);
  }

  /** No Start while the tone is live: between two Starts there is always a Stop. */
  predicate NoRestart(cmds: seq<Cmd>, live: bool) {
    |cmds| == 0 || ((cmds[0] == Start ==> !live) && NoRestart(cmds[1..], cmds[0] == Start))
  }

  lemma {:induction false} NoRestartAppend(a: seq<Cmd>, b: seq<Cmd>, live: bool)
    ensures NoRestart(a + b, live) <==> NoRestart(a, live) && NoRestart(b, LiveAfter(a, live))
    ensures LiveAfter(a + b, live) == LiveAfter(b, LiveAfter(a, live))
    decreases |a|
  {
    if |a| > 0 {
      assert (a + b)[0] == a[0];
      assert (a + b)[1..] == a[1..] + b;
      NoRestartAppend(a[1..], b, a[0] == Start);
    } else {
      assert a + b == b;
    }
  }

  lemma PressNoRestart(f: Flags, a: Action)
    requires Inv(f)
    ensures NoRestart(Press(f, a).cmds, f.audioLive)
    ensures Press(f, a).flags.audioLive == LiveAfter(Press(f, a).cmds, f.audioLive)
  {
  }

  lemma {:induction false} PressesNoRestart(f: Flags, acts: seq<Action>)
    requires Inv(f)
    ensures NoRestart(Presses(f, acts).cmds, f.audioLive)
    ensures Presses(f, acts).flags.audioLive == LiveAfter(Presses(f, acts).cmds, f.audioLive)
    decreases |acts|
  {
    if |acts| > 0 {
      var t := Press(f, acts[0]);
      var u := Presses(t.flags, acts[1..]);
      PressNoRestart(f, acts[0]);
      PressPreservesInv(f, acts[0]);
      PressesNoRestart(t.flags, acts[1..]);
      NoRestartAppend(t.cmds, u.cmds, f.audioLive);
    }
  }

  /** From page load, whatever the presses, startSound is never called twice
      without a stopSound in between. */
  lemma StartsAlternate(acts: seq<Action>)
    ensures NoRestart(Presses(Init, acts).cmds, false)
  {
    PressesNoRestart(Init, acts);
  }

  /** The gain-node guard does not make stopSound idempotent: once a tone has
      been started the guard passes forever, so turning power off and then
      sound off issues a second Stop for a tone that is already stopped. */
  lemma RepeatedStop()
    ensures Presses(Init, [Sound, Power, Power, Sound]).cmds == [Start, Stop, Stop]
    ensures !Presses(Init, [Sound, Power, Power]).flags.audioLive
  {
  }

  /** Before any tone was started the guard fails, and a press of the sound
      button that turns sound off issues nothing at all. */
  lemma StopBeforeFirstStart()
    ensures Presses(Init, [Sound, Sound]).cmds == []
  {
  }
}
