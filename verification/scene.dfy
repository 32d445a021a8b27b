/** The animation loop and the page's button handlers.

    draw() always redraws the ground grid; when the page is not running it
    returns right there, without turning the car or asking for another frame.
    When running, it turns the car by a fixed small angle, draws the car,
    moves the scanner by one step and asks the browser for the next frame.
    Turning power on calls draw() at once; turning it off cancels the
    requested frame. The rotation angle is never reset.

    The angle is a real number started at a0. On the page a0 is pi/4, an
    eighth of a turn; pi/4 is not an exact real literal, so it is a
    parameter here. */
module Scene {
  import Scanner
  import Control

  /** Rotation added per drawn frame, in radians. */
  const AngleStep: real := 0.005

  /** What the animation owns: the rotation angle, the scanner, and whether a
      frame has been requested from the browser. */
  datatype View = View(angle: real, scanner: Scanner.State, framePending: bool)

  datatype Page = Page(flags: Control.Flags, view: View)

  /** A button press, or the browser delivering a requested frame. */
  datatype Input = Click(action: Control.Action) | FrameTick

  /** The page after load, including the first draw() (grid only). */
  function Init(a0: real): Page {
    Page(Control.Init, View(a0, Scanner.Start, false))
  }

  /** One call of draw(). */
  function Draw(v: View, running: bool): (r: View)
    ensures !running ==> r == v
    ensures running ==>
      && r.angle == v.angle + AngleStep
      && r.scanner == Scanner.Step(v.scanner)
      && r.framePending
  {
    if !running then v
    else View(v.angle + AngleStep, Scanner.Step(v.scanner), true)
  }

  /** One input. A power click runs the power toggle and then either draws
      at once (turning on) or cancels the requested frame (turning off); a
      sound click only runs the sound toggle; a frame, if one was requested,
      consumes the request and calls draw(). */
  function Handle(p: Page, i: Input): (r: Page)
    ensures i.Click? ==> r.flags == Control.Press(p.flags, i.action).flags
    ensures i == FrameTick ==> r.flags == p.flags
    ensures Draws(p, i) ==>
      && r.view.angle == p.view.angle + AngleStep
      && r.view.scanner == Scanner.Step(p.view.scanner)
      && r.view.framePending
    ensures !Draws(p, i) ==> r.view.angle == p.view.angle && r.view.scanner == p.view.scanner
    ensures i == Click(Control.Power) && p.flags.isRunning ==> !r.view.framePending
    ensures i == Click(Control.Sound) ==> r.view == p.view
    ensures i == FrameTick && !Draws(p, i) ==> !r.view.framePending
  {
    match i
    case Click(Power) =>
      var f := Control.TogglePower(p.flags).flags;
      if f.isRunning then Page(f, Draw(p.view, true))
      else Page(f, p.view.(framePending := false))
    case Click(Sound) =>
      Page(Control.ToggleSound(p.flags).flags, p.view)
    case FrameTick =>
      if p.view.framePending then Page(p.flags, Draw(p.view.(framePending := false), p.flags.isRunning))
      else p
  }

  function Run(p: Page, ins: seq<Input>): Page
    decreases |ins|
  {
    if |ins| == 0 then p else Run(Handle(p, ins[0]), ins[1..])
  }

  /** Whether the input makes draw() run while the page is running: a power
      click that turns the page on, or a requested frame arriving while on. */
  predicate Draws(p: Page, i: Input) {
    || (i == Click(Control.Power) && !p.flags.isRunning)
    || (i == FrameTick && p.view.framePending && p.flags.isRunning)
  }

  /** The number of frames drawn (with the car) while handling ins. */
  function Frames(p: Page, ins: seq<Input>): nat
    decreases |ins|
  {
    if |ins| == 0 then 0
    else (if Draws(p, ins[0]) then 1 else 0) + Frames(Handle(p, ins[0]), ins[1..])
  }

  /** Angle and scanner advance exactly once per drawn frame and at no other
      time. */
  lemma {:induction false} RunAdvances(p: Page, ins: seq<Input>)
    ensures Run(p, ins).view.angle == p.view.angle + AngleStep * Frames(p, ins) as real
    ensures Run(p, ins).view.scanner == Scanner.Iterate(p.view.scanner, Frames(p, ins))
    decreases |ins|
  {
    if |ins| > 0 {
      var q := Handle(p, ins[0]);
      RunAdvances(q, ins[1..]);
      if Draws(p, ins[0]) {
        assert q.view.scanner == Scanner.Step(p.view.scanner);
        assert q.view.angle == p.view.angle + AngleStep;
      } else {
        assert q.view.scanner == p.view.scanner;
        assert q.view.angle == p.view.angle;
      }
    }
  }

  /** A frame is requested exactly while the page is running, so the loop
      never runs twice at once and never runs while off. */
  predicate Good(p: Page) {
    p.view.framePending == p.flags.isRunning && Control.Inv(p.flags)
  }

  lemma HandleGood(p: Page, i: Input)
    requires Good(p)
    ensures Good(Handle(p, i))
  {
    match i
    case Click(a) => Control.PressPreservesInv(p.flags, a);
    case FrameTick =>
  }

  lemma {:induction false} RunGood(p: Page, ins: seq<Input>)
    requires Good(p)
    ensures Good(Run(p, ins))
    decreases |ins|
  {
    if |ins| > 0 {
      HandleGood(p, ins[0]);
      RunGood(Handle(p, ins[0]), ins[1..]);
    }
  }

  /** While the page is off a frame changes nothing at all. */
  lemma IdleFrame(p: Page)
    requires Good(p) && !p.flags.isRunning
    ensures Handle(p, FrameTick) == p
    ensures !Draws(p, FrameTick)
  {
  }

  /** From page load, after any inputs: a frame is requested exactly when
      running, the angle is a0 plus 0.005 per drawn frame, the scanner is the
      sweep after that many frames, and so it stays within 1.05 of the centre. */
  lemma Reachable(a0: real, ins: seq<Input>)
    ensures var p := Run(Init(a0), ins);
      && p.view.framePending == p.flags.isRunning
      && p.view.angle == a0 + AngleStep * Frames(Init(a0), ins) as real
      && p.view.scanner == Scanner.Run(Frames(Init(a0), ins))
      && Scanner.Inv(p.view.scanner)
      && -1.05 <= p.view.scanner.pos <= 1.05
  {
    RunGood(Init(a0), ins);
    RunAdvances(Init(a0), ins);
    var n := Frames(Init(a0), ins);
    Scanner.RunInv(n);
    Scanner.RunExtremes(n);
  }

  /** Power on, then seven frames: the scanner has overshot to 1.05 and turned. */
  lemma SevenFramesOvershoot(a0: real)
    ensures Run(Init(a0), [Click(Control.Power)] + seq(6, _ => FrameTick)).view.scanner == Scanner.State(1.05, -1)
  {
    var ins := [Click(Control.Power)] + seq(6, _ => FrameTick);
    var p := Init(a0);
    var frames := Frames(p, ins);
    assert frames == 7 by {
      var q := Handle(p, ins[0]);
      assert Draws(p, ins[0]);
      assert ins[1..] == seq(6, _ => FrameTick);
      FramesWhileRunning(q, 6);
    }
    RunAdvances(p, ins);
    Scanner.OvershootAtSeven();
  }

  /** While running, each delivered frame is drawn and requests the next one. */
  lemma {:induction false} FramesWhileRunning(p: Page, n: nat)
    requires p.flags.isRunning && p.view.framePending
    ensures Frames(p, seq(n, _ => FrameTick)) == n
    decreases n
  {
    if n > 0 {
      var ins := seq(n, _ => FrameTick);
      assert ins[0] == FrameTick;
      assert ins[1..] == seq(n - 1, _ => FrameTick);
      FramesWhileRunning(Handle(p, FrameTick), n - 1);
    }
  }
}
