/** The red light sweeping across the car's nose.

    Its position is a single number that moves by a fixed speed every drawn
    frame and reverses direction once it has moved strictly outside [-1, 1].
    The position is NOT clamped: the reversal happens after the overshoot, so
    the light travels one step past each end before it turns back. Positions
    are exact reals; floating-point rounding is not modelled. */
module Scanner {

  /** Direction of travel: +1 to the right end, -1 to the left end. */
  type Dir = d: int | d == 1 || d == -1 witness 1

  datatype State = State(pos: real, dir: Dir)

  /** Distance moved per frame. */
  const Speed: real := 0.15

  /** Horizontal model units per unit of position (light centre = Reach * pos). */
  const Reach: real := 25.0

  /** Half the width of the lit segment drawn around the centre. */
  const HalfWidth: real := 4.0

  /** The state when the page loads: centred, moving right. */
  const Start: State := State(0.0, 1)

  /** Frames after which the sweep started at Start repeats itself. */
  const Period: nat := 28

  predicate Outside(p: real) {
    p > 1.0 || p < -1.0
  }

  /** One frame of the sweep: move, then reverse if the new position is out of range. */
  function Step(s: State): (r: State)
    ensures r.pos == s.pos + Speed * s.dir as real
    ensures r.dir != s.dir <==> Outside(r.pos)
  {
    var p := s.pos + Speed * s.dir as real;
    State(p, if Outside(p) then s.dir * -1 else s.dir)
  }

  /** The state after n frames starting from s. */
  function Iterate(s: State, n: nat): State
    decreases n
  {
    if n == 0 then s else Iterate(Step(s), n - 1)
  }

  /** The state after n frames from page load. */
  function Run(n: nat): State {
    Iterate(Start, n)
  }

  /** The inductive invariant of the sweep: the position is at most one step
      outside [-1, 1], and when it is outside, the direction points back. */
  predicate Inv(s: State) {
    && -1.0 - Speed <= s.pos <= 1.0 + Speed
    && (s.pos > 1.0 ==> s.dir == -1)
    && (s.pos < -1.0 ==> s.dir == 1)
  }

  lemma StepPreservesInv(s: State)
    requires Inv(s)
    ensures Inv(Step(s))
  {
  }

  lemma {:induction false} IterateLast(s: State, n: nat)
    ensures Iterate(s, n + 1) == Step(Iterate(s, n))
    decreases n
  {
    if n > 0 {
      IterateLast(Step(s), n - 1);
    }
  }

  lemma {:induction false} IterateAdd(s: State, a: nat, b: nat)
    ensures Iterate(s, a + b) == Iterate(Iterate(s, a), b)
    decreases a
  {
    if a > 0 {
      IterateAdd(Step(s), a - 1, b);
    }
  }

  lemma {:induction false} IteratePreservesInv(s: State, n: nat)
    requires Inv(s)
    ensures Inv(Iterate(s, n))
    decreases n
  {
    if n > 0 {
      StepPreservesInv(s);
      IteratePreservesInv(Step(s), n - 1);
    }
  }

  /** Independent description of the sweep from Start: after n frames the
      light sits a whole number k of steps from the centre, k running
      0, 1, ..., 7, 6, ..., -7, -6, ..., -1 and back to 0 every 28 frames. */
  function Sweep(n: nat): State {
    var m := n % Period;
    var k := if m <= 7 then m else if m <= 21 then 14 - m else m - 28;
    State(Speed * k as real, if 7 <= m < 21 then -1 else 1)
  }

  lemma SweepStep(n: nat)
    ensures Step(Sweep(n)) == Sweep(n + 1)
  {
    var m := n % Period;
    if m == 27 {
      assert (n + 1) % Period == 0;
    } else {
      assert (n + 1) % Period == m + 1;
    }
  }

  /** The recursive frame-by-frame sweep agrees with the closed form. */
  lemma {:induction false} RunIsSweep(n: nat)
    ensures Run(n) == Sweep(n)
  {
    if n > 0 {
      RunIsSweep(n - 1);
      IterateLast(Start, n - 1);
      SweepStep(n - 1);
    }
  }

  /** Every state reachable from Start satisfies the invariant. */
  lemma RunInv(n: nat)
    ensures Inv(Run(n))
  {
    IteratePreservesInv(Start, n);
  }

  /** The sweep repeats every 28 frames; in particular it comes back to Start. */
  lemma RunPeriodic(n: nat)
    ensures Run(n + Period) == Run(n)
    ensures Run(Period) == Start
  {
    RunIsSweep(n);
    RunIsSweep(n + Period);
    RunIsSweep(Period);
    assert (n + Period) % Period == n % Period;
  }

  /** Every state of the sweep comes back after another 28 frames. */
  lemma ReturnsAfterPeriod(n: nat)
    ensures Iterate(Run(n), Period) == Run(n)
  {
    IterateAdd(Start, n, Period);
    RunPeriodic(n);
  }

  /** From Start the light never goes further than 1.05 from the centre, and it
      reaches 1.05 exactly on the frames n with n mod 28 = 7 (and -1.05 exactly
      when n mod 28 = 21), where it has already turned back. */
  lemma RunExtremes(n: nat)
    ensures -1.05 <= Run(n).pos <= 1.05
    ensures Run(n).pos == 1.05 <==> n % Period == 7
    ensures Run(n).pos == -1.05 <==> n % Period == 21
    ensures Outside(Run(n).pos) <==> n % Period == 7 || n % Period == 21
    ensures Run(n).pos == 1.05 ==> Run(n).dir == -1
    ensures Run(n).pos == -1.05 ==> Run(n).dir == 1
  {
    RunIsSweep(n);
  }

  /** The first overshoot: seven frames after page load the light is at 1.05,
      past the right end, and is already heading left. */
  lemma OvershootAtSeven()
    ensures Run(7) == State(1.05, -1)
    ensures forall n: nat :: n < 7 ==> !Outside(Run(n).pos)
  {
    RunIsSweep(7);
    forall n: nat | n < 7
      ensures !Outside(Run(n).pos)
    {
      RunIsSweep(n);
    }
  }

  /** Horizontal position of the light's centre on the nose. */
  function Centre(s: State): real {
    Reach * s.pos
  }

  /** Left and right ends of the lit segment. */
  function LightEnds(s: State): (real, real) {
    (Centre(s) - HalfWidth, Centre(s) + HalfWidth)
  }

  /** Under the invariant the lit segment stays within 25 * 1.15 + 4 of the
      centre line; from Start it stays within 25 * 1.05 + 4 = 30.25, which is
      past the housing ends at -25 and 25. */
  lemma LightBounds(s: State)
    requires Inv(s)
    ensures -(Reach * (1.0 + Speed) + HalfWidth) <= LightEnds(s).0
    ensures LightEnds(s).0 < LightEnds(s).1
    ensures LightEnds(s).1 <= Reach * (1.0 + Speed) + HalfWidth
  {
  }

  lemma RunLightBounds(n: nat)
    ensures -30.25 <= LightEnds(Run(n)).0
    ensures LightEnds(Run(n)).1 <= 30.25
    ensures n % Period == 7 ==> LightEnds(Run(n)).1 == 30.25
  {
    RunExtremes(n);
  }
}
