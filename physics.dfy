/** One frame of the ball's motion on the tilted bar: gravity along the
    bar, damping, and an inelastic bounce at either end. Positions are
    fractions of the bar's length, velocities fractions per frame. */
module Physics {

  const Gravity: real := 0.0015
  const Damping: real := 0.985
  /** Fraction of speed kept, with reversed direction, by a bounce. */
  const Restitution: real := 0.7

  /** The speed at which damping cancels the strongest pull of gravity:
      (s + Gravity) * Damping == s. No frame takes the ball above it. */
  const TerminalSpeed: real := Gravity * Damping / (1.0 - Damping)

  /** State restored when the layout changes (and the component's initial state). */
  const RestartPosition: real := 0.5
  const RestartVelocity: real := 0.01

  datatype Motion = Motion(position: real, velocity: real)

  function Abs(x: real): real { if x < 0.0 then -x else x }

  /** The pull of gravity along a bar whose tilt has sine `sine`. */
  function GravityForce(sine: real): (g: real)
    requires -1.0 <= sine <= 1.0
    ensures -Gravity <= g <= Gravity
    ensures (g > 0.0 <==> sine > 0.0) && (g < 0.0 <==> sine < 0.0)
  {
    sine * Gravity
  }

  /** The velocity after gravity and damping, before any bounce: with no
      pull the ball strictly slows down (unless at rest) and keeps its
      direction; a pull and a motion in the same direction never reverse it. */
  function Damped(velocity: real, g: real): (r: real)
    ensures g == 0.0 ==> Abs(r) <= Abs(velocity) && (velocity != 0.0 ==> Abs(r) < Abs(velocity))
    ensures g == 0.0 ==> (r > 0.0 <==> velocity > 0.0) && (r < 0.0 <==> velocity < 0.0)
    ensures velocity >= 0.0 && g >= 0.0 ==> r >= 0.0
    ensures velocity <= 0.0 && g <= 0.0 ==> r <= 0.0
  {
    (velocity + g) * Damping
  }

  predicate HitsLeftEnd(m: Motion, g: real)
  {
    m.position + Damped(m.velocity, g) < 0.0
  }

  predicate HitsRightEnd(m: Motion, g: real)
  {
    m.position + Damped(m.velocity, g) > 1.0
  }

  predicate Bounces(m: Motion, g: real)
  {
    HitsLeftEnd(m, g) || HitsRightEnd(m, g)
  }

  /** The motion after one frame under gravity force `g`. */
  function Next(m: Motion, g: real): (n: Motion)
    ensures 0.0 <= n.position <= 1.0
  {
    var v := Damped(m.velocity, g);
    var p := m.position + v;
    if p < 0.0 then Motion(0.0, -v * Restitution)
    else if p > 1.0 then Motion(1.0, -v * Restitution)
    else Motion(p, v)
  }

  /** Without a bounce the ball advances by exactly the damped velocity,
      and that is the velocity it keeps. */
  lemma FreeFlight(m: Motion, g: real)
    requires !Bounces(m, g)
    ensures Next(m, g).velocity == Damped(m.velocity, g)
    ensures Next(m, g).position == m.position + Next(m, g).velocity
  {
  }

  /** A bounce stops the ball exactly at the end it hit and keeps 0.7 of
      its damped velocity with the direction reversed: the sign flips and
      the speed strictly drops whenever the ball was moving. */
  lemma BounceReverses(m: Motion, g: real)
    requires Bounces(m, g)
    ensures var n, v := Next(m, g), Damped(m.velocity, g);
            (HitsLeftEnd(m, g) ==> n.position == 0.0) &&
            (HitsRightEnd(m, g) ==> n.position == 1.0) &&
            n.velocity == -Restitution * v &&
            Abs(n.velocity) == Restitution * Abs(v) &&
            (v != 0.0 ==> n.velocity * v < 0.0 && Abs(n.velocity) < Abs(v))
  {
    var v := Damped(m.velocity, g);
    if v > 0.0 {
      assert -Restitution * v * v < 0.0;
    } else if v < 0.0 {
      assert -Restitution * v * v < 0.0;
    }
  }

  /** From a position on the bar, a bounce always sends the ball back
      inwards: away from 0 after the left end, away from 1 after the right. */
  lemma BounceAimsInward(m: Motion, g: real)
    requires 0.0 <= m.position <= 1.0
    ensures HitsLeftEnd(m, g) ==> Next(m, g).velocity > 0.0
    ensures HitsRightEnd(m, g) ==> Next(m, g).velocity < 0.0
  {
  }

  /** The speed bound is an invariant: a ball no faster than the terminal
      speed stays no faster than it, whatever the tilt. */
  lemma {:induction false} SpeedStaysBounded(m: Motion, g: real)
    requires Abs(m.velocity) <= TerminalSpeed && -Gravity <= g <= Gravity
    ensures Abs(Next(m, g).velocity) <= TerminalSpeed
  {
    var v := Damped(m.velocity, g);
    assert TerminalSpeed == 0.0985;
    assert Abs(m.velocity + g) <= TerminalSpeed + Gravity;
    assert Abs(v) == Abs(m.velocity + g) * Damping;
    assert Abs(v) <= (TerminalSpeed + Gravity) * Damping == TerminalSpeed;
    if Bounces(m, g) {
      BounceReverses(m, g);
    }
  }

  /** The motion after `n` frames under a constant gravity force. */
  function Frames(m: Motion, g: real, n: nat): (r: Motion)
    ensures n > 0 ==> 0.0 <= r.position <= 1.0
    decreases n
  {
    if n == 0 then m else Frames(Next(m, g), g, n - 1)
  }

  /** None of the first `n` frames from `m` ends in a bounce. */
  ghost predicate NoBounceFor(m: Motion, g: real, n: nat)
    decreases n
  {
    n == 0 || (!Bounces(m, g) && NoBounceFor(Next(m, g), g, n - 1))
  }

  /** One more frame is one more step of Next. */
  lemma {:induction false} FramesStep(m: Motion, g: real, k: nat)
    ensures Frames(m, g, k + 1) == Next(Frames(m, g, k), g)
    decreases k
  {
    if k > 0 {
      FramesStep(Next(m, g), g, k - 1);
    }
  }

  /** A run without a bounce has no bounce in any prefix ... */
  lemma {:induction false} NoBouncePrefix(m: Motion, g: real, n: nat, k: nat)
    requires k <= n && NoBounceFor(m, g, n)
    ensures NoBounceFor(m, g, k)
    decreases k
  {
    if k > 0 {
      NoBouncePrefix(Next(m, g), g, n - 1, k - 1);
    }
  }

  /** ... and no bounce at any single frame of it. */
  lemma {:induction false} NoBounceAt(m: Motion, g: real, n: nat, k: nat)
    requires k < n && NoBounceFor(m, g, n)
    ensures !Bounces(Frames(m, g, k), g)
    decreases k
  {
    if k > 0 {
      NoBounceAt(Next(m, g), g, n - 1, k - 1);
    }
  }

  /** With the bar tilted to the right (g >= 0) and the ball at rest or
      moving right, the ball keeps moving right and never moves back as long
      as it has not bounced. */
  lemma {:induction false} SteadyTiltDrifts(m: Motion, g: real, n: nat)
    requires g >= 0.0 && m.velocity >= 0.0 && 0.0 <= m.position <= 1.0
    requires NoBounceFor(m, g, n)
    ensures var r := Frames(m, g, n);
            r.velocity >= 0.0 && m.position <= r.position <= 1.0
    decreases n
  {
    if n > 0 {
      FreeFlight(m, g);
      var m' := Next(m, g);
      SteadyTiltDrifts(m', g, n - 1);
    }
  }

  /** Frame by frame: under such a tilt and before any bounce, every frame
      leaves the ball at least as far right as the frame before. */
  lemma SteadyTiltRisesEachFrame(m: Motion, g: real, n: nat, k: nat)
    requires g >= 0.0 && m.velocity >= 0.0 && 0.0 <= m.position <= 1.0
    requires NoBounceFor(m, g, n) && k < n
    ensures Frames(m, g, k).position <= Frames(m, g, k + 1).position
  {
    NoBouncePrefix(m, g, n, k);
    SteadyTiltDrifts(m, g, k);
    NoBounceAt(m, g, n, k);
    FramesStep(m, g, k);
    FreeFlight(Frames(m, g, k), g);
  }

  /** Under such a tilt the first bounce, when it comes, is at the right end,
      and it leaves the ball moving left, slower than it came. */
  lemma FirstBounceAtRightEnd(m: Motion, g: real)
    requires g >= 0.0 && m.velocity >= 0.0 && 0.0 <= m.position <= 1.0
    requires Bounces(m, g)
    ensures HitsRightEnd(m, g) && Next(m, g).position == 1.0
    ensures Next(m, g).velocity < 0.0
    ensures Abs(Next(m, g).velocity) < Abs(Damped(m.velocity, g))
  {
    BounceReverses(m, g);
  }

  /** Every frame preserves "on the bar and within terminal speed". */
  lemma {:induction false} FramesStayInRange(m: Motion, g: real, n: nat)
    requires 0.0 <= m.position <= 1.0 && Abs(m.velocity) <= TerminalSpeed
    requires -Gravity <= g <= Gravity
    ensures var r := Frames(m, g, n);
            0.0 <= r.position <= 1.0 && Abs(r.velocity) <= TerminalSpeed
    decreases n
  {
    if n > 0 {
      SpeedStaysBounded(m, g);
      FramesStayInRange(Next(m, g), g, n - 1);
    }
  }
}
