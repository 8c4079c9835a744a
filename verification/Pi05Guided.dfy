/** The unrolled Euler loop of the pi0.5 action expert, with and without real-time-chunking guidance. */
module Pi05Guided {
  import opened Pi05Rtc

  /** The action expert: latent, step and entry to the velocity of that entry. */
  type Expert = (seq<real>, nat, nat) -> real

  /** What guides a run: the normalised previous chunk, a weight per entry, the cap of the guidance table. */
  datatype Guide = Off | Toward(prev: seq<real>, weights: seq<real>, maxG: real)

  predicate Fits(g: Guide, x: seq<real>) {
    g.Toward? ==> |g.prev| == |x| && |g.weights| == |x|
  }

  /** Where entry `x` would end if it kept its velocity for the rest of the flow. */
  function Estimate(x: real, v: real, time: real): real {
    x - time * v
  }

  function Guided(x: real, v: real, prev: real, w: real, time: real, g: real): real {
    v - g * ((prev - Estimate(x, v, time)) * w)
  }

  /** The velocity the loop uses for entry `k` at step `s` of `n`. */
  function VelocityAt(net: Expert, n: nat, guide: Guide, x: seq<real>, s: nat, k: nat): real
    requires s < n && k < |x| && Fits(guide, x)
  {
    match guide
    case Off => net(x, s, k)
    case Toward(prev, weights, maxG) =>
      Guided(x[k], net(x, s, k), prev[k], weights[k], Time(s, n), Guidance(s, n, maxG))
  }

  function StepOf(net: Expert, n: nat, guide: Guide, x: seq<real>, s: nat): (r: seq<real>)
    requires s < n && Fits(guide, x)
    ensures |r| == |x|
  {
    seq(|x|, (k: nat) requires k < |x| => x[k] - VelocityAt(net, n, guide, x, s, k) / n as real)
  }

  /** The latent after the first `s` steps. */
  function Trajectory(net: Expert, n: nat, guide: Guide, x0: seq<real>, s: nat): (r: seq<real>)
    requires s <= n && Fits(guide, x0)
    ensures |r| == |x0|
    decreases s
  {
    if s == 0 then x0 else StepOf(net, n, guide, Trajectory(net, n, guide, x0, s - 1), s - 1)
  }

  // ---------------------------------------------------------------- the loop

  function Add(a: seq<real>, b: seq<real>): (r: seq<real>)
    requires |a| == |b|
  {
    seq(|a|, (k: nat) requires k < |a| => a[k] + b[k])
  }

  function Sub(a: seq<real>, b: seq<real>): (r: seq<real>)
    requires |a| == |b|
  {
    seq(|a|, (k: nat) requires k < |a| => a[k] - b[k])
  }

  function Mul(a: seq<real>, b: seq<real>): (r: seq<real>)
    requires |a| == |b|
  {
    seq(|a|, (k: nat) requires k < |a| => a[k] * b[k])
  }

  function Scale(a: seq<real>, c: real): (r: seq<real>) {
    seq(|a|, (k: nat) requires k < |a| => a[k] * c)
  }

  lemma SteerAt(x: seq<real>, v: seq<real>, prev: seq<real>, weights: seq<real>, time: real, g: real, k: nat)
    requires |v| == |x| && |prev| == |x| && |weights| == |x| && k < |x|
    ensures Sub(v, Scale(Mul(Sub(prev, Sub(x, Scale(v, time))), weights), g))[k] ==
            Guided(x[k], v[k], prev[k], weights[k], time, g)
  {
  }

  lemma MovedIsStep(net: Expert, n: nat, guide: Guide, x: seq<real>, s: nat, v: seq<real>, dt: real)
    requires s < n && Fits(guide, x) && |v| == |x| && dt == -1.0 / n as real
    requires forall k: nat | k < |x| :: v[k] == VelocityAt(net, n, guide, x, s, k)
    ensures Add(x, Scale(v, dt)) == StepOf(net, n, guide, x, s)
  {
    var moved, step := Add(x, Scale(v, dt)), StepOf(net, n, guide, x, s);
    forall k: nat | k < |x|
      ensures moved[k] == step[k]
    {
      NegativeStep(v[k], n as real, dt);
    }
  }

  /** The chain of tensor operations the engine unrolls into its graph. */
  method Denoise(net: Expert, n: nat, guide: Guide, table: array<real>, x0: seq<real>) returns (x: seq<real>)
    requires n >= 1 && Fits(guide, x0)
    requires guide.Toward? ==> table.Length == n
    requires guide.Toward? ==> forall s: nat | s < n :: table[s] == Guidance(s, n, guide.maxG)
    ensures x == Trajectory(net, n, guide, x0, n)
  {
    var dt := -1.0 / n as real;
    x := x0;
    for step := 0 to n
      invariant x == Trajectory(net, n, guide, x0, step)
    {
      var v := seq(|x|, (k: nat) => net(x, step, k));
      if guide.Toward? {
        var time := 1.0 + step as real * dt;
        TimeOfStep(step, n, dt);
        var x1 := Sub(x, Scale(v, time));
        var diff := Sub(guide.prev, x1);
        var err := Mul(diff, guide.weights);
        forall k: nat | k < |x|
          ensures Sub(v, Scale(err, table[step]))[k] == VelocityAt(net, n, guide, x, step, k)
        {
          SteerAt(x, v, guide.prev, guide.weights, time, table[step], k);
        }
        v := Sub(v, Scale(err, table[step]));
      }
      MovedIsStep(net, n, guide, x, step, v, dt);
      x := Add(x, Scale(v, dt));
    }
  }

  lemma TimeOfStep(s: nat, n: nat, dt: real)
    requires s < n && dt == -1.0 / n as real
    ensures 1.0 + s as real * dt == Time(s, n)
  {
  }

  lemma NegativeStep(v: real, n: real, dt: real)
    requires n > 0.0 && dt == -1.0 / n
    ensures v * dt == -(v / n)
  {
  }

  // ---------------------------------------------------------------- one guided step

  /** Guidance scales the distance of the estimate to the previous chunk by 1 - time * g * w. */
  lemma ErrorScales(x: real, v: real, prev: real, w: real, time: real, g: real)
    ensures prev - Estimate(x, Guided(x, v, prev, w, time, g), time) ==
            (prev - Estimate(x, v, time)) * (1.0 - time * g * w)
  {
  }

  function Abs(x: real): real {
    if x < 0.0 then -x else x
  }

  lemma AbsProduct(e: real, f: real)
    ensures Abs(e * f) == Abs(e) * Abs(f)
  {
  }

  lemma ScalesDownIff(e: real, f: real)
    ensures Abs(e * f) < Abs(e) <==> e != 0.0 && Abs(f) < 1.0
  {
    AbsProduct(e, f);
    if Abs(f) < 1.0 && e != 0.0 {
      assert Abs(e) * Abs(f) < Abs(e) * 1.0;
    } else {
      assert Abs(e) * Abs(f) >= Abs(e) * (if e == 0.0 then 0.0 else 1.0);
    }
  }

  /** A guided step brings the estimate closer to the previous chunk exactly when it was off and
      0 < time * g * w < 2. */
  lemma CloserIff(x: real, v: real, prev: real, w: real, time: real, g: real)
    ensures Abs(prev - Estimate(x, Guided(x, v, prev, w, time, g), time)) < Abs(prev - Estimate(x, v, time))
            <==> prev != Estimate(x, v, time) && 0.0 < time * g * w < 2.0
  {
    ErrorScales(x, v, prev, w, time, g);
    ScalesDownIff(prev - Estimate(x, v, time), 1.0 - time * g * w);
  }

  /** At the first step a frozen entry gets closer only under a cap below 2; the default cap of 10
      overshoots. */
  lemma FirstStepCloserIff(n: nat, maxG: real, x: real, v: real, prev: real)
    requires n >= 1 && maxG > 0.0
    requires prev != Estimate(x, v, Time(0, n))
    ensures Abs(prev - Estimate(x, Guided(x, v, prev, 1.0, Time(0, n), Guidance(0, n, maxG)), Time(0, n)))
            < Abs(prev - Estimate(x, v, Time(0, n)))
            <==> maxG < 2.0
  {
    CloserIff(x, v, prev, 1.0, Time(0, n), Guidance(0, n, maxG));
  }

  // ---------------------------------------------------------------- whole runs

  /** The loop returns the guided estimate of its last step. */
  lemma OutputIsLastEstimate(net: Expert, n: nat, guide: Guide, x0: seq<real>, k: nat)
    requires n >= 1 && Fits(guide, x0) && k < |x0|
    ensures Trajectory(net, n, guide, x0, n)[k] ==
            Estimate(Trajectory(net, n, guide, x0, n - 1)[k],
                     VelocityAt(net, n, guide, Trajectory(net, n, guide, x0, n - 1), n - 1, k),
                     Time(n - 1, n))
  {
  }

  lemma LastTime(n: nat)
    requires n >= 1
    ensures Time(n - 1, n) == 1.0 / n as real
  {
  }

  lemma SameVelocitySameStep(net: Expert, n: nat, guide: Guide, x: seq<real>, s: nat)
    requires s < n && Fits(guide, x)
    requires forall k: nat | k < |x| :: VelocityAt(net, n, guide, x, s, k) == VelocityAt(net, n, Off, x, s, k)
    ensures StepOf(net, n, guide, x, s) == StepOf(net, n, Off, x, s)
  {
  }

  /** With every weight 0 the whole run is the run without guidance. */
  lemma {:induction false} ZeroWeightsAreOff(net: Expert, n: nat, guide: Guide, x0: seq<real>, s: nat)
    requires guide.Toward? && Fits(guide, x0) && s <= n
    requires forall k: nat | k < |x0| :: guide.weights[k] == 0.0
    ensures Trajectory(net, n, guide, x0, s) == Trajectory(net, n, Off, x0, s)
    decreases s
  {
    if s > 0 {
      ZeroWeightsAreOff(net, n, guide, x0, s - 1);
      SameVelocitySameStep(net, n, guide, Trajectory(net, n, Off, x0, s - 1), s - 1);
    }
  }

  /** The expert already heads for `prev` from wherever the latent is. */
  ghost predicate HeadsFor(net: Expert, n: nat, prev: seq<real>) {
    forall x: seq<real>, s: nat, k: nat | |x| == |prev| && s < n && k < |x| ::
      Estimate(x[k], net(x, s, k), Time(s, n)) == prev[k]
  }

  /** Then guidance changes nothing, whatever the weights and the cap. */
  lemma {:induction false} AgreementNeedsNoGuidance(net: Expert, n: nat, guide: Guide, x0: seq<real>, s: nat)
    requires guide.Toward? && Fits(guide, x0) && s <= n
    requires HeadsFor(net, n, guide.prev)
    ensures Trajectory(net, n, guide, x0, s) == Trajectory(net, n, Off, x0, s)
    decreases s
  {
    if s > 0 {
      AgreementNeedsNoGuidance(net, n, guide, x0, s - 1);
      var x, t := Trajectory(net, n, Off, x0, s - 1), s - 1;
      forall k: nat | k < |x|
        ensures VelocityAt(net, n, guide, x, t, k) == VelocityAt(net, n, Off, x, t, k)
      {
        NoErrorNoPush(x[k], net(x, t, k), guide.prev[k], guide.weights[k], Time(t, n), Guidance(t, n, guide.maxG));
      }
      SameVelocitySameStep(net, n, guide, x, t);
    }
  }

  lemma NoErrorNoPush(x: real, v: real, prev: real, w: real, time: real, g: real)
    requires Estimate(x, v, time) == prev
    ensures Guided(x, v, prev, w, time, g) == v
  {
  }

  /** And the run ends exactly on `prev`, from any noise. */
  lemma AgreementEndsOnPrev(net: Expert, n: nat, guide: Guide, x0: seq<real>)
    requires n >= 1 && guide.Toward? && Fits(guide, x0)
    requires HeadsFor(net, n, guide.prev)
    ensures Trajectory(net, n, guide, x0, n) == guide.prev
  {
    AgreementNeedsNoGuidance(net, n, guide, x0, n);
    forall k: nat | k < |x0|
      ensures Trajectory(net, n, Off, x0, n)[k] == guide.prev[k]
    {
      OutputIsLastEstimate(net, n, Off, x0, k);
    }
  }

  lemma LastFactor(t: real, tau: real)
    requires 0.0 < t <= 0.5 && tau == 1.0 - t
    ensures t * tau > 0.0
    ensures 0.0 <= 1.0 - t * (1.0 / (t * tau) - 2.0) <= t
  {
    Product(t);
    var r := 1.0 / (t * tau);
    assert r * (t * tau) == 1.0;
    var u := t * r;
    assert u * tau == 1.0;
    FactorBounds(t, tau, u);
  }

  lemma FactorBounds(t: real, tau: real, u: real)
    requires 0.0 < t <= 0.5 && tau == 1.0 - t && u * tau == 1.0
    ensures 0.0 <= 1.0 - u + 2.0 * t <= t
  {
    var f, m := 1.0 - u + 2.0 * t, 1.0 - 2.0 * t;
    Between(f, t, m, tau);
  }

  lemma Between(f: real, t: real, m: real, tau: real)
    requires t > 0.0 && 0.0 <= m <= tau && tau > 0.0 && f * tau == t * m
    ensures 0.0 <= f <= t
  {
    assert t * m <= t * tau;
    assert t * m >= 0.0;
  }

  /** On a frozen entry, with the cap out of reach at the last step, the output is at least n times
      closer to the previous chunk than the expert's own last estimate. */
  lemma FrozenEntriesLand(net: Expert, n: nat, guide: Guide, x0: seq<real>, k: nat)
    requires n >= 2 && guide.Toward? && Fits(guide, x0) && k < |x0|
    requires guide.weights[k] == 1.0 && guide.maxG >= n as real
    ensures var x := Trajectory(net, n, guide, x0, n - 1);
            Abs(guide.prev[k] - Trajectory(net, n, guide, x0, n)[k])
            <= Abs(guide.prev[k] - Estimate(x[k], net(x, n - 1, k), Time(n - 1, n))) / n as real
  {
    OutputIsLastEstimate(net, n, guide, x0, k);
    FrozenLanding(net, n, guide, Trajectory(net, n, guide, x0, n - 1), k);
  }

  lemma FrozenLanding(net: Expert, n: nat, guide: Guide, x: seq<real>, k: nat)
    requires n >= 2 && guide.Toward? && Fits(guide, x) && k < |x| && guide.weights[k] == 1.0
    requires guide.maxG >= n as real
    ensures Abs(guide.prev[k] - Estimate(x[k], VelocityAt(net, n, guide, x, n - 1, k), Time(n - 1, n)))
            <= Abs(guide.prev[k] - Estimate(x[k], net(x, n - 1, k), Time(n - 1, n))) / n as real
  {
    LastTime(n);
    LastGuidance(n, guide.maxG);
    Landing(x[k], net(x, n - 1, k), guide.prev[k], Time(n - 1, n), Guidance(n - 1, n, guide.maxG), n as real);
  }

  lemma Landing(x: real, v: real, prev: real, t: real, g: real, n: real)
    requires n > 0.0 && t == 1.0 / n && 0.0 <= 1.0 - t * g <= t
    ensures Abs(prev - Estimate(x, Guided(x, v, prev, 1.0, t, g), t)) <= Abs(prev - Estimate(x, v, t)) / n
  {
    var e, f := prev - Estimate(x, v, t), 1.0 - t * g;
    assert prev - Estimate(x, Guided(x, v, prev, 1.0, t, g), t) == e * f by {
      ErrorScales(x, v, prev, 1.0, t, g);
      assert t * g * 1.0 == t * g;
    }
    Bounded(e, f, t);
  }

  lemma Bounded(e: real, f: real, t: real)
    requires 0.0 <= f <= t
    ensures Abs(e * f) <= t * Abs(e)
  {
  }

  /** At the last step the uncapped guidance stays below n. */
  lemma LastGuidance(n: nat, maxG: real)
    requires n >= 2 && maxG >= n as real
    ensures var t := Time(n - 1, n); 0.0 <= 1.0 - t * Guidance(n - 1, n, maxG) <= t
  {
    LastTime(n);
    var t := Time(n - 1, n);
    Reciprocal(2.0, n as real);
    LastFactor(t, 1.0 - t);
    var raw := 1.0 / (t * (1.0 - t)) - 2.0;
    assert t * raw <= 1.0;
    assert raw <= n as real by {
      assert t * n as real == 1.0;
    }
  }

}
