/** The shifted timestep schedule of the flow-matching sampler and the Euler recurrence over it, as the comments
    of the engine describe it; what its graph computes is in `FasterWamDenoise`. */
module FasterWamSchedule {

  function Ratio(i: nat, n: nat): real
    requires n >= 1
  {
    i as real / n as real
  }

  lemma RatioRange(i: nat, n: nat)
    requires n >= 1 && i <= n
    ensures 0.0 <= Ratio(i, n) <= 1.0
    ensures Ratio(0, n) == 0.0 && Ratio(n, n) == 1.0
    ensures i < n ==> Ratio(i, n) < Ratio(i + 1, n)
  {
  }

  lemma DenominatorPositive(shift: real, t: real)
    requires shift > 0.0 && 0.0 <= t <= 1.0
    ensures 1.0 + (shift - 1.0) * t > 0.0
  {
    assert 1.0 + (shift - 1.0) * t == (1.0 - t) + shift * t;
    if t > 0.0 {
      Scale(shift, 0.0, t);
    }
  }

  /** The shift warps [0, 1] onto itself. */
  function Warp(shift: real, t: real): real
    requires shift > 0.0 && 0.0 <= t <= 1.0
  {
    DenominatorPositive(shift, t);
    shift * t / (1.0 + (shift - 1.0) * t)
  }

  lemma WarpIncreases(shift: real, a: real, b: real)
    requires shift > 0.0 && 0.0 <= a < b <= 1.0
    ensures Warp(shift, a) < Warp(shift, b)
  {
    DenominatorPositive(shift, a);
    DenominatorPositive(shift, b);
    var da, db := 1.0 + (shift - 1.0) * a, 1.0 + (shift - 1.0) * b;
    assert a * db - b * da == a - b by {
      assert a * db == a + (shift - 1.0) * b * a && b * da == b + (shift - 1.0) * a * b;
    }
    assert shift * a * db < shift * b * da by {
      Scale(shift, a * db, b * da);
      assert shift * (a * db) == shift * a * db && shift * (b * da) == shift * b * da;
    }
    CrossLess(shift * a, da, shift * b, db);
  }

  /** The shift multiplies the odds t / (1 - t): a shift of 1 changes nothing, and the inverse shift undoes one. */
  lemma WarpScalesOdds(shift: real, t: real)
    requires shift > 0.0 && 0.0 <= t <= 1.0
    ensures Warp(shift, t) * (1.0 - t) == shift * t * (1.0 - Warp(shift, t))
    ensures Warp(1.0, t) == t
  {
    DenominatorPositive(shift, t);
    var d, w := 1.0 + (shift - 1.0) * t, Warp(shift, t);
    assert w * d == shift * t;
    assert w * d == w + shift * t * w - t * w by {
      assert d == 1.0 + shift * t - t;
      Expand(w, shift * t, t);
    }
    Odds(w, shift * t, t);
  }

  lemma Expand(w: real, a: real, t: real)
    ensures w * (1.0 + a - t) == w + a * w - t * w
  {
  }

  lemma Odds(w: real, a: real, t: real)
    requires w + a * w - t * w == a
    ensures w * (1.0 - t) == a * (1.0 - w)
  {
  }

  lemma Scale(k: real, x: real, y: real)
    requires k > 0.0 && x < y
    ensures k * x < k * y
  {
  }

  lemma CrossLess(p: real, q: real, r: real, s: real)
    requires q > 0.0 && s > 0.0 && p * s < r * q
    ensures p / q < r / s
  {
  }

  // ---------------------------------------------------------------- schedule

  predicate Settings(n: nat, shift: real, train: real) {
    n >= 1 && shift > 0.0 && train > 0.0
  }

  /** Boundary `i` of the schedule, in train timesteps. */
  function Boundary(n: nat, shift: real, train: real, i: nat): real
    requires Settings(n, shift, train) && i <= n
  {
    RatioRange(i, n);
    Warp(shift, Ratio(i, n)) * train
  }

  function Schedule(n: nat, shift: real, train: real): (schedule: seq<real>)
    requires Settings(n, shift, train)
  {
    seq(n + 1, (i: nat) requires i <= n => Boundary(n, shift, train, i))
  }

  method MakeTimestepSchedule(n: nat, shift: real, train: real) returns (schedule: seq<real>)
    requires Settings(n, shift, train)
    ensures schedule == Schedule(n, shift, train)
  {
    schedule := [];
    for i := 0 to n + 1
      invariant |schedule| == i
      invariant forall k :: 0 <= k < i ==> schedule[k] == Boundary(n, shift, train, k)
    {
      RatioRange(i, n);
      var tLin := i as real / n as real;
      DenominatorPositive(shift, tLin);
      var tShift := shift * tLin / (1.0 + (shift - 1.0) * tLin);
      schedule := schedule + [tShift * train];
    }
  }

  lemma ScheduleEnds(n: nat, shift: real, train: real)
    requires Settings(n, shift, train)
    ensures Boundary(n, shift, train, 0) == 0.0 && Boundary(n, shift, train, n) == train
  {
    RatioRange(n, n);
  }

  lemma ScheduleStep(n: nat, shift: real, train: real, i: nat)
    requires Settings(n, shift, train) && i < n
    ensures Boundary(n, shift, train, i) < Boundary(n, shift, train, i + 1)
  {
    RatioRange(i, n);
    RatioRange(i + 1, n);
    var a, b := Ratio(i, n), Ratio(i + 1, n);
    WarpIncreases(shift, a, b);
    Scale(train, Warp(shift, a), Warp(shift, b));
  }

  /** The schedule rises strictly. */
  lemma {:induction false} ScheduleRises(n: nat, shift: real, train: real, i: nat, j: nat)
    requires Settings(n, shift, train) && i < j <= n
    ensures Boundary(n, shift, train, i) < Boundary(n, shift, train, j)
    decreases j
  {
    ScheduleStep(n, shift, train, j - 1);
    if i < j - 1 {
      ScheduleRises(n, shift, train, i, j - 1);
    }
  }

  /** Boundaries that climb strictly from 0 to the number of train timesteps. */
  ghost predicate Climbs(schedule: seq<real>, train: real) {
    && train > 0.0 && |schedule| >= 2
    && schedule[0] == 0.0 && schedule[|schedule| - 1] == train
    && forall i, j :: 0 <= i < j < |schedule| ==> schedule[i] < schedule[j]
  }

  /** For every step count, every positive shift and every positive number of train timesteps. */
  lemma ScheduleClimbs(n: nat, shift: real, train: real)
    requires Settings(n, shift, train)
    ensures Climbs(Schedule(n, shift, train), train)
  {
    ScheduleEnds(n, shift, train);
    forall i: nat, j: nat | i < j <= n
      ensures Schedule(n, shift, train)[i] < Schedule(n, shift, train)[j]
    {
      ScheduleRises(n, shift, train, i, j);
    }
  }

  // ---------------------------------------------------------------- Euler deltas

  /** The Euler step from boundary `step` + 1 down to boundary `step`, as a difference of noise levels. */
  function Delta(schedule: seq<real>, train: real, step: nat): real
    requires train > 0.0 && step + 1 < |schedule|
  {
    schedule[step] / train - schedule[step + 1] / train
  }

  function DeltaSum(schedule: seq<real>, train: real, from: nat): real
    requires train > 0.0 && from < |schedule|
    decreases |schedule| - from
  {
    if from + 1 == |schedule| then 0.0 else Delta(schedule, train, from) + DeltaSum(schedule, train, from + 1)
  }

  lemma DeltaNegative(schedule: seq<real>, train: real, step: nat)
    requires Climbs(schedule, train) && step + 1 < |schedule|
    ensures Delta(schedule, train, step) < 0.0
  {
  }

  /** The steps from any boundary up to the last telescope, so all of them together go down by one. */
  lemma {:induction false} DeltasTelescope(schedule: seq<real>, train: real, from: nat)
    requires Climbs(schedule, train) && from < |schedule|
    ensures DeltaSum(schedule, train, from) == schedule[from] / train - 1.0
    ensures from == 0 ==> DeltaSum(schedule, train, from) == -1.0
    decreases |schedule| - from
  {
    if from + 1 < |schedule| {
      DeltasTelescope(schedule, train, from + 1);
    } else {
      Cancel(train, 1.0);
    }
  }

  // ---------------------------------------------------------------- Euler recurrence

  /** The action network: latent, timestep and entry to the velocity of that entry. */
  type Velocity = (seq<real>, real, nat) -> real

  function Moved(x: seq<real>, delta: real, velocity: Velocity, t: real): (r: seq<real>)
    ensures |r| == |x|
  {
    seq(|x|, (k: nat) requires k < |x| => x[k] + delta * velocity(x, t, k))
  }

  /** The latent after the steps from the last down to `step`. */
  function Euler(schedule: seq<real>, train: real, velocity: Velocity, x: seq<real>, step: nat): (r: seq<real>)
    requires train > 0.0 && step < |schedule|
    ensures |r| == |x|
    decreases |schedule| - step
  {
    if step + 1 == |schedule| then x
    else
      Moved(Euler(schedule, train, velocity, x, step + 1), Delta(schedule, train, step), velocity, schedule[step + 1])
  }

  function Constant(v: seq<real>): Velocity {
    (y: seq<real>, t: real, k: nat) => if k < |v| then v[k] else 0.0
  }

  lemma {:induction false} ConstantDrift(schedule: seq<real>, train: real, v: seq<real>, x: seq<real>, step: nat,
                                         k: nat)
    requires train > 0.0 && step < |schedule| && k < |x| == |v|
    ensures Euler(schedule, train, Constant(v), x, step)[k] == x[k] + v[k] * DeltaSum(schedule, train, step)
    decreases |schedule| - step
  {
    if step + 1 < |schedule| {
      ConstantDrift(schedule, train, v, x, step + 1, k);
    }
  }

  /** A constant velocity field carries the noise by exactly minus that field. */
  lemma ConstantVelocity(n: nat, shift: real, train: real, v: seq<real>, x: seq<real>, k: nat)
    requires Settings(n, shift, train) && k < |x| == |v|
    ensures Euler(Schedule(n, shift, train), train, Constant(v), x, 0)[k] == x[k] - v[k]
  {
    ScheduleClimbs(n, shift, train);
    ConstantDrift(Schedule(n, shift, train), train, v, x, 0, k);
    DeltasTelescope(Schedule(n, shift, train), train, 0);
  }

  /** The field that points straight away from `target`, at the rate the noise level asks for. */
  function Towards(train: real, target: seq<real>): Velocity
    requires train > 0.0
  {
    (y: seq<real>, t: real, k: nat) =>
      if t / train != 0.0 && k < |y| && k < |target| then (y[k] - target[k]) / (t / train) else 0.0
  }

  /** The latent on the straight line from `target` at noise level 0 to `x` at noise level 1. */
  function OnLine(target: seq<real>, x: seq<real>, level: real): (r: seq<real>)
    requires |x| == |target|
    ensures |r| == |x|
  {
    seq(|x|, (k: nat) requires k < |x| => target[k] + level * (x[k] - target[k]))
  }

  lemma EntryMoves(target: real, x: real, curr: real, next: real, y: real, delta: real)
    requires curr > 0.0 && y == target + curr * (x - target) && delta == next - curr
    ensures y + delta * ((y - target) / curr) == target + next * (x - target)
  {
  }

  /** Along that field one Euler step goes from one noise level to the next on the line. */
  lemma LineMoves(schedule: seq<real>, train: real, target: seq<real>, x: seq<real>, step: nat)
    requires Climbs(schedule, train) && step + 1 < |schedule| && |x| == |target|
    ensures Moved(OnLine(target, x, schedule[step + 1] / train), Delta(schedule, train, step), Towards(train, target),
                  schedule[step + 1]) == OnLine(target, x, schedule[step] / train)
  {
    var curr, next, delta := schedule[step + 1] / train, schedule[step] / train, Delta(schedule, train, step);
    var y := OnLine(target, x, curr);
    forall k: nat | k < |x|
      ensures Moved(y, delta, Towards(train, target), schedule[step + 1])[k] == OnLine(target, x, next)[k]
    {
      EntryMoves(target[k], x[k], curr, next, y[k], delta);
    }
  }

  /** So the loop stays on the line. */
  lemma {:induction false} StaysOnLine(schedule: seq<real>, train: real, target: seq<real>, x: seq<real>, step: nat)
    requires Climbs(schedule, train) && step < |schedule| && |x| == |target|
    ensures Euler(schedule, train, Towards(train, target), x, step) == OnLine(target, x, schedule[step] / train)
    decreases |schedule| - step
  {
    if step + 1 < |schedule| {
      StaysOnLine(schedule, train, target, x, step + 1);
      LineMoves(schedule, train, target, x, step);
    } else {
      Cancel(train, 1.0);
      LineEnds(target, x);
    }
  }

  lemma LineEnds(target: seq<real>, x: seq<real>)
    requires |x| == |target|
    ensures OnLine(target, x, 1.0) == x && OnLine(target, x, 0.0) == target
  {
  }

  /** And it ends exactly on the target, for any number of steps and any shift. */
  lemma StraightLineHitsTarget(n: nat, shift: real, train: real, target: seq<real>, x: seq<real>)
    requires Settings(n, shift, train) && |x| == |target|
    ensures Euler(Schedule(n, shift, train), train, Towards(train, target), x, 0) == target
  {
    ScheduleClimbs(n, shift, train);
    StaysOnLine(Schedule(n, shift, train), train, target, x, 0);
    LineEnds(target, x);
  }

  lemma Cancel(s: real, d: real)
    requires s > 0.0
    ensures (s * d) / s == d
  {
  }
}
