/** Real-time chunking in the pi0.5 engine: the guidance table, the prefix weights, the flat row-major
    buffers and the (de-)normalisation between robot units and the latent. */
module Pi05Rtc {

  function Min(a: real, b: real): real {
    if a <= b then a else b
  }

  // ---------------------------------------------------------------- guidance table

  /** The flow time before step `s` of `n`; it runs from 1 down to 1 / n. */
  function Time(s: nat, n: nat): real
    requires s < n
  {
    1.0 - s as real / n as real
  }

  /** Guidance of step `s`: full at the start, else capped 1 / (time * tau) - 2 with tau = 1 - time. */
  function Guidance(s: nat, n: nat, maxG: real): real
    requires s < n
  {
    if s == 0 then maxG
    else
      TimeRange(s, n);
      Product(Time(s, n));
      Min(1.0 / (Time(s, n) * (1.0 - Time(s, n))) - 2.0, maxG)
  }

  lemma TimeRange(s: nat, n: nat)
    requires s < n
    ensures 0.0 < Time(s, n) <= 1.0
    ensures s > 0 ==> Time(s, n) < 1.0
    ensures s == 0 ==> Time(s, n) == 1.0
  {
  }

  lemma Product(t: real)
    requires 0.0 < t < 1.0
    ensures 0.0 < t * (1.0 - t) <= 0.25
  {
  }

  /** The ratio the source computes is the closed form above. */
  lemma RawGuidance(time: real, tau: real)
    requires 0.0 < time < 1.0 && tau == 1.0 - time
    ensures time * tau > 0.0 && time * time > 0.0
    ensures (time / tau) * ((time * time + tau * tau) / (time * time)) == 1.0 / (time * tau) - 2.0
  {
  }

  /** The table the engine fills once, before its first computation. */
  method InitStepGuidance(n: nat, maxG: real) returns (table: array<real>)
    requires maxG > 0.0
    ensures fresh(table) && table.Length == n
    ensures forall s: nat | s < n :: table[s] == Guidance(s, n, maxG)
  {
    table := new real[n](_ => maxG);
    for s := 0 to n
      invariant forall k: nat | k < s :: table[k] == Guidance(k, n, maxG)
      invariant forall k: nat | s <= k < n :: table[k] == maxG
    {
      TimeRange(s, n);
      var time := 1.0 - s as real / n as real;
      var tau := s as real / n as real;
      if tau > 0.0 {
        RawGuidance(time, tau);
        var c := time / tau;
        var invR2 := (time * time + tau * tau) / (time * time);
        var g := c * invR2;
        if !(g > 0.0) || g > maxG {
          g := maxG;
        }
        GuidanceBounds(s, n, maxG);
        table[s] := g;
      }
    }
  }

  lemma Reciprocal(p: real, q: real)
    requires 0.0 < p <= q
    ensures 1.0 / q <= 1.0 / p
  {
  }

  /** The guidance is positive, never above its cap and never below min(2, cap). */
  lemma GuidanceBounds(s: nat, n: nat, maxG: real)
    requires s < n && maxG > 0.0
    ensures Min(2.0, maxG) <= Guidance(s, n, maxG) <= maxG
    ensures s > 0 ==> Time(s, n) * (1.0 - Time(s, n)) > 0.0
    ensures s > 0 ==> 1.0 / (Time(s, n) * (1.0 - Time(s, n))) - 2.0 > 0.0
  {
    if s > 0 {
      TimeRange(s, n);
      Product(Time(s, n));
      Reciprocal(Time(s, n) * (1.0 - Time(s, n)), 0.25);
    }
  }

  lemma MirroredTime(s: nat, n: nat)
    requires 0 < s < n
    ensures Time(n - s, n) == 1.0 - Time(s, n)
  {
    Complement(s as real, n as real);
  }

  lemma Complement(a: real, b: real)
    requires b > 0.0
    ensures (b - a) / b == 1.0 - a / b
  {
    QuotientIsUnique(b - a, b, 1.0 - a / b) by {
      assert (a / b) * b == a;
    }
  }

  lemma QuotientIsUnique(x: real, b: real, q: real)
    requires b != 0.0 && q * b == x
    ensures x / b == q
  {
  }

  lemma RatioOfSquares(a: real, b: real, n: real)
    requires a > 0.0 && b > 0.0 && a + b == n
    ensures n != 0.0 && (b / n) * (1.0 - b / n) > 0.0
    ensures (1.0 / ((b / n) * (1.0 - b / n)) - 2.0) * (a * b) == a * a + b * b
  {
    Complement(b, n);
    assert n - b == a;
    assert (b / n) * (a / n) == (a * b) / (n * n);
    assert (1.0 / ((a * b) / (n * n))) * (a * b) == n * n;
  }

  /** Inside the run, in step numbers: the ratio (s^2 + (n-s)^2) / (s (n-s)), cut at the cap. */
  lemma GuidanceClosedForm(s: nat, n: nat, maxG: real) returns (raw: real)
    requires 0 < s < n
    ensures raw * (s as real * (n - s) as real) == s as real * s as real + (n - s) as real * (n - s) as real
    ensures Guidance(s, n, maxG) == Min(raw, maxG)
    ensures Guidance(0, n, maxG) == maxG
  {
    TimeRange(s, n);
    Product(Time(s, n));
    raw := 1.0 / (Time(s, n) * (1.0 - Time(s, n))) - 2.0;
    Complement(s as real, n as real);
    RatioOfSquares(s as real, (n - s) as real, n as real);
  }

  /** Inside the run the table reads the same from both ends. */
  lemma GuidanceSymmetric(s: nat, n: nat, maxG: real)
    requires 0 < s < n
    ensures Guidance(n - s, n, maxG) == Guidance(s, n, maxG)
  {
    TimeRange(s, n);
    Product(Time(s, n));
    MirroredTime(s, n);
  }

  lemma TimeFalls(s: nat, s': nat, n: nat)
    requires s < s' && 2 * s' <= n
    ensures 0.5 <= Time(s', n) < Time(s, n)
  {
    QuotientRises(s as real, s' as real, n as real);
  }

  lemma QuotientRises(a: real, b: real, c: real)
    requires a < b && c > 0.0
    ensures a / c < b / c
  {
  }

  /** Up to the middle of the run the guidance only falls. */
  lemma GuidanceFallsToTheMiddle(s: nat, s': nat, n: nat, maxG: real)
    requires s < s' && 2 * s' <= n && maxG > 0.0
    ensures Guidance(s', n, maxG) <= Guidance(s, n, maxG)
  {
    GuidanceBounds(s', n, maxG);
    if s > 0 {
      TimeFalls(s, s', n);
      TimeRange(s, n);
      Reciprocal(Time(s, n) * (1.0 - Time(s, n)), Time(s', n) * (1.0 - Time(s', n)));
    }
  }

  // ---------------------------------------------------------------- prefix weights

  /** Where the weights of a request end (`soft`) and how many of them are frozen at 1 (`frozen`). */
  datatype Prefix = Prefix(soft: nat, frozen: nat)

  ghost predicate Ordered(p: Prefix) {
    p.frozen <= p.soft
  }

  function PrefixOf(horizon: nat, delay: nat, nPrev: nat): (p: Prefix)
    ensures Ordered(p)
  {
    var soft := if horizon <= nPrev then horizon else nPrev;
    Prefix(soft, if delay <= soft then delay else soft)
  }

  /** The linear ramp, one step short of reaching 1 and one step short of reaching 0. */
  function Ramp(p: Prefix, i: nat): real
    requires p.frozen <= i < p.soft
  {
    (p.soft - i) as real / ((p.soft - p.frozen) as real + 1.0)
  }

  /** The exponential schedule bends the ramp; `expm1` is e^w - 1. */
  datatype Schedule = Linear | Exponential(expm1: real -> real)

  ghost predicate ExpLike(expm1: real -> real) {
    expm1(0.0) == 0.0 && forall a, b :: a < b ==> expm1(a) < expm1(b)
  }

  ghost predicate Proper(c: Schedule) {
    c.Exponential? ==> ExpLike(c.expm1)
  }

  function Bend(c: Schedule, w: real): real
    requires c.Exponential? ==> c.expm1(1.0) != 0.0
  {
    match c
    case Linear => w
    case Exponential(expm1) => w * expm1(w) / expm1(1.0)
  }

  function Weight(c: Schedule, p: Prefix, i: nat): real
    requires c.Exponential? ==> c.expm1(1.0) != 0.0
  {
    if i < p.frozen then 1.0
    else if i < p.soft then Bend(c, Ramp(p, i))
    else 0.0
  }

  lemma RampShape(p: Prefix, i: nat)
    requires p.frozen <= i < p.soft
    ensures 0.0 < Ramp(p, i) < 1.0
    ensures i + 1 < p.soft ==> Ramp(p, i + 1) < Ramp(p, i)
  {
    var d := (p.soft - p.frozen) as real + 1.0;
    QuotientRises(0.0, (p.soft - i) as real, d);
    QuotientRises((p.soft - i) as real, d, d);
    if i + 1 < p.soft {
      QuotientRises((p.soft - (i + 1)) as real, (p.soft - i) as real, d);
    }
  }

  /** Bending keeps the order and the ends, and never lifts a weight. */
  lemma BendShape(c: Schedule, a: real, b: real)
    requires Proper(c) && 0.0 < a < b <= 1.0
    ensures c.Exponential? ==> c.expm1(1.0) > 0.0
    ensures 0.0 < Bend(c, a) < Bend(c, b)
    ensures Bend(c, 1.0) == 1.0
    ensures Bend(c, a) <= a
  {
    if c.Exponential? {
      var f := c.expm1;
      assert f(0.0) < f(a) < f(b) && f(0.0) < f(1.0) && f(a) < f(1.0);
      BentOrder(a, b, f(a), f(b), f(1.0));
    }
  }

  lemma BentOrder(a: real, b: real, fa: real, fb: real, top: real)
    requires 0.0 < a < b && 0.0 < fa < fb && fa < top
    ensures 0.0 < a * fa / top < b * fb / top
    ensures 1.0 * top / top == 1.0
    ensures a * fa / top <= a
  {
    QuotientRises(0.0, a * fa, top);
    QuotientRises(a * fa, b * fb, top);
    Unit(top);
  }

  lemma Unit(x: real)
    requires x > 0.0
    ensures 1.0 * x / x == 1.0 && 0.0 / x == 0.0
  {
  }

  /** Both schedules: 1 on the frozen rows, strictly falling inside (0, 1) up to `soft`, 0 from there on. */
  lemma WeightShape(c: Schedule, p: Prefix, i: nat)
    requires Proper(c) && Ordered(p)
    ensures c.Exponential? ==> c.expm1(1.0) > 0.0
    ensures i < p.frozen ==> Weight(c, p, i) == 1.0
    ensures p.frozen <= i < p.soft ==> 0.0 < Weight(c, p, i) < 1.0
    ensures p.frozen <= i < p.soft ==> Weight(c, p, i + 1) < Weight(c, p, i) <= Ramp(p, i)
    ensures p.soft <= i ==> Weight(c, p, i) == 0.0
  {
    BendShape(c, 0.5, 1.0);
    if p.frozen <= i < p.soft {
      RampShape(p, i);
      BendShape(c, Ramp(p, i), 1.0);
      if i + 1 < p.soft {
        RampShape(p, i + 1);
        BendShape(c, Ramp(p, i + 1), Ramp(p, i));
      }
    }
  }

  /** The weight `w` of row `i`, from the settings alone: 1 on the first `delay` rows, 0 from the horizon or the end
      of the previous chunk on, and in between the ramp from the delay to that end, bent if asked for. */
  predicate Weighs(c: Schedule, horizon: nat, delay: nat, nPrev: nat, i: nat, w: real)
    requires c.Exponential? ==> c.expm1(1.0) != 0.0
  {
    && (i >= horizon || i >= nPrev ==> w == 0.0)
    && (i < delay && i < horizon && i < nPrev ==> w == 1.0)
    && (delay <= i < horizon && i < nPrev ==>
          var last := if horizon <= nPrev then horizon else nPrev;
          var ramp := (last - i) as real / (last - delay + 1) as real;
          match c
          case Linear => w == ramp
          case Exponential(expm1) => w == ramp * expm1(ramp) / expm1(1.0))
  }

  /** Row `i` carries the ramp. */
  predicate Between(horizon: nat, delay: nat, nPrev: nat, i: nat) {
    delay <= i < horizon && i < nPrev
  }

  /** One exactly on the delayed rows, zero exactly behind the horizon or the previous chunk, else in between. */
  predicate Graded(horizon: nat, delay: nat, nPrev: nat, i: nat, w: real) {
    && (w == 1.0 <==> i < delay && i < horizon && i < nPrev)
    && (w == 0.0 <==> i >= horizon || i >= nPrev)
    && (Between(horizon, delay, nPrev, i) ==> 0.0 < w < 1.0)
  }

  lemma RequestWeighs(c: Schedule, horizon: nat, delay: nat, nPrev: nat, i: nat)
    requires c.Exponential? ==> c.expm1(1.0) != 0.0
    ensures Weighs(c, horizon, delay, nPrev, i, Weight(c, PrefixOf(horizon, delay, nPrev), i))
  {
    var p := PrefixOf(horizon, delay, nPrev);
    if p.frozen <= i < p.soft {
      var last := if horizon <= nPrev then horizon else nPrev;
      assert p.soft == last && p.frozen == delay;
      var ramp := (last - i) as real / (last - delay + 1) as real;
      assert Ramp(p, i) == ramp;
      assert Weight(c, p, i) == Bend(c, ramp);
    }
  }

  lemma RequestFalls(c: Schedule, horizon: nat, delay: nat, nPrev: nat, i: nat)
    requires Proper(c)
    ensures c.Exponential? ==> c.expm1(1.0) > 0.0
    ensures Graded(horizon, delay, nPrev, i, Weight(c, PrefixOf(horizon, delay, nPrev), i))
    ensures Between(horizon, delay, nPrev, i) ==>
              Weight(c, PrefixOf(horizon, delay, nPrev), i + 1) < Weight(c, PrefixOf(horizon, delay, nPrev), i)
  {
    WeightShape(c, PrefixOf(horizon, delay, nPrev), i);
  }

  /** The weight of every row of a chunk.  The loops stop at the first write behind the chunk, which is the
      program's own write outside its vector: it happens exactly when the weights end behind the chunk. */
  method PrefixWeights(c: Schedule, horizon: nat, delay: nat, nPrev: nat, chunk: nat)
    returns (weights: array<real>, inside: bool)
    requires c.Exponential? ==> c.expm1(1.0) != 0.0
    ensures fresh(weights) && weights.Length == chunk
    ensures inside <==> horizon <= chunk || nPrev <= chunk
    ensures forall i: nat | i < chunk :: weights[i] == Weight(c, PrefixOf(horizon, delay, nPrev), i)
    ensures forall i: nat | i < chunk :: Weighs(c, horizon, delay, nPrev, i, weights[i])
    ensures Proper(c) ==> forall i: nat | i < chunk :: Graded(horizon, delay, nPrev, i, weights[i])
    ensures Proper(c) ==> forall i: nat, j: nat | i < j < chunk && j == i + 1 && Between(horizon, delay, nPrev, i) ::
                            weights[j] < weights[i]
  {
    weights, inside := FilledWeights(c, horizon, delay, nPrev, chunk);
    forall i: nat | i < chunk
      ensures Weighs(c, horizon, delay, nPrev, i, weights[i])
    {
      RequestWeighs(c, horizon, delay, nPrev, i);
    }
    if Proper(c) {
      forall i: nat | i < chunk
        ensures Graded(horizon, delay, nPrev, i, weights[i])
        ensures i + 1 < chunk && Between(horizon, delay, nPrev, i) ==> weights[i + 1] < weights[i]
      {
        RequestFalls(c, horizon, delay, nPrev, i);
      }
    }
  }

  /** The loops. */
  method FilledWeights(c: Schedule, horizon: nat, delay: nat, nPrev: nat, chunk: nat)
    returns (weights: array<real>, inside: bool)
    requires c.Exponential? ==> c.expm1(1.0) != 0.0
    ensures fresh(weights) && weights.Length == chunk
    ensures inside <==> PrefixOf(horizon, delay, nPrev).soft <= chunk
    ensures forall i: nat | i < chunk :: weights[i] == Weight(c, PrefixOf(horizon, delay, nPrev), i)
  {
    weights := new real[chunk](_ => 0.0);
    var soft := if horizon <= nPrev then horizon else nPrev;
    var frozen := if delay <= soft then delay else soft;
    for i := 0 to frozen
      invariant i <= chunk
      invariant forall k: nat | k < chunk :: weights[k] == if k < i then 1.0 else 0.0
    {
      if i >= chunk {
        return weights, false;
      }
      weights[i] := 1.0;
    }
    inside := true;
    if soft > frozen {
      inside := FillRamp(c, Prefix(soft, frozen), weights);
    }
  }

  method RampWeight(c: Schedule, p: Prefix, i: nat, denom: real) returns (w: real)
    requires p.frozen <= i < p.soft && (c.Exponential? ==> c.expm1(1.0) != 0.0)
    requires denom == (p.soft - p.frozen) as real + 1.0
    ensures w == Weight(c, p, i)
  {
    w := (p.soft as real - i as real) / denom;
    if c.Exponential? {
      w := w * c.expm1(w) / c.expm1(1.0);
    }
  }

  /** The falling part, behind the frozen rows. */
  method FillRamp(c: Schedule, p: Prefix, weights: array<real>) returns (inside: bool)
    requires (c.Exponential? ==> c.expm1(1.0) != 0.0) && p.frozen < p.soft && p.frozen <= weights.Length
    requires forall k: nat | k < weights.Length :: weights[k] == if k < p.frozen then 1.0 else 0.0
    modifies weights
    ensures inside <==> p.soft <= weights.Length
    ensures forall k: nat | k < weights.Length :: weights[k] == Weight(c, p, k)
  {
    var denom := (p.soft - p.frozen) as real + 1.0;
    for i := p.frozen to p.soft
      invariant i <= weights.Length
      invariant forall k: nat | k < i :: weights[k] == Weight(c, p, k)
      invariant forall k: nat | i <= k < weights.Length :: weights[k] == 0.0
    {
      if i >= weights.Length {
        return false;
      }
      weights[i] := RampWeight(c, p, i, denom);
    }
    inside := true;
  }

  // ---------------------------------------------------------------- flat chunks

  /** Cell (t, j) of a row-major chunk `width` entries wide. */
  function Cell(t: nat, j: nat, width: nat): nat {
    t * width + j
  }

  lemma CellOf(k: nat, width: nat)
    requires width >= 1
    ensures k / width >= 0 && 0 <= k % width < width
    ensures k == Cell(k / width, k % width, width)
  {
  }

  lemma CellOrder(t: nat, j: nat, t': nat, j': nat, width: nat)
    requires j < width && t < t'
    ensures Cell(t, j, width) < Cell(t', j', width)
  {
    assert (t + 1) * width <= t' * width;
  }

  lemma CellUnique(t: nat, j: nat, t': nat, j': nat, width: nat)
    requires j < width && j' < width
    requires Cell(t, j, width) == Cell(t', j', width)
    ensures t == t' && j == j'
  {
    if t < t' {
      CellOrder(t, j, t', j', width);
    } else if t' < t {
      CellOrder(t', j', t, j, width);
    }
  }

  lemma CellInside(t: nat, j: nat, width: nat, rows: nat)
    requires t < rows && j < width
    ensures Cell(t, j, width) < rows * width
  {
    assert (t + 1) * width <= rows * width;
  }

  lemma CellCoordinates(t: nat, j: nat, width: nat)
    requires j < width
    ensures Cell(t, j, width) / width == t && Cell(t, j, width) % width == j
  {
    var k := Cell(t, j, width);
    CellOf(k, width);
    CellUnique(t, j, k / width, k % width, width);
  }

  /** The first `cols` entries of the first `rows` rows rewritten by `f`, which sees row, column and old value. */
  function Rewritten(base: seq<real>, width: nat, rows: nat, cols: nat, f: (nat, nat, real) -> real): (r: seq<real>)
    requires width >= 1
    ensures |r| == |base|
  {
    seq(|base|, (k: nat) requires k < |base| =>
      CellOf(k, width);
      if k / width < rows && k % width < cols then f(k / width, k % width, base[k]) else base[k])
  }

  lemma RewrittenAt(base: seq<real>, width: nat, rows: nat, cols: nat, f: (nat, nat, real) -> real, t: nat, j: nat)
    requires j < width && Cell(t, j, width) < |base|
    ensures Rewritten(base, width, rows, cols, f)[Cell(t, j, width)] ==
            if t < rows && j < cols then f(t, j, base[Cell(t, j, width)]) else base[Cell(t, j, width)]
  {
    CellCoordinates(t, j, width);
  }

  /** Row-major order: cell `k` comes before (t, j). */
  predicate Before(k: nat, t: nat, j: nat, width: nat)
    requires width >= 1
  {
    k / width < t || (k / width == t && k % width < j)
  }

  predicate Done(k: nat, t: nat, j: nat, width: nat, rows: nat, cols: nat)
    requires width >= 1
  {
    Before(k, t, j, width) && k / width < rows && k % width < cols
  }

  lemma CellsBelow(k: nat, t: nat, j: nat, width: nat)
    requires width >= 1 && j < width && k < Cell(t, j, width)
    ensures Before(k, t, j, width)
  {
    CellOf(k, width);
    if t < k / width {
      CellOrder(t, j, k / width, k % width, width);
    }
  }

  /** Every addressed cell of a buffer `length` long lies inside it. */
  predicate Fits(length: nat, width: nat, rows: nat, cols: nat) {
    rows == 0 || cols == 0 || Cell(rows - 1, cols - 1, width) < length
  }

  lemma LastCell(t: nat, j: nat, width: nat, rows: nat, cols: nat)
    requires t < rows && j < cols <= width
    ensures Cell(t, j, width) <= Cell(rows - 1, cols - 1, width)
  {
    if t < rows - 1 {
      CellOrder(t, j, rows - 1, cols - 1, width);
    }
  }

  lemma RowsFit(rows: nat, chunk: nat, width: nat)
    requires rows <= chunk
    ensures rows * width <= chunk * width
  {
  }

  lemma FitsIff(chunk: nat, width: nat, rows: nat, cols: nat)
    requires cols <= width
    ensures Fits(chunk * width, width, rows, cols) <==> cols == 0 || rows <= chunk
  {
    if rows > 0 && cols > 0 {
      if rows <= chunk {
        CellInside(rows - 1, cols - 1, width, chunk);
      } else {
        RowsFit(chunk, rows - 1, width);
      }
    }
  }

  method RewriteCell(a: array<real>, width: nat, rows: nat, cols: nat, f: (nat, nat, real) -> real,
                     t: nat, j: nat, ghost base: seq<real>)
    requires cols <= width && t < rows && j < cols && Cell(t, j, width) < a.Length == |base|
    requires forall k: nat | k < a.Length :: a[k] == if Done(k, t, j, width, rows, cols)
                                                     then Rewritten(base, width, rows, cols, f)[k] else base[k]
    modifies a
    ensures forall k: nat | k < a.Length :: a[k] == if Done(k, t, j + 1, width, rows, cols)
                                                    then Rewritten(base, width, rows, cols, f)[k] else base[k]
  {
    CellCoordinates(t, j, width);
    RewrittenAt(base, width, rows, cols, f, t, j);
    ghost var was := a[..];
    a[Cell(t, j, width)] := f(t, j, a[Cell(t, j, width)]);
    forall k: nat | k < a.Length
      ensures a[k] == if Done(k, t, j + 1, width, rows, cols)
                      then Rewritten(base, width, rows, cols, f)[k] else base[k]
    {
      CellOf(k, width);
      assert k != Cell(t, j, width) ==> a[k] == was[k];
    }
  }

  /** The double loop over rows and columns the engine runs for each of its host buffers.  It stops at the first
      write outside the buffer; all addressed cells that lie inside are written by then. */
  method RewriteRows(a: array<real>, width: nat, rows: nat, cols: nat, f: (nat, nat, real) -> real)
    returns (inside: bool)
    requires width >= 1 && cols <= width
    modifies a
    ensures inside <==> Fits(a.Length, width, rows, cols)
    ensures a[..] == Rewritten(old(a[..]), width, rows, cols, f)
  {
    ghost var base := a[..];
    ghost var goal := Rewritten(base, width, rows, cols, f);
    for t := 0 to rows
      invariant t > 0 && cols > 0 ==> Cell(t - 1, cols - 1, width) < a.Length
      invariant forall k: nat | k < a.Length :: a[k] == if Done(k, t, 0, width, rows, cols) then goal[k] else base[k]
    {
      for j := 0 to cols
        invariant j > 0 ==> Cell(t, j - 1, width) < a.Length
        invariant forall k: nat | k < a.Length :: a[k] == if Done(k, t, j, width, rows, cols) then goal[k] else base[k]
      {
        if Cell(t, j, width) >= a.Length {
          LastCell(t, j, width, rows, cols);
          forall k: nat | k < a.Length
            ensures a[k] == goal[k]
          {
            CellsBelow(k, t, j, width);
          }
          return false;
        }
        RewriteCell(a, width, rows, cols, f, t, j, base);
      }
    }
    forall k: nat | k < a.Length
      ensures a[k] == goal[k]
    {
      CellOf(k, width);
    }
    inside := true;
  }

  // ---------------------------------------------------------------- normalisation

  /** Per joint: mean and standard deviation with the guard added to it, or the two quantiles. */
  datatype Norm = MeanStd(mean: real, std: real, eps: real) | Quantiles(q01: real, q99: real)

  predicate Regular(m: Norm) {
    match m
    case MeanStd(_, std, eps) => std + eps != 0.0
    case Quantiles(q01, q99) => q99 - q01 != 0.0
  }

  function Normalise(m: Norm, x: real): real
    requires Regular(m)
  {
    match m
    case MeanStd(mean, std, eps) => (x - mean) / (std + eps)
    case Quantiles(q01, q99) => 2.0 * (x - q01) / (q99 - q01) - 1.0
  }

  function Denormalise(m: Norm, z: real): real {
    match m
    case MeanStd(mean, std, eps) => z * (std + eps) + mean
    case Quantiles(q01, q99) => (z + 1.0) * (q99 - q01) * 0.5 + q01
  }

  /** De-normalising undoes normalising and the other way round. */
  lemma NormRoundTrip(m: Norm, x: real)
    requires Regular(m)
    ensures Denormalise(m, Normalise(m, x)) == x
    ensures Normalise(m, Denormalise(m, x)) == x
  {
  }

  /** Normalising sends the mean to 0 and one guarded deviation further to 1, or the two quantiles to -1 and 1. */
  lemma NormAnchors(m: Norm)
    requires Regular(m)
    ensures m.MeanStd? ==> Normalise(m, m.mean) == 0.0 && Normalise(m, m.mean + m.std + m.eps) == 1.0
    ensures m.Quantiles? ==> Normalise(m, m.q01) == -1.0 && Normalise(m, m.q99) == 1.0
  {
    match m
    case MeanStd(mean, std, eps) =>
      Multiples(std + eps);
      assert mean + std + eps - mean == std + eps;
    case Quantiles(q01, q99) =>
      Multiples(q99 - q01);
      assert q01 - q01 == 0.0;
  }

  lemma Multiples(d: real)
    requires d != 0.0
    ensures 0.0 / d == 0.0 && d / d == 1.0 && 2.0 * 0.0 / d == 0.0 && 2.0 * d / d == 2.0
  {
  }

  ghost predicate Reached(m: Norm, x: real) {
    exists z: real :: Denormalise(m, z) == x
  }

  /** Exactly the regular statistics let the latent reach every value of the robot. */
  lemma ReachesAllIffRegular(m: Norm)
    ensures (forall x: real :: Reached(m, x)) <==> Regular(m)
  {
    if Regular(m) {
      forall x: real
        ensures Reached(m, x)
      {
        NormRoundTrip(m, x);
      }
    } else {
      var only := Denormalise(m, 0.0);
      forall z: real
        ensures Denormalise(m, z) == only
      {
        DegenerateIsConstant(m, z);
      }
      assert !Reached(m, only + 1.0);
    }
  }

  lemma DegenerateIsConstant(m: Norm, z: real)
    requires !Regular(m)
    ensures Denormalise(m, z) == Denormalise(m, 0.0)
  {
  }
}
