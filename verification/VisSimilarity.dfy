/** Cosine similarity of embedding rows: scaling to unit length, dot products and clamping. */
module VisSimilarity {

  lemma RowBound(i: nat, n: nat, hidden: nat)
    requires i < n
    ensures 0 <= i * hidden <= (i + 1) * hidden <= n * hidden
    ensures (i + 1) * hidden - i * hidden == hidden
  {
  }

  /** Row `i` of a flat buffer of `n` rows. */
  function Row(buffer: seq<real>, n: nat, hidden: nat, i: nat): (row: seq<real>)
    requires i < n && |buffer| == n * hidden
    ensures |row| == hidden
  {
    RowBound(i, n, hidden);
    buffer[i * hidden..(i + 1) * hidden]
  }

  function Dot(a: seq<real>, b: seq<real>, k: nat): real
    requires k <= |a| && k <= |b|
  {
    if k == 0 then 0.0 else Dot(a, b, k - 1) + a[k - 1] * b[k - 1]
  }

  method DotProduct(a: seq<real>, b: seq<real>) returns (dot: real)
    requires |a| == |b|
    ensures dot == Dot(a, b, |a|)
  {
    dot := 0.0;
    for j := 0 to |a|
      invariant dot == Dot(a, b, j)
    {
      dot := dot + a[j] * b[j];
    }
  }

  function Inner(a: seq<real>, b: seq<real>): real
    requires |a| == |b|
  {
    Dot(a, b, |a|)
  }

  // ---------------------------------------------------------------- unit rows

  /** A square root on the positive numbers. */
  ghost predicate IsRoot(sqrt: real -> real) {
    forall x: real :: x > 0.0 ==> sqrt(x) > 0.0 && sqrt(x) * sqrt(x) == x
  }

  /** Rows whose square sum is not above this count as zero. */
  const TINY: real := 0.0000000001

  /** One over the length of the row, or zero when it is (almost) zero. */
  function Inverse(row: seq<real>, sqrt: real -> real): real
    requires IsRoot(sqrt)
  {
    if Inner(row, row) > TINY then 1.0 / sqrt(Inner(row, row)) else 0.0
  }

  /** The row scaled to unit length, or to zero. */
  function Unit(row: seq<real>, sqrt: real -> real): (u: seq<real>)
    requires IsRoot(sqrt)
    ensures |u| == |row|
  {
    Scaled(row, Inverse(row, sqrt))
  }

  function Scaled(row: seq<real>, c: real): (u: seq<real>)
    ensures |u| == |row|
  {
    seq(|row|, j requires 0 <= j < |row| => row[j] * c)
  }

  predicate Times(x: real, y: real, product: real) {
    x * y == product
  }

  /** Scaling both rows is undone by `w`, the inverse of the two factors. */
  lemma {:induction false} ScalingUndone(a: seq<real>, p: real, b: seq<real>, q: real, w: real, k: nat)
    requires k <= |a| && k <= |b| && Times(p * q, w, 1.0)
    ensures Times(Dot(Scaled(a, p), Scaled(b, q), k), w, Dot(a, b, k))
  {
    if k > 0 {
      ScalingUndone(a, p, b, q, w, k - 1);
      TermUndone(Dot(Scaled(a, p), Scaled(b, q), k - 1), Dot(a, b, k - 1), a[k - 1], p, b[k - 1], q, w);
    }
  }

  lemma TermUndone(x: real, d: real, a: real, p: real, b: real, q: real, w: real)
    requires Times(x, w, d) && Times(p * q, w, 1.0)
    ensures Times(x + (a * p) * (b * q), w, d + a * b)
  {
    assert ((a * p) * (b * q)) * w == (a * b) * (p * q * w);
  }

  lemma {:induction false} ZeroRow(u: seq<real>, v: seq<real>, k: nat)
    requires k <= |u| && k <= |v| && forall j :: 0 <= j < |u| ==> u[j] == 0.0
    ensures Dot(u, v, k) == 0.0
  {
    if k > 0 {
      ZeroRow(u, v, k - 1);
    }
  }

  /** For a row that is not tiny, the scale factor undoes the length. */
  lemma InverseTimesLength(row: seq<real>, sqrt: real -> real)
    requires IsRoot(sqrt) && Inner(row, row) > TINY
    ensures Times(Inverse(row, sqrt), sqrt(Inner(row, row)), 1.0) && sqrt(Inner(row, row)) > 0.0
  {
  }

  lemma BothUndone(p: real, s: real, q: real, t: real)
    requires Times(p, s, 1.0) && Times(q, t, 1.0)
    ensures Times(p * q, s * t, 1.0)
  {
    var u, v := p * s, q * t;
    assert (p * q) * (s * t) == u * v;
  }

  /** The scaled row has length one, or is zero. */
  lemma UnitLength(row: seq<real>, sqrt: real -> real)
    requires IsRoot(sqrt)
    ensures Inner(Unit(row, sqrt), Unit(row, sqrt)) == if Inner(row, row) > 0.0000000001 then 1.0 else 0.0
  {
    var u := Unit(row, sqrt);
    if Inner(row, row) > TINY {
      var c, s := Inverse(row, sqrt), sqrt(Inner(row, row));
      InverseTimesLength(row, sqrt);
      BothUndone(c, s, c, s);
      ScalingUndone(row, c, row, c, s * s, |row|);
      OneIsLeft(Inner(u, u), Inner(row, row));
    } else {
      ZeroRow(u, u, |row|);
    }
  }

  lemma OneIsLeft(d: real, sq: real)
    requires sq > 0.0 && Times(d, sq, sq)
    ensures d == 1.0
  {
    assert (d - 1.0) * sq == 0.0;
  }

  /** `u` points where `row` points and has length one; a row too short for that becomes zero. */
  ghost predicate IsUnitOf(u: seq<real>, row: seq<real>, sqrt: real -> real)
    requires IsRoot(sqrt)
  {
    && |u| == |row|
    && (Inner(row, row) > TINY ==> Inner(u, u) == 1.0)
    && (Inner(row, row) > TINY ==> forall j :: 0 <= j < |u| ==> Times(u[j], sqrt(Inner(row, row)), row[j]))
    && (Inner(row, row) <= TINY ==> forall j :: 0 <= j < |u| ==> u[j] == 0.0)
  }

  lemma UnitIsUnitOf(row: seq<real>, sqrt: real -> real)
    requires IsRoot(sqrt)
    ensures IsUnitOf(Unit(row, sqrt), row, sqrt)
  {
    UnitLength(row, sqrt);
    if Inner(row, row) > TINY {
      InverseTimesLength(row, sqrt);
      forall j | 0 <= j < |row| ensures Times(Unit(row, sqrt)[j], sqrt(Inner(row, row)), row[j]) {
        EntryUndone(row[j], Inverse(row, sqrt), sqrt(Inner(row, row)));
      }
    }
  }

  lemma EntryUndone(x: real, c: real, s: real)
    requires Times(c, s, 1.0)
    ensures Times(x * c, s, x)
  {
    assert x * c * s == x * (c * s);
  }

  // ---------------------------------------------------------------- similarity

  function Clamp(x: real): real {
    if x < -1.0 then -1.0 else if x > 1.0 then 1.0 else x
  }

  function Similarity(a: seq<real>, b: seq<real>, sqrt: real -> real): real
    requires IsRoot(sqrt) && |a| == |b|
  {
    Clamp(Inner(Unit(a, sqrt), Unit(b, sqrt)))
  }

  /** The square of the sum and of the difference of two rows is not negative. */
  lemma {:induction false} DotBounded(a: seq<real>, b: seq<real>, k: nat)
    requires k <= |a| && k <= |b|
    ensures -(Dot(a, a, k) + Dot(b, b, k)) <= 2.0 * Dot(a, b, k) <= Dot(a, a, k) + Dot(b, b, k)
  {
    if k > 0 {
      DotBounded(a, b, k - 1);
      TermBounded(a[k - 1], b[k - 1]);
    }
  }

  lemma TermBounded(x: real, y: real)
    ensures -(x * x + y * y) <= 2.0 * (x * y) <= x * x + y * y
  {
    SquareNotNegative(x - y);
    SquareNotNegative(x + y);
  }

  lemma SquareNotNegative(x: real)
    ensures x * x >= 0.0
  {
  }

  /** On reals the clamp changes nothing: the inner product of unit rows lies in [-1, 1]. */
  lemma ClampIsIdle(a: seq<real>, b: seq<real>, sqrt: real -> real)
    requires IsRoot(sqrt) && |a| == |b|
    ensures -1.0 <= Inner(Unit(a, sqrt), Unit(b, sqrt)) <= 1.0
    ensures Similarity(a, b, sqrt) == Inner(Unit(a, sqrt), Unit(b, sqrt))
  {
    UnitLength(a, sqrt);
    UnitLength(b, sqrt);
    DotBounded(Unit(a, sqrt), Unit(b, sqrt), |a|);
  }

  /** The similarity is the cosine: times the two lengths it is the inner product of the rows. */
  lemma SimilarityIsCosine(a: seq<real>, b: seq<real>, sqrt: real -> real)
    requires IsRoot(sqrt) && |a| == |b| && Inner(a, a) > TINY && Inner(b, b) > TINY
    ensures Times(Similarity(a, b, sqrt), sqrt(Inner(a, a)) * sqrt(Inner(b, b)), Inner(a, b))
  {
    var p, s, q, t := Inverse(a, sqrt), sqrt(Inner(a, a)), Inverse(b, sqrt), sqrt(Inner(b, b));
    ClampIsIdle(a, b, sqrt);
    InverseTimesLength(a, sqrt);
    InverseTimesLength(b, sqrt);
    BothUndone(p, s, q, t);
    ScalingUndone(a, p, b, q, s * t, |a|);
  }

  /** A row that is not above the threshold is similar to nothing. */
  lemma TinyRowIsDissimilar(a: seq<real>, b: seq<real>, sqrt: real -> real)
    requires IsRoot(sqrt) && |a| == |b| && Inner(a, a) <= TINY
    ensures Similarity(a, b, sqrt) == 0.0
  {
    ZeroRow(Unit(a, sqrt), Unit(b, sqrt), |a|);
  }

  /** The inequality of Cauchy and Schwarz, with the lengths as roots. */
  lemma CauchySchwarz(a: seq<real>, b: seq<real>, sqrt: real -> real)
    requires IsRoot(sqrt) && |a| == |b| && Inner(a, a) > TINY && Inner(b, b) > TINY
    ensures var bound := sqrt(Inner(a, a)) * sqrt(Inner(b, b)); -bound <= Inner(a, b) <= bound
  {
    var s, t := sqrt(Inner(a, a)), sqrt(Inner(b, b));
    SimilarityIsCosine(a, b, sqrt);
    ScaledByCosine(Similarity(a, b, sqrt), s * t, Inner(a, b));
  }

  lemma ScaledByCosine(c: real, w: real, d: real)
    requires -1.0 <= c <= 1.0 && w > 0.0 && Times(c, w, d)
    ensures -w <= d <= w
  {
    NotNegative(1.0 - c, w);
    NotNegative(1.0 + c, w);
    assert (1.0 - c) * w == w - d && (1.0 + c) * w == w + d;
  }

  lemma NotNegative(x: real, y: real)
    requires x >= 0.0 && y > 0.0
    ensures x * y >= 0.0
  {
  }

  /** `sims[i]` is the cosine similarity of the i-th adjacent pair of `tokens`. */
  ghost predicate PairSimilarities(sims: seq<real>, tokens: seq<nat>, buffer: seq<real>, n: nat, hidden: nat,
                                   sqrt: real -> real)
    requires IsRoot(sqrt) && |buffer| == n * hidden
    requires forall i :: 0 <= i < |tokens| ==> tokens[i] < n
  {
    && |sims| == |tokens| / 2
    && forall i :: 0 <= i < |sims| ==>
         sims[i] == Similarity(Row(buffer, n, hidden, tokens[2 * i]), Row(buffer, n, hidden, tokens[2 * i + 1]), sqrt)
  }

  method NormaliseRows(buffer: seq<real>, n: nat, hidden: nat, sqrt: real -> real) returns (units: seq<seq<real>>)
    requires IsRoot(sqrt) && |buffer| == n * hidden
    ensures |units| == n
    ensures forall i :: 0 <= i < n ==> IsUnitOf(units[i], Row(buffer, n, hidden, i), sqrt)
    ensures forall i :: 0 <= i < n ==> units[i] == Unit(Row(buffer, n, hidden, i), sqrt)
  {
    units := [];
    for i := 0 to n
      invariant |units| == i
      invariant forall k :: 0 <= k < i ==> units[k] == Unit(Row(buffer, n, hidden, k), sqrt)
    {
      var row := Row(buffer, n, hidden, i);
      var sq := DotProduct(row, row);
      var inv := if sq > TINY then 1.0 / sqrt(sq) else 0.0;
      units := units + [Scaled(row, inv)];
    }
    forall i | 0 <= i < n ensures IsUnitOf(units[i], Row(buffer, n, hidden, i), sqrt) {
      UnitIsUnitOf(Row(buffer, n, hidden, i), sqrt);
    }
  }

  method MeasurePairs(units: seq<seq<real>>, tokens: seq<nat>, ghost buffer: seq<real>, hidden: nat,
                      ghost sqrt: real -> real) returns (sims: seq<real>)
    requires IsRoot(sqrt) && |buffer| == |units| * hidden
    requires forall i :: 0 <= i < |units| ==> units[i] == Unit(Row(buffer, |units|, hidden, i), sqrt)
    requires forall i :: 0 <= i < |tokens| ==> tokens[i] < |units|
    ensures PairSimilarities(sims, tokens, buffer, |units|, hidden, sqrt)
  {
    sims := [];
    for i := 0 to |tokens| / 2
      invariant |sims| == i
      invariant forall k :: 0 <= k < i ==>
        sims[k] == Similarity(Row(buffer, |units|, hidden, tokens[2 * k]),
                              Row(buffer, |units|, hidden, tokens[2 * k + 1]), sqrt)
    {
      var dot := DotProduct(units[tokens[2 * i]], units[tokens[2 * i + 1]]);
      sims := sims + [Clamp(dot)];
    }
  }
}
