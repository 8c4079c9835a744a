/** Fusion of the video keys and values over the intervals that end at the condition layers, and the way
    the action layers pick the fused entries up. */
module FasterWamFusion {
  import opened Common

  // ---------------------------------------------------------------- softmax

  function Sum(s: seq<real>): real {
    if s == [] then 0.0 else Sum(s[..|s| - 1]) + s[|s| - 1]
  }

  ghost predicate Positive(exp: real -> real) {
    forall x: real :: exp(x) > 0.0
  }

  /** Weights: positive and adding up to one. */
  predicate IsConvex(w: seq<real>) {
    (forall i :: 0 <= i < |w| ==> w[i] > 0.0) && Sum(w) == 1.0
  }

  lemma {:induction false} SumPositive(s: seq<real>)
    requires forall i :: 0 <= i < |s| ==> s[i] > 0.0
    ensures s != [] ==> Sum(s) > 0.0
    ensures Sum(s) >= 0.0
  {
    if s != [] {
      SumPositive(s[..|s| - 1]);
    }
  }

  lemma {:induction false} SumScaled(s: seq<real>, t: seq<real>, d: real)
    requires |s| == |t| && d != 0.0 && forall i :: 0 <= i < |s| ==> t[i] == s[i] / d
    ensures Sum(t) == Sum(s) / d
  {
    if s != [] {
      SumScaled(s[..|s| - 1], t[..|t| - 1], d);
    }
  }

  function Max(s: seq<real>): (m: real)
    requires s != []
    ensures m in s && forall i :: 0 <= i < |s| ==> s[i] <= m
  {
    if |s| == 1 then s[0]
    else
      var m := Max(s[..|s| - 1]);
      if s[|s| - 1] > m then s[|s| - 1] else m
  }

  function Exponentials(s: seq<real>, m: real, exp: real -> real): (e: seq<real>)
    ensures |e| == |s| && forall i :: 0 <= i < |s| ==> e[i] == exp(s[i] - m)
  {
    seq(|s|, i requires 0 <= i < |s| => exp(s[i] - m))
  }

  function Divided(s: seq<real>, d: real): (t: seq<real>)
    requires d != 0.0
    ensures |t| == |s| && forall i :: 0 <= i < |s| ==> t[i] == s[i] / d
  {
    seq(|s|, i requires 0 <= i < |s| => s[i] / d)
  }

  lemma ExponentialsSumPositive(s: seq<real>, m: real, exp: real -> real)
    requires s != [] && Positive(exp)
    ensures Sum(Exponentials(s, m, exp)) > 0.0
  {
    SumPositive(Exponentials(s, m, exp));
  }

  /** Exponentials of the distances to the maximum, divided by their sum. */
  function Softmax(s: seq<real>, exp: real -> real): (w: seq<real>)
    requires s != [] && Positive(exp)
    ensures |w| == |s|
  {
    ExponentialsSumPositive(s, Max(s), exp);
    var e := Exponentials(s, Max(s), exp);
    Divided(e, Sum(e))
  }

  /** The weights are positive and add up to one. */
  lemma SoftmaxIsConvex(s: seq<real>, exp: real -> real)
    requires s != [] && Positive(exp)
    ensures IsConvex(Softmax(s, exp))
  {
    var e := Exponentials(s, Max(s), exp);
    ExponentialsSumPositive(s, Max(s), exp);
    SumScaled(e, Divided(e, Sum(e)), Sum(e));
    forall i | 0 <= i < |s| ensures Softmax(s, exp)[i] > 0.0 {
      QuotientPositive(e[i], Sum(e));
    }
    SelfQuotient(Sum(e));
  }

  predicate Multiplies(exp: real -> real, a: real, b: real) {
    exp(a + b) == exp(a) * exp(b)
  }

  predicate Rises(exp: real -> real, a: real, b: real) {
    a < b ==> exp(a) < exp(b)
  }

  /** The exponential: it turns sums into products and rises strictly. */
  ghost predicate IsExponential(exp: real -> real) {
    Positive(exp) && (forall a, b :: Multiplies(exp, a, b)) && forall a, b :: Rises(exp, a, b)
  }

  predicate Product(p: real, x: real, y: real) {
    p == x * y
  }

  predicate SameProduct(a: real, b: real, c: real, d: real) {
    a * b == c * d
  }

  lemma ShiftedExponential(exp: real -> real, x: real, m: real)
    requires IsExponential(exp)
    ensures Product(exp(x), exp(x - m), exp(m))
  {
    assert Multiplies(exp, x - m, m);
    assert x - m + m == x;
  }

  lemma QuotientTimes(a: real, d: real)
    requires d > 0.0
    ensures Product(a, a / d, d)
  {
  }

  lemma WeightAt(s: seq<real>, exp: real -> real, i: nat) returns (m: real, sum: real)
    requires Positive(exp) && i < |s|
    ensures m == Max(s) && sum == Sum(Exponentials(s, m, exp)) > 0.0
    ensures Softmax(s, exp)[i] == exp(s[i] - m) / sum
  {
    m := Max(s);
    ExponentialsSumPositive(s, m, exp);
    sum := Sum(Exponentials(s, m, exp));
  }

  /** Weights stand to each other as the exponentials of the logits. */
  lemma SoftmaxRatio(s: seq<real>, exp: real -> real, i: nat, j: nat)
    requires IsExponential(exp) && i < |s| && j < |s|
    ensures SameProduct(Softmax(s, exp)[i], exp(s[j]), Softmax(s, exp)[j], exp(s[i]))
  {
    var m, sum := WeightAt(s, exp, i);
    var m', sum' := WeightAt(s, exp, j);
    RatioAt(exp, s[i], s[j], m, sum);
  }

  lemma RatioAt(exp: real -> real, x: real, y: real, m: real, sum: real)
    requires IsExponential(exp) && sum > 0.0
    ensures SameProduct(exp(x - m) / sum, exp(y), exp(y - m) / sum, exp(x))
  {
    ShiftedExponential(exp, x, m);
    ShiftedExponential(exp, y, m);
    QuotientTimes(exp(x - m), sum);
    QuotientTimes(exp(y - m), sum);
    CrossWeights(exp(x - m) / sum, exp(y - m) / sum, exp(x - m), exp(y - m), exp(m), exp(x), exp(y), sum);
  }

  /** A larger logit gets a larger weight. */
  lemma SoftmaxFollowsLogits(s: seq<real>, exp: real -> real, i: nat, j: nat)
    requires IsExponential(exp) && i < |s| && j < |s|
    ensures Softmax(s, exp)[i] < Softmax(s, exp)[j] <==> s[i] < s[j]
  {
    var m, sum := Max(s), Sum(Exponentials(s, Max(s), exp));
    ExponentialsSumPositive(s, m, exp);
    QuotientOrder(exp(s[i] - m), exp(s[j] - m), sum);
    assert Rises(exp, s[i] - m, s[j] - m) && Rises(exp, s[j] - m, s[i] - m);
  }

  lemma CrossWeights(v: real, w: real, a: real, b: real, e: real, ei: real, ej: real, sum: real)
    requires Product(a, v, sum) && Product(b, w, sum) && Product(ei, a, e) && Product(ej, b, e)
    ensures SameProduct(v, ej, w, ei)
  {
    assert v * ((w * sum) * e) == w * ((v * sum) * e);
  }

  lemma QuotientOrder(a: real, b: real, sum: real)
    requires sum > 0.0
    ensures a / sum < b / sum <==> a < b
  {
    assert (a / sum) * sum == a && (b / sum) * sum == b;
  }

  lemma SelfQuotient(d: real)
    requires d > 0.0
    ensures d / d == 1.0
  {
  }

  lemma QuotientPositive(x: real, d: real)
    requires x > 0.0 && d > 0.0
    ensures x / d > 0.0
  {
  }

  method MaxOf(x: array<real>) returns (m: real)
    requires x.Length > 0
    ensures m == Max(x[..])
  {
    m := x[0];
    assert x[..1] == [x[0]];
    for i := 1 to x.Length
      invariant m == Max(x[..i])
    {
      assert x[..i + 1][..i] == x[..i];
      if x[i] > m {
        m := x[i];
      }
    }
    assert x[..x.Length] == x[..];
  }

  method ExponentiateInPlace(x: array<real>, m: real, exp: real -> real) returns (sum: real)
    modifies x
    ensures x[..] == Exponentials(old(x[..]), m, exp) && sum == Sum(x[..])
  {
    ghost var s := x[..];
    sum := 0.0;
    for i := 0 to x.Length
      invariant forall k :: 0 <= k < i ==> x[k] == exp(s[k] - m)
      invariant forall k :: i <= k < x.Length ==> x[k] == s[k]
      invariant sum == Sum(x[..i])
    {
      ghost var front := x[..i];
      x[i] := exp(x[i] - m);
      assert x[..i + 1] == front + [x[i]] && (front + [x[i]])[..i] == front;
      sum := sum + x[i];
    }
    assert x[..x.Length] == x[..];
  }

  method SoftmaxInPlace(x: array<real>, exp: real -> real)
    requires x.Length > 0 && Positive(exp)
    modifies x
    ensures x[..] == Softmax(old(x[..]), exp)
  {
    ghost var s := x[..];
    var m := MaxOf(x);
    var sum := ExponentiateInPlace(x, m, exp);
    ghost var e := x[..];
    ExponentialsSumPositive(s, Max(s), exp);
    for i := 0 to x.Length
      invariant forall k :: 0 <= k < i ==> x[k] == e[k] / sum
      invariant forall k :: i <= k < x.Length ==> x[k] == e[k]
    {
      x[i] := x[i] / sum;
    }
    assert x[..] == Divided(e, sum);
  }

  // ---------------------------------------------------------------- intervals

  /** Condition layers: strictly increasing layer numbers. */
  predicate Conditions(c: seq<nat>) {
    forall i, j :: 0 <= i < j < |c| ==> c[i] < c[j]
  }

  function Start(c: seq<nat>, j: nat): nat
    requires j <= |c|
  {
    if j == 0 then 0 else c[j - 1] + 1
  }

  /** Layers `lo`, `lo + 1`, ..., `hi`. */
  function Layers(lo: nat, hi: int): (s: seq<nat>)
    requires lo <= hi + 1
    ensures |s| == hi + 1 - lo && forall i :: 0 <= i < |s| ==> s[i] == lo + i
  {
    seq(hi + 1 - lo, i requires 0 <= i < hi + 1 - lo => lo + i)
  }

  /** The layers after the previous condition layer up to and including this one. */
  function Interval(c: seq<nat>, j: nat): (s: seq<nat>)
    requires Conditions(c) && j < |c|
    ensures s != [] && s[|s| - 1] == c[j] && |s| == c[j] + 1 - Start(c, j)
  {
    Layers(Start(c, j), c[j])
  }

  method BuildIntervals(c: seq<nat>) returns (intervals: seq<seq<nat>>)
    requires Conditions(c)
    ensures |intervals| == |c| && forall j :: 0 <= j < |c| ==> intervals[j] == Interval(c, j)
  {
    intervals := [];
    var prev: int := -1;
    for j := 0 to |c|
      invariant |intervals| == j && forall k :: 0 <= k < j ==> intervals[k] == Interval(c, k)
      invariant prev + 1 == Start(c, j)
    {
      var interval: seq<nat> := [];
      for li := prev + 1 to c[j] + 1
        invariant interval == Layers(prev + 1, li - 1)
      {
        interval := interval + [li];
      }
      intervals := intervals + [interval];
      prev := c[j];
    }
  }

  function Joined(c: seq<nat>, n: nat): seq<nat>
    requires Conditions(c) && n <= |c|
  {
    if n == 0 then [] else Joined(c, n - 1) + Interval(c, n - 1)
  }

  /** The intervals, one after the other, are exactly the layers up to the last condition layer. */
  lemma {:induction false} IntervalsPartition(c: seq<nat>, n: nat)
    requires Conditions(c) && n <= |c|
    ensures Joined(c, n) == Layers(0, Start(c, n) - 1)
  {
    if n > 0 {
      IntervalsPartition(c, n - 1);
    }
  }

  // ---------------------------------------------------------------- fusion

  /** A video block maps the hidden state to the next one and yields a key and a value; tensors can be
      added and scaled. */
  datatype Tower<!X, !T> = Tower(
    next: (nat, X) -> X,
    key: (nat, X) -> T,
    value: (nat, X) -> T,
    add: (T, T) -> T,
    scale: (T, real) -> T)

  function HiddenAt<X, T>(w: Tower<X, T>, x: X, layer: nat): X {
    if layer == 0 then x else w.next(layer - 1, HiddenAt(w, x, layer - 1))
  }

  /** Keys (or values) of the layers below `n` when the tower runs through all of them. */
  function LayerKeys<X, T>(w: Tower<X, T>, x: X, n: nat): (s: seq<T>)
    ensures |s| == n
  {
    seq(n, li requires 0 <= li < n => w.key(li, HiddenAt(w, x, li)))
  }

  function LayerValues<X, T>(w: Tower<X, T>, x: X, n: nat): (s: seq<T>)
    ensures |s| == n
  {
    seq(n, li requires 0 <= li < n => w.value(li, HiddenAt(w, x, li)))
  }

  /** A tower whose hidden state lists the blocks it went through. */
  function Listing(): Tower<seq<nat>, seq<nat>> {
    Tower((l, x) => x + [l], (l, x) => x + [l], (l, x) => x, (a, b) => a, (a, f) => a)
  }

  /** The hidden state of a layer has gone through exactly the blocks below it, in order. */
  lemma {:induction false} HiddenBehindBlocks(layer: nat)
    ensures HiddenAt(Listing(), [], layer) == Layers(0, layer - 1)
  {
    if layer > 0 {
      HiddenBehindBlocks(layer - 1);
    }
  }

  /** Keys and values of layer `li` are made from the state in front of its block. */
  lemma KeysInFrontOfBlocks(n: nat, li: nat)
    requires li < n
    ensures LayerValues(Listing(), [], n)[li] == Layers(0, li - 1)
    ensures LayerKeys(Listing(), [], n)[li] == Layers(0, li - 1) + [li]
  {
    HiddenBehindBlocks(li);
  }

  function WeightedSum<X, T>(w: Tower<X, T>, ts: seq<T>, ws: seq<real>): T
    requires |ts| == |ws| && ts != []
  {
    var n := |ts| - 1;
    if n == 0 then w.scale(ts[0], ws[0])
    else w.add(WeightedSum(w, ts[..n], ws[..n]), w.scale(ts[n], ws[n]))
  }

  /** Scale the first, then add the scaled others in order. */
  method Fuse<X, T>(w: Tower<X, T>, ts: seq<T>, ws: seq<real>) returns (f: T)
    requires |ts| == |ws| && ts != []
    ensures f == WeightedSum(w, ts, ws)
  {
    f := w.scale(ts[0], ws[0]);
    for i := 1 to |ts|
      invariant f == WeightedSum(w, ts[..i], ws[..i])
    {
      assert ts[..i + 1][..i] == ts[..i] && ws[..i + 1][..i] == ws[..i];
      f := w.add(f, w.scale(ts[i], ws[i]));
    }
    assert ts[..|ts|] == ts && ws[..|ts|] == ws;
  }

  /** One weight per layer of the interval. */
  predicate WeightsFit(c: seq<nat>, weights: seq<seq<real>>)
    requires Conditions(c)
  {
    |weights| == |c| && forall j :: 0 <= j < |c| ==> |weights[j]| == c[j] + 1 - Start(c, j)
  }

  /** Is `li` a condition layer, and which one: the first match in the list. */
  method FindCondition(c: seq<nat>, li: nat) returns (found: bool, j: nat)
    requires Conditions(c)
    ensures found <==> li in c
    ensures found ==> j < |c| && c[j] == li
  {
    found, j := false, 0;
    while j < |c|
      invariant j <= |c| && forall k :: 0 <= k < j ==> c[k] != li
    {
      if c[j] == li {
        return true, j;
      }
      j := j + 1;
    }
  }

  ghost predicate Fits(c: seq<nat>, weights: seq<seq<real>>, depth: nat) {
    Conditions(c) && c != [] && WeightsFit(c, weights) && forall j :: 0 <= j < |c| ==> c[j] < depth
  }

  /** Entry `j`: the weighted sum over its interval of `all` layer outputs. */
  ghost function Entry<X, T>(w: Tower<X, T>, all: seq<T>, c: seq<nat>, weights: seq<seq<real>>, j: nat): T
    requires Fits(c, weights, |all|) && j < |c|
  {
    WeightedSum(w, all[Start(c, j)..c[j] + 1], weights[j])
  }

  /** The fused entries so far are those of the first intervals. */
  ghost predicate FusedOver<X, T>(w: Tower<X, T>, all: seq<T>, c: seq<nat>, weights: seq<seq<real>>, fused: seq<T>)
    requires Fits(c, weights, |all|)
  {
    |fused| <= |c| && forall j :: 0 <= j < |fused| ==> fused[j] == Entry(w, all, c, weights, j)
  }

  /** In layer numbers: entry `j` sums the layers behind condition layer j - 1 up to condition layer j. */
  lemma FusedEntry<X, T>(w: Tower<X, T>, all: seq<T>, c: seq<nat>, weights: seq<seq<real>>, fused: seq<T>, j: nat)
    requires Fits(c, weights, |all|) && FusedOver(w, all, c, weights, fused) && j < |fused|
    ensures var first := if j == 0 then 0 else c[j - 1] + 1;
      && first <= c[j] < |all| && |weights[j]| == c[j] + 1 - first
      && fused[j] == WeightedSum(w, all[first..c[j] + 1], weights[j])
  {
  }

  /** Where the collection stands before layer `li`: `n` intervals are closed. */
  predicate Position(c: seq<nat>, n: nat, li: nat)
    requires Conditions(c) && c != []
  {
    && n <= |c| && Start(c, n) <= li
    && (if n < |c| then li <= c[n] else li == c[|c| - 1] + 1)
  }

  lemma PositionStep(c: seq<nat>, n: nat, li: nat)
    requires Conditions(c) && c != [] && Position(c, n, li) && li <= c[|c| - 1]
    ensures n < |c|
    ensures li in c ==> c[n] == li && Position(c, n + 1, li + 1)
    ensures li !in c ==> Position(c, n, li + 1)
  {
  }

  lemma SliceGrows<T>(s: seq<T>, lo: nat, hi: nat)
    requires lo <= hi < |s|
    ensures s[lo..hi] + [s[hi]] == s[lo..hi + 1]
  {
  }

  /** A condition layer closes its interval. */
  method Close<X, T>(w: Tower<X, T>, ghost all: seq<T>, c: seq<nat>, weights: seq<seq<real>>, fused: seq<T>,
                     interval: seq<T>, j: nat) returns (fused': seq<T>)
    requires Fits(c, weights, |all|) && j == |fused| < |c|
    requires FusedOver(w, all, c, weights, fused)
    requires interval == all[Start(c, j)..c[j] + 1]
    ensures FusedOver(w, all, c, weights, fused') && |fused'| == j + 1
  {
    var f := Fuse(w, interval, weights[j]);
    assert f == Entry(w, all, c, weights, j);
    fused' := fused + [f];
  }

  /** One side before layer `li`: the closed intervals are fused, the open one is collected. */
  ghost predicate Collecting<X, T>(w: Tower<X, T>, all: seq<T>, c: seq<nat>, weights: seq<seq<real>>,
                                   fused: seq<T>, interval: seq<T>, li: nat)
  {
    && Fits(c, weights, |all|) && li <= |all| && Position(c, |fused|, li)
    && FusedOver(w, all, c, weights, fused) && interval == all[Start(c, |fused|)..li]
  }

  /** One layer for one side: append its output, and at a condition layer fuse and start over. */
  method Collect<X, T>(w: Tower<X, T>, ghost all: seq<T>, c: seq<nat>, weights: seq<seq<real>>, fused: seq<T>,
                       interval: seq<T>, li: nat, output: T, isCond: bool, j: nat)
    returns (fused': seq<T>, interval': seq<T>)
    requires Collecting(w, all, c, weights, fused, interval, li) && li <= c[|c| - 1]
    requires isCond <==> li in c
    requires isCond ==> j < |c| && c[j] == li
    requires output == all[li]
    ensures |fused'| == if isCond then |fused| + 1 else |fused|
    ensures Collecting(w, all, c, weights, fused', interval', li + 1)
  {
    PositionStep(c, |fused|, li);
    SliceGrows(all, Start(c, |fused|), li);
    fused', interval' := fused, interval + [output];
    if isCond {
      ConditionIsNext(c, |fused|, j, li);
      fused' := Close(w, all, c, weights, fused, interval', j);
      interval' := [];
    }
  }

  /** Both sides of one layer. */
  method CollectBoth<X, T>(w: Tower<X, T>, ghost keys: seq<T>, ghost values: seq<T>, c: seq<nat>,
                           weights: seq<seq<real>>, fusedK: seq<T>, intervalK: seq<T>, fusedV: seq<T>,
                           intervalV: seq<T>, li: nat, key: T, value: T)
    returns (fusedK': seq<T>, intervalK': seq<T>, fusedV': seq<T>, intervalV': seq<T>)
    requires c != [] && Conditions(c) && li <= c[|c| - 1]
    requires Collecting(w, keys, c, weights, fusedK, intervalK, li) && li < |keys| && key == keys[li]
    requires Collecting(w, values, c, weights, fusedV, intervalV, li) && li < |values| && value == values[li]
    ensures Collecting(w, keys, c, weights, fusedK', intervalK', li + 1)
    ensures Collecting(w, values, c, weights, fusedV', intervalV', li + 1)
  {
    var isCond, j := FindCondition(c, li);
    fusedK', intervalK' := Collect(w, keys, c, weights, fusedK, intervalK, li, key, isCond, j);
    fusedV', intervalV' := Collect(w, values, c, weights, fusedV, intervalV, li, value, isCond, j);
  }

  lemma CollectedAll<X, T>(w: Tower<X, T>, all: seq<T>, c: seq<nat>, weights: seq<seq<real>>,
                           fused: seq<T>, interval: seq<T>, li: nat)
    requires Collecting(w, all, c, weights, fused, interval, li) && li == c[|c| - 1] + 1
    ensures |fused| == |c| && FusedOver(w, all, c, weights, fused)
  {
  }

  lemma CollectingStarts<X, T>(w: Tower<X, T>, all: seq<T>, c: seq<nat>, weights: seq<seq<real>>)
    requires Fits(c, weights, |all|)
    ensures Collecting(w, all, c, weights, [], [], 0)
  {
  }

  lemma LayerOutputs<X, T>(w: Tower<X, T>, x0: X, depth: nat, li: nat)
    requires li < depth
    ensures LayerKeys(w, x0, depth)[li] == w.key(li, HiddenAt(w, x0, li))
    ensures LayerValues(w, x0, depth)[li] == w.value(li, HiddenAt(w, x0, li))
    ensures w.next(li, HiddenAt(w, x0, li)) == HiddenAt(w, x0, li + 1)
  {
  }

  lemma LastIsBelow(c: seq<nat>, weights: seq<seq<real>>, depth: nat)
    requires Fits(c, weights, depth)
    ensures c[|c| - 1] < depth
  {
  }

  /** Run the tower up to the last condition layer, collecting keys and values and fusing them at every
      condition layer.  Entry j is the weighted sum over exactly interval j of what a tower of any greater
      depth would have produced: the layers left out change nothing. */
  method Prefill<X, T>(w: Tower<X, T>, x0: X, c: seq<nat>, weights: seq<seq<real>>, ghost depth: nat)
    returns (fusedK: seq<T>, fusedV: seq<T>)
    requires Fits(c, weights, depth)
    ensures |fusedK| == |c| && |fusedV| == |c|
    ensures FusedOver(w, LayerKeys(w, x0, depth), c, weights, fusedK)
    ensures FusedOver(w, LayerValues(w, x0, depth), c, weights, fusedV)
  {
    ghost var keys, values := LayerKeys(w, x0, depth), LayerValues(w, x0, depth);
    var x := x0;
    var intervalK: seq<T>, intervalV: seq<T> := [], [];
    fusedK, fusedV := [], [];
    var last := c[|c| - 1];
    LastIsBelow(c, weights, depth);
    CollectingStarts(w, keys, c, weights);
    CollectingStarts(w, values, c, weights);
    for li := 0 to last + 1
      invariant x == HiddenAt(w, x0, li)
      invariant Collecting(w, keys, c, weights, fusedK, intervalK, li)
      invariant Collecting(w, values, c, weights, fusedV, intervalV, li)
    {
      LayerOutputs(w, x0, depth, li);
      fusedK, intervalK, fusedV, intervalV :=
        CollectBoth(w, keys, values, c, weights, fusedK, intervalK, fusedV, intervalV, li, w.key(li, x),
                    w.value(li, x));
      x := w.next(li, x);
    }
    CollectedAll(w, keys, c, weights, fusedK, intervalK, last + 1);
    CollectedAll(w, values, c, weights, fusedV, intervalV, last + 1);
  }

  /** The condition layer met next is the one whose interval is being collected. */
  lemma ConditionIsNext(c: seq<nat>, n: nat, j: nat, li: nat)
    requires Conditions(c) && n < |c| && j < |c| && c[j] == li && Start(c, n) <= li <= c[n]
    ensures j == n
  {
  }

  predicate Within(lo: real, s: real, hi: real, sum: real) {
    lo * sum <= s <= hi * sum
  }

  /** The tower's tensors are plain numbers. */
  ghost predicate Numeric(w: Tower<int, real>) {
    (forall a: real, b: real :: w.add(a, b) == a + b) && forall a: real, b: real :: w.scale(a, b) == a * b
  }

  function Dot(ts: seq<real>, ws: seq<real>): real
    requires |ts| == |ws|
  {
    if ts == [] then 0.0
    else Dot(ts[..|ts| - 1], ws[..|ws| - 1]) + ts[|ts| - 1] * ws[|ws| - 1]
  }

  lemma AddScaled(w: Tower<int, real>, s: real, t: real, v: real)
    requires Numeric(w)
    ensures w.add(s, w.scale(t, v)) == s + t * v && w.scale(t, v) == t * v
  {
  }

  lemma {:induction false} WeightedIsDot(w: Tower<int, real>, ts: seq<real>, ws: seq<real>)
    requires |ts| == |ws| && ts != [] && Numeric(w)
    ensures WeightedSum(w, ts, ws) == Dot(ts, ws)
  {
    var n := |ts| - 1;
    if n == 0 {
      AddScaled(w, 0.0, ts[0], ws[0]);
      assert Dot(ts[..0], ws[..0]) == 0.0;
    } else {
      WeightedIsDot(w, ts[..n], ws[..n]);
      AddScaled(w, Dot(ts[..n], ws[..n]), ts[n], ws[n]);
    }
  }

  lemma {:induction false} DotWithin(ts: seq<real>, ws: seq<real>, lo: real, hi: real)
    requires |ts| == |ws|
    requires forall i :: 0 <= i < |ts| ==> ws[i] > 0.0 && lo <= ts[i] <= hi
    ensures Within(lo, Dot(ts, ws), hi, Sum(ws))
  {
    if ts != [] {
      var n := |ts| - 1;
      DotWithin(ts[..n], ws[..n], lo, hi);
      WidenRange(lo, hi, Dot(ts[..n], ws[..n]), Sum(ws[..n]), ts[n], ws[n]);
    }
  }

  /** One more weighted value within [lo, hi]. */
  lemma WidenRange(lo: real, hi: real, s: real, sum: real, t: real, w: real)
    requires Within(lo, s, hi, sum) && lo <= t <= hi && w > 0.0
    ensures Within(lo, s + t * w, hi, sum + w)
  {
  }

  /** With convex weights a fused value never leaves the range of its interval. */
  lemma FusedStaysInRange(w: Tower<int, real>, ts: seq<real>, ws: seq<real>, lo: real, hi: real)
    requires |ts| == |ws| && ts != [] && Numeric(w) && IsConvex(ws)
    requires forall i :: 0 <= i < |ts| ==> lo <= ts[i] <= hi
    ensures lo <= WeightedSum(w, ts, ws) <= hi
  {
    WeightedIsDot(w, ts, ws);
    DotWithin(ts, ws, lo, hi);
  }

  // ---------------------------------------------------------------- use by the action layers

  lemma ConditionNotSkipped(c: seq<nat>, n: nat, j: nat, li: nat)
    requires Conditions(c) && n <= |c| && j < |c| && c[j] == li
    requires forall k :: 0 <= k < n ==> c[k] < li
    requires forall k :: n <= k < |c| ==> li <= c[k]
    ensures j == n
  {
    assert n <= j;
    var first := c[n];
    assert li <= first;
  }

  /** Which fused entry every action layer reads: the entries are handed out in order to the layers
      flagged as condition layers. */
  method AssignEntries(numLayers: nat, c: seq<nat>) returns (entries: seq<Option<nat>>)
    requires Conditions(c)
    ensures |entries| == numLayers
    ensures forall li :: 0 <= li < numLayers ==>
              match entries[li] case None => li !in c case Some(j) => j < |c| && c[j] == li
  {
    entries := [];
    var condIdx := 0;
    for li := 0 to numLayers
      invariant |entries| == li && condIdx <= |c|
      invariant forall k :: 0 <= k < condIdx ==> c[k] < li
      invariant forall k :: condIdx <= k < |c| ==> li <= c[k]
      invariant forall m :: 0 <= m < li ==>
        match entries[m] case None => m !in c case Some(j) => j < |c| && c[j] == m
    {
      var isCond, j := FindCondition(c, li);
      if isCond {
        ConditionNotSkipped(c, condIdx, j, li);
        entries := entries + [Some(condIdx)];
        condIdx := condIdx + 1;
      } else {
        assert forall k :: condIdx <= k < |c| ==> c[k] != li && li <= c[k];
        entries := entries + [None];
      }
    }
  }
}
