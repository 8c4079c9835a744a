/** The denoise run without a graph: the program evaluates every value where it builds it, and every attention
    reads a fresh concatenation.  It ties the edges of the graph to what the layers compute. */
module LingBotForward {
  import opened LingBotKv

  // ---------------------------------------------------------------- the experts that count

  lemma {:induction false} SumNeeds(c: Config, order: seq<Node>, s: nat, l: nat, last: nat, k: nat)
    requires Closed(c, order) && Sum(s, l, last) in order && k <= last
    ensures Experts(s, l) in order && (k >= 1 ==> Slice(s, l, k) in order)
    decreases last
  {
    if last == 0 {
      SourceIn(c, order, Sum(s, l, 0), Experts(s, l));
    } else {
      SourceIn(c, order, Sum(s, l, last), Slice(s, l, last));
      SourceIn(c, order, Slice(s, l, last), Experts(s, l));
      if k < last {
        SourceIn(c, order, Sum(s, l, last), Sum(s, l, last - 1));
        SumNeeds(c, order, s, l, last - 1, k);
      }
    }
  }

  /** In every graph that is closed under sources, the rows behind a layer depend on the routing and on every
      expert slice of that layer. */
  lemma HiddenNeedsAllExperts(c: Config, order: seq<Node>, s: nat, l: nat, k: nat)
    requires Closed(c, order) && Hidden(s, l + 1) in order
    ensures Attention(s, l) in order && Routing(s, l) in order && Experts(s, l) in order
    ensures 1 <= k < c.topK ==> Slice(s, l, k) in order
  {
    SourceIn(c, order, Hidden(s, l + 1), Mid(s, l));
    SourceIn(c, order, Mid(s, l), Attention(s, l));
    SourceIn(c, order, Hidden(s, l + 1), Sum(s, l, LastSum(c)));
    SumNeeds(c, order, s, l, LastSum(c), if k < c.topK then k else 0);
    SourceIn(c, order, Experts(s, l), Routing(s, l));
  }

  /** On the expert outputs `es` the slices are taken one by one, and a sum joins the next slice to what it has. */
  ghost predicate Joins<R>(o: Ops<R>, s: nat, l: nat, es: seq<R>) {
    && es != [] && o.eval(Sum(s, l, 0), [es]) == es[..1]
    && forall k: nat :: 1 <= k < |es| ==> JoinsAt(o, s, l, es, k)
  }

  predicate JoinsAt<R(==)>(o: Ops<R>, s: nat, l: nat, es: seq<R>, k: nat)
    requires k < |es|
  {
    o.eval(Slice(s, l, k), [es]) == [es[k]] && o.eval(Sum(s, l, k), [es[..k], [es[k]]]) == es[..k + 1]
  }

  /** Node `n` is worth `v`. */
  ghost predicate Worth<R>(c: Config, o: Ops<R>, n: Node, v: seq<R>) {
    Concat(c, o, n) == v
  }

  lemma ConcatEval<R>(c: Config, o: Ops<R>, n: Node, args: seq<seq<R>>)
    requires !n.Attention? && |args| == |Sources(c, n)|
    requires forall i :: 0 <= i < |args| ==> Worth(c, o, Sources(c, n)[i], args[i])
    ensures Worth(c, o, n, o.eval(n, args))
  {
    var srcs := Sources(c, n);
    assert seq(|srcs|, i requires 0 <= i < |srcs| => Concat(c, o, srcs[i])) == args;
  }

  lemma One<R>(c: Config, o: Ops<R>, n: Node, a: Node, va: seq<R>)
    requires !n.Attention? && Sources(c, n) == [a] && Worth(c, o, a, va)
    ensures Worth(c, o, n, o.eval(n, [va]))
  {
    ConcatEval(c, o, n, [va]);
  }

  lemma Two<R>(c: Config, o: Ops<R>, n: Node, a: Node, va: seq<R>, b: Node, vb: seq<R>)
    requires !n.Attention? && Sources(c, n) == [a, b] && Worth(c, o, a, va) && Worth(c, o, b, vb)
    ensures Worth(c, o, n, o.eval(n, [va, vb]))
  {
    ConcatEval(c, o, n, [va, vb]);
  }

  lemma {:induction false} SumHolds<R>(c: Config, o: Ops<R>, s: nat, l: nat, k: nat, es: seq<R>)
    requires Worth(c, o, Experts(s, l), es) && Joins(o, s, l, es) && k < |es|
    ensures Worth(c, o, Sum(s, l, k), es[..k + 1])
    decreases k
  {
    if k == 0 {
      One(c, o, Sum(s, l, 0), Experts(s, l), es);
    } else {
      SumHolds(c, o, s, l, k - 1, es);
      assert JoinsAt(o, s, l, es, k);
      One(c, o, Slice(s, l, k), Experts(s, l), es);
      Two(c, o, Sum(s, l, k), Sum(s, l, k - 1), es[..k], Slice(s, l, k), [es[k]]);
    }
  }

  /** Under such operators exactly the outputs of all `topK` experts, in order, enter the next layer. */
  lemma AllExpertsCount<R>(c: Config, o: Ops<R>, s: nat, l: nat, mid: seq<R>, es: seq<R>)
    requires Worth(c, o, Mid(s, l), mid) && Worth(c, o, Experts(s, l), es)
    requires Joins(o, s, l, es) && |es| == c.topK >= 1
    ensures Worth(c, o, Hidden(s, l + 1), o.eval(Hidden(s, l + 1), [mid, es]))
  {
    SumHolds(c, o, s, l, c.topK - 1, es);
    assert es[..c.topK] == es;
    Two(c, o, Hidden(s, l + 1), Mid(s, l), mid, Sum(s, l, c.topK - 1), es);
  }

  // ---------------------------------------------------------------- the program

  lemma Attends<R>(c: Config, o: Ops<R>, s: nat, l: nat, q: seq<R>, pk: seq<R>, k: seq<R>, pv: seq<R>, v: seq<R>)
    requires Worth(c, o, Query(s, l), q)
    requires Worth(c, o, VlmKV(Keys, l), pk) && Worth(c, o, SuffixKV(Keys, s, l), k)
    requires Worth(c, o, VlmKV(Values, l), pv) && Worth(c, o, SuffixKV(Values, s, l), v)
    ensures Worth(c, o, Attention(s, l), o.eval(Attention(s, l), [q, pk + k, pv + v]))
  {
  }

  /** Keys and values of the first layers. */
  ghost predicate TowerOf<R>(c: Config, o: Ops<R>, keys: seq<seq<R>>, values: seq<seq<R>>) {
    && |keys| == |values|
    && forall l: nat :: l < |keys| ==> Worth(c, o, VlmKV(Keys, l), keys[l]) && Worth(c, o, VlmKV(Values, l), values[l])
  }

  /** One layer of the tower, from its input to its output. */
  method TowerLayer<R>(c: Config, o: Ops<R>, l: nat, h: seq<R>) returns (k: seq<R>, v: seq<R>, out: seq<R>)
    requires Worth(c, o, VlmIn(l), h)
    ensures Worth(c, o, VlmKV(Keys, l), k) && Worth(c, o, VlmKV(Values, l), v) && Worth(c, o, VlmOut(l), out)
  {
    k, v := o.eval(VlmKV(Keys, l), [h]), o.eval(VlmKV(Values, l), [h]);
    One(c, o, VlmKV(Keys, l), VlmIn(l), h);
    One(c, o, VlmKV(Values, l), VlmIn(l), h);
    out := o.eval(VlmOut(l), [h, k, v]);
    ConcatEval(c, o, VlmOut(l), [h, k, v]);
  }

  /** The prefix tower. */
  method Tower<R>(c: Config, o: Ops<R>) returns (keys: seq<seq<R>>, values: seq<seq<R>>)
    ensures |keys| == c.layers && TowerOf(c, o, keys, values)
  {
    keys, values := [], [];
    var h := o.eval(PrefixEmb, []);
    ConcatEval(c, o, PrefixEmb, []);
    for l := 0 to c.layers
      invariant |keys| == l && TowerOf(c, o, keys, values) && Worth(c, o, VlmIn(l), h)
    {
      var k, v;
      k, v, h := TowerLayer(c, o, l, h);
      keys, values := keys + [k], values + [v];
    }
  }

  method Routed<R>(c: Config, o: Ops<R>, s: nat, l: nat, mid: seq<R>) returns (experts: seq<R>)
    requires Worth(c, o, Mid(s, l), mid)
    ensures Worth(c, o, Experts(s, l), experts)
  {
    var routing := o.eval(Routing(s, l), [mid]);
    One(c, o, Routing(s, l), Mid(s, l), mid);
    experts := o.eval(Experts(s, l), [mid, routing]);
    Two(c, o, Experts(s, l), Mid(s, l), mid, Routing(s, l), routing);
  }

  /** The mixture of experts: route, evaluate, and add the slices up. */
  method Mixture<R>(c: Config, o: Ops<R>, s: nat, l: nat, mid: seq<R>) returns (sum: seq<R>)
    requires Worth(c, o, Mid(s, l), mid)
    ensures Worth(c, o, Sum(s, l, if c.topK == 0 then 0 else c.topK - 1), sum)
  {
    var experts := Routed(c, o, s, l, mid);
    sum := o.eval(Sum(s, l, 0), [experts]);
    One(c, o, Sum(s, l, 0), Experts(s, l), experts);
    for i := 1 to if c.topK < 1 then 1 else c.topK
      invariant Worth(c, o, Sum(s, l, i - 1), sum)
    {
      var slice := o.eval(Slice(s, l, i), [experts]);
      One(c, o, Slice(s, l, i), Experts(s, l), experts);
      Two(c, o, Sum(s, l, i), Sum(s, l, i - 1), sum, Slice(s, l, i), slice);
      sum := o.eval(Sum(s, l, i), [sum, slice]);
    }
  }

  /** The attention half of an expert layer, on the cached keys and values of the prefix. */
  method AttentionHalf<R>(c: Config, o: Ops<R>, s: nat, l: nat, h: seq<R>, keys: seq<R>, values: seq<R>)
    returns (mid: seq<R>)
    requires Worth(c, o, Hidden(s, l), h)
    requires Worth(c, o, VlmKV(Keys, l), keys) && Worth(c, o, VlmKV(Values, l), values)
    ensures Worth(c, o, Mid(s, l), mid)
  {
    var query := o.eval(Query(s, l), [h]);
    One(c, o, Query(s, l), Hidden(s, l), h);
    var k, v := o.eval(SuffixKV(Keys, s, l), [h]), o.eval(SuffixKV(Values, s, l), [h]);
    One(c, o, SuffixKV(Keys, s, l), Hidden(s, l), h);
    One(c, o, SuffixKV(Values, s, l), Hidden(s, l), h);
    var attention := o.eval(Attention(s, l), [query, keys + k, values + v]);
    Attends(c, o, s, l, query, keys, k, values, v);
    mid := o.eval(Mid(s, l), [h, attention]);
    Two(c, o, Mid(s, l), Hidden(s, l), h, Attention(s, l), attention);
  }

  method ExpertLayer<R>(c: Config, o: Ops<R>, s: nat, l: nat, h: seq<R>, keys: seq<R>, values: seq<R>)
    returns (out: seq<R>)
    requires Worth(c, o, Hidden(s, l), h)
    requires Worth(c, o, VlmKV(Keys, l), keys) && Worth(c, o, VlmKV(Values, l), values)
    ensures Worth(c, o, Hidden(s, l + 1), out)
  {
    var mid := AttentionHalf(c, o, s, l, h, keys, values);
    var sum := Mixture(c, o, s, l, mid);
    out := o.eval(Hidden(s, l + 1), [mid, sum]);
    Two(c, o, Hidden(s, l + 1), Mid(s, l), mid, Sum(s, l, LastSum(c)), sum);
  }

  /** One denoise step through all layers. */
  method Step<R>(c: Config, o: Ops<R>, s: nat, x: seq<R>, keys: seq<seq<R>>, values: seq<seq<R>>)
    returns (next: seq<R>)
    requires |keys| == c.layers && TowerOf(c, o, keys, values) && Worth(c, o, Latent(s), x)
    ensures Worth(c, o, Latent(s + 1), next)
  {
    var h := o.eval(Hidden(s, 0), [x]);
    One(c, o, Hidden(s, 0), Latent(s), x);
    for l := 0 to c.layers
      invariant Worth(c, o, Hidden(s, l), h)
    {
      h := ExpertLayer(c, o, s, l, h, keys[l], values[l]);
    }
    next := o.eval(Latent(s + 1), [x, h]);
    Two(c, o, Latent(s + 1), Latent(s), x, Hidden(s, c.layers), h);
  }

  /** The whole run: tower, then every step through every layer.  It returns what the graph's final latent is
      worth when every attention concatenates. */
  method Forward<R>(c: Config, o: Ops<R>) returns (x: seq<R>)
    ensures x == Concat(c, o, Latent(c.steps))
  {
    var keys, values := Tower(c, o);
    x := o.eval(Latent(0), []);
    ConcatEval(c, o, Latent(0), []);
    for s := 0 to c.steps
      invariant Worth(c, o, Latent(s), x)
    {
      x := Step(c, o, s, x, keys, values);
    }
  }
}
