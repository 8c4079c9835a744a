/** The joint key/value cache of the denoise graph.  Every layer owns one buffer per side: the prefix
    part is staged once, the suffix tail is overwritten at every denoise step, and the attention reads
    the whole buffer.  No edge of the graph links a tail copy to the attention that needs it, so the
    result depends on the order in which the nodes were emitted.

    The one assumption about the tensor library: `ggml_build_forward_expand` appends a node and its
    ancestors that are not in the graph yet, sources before users, sources in the order they are
    listed; and the graph is executed in that order. */
module LingBotKv {

  datatype Side = Keys | Values

  /** The values of a run are named by the place in the program where they are built. */
  datatype Node =
    | PrefixEmb
    | VlmKV(side: Side, layer: nat)              // keys / values of a prefix layer
    | VlmOut(layer: nat)                         // hidden rows after a prefix layer
    | Stage(side: Side, layer: nat)              // copy of VlmKV into the prefix part of the buffer
    | Latent(step: nat)                          // x_t entering a step; Latent(0) is the noise
    | Hidden(step: nat, layer: nat)              // rows entering an expert layer
    | Query(step: nat, layer: nat)
    | SuffixKV(side: Side, step: nat, layer: nat)
    | Tail(side: Side, step: nat, layer: nat)    // copy of SuffixKV into the tail of the buffer
    | Attention(step: nat, layer: nat)           // reads both buffers of the layer
    | Mid(step: nat, layer: nat)                 // residual after the attention
    | Routing(step: nat, layer: nat)             // expert weights
    | Experts(step: nat, layer: nat)             // weighted expert outputs
    | Slice(step: nat, layer: nat, k: nat)       // view of one expert output
    | Sum(step: nat, layer: nat, k: nat)         // sum of the slices up to k

  datatype Config = Config(layers: nat, steps: nat, topK: nat)

  // ---------------------------------------------------------------- creation order

  function Phase(n: Node): nat {
    match n
    case PrefixEmb => 0
    case VlmKV(_, _) => 0
    case VlmOut(_) => 0
    case Stage(_, _) => 0
    case Latent(s) => s + 1
    case Hidden(s, _) => s + 1
    case Query(s, _) => s + 1
    case SuffixKV(_, s, _) => s + 1
    case Tail(_, s, _) => s + 1
    case Attention(s, _) => s + 1
    case Mid(s, _) => s + 1
    case Routing(s, _) => s + 1
    case Experts(s, _) => s + 1
    case Slice(s, _, _) => s + 1
    case Sum(s, _, _) => s + 1
  }

  function Layer(n: Node): nat {
    match n
    case PrefixEmb => 0
    case VlmKV(_, l) => l
    case VlmOut(l) => l
    case Stage(_, l) => l
    case Latent(_) => 0
    case Hidden(_, l) => l
    case Query(_, l) => l
    case SuffixKV(_, _, l) => l
    case Tail(_, _, l) => l
    case Attention(_, l) => l
    case Mid(_, l) => l
    case Routing(_, l) => l
    case Experts(_, l) => l
    case Slice(_, l, _) => l
    case Sum(_, l, _) => l
  }

  function Place(n: Node): nat {
    match n
    case PrefixEmb => 0
    case VlmKV(_, _) => 1
    case VlmOut(_) => 2
    case Stage(_, _) => 3
    case Latent(_) => 0
    case Hidden(_, _) => 1
    case Query(_, _) => 2
    case SuffixKV(_, _, _) => 2
    case Tail(_, _, _) => 3
    case Attention(_, _) => 4
    case Mid(_, _) => 5
    case Routing(_, _) => 6
    case Experts(_, _) => 7
    case Slice(_, _, _) => 8
    case Sum(_, _, k) => 9 + k
  }

  /** `a` is created before `b`. */
  predicate Earlier(a: Node, b: Node) {
    || Phase(a) < Phase(b)
    || (Phase(a) == Phase(b) && Layer(a) < Layer(b))
    || (Phase(a) == Phase(b) && Layer(a) == Layer(b) && Place(a) < Place(b))
  }

  function LastSum(c: Config): nat {
    if c.topK == 0 then 0 else c.topK - 1
  }

  function VlmIn(layer: nat): Node {
    if layer == 0 then PrefixEmb else VlmOut(layer - 1)
  }

  /** The data edges of the graph with the shared buffers.  Neither copies nor buffers are sources. */
  function Sources(c: Config, n: Node): (ms: seq<Node>)
    ensures forall i :: 0 <= i < |ms| ==> Earlier(ms[i], n)
    ensures forall i :: 0 <= i < |ms| ==> !ms[i].Stage? && !ms[i].Tail?
  {
    match n
    case PrefixEmb => []
    case VlmKV(_, l) => [VlmIn(l)]
    case VlmOut(l) => [VlmIn(l), VlmKV(Keys, l), VlmKV(Values, l)]
    case Stage(side, l) => [VlmKV(side, l)]
    case Latent(s) => if s == 0 then [] else [Latent(s - 1), Hidden(s - 1, c.layers)]
    case Hidden(s, l) =>
      if l == 0 then [Latent(s)] else [Mid(s, l - 1), Sum(s, l - 1, LastSum(c))]
    case Query(s, l) => [Hidden(s, l)]
    case SuffixKV(_, s, l) => [Hidden(s, l)]
    case Tail(side, s, l) => [SuffixKV(side, s, l)]
    case Attention(s, l) => [Query(s, l)]
    case Mid(s, l) => [Hidden(s, l), Attention(s, l)]
    case Routing(s, l) => [Mid(s, l)]
    case Experts(s, l) => [Mid(s, l), Routing(s, l)]
    case Slice(s, l, _) => [Experts(s, l)]
    case Sum(s, l, k) => if k == 0 then [Experts(s, l)] else [Sum(s, l, k - 1), Slice(s, l, k)]
  }

  // ---------------------------------------------------------------- emission

  /** ggml_build_forward_expand. */
  function Expand(c: Config, order: seq<Node>, n: Node): seq<Node>
    decreases Phase(n), Layer(n), Place(n), |Sources(c, n)| + 1
  {
    if n in order then order else ExpandSources(c, order, n, 0) + [n]
  }

  function ExpandSources(c: Config, order: seq<Node>, n: Node, k: nat): seq<Node>
    requires k <= |Sources(c, n)|
    decreases Phase(n), Layer(n), Place(n), |Sources(c, n)| - k
  {
    if k == |Sources(c, n)| then order
    else ExpandSources(c, Expand(c, order, Sources(c, n)[k]), n, k + 1)
  }

  /** Sources before users. */
  ghost predicate Closed(c: Config, order: seq<Node>) {
    forall i, m :: 0 <= i < |order| && m in Sources(c, order[i]) ==> m in order[..i]
  }

  predicate Distinct(order: seq<Node>) {
    forall i, j :: 0 <= i < j < |order| ==> order[i] != order[j]
  }

  /** What emitting ancestors of `n` may add: no copies, nothing created later than `n`. */
  ghost predicate Extends(order: seq<Node>, order': seq<Node>, n: Node) {
    && order <= order'
    && forall i :: |order| <= i < |order'| ==>
         (Earlier(order'[i], n) || order'[i] == n) && (order'[i] != n ==> !order'[i].Stage? && !order'[i].Tail?)
  }

  /** Nodes that exist for the configuration. */
  predicate Valid(c: Config, n: Node) {
    Layer(n) < c.layers || n.Latent? || n.PrefixEmb? || (n.Hidden? && n.layer == c.layers)
  }

  ghost predicate AllValid(c: Config, order: seq<Node>) {
    forall i :: 0 <= i < |order| ==> Valid(c, order[i])
  }

  lemma SourcesValid(c: Config, n: Node)
    requires Valid(c, n)
    ensures forall i :: 0 <= i < |Sources(c, n)| ==> Valid(c, Sources(c, n)[i])
  {
  }

  lemma ClosedAppend(c: Config, order: seq<Node>, n: Node)
    requires Closed(c, order) && Distinct(order) && n !in order
    requires forall m :: m in Sources(c, n) ==> m in order
    ensures Closed(c, order + [n]) && Distinct(order + [n])
  {
    var order' := order + [n];
    forall i, m | 0 <= i < |order'| && m in Sources(c, order'[i]) ensures m in order'[..i] {
      assert order'[..i] == order[..i];
    }
  }

  lemma {:induction false} ExpandCorrect(c: Config, order: seq<Node>, n: Node)
    requires Closed(c, order) && Distinct(order) && AllValid(c, order) && Valid(c, n)
    ensures var order' := Expand(c, order, n);
      Closed(c, order') && Distinct(order') && AllValid(c, order') && n in order' && Extends(order, order', n)
    ensures n !in order ==> Expand(c, order, n)[|Expand(c, order, n)| - 1] == n
    decreases Phase(n), Layer(n), Place(n), |Sources(c, n)| + 1
  {
    if n !in order {
      ExpandSourcesCorrect(c, order, n, 0);
      ClosedAppend(c, ExpandSources(c, order, n, 0), n);
    }
  }

  lemma {:induction false} ExpandSourcesCorrect(c: Config, order: seq<Node>, n: Node, k: nat)
    requires Closed(c, order) && Distinct(order) && AllValid(c, order) && Valid(c, n)
    requires k <= |Sources(c, n)| && n !in order
    requires forall j :: 0 <= j < k ==> Sources(c, n)[j] in order
    ensures var order' := ExpandSources(c, order, n, k);
      && Closed(c, order') && Distinct(order') && AllValid(c, order') && order <= order' && n !in order'
      && (forall m :: m in Sources(c, n) ==> m in order')
      && (forall i :: |order| <= i < |order'| ==>
            Earlier(order'[i], n) && !order'[i].Stage? && !order'[i].Tail?)
    decreases Phase(n), Layer(n), Place(n), |Sources(c, n)| - k
  {
    if k < |Sources(c, n)| {
      var m := Sources(c, n)[k];
      SourcesValid(c, n);
      ExpandCorrect(c, order, m);
      var mid := Expand(c, order, m);
      EarlierTransitive(order, mid, m, n);
      ExpandSourcesCorrect(c, mid, n, k + 1);
    }
  }

  lemma EarlierTransitive(order: seq<Node>, order': seq<Node>, m: Node, n: Node)
    requires Extends(order, order', m) && Earlier(m, n) && !m.Stage? && !m.Tail? && n !in order
    ensures n !in order'
    ensures forall i :: |order| <= i < |order'| ==> Earlier(order'[i], n) && !order'[i].Stage? && !order'[i].Tail?
  {
  }

  // ---------------------------------------------------------------- what the order has to guarantee

  /** Both copies of the step and the staged prefix of the layer are already there. */
  ghost predicate CopiesIn(order: seq<Node>, s: nat, l: nat) {
    forall side :: Tail(side, s, l) in order && Stage(side, l) in order
  }

  /** Every attention comes after the copies it needs. */
  ghost predicate AttentionsReady(order: seq<Node>) {
    forall p, s, l :: 0 <= p < |order| && order[p] == Attention(s, l) ==> CopiesIn(order[..p], s, l)
  }

  /** A tail is overwritten only after every earlier step's attention of the layer has read it. */
  ghost predicate TailsPatient(order: seq<Node>) {
    forall q, side, t, l :: 0 <= q < |order| && order[q] == Tail(side, t, l) ==>
      Stage(side, l) in order[..q] && forall s: nat :: s < t ==> Attention(s, l) in order[..q]
  }

  ghost predicate WellOrdered(c: Config, order: seq<Node>) {
    Closed(c, order) && Distinct(order) && AllValid(c, order) && AttentionsReady(order) && TailsPatient(order)
  }

  lemma SourceIn(c: Config, order: seq<Node>, n: Node, m: Node)
    requires Closed(c, order) && n in order && m in Sources(c, n)
    ensures m in order
  {
  }

  lemma {:induction false} HiddenNeeds(c: Config, order: seq<Node>, s: nat, m: nat, l: nat)
    requires Closed(c, order) && Hidden(s, m) in order
    ensures Latent(s) in order
    ensures l < m ==> Attention(s, l) in order
    decreases m
  {
    if m == 0 {
      SourceIn(c, order, Hidden(s, 0), Latent(s));
    } else {
      SourceIn(c, order, Hidden(s, m), Mid(s, m - 1));
      SourceIn(c, order, Mid(s, m - 1), Hidden(s, m - 1));
      SourceIn(c, order, Mid(s, m - 1), Attention(s, m - 1));
      HiddenNeeds(c, order, s, m - 1, l);
    }
  }

  /** The latent of a step is computed from every attention of every earlier step. */
  lemma {:induction false} LatentNeeds(c: Config, order: seq<Node>, t: nat, s: nat, l: nat)
    requires Closed(c, order) && Latent(t) in order && s < t && l < c.layers
    ensures Attention(s, l) in order
    decreases t
  {
    SourceIn(c, order, Latent(t), Hidden(t - 1, c.layers));
    if s == t - 1 {
      HiddenNeeds(c, order, s, c.layers, l);
    } else {
      SourceIn(c, order, Latent(t), Latent(t - 1));
      LatentNeeds(c, order, t - 1, s, l);
    }
  }

  lemma TailNeeds(c: Config, order: seq<Node>, side: Side, t: nat, l: nat, s: nat)
    requires Closed(c, order) && Tail(side, t, l) in order && s < t && l < c.layers
    ensures Attention(s, l) in order
  {
    SourceIn(c, order, Tail(side, t, l), SuffixKV(side, t, l));
    SourceIn(c, order, SuffixKV(side, t, l), Hidden(t, l));
    HiddenNeeds(c, order, t, l, 0);
    LatentNeeds(c, order, t, s, l);
  }

  /** The copies of every attention that emitting `n` could bring in are there. */
  ghost predicate Ready(c: Config, order: seq<Node>, n: Node) {
    forall s: nat, l: nat :: l < c.layers && Earlier(Attention(s, l), n) ==> CopiesIn(order, s, l)
  }

  lemma PrefixKeeps(order: seq<Node>, order': seq<Node>, p: nat)
    requires order <= order' && |order| <= p <= |order'|
    ensures forall n :: n in order ==> n in order'[..p]
  {
  }

  lemma ExpandKeepsAttentionsReady(c: Config, order: seq<Node>, n: Node)
    requires WellOrdered(c, order) && Valid(c, n) && Ready(c, order, n) && !n.Attention?
    ensures AttentionsReady(Expand(c, order, n))
  {
    ExpandCorrect(c, order, n);
    var order' := Expand(c, order, n);
    forall p, s, l | 0 <= p < |order'| && order'[p] == Attention(s, l) ensures CopiesIn(order'[..p], s, l) {
      if p < |order| {
        assert order'[..p] == order[..p] && order[p] == Attention(s, l);
      } else {
        assert Earlier(order'[p], n) && Valid(c, order'[p]);
        PrefixKeeps(order, order', p);
      }
    }
  }

  lemma ExpandKeepsTailsPatient(c: Config, order: seq<Node>, n: Node)
    requires WellOrdered(c, order) && Valid(c, n)
    requires n.Tail? ==> Stage(n.side, n.layer) in order
    ensures TailsPatient(Expand(c, order, n))
  {
    ExpandCorrect(c, order, n);
    var order' := Expand(c, order, n);
    forall q, side, t, l | 0 <= q < |order'| && order'[q] == Tail(side, t, l)
      ensures Stage(side, l) in order'[..q] && forall s: nat :: s < t ==> Attention(s, l) in order'[..q]
    {
      if q < |order| {
        assert order'[..q] == order[..q] && order[q] == Tail(side, t, l);
      } else {
        assert order'[q] == n;
        assert order'[|order'| - 1] == n && q == |order'| - 1;
        PrefixKeeps(order, order', q);
        forall s: nat | s < t ensures Attention(s, l) in order'[..q] {
          TailNeeds(c, order', side, t, l, s);
        }
      }
    }
  }

  lemma ExpandKeepsOrder(c: Config, order: seq<Node>, n: Node)
    requires WellOrdered(c, order) && Valid(c, n) && Ready(c, order, n) && !n.Attention?
    requires n.Tail? ==> Stage(n.side, n.layer) in order
    ensures WellOrdered(c, Expand(c, order, n)) && n in Expand(c, order, n)
    ensures forall m :: m in order ==> m in Expand(c, order, n)
  {
    ExpandCorrect(c, order, n);
    ExpandKeepsAttentionsReady(c, order, n);
    ExpandKeepsTailsPatient(c, order, n);
    PrefixKeeps(order, Expand(c, order, n), |Expand(c, order, n)|);
  }

  // ---------------------------------------------------------------- the program that builds the graph

  ghost predicate StagesIn(order: seq<Node>, layers: nat) {
    forall side, l: nat :: l < layers ==> Stage(side, l) in order
  }

  /** The tails of all layers of earlier steps and of the first `layers` layers of step `step`. */
  ghost predicate TailsIn(c: Config, order: seq<Node>, step: nat, layers: nat) {
    forall side, s: nat, l: nat :: l < c.layers && (s < step || (s == step && l < layers)) ==> Tail(side, s, l) in order
  }

  /** One call of expand in the program. */
  method Emit(c: Config, order: seq<Node>, n: Node) returns (order': seq<Node>)
    requires WellOrdered(c, order) && Valid(c, n) && Ready(c, order, n) && !n.Attention?
    requires n.Tail? ==> Stage(n.side, n.layer) in order
    ensures order' == Expand(c, order, n)
    ensures WellOrdered(c, order') && n in order' && forall m :: m in order ==> m in order'
  {
    ExpandKeepsOrder(c, order, n);
    order' := Expand(c, order, n);
  }

  /** The prefix pass: stage both sides of every layer. */
  method EmitPrefix(c: Config) returns (order: seq<Node>)
    ensures WellOrdered(c, order) && StagesIn(order, c.layers)
  {
    order := [];
    for l := 0 to c.layers
      invariant WellOrdered(c, order) && StagesIn(order, l)
    {
      order := Emit(c, order, Stage(Keys, l));
      order := Emit(c, order, Stage(Values, l));
      forall side, k: nat | k < l + 1 ensures Stage(side, k) in order {
        if k == l {
          match side { case Keys => case Values => }
        }
      }
    }
  }

  lemma ReadyForTail(c: Config, order: seq<Node>, side: Side, s: nat, l: nat)
    requires StagesIn(order, c.layers) && TailsIn(c, order, s, l)
    ensures Ready(c, order, Tail(side, s, l))
  {
  }

  /** More nodes keep what is there. */
  lemma StillIn(c: Config, order: seq<Node>, order': seq<Node>, s: nat, l: nat)
    requires StagesIn(order, c.layers) && TailsIn(c, order, s, l)
    requires forall m :: m in order ==> m in order'
    ensures StagesIn(order', c.layers) && TailsIn(c, order', s, l)
  {
  }

  method EmitTails(c: Config, before: seq<Node>, s: nat, l: nat) returns (order: seq<Node>)
    requires l < c.layers && WellOrdered(c, before) && StagesIn(before, c.layers) && TailsIn(c, before, s, l)
    ensures WellOrdered(c, order) && StagesIn(order, c.layers) && TailsIn(c, order, s, l + 1)
  {
    ReadyForTail(c, before, Keys, s, l);
    order := Emit(c, before, Tail(Keys, s, l));
    StillIn(c, before, order, s, l);
    ReadyForTail(c, order, Values, s, l);
    ghost var mid := order;
    order := Emit(c, order, Tail(Values, s, l));
    StillIn(c, mid, order, s, l);
    forall side, t: nat, k: nat | k < c.layers && (t < s || (t == s && k < l + 1)) ensures Tail(side, t, k) in order {
      if t == s && k == l {
        match side { case Keys => case Values => }
      }
    }
  }

  /** A node of the mixture of experts, expanded as soon as it is built. */
  method EmitExpert(c: Config, before: seq<Node>, n: Node, ghost s: nat, ghost l: nat) returns (order: seq<Node>)
    requires WellOrdered(c, before) && StagesIn(before, c.layers) && TailsIn(c, before, s, l + 1)
    requires Valid(c, n) && !n.Attention? && !n.Tail? && Phase(n) == s + 1 && Layer(n) == l
    ensures WellOrdered(c, order) && StagesIn(order, c.layers) && TailsIn(c, order, s, l + 1)
  {
    order := Emit(c, before, n);
    StillIn(c, before, order, s, l + 1);
  }

  /** One expert layer: overwrite both tails, then the early expansions of the mixture of experts. */
  method EmitExpertLayer(c: Config, before: seq<Node>, s: nat, l: nat) returns (order: seq<Node>)
    requires l < c.layers && WellOrdered(c, before) && StagesIn(before, c.layers) && TailsIn(c, before, s, l)
    ensures WellOrdered(c, order) && StagesIn(order, c.layers) && TailsIn(c, order, s, l + 1)
  {
    order := EmitTails(c, before, s, l);
    order := EmitExpert(c, order, Routing(s, l), s, l);
    order := EmitExpert(c, order, Experts(s, l), s, l);
    order := EmitExpert(c, order, Sum(s, l, 0), s, l);
    for i := 1 to if c.topK < 1 then 1 else c.topK
      invariant WellOrdered(c, order) && StagesIn(order, c.layers) && TailsIn(c, order, s, l + 1)
    {
      order := EmitExpert(c, order, Slice(s, l, i), s, l);
      order := EmitExpert(c, order, Sum(s, l, i), s, l);
    }
  }

  /** The node order of the whole denoise graph. */
  method EmitGraph(c: Config) returns (order: seq<Node>)
    ensures WellOrdered(c, order) && Latent(c.steps) in order
  {
    order := EmitPrefix(c);
    for s := 0 to c.steps
      invariant WellOrdered(c, order) && StagesIn(order, c.layers) && TailsIn(c, order, s, 0)
    {
      for l := 0 to c.layers
        invariant WellOrdered(c, order) && StagesIn(order, c.layers) && TailsIn(c, order, s, l)
      {
        order := EmitExpertLayer(c, order, s, l);
      }
    }
    order := Emit(c, order, Latent(c.steps));
  }

  // ---------------------------------------------------------------- execution

  /** Every tensor value is a list of rows; `eval` is what a node computes from its operands. */
  datatype Ops<!R> = Ops(eval: (Node, seq<seq<R>>) -> seq<R>, prefix: nat, suffix: nat)

  /** Keys and values have one row per token. */
  ghost predicate ShapesOk<R(!new)>(o: Ops<R>) {
    && (forall side, l, args: seq<seq<R>> :: |o.eval(VlmKV(side, l), args)| == o.prefix)
    && (forall side, s, l, args: seq<seq<R>> :: |o.eval(SuffixKV(side, s, l), args)| == o.suffix)
  }

  type Buffers<R> = map<(Side, nat), seq<R>>

  datatype Machine<R> = Machine(vals: map<Node, seq<R>>, buffers: Buffers<R>)

  ghost predicate BuffersOk<R>(c: Config, o: Ops<R>, b: Buffers<R>) {
    forall side, l: nat :: l < c.layers ==> (side, l) in b && |b[(side, l)]| == o.prefix + o.suffix
  }

  /** Execute one node.  An operand that has not been computed reads as empty. */
  function Read<R>(m: Machine<R>, n: Node): seq<R> {
    if n in m.vals then m.vals[n] else []
  }

  function Buffer<R>(m: Machine<R>, side: Side, l: nat): seq<R> {
    if (side, l) in m.buffers then m.buffers[(side, l)] else []
  }

  function Operands<R>(c: Config, m: Machine<R>, n: Node): seq<seq<R>> {
    var srcs := Sources(c, n);
    seq(|srcs|, i requires 0 <= i < |srcs| => Read(m, srcs[i]))
  }

  function Execute<R>(c: Config, o: Ops<R>, m: Machine<R>, n: Node): Machine<R> {
    match n
    case Stage(side, l) =>
      var held := Buffer(m, side, l);
      if |held| < o.prefix then m
      else m.(buffers := m.buffers[(side, l) := Read(m, VlmKV(side, l)) + held[o.prefix..]])
    case Tail(side, s, l) =>
      var held := Buffer(m, side, l);
      if |held| < o.prefix then m
      else m.(buffers := m.buffers[(side, l) := held[..o.prefix] + Read(m, SuffixKV(side, s, l))])
    case Attention(s, l) =>
      m.(vals := m.vals[n := o.eval(n, [Read(m, Query(s, l)), Buffer(m, Keys, l), Buffer(m, Values, l)])])
    case _ =>
      m.(vals := m.vals[n := o.eval(n, Operands(c, m, n))])
  }

  /** Execute the nodes in order. */
  function Run<R>(c: Config, o: Ops<R>, m: Machine<R>, order: seq<Node>): Machine<R> {
    if order == [] then m
    else Execute(c, o, Run(c, o, m, order[..|order| - 1]), order[|order| - 1])
  }

  // ---------------------------------------------------------------- the concatenating form

  /** The value of a node when every attention concatenates the prefix and its own step's suffix. */
  function Concat<R>(c: Config, o: Ops<R>, n: Node): seq<R>
    decreases Phase(n), Layer(n), Place(n)
  {
    if n.Attention? then
      var s, l := n.step, n.layer;
      o.eval(n, [Concat(c, o, Query(s, l)),
                 Concat(c, o, VlmKV(Keys, l)) + Concat(c, o, SuffixKV(Keys, s, l)),
                 Concat(c, o, VlmKV(Values, l)) + Concat(c, o, SuffixKV(Values, s, l))])
    else
      var srcs := Sources(c, n);
      o.eval(n, seq(|srcs|, i requires 0 <= i < |srcs| => Concat(c, o, srcs[i])))
  }

  ghost predicate ValuesTrack<R>(c: Config, o: Ops<R>, m: Machine<R>, done: seq<Node>) {
    forall n :: n in done && !n.Stage? && !n.Tail? ==> n in m.vals && m.vals[n] == Concat(c, o, n)
  }

  ghost predicate PrefixesTrack<R>(c: Config, o: Ops<R>, b: Buffers<R>, done: seq<Node>)
    requires BuffersOk(c, o, b)
  {
    forall side, l: nat :: l < c.layers && Stage(side, l) in done ==>
      b[(side, l)][..o.prefix] == Concat(c, o, VlmKV(side, l))
  }

  ghost predicate TailsTrack<R>(c: Config, o: Ops<R>, b: Buffers<R>, done: seq<Node>)
    requires BuffersOk(c, o, b)
  {
    forall side, s: nat, l: nat :: l < c.layers && Tail(side, s, l) in done && Latest(done, side, s, l) ==>
      b[(side, l)][o.prefix..] == Concat(c, o, SuffixKV(side, s, l))
  }

  /** What the machine holds after executing `done`: right values, staged prefixes, and in each tail the
      suffix of the latest step that wrote it. */
  ghost predicate Tracks<R>(c: Config, o: Ops<R>, m: Machine<R>, done: seq<Node>) {
    && BuffersOk(c, o, m.buffers)
    && ValuesTrack(c, o, m, done)
    && PrefixesTrack(c, o, m.buffers, done)
    && TailsTrack(c, o, m.buffers, done)
  }

  ghost predicate Latest(done: seq<Node>, side: Side, s: nat, l: nat) {
    forall t: nat :: t > s ==> Tail(side, t, l) !in done
  }

  /** Which tails are there when a node of a well-ordered graph is executed. */
  lemma LatestAtAttention(c: Config, order: seq<Node>, p: nat, side: Side)
    requires WellOrdered(c, order) && p < |order| && order[p].Attention?
    ensures var s, l := order[p].step, order[p].layer;
      Tail(side, s, l) in order[..p] && Stage(side, l) in order[..p] && Latest(order[..p], side, s, l)
  {
  }

  lemma EarlierTailBefore(c: Config, order: seq<Node>, q: nat, s: nat)
    requires WellOrdered(c, order) && q < |order| && order[q].Tail? && s < order[q].step
    ensures Tail(order[q].side, s, order[q].layer) in order[..q]
  {
    var l := order[q].layer;
    assert Attention(s, l) in order[..q];
    var r :| 0 <= r < q && order[r] == Attention(s, l);
    assert CopiesIn(order[..r], s, l);
    var u :| 0 <= u < r && order[..r][u] == Tail(order[q].side, s, l);
    assert order[..q][u] == order[u];
  }

  lemma LatestAtTail(c: Config, order: seq<Node>, p: nat)
    requires WellOrdered(c, order) && p < |order| && order[p].Tail?
    ensures Latest(order[..p + 1], order[p].side, order[p].step, order[p].layer)
  {
    var side, s, l := order[p].side, order[p].step, order[p].layer;
    forall t: nat | t > s ensures Tail(side, t, l) !in order[..p + 1] {
      if Tail(side, t, l) in order[..p + 1] {
        var q :| 0 <= q < p + 1 && order[q] == Tail(side, t, l);
        EarlierTailBefore(c, order, q, s);
        assert false;
      }
    }
  }

  /** In the emitted order: prefix copy, tail copy of the step, attention of the step, tail copy of the next. */
  lemma EmissionOrder(c: Config, order: seq<Node>, side: Side, s: nat, l: nat, stage: nat, tail: nat, att: nat,
                      next: nat)
    requires WellOrdered(c, order)
    requires stage < |order| && tail < |order| && att < |order| && next < |order|
    requires order[stage] == Stage(side, l) && order[tail] == Tail(side, s, l)
    requires order[att] == Attention(s, l) && order[next] == Tail(side, s + 1, l)
    ensures stage < tail < att < next
  {
  }

  // ---------------------------------------------------------------- refinement

  lemma SourcesDone(c: Config, order: seq<Node>, p: nat, m: Node)
    requires WellOrdered(c, order) && p < |order| && m in Sources(c, order[p])
    ensures m in order[..p] && !m.Stage? && !m.Tail?
  {
  }

  lemma {:induction false} PureStep<R(!new)>(c: Config, o: Ops<R>, m: Machine<R>, order: seq<Node>, p: nat)
    requires ShapesOk(o) && WellOrdered(c, order) && p < |order| && Tracks(c, o, m, order[..p])
    requires !order[p].Stage? && !order[p].Tail? && !order[p].Attention?
    ensures Execute(c, o, m, order[p]).vals == m.vals[order[p] := Concat(c, o, order[p])]
    ensures Execute(c, o, m, order[p]).buffers == m.buffers
  {
    var n := order[p];
    var srcs := Sources(c, n);
    forall i | 0 <= i < |srcs| ensures Read(m, srcs[i]) == Concat(c, o, srcs[i]) {
      SourcesDone(c, order, p, srcs[i]);
    }
    assert Operands(c, m, n) == seq(|srcs|, i requires 0 <= i < |srcs| => Concat(c, o, srcs[i]));
  }

  /** At an attention each buffer holds the prefix followed by the suffix of the same step. */
  lemma BufferAtAttention<R(!new)>(c: Config, o: Ops<R>, m: Machine<R>, order: seq<Node>, p: nat, side: Side)
    requires ShapesOk(o) && WellOrdered(c, order) && p < |order| && Tracks(c, o, m, order[..p])
    requires order[p].Attention?
    ensures var s, l := order[p].step, order[p].layer;
      Buffer(m, side, l) == Concat(c, o, VlmKV(side, l)) + Concat(c, o, SuffixKV(side, s, l))
  {
    var s, l := order[p].step, order[p].layer;
    assert Valid(c, order[p]);
    LatestAtAttention(c, order, p, side);
    var b := m.buffers[(side, l)];
    assert b == b[..o.prefix] + b[o.prefix..];
  }

  lemma {:induction false} AttentionValue<R>(c: Config, o: Ops<R>, m: Machine<R>, s: nat, l: nat)
    requires Read(m, Query(s, l)) == Concat(c, o, Query(s, l))
    requires Buffer(m, Keys, l) == Concat(c, o, VlmKV(Keys, l)) + Concat(c, o, SuffixKV(Keys, s, l))
    requires Buffer(m, Values, l) == Concat(c, o, VlmKV(Values, l)) + Concat(c, o, SuffixKV(Values, s, l))
    ensures Execute(c, o, m, Attention(s, l)) == m.(vals := m.vals[Attention(s, l) := Concat(c, o, Attention(s, l))])
  {
  }

  lemma {:induction false} AttentionStep<R(!new)>(c: Config, o: Ops<R>, m: Machine<R>, order: seq<Node>, p: nat)
    requires ShapesOk(o) && WellOrdered(c, order) && p < |order| && Tracks(c, o, m, order[..p])
    requires order[p].Attention?
    ensures Execute(c, o, m, order[p]).vals == m.vals[order[p] := Concat(c, o, order[p])]
    ensures Execute(c, o, m, order[p]).buffers == m.buffers
  {
    BufferAtAttention(c, o, m, order, p, Keys);
    BufferAtAttention(c, o, m, order, p, Values);
    SourcesDone(c, order, p, Query(order[p].step, order[p].layer));
    AttentionValue(c, o, m, order[p].step, order[p].layer);
  }

  lemma ValueStepTracks<R>(c: Config, o: Ops<R>, m: Machine<R>, m': Machine<R>, done: seq<Node>, n: Node)
    requires Tracks(c, o, m, done) && !n.Stage? && !n.Tail?
    requires m'.vals == m.vals[n := Concat(c, o, n)] && m'.buffers == m.buffers
    ensures Tracks(c, o, m', done + [n])
  {
  }

  /** Rewriting the prefix part of one buffer. */
  lemma StageStepTracks<R>(c: Config, o: Ops<R>, m: Machine<R>, done: seq<Node>, side: Side, l: nat)
    requires Tracks(c, o, m, done) && l < c.layers
    requires VlmKV(side, l) in done && |Concat(c, o, VlmKV(side, l))| == o.prefix
    ensures Tracks(c, o, Execute(c, o, m, Stage(side, l)), done + [Stage(side, l)])
  {
    var rows, b := Concat(c, o, VlmKV(side, l)), m.buffers[(side, l)];
    var b' := rows + b[o.prefix..];
    assert b'[..o.prefix] == rows && b'[o.prefix..] == b[o.prefix..];
    var bs := m.buffers[(side, l) := b'];
    assert Execute(c, o, m, Stage(side, l)).buffers == bs;
    assert TailsTrack(c, o, bs, done);
  }

  lemma TailsTrackWritten<R>(c: Config, o: Ops<R>, b: Buffers<R>, b': Buffers<R>, done: seq<Node>, side: Side, s: nat,
                             l: nat)
    requires BuffersOk(c, o, b) && BuffersOk(c, o, b') && TailsTrack(c, o, b, done) && l < c.layers
    requires Latest(done + [Tail(side, s, l)], side, s, l)
    requires forall key :: key in b && key != (side, l) ==> key in b' && b'[key] == b[key]
    requires b'[(side, l)][o.prefix..] == Concat(c, o, SuffixKV(side, s, l))
    ensures TailsTrack(c, o, b', done + [Tail(side, s, l)])
  {
  }

  /** Rewriting the tail of one buffer. */
  lemma TailStepTracks<R>(c: Config, o: Ops<R>, m: Machine<R>, done: seq<Node>, side: Side, s: nat, l: nat)
    requires Tracks(c, o, m, done) && l < c.layers && Latest(done + [Tail(side, s, l)], side, s, l)
    requires SuffixKV(side, s, l) in done && |Concat(c, o, SuffixKV(side, s, l))| == o.suffix
    ensures Tracks(c, o, Execute(c, o, m, Tail(side, s, l)), done + [Tail(side, s, l)])
  {
    var rows, b := Concat(c, o, SuffixKV(side, s, l)), m.buffers[(side, l)];
    var b' := b[..o.prefix] + rows;
    assert b'[..o.prefix] == b[..o.prefix] && b'[o.prefix..] == rows;
    var bs := m.buffers[(side, l) := b'];
    assert Execute(c, o, m, Tail(side, s, l)).buffers == bs;
    TailsTrackWritten(c, o, m.buffers, bs, done, side, s, l);
  }

  lemma StepTracks<R(!new)>(c: Config, o: Ops<R>, m: Machine<R>, order: seq<Node>, p: nat)
    requires ShapesOk(o) && WellOrdered(c, order) && p < |order| && Tracks(c, o, m, order[..p])
    ensures Tracks(c, o, Execute(c, o, m, order[p]), order[..p + 1])
  {
    var n := order[p];
    assert Valid(c, n);
    assert order[..p + 1] == order[..p] + [n];
    if n.Stage? {
      SourcesDone(c, order, p, VlmKV(n.side, n.layer));
      StageStepTracks(c, o, m, order[..p], n.side, n.layer);
    } else if n.Tail? {
      SourcesDone(c, order, p, SuffixKV(n.side, n.step, n.layer));
      LatestAtTail(c, order, p);
      TailStepTracks(c, o, m, order[..p], n.side, n.step, n.layer);
    } else {
      if n.Attention? { AttentionStep(c, o, m, order, p); } else { PureStep(c, o, m, order, p); }
      ValueStepTracks(c, o, m, Execute(c, o, m, n), order[..p], n);
    }
  }

  lemma {:induction false} RunTracks<R(!new)>(c: Config, o: Ops<R>, b: Buffers<R>, order: seq<Node>, p: nat)
    requires ShapesOk(o) && WellOrdered(c, order) && p <= |order| && BuffersOk(c, o, b)
    ensures Tracks(c, o, Run(c, o, Machine(map[], b), order[..p]), order[..p])
  {
    if p > 0 {
      RunTracks(c, o, b, order, p - 1);
      assert order[..p][..p - 1] == order[..p - 1];
      StepTracks(c, o, Run(c, o, Machine(map[], b), order[..p - 1]), order, p - 1);
    }
  }

  /** Every attention of the cached graph reads, on both sides, the prefix followed by the suffix of its
      own step, whatever earlier steps or requests left in the buffers. */
  lemma AttentionReadsOwnStep<R(!new)>(c: Config, o: Ops<R>, b: Buffers<R>, order: seq<Node>, p: nat, side: Side)
    requires ShapesOk(o) && WellOrdered(c, order) && p < |order| && BuffersOk(c, o, b) && order[p].Attention?
    ensures Buffer(Run(c, o, Machine(map[], b), order[..p]), side, order[p].layer) ==
            Concat(c, o, VlmKV(side, order[p].layer)) + Concat(c, o, SuffixKV(side, order[p].step, order[p].layer))
  {
    RunTracks(c, o, b, order, p);
    BufferAtAttention(c, o, Run(c, o, Machine(map[], b), order[..p]), order, p, side);
  }

  /** The cached graph computes what the concatenating graph computes, from any contents of the buffers. */
  lemma CachedGraphIsConcat<R(!new)>(c: Config, o: Ops<R>, b: Buffers<R>, order: seq<Node>, n: Node)
    requires ShapesOk(o) && WellOrdered(c, order) && BuffersOk(c, o, b)
    requires n in order && !n.Stage? && !n.Tail?
    ensures Read(Run(c, o, Machine(map[], b), order), n) == Concat(c, o, n)
  {
    RunTracks(c, o, b, order, |order|);
    assert order[..|order|] == order;
  }
}
