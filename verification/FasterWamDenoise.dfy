/** The denoise graph of FasterWAM.  Every step reads the leaf that holds the latent and adds to it in place, so
    no edge leads from one step to the next, and only the node built last is handed to
    `ggml_build_forward_expand`.  As in `LingBotKv`, that call appends the node and its ancestors that are not in
    the graph yet, sources before users, and the graph is executed in that order. */
module FasterWamDenoise {
  import opened FasterWamSchedule

  /** `Constants` stands for positions, text context, keys and values; the other leaves are the latent and the
      time embeddings.  The rest is named by the place in the program where it is built. */
  datatype Node =
    | XRaw
    | Constants
    | Time(step: nat)
    | Encoded(step: nat)
    | Modulation(step: nat)
    | Block(step: nat, layer: nat)
    | Scaled(step: nat)                // velocity head and multiplication with the step's delta
    | Updated(step: nat)               // the sum, stored in XRaw

  function Rank(layers: nat, n: Node): nat {
    match n
    case XRaw => 0
    case Constants => 0
    case Time(_) => 0
    case Encoded(_) => 1
    case Modulation(_) => 1
    case Block(_, l) => 2 + l
    case Scaled(_) => 2 + layers
    case Updated(_) => 3 + layers
  }

  /** What enters block `l`; behind the last block it enters the head. */
  function Hidden(s: nat, l: nat): Node {
    if l == 0 then Encoded(s) else Block(s, l - 1)
  }

  function Sources(layers: nat, n: Node): (ms: seq<Node>)
    ensures forall i :: 0 <= i < |ms| ==> Rank(layers, ms[i]) < Rank(layers, n)
  {
    match n
    case XRaw => []
    case Constants => []
    case Time(_) => []
    case Encoded(_) => [XRaw]
    case Modulation(s) => [Time(s)]
    case Block(s, l) => [Hidden(s, l), Modulation(s), Constants]
    case Scaled(s) => [Hidden(s, layers)]
    case Updated(s) => [XRaw, Scaled(s)]
  }

  // ---------------------------------------------------------------- emission

  /** ggml_build_forward_expand. */
  function Expand(layers: nat, order: seq<Node>, n: Node): seq<Node>
    decreases Rank(layers, n), |Sources(layers, n)| + 1
  {
    if n in order then order else ExpandSources(layers, order, n, 0) + [n]
  }

  function ExpandSources(layers: nat, order: seq<Node>, n: Node, k: nat): seq<Node>
    requires k <= |Sources(layers, n)|
    decreases Rank(layers, n), |Sources(layers, n)| - k
  {
    if k == |Sources(layers, n)| then order
    else ExpandSources(layers, Expand(layers, order, Sources(layers, n)[k]), n, k + 1)
  }

  predicate OfStep(n: Node, s: nat) {
    !n.XRaw? && !n.Constants? && n.step == s
  }

  /** No node of step `s` yet. */
  ghost predicate Without(order: seq<Node>, s: nat) {
    forall n :: n in order ==> !OfStep(n, s)
  }

  function Missing(order: seq<Node>, n: Node): seq<Node> {
    if n in order then [] else [n]
  }

  /** What the input of block `l` brings into a graph that has the latent and nothing of step `s`. */
  function HiddenNodes(order: seq<Node>, s: nat, l: nat): seq<Node> {
    if l == 0 then [Encoded(s)]
    else if l == 1 then [Encoded(s), Time(s), Modulation(s)] + Missing(order, Constants) + [Block(s, 0)]
    else HiddenNodes(order, s, l - 1) + [Block(s, l - 1)]
  }

  /** What the update of step `s` brings in. */
  function StepNodes(layers: nat, order: seq<Node>, s: nat): seq<Node> {
    Missing(order, XRaw) + HiddenNodes(order, s, layers) + [Scaled(s), Updated(s)]
  }

  lemma {:induction false} HiddenMembers(order: seq<Node>, s: nat, l: nat, n: Node)
    ensures n in HiddenNodes(order, s, l) <==>
            n == Encoded(s) ||
            (l >= 1 && (n == Time(s) || n == Modulation(s) || (n == Constants && n !in order)
                        || (n.Block? && n.step == s && n.layer < l)))
  {
    if l >= 2 {
      HiddenMembers(order, s, l - 1, n);
    }
  }

  lemma ExpandEncoded(layers: nat, order: seq<Node>, s: nat)
    requires XRaw in order && Without(order, s)
    ensures Expand(layers, order, Encoded(s)) == order + [Encoded(s)]
  {
    assert Expand(layers, order, XRaw) == order;
    assert ExpandSources(layers, order, Encoded(s), 1) == order;
  }

  lemma ExpandModulation(layers: nat, order: seq<Node>, s: nat)
    requires Time(s) !in order && Modulation(s) !in order
    ensures Expand(layers, order, Modulation(s)) == order + [Time(s), Modulation(s)]
  {
    assert ExpandSources(layers, order, Time(s), 0) == order;
    assert Expand(layers, order, Time(s)) == order + [Time(s)];
    assert ExpandSources(layers, order + [Time(s)], Modulation(s), 1) == order + [Time(s)];
  }

  lemma ExpandBlock(layers: nat, order: seq<Node>, s: nat, l: nat, a: seq<Node>, b: seq<Node>, c: seq<Node>)
    requires Block(s, l) !in order
    requires Expand(layers, order, Hidden(s, l)) == a && Expand(layers, a, Modulation(s)) == b
    requires Expand(layers, b, Constants) == c
    ensures Expand(layers, order, Block(s, l)) == c + [Block(s, l)]
  {
    var n := Block(s, l);
    assert ExpandSources(layers, c, n, 3) == c;
    assert ExpandSources(layers, b, n, 2) == c;
    assert ExpandSources(layers, a, n, 1) == c;
  }

  lemma ExpandConstants(layers: nat, order: seq<Node>)
    ensures Expand(layers, order, Constants) == order + Missing(order, Constants)
  {
    assert ExpandSources(layers, order, Constants, 0) == order;
  }

  lemma ExpandFirstBlock(layers: nat, order: seq<Node>, s: nat)
    requires XRaw in order && Without(order, s)
    ensures Expand(layers, order, Hidden(s, 1)) == order + HiddenNodes(order, s, 1)
  {
    ExpandEncoded(layers, order, s);
    var a := order + [Encoded(s)];
    ExpandModulation(layers, a, s);
    var b := a + [Time(s), Modulation(s)];
    ExpandConstants(layers, b);
    ExpandBlock(layers, order, s, 0, a, b, b + Missing(b, Constants));
    assert Missing(b, Constants) == Missing(order, Constants);
  }

  lemma ExpandNextBlock(layers: nat, order: seq<Node>, s: nat, l: nat)
    requires l >= 1 && Without(order, s) && Expand(layers, order, Hidden(s, l)) == order + HiddenNodes(order, s, l)
    ensures Expand(layers, order, Block(s, l)) == order + HiddenNodes(order, s, l) + [Block(s, l)]
  {
    var a := order + HiddenNodes(order, s, l);
    HiddenMembers(order, s, l, Modulation(s));
    HiddenMembers(order, s, l, Constants);
    ExpandBlock(layers, order, s, l, a, a, a);
  }

  lemma {:induction false} ExpandHidden(layers: nat, order: seq<Node>, s: nat, l: nat)
    requires XRaw in order && Without(order, s)
    ensures Expand(layers, order, Hidden(s, l)) == order + HiddenNodes(order, s, l)
  {
    if l == 0 {
      ExpandEncoded(layers, order, s);
    } else if l == 1 {
      ExpandFirstBlock(layers, order, s);
    } else {
      ExpandHidden(layers, order, s, l - 1);
      ExpandNextBlock(layers, order, s, l - 1);
      assert HiddenNodes(order, s, l) == HiddenNodes(order, s, l - 1) + [Block(s, l - 1)];
    }
  }

  lemma ExpandScaled(layers: nat, order: seq<Node>, s: nat)
    requires XRaw in order && Without(order, s)
    ensures Expand(layers, order, Scaled(s)) == order + HiddenNodes(order, s, layers) + [Scaled(s)]
  {
    ExpandHidden(layers, order, s, layers);
    HiddenMembers(order, s, layers, Scaled(s));
    var b := order + HiddenNodes(order, s, layers);
    assert ExpandSources(layers, b, Scaled(s), 1) == b;
  }

  lemma ExpandXRaw(layers: nat, order: seq<Node>)
    ensures Expand(layers, order, XRaw) == order + Missing(order, XRaw)
  {
    assert ExpandSources(layers, order, XRaw, 0) == order;
  }

  lemma ExpandTwo(layers: nat, order: seq<Node>, s: nat, a: seq<Node>, b: seq<Node>)
    requires Updated(s) !in order && Expand(layers, order, XRaw) == a && Expand(layers, a, Scaled(s)) == b
    ensures Expand(layers, order, Updated(s)) == b + [Updated(s)]
  {
    assert ExpandSources(layers, b, Updated(s), 2) == b;
    assert ExpandSources(layers, a, Updated(s), 1) == b;
  }

  /** Expanding the update of one step appends exactly that step. */
  lemma ExpandUpdate(layers: nat, order: seq<Node>, s: nat)
    requires Without(order, s)
    ensures Expand(layers, order, Updated(s)) == order + StepNodes(layers, order, s)
  {
    var a := order + Missing(order, XRaw);
    ExpandXRaw(layers, order);
    ExpandScaled(layers, a, s);
    SameHidden(order, a, s, layers);
    var b := a + HiddenNodes(order, s, layers) + [Scaled(s)];
    ExpandTwo(layers, order, s, a, b);
    assert b + [Updated(s)] == order + StepNodes(layers, order, s);
  }

  lemma {:induction false} SameHidden(a: seq<Node>, b: seq<Node>, s: nat, l: nat)
    requires Constants in a <==> Constants in b
    ensures HiddenNodes(a, s, l) == HiddenNodes(b, s, l)
  {
    if l >= 2 {
      SameHidden(a, b, s, l - 1);
    }
  }

  /** The graph as the engine builds it: the loop keeps only the output of its last turn. */
  method BuildGraph(layers: nat, n: nat) returns (order: seq<Node>)
    requires n >= 1
    ensures order == StepNodes(layers, [], 0)
  {
    var last := Updated(n - 1);
    for step := n downto 0
      invariant step < n ==> last == Updated(step)
    {
      last := Updated(step);
    }
    order := Expand(layers, [], last);
    ExpandUpdate(layers, [], 0);
    assert [] + StepNodes(layers, [], 0) == StepNodes(layers, [], 0);
  }

  /** Exactly step 0 is in it, whatever the number of steps. */
  lemma OnlyStepZero(layers: nat, n: Node)
    ensures n in StepNodes(layers, [], 0) <==>
            n == XRaw || n == Encoded(0) || n == Scaled(0) || n == Updated(0) ||
            (layers >= 1 && (n == Constants || n == Time(0) || n == Modulation(0) ||
                             (n.Block? && n.step == 0 && n.layer < layers)))
  {
    HiddenMembers([], 0, layers, n);
  }

  // ---------------------------------------------------------------- execution

  /** The operators, arbitrary functions on flat tensors; the constants are part of `block`. */
  datatype Net = Net(
    layers: nat,
    embed: real -> seq<real>,
    encode: seq<real> -> seq<real>,
    modulate: seq<real> -> seq<real>,
    block: (nat, seq<real>, seq<real>) -> seq<real>,
    head: seq<real> -> seq<real>)

  /** Timesteps of the step boundaries and the number of train timesteps. */
  datatype Steps = Steps(schedule: seq<real>, train: real)

  function TimeOf(c: Steps, s: nat): real {
    if s + 1 < |c.schedule| then c.schedule[s + 1] else 0.0
  }

  function DeltaOf(c: Steps, s: nat): real {
    if s + 1 < |c.schedule| && c.train > 0.0 then Delta(c.schedule, c.train, s) else 0.0
  }

  /** The latent in its leaf, and the values computed so far. */
  datatype Machine = Machine(x: seq<real>, vals: map<Node, seq<real>>)

  function Read(m: Machine, n: Node): seq<real> {
    if n in m.vals then m.vals[n] else []
  }

  function Entry(v: seq<real>, k: nat): real {
    if k < |v| then v[k] else 0.0
  }

  function ScaledBy(d: real, v: seq<real>): (r: seq<real>)
    ensures |r| == |v|
  {
    seq(|v|, (k: nat) requires k < |v| => d * v[k])
  }

  function Execute(net: Net, c: Steps, m: Machine, n: Node): Machine {
    match n
    case XRaw => m
    case Constants => m
    case Time(s) => m.(vals := m.vals[n := net.embed(TimeOf(c, s))])
    case Encoded(_) => m.(vals := m.vals[n := net.encode(m.x)])
    case Modulation(s) => m.(vals := m.vals[n := net.modulate(Read(m, Time(s)))])
    case Block(s, l) => m.(vals := m.vals[n := net.block(l, Read(m, Hidden(s, l)), Read(m, Modulation(s)))])
    case Scaled(s) =>
      var v := net.head(Read(m, Hidden(s, net.layers)));
      m.(vals := m.vals[n := ScaledBy(DeltaOf(c, s), v)])
    case Updated(s) =>
      var v := Read(m, Scaled(s));
      m.(x := seq(|m.x|, (k: nat) requires k < |m.x| => m.x[k] + Entry(v, k)))
  }

  function Run(net: Net, c: Steps, m: Machine, order: seq<Node>): Machine {
    if order == [] then m
    else Execute(net, c, Run(net, c, m, order[..|order| - 1]), order[|order| - 1])
  }

  lemma {:induction false} RunConcat(net: Net, c: Steps, m: Machine, a: seq<Node>, b: seq<Node>)
    ensures Run(net, c, m, a + b) == Run(net, c, Run(net, c, m, a), b)
    decreases |b|
  {
    if b == [] {
      assert a + b == a;
    } else {
      assert (a + b)[..|a + b| - 1] == a + b[..|b| - 1];
      RunConcat(net, c, m, a, b[..|b| - 1]);
    }
  }

  lemma RunAppend(net: Net, c: Steps, m: Machine, a: seq<Node>, n: Node)
    ensures Run(net, c, m, a + [n]) == Execute(net, c, Run(net, c, m, a), n)
  {
    assert (a + [n])[..|a|] == a;
  }

  /** The input of block `l` when the latent is `x` and the timestep `t`. */
  function HiddenValue(net: Net, x: seq<real>, t: real, l: nat): seq<real> {
    if l == 0 then net.encode(x)
    else net.block(l - 1, HiddenValue(net, x, t, l - 1), net.modulate(net.embed(t)))
  }

  function VelocityOf(net: Net): Velocity {
    (x: seq<real>, t: real, k: nat) => Entry(net.head(HiddenValue(net, x, t, net.layers)), k)
  }

  /** Operators under which the head lists the input, and for every block the timestep and the block's number. */
  function Listing(layers: nat): Net {
    Net(layers, t => [t], x => x, e => e, (l, h, e) => h + e + [l as real], h => h)
  }

  function Listed(x: seq<real>, t: real, l: nat): seq<real> {
    if l == 0 then x else Listed(x, t, l - 1) + [t, (l - 1) as real]
  }

  /** The latent goes through all blocks in order, and each of them sees the timestep. */
  lemma {:induction false} BlocksInOrder(layers: nat, x: seq<real>, t: real, l: nat)
    ensures HiddenValue(Listing(layers), x, t, l) == Listed(x, t, l)
  {
    if l > 0 {
      BlocksInOrder(layers, x, t, l - 1);
      assert [t] + [(l - 1) as real] == [t, (l - 1) as real];
    }
  }

  ghost predicate HiddenDone(net: Net, c: Steps, x: seq<real>, m: Machine, s: nat, l: nat) {
    && m.x == x && Read(m, Hidden(s, l)) == HiddenValue(net, x, TimeOf(c, s), l)
    && (l >= 1 ==> Read(m, Modulation(s)) == net.modulate(net.embed(TimeOf(c, s))))
  }

  lemma RunLeaves(net: Net, c: Steps, m: Machine, order: seq<Node>, n: Node)
    requires n.XRaw? || n.Constants?
    ensures Run(net, c, m, Missing(order, n)) == m
  {
    assert [n][..0] == [];
  }

  lemma RunFirstBlock(net: Net, c: Steps, m: Machine, order: seq<Node>, s: nat)
    ensures HiddenDone(net, c, m.x, Run(net, c, m, HiddenNodes(order, s, 1)), s, 1)
  {
    RunAppend(net, c, m, [], Encoded(s));
    RunAppend(net, c, m, [Encoded(s)], Time(s));
    RunAppend(net, c, m, [Encoded(s), Time(s)], Modulation(s));
    var front := [Encoded(s), Time(s), Modulation(s)];
    assert [] + [Encoded(s)] == [Encoded(s)] && [Encoded(s)] + [Time(s)] == [Encoded(s), Time(s)];
    assert [Encoded(s), Time(s)] + [Modulation(s)] == front;
    RunConcat(net, c, m, front, Missing(order, Constants));
    RunLeaves(net, c, Run(net, c, m, front), order, Constants);
    RunAppend(net, c, m, front + Missing(order, Constants), Block(s, 0));
  }

  lemma {:induction false} RunHidden(net: Net, c: Steps, m: Machine, order: seq<Node>, s: nat, l: nat)
    ensures HiddenDone(net, c, m.x, Run(net, c, m, HiddenNodes(order, s, l)), s, l)
  {
    if l == 0 {
      RunAppend(net, c, m, [], Encoded(s));
      assert [] + [Encoded(s)] == [Encoded(s)];
    } else if l == 1 {
      RunFirstBlock(net, c, m, order, s);
    } else {
      RunHidden(net, c, m, order, s, l - 1);
      RunAppend(net, c, m, HiddenNodes(order, s, l - 1), Block(s, l - 1));
    }
  }

  predicate InRange(c: Steps, s: nat) {
    s + 1 < |c.schedule| && c.train > 0.0
  }

  lemma UpdateMoves(net: Net, c: Steps, m: Machine, x: seq<real>, s: nat)
    requires InRange(c, s) && HiddenDone(net, c, x, m, s, net.layers)
    ensures Execute(net, c, Execute(net, c, m, Scaled(s)), Updated(s)).x ==
            Moved(x, Delta(c.schedule, c.train, s), VelocityOf(net), c.schedule[s + 1])
  {
    var t, d := c.schedule[s + 1], Delta(c.schedule, c.train, s);
    var v := net.head(HiddenValue(net, x, t, net.layers));
    var m' := Execute(net, c, m, Scaled(s));
    assert m'.x == x && Read(m', Scaled(s)) == ScaledBy(d, v);
    var got, goal := Execute(net, c, m', Updated(s)).x, Moved(x, d, VelocityOf(net), t);
    forall k: nat | k < |x|
      ensures got[k] == goal[k]
    {
      assert VelocityOf(net)(x, t, k) == Entry(v, k);
      assert goal[k] == x[k] + d * Entry(v, k);
      assert Entry(ScaledBy(d, v), k) == d * Entry(v, k);
    }
  }

  /** Executing the nodes of one step moves the latent once. */
  lemma RunStep(net: Net, c: Steps, m: Machine, order: seq<Node>, s: nat)
    requires InRange(c, s)
    ensures Run(net, c, m, StepNodes(net.layers, order, s)).x ==
            Moved(m.x, Delta(c.schedule, c.train, s), VelocityOf(net), c.schedule[s + 1])
  {
    var front := Missing(order, XRaw) + HiddenNodes(order, s, net.layers);
    RunConcat(net, c, m, Missing(order, XRaw), HiddenNodes(order, s, net.layers));
    RunLeaves(net, c, m, order, XRaw);
    RunHidden(net, c, m, order, s, net.layers);
    RunAppend(net, c, m, front, Scaled(s));
    RunAppend(net, c, m, front + [Scaled(s)], Updated(s));
    assert front + [Scaled(s)] + [Updated(s)] == front + [Scaled(s), Updated(s)];
    UpdateMoves(net, c, Run(net, c, m, front), m.x, s);
  }

  // ---------------------------------------------------------------- what the engine computes

  function StepsOf(n: nat, shift: real, train: real): Steps
    requires Settings(n, shift, train)
  {
    Steps(Schedule(n, shift, train), train)
  }

  /** The latent after the engine's graph has run. */
  function Denoised(net: Net, n: nat, shift: real, train: real, noise: seq<real>): seq<real>
    requires Settings(n, shift, train)
  {
    Run(net, StepsOf(n, shift, train), Machine(noise, map[]), StepNodes(net.layers, [], 0)).x
  }

  /** Build the graph, upload the noise, execute node by node, read the latent back. */
  method Denoise(net: Net, n: nat, shift: real, train: real, noise: seq<real>) returns (x: seq<real>)
    requires Settings(n, shift, train)
    ensures x == Denoised(net, n, shift, train, noise)
    ensures x == Moved(noise, Delta(Schedule(n, shift, train), train, 0), VelocityOf(net),
                       Schedule(n, shift, train)[1])
  {
    var schedule := MakeTimestepSchedule(n, shift, train);
    var order := BuildGraph(net.layers, n);
    var c, m := Steps(schedule, train), Machine(noise, map[]);
    for p := 0 to |order|
      invariant m == Run(net, c, Machine(noise, map[]), order[..p])
    {
      RunAppend(net, c, Machine(noise, map[]), order[..p], order[p]);
      assert order[..p + 1] == order[..p] + [order[p]];
      m := Execute(net, c, m, order[p]);
    }
    assert order[..|order|] == order;
    RunStep(net, c, Machine(noise, map[]), [], 0);
    x := m.x;
  }

  /** One move is all there is: the one to the lowest boundary, with its delta and its timestep. */
  lemma DenoisedIsOneMove(net: Net, n: nat, shift: real, train: real, noise: seq<real>)
    requires Settings(n, shift, train)
    ensures Denoised(net, n, shift, train, noise) ==
            Moved(noise, Delta(Schedule(n, shift, train), train, 0), VelocityOf(net), Schedule(n, shift, train)[1])
  {
    RunStep(net, StepsOf(n, shift, train), Machine(noise, map[]), [], 0);
  }

  /** The operators that predict the same velocity everywhere. */
  function ConstantNet(v: seq<real>): Net {
    Net(0, t => [], x => x, e => e, (l, h, e) => h, h => v)
  }

  lemma FirstDelta(n: nat, shift: real, train: real)
    requires Settings(n, shift, train)
    ensures Delta(Schedule(n, shift, train), train, 0) == -1.0 <==> n == 1
  {
    ScheduleEnds(n, shift, train);
    var b := Boundary(n, shift, train, 1);
    if n > 1 {
      ScheduleRises(n, shift, train, 1, n);
    }
    assert Delta(Schedule(n, shift, train), train, 0) == -(b / train);
    QuotientIsOneIff(b, train);
  }

  lemma QuotientIsOneIff(b: real, train: real)
    requires train > 0.0
    ensures b / train == 1.0 <==> b == train
  {
    if b / train == 1.0 {
      assert b == (b / train) * train;
    }
  }

  lemma ConstantIs(v: seq<real>, x: seq<real>, t: real, k: nat)
    requires k < |v|
    ensures VelocityOf(ConstantNet(v))(x, t, k) == v[k]
  {
    assert HiddenValue(ConstantNet(v), x, t, 0) == x;
  }

  lemma ConstantMoves(v: seq<real>, x: seq<real>, d: real, t: real, k: nat)
    requires k < |x| == |v|
    ensures Moved(x, d, VelocityOf(ConstantNet(v)), t)[k] == x[k] + d * v[k]
  {
    ConstantIs(v, x, t, k);
  }

  lemma Drift(x: real, v: real, d: real, sum: real)
    ensures x + v * sum + d * v == x + v * (d + sum)
  {
  }

  lemma Arrives(x: real, d: real, v: real)
    ensures x + d * v == x - v <==> d == -1.0 || v == 0.0
  {
    assert (d + 1.0) * v == d * v + v;
  }

  /** A constant velocity is carried only by the first delta: entry `k` arrives at noise minus velocity exactly
      for a single step or a zero velocity. */
  lemma ConstantArrivesIff(n: nat, shift: real, train: real, v: seq<real>, x: seq<real>, k: nat)
    requires Settings(n, shift, train) && k < |x| == |v|
    ensures |Denoised(ConstantNet(v), n, shift, train, x)| == |x|
    ensures Denoised(ConstantNet(v), n, shift, train, x)[k] ==
            x[k] + Delta(Schedule(n, shift, train), train, 0) * v[k]
    ensures Denoised(ConstantNet(v), n, shift, train, x)[k] == x[k] - v[k] <==> n == 1 || v[k] == 0.0
  {
    DenoisedIsOneMove(ConstantNet(v), n, shift, train, x);
    ConstantMoves(v, x, Delta(Schedule(n, shift, train), train, 0), Schedule(n, shift, train)[1], k);
    FirstDelta(n, shift, train);
    Arrives(x[k], Delta(Schedule(n, shift, train), train, 0), v[k]);
  }

  lemma {:induction false} ConstantEuler(schedule: seq<real>, train: real, v: seq<real>, x: seq<real>, step: nat,
                                         k: nat)
    requires train > 0.0 && step < |schedule| && k < |x| == |v|
    ensures Euler(schedule, train, VelocityOf(ConstantNet(v)), x, step)[k] ==
            x[k] + v[k] * DeltaSum(schedule, train, step)
    decreases |schedule| - step
  {
    if step + 1 < |schedule| {
      ConstantEuler(schedule, train, v, x, step + 1, k);
      var y, d := Euler(schedule, train, VelocityOf(ConstantNet(v)), x, step + 1), Delta(schedule, train, step);
      ConstantMoves(v, y, d, schedule[step + 1], k);
      Drift(x[k], v[k], d, DeltaSum(schedule, train, step + 1));
    }
  }

  ghost predicate AlwaysEuler(n: nat, shift: real, train: real)
    requires Settings(n, shift, train)
  {
    forall net: Net, noise: seq<real> ::
      Denoised(net, n, shift, train, noise) == Euler(Schedule(n, shift, train), train, VelocityOf(net), noise, 0)
  }

  /** The graph computes the Euler recurrence over all steps, for all operators and noises, if and only if there
      is a single step.  For every larger number the constant velocity 1 on the latent [0] tells them apart. */
  lemma DenoisedIsEulerIff(n: nat, shift: real, train: real)
    requires Settings(n, shift, train)
    ensures AlwaysEuler(n, shift, train) <==> n == 1
    ensures n > 1 ==> Denoised(ConstantNet([1.0]), n, shift, train, [0.0]) !=
                      Euler(Schedule(n, shift, train), train, VelocityOf(ConstantNet([1.0])), [0.0], 0)
  {
    if n == 1 {
      forall net: Net, noise: seq<real>
        ensures Denoised(net, n, shift, train, noise) ==
                Euler(Schedule(n, shift, train), train, VelocityOf(net), noise, 0)
      {
        DenoisedIsOneMove(net, n, shift, train, noise);
        assert Euler(Schedule(n, shift, train), train, VelocityOf(net), noise, 1) == noise;
      }
    } else {
      ConstantArrivesIff(n, shift, train, [1.0], [0.0], 0);
      ScheduleClimbs(n, shift, train);
      ConstantEuler(Schedule(n, shift, train), train, [1.0], [0.0], 0, 0);
      DeltasTelescope(Schedule(n, shift, train), train, 0);
    }
  }

  /** A field that divides the distance to its target by the noise level hides the missing steps: a single move
      from the noise lands on the target for any number of steps. */
  lemma AimedMoveLands(n: nat, shift: real, train: real, target: seq<real>, x: seq<real>)
    requires Settings(n, shift, train) && |x| == |target|
    ensures Moved(x, Delta(Schedule(n, shift, train), train, 0), Towards(train, target),
                  Schedule(n, shift, train)[1]) == target
  {
    ScheduleEnds(n, shift, train);
    ScheduleStep(n, shift, train, 0);
    LevelPositive(Boundary(n, shift, train, 1), train);
    AimedMove(x, target, train, Boundary(n, shift, train, 1), Delta(Schedule(n, shift, train), train, 0));
  }

  lemma LevelPositive(t: real, train: real)
    requires t > 0.0 && train > 0.0
    ensures t / train > 0.0
  {
  }

  lemma AimedMove(x: seq<real>, target: seq<real>, train: real, t: real, d: real)
    requires train > 0.0 && t / train > 0.0 && d == -(t / train) && |x| == |target|
    ensures Moved(x, d, Towards(train, target), t) == target
  {
    forall k: nat | k < |x|
      ensures Moved(x, d, Towards(train, target), t)[k] == target[k]
    {
      AimedEntry(x[k], target[k], t / train, d);
    }
  }

  lemma AimedEntry(x: real, target: real, level: real, d: real)
    requires level > 0.0 && d == -level
    ensures x + d * ((x - target) / level) == target
  {
    assert level * ((x - target) / level) == x - target;
  }

  // ---------------------------------------------------------------- the graph the comments describe

  /** Every step's output expanded inside the loop, from the last step down to `from`. */
  function Chained(layers: nat, n: nat, from: nat): seq<Node>
    requires from <= n
    decreases n - from
  {
    if from == n then [] else Expand(layers, Chained(layers, n, from + 1), Updated(from))
  }

  lemma {:induction false} ChainedSteps(layers: nat, n: nat, from: nat, s: nat)
    requires s < from <= n
    ensures Without(Chained(layers, n, from), s)
    decreases n - from
  {
    if from < n {
      var order := Chained(layers, n, from + 1);
      ChainedSteps(layers, n, from + 1, s);
      ChainedSteps(layers, n, from + 1, from);
      ExpandUpdate(layers, order, from);
      forall m | m in StepNodes(layers, order, from)
        ensures !OfStep(m, s)
      {
        HiddenMembers(order, from, layers, m);
      }
    }
  }

  /** With the expansion inside the loop the same nodes compute the Euler recurrence over all steps. */
  lemma {:induction false} ChainedIsEuler(net: Net, n: nat, shift: real, train: real, noise: seq<real>, from: nat)
    requires Settings(n, shift, train) && from <= n
    ensures Run(net, StepsOf(n, shift, train), Machine(noise, map[]), Chained(net.layers, n, from)).x ==
            Euler(Schedule(n, shift, train), train, VelocityOf(net), noise, from)
    decreases n - from
  {
    if from < n {
      var c, start := StepsOf(n, shift, train), Machine(noise, map[]);
      var order := Chained(net.layers, n, from + 1);
      ChainedIsEuler(net, n, shift, train, noise, from + 1);
      ChainedSteps(net.layers, n, from + 1, from);
      ExpandUpdate(net.layers, order, from);
      RunConcat(net, c, start, order, StepNodes(net.layers, order, from));
      RunStep(net, c, Run(net, c, start, order), order, from);
    }
  }
}
