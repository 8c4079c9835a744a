/** The engine around the joint key/value buffers: graph and buffers survive from request to request and are
    rebuilt when the number of language tokens changes.  The proprioceptive state reaches the graph through a
    field that only predict writes; prepared inputs do not carry it. */
module LingBotEngine {
  import opened Common
  import opened LingBotKv

  /** Tokens of the prefix that do not depend on the instruction: views, frames around them, task tokens. */
  const FIXED_TOKENS := 214
  /** State tokens in front of the action chunk. */
  const STATE_TOKENS := 1

  // ---------------------------------------------------------------- the state that is uploaded

  /** Where each robot dimension goes in the canonical layout, and the two quantiles of each position. */
  datatype Layout = Layout(dims: nat, width: nat, place: seq<nat>, q01: seq<real>, q99: seq<real>)

  const GUARD := 0.000001

  ghost predicate ProperLayout(y: Layout) {
    && |y.place| == y.dims && |y.q01| == |y.q99| == y.width
    && (forall j :: 0 <= j < y.dims ==> y.place[j] < y.width)
    && (forall j :: 0 <= j < y.dims ==> y.q99[y.place[j]] - y.q01[y.place[j]] + GUARD != 0.0)
  }

  function Zeros(n: nat): (r: seq<real>)
    ensures |r| == n
  {
    seq(n, _ => 0.0)
  }

  function Bounded(y: Layout, raw: seq<real>, j: nat): real
    requires ProperLayout(y) && j < |raw| == y.dims
  {
    2.0 * (raw[j] - y.q01[y.place[j]]) / (y.q99[y.place[j]] - y.q01[y.place[j]] + GUARD) - 1.0
  }

  /** The first `count` dimensions in their places, zero elsewhere. */
  function Canonical(y: Layout, raw: seq<real>, count: nat): (r: seq<real>)
    requires ProperLayout(y) && count <= |raw| == y.dims
    ensures |r| == y.width
  {
    if count == 0 then Zeros(y.width)
    else Canonical(y, raw, count - 1)[y.place[count - 1] := Bounded(y, raw, count - 1)]
  }

  /** What a stash of the engine turns into: zeros unless it holds one value per dimension. */
  function Uploaded(y: Layout, stash: seq<real>): (r: seq<real>)
    requires ProperLayout(y)
    ensures |r| == y.width
  {
    if |stash| == y.dims then Canonical(y, stash, y.dims) else Zeros(y.width)
  }

  method NormaliseState(y: Layout, stash: seq<real>) returns (st: array<real>)
    requires ProperLayout(y)
    ensures fresh(st) && st[..] == Uploaded(y, stash)
  {
    st := new real[y.width](_ => 0.0);
    assert st[..] == Zeros(y.width);
    if |stash| == y.dims {
      for j := 0 to y.dims
        invariant st[..] == Canonical(y, stash, j)
      {
        var c := y.place[j];
        var denom := y.q99[c] - y.q01[c] + GUARD;
        st[c] := 2.0 * (stash[j] - y.q01[c]) / denom - 1.0;
      }
    }
  }

  /** A canonical value of a dimension in robot units, as the actions are de-normalised. */
  function Robot(y: Layout, c: nat, v: real): real
    requires ProperLayout(y) && c < y.width
  {
    (v + 1.0) * (y.q99[c] - y.q01[c] + GUARD) * 0.5 + y.q01[c]
  }

  lemma BoundedIsInverse(y: Layout, raw: seq<real>, j: nat)
    requires ProperLayout(y) && j < |raw| == y.dims
    ensures Robot(y, y.place[j], Bounded(y, raw, j)) == raw[j]
    ensures raw[j] == y.q01[y.place[j]] ==> Bounded(y, raw, j) == -1.0
    ensures raw[j] == y.q99[y.place[j]] + 0.000001 ==> Bounded(y, raw, j) == 1.0
  {
    var q, d := y.q01[y.place[j]], y.q99[y.place[j]] - y.q01[y.place[j]] + GUARD;
    Halved(raw[j] - q, d);
  }

  lemma Halved(x: real, d: real)
    requires d != 0.0
    ensures (2.0 * x / d) * d * 0.5 == x && 2.0 * 0.0 / d == 0.0 && 2.0 * d / d == 2.0
  {
  }

  lemma {:induction false} CanonicalElsewhere(y: Layout, raw: seq<real>, count: nat, c: nat)
    requires ProperLayout(y) && count <= |raw| == y.dims && c < y.width
    requires forall j :: 0 <= j < count ==> y.place[j] != c
    ensures Canonical(y, raw, count)[c] == 0.0
  {
    if count > 0 {
      CanonicalElsewhere(y, raw, count - 1, c);
    }
  }

  lemma {:induction false} CanonicalAt(y: Layout, raw: seq<real>, count: nat, j: nat)
    requires ProperLayout(y) && j < count <= |raw| == y.dims
    requires forall k :: j < k < count ==> y.place[k] != y.place[j]
    ensures Canonical(y, raw, count)[y.place[j]] == Bounded(y, raw, j)
  {
    if j < count - 1 {
      CanonicalAt(y, raw, count - 1, j);
    }
  }

  /** Position `c` of the uploaded state: a dimension that is placed there, and no later one over it, comes back in
      robot units; a position without a dimension is 0, and so is every position if the stash has the wrong size. */
  lemma UploadedAt(y: Layout, stash: seq<real>, c: nat, j: nat)
    requires ProperLayout(y) && c < y.width && j < y.dims
    ensures |stash| != y.dims || (forall k :: 0 <= k < y.dims ==> y.place[k] != c) ==> Uploaded(y, stash)[c] == 0.0
    ensures |stash| == y.dims && y.place[j] == c && (forall k :: j < k < y.dims ==> y.place[k] != c) ==>
              Robot(y, c, Uploaded(y, stash)[c]) == stash[j]
  {
    if |stash| == y.dims {
      if forall k :: 0 <= k < y.dims ==> y.place[k] != c {
        CanonicalElsewhere(y, stash, y.dims, c);
      }
      if y.place[j] == c && (forall k :: j < k < y.dims ==> y.place[k] != c) {
        CanonicalAt(y, stash, y.dims, j);
        BoundedIsInverse(y, stash, j);
      }
    }
  }

  // ---------------------------------------------------------------- requests

  /** A request: its language tokens, the raw state if it brings one, and what its inputs make of every node once
      a state has been uploaded. */
  datatype Request<!R> = Request(nLang: nat, state: Option<seq<real>>, ops: seq<real> -> Ops<R>)

  /** What prepare hands to compute: everything but the state. */
  datatype Prepared<!R> = Prepared(ok: bool, nLang: nat, ops: seq<real> -> Ops<R>)

  ghost predicate ProperOps<R(!new)>(chunk: nat, nLang: nat, ops: seq<real> -> Ops<R>) {
    forall st: seq<real> ::
      ShapesOk(ops(st)) && ops(st).prefix == FIXED_TOKENS + nLang && ops(st).suffix == STATE_TOKENS + chunk
  }

  ghost predicate Proper<R(!new)>(y: Layout, chunk: nat, r: Request<R>) {
    ProperOps(chunk, r.nLang, r.ops) && (r.state.Some? ==> |r.state.value| == y.dims)
  }

  function Stash(state: Option<seq<real>>): seq<real> {
    if state.Some? then state.value else []
  }

  /** What a graph that concatenates, built for these tokens alone, returns on an uploaded state. */
  function Fresh<R>(c: Config, ops: seq<real> -> Ops<R>, st: seq<real>): seq<R> {
    Concat(c, ops(st), Latent(c.steps))
  }

  /** The answer a request is owed: computed from its own state, or from zeros if it brings none. */
  function Own<R>(c: Config, y: Layout, r: Request<R>): seq<R>
    requires ProperLayout(y)
  {
    Fresh(c, r.ops, Uploaded(y, Stash(r.state)))
  }

  /** What the environment does to a call; new buffers hold whatever the memory held. */
  datatype Fault = Fine | NoContext | NoGraphMemory | ComputeFails

  predicate Reuses(noCache: bool, cached: Option<nat>, nLang: nat) {
    !noCache && cached == Some(nLang)
  }

  predicate BuildFails(noCache: bool, cached: Option<nat>, nLang: nat, f: Fault) {
    !Reuses(noCache, cached, nLang) && (f.NoContext? || f.NoGraphMemory?)
  }

  /** The token count of the living graph after a computation. */
  function CachedAfter(noCache: bool, cached: Option<nat>, nLang: nat, f: Fault): Option<nat> {
    if BuildFails(noCache, cached, nLang, f) then None else Some(nLang)
  }

  /** A computation answers nothing when building or computing fails, else from the state in the stash. */
  function Reply<R>(c: Config, y: Layout, noCache: bool, cached: Option<nat>, stash: seq<real>, p: Prepared<R>,
                    f: Fault): Option<seq<R>>
    requires ProperLayout(y)
  {
    if BuildFails(noCache, cached, p.nLang, f) || f.ComputeFails? then None
    else Some(Fresh(c, p.ops, Uploaded(y, stash)))
  }

  /** Preparing refuses requests without language tokens and whenever vision or embedding lookup fails. */
  function PreparedOf<R>(r: Request<R>, inputsOk: bool): Prepared<R> {
    Prepared(inputsOk && r.nLang >= 1, r.nLang, r.ops)
  }

  class Engine<R(!new)> {
    const cfg: Config
    const layout: Layout
    const chunk: nat
    const noCache: bool
    var gf: Option<seq<Node>>
    var buffers: Buffers<R>
    var cLang: int
    var lastState: seq<real>

    ghost predicate Sized(nLang: nat)
      reads this
    {
      forall side, l: nat :: l < cfg.layers ==>
        (side, l) in buffers && |buffers[(side, l)]| == 214 + nLang + 1 + chunk
    }

    ghost predicate Valid()
      reads this
    {
      && ProperLayout(layout)
      && (gf.Some? ==>
            WellOrdered(cfg, gf.value) && Latent(cfg.steps) in gf.value && cLang >= 0 && Sized(cLang))
    }

    /** The token count of the living graph. */
    ghost function Cached(): Option<nat>
      reads this
      requires Valid()
    {
      if gf.Some? then Some(cLang) else None
    }

    constructor (c: Config, y: Layout, rows: nat, off: bool)
      requires ProperLayout(y)
      ensures Valid() && cfg == c && layout == y && chunk == rows && noCache == off
      ensures Cached() == None && lastState == []
    {
      cfg, layout, chunk, noCache := c, y, rows, off;
      gf, buffers, cLang, lastState := None, map[], -1, [];
    }

    method Rebuild(nLang: nat, ops: Ops<R>, f: Fault, memory: Buffers<R>) returns (ok: bool)
      requires Valid() && ops.prefix == FIXED_TOKENS + nLang && ops.suffix == STATE_TOKENS + chunk
      requires BuffersOk(cfg, ops, memory)
      modifies this`gf, this`buffers, this`cLang
      ensures Valid() && ok == !(f.NoContext? || f.NoGraphMemory?)
      ensures Cached() == if ok then Some(nLang) else None
    {
      gf, buffers := None, map[];
      if f.NoContext? {
        return false;
      }
      var order := EmitGraph(cfg);
      if f.NoGraphMemory? {
        return false;
      }
      gf, buffers, cLang := Some(order), memory, nLang;
      ok := true;
    }

    /** Execute the graph node by node on the buffers as the last request left them. */
    method RunGraph(ops: Ops<R>) returns (x: seq<R>)
      requires Valid() && gf.Some? && ShapesOk(ops)
      requires ops.prefix == FIXED_TOKENS + cLang && ops.suffix == STATE_TOKENS + chunk
      modifies this`buffers
      ensures Valid() && Sized(cLang)
      ensures x == Concat(cfg, ops, Latent(cfg.steps))
    {
      var order, m := gf.value, Machine(map[], buffers);
      ghost var start := buffers;
      for p := 0 to |order|
        invariant m == Run(cfg, ops, Machine(map[], start), order[..p])
      {
        assert order[..p + 1][..p] == order[..p];
        m := Execute(cfg, ops, m, order[p]);
      }
      assert order[..|order|] == order;
      CachedGraphIsConcat(cfg, ops, start, order, Latent(cfg.steps));
      RunTracks(cfg, ops, start, order, |order|);
      buffers := m.buffers;
      x := Read(m, Latent(cfg.steps));
    }

    /** Second phase.  Graph and buffers never show, whatever earlier requests left in them; the state is the one
        in the stash, whosever it is. */
    method Compute(p: Prepared<R>, f: Fault, memory: Buffers<R>) returns (out: Option<seq<R>>, rebuilt: bool)
      requires Valid() && p.ok && ProperOps(chunk, p.nLang, p.ops)
      requires forall st: seq<real> :: BuffersOk(cfg, p.ops(st), memory)
      modifies this`gf, this`buffers, this`cLang
      ensures Valid()
      ensures rebuilt == !Reuses(noCache, old(Cached()), p.nLang)
      ensures out == Reply(cfg, layout, noCache, old(Cached()), lastState, p, f)
      ensures Cached() == CachedAfter(noCache, old(Cached()), p.nLang, f)
    {
      rebuilt := noCache || gf.None? || cLang != p.nLang;
      if rebuilt {
        var ok := Rebuild(p.nLang, p.ops([]), f, memory);
        if !ok {
          return None, rebuilt;
        }
      }
      var st := NormaliseState(layout, lastState);
      if f.ComputeFails? {
        return None, rebuilt;
      }
      var x := RunGraph(p.ops(st[..]));
      out := Some(x);
    }

    /** First phase: the state of the request is dropped. */
    method Prepare(r: Request<R>, inputsOk: bool) returns (p: Prepared<R>)
      ensures p == PreparedOf(r, inputsOk)
    {
      p := Prepared(inputsOk && r.nLang >= 1, r.nLang, r.ops);
    }

    /** Both phases in one call.  The state is stashed first, also when preparing fails. */
    method Predict(r: Request<R>, inputsOk: bool, f: Fault, memory: Buffers<R>) returns (out: Option<seq<R>>)
      requires Valid() && Proper(layout, chunk, r)
      requires forall st: seq<real> :: BuffersOk(cfg, r.ops(st), memory)
      modifies this
      ensures Valid() && lastState == Stash(r.state)
      ensures Cached() == if inputsOk && r.nLang >= 1 then CachedAfter(noCache, old(Cached()), r.nLang, f)
                          else old(Cached())
      ensures out == if inputsOk && r.nLang >= 1 && !BuildFails(noCache, old(Cached()), r.nLang, f)
                        && !f.ComputeFails?
                     then Some(Own(cfg, layout, r)) else None
    {
      lastState := [];
      if r.state.Some? {
        lastState := r.state.value;
      }
      var p := Prepare(r, inputsOk);
      if !p.ok {
        return None;
      }
      var rebuilt;
      out, rebuilt := Compute(p, f, memory);
    }
  }

  // ---------------------------------------------------------------- whose state an answer shows

  /** Operators under which the answer shows the uploaded state. */
  function Showing(prefix: nat, suffix: nat): seq<real> -> Ops<seq<real>> {
    (st: seq<real>) => Ops((n: Node, args: seq<seq<seq<real>>>) =>
      if n.VlmKV? then seq(prefix, _ => []) else if n.SuffixKV? then seq(suffix, _ => []) else [st], prefix, suffix)
  }

  lemma ShowingIsProper(chunk: nat, nLang: nat)
    ensures ProperOps(chunk, nLang, Showing(FIXED_TOKENS + nLang, STATE_TOKENS + chunk))
  {
  }

  lemma ShowingShows(c: Config, prefix: nat, suffix: nat, st: seq<real>)
    ensures Fresh(c, Showing(prefix, suffix), st) == [st]
  {
  }

  /** A compute answers its own request for all operators if and only if the stash uploads to the same state as
      the request's own would. */
  lemma ComputeRightIff(c: Config, y: Layout, chunk: nat, stash: seq<real>, nLang: nat, state: Option<seq<real>>)
    requires ProperLayout(y)
    ensures (forall ops: seq<real> -> Ops<seq<real>> | ProperOps(chunk, nLang, ops) ::
               Fresh(c, ops, Uploaded(y, stash)) == Own(c, y, Request(nLang, state, ops))) <==>
            Uploaded(y, stash) == Uploaded(y, Stash(state))
  {
    var ops := Showing(FIXED_TOKENS + nLang, STATE_TOKENS + chunk);
    ShowingIsProper(chunk, nLang);
    ShowingShows(c, FIXED_TOKENS + nLang, STATE_TOKENS + chunk, Uploaded(y, stash));
    ShowingShows(c, FIXED_TOKENS + nLang, STATE_TOKENS + chunk, Uploaded(y, Stash(state)));
  }

  // ---------------------------------------------------------------- an engine at work

  /** One question to the engine, by predict or by the two phases one after the other. */
  datatype Ask<!R> = Ask(request: Request<R>, twoPhase: bool, memory: Buffers<R>)

  /** The state of the last predict; nothing before the first. */
  function LastStash<R>(asks: seq<Ask<R>>): seq<real> {
    if asks == [] then []
    else
      var last := asks[|asks| - 1];
      if last.twoPhase then LastStash(asks[..|asks| - 1]) else Stash(last.request.state)
  }

  /** The answer to question `i`: a predict answers its request, a pair with the state of the predict before. */
  function Expected<R>(c: Config, y: Layout, asks: seq<Ask<R>>, i: nat): Option<seq<R>>
    requires ProperLayout(y) && i < |asks|
  {
    var r := asks[i].request;
    if r.nLang == 0 then None
    else if asks[i].twoPhase then Some(Fresh(c, r.ops, Uploaded(y, LastStash(asks[..i]))))
    else Some(Own(c, y, r))
  }

  ghost predicate ProperAsk<R(!new)>(c: Config, y: Layout, chunk: nat, a: Ask<R>) {
    Proper(y, chunk, a.request) && forall st: seq<real> :: BuffersOk(c, a.request.ops(st), a.memory)
  }

  method Put<R(!new)>(engine: Engine<R>, a: Ask<R>) returns (out: Option<seq<R>>)
    requires engine.Valid() && ProperAsk(engine.cfg, engine.layout, engine.chunk, a)
    modifies engine
    ensures engine.Valid()
    ensures engine.lastState == if a.twoPhase then old(engine.lastState) else Stash(a.request.state)
    ensures out == if a.request.nLang == 0 then None
                   else Some(Fresh(engine.cfg, a.request.ops, Uploaded(engine.layout, engine.lastState)))
  {
    if a.twoPhase {
      var p := engine.Prepare(a.request, true);
      if !p.ok {
        return None;
      }
      var rebuilt;
      out, rebuilt := engine.Compute(p, Fine, a.memory);
    } else {
      out := engine.Predict(a.request, true, Fine, a.memory);
    }
  }

  lemma LastStashStep<R>(asks: seq<Ask<R>>, i: nat)
    requires i < |asks|
    ensures LastStash(asks[..i + 1]) ==
            if asks[i].twoPhase then LastStash(asks[..i]) else Stash(asks[i].request.state)
  {
    assert asks[..i + 1][..i] == asks[..i];
  }

  /** A new engine asked any questions in any order: every predict answers its own request, every pair answers
      with the state of the last predict before it, zeros if there was none. */
  method Serve<R(!new)>(c: Config, y: Layout, chunk: nat, noCache: bool, asks: seq<Ask<R>>)
    returns (outs: seq<Option<seq<R>>>)
    requires ProperLayout(y) && forall i :: 0 <= i < |asks| ==> ProperAsk(c, y, chunk, asks[i])
    ensures |outs| == |asks| && forall i: nat :: i < |asks| ==> outs[i] == Expected(c, y, asks, i)
  {
    outs := [];
    var engine := new Engine(c, y, chunk, noCache);
    for i := 0 to |asks|
      invariant engine.Valid() && engine.cfg == c && engine.layout == y && engine.chunk == chunk
      invariant engine.lastState == LastStash(asks[..i])
      invariant |outs| == i && forall k: nat :: k < i ==> outs[k] == Expected(c, y, asks, k)
    {
      LastStashStep(asks, i);
      var out := Put(engine, asks[i]);
      outs := outs + [out];
    }
  }

  /** In any list of questions a pair is answered right for all operators if and only if the last predict before
      it brought the same uploaded state. */
  lemma PairRightIff(c: Config, y: Layout, chunk: nat, asks: seq<Ask<seq<real>>>, nLang: nat,
                     state: Option<seq<real>>, memory: Buffers<seq<real>>)
    requires ProperLayout(y) && nLang >= 1
    ensures (forall ops: seq<real> -> Ops<seq<real>> | ProperOps(chunk, nLang, ops) ::
               var r := Request(nLang, state, ops);
               Expected(c, y, asks + [Ask(r, true, memory)], |asks|) == Some(Own(c, y, r))) <==>
            Uploaded(y, LastStash(asks)) == Uploaded(y, Stash(state))
  {
    forall ops: seq<real> -> Ops<seq<real>>
      ensures Expected(c, y, asks + [Ask(Request(nLang, state, ops), true, memory)], |asks|) ==
              Some(Fresh(c, ops, Uploaded(y, LastStash(asks))))
    {
      assert (asks + [Ask(Request(nLang, state, ops), true, memory)])[..|asks|] == asks;
    }
    ComputeRightIff(c, y, chunk, LastStash(asks), nLang, state);
  }

  lemma {:induction false} PairsLeaveNoStash<R>(asks: seq<Ask<R>>)
    requires forall i :: 0 <= i < |asks| ==> asks[i].twoPhase
    ensures LastStash(asks) == []
  {
    if asks != [] {
      PairsLeaveNoStash(asks[..|asks| - 1]);
    }
  }

  /** An engine that is only asked in two phases, as in the asynchronous server, computes every request from the
      state zero. */
  lemma PairsAloneAreStateless<R>(y: Layout, asks: seq<Ask<R>>)
    requires ProperLayout(y) && forall i :: 0 <= i < |asks| ==> asks[i].twoPhase
    ensures Uploaded(y, LastStash(asks)) == Zeros(y.width)
  {
    PairsLeaveNoStash(asks);
  }

  lemma BoundedDiffer(y: Layout, a: seq<real>, b: seq<real>, j: nat)
    requires ProperLayout(y) && j < |a| == |b| == y.dims && a[j] != b[j]
    ensures Bounded(y, a, j) != Bounded(y, b, j)
  {
    var q, d := y.q01[y.place[j]], y.q99[y.place[j]] - y.q01[y.place[j]] + GUARD;
    assert (2.0 * (a[j] - q) / d) * d == 2.0 * (a[j] - q) && (2.0 * (b[j] - q) / d) * d == 2.0 * (b[j] - q);
  }

  /** Every robot with at least one dimension has two states that upload differently: a predict with one and a pair
      with the other make a failing sequence. */
  lemma StatesDiffer(y: Layout) returns (a: seq<real>, b: seq<real>)
    requires ProperLayout(y) && y.dims >= 1
    ensures |a| == |b| == y.dims && Uploaded(y, a) != Uploaded(y, b)
  {
    var j := y.dims - 1;
    a := Zeros(y.dims);
    b := a[j := 1.0];
    BoundedDiffer(y, a, b, j);
    assert Canonical(y, a, y.dims)[y.place[j]] != Canonical(y, b, y.dims)[y.place[j]];
  }
}
