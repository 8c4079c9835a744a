/** The graph cache of the pi0.5 engine: one compute graph survives from call to call and is rebuilt when its
    keys differ from the request.  Every call is related to what rebuilding every time would return. */
module Pi05Cache {
  import opened Common
  import opened Pi05Guided
  import opened Pi05Rtc

  /** Model constants, environment settings and the neural operators. */
  datatype Config = Config(
    hidden: nat, expertDim: nat, chunk: nat, maxDim: nat, realDim: nat, steps: nat,
    noCache: bool, flash: bool,
    rtc: bool, horizon: nat, delay: nat, maxG: real, schedule: Schedule, inpaint: bool,
    joints: seq<Norm>,
    timeEmb: real -> seq<real>,
    // image rows, text rows, prefix and suffix positions, mask, time embeddings
    expert: (seq<real>, seq<real>, seq<nat>, seq<nat>, seq<real>, seq<seq<real>>) -> Expert)

  ghost predicate ProperConfig(c: Config) {
    && c.maxDim >= 1 && c.realDim <= c.maxDim && c.steps >= 1 && c.horizon >= 1 && c.maxG > 0.0
    && (c.schedule.Exponential? ==> c.schedule.expm1(1.0) != 0.0)
    && |c.joints| == c.realDim && (forall j :: 0 <= j < c.realDim ==> Regular(c.joints[j]))
    && (forall t: real :: |c.timeEmb(t)| == c.expertDim)
  }

  function Flat(c: Config): nat {
    c.chunk * c.maxDim
  }

  /** A prepared request; `draw` is what the random source would deliver if the noise has the wrong size. */
  datatype Prepared = Prepared(nImg: nat, img: seq<real>, nLang: nat, lang: seq<real>,
                               noise: seq<real>, draw: seq<real>, nPrev: nat, prev: seq<real>)

  /** Sizes as the preparation leaves them. */
  predicate ProperInput(c: Config, p: Prepared) {
    && |p.img| == p.nImg * c.hidden && |p.lang| == p.nLang * c.hidden && |p.draw| == Flat(c)
    && |p.prev| == p.nPrev * c.realDim
  }

  /** Rows past the chunk that seeding the noise writes; the host vector has no room for them. */
  predicate SeedOverruns(c: Config, p: Prepared) {
    c.inpaint && c.realDim >= 1 && MinNat(c.horizon, p.nPrev) > c.chunk
  }

  /** Seeding or weighing the previous chunk would write outside its host vector. */
  predicate Overruns(c: Config, p: Prepared) {
    SeedOverruns(c, p) || (c.rtc && MinNat(c.horizon, p.nPrev) > c.chunk)
  }

  // ---------------------------------------------------------------- what a fresh graph returns

  function Zeros(n: nat): (r: seq<real>) {
    seq(n, (k: nat) => 0.0)
  }

  function Positions(from: nat, n: nat): (r: seq<nat>) {
    seq(n, (k: nat) => from + k)
  }

  /** Entry (t, j) of the previous chunk in the latent. */
  function PrevEntry(joints: seq<Norm>, p: Prepared, t: nat, j: nat): real {
    if j < |joints| && Regular(joints[j]) && Cell(t, j, |joints|) < |p.prev|
    then Normalise(joints[j], p.prev[Cell(t, j, |joints|)])
    else 0.0
  }

  function ReadPrev(joints: seq<Norm>, p: Prepared): (nat, nat, real) -> real {
    (t: nat, j: nat, was: real) => PrevEntry(joints, p, t, j)
  }

  function NoiseOf(c: Config, p: Prepared): seq<real> {
    if |p.noise| == Flat(c) then p.noise else p.draw
  }

  function StartOf(c: Config, p: Prepared): (r: seq<real>)
    requires c.maxDim >= 1 && |p.draw| == Flat(c)
    ensures |r| == Flat(c)
  {
    if c.inpaint
    then Rewritten(NoiseOf(c, p), c.maxDim, PrefixOf(c.horizon, 0, p.nPrev).soft, c.realDim, ReadPrev(c.joints, p))
    else NoiseOf(c, p)
  }

  function PrevOf(c: Config, p: Prepared): (r: seq<real>)
    requires c.maxDim >= 1
    ensures |r| == Flat(c)
  {
    Rewritten(Zeros(Flat(c)), c.maxDim, MinNat(p.nPrev, c.chunk), c.realDim, ReadPrev(c.joints, p))
  }

  function MinNat(a: nat, b: nat): nat {
    if a <= b then a else b
  }

  function RowWeight(c: Config, p: Prepared): (nat, nat, real) -> real
    requires c.schedule.Exponential? ==> c.schedule.expm1(1.0) != 0.0
  {
    (t: nat, j: nat, was: real) => Weight(c.schedule, PrefixOf(c.horizon, c.delay, p.nPrev), t)
  }

  function WeightsOf(c: Config, p: Prepared): (r: seq<real>)
    requires c.maxDim >= 1 && (c.schedule.Exponential? ==> c.schedule.expm1(1.0) != 0.0)
    ensures |r| == Flat(c)
  {
    Rewritten(Zeros(Flat(c)), c.maxDim, c.chunk, c.realDim, RowWeight(c, p))
  }

  function GuideOf(c: Config, p: Prepared): (g: Guide)
    requires c.maxDim >= 1 && (c.schedule.Exponential? ==> c.schedule.expm1(1.0) != 0.0)
  {
    if c.rtc then Toward(PrevOf(c, p), WeightsOf(c, p), c.maxG) else Off
  }

  function MaskOf(c: Config, p: Prepared): seq<real> {
    if c.flash then [] else Zeros((p.nImg + p.nLang + c.chunk) * c.chunk)
  }

  function TimesOf(c: Config): seq<seq<real>> {
    seq(c.steps, (s: nat) requires s < c.steps => c.timeEmb(Time(s, c.steps)))
  }

  function ExpertOf(c: Config, p: Prepared): Expert {
    c.expert(p.img, p.lang, Positions(0, p.nImg + p.nLang), Positions(p.nImg + p.nLang, c.chunk), MaskOf(c, p),
             TimesOf(c))
  }

  function ToRobot(joints: seq<Norm>): (nat, nat, real) -> real {
    (t: nat, j: nat, was: real) => if j < |joints| then Denormalise(joints[j], was) else was
  }

  /** The actions of a graph built for this very request. */
  ghost function Fresh(c: Config, p: Prepared): seq<real>
    requires ProperConfig(c) && ProperInput(c, p)
  {
    var latent := Trajectory(ExpertOf(c, p), c.steps, GuideOf(c, p), StartOf(c, p), c.steps);
    Rewritten(latent, c.maxDim, c.chunk, c.realDim, ToRobot(c.joints))
  }

  // ---------------------------------------------------------------- what the graph is fed

  /** Cell (t, j) of the weights: the weight of row `t` on the robot's dimensions, 0 on the padding. */
  lemma WeightCell(c: Config, p: Prepared, t: nat, j: nat) returns (w: real)
    requires ProperConfig(c) && t < c.chunk && j < c.maxDim
    ensures Weighs(c.schedule, c.horizon, c.delay, p.nPrev, t, w)
    ensures Proper(c.schedule) ==> Graded(c.horizon, c.delay, p.nPrev, t, w)
    ensures Cell(t, j, c.maxDim) < Flat(c)
    ensures WeightsOf(c, p)[Cell(t, j, c.maxDim)] == if j < c.realDim then w else 0.0
  {
    w := Weight(c.schedule, PrefixOf(c.horizon, c.delay, p.nPrev), t);
    RequestWeighs(c.schedule, c.horizon, c.delay, p.nPrev, t);
    if Proper(c.schedule) {
      RequestFalls(c.schedule, c.horizon, c.delay, p.nPrev, t);
    }
    CellInside(t, j, c.maxDim, c.chunk);
    RewrittenAt(Zeros(Flat(c)), c.maxDim, c.chunk, c.realDim, RowWeight(c, p), t, j);
  }

  /** Cell (t, j) of the previous chunk in the latent: normalised where it has a row, 0 elsewhere. */
  lemma PrevCell(c: Config, p: Prepared, t: nat, j: nat)
    requires ProperConfig(c) && ProperInput(c, p) && t < c.chunk && j < c.maxDim
    ensures Cell(t, j, c.maxDim) < Flat(c)
    ensures t < p.nPrev && j < c.realDim ==> Cell(t, j, c.realDim) < |p.prev|
    ensures PrevOf(c, p)[Cell(t, j, c.maxDim)] ==
            if t < p.nPrev && j < c.realDim then Normalise(c.joints[j], p.prev[Cell(t, j, c.realDim)]) else 0.0
  {
    CellInside(t, j, c.maxDim, c.chunk);
    if t < p.nPrev && j < c.realDim {
      CellInside(t, j, c.realDim, p.nPrev);
    }
    RewrittenAt(Zeros(Flat(c)), c.maxDim, MinNat(p.nPrev, c.chunk), c.realDim, ReadPrev(c.joints, p), t, j);
  }

  /** Cell (t, j) of the start: with inpainting the rows of the previous chunk up to the horizon, elsewhere the
      noise of the request, or the drawn noise if its own has the wrong size. */
  lemma StartCell(c: Config, p: Prepared, t: nat, j: nat)
    requires ProperConfig(c) && ProperInput(c, p) && t < c.chunk && j < c.maxDim
    ensures Cell(t, j, c.maxDim) < Flat(c) == |p.draw|
    ensures t < p.nPrev && j < c.realDim ==> Cell(t, j, c.realDim) < |p.prev|
    ensures StartOf(c, p)[Cell(t, j, c.maxDim)] ==
            if c.inpaint && t < c.horizon && t < p.nPrev && j < c.realDim
            then Normalise(c.joints[j], p.prev[Cell(t, j, c.realDim)])
            else if |p.noise| == Flat(c) then p.noise[Cell(t, j, c.maxDim)]
            else p.draw[Cell(t, j, c.maxDim)]
  {
    CellInside(t, j, c.maxDim, c.chunk);
    if t < p.nPrev && j < c.realDim {
      CellInside(t, j, c.realDim, p.nPrev);
    }
    if c.inpaint {
      RewrittenAt(NoiseOf(c, p), c.maxDim, PrefixOf(c.horizon, 0, p.nPrev).soft, c.realDim, ReadPrev(c.joints, p),
                  t, j);
    }
  }

  /** The expert sees the request's own rows, positions that count up from the first image token through the
      suffix, an open mask where there is one, and the embeddings of the times 1, 1 - 1/n, .., 1/n. */
  lemma ExpertSees(c: Config, p: Prepared)
    returns (prefix: seq<nat>, suffix: seq<nat>, mask: seq<real>, times: seq<seq<real>>)
    requires ProperConfig(c)
    ensures ExpertOf(c, p) == c.expert(p.img, p.lang, prefix, suffix, mask, times)
    ensures |prefix| == p.nImg + p.nLang && forall k :: 0 <= k < |prefix| ==> prefix[k] == k
    ensures |suffix| == c.chunk && forall k :: 0 <= k < |suffix| ==> suffix[k] == p.nImg + p.nLang + k
    ensures |mask| == (if c.flash then 0 else (p.nImg + p.nLang + c.chunk) * c.chunk)
    ensures forall k :: 0 <= k < |mask| ==> mask[k] == 0.0
    ensures |times| == c.steps
    ensures forall s: nat :: s < c.steps ==> times[s] == c.timeEmb(1.0 - s as real / c.steps as real)
  {
    prefix, suffix := Positions(0, p.nImg + p.nLang), Positions(p.nImg + p.nLang, c.chunk);
    mask, times := MaskOf(c, p), TimesOf(c);
  }

  // ---------------------------------------------------------------- host buffers

  lemma NothingRewritten(base: seq<real>, width: nat, cols: nat, f: (nat, nat, real) -> real)
    requires width >= 1
    ensures Rewritten(base, width, 0, cols, f) == base
  {
  }

  ghost predicate Agree(f: (nat, nat, real) -> real, g: (nat, nat, real) -> real, rows: nat, cols: nat) {
    forall t: nat, j: nat, x: real | t < rows && j < cols :: f(t, j, x) == g(t, j, x)
  }

  lemma SameEntry(f: (nat, nat, real) -> real, g: (nat, nat, real) -> real, rows: nat, cols: nat,
                  t: nat, j: nat, x: real)
    requires Agree(f, g, rows, cols)
    ensures (if t < rows && j < cols then f(t, j, x) else x) == (if t < rows && j < cols then g(t, j, x) else x)
  {
  }

  lemma SameRewrite(base: seq<real>, width: nat, rows: nat, cols: nat,
                    f: (nat, nat, real) -> real, g: (nat, nat, real) -> real)
    requires width >= 1 && Agree(f, g, rows, cols)
    ensures Rewritten(base, width, rows, cols, f) == Rewritten(base, width, rows, cols, g)
  {
    var a, b := Rewritten(base, width, rows, cols, f), Rewritten(base, width, rows, cols, g);
    forall k: nat | k < |base|
      ensures a[k] == b[k]
    {
      CellOf(k, width);
      SameEntry(f, g, rows, cols, k / width, k % width, base[k]);
    }
  }

  method HostStart(c: Config, p: Prepared) returns (x0h: array<real>, inside: bool)
    requires ProperConfig(c) && ProperInput(c, p)
    ensures inside <==> !SeedOverruns(c, p)
    ensures fresh(x0h) && x0h[..] == StartOf(c, p)
  {
    var noise := NoiseOf(c, p);
    x0h, inside := new real[Flat(c)]((k: nat) requires k < |noise| => noise[k]), true;
    assert x0h[..] == noise;
    if c.inpaint && p.nPrev > 0 {
      var rows := if c.horizon <= p.nPrev then c.horizon else p.nPrev;
      FitsIff(c.chunk, c.maxDim, rows, c.realDim);
      inside := RewriteRows(x0h, c.maxDim, rows, c.realDim, ReadPrev(c.joints, p));
    } else {
      NothingRewritten(noise, c.maxDim, c.realDim, ReadPrev(c.joints, p));
    }
  }

  method HostPrev(c: Config, p: Prepared) returns (prevh: array<real>)
    requires ProperConfig(c) && ProperInput(c, p)
    ensures fresh(prevh) && prevh[..] == PrevOf(c, p)
  {
    prevh := new real[Flat(c)](_ => 0.0);
    assert prevh[..] == Zeros(Flat(c));
    if p.nPrev > 0 {
      var inside := RewriteRows(prevh, c.maxDim, MinNat(p.nPrev, c.chunk), c.realDim, ReadPrev(c.joints, p));
      FitsIff(c.chunk, c.maxDim, MinNat(p.nPrev, c.chunk), c.realDim);
      assert inside;
    } else {
      NothingRewritten(Zeros(Flat(c)), c.maxDim, c.realDim, ReadPrev(c.joints, p));
    }
  }

  method HostWeights(c: Config, p: Prepared) returns (wgh: array<real>, inside: bool)
    requires ProperConfig(c) && ProperInput(c, p)
    ensures inside <==> MinNat(c.horizon, p.nPrev) <= c.chunk
    ensures fresh(wgh) && (inside ==> wgh[..] == WeightsOf(c, p))
  {
    wgh, inside := new real[Flat(c)](_ => 0.0), true;
    assert wgh[..] == Zeros(Flat(c));
    if p.nPrev > 0 {
      var sched: array<real>;
      sched, inside := PrefixWeights(c.schedule, c.horizon, c.delay, p.nPrev, c.chunk);
      if inside {
        var row := sched[..];
        var f := (t: nat, j: nat, was: real) => if t < |row| then row[t] else 0.0;
        SameRewrite(Zeros(Flat(c)), c.maxDim, c.chunk, c.realDim, f, RowWeight(c, p));
        FitsIff(c.chunk, c.maxDim, c.chunk, c.realDim);
        inside := RewriteRows(wgh, c.maxDim, c.chunk, c.realDim, f);
      }
    } else {
      ZeroWeights(c, p);
    }
  }

  /** Without a previous chunk every weight is 0. */
  lemma ZeroWeights(c: Config, p: Prepared)
    requires ProperConfig(c) && p.nPrev == 0
    ensures WeightsOf(c, p) == Zeros(Flat(c))
  {
  }

  // ---------------------------------------------------------------- the cached graph

  /** A tensor of context `ctx`; its contents are whatever was last written. */
  datatype Tensor<T> = Null | Tensor(ctx: nat, extent: nat, data: seq<T>)

  predicate Ready<T>(t: Tensor<T>, ctx: nat, extent: nat) {
    t.Tensor? && t.ctx == ctx && t.extent == extent
  }

  /** A device upload takes as many values as the tensor holds; the tensor's context must be alive. */
  function Upload<T>(t: Tensor<T>, alive: Option<nat>, host: seq<T>): (r: Tensor<T>)
    requires t.Tensor? && alive == Some(t.ctx) && t.extent <= |host|
  {
    t.(data := host[..t.extent])
  }

  /** What the environment does to a call. */
  datatype Fault = Fine | NoContext | NoGraphMemory | ComputeFails

  datatype Graph = Graph(ctx: nat, nImg: nat, nLang: nat, rtc: bool)

  /** All that later calls can see of the cache. */
  datatype Cached = Empty | Built(nImg: nat, nLang: nat)

  predicate Reuses(c: Config, a: Cached, p: Prepared) {
    c.rtc && !c.noCache && a == Built(p.nImg, p.nLang)
  }

  predicate BuildFails(c: Config, a: Cached, p: Prepared, f: Fault) {
    !Reuses(c, a, p) && (f.NoContext? || f.NoGraphMemory?)
  }

  function After(c: Config, a: Cached, p: Prepared, f: Fault): Cached {
    if BuildFails(c, a, p, f) then Empty else Built(p.nImg, p.nLang)
  }

  /** What a call comes to: no answer, a write outside a host vector, or the actions. */
  datatype Outcome = Failed | Overrun | Actions(values: seq<real>)

  /** Building fails first, then the uploads overrun, then computing fails; else the answer is a fresh graph's. */
  ghost function Reply(c: Config, a: Cached, p: Prepared, f: Fault): Outcome
    requires ProperConfig(c) && ProperInput(c, p)
  {
    if BuildFails(c, a, p, f) then Failed
    else if Overruns(c, p) then Overrun
    else if f.ComputeFails? then Failed
    else Actions(Fresh(c, p))
  }

  /** The least request with a previous chunk one row longer than the chunk. */
  function LongPrev(c: Config): Prepared {
    Prepared(0, [], 0, [], [], Zeros(Flat(c)), c.chunk + 1, Zeros((c.chunk + 1) * c.realDim))
  }

  /** No request overruns exactly when the horizon fits the chunk or the previous chunk is not used; for all other
      settings `LongPrev` overruns, whatever the cache holds. */
  lemma NeverOverrunsIff(c: Config, a: Cached)
    requires ProperConfig(c)
    ensures (forall p: Prepared | ProperInput(c, p) :: Reply(c, a, p, Fine) != Overrun) <==>
            c.horizon <= c.chunk || !(c.rtc || (c.inpaint && c.realDim >= 1))
    ensures ProperInput(c, LongPrev(c))
    ensures Reply(c, a, LongPrev(c), Fine) == Overrun <==>
            c.horizon > c.chunk && (c.rtc || (c.inpaint && c.realDim >= 1))
  {
    assert MinNat(c.horizon, LongPrev(c).nPrev) == MinNat(c.horizon, c.chunk + 1);
    assert ProperInput(c, LongPrev(c));
  }

  /** The input tensors of the graph. */
  datatype Inputs = Inputs(imageEmb: Tensor<real>, langEmb: Tensor<real>, prefixPos: Tensor<nat>,
                           suffixPos: Tensor<nat>, x0: Tensor<real>, fullMask: Tensor<real>,
                           prevChunk: Tensor<real>, rtcWeights: Tensor<real>, times: seq<Tensor<real>>)

  const NO_INPUTS: Inputs := Inputs(Null, Null, Null, Null, Null, Null, Null, Null, [])

  datatype Keys = Keys(nImg: int, nLang: int, nSuf: int, rtc: int, horizon: int)

  predicate TimesReady(t: seq<Tensor<real>>, id: nat, extent: nat) {
    forall s :: 0 <= s < |t| ==> Ready(t[s], id, extent)
  }

  /** Every tensor belongs to context `id` and has the extent of a graph for these token counts. */
  ghost predicate Sized(c: Config, t: Inputs, id: nat, nImg: nat, nLang: nat) {
    && Ready(t.imageEmb, id, nImg * c.hidden) && Ready(t.langEmb, id, nLang * c.hidden)
    && Ready(t.prefixPos, id, nImg + nLang) && Ready(t.suffixPos, id, c.chunk)
    && Ready(t.x0, id, Flat(c)) && Ready(t.fullMask, id, (nImg + nLang + c.chunk) * c.chunk)
    && (c.rtc ==> Ready(t.prevChunk, id, Flat(c)) && Ready(t.rtcWeights, id, Flat(c)))
    && |t.times| == c.steps && TimesReady(t.times, id, c.expertDim)
  }

  /** The tensors hold the host data of request `p`. */
  ghost predicate Loaded(c: Config, t: Inputs, p: Prepared)
    requires ProperConfig(c) && ProperInput(c, p)
  {
    && t.imageEmb.Tensor? && t.imageEmb.data == p.img && t.langEmb.Tensor? && t.langEmb.data == p.lang
    && t.prefixPos.Tensor? && t.prefixPos.data == Positions(0, p.nImg + p.nLang)
    && t.suffixPos.Tensor? && t.suffixPos.data == Positions(p.nImg + p.nLang, c.chunk)
    && t.x0.Tensor? && t.x0.data == StartOf(c, p)
    && (c.rtc ==> t.prevChunk.Tensor? && t.prevChunk.data == PrevOf(c, p))
    && (c.rtc ==> t.rtcWeights.Tensor? && t.rtcWeights.data == WeightsOf(c, p))
    && t.fullMask.Tensor? && (!c.flash ==> t.fullMask.data == MaskOf(c, p))
    && (forall s :: 0 <= s < |t.times| ==> t.times[s].Tensor?) && Contents(t.times) == TimesOf(c)
  }

  function Contents(ts: seq<Tensor<real>>): (r: seq<seq<real>>)
    requires forall s :: 0 <= s < |ts| ==> ts[s].Tensor?
  {
    seq(|ts|, (s: nat) requires s < |ts| => ts[s].data)
  }

  /** The keys of a finished build; without guidance the horizon is stored as 0. */
  function KeysOf(c: Config, nImg: nat, nLang: nat): Keys {
    Keys(nImg, nLang, c.chunk, if c.rtc then 1 else 0, if c.rtc then c.horizon else 0)
  }

  class Engine {
    const cfg: Config
    // settings, read from the environment at the first computation
    var rtcInitialized: bool
    var rtcEnabled: bool
    var rtcHorizon: nat
    var stepGuidance: array<real>
    // the cached graph, its tensors and its keys
    var compCtx: Option<nat>
    var nextCtx: nat
    var galloc: bool
    var gf: Option<Graph>
    var inputs: Inputs
    var keys: Keys

    ghost predicate SettingsHold()
      reads this, stepGuidance
    {
      && rtcEnabled == cfg.rtc && rtcHorizon == cfg.horizon
      && (cfg.rtc ==> stepGuidance.Length == cfg.steps)
      && (cfg.rtc ==> forall s: nat | s < cfg.steps :: stepGuidance[s] == Guidance(s, cfg.steps, cfg.maxG))
    }

    ghost predicate GraphHolds(g: Graph)
      reads this
    {
      && compCtx == Some(g.ctx) && galloc && g.rtc == cfg.rtc
      && keys == KeysOf(cfg, g.nImg, g.nLang) && Sized(cfg, inputs, g.ctx, g.nImg, g.nLang)
    }

    ghost predicate Valid()
      reads this, stepGuidance
    {
      && ProperConfig(cfg)
      && (rtcInitialized ==> SettingsHold())
      && (compCtx.Some? ==> compCtx.value < nextCtx)
      && (gf.Some? ==> rtcInitialized && GraphHolds(gf.value))
    }

    ghost function Cache(): Cached
      reads this
    {
      if gf.Some? then Built(gf.value.nImg, gf.value.nLang) else Empty
    }

    constructor (c: Config)
      requires ProperConfig(c)
      ensures Valid() && cfg == c && Cache() == Empty && fresh(stepGuidance)
    {
      cfg := c;
      rtcInitialized, rtcEnabled, rtcHorizon := false, false, 10;
      stepGuidance := new real[0];
      compCtx, nextCtx, galloc, gf := None, 0, false, None;
      inputs, keys := NO_INPUTS, Keys(-1, -1, -1, 0, 0);
    }

    method InitRtcConfig()
      requires Valid()
      modifies this
      ensures Valid() && rtcInitialized && Cache() == old(Cache())
      ensures stepGuidance == old(stepGuidance) || fresh(stepGuidance)
    {
      if rtcInitialized {
        return;
      }
      rtcInitialized := true;
      rtcEnabled, rtcHorizon := cfg.rtc, cfg.horizon;
      if rtcEnabled {
        stepGuidance := InitStepGuidance(cfg.steps, cfg.maxG);
      }
    }

    predicate NeedsRebuild(p: Prepared)
      reads this
    {
      || cfg.noCache || gf.None? || keys.nImg != p.nImg || keys.nLang != p.nLang || keys.nSuf != cfg.chunk
      || keys.rtc != (if rtcEnabled then 1 else 0) || keys.horizon != rtcHorizon
    }

    /** The keys decide exactly: the graph survives only if guidance is on and the token counts are the same. */
    lemma NeedsRebuildIff(p: Prepared)
      requires Valid() && rtcInitialized
      ensures NeedsRebuild(p) <==> !Reuses(cfg, Cache(), p)
    {
    }

    method CreateInputs(id: nat, p: Prepared) returns (t: Inputs)
      requires rtcEnabled == cfg.rtc
      ensures Sized(cfg, t, id, p.nImg, p.nLang)
    {
      var imageEmb := Tensor(id, p.nImg * cfg.hidden, []);
      var langEmb := Tensor(id, p.nLang * cfg.hidden, []);
      var prefixPos := Tensor(id, p.nImg + p.nLang, []);
      var x0 := Tensor(id, cfg.chunk * cfg.maxDim, []);
      var suffixPos := Tensor(id, cfg.chunk, []);
      var fullMask := Tensor(id, (p.nImg + p.nLang + cfg.chunk) * cfg.chunk, []);
      var prevChunk, rtcWeights := Null, Null;
      if rtcEnabled {
        prevChunk := Tensor(id, cfg.chunk * cfg.maxDim, []);
        rtcWeights := Tensor(id, cfg.chunk * cfg.maxDim, []);
      }
      var times := seq(cfg.steps, (s: nat) => Tensor(id, cfg.expertDim, []));
      t := Inputs(imageEmb, langEmb, prefixPos, suffixPos, x0, fullMask, prevChunk, rtcWeights, times);
    }

    /** On failure no graph is left, though the tensors may stay behind as dangling pointers. */
    method Rebuild(p: Prepared, f: Fault) returns (ok: bool)
      requires Valid() && rtcInitialized
      modifies this
      ensures Valid() && rtcInitialized && stepGuidance == old(stepGuidance)
      ensures ok == !(f.NoContext? || f.NoGraphMemory?)
      ensures Cache() == if ok then Built(p.nImg, p.nLang) else Empty
    {
      galloc, compCtx, gf, inputs := false, None, None, NO_INPUTS;
      if f.NoContext? {
        return false;
      }
      var id := nextCtx;
      compCtx, nextCtx := Some(id), nextCtx + 1;
      inputs := CreateInputs(id, p);
      if f.NoGraphMemory? {
        galloc, compCtx, gf := false, None, None;
        return false;
      }
      galloc, gf := true, Some(Graph(id, p.nImg, p.nLang, rtcEnabled));
      keys := Keys(p.nImg, p.nLang, cfg.chunk, if rtcEnabled then 1 else 0, if rtcEnabled then rtcHorizon else 0);
      return true;
    }

    method UploadPrefix(p: Prepared, was: Inputs) returns (t: Inputs)
      requires ProperConfig(cfg) && ProperInput(cfg, p)
      requires compCtx.Some? && Sized(cfg, was, compCtx.value, p.nImg, p.nLang)
      ensures Sized(cfg, t, compCtx.value, p.nImg, p.nLang)
      ensures t.imageEmb.data == p.img && t.langEmb.data == p.lang
      ensures t.prefixPos.data == Positions(0, p.nImg + p.nLang)
      ensures t.suffixPos.data == Positions(p.nImg + p.nLang, cfg.chunk)
    {
      t := was;
      var nPrefix := p.nImg + p.nLang;
      t := t.(imageEmb := Upload(t.imageEmb, compCtx, p.img), langEmb := Upload(t.langEmb, compCtx, p.lang));
      t := t.(prefixPos := Upload(t.prefixPos, compCtx, Positions(0, nPrefix)));
      t := t.(suffixPos := Upload(t.suffixPos, compCtx, Positions(nPrefix, cfg.chunk)));
    }

    /** One upload per input, for every request; a write outside a host vector ends it. */
    method UploadInputs(p: Prepared) returns (inside: bool)
      requires ProperConfig(cfg) && ProperInput(cfg, p) && rtcEnabled == cfg.rtc
      requires compCtx.Some? && Sized(cfg, inputs, compCtx.value, p.nImg, p.nLang)
      modifies this`inputs
      ensures inside <==> !Overruns(cfg, p)
      ensures Sized(cfg, inputs, compCtx.value, p.nImg, p.nLang)
      ensures inside ==> Loaded(cfg, inputs, p)
    {
      var t := UploadPrefix(p, inputs);
      var x0h: array<real>;
      x0h, inside := HostStart(cfg, p);
      if !inside {
        return;
      }
      t := t.(x0 := Upload(t.x0, compCtx, x0h[..]));
      if rtcEnabled {
        var prevh := HostPrev(cfg, p);
        var wgh: array<real>;
        wgh, inside := HostWeights(cfg, p);
        if !inside {
          return;
        }
        t := t.(prevChunk := Upload(t.prevChunk, compCtx, prevh[..]));
        t := t.(rtcWeights := Upload(t.rtcWeights, compCtx, wgh[..]));
      }
      if !cfg.flash {
        t := t.(fullMask := Upload(t.fullMask, compCtx, Zeros((p.nImg + p.nLang + cfg.chunk) * cfg.chunk)));
      }
      var times := UploadTimes(t.times);
      inputs := t.(times := times);
    }

    method UploadTimes(ts: seq<Tensor<real>>) returns (r: seq<Tensor<real>>)
      requires ProperConfig(cfg) && compCtx.Some?
      requires |ts| == cfg.steps && TimesReady(ts, compCtx.value, cfg.expertDim)
      ensures |r| == cfg.steps && TimesReady(r, compCtx.value, cfg.expertDim)
      ensures Contents(r) == TimesOf(cfg)
    {
      var dt := -1.0 / cfg.steps as real;
      r := ts;
      for s := 0 to cfg.steps
        invariant |r| == cfg.steps && TimesReady(r, compCtx.value, cfg.expertDim)
        invariant forall k: nat | k < s :: r[k].data == TimesOf(cfg)[k]
      {
        var timestep := 1.0 + s as real * dt;
        TimeOfStep(s, cfg.steps, dt);
        r := r[s := Upload(r[s], compCtx, cfg.timeEmb(timestep))];
      }
    }

    /** The meaning of the built graph on the current contents of its tensors. */
    method RunGraph(g: Graph, p: Prepared) returns (latent: seq<real>)
      requires ProperConfig(cfg) && ProperInput(cfg, p) && SettingsHold() && g.rtc == cfg.rtc
      requires Loaded(cfg, inputs, p)
      ensures latent == Trajectory(ExpertOf(cfg, p), cfg.steps, GuideOf(cfg, p), StartOf(cfg, p), cfg.steps)
    {
      var mask := if cfg.flash then [] else inputs.fullMask.data;
      var net := cfg.expert(inputs.imageEmb.data, inputs.langEmb.data, inputs.prefixPos.data,
                            inputs.suffixPos.data, mask, Contents(inputs.times));
      var guide := if g.rtc then Toward(inputs.prevChunk.data, inputs.rtcWeights.data, cfg.maxG) else Off;
      latent := Denoise(net, cfg.steps, guide, stepGuidance, inputs.x0.data);
    }

    /** Computing may leave anything in the input tensors: later calls must not rely on them. */
    method Clobber()
      requires compCtx.Some? && gf.Some? && GraphHolds(gf.value)
      modifies this`inputs
      ensures GraphHolds(gf.value)
    {
      var a: seq<real>, b: seq<nat> := *, *;
      var t := inputs;
      t := t.(imageEmb := t.imageEmb.(data := a), langEmb := t.langEmb.(data := a), x0 := t.x0.(data := a));
      t := t.(prefixPos := t.prefixPos.(data := b), suffixPos := t.suffixPos.(data := b));
      t := t.(fullMask := t.fullMask.(data := a));
      if cfg.rtc {
        t := t.(prevChunk := t.prevChunk.(data := a), rtcWeights := t.rtcWeights.(data := a));
      }
      inputs := t;
    }

    method Denormalised(latent: seq<real>) returns (out: array<real>)
      requires ProperConfig(cfg) && |latent| == Flat(cfg)
      ensures fresh(out) && out[..] == Rewritten(latent, cfg.maxDim, cfg.chunk, cfg.realDim, ToRobot(cfg.joints))
    {
      out := new real[Flat(cfg)]((k: nat) requires k < |latent| => latent[k]);
      assert out[..] == latent;
      FitsIff(cfg.chunk, cfg.maxDim, cfg.chunk, cfg.realDim);
      var inside := RewriteRows(out, cfg.maxDim, cfg.chunk, cfg.realDim, ToRobot(cfg.joints));
      assert inside;
    }

    /** The graph of the request: the old one exactly when `Reuses` says so, else a new one. */
    method EnsureGraph(p: Prepared, f: Fault) returns (ok: bool, rebuilt: bool)
      requires Valid()
      modifies this
      ensures Valid() && rtcInitialized && (stepGuidance == old(stepGuidance) || fresh(stepGuidance))
      ensures rebuilt == !Reuses(cfg, old(Cache()), p)
      ensures ok == !BuildFails(cfg, old(Cache()), p, f)
      ensures Cache() == if ok then Built(p.nImg, p.nLang) else Empty
    {
      InitRtcConfig();
      NeedsRebuildIff(p);
      ok, rebuilt := true, NeedsRebuild(p);
      if rebuilt {
        ok := Rebuild(p, f);
      }
    }

    method RunAndRead(p: Prepared) returns (values: seq<real>)
      requires Valid() && ProperInput(cfg, p) && Cache() == Built(p.nImg, p.nLang) && Loaded(cfg, inputs, p)
      modifies this`inputs
      ensures Valid() && values == Fresh(cfg, p)
    {
      var latent := RunGraph(gf.value, p);
      Clobber();
      var actions := Denormalised(latent);
      values := actions[..];
    }

    /** One computation.  Whatever came before, a call answers as a graph built for it would, and it keeps
        the old graph exactly when `Reuses` says so.  A call that overruns is followed up to the overrun. */
    method ComputeActions(p: Prepared, f: Fault) returns (out: Outcome, rebuilt: bool)
      requires Valid() && ProperInput(cfg, p)
      modifies this
      ensures Valid() && (stepGuidance == old(stepGuidance) || fresh(stepGuidance))
      ensures rebuilt == !Reuses(cfg, old(Cache()), p)
      ensures out == Reply(cfg, old(Cache()), p, f)
      ensures Cache() == After(cfg, old(Cache()), p, f)
    {
      var ok, inside;
      ok, rebuilt := EnsureGraph(p, f);
      if !ok {
        return Failed, rebuilt;
      }
      inside := UploadInputs(p);
      if !inside {
        return Overrun, rebuilt;
      }
      if f.ComputeFails? {
        return Failed, rebuilt;
      }
      var values := RunAndRead(p);
      out := Actions(values);
    }
  }

  // ---------------------------------------------------------------- runs

  datatype Call = Call(p: Prepared, f: Fault)

  /** The cache before call `i` of a run that starts with a new engine. */
  function CacheBefore(c: Config, calls: seq<Call>, i: nat): Cached
    requires i <= |calls|
  {
    if i == 0 then Empty else After(c, CacheBefore(c, calls, i - 1), calls[i - 1].p, calls[i - 1].f)
  }

  predicate Reused(c: Config, calls: seq<Call>, i: nat)
    requires i < |calls|
  {
    Reuses(c, CacheBefore(c, calls, i), calls[i].p)
  }

  predicate BuildFailed(c: Config, calls: seq<Call>, i: nat)
    requires i < |calls|
  {
    BuildFails(c, CacheBefore(c, calls, i), calls[i].p, calls[i].f)
  }

  predicate SameShape(p: Prepared, q: Prepared) {
    p.nImg == q.nImg && p.nLang == q.nLang
  }

  /** In every run, a call reuses the graph exactly when guidance and caching are on and the call just
      before it had the same token counts and did not fail to build. */
  lemma ReusedIff(c: Config, calls: seq<Call>, i: nat)
    requires i < |calls|
    ensures Reused(c, calls, i) <==>
            c.rtc && !c.noCache && i > 0 && SameShape(calls[i - 1].p, calls[i].p) && !BuildFailed(c, calls, i - 1)
  {
  }

  function Rebuilds(c: Config, calls: seq<Call>, i: nat): nat
    requires i <= |calls|
  {
    if i == 0 then 0 else Rebuilds(c, calls, i - 1) + if Reused(c, calls, i - 1) then 0 else 1
  }

  /** Without guidance every call rebuilds, however often a request is repeated. */
  lemma {:induction false} OffRebuildsEveryTime(c: Config, calls: seq<Call>, i: nat)
    requires i <= |calls| && !c.rtc
    ensures Rebuilds(c, calls, i) == i
  {
    if i > 0 {
      OffRebuildsEveryTime(c, calls, i - 1);
    }
  }

  /** With guidance and caching, requests of one shape build once, as long as building works. */
  lemma {:induction false} OneShapeBuildsOnce(c: Config, calls: seq<Call>, i: nat)
    requires 0 < i <= |calls| && c.rtc && !c.noCache
    requires forall k :: 0 <= k < i ==> SameShape(calls[0].p, calls[k].p)
    requires forall k :: 0 <= k < i ==> calls[k].f.Fine? || calls[k].f.ComputeFails?
    ensures Rebuilds(c, calls, i) == 1
  {
    ReusedIff(c, calls, i - 1);
    if i > 1 {
      OneShapeBuildsOnce(c, calls, i - 1);
      assert SameShape(calls[i - 2].p, calls[i - 1].p) && !BuildFailed(c, calls, i - 2);
    } else {
      assert Rebuilds(c, calls, 0) == 0;
    }
  }

  // ---------------------------------------------------------------- guidance, end to end

  /** A request without a previous chunk is answered as with guidance off, whatever the settings. */
  lemma NoPrevChunkIsOff(c: Config, p: Prepared)
    requires ProperConfig(c) && ProperInput(c, p) && p.nPrev == 0
    ensures ProperConfig(c.(rtc := false)) && ProperInput(c.(rtc := false), p)
    ensures !Overruns(c, p) && !Overruns(c.(rtc := false), p)
    ensures Fresh(c, p) == Fresh(c.(rtc := false), p)
  {
    NoPrevSameLatent(c, p);
  }

  lemma NoPrevSameLatent(c: Config, p: Prepared)
    requires ProperConfig(c) && ProperInput(c, p) && p.nPrev == 0
    ensures Trajectory(ExpertOf(c, p), c.steps, GuideOf(c, p), StartOf(c, p), c.steps) ==
            Trajectory(ExpertOf(c, p), c.steps, Off, StartOf(c, p), c.steps)
  {
    if c.rtc {
      ZeroWeights(c, p);
      ZeroWeightsAreOff(ExpertOf(c, p), c.steps, GuideOf(c, p), StartOf(c, p), c.steps);
    }
  }

  /** With guidance on and an expert that heads for the previous chunk, the rows of that chunk come back in
      robot units, through normalisation, all guided steps and de-normalisation. */
  lemma AgreementReturnsPrev(c: Config, p: Prepared, t: nat, j: nat)
    requires ProperConfig(c) && ProperInput(c, p) && c.rtc
    requires HeadsFor(ExpertOf(c, p), c.steps, PrevOf(c, p))
    requires t < p.nPrev && t < c.chunk && j < c.realDim
    ensures Cell(t, j, c.maxDim) < Flat(c) && Cell(t, j, c.realDim) < |p.prev|
    ensures Fresh(c, p)[Cell(t, j, c.maxDim)] == p.prev[Cell(t, j, c.realDim)]
  {
    AgreementEndsOnPrev(ExpertOf(c, p), c.steps, GuideOf(c, p), StartOf(c, p));
    CellInside(t, j, c.maxDim, c.chunk);
    CellInside(t, j, c.realDim, p.nPrev);
    RewrittenAt(Zeros(Flat(c)), c.maxDim, MinNat(p.nPrev, c.chunk), c.realDim, ReadPrev(c.joints, p), t, j);
    RewrittenAt(PrevOf(c, p), c.maxDim, c.chunk, c.realDim, ToRobot(c.joints), t, j);
    NormRoundTrip(c.joints[j], p.prev[Cell(t, j, c.realDim)]);
  }
}
