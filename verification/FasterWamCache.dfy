/** The caches of the FasterWAM engine.  Prefill results, the constant buffer and the denoise
    graph survive from call to call; the class below updates them as the engine does, and every call is
    related to what a computation without caches would return.

    Only successful allocations and requests without video are covered. */
module FasterWamCache {
  import opened Common

  /** The neural operators, arbitrary functions on flat tensors. */
  datatype Ops = Ops(
    textDim: nat,
    hidden: nat,
    stateDim: nat,
    noiseLen: nat,
    timeMod: seq<real>,                                        // modulation at t = 0, from the weights alone
    prefill: (seq<real>, seq<real>) -> seq<real>,              // time modulation, text -> fused keys and values
    proprio: seq<real> -> seq<real>,                           // state -> one extra text row
    embed: (seq<real>, nat) -> seq<real>,                      // extended text, its rows -> action text context
    denoise: (seq<real>, seq<real>, seq<real>) -> seq<real>,   // keys and values, text context, noise -> latent
    denormalise: seq<real> -> seq<real>)

  ghost predicate WellShaped(o: Ops) {
    && o.textDim >= 1 && o.timeMod != []
    && (forall s :: |o.proprio(s)| == o.textDim)
    && (forall t, n: nat :: |o.embed(t, n)| == n * o.hidden)
  }

  /** A request: `textSeq` rows of text, the normalised state and the initial noise. */
  datatype Request = Request(text: seq<real>, textSeq: nat, state: seq<real>, noise: seq<real>)

  ghost predicate Proper(o: Ops, r: Request) {
    r.textSeq >= 1 && |r.text| == r.textSeq * o.textDim && |r.state| == o.stateDim && |r.noise| == o.noiseLen
  }

  function TextContext(o: Ops, r: Request): seq<real> {
    o.embed(r.text + o.proprio(r.state), r.textSeq + 1)
  }

  /** The text embedder gets the text rows, one more row behind them that the state is projected to, and their
      number. */
  lemma StateRowBehindText(o: Ops, r: Request) returns (rows: seq<real>)
    requires WellShaped(o) && Proper(o, r)
    ensures TextContext(o, r) == o.embed(rows, r.textSeq + 1)
    ensures |rows| == (r.textSeq + 1) * o.textDim
    ensures forall k :: 0 <= k < r.textSeq * o.textDim ==> rows[k] == r.text[k]
    ensures forall k :: 0 <= k < o.textDim ==> rows[r.textSeq * o.textDim + k] == o.proprio(r.state)[k]
  {
    rows := r.text + o.proprio(r.state);
  }

  /** The answer to `r` when the attention reads the keys and values of `text`. */
  function Answer(o: Ops, text: seq<real>, r: Request): seq<real> {
    o.denormalise(o.denoise(o.prefill(o.timeMod, text), TextContext(o, r), r.noise))
  }

  /** What an engine without caches returns. */
  function Uncached(o: Ops, r: Request): seq<real> {
    Answer(o, r.text, r)
  }

  // ---------------------------------------------------------------- abstract behaviour

  /** All that matters about the caches: whether a first predict has run, the text the stored key is, and
      the text whose keys and values were last copied into the constant buffer. */
  datatype Abs = Cold | Warm(key: seq<real>, copied: seq<real>)

  datatype Prepared = Prepared(ok: bool, context: seq<real>, textSeq: nat, noise: seq<real>)

  const FAILURE: Prepared := Prepared(false, [], 0, [])

  function PreparedOf(o: Ops, r: Request): Prepared {
    Prepared(true, TextContext(o, r), r.textSeq + 1, r.noise)
  }

  function AfterPredict(a: Abs, r: Request): Abs {
    Warm(r.text, if a.Warm? && a.key == r.text then a.copied else r.text)
  }

  predicate CanPrepare(a: Abs, r: Request) {
    a.Warm? && |r.text| == |a.key|
  }

  function AfterPrepare(a: Abs, r: Request): Abs {
    if CanPrepare(a, r) then Warm(r.text, a.copied) else a
  }

  predicate CanCompute(o: Ops, a: Abs, p: Prepared) {
    p.ok && p.context != [] && p.noise != [] && a.Warm? && p.textSeq * o.textDim == |a.key| + o.textDim
  }

  function AfterCompute(o: Ops, a: Abs, p: Prepared): Abs {
    if CanCompute(o, a, p) then Warm(a.key, a.key) else a
  }

  function ComputeOutput(o: Ops, a: Abs, p: Prepared): seq<real> {
    if CanCompute(o, a, p) then o.denormalise(o.denoise(o.prefill(o.timeMod, a.key), p.context, p.noise)) else []
  }

  // ---------------------------------------------------------------- the engine

  /** The constant buffer; `serial` tells allocations apart. */
  datatype ConstBuf = ConstBuf(serial: nat, textSeq: int, text: seq<real>, kv: seq<real>, x: seq<real>)

  /** A device upload: as many values as the tensor holds are taken from the host data. */
  function Upload(data: seq<real>, extent: nat): seq<real>
    requires extent <= |data|
  {
    data[..extent]
  }

  class Engine {
    const ops: Ops
    // prefill graph: shape keys, inputs, output
    var prefillBuilt: bool
    var vpVidSeq: int
    var vpTextSeq: int
    var vpTimeMod: seq<real>
    var vpFused: Option<seq<real>>
    var vidTimeMod: seq<real>
    // host-side helper graphs
    var proprioBuilt: bool
    var ppStateDim: int
    var textembBuilt: bool
    var teTextSeq: int
    // constant buffer and denoise graph
    var cachedText: seq<real>
    var cachedTextSeq: int
    var cachedVidSeq: int
    var constBuf: Option<ConstBuf>
    var denoiseValid: bool
    var denoiseSerial: nat
    var nextSerial: nat
    ghost var abs: Abs

    /** The prefill graph fits the key and its output belongs to the key. */
    ghost predicate PrefillHolds(key: seq<real>)
      reads this
    {
      && prefillBuilt && vpVidSeq == 1 && vpTimeMod == ops.timeMod
      && vpTextSeq >= 1 && |key| == vpTextSeq * ops.textDim
      && vpFused == Some(ops.prefill(ops.timeMod, key))
    }

    ghost predicate HelpersHold()
      reads this
    {
      proprioBuilt && ppStateDim == ops.stateDim && textembBuilt && teTextSeq == vpTextSeq + 1
    }

    /** The buffer fits the key; the keys and values in it may lag behind. */
    ghost predicate BufferHolds(copied: seq<real>)
      reads this
    {
      && cachedVidSeq == 1 && cachedTextSeq == vpTextSeq + 1
      && constBuf.Some? && constBuf.value.textSeq == cachedTextSeq
      && constBuf.value.kv == ops.prefill(ops.timeMod, copied)
      && denoiseValid && denoiseSerial == constBuf.value.serial
    }

    ghost predicate Pristine()
      reads this
    {
      && cachedText == [] && constBuf.None? && cachedTextSeq == -1 && cachedVidSeq == -1
      && !prefillBuilt && vpTextSeq == -1 && vpVidSeq == -1 && !proprioBuilt && !textembBuilt
      && !denoiseValid
    }

    ghost predicate WarmHolds(key: seq<real>, copied: seq<real>)
      reads this
    {
      cachedText == key && |copied| == |key| && PrefillHolds(key) && HelpersHold() && BufferHolds(copied)
    }

    ghost predicate Valid()
      reads this
    {
      && WellShaped(ops)
      && (vidTimeMod == [] || vidTimeMod == ops.timeMod)
      && (abs.Cold? ==> Pristine())
      && (abs.Warm? ==> WarmHolds(abs.key, abs.copied))
    }

    constructor (o: Ops)
      requires WellShaped(o)
      ensures Valid() && abs == Cold && ops == o
    {
      ops := o;
      prefillBuilt, vpVidSeq, vpTextSeq, vpTimeMod, vpFused, vidTimeMod := false, -1, -1, [], None, [];
      proprioBuilt, ppStateDim, textembBuilt, teTextSeq := false, -1, false, -1;
      cachedText, cachedTextSeq, cachedVidSeq := [], -1, -1;
      constBuf, denoiseValid, denoiseSerial, nextSerial := None, false, 0, 0;
      abs := Cold;
    }

    /** Rebuild the prefill graph if the shape changed, then run it on the new text. */
    method RunPrefill(text: seq<real>, textSeq: int, vidSeq: int)
      requires WellShaped(ops) && textSeq >= 1 && vidSeq == 1 && |text| == textSeq * ops.textDim
      requires vidTimeMod == [] || vidTimeMod == ops.timeMod
      requires prefillBuilt ==> vpTimeMod == ops.timeMod
      modifies this`vidTimeMod, this`prefillBuilt, this`vpVidSeq, this`vpTextSeq, this`vpTimeMod, this`vpFused
      ensures vidTimeMod == ops.timeMod
      ensures prefillBuilt && vpVidSeq == vidSeq && vpTextSeq == textSeq && vpTimeMod == ops.timeMod
      ensures vpFused == Some(ops.prefill(ops.timeMod, text))
    {
      if |vidTimeMod| == 0 {
        vidTimeMod := ops.timeMod;
      }
      if vidSeq != vpVidSeq || textSeq != vpTextSeq || !prefillBuilt {
        prefillBuilt := true;
        vpTimeMod := vidTimeMod;
        vpVidSeq := vidSeq;
        vpTextSeq := textSeq;
      }
      var input := Upload(text, vpTextSeq * ops.textDim);
      assert input == text;
      vpFused := Some(ops.prefill(vpTimeMod, input));
    }

    /** The action text context, from helper graphs that are rebuilt when their shape key changes. */
    method RunTextContext(r: Request) returns (context: seq<real>)
      requires WellShaped(ops) && Proper(ops, r)
      modifies this`proprioBuilt, this`ppStateDim, this`textembBuilt, this`teTextSeq
      ensures proprioBuilt && ppStateDim == ops.stateDim && textembBuilt && teTextSeq == r.textSeq + 1
      ensures context == TextContext(ops, r)
    {
      if ops.stateDim != ppStateDim || !proprioBuilt {
        proprioBuilt := true;
        ppStateDim := ops.stateDim;
      }
      var state := Upload(r.state, ppStateDim);
      assert state == r.state;
      var ext := r.text + ops.proprio(state);
      if r.textSeq + 1 != teTextSeq || !textembBuilt {
        textembBuilt := true;
        teTextSeq := r.textSeq + 1;
      }
      assert |ext| == teTextSeq * ops.textDim;
      var input := Upload(ext, teTextSeq * ops.textDim);
      assert input == ext;
      context := ops.embed(input, teTextSeq);
    }

    /** Free and reallocate the constant buffer when a sequence length changed.  A new buffer holds garbage. */
    method SizeConstBuf(finalTextSeq: int, vidSeq: int)
      requires finalTextSeq >= 0 && vidSeq == 1
      requires constBuf.Some? ==> constBuf.value.textSeq == cachedTextSeq
      requires constBuf.None? ==> !denoiseValid
      modifies this`constBuf, this`cachedTextSeq, this`cachedVidSeq, this`denoiseValid, this`nextSerial
      ensures constBuf.Some? && constBuf.value.textSeq == cachedTextSeq == finalTextSeq && cachedVidSeq == vidSeq
      ensures old(cachedTextSeq) == finalTextSeq && old(cachedVidSeq) == vidSeq && old(constBuf).Some? ==>
                constBuf == old(constBuf) && denoiseValid == old(denoiseValid)
      ensures !(old(cachedTextSeq) == finalTextSeq && old(cachedVidSeq) == vidSeq && old(constBuf).Some?) ==>
                !denoiseValid
    {
      if finalTextSeq != cachedTextSeq || vidSeq != cachedVidSeq {
        constBuf := None;
        denoiseValid := false;
        cachedTextSeq := -1;
        cachedVidSeq := -1;
      }
      if constBuf.None? {
        var text: seq<real>, kv: seq<real>, x: seq<real> := *, *, *;
        constBuf := Some(ConstBuf(nextSerial, finalTextSeq, text, kv, x));
        nextSerial := nextSerial + 1;
        cachedTextSeq := finalTextSeq;
        cachedVidSeq := vidSeq;
      }
    }

    /** Run the graph on the tensors it was built for. */
    method RunDenoise(context: seq<real>, noise: seq<real>) returns (out: seq<real>)
      requires constBuf.Some? && denoiseValid && denoiseSerial == constBuf.value.serial
      requires constBuf.value.textSeq >= 0 && |context| == constBuf.value.textSeq * ops.hidden
      requires |noise| == ops.noiseLen
      modifies this`constBuf
      ensures constBuf.Some? && constBuf.value.serial == old(constBuf).value.serial
      ensures constBuf.value.textSeq == old(constBuf).value.textSeq && constBuf.value.kv == old(constBuf).value.kv
      ensures out == ops.denormalise(ops.denoise(old(constBuf).value.kv, context, noise))
    {
      var b := constBuf.value;
      b := b.(text := Upload(context, b.textSeq * ops.hidden));
      b := b.(x := Upload(noise, ops.noiseLen));
      assert b.text == context && b.x == noise;
      b := b.(x := ops.denoise(b.kv, b.text, b.x));
      constBuf := Some(b);
      out := ops.denormalise(b.x);
    }

    method Predict(r: Request) returns (out: seq<real>)
      requires Valid() && Proper(ops, r)
      modifies this
      ensures Valid() && abs == AfterPredict(old(abs), r)
      ensures out == Answer(ops, abs.copied, r)
    {
      var vidSeq := 1;
      var stale, context := RunPrefix(r, vidSeq);
      out := LoadAndDenoise(r.textSeq + 1, vidSeq, stale, r.text, context, r.noise);
      ghost var copied := if stale then r.text else abs.copied;
      assert WarmHolds(r.text, copied);
      abs := Warm(r.text, copied);
    }

    /** Everything in front of the constant buffer. */
    method RunPrefix(r: Request, vidSeq: int) returns (stale: bool, context: seq<real>)
      requires Valid() && Proper(ops, r) && vidSeq == 1
      modifies this`vidTimeMod, this`prefillBuilt, this`vpVidSeq, this`vpTextSeq, this`vpTimeMod, this`vpFused,
               this`proprioBuilt, this`ppStateDim, this`textembBuilt, this`teTextSeq
      ensures stale <==> !(abs.Warm? && abs.key == r.text)
      ensures vidTimeMod == [] || vidTimeMod == ops.timeMod
      ensures PrefillHolds(r.text) && vpTextSeq == r.textSeq && HelpersHold()
      ensures !stale ==> BufferHolds(abs.copied)
      ensures context == TextContext(ops, r)
    {
      stale := EnsurePrefill(r, vidSeq);
      context := RunTextContext(r);
    }

    /** Run the prefill unless the stored key is this very text; a text of another length is another text. */
    method EnsurePrefill(r: Request, vidSeq: int) returns (stale: bool)
      requires Valid() && Proper(ops, r) && vidSeq == 1
      modifies this`vidTimeMod, this`prefillBuilt, this`vpVidSeq, this`vpTextSeq, this`vpTimeMod, this`vpFused
      ensures stale <==> !(abs.Warm? && abs.key == r.text)
      ensures vidTimeMod == [] || vidTimeMod == ops.timeMod
      ensures PrefillHolds(r.text) && vpTextSeq == r.textSeq
      ensures !stale ==> BufferHolds(abs.copied)
    {
      stale := r.text != cachedText;
      RowsPositive(r.textSeq, ops.textDim);
      if stale {
        RunPrefill(r.text, r.textSeq, vidSeq);
      } else {
        SameRows(ops.textDim, r.textSeq, vpTextSeq);
      }
    }

    /** Size the buffer, copy the prefill output if the text is new, rebuild the graph if needed, run it. */
    method LoadAndDenoise(finalTextSeq: int, vidSeq: int, stale: bool, text: seq<real>, context: seq<real>,
                          noise: seq<real>) returns (out: seq<real>)
      requires finalTextSeq >= 0 && vidSeq == 1
      requires constBuf.Some? ==> constBuf.value.textSeq == cachedTextSeq
      requires constBuf.None? ==> !denoiseValid
      requires denoiseValid ==> denoiseSerial == constBuf.value.serial
      requires stale ==> vpFused.Some?
      requires !stale ==> constBuf.Some? && cachedTextSeq == finalTextSeq && cachedVidSeq == vidSeq
      requires |context| == finalTextSeq * ops.hidden && |noise| == ops.noiseLen
      modifies this`constBuf, this`cachedTextSeq, this`cachedVidSeq, this`denoiseValid, this`denoiseSerial,
               this`nextSerial, this`cachedText
      ensures cachedText == if stale then text else old(cachedText)
      ensures cachedVidSeq == vidSeq && cachedTextSeq == finalTextSeq
      ensures constBuf.Some? && constBuf.value.textSeq == cachedTextSeq
      ensures constBuf.value.kv == if stale then vpFused.value else old(constBuf).value.kv
      ensures denoiseValid && denoiseSerial == constBuf.value.serial
      ensures out == ops.denormalise(ops.denoise(constBuf.value.kv, context, noise))
    {
      SizeConstBuf(finalTextSeq, vidSeq);
      if stale {
        constBuf := Some(constBuf.value.(kv := vpFused.value));
        cachedText := text;
      }
      if !denoiseValid {
        denoiseSerial := constBuf.value.serial;
        denoiseValid := true;
      }
      out := RunDenoise(context, noise);
    }

    /** First phase: refuses to build graphs, updates the key, leaves the constant buffer alone. */
    method Prepare(r: Request) returns (p: Prepared)
      requires Valid() && Proper(ops, r)
      modifies this
      ensures Valid() && abs == AfterPrepare(old(abs), r)
      ensures p == if CanPrepare(old(abs), r) then PreparedOf(ops, r) else FAILURE
    {
      var vidSeq := 1;
      var stale := r.text != cachedText;
      RowsPositive(r.textSeq, ops.textDim);
      if abs.Warm? {
        SameRows(ops.textDim, r.textSeq, vpTextSeq);
      }
      if stale {
        if vidSeq != vpVidSeq || r.textSeq != vpTextSeq || !prefillBuilt {
          return FAILURE;
        }
        var input := Upload(r.text, vpTextSeq * ops.textDim);
        assert input == r.text;
        vpFused := Some(ops.prefill(vpTimeMod, input));
      }
      if ops.stateDim != ppStateDim || !proprioBuilt {
        return FAILURE;
      }
      if r.textSeq + 1 != teTextSeq || !textembBuilt {
        return FAILURE;
      }
      var context := RunTextContext(r);
      if stale {
        cachedText := r.text;
      }
      abs := AfterPrepare(abs, r);
      p := Prepared(true, context, r.textSeq + 1, r.noise);
    }

    /** Second phase: copies the prefill output unconditionally and runs the denoise graph. */
    method Compute(p: Prepared) returns (out: seq<real>)
      requires Valid()
      requires p.ok ==> |p.context| == p.textSeq * ops.hidden && |p.noise| == ops.noiseLen
      modifies this
      ensures Valid() && abs == AfterCompute(ops, old(abs), p)
      ensures out == ComputeOutput(ops, old(abs), p)
    {
      if !p.ok || |p.context| == 0 || |p.noise| == 0 {
        return [];
      }
      if cachedVidSeq <= 0 {
        return [];
      }
      SameRows(ops.textDim, p.textSeq, vpTextSeq + 1);
      if p.textSeq != cachedTextSeq || constBuf.None? {
        return [];
      }
      if vpFused.Some? {
        constBuf := Some(constBuf.value.(kv := vpFused.value));
      }
      if !denoiseValid {
        return [];
      }
      out := RunDenoise(p.context, p.noise);
      abs := AfterCompute(ops, abs, p);
    }
  }

  lemma RowsPositive(rows: nat, dim: nat)
    requires rows >= 1 && dim >= 1
    ensures rows * dim >= 1
  {
  }

  /** A length change is a change of the flat text. */
  lemma SameRows(dim: nat, a: int, b: int)
    requires dim >= 1
    ensures a * dim == b * dim <==> a == b
  {
  }

  // ---------------------------------------------------------------- whole runs

  datatype Event = Predict(request: Request) | Prepare(request: Request) | Compute(prepared: Prepared)

  function After(o: Ops, a: Abs, e: Event): Abs {
    match e
    case Predict(r) => AfterPredict(a, r)
    case Prepare(r) => AfterPrepare(a, r)
    case Compute(p) => AfterCompute(o, a, p)
  }

  function AfterAll(o: Ops, a: Abs, es: seq<Event>): Abs {
    if es == [] then a else After(o, AfterAll(o, a, es[..|es| - 1]), es[|es| - 1])
  }

  /** What a predict call returns in state `a`. */
  function PredictOutput(o: Ops, a: Abs, r: Request): seq<real> {
    Answer(o, AfterPredict(a, r).copied, r)
  }

  /** The copied keys and values are those of the key. */
  predicate Settled(a: Abs) {
    a.Warm? ==> a.copied == a.key
  }

  lemma {:induction false} PredictRunsStaySettled(o: Ops, es: seq<Event>)
    requires forall i :: 0 <= i < |es| ==> es[i].Predict?
    ensures Settled(AfterAll(o, Cold, es))
  {
    if es != [] {
      PredictRunsStaySettled(o, es[..|es| - 1]);
    }
  }

  /** For every sequence of predict calls, with any texts, lengths, states and noises, the last one
      returns what an engine without caches returns. */
  lemma {:induction false} PredictRunsAreUncached(o: Ops, es: seq<Event>, r: Request)
    requires forall i :: 0 <= i < |es| ==> es[i].Predict?
    ensures PredictOutput(o, AfterAll(o, Cold, es), r) == Uncached(o, r)
  {
    PredictRunsStaySettled(o, es);
  }

  /** Operators under which the answer shows the text whose keys and values were used. */
  function Witness(o: Ops): Ops {
    o.(prefill := (t, text) => text, denoise := (kv, c, n) => kv, denormalise := x => x)
  }

  /** In any state, predict is right for all operators if and only if its text differs from the stored
      key or the copy of that key's keys and values has been made. */
  lemma PredictRightIff(o: Ops, a: Abs, r: Request)
    ensures PredictOutput(o, a, r) == Uncached(o, r) <== a.Cold? || r.text != a.key || a.copied == a.key
    ensures PredictOutput(Witness(o), a, r) == Uncached(Witness(o), r) ==>
              a.Cold? || r.text != a.key || a.copied == a.key
  {
  }

  /** A prepare for a new text of the same length, then a predict for that text: the predict answers with
      the keys and values of the text before. */
  lemma PredictAfterPrepareIsStale(o: Ops, a: Abs, r: Request)
    requires CanPrepare(a, r) && Settled(a) && r.text != a.key
    ensures PredictOutput(o, AfterPrepare(a, r), r) == Answer(o, a.key, r)
    ensures PredictOutput(Witness(o), AfterPrepare(a, r), r) != Uncached(Witness(o), r)
  {
  }

  lemma AfterTwo(o: Ops, e: Event, f: Event)
    ensures AfterAll(o, Cold, [e, f]) == After(o, After(o, Cold, e), f)
  {
    AfterNext(o, [], e);
    AfterNext(o, [e], f);
    assert [] + [e] == [e] && [e] + [f] == [e, f];
  }

  lemma AfterNext(o: Ops, es: seq<Event>, e: Event)
    ensures AfterAll(o, Cold, es + [e]) == After(o, AfterAll(o, Cold, es), e)
  {
    assert (es + [e])[..|es|] == es;
  }

  /** From a new engine: predict for one text, prepare for another of the same length, predict for the latter. */
  lemma StaleIsReached(o: Ops, r0: Request, r: Request)
    requires WellShaped(o) && Proper(o, r0) && Proper(o, r) && r0.textSeq == r.textSeq && r0.text != r.text
    ensures PredictOutput(o, AfterAll(o, Cold, [Predict(r0), Prepare(r)]), r) == Answer(o, r0.text, r)
    ensures PredictOutput(Witness(o), AfterAll(Witness(o), Cold, [Predict(r0), Prepare(r)]), r) !=
            Uncached(Witness(o), r)
  {
    AfterTwo(o, Predict(r0), Prepare(r));
    AfterTwo(Witness(o), Predict(r0), Prepare(r));
    PredictAfterPrepareIsStale(o, Warm(r0.text, r0.text), r);
  }

  /** Two such requests exist for every engine. */
  lemma StaleRequests(o: Ops) returns (r0: Request, r: Request)
    requires WellShaped(o)
    ensures Proper(o, r0) && Proper(o, r) && r0.textSeq == r.textSeq && r0.text != r.text
  {
    var state, noise := seq(o.stateDim, i => 0.0), seq(o.noiseLen, i => 0.0);
    r0 := Request(seq(o.textDim, i => 0.0), 1, state, noise);
    r := r0.(text := seq(o.textDim, i => 1.0));
    assert r0.text[0] != r.text[0];
  }

  /** The call leaves the key `text` in place: it uses the same text, or it is a compute, or a prepare
      that refuses because its text has another length. */
  predicate KeepsKey(e: Event, text: seq<real>) {
    match e
    case Predict(r) => r.text == text
    case Prepare(r) => r.text == text || |r.text| != |text|
    case Compute(_) => true
  }

  lemma {:induction false} KeyIsKept(o: Ops, a: Abs, es: seq<Event>, text: seq<real>)
    requires a.Warm? && a.key == text
    requires forall i :: 0 <= i < |es| ==> KeepsKey(es[i], text)
    ensures AfterAll(o, a, es).Warm? && AfterAll(o, a, es).key == text
  {
    if es != [] {
      KeyIsKept(o, a, es[..|es| - 1], text);
    }
  }

  /** Two-phase inference: after a successful prepare for `r`, whatever is called in between without
      changing the key, compute returns what predict would return for `r` without caches. */
  lemma PreparedComputeIsUncached(o: Ops, a: Abs, r: Request, between: seq<Event>)
    requires WellShaped(o) && Proper(o, r) && CanPrepare(a, r)
    requires forall i :: 0 <= i < |between| ==> KeepsKey(between[i], r.text)
    requires o.hidden >= 1 && o.noiseLen >= 1
    ensures ComputeOutput(o, AfterAll(o, AfterPrepare(a, r), between), PreparedOf(o, r)) == Uncached(o, r)
    ensures Settled(AfterCompute(o, AfterAll(o, AfterPrepare(a, r), between), PreparedOf(o, r)))
  {
    KeyIsKept(o, AfterPrepare(a, r), between, r.text);
    PreparedComputes(o, AfterAll(o, AfterPrepare(a, r), between), r);
  }

  lemma PreparedComputes(o: Ops, a: Abs, r: Request)
    requires WellShaped(o) && Proper(o, r) && a.Warm? && a.key == r.text
    requires o.hidden >= 1 && o.noiseLen >= 1
    ensures ComputeOutput(o, a, PreparedOf(o, r)) == Uncached(o, r)
    ensures Settled(AfterCompute(o, a, PreparedOf(o, r)))
  {
  }

  function PrepareOutput(o: Ops, a: Abs, r: Request): Prepared {
    if CanPrepare(a, r) then PreparedOf(o, r) else FAILURE
  }

  /** The two phases used as a pair: every prepare, whether it succeeds or refuses, is followed by the
      compute for its result. */
  ghost predicate Paired(o: Ops, es: seq<Event>) {
    var n := |es| - 1;
    || es == []
    || (es[n].Predict? && Paired(o, es[..n]))
    || (n >= 1 && es[n - 1].Prepare? && Proper(o, es[n - 1].request) && Paired(o, es[..n - 1])
        && es[n] == Compute(PrepareOutput(o, AfterAll(o, Cold, es[..n - 1]), es[n - 1].request)))
  }

  lemma {:induction false} PairedRunsSettle(o: Ops, es: seq<Event>)
    requires WellShaped(o) && o.hidden >= 1 && o.noiseLen >= 1 && Paired(o, es)
    ensures Settled(AfterAll(o, Cold, es))
  {
    var n := |es| - 1;
    if es == [] {
    } else if es[n].Predict? {
      PairedRunsSettle(o, es[..n]);
    } else {
      var a, r := AfterAll(o, Cold, es[..n - 1]), es[n - 1].request;
      PairedRunsSettle(o, es[..n - 1]);
      assert es[..n][..n - 1] == es[..n - 1];
      assert AfterAll(o, Cold, es[..n]) == AfterPrepare(a, r);
      if CanPrepare(a, r) {
        PreparedComputes(o, AfterPrepare(a, r), r);
      }
    }
  }

  /** In every run of predict calls and prepare/compute pairs, in any mixture, the next predict and the
      next pair return what an engine without caches returns; a pair whose prepare refuses returns nothing. */
  lemma PairedRunsAreUncached(o: Ops, es: seq<Event>, r: Request)
    requires WellShaped(o) && o.hidden >= 1 && o.noiseLen >= 1 && Paired(o, es) && Proper(o, r)
    ensures var a := AfterAll(o, Cold, es);
      && PredictOutput(o, a, r) == Uncached(o, r)
      && ComputeOutput(o, AfterPrepare(a, r), PrepareOutput(o, a, r)) ==
         if CanPrepare(a, r) then Uncached(o, r) else []
  {
    PairedRunsSettle(o, es);
    var a := AfterAll(o, Cold, es);
    if CanPrepare(a, r) {
      PreparedComputes(o, AfterPrepare(a, r), r);
    }
  }

  /** In any state a compute for the prepared request `r` is right for all operators if and only if the stored
      key is its text: another text of that length is used in its place, one of another length refuses it. */
  lemma ComputeRightIff(o: Ops, a: Abs, r: Request)
    requires WellShaped(o) && Proper(o, r) && o.hidden >= 1 && o.noiseLen >= 1
    ensures a.Warm? && a.key == r.text ==> ComputeOutput(o, a, PreparedOf(o, r)) == Uncached(o, r)
    ensures ComputeOutput(Witness(o), a, PreparedOf(Witness(o), r)) == Uncached(Witness(o), r) ==>
              a.Warm? && a.key == r.text
  {
    RowsPositive(r.textSeq, o.textDim);
  }

  // ---------------------------------------------------------------- the phases of several requests interleaved

  /** A prepare that succeeds while the key has the length of `text`. */
  predicate Prepares(e: Event, text: seq<real>) {
    e.Prepare? && |e.request.text| == |text|
  }

  /** Some prepare in `es` replaces `text` by another text, and none behind it brings `text` back. */
  predicate Displaced(es: seq<Event>, text: seq<real>) {
    exists k | 0 <= k < |es| :: Prepares(es[k], text) && es[k].request.text != text && NeverBack(es, k, text)
  }

  predicate NeverBack(es: seq<Event>, k: nat, text: seq<real>) {
    forall m | k < m < |es| :: Prepares(es[m], text) ==> es[m].request.text != text
  }

  lemma {:induction false} KeyUnlessDisplaced(o: Ops, a: Abs, es: seq<Event>, text: seq<real>)
    requires a.Warm? && a.key == text && forall i :: 0 <= i < |es| ==> !es[i].Predict?
    ensures AfterAll(o, a, es).Warm? && |AfterAll(o, a, es).key| == |text|
    ensures AfterAll(o, a, es).key == text <==> !Displaced(es, text)
  {
    if es != [] {
      var front, e := es[..|es| - 1], es[|es| - 1];
      KeyUnlessDisplaced(o, a, front, text);
      if Prepares(e, text) {
        assert e.request.text != text ==> NeverBack(es, |es| - 1, text);
      } else if Displaced(front, text) {
        var k :| 0 <= k < |front| && Prepares(front[k], text) && front[k].request.text != text
                 && NeverBack(front, k, text);
        assert es[k] == front[k] && NeverBack(es, k, text);
      } else if Displaced(es, text) {
        DisplacedBefore(es, text);
      }
    }
  }

  lemma DisplacedBefore(es: seq<Event>, text: seq<real>)
    requires es != [] && !Prepares(es[|es| - 1], text) && Displaced(es, text)
    ensures Displaced(es[..|es| - 1], text)
  {
    var front := es[..|es| - 1];
    var k :| 0 <= k < |es| && Prepares(es[k], text) && es[k].request.text != text && NeverBack(es, k, text);
    assert front[k] == es[k] && NeverBack(front, k, text);
  }

  /** A server that overlaps the phases of different requests calls only prepare and compute in between: the
      answer is right for all operators if and only if no text stays displaced between the two phases. */
  lemma OverlappedRightIff(o: Ops, a: Abs, r: Request, between: seq<Event>)
    requires WellShaped(o) && Proper(o, r) && CanPrepare(a, r) && o.hidden >= 1 && o.noiseLen >= 1
    requires forall i :: 0 <= i < |between| ==> !between[i].Predict?
    ensures !Displaced(between, r.text) ==>
              ComputeOutput(o, AfterAll(o, AfterPrepare(a, r), between), PreparedOf(o, r)) == Uncached(o, r)
    ensures var w := Witness(o);
      ComputeOutput(w, AfterAll(w, AfterPrepare(a, r), between), PreparedOf(w, r)) == Uncached(w, r) ==>
        !Displaced(between, r.text)
  {
    KeyUnlessDisplaced(o, AfterPrepare(a, r), between, r.text);
    KeyUnlessDisplaced(Witness(o), AfterPrepare(a, r), between, r.text);
    ComputeRightIff(o, AfterAll(o, AfterPrepare(a, r), between), r);
    ComputeRightIff(o, AfterAll(Witness(o), AfterPrepare(a, r), between), r);
  }

  // ---------------------------------------------------------------- an engine at work

  /** One question to the engine: by predict, or by the two phases one after the other. */
  datatype Ask = Ask(request: Request, twoPhase: bool)

  /** The text length the last predict fixed. */
  function FixedLength(asks: seq<Ask>): Option<nat> {
    if asks == [] then None
    else
      var last := asks[|asks| - 1];
      if last.twoPhase then FixedLength(asks[..|asks| - 1]) else Some(|last.request.text|)
  }

  /** A pair is refused in front of the first predict and for any text length but the last predict's. */
  predicate Refused(before: seq<Ask>, ask: Ask) {
    ask.twoPhase && FixedLength(before) != Some(|ask.request.text|)
  }

  lemma FixedStep(asks: seq<Ask>, i: nat)
    requires i < |asks|
    ensures FixedLength(asks[..i + 1]) ==
            if asks[i].twoPhase then FixedLength(asks[..i]) else Some(|asks[i].request.text|)
  {
    assert asks[..i + 1][..i] == asks[..i];
  }

  /** The answer to question `i`. */
  function Expected(o: Ops, asks: seq<Ask>, i: nat): seq<real>
    requires i < |asks|
  {
    if Refused(asks[..i], asks[i]) then [] else Uncached(o, asks[i].request)
  }

  /** The text length an engine in state `a` accepts for a pair. */
  function Length(a: Abs): Option<nat> {
    if a.Cold? then None else Some(|a.key|)
  }

  method Put(engine: Engine, ask: Ask) returns (out: seq<real>)
    requires engine.Valid() && Proper(engine.ops, ask.request) && engine.ops.hidden >= 1 && engine.ops.noiseLen >= 1
    requires Settled(engine.abs)
    modifies engine
    ensures engine.Valid() && Settled(engine.abs)
    ensures Length(engine.abs) == if ask.twoPhase then old(Length(engine.abs)) else Some(|ask.request.text|)
    ensures out == if ask.twoPhase && old(Length(engine.abs)) != Some(|ask.request.text|) then []
                   else Uncached(engine.ops, ask.request)
  {
    var r := ask.request;
    if ask.twoPhase {
      ghost var a := engine.abs;
      var p := engine.Prepare(r);
      out := engine.Compute(p);
      PairSettles(engine.ops, a, r);
    } else {
      out := engine.Predict(r);
    }
  }

  lemma PairSettles(o: Ops, a: Abs, r: Request)
    requires WellShaped(o) && Proper(o, r) && o.hidden >= 1 && o.noiseLen >= 1 && Settled(a)
    ensures var b, p := AfterPrepare(a, r), PrepareOutput(o, a, r);
      && Settled(AfterCompute(o, b, p)) && Length(AfterCompute(o, b, p)) == Length(a)
      && ComputeOutput(o, b, p) == if Length(a) != Some(|r.text|) then [] else Uncached(o, r)
  {
    if CanPrepare(a, r) {
      PreparedComputes(o, AfterPrepare(a, r), r);
    }
  }

  /** A new engine, asked any questions in any order, returns what an engine without caches returns, and
      nothing exactly for the refused pairs. */
  method Serve(o: Ops, asks: seq<Ask>) returns (outs: seq<seq<real>>)
    requires WellShaped(o) && o.hidden >= 1 && o.noiseLen >= 1
    requires forall i :: 0 <= i < |asks| ==> Proper(o, asks[i].request)
    ensures |outs| == |asks|
    ensures forall i: nat :: i < |asks| ==> outs[i] == Expected(o, asks, i)
  {
    outs := [];
    var engine := new Engine(o);
    for i := 0 to |asks|
      invariant engine.Valid() && engine.ops == o && Settled(engine.abs)
      invariant Length(engine.abs) == FixedLength(asks[..i])
      invariant |outs| == i && forall k: nat :: k < i ==> outs[k] == Expected(o, asks, k)
    {
      FixedStep(asks, i);
      var out := Put(engine, asks[i]);
      outs := outs + [out];
    }
  }
}
