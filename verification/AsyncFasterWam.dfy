/** The asynchronous server with the FasterWAM engine behind it: the receive thread calls prepare for each
    request while the compute thread calls compute for accepted ones, on the same caches.  Neither thread ever
    calls predict.  A run is a run of the pipeline in which the verdicts and the action chunks are those of the
    engine; the server loads its engine cold. */
module AsyncFasterWam {
  import R = AsyncRouter
  import C = FasterWamCache

  /** The engine request a received message carries. */
  type Body = R.Request -> C.Request

  predicate ReachesPrepare(r: R.Request) {
    r.verdict.Accepted? || r.verdict.PrepareFailed?
  }

  predicate VerdictFits(body: Body, a: C.Abs, r: R.Request) {
    ReachesPrepare(r) ==> (r.verdict.Accepted? <==> C.CanPrepare(a, body(r)))
  }

  /** What compute answers for the job in the compute thread. */
  function ChunkOf(o: C.Ops, body: Body, s: R.State, a: C.Abs): seq<real>
    requires s.compute.Computing?
  {
    C.ComputeOutput(o, a, C.PreparedOf(o, body(s.compute.job.origin)))
  }

  /** The pipeline can take the step and the engine answers as the event says. */
  predicate Enabled(o: C.Ops, body: Body, s: R.State, a: C.Abs, e: R.Event) {
    && R.Enabled(s, e)
    && (e.Handle? ==> VerdictFits(body, a, s.receive.request))
    && (e.Infer? ==> e.chunk == ChunkOf(o, body, s, a))
  }

  function EngineStep(o: C.Ops, body: Body, s: R.State, a: C.Abs, e: R.Event): C.Abs
    requires R.Enabled(s, e)
  {
    if e.Handle? && ReachesPrepare(s.receive.request) then C.AfterPrepare(a, body(s.receive.request))
    else if e.Infer? then C.AfterCompute(o, a, C.PreparedOf(o, body(s.compute.job.origin)))
    else a
  }

  predicate Run(o: C.Ops, body: Body, s: R.State, a: C.Abs, es: seq<R.Event>, t: R.State, b: C.Abs)
    decreases |es|
  {
    if es == [] then s == t && a == b
    else
      && Enabled(o, body, s, a, es[0])
      && Run(o, body, R.Step(s, es[0]), EngineStep(o, body, s, a, es[0]), es[1..], t, b)
  }

  // ---------------------------------------------------------------- whose text the key is

  /** A prepared request that is not queued yet. */
  function InHand(s: R.State): seq<R.Request> {
    if s.receive.Queueing? then [s.receive.job.origin] else []
  }

  /** Accepted requests behind the one being computed, in arrival order. */
  function Waiting(s: R.State): seq<R.Request> {
    R.JobOrigins(s.jobs) + InHand(s)
  }

  /** All accepted requests that have been prepared, in order. */
  function PreparedSoFar(s: R.State): seq<R.Request> {
    R.Select(R.Answered(s), true) + R.Outstanding(s) + InHand(s)
  }

  lemma InHandStep(s: R.State, e: R.Event)
    requires R.Enabled(s, e)
    ensures e.Handle? ==> InHand(s) == []
    ensures InHand(R.Step(s, e)) ==
            if e.Handle? && s.receive.request.verdict.Accepted? then [s.receive.request]
            else if e.PushJob? then [] else InHand(s)
  {
  }

  lemma PreparedReply(s: R.State, e: R.Event)
    requires R.Sorted(s) && R.Enabled(s, e) && (e.Answer? || e.Reject?)
    ensures R.Select(R.Answered(R.Step(s, e)), true) + R.Outstanding(R.Step(s, e)) ==
            R.Select(R.Answered(s), true) + R.Outstanding(s)
  {
    R.AnsweredStep(s, e);
    if e.Answer? {
      R.SelectAppend(R.Answered(s), s.compute.reply.origin, true);
    } else {
      R.SelectAppend(R.Answered(s), s.receive.reply.origin, true);
    }
  }

  lemma PreparedKept(s: R.State, e: R.Event)
    requires R.Enabled(s, e) && !e.Answer? && !e.Reject?
    ensures R.Answered(R.Step(s, e)) == R.Answered(s)
    ensures R.Outstanding(R.Step(s, e)) == R.Outstanding(s) + if e.PushJob? then [s.receive.job.origin] else []
  {
    R.AnsweredStep(s, e);
    if e.TakeOrExit? {
      R.OutstandingTake(s);
    } else if e.PushJob? {
      R.OutstandingPush(s);
    } else if !e.Receive? {
      R.QuietStep(s, e);
    }
  }

  lemma PreparedStep(s: R.State, e: R.Event)
    requires R.Sorted(s) && R.Enabled(s, e)
    ensures PreparedSoFar(R.Step(s, e)) == PreparedSoFar(s) +
            if e.Handle? && s.receive.request.verdict.Accepted? then [s.receive.request] else []
  {
    InHandStep(s, e);
    if e.Answer? || e.Reject? {
      PreparedReply(s, e);
    } else {
      PreparedKept(s, e);
    }
  }

  // ---------------------------------------------------------------- the server as it starts

  lemma {:induction false} ColdAlongRun(o: C.Ops, body: Body, s: R.State, es: seq<R.Event>, t: R.State, b: C.Abs)
    requires R.Routed(s) && PreparedSoFar(s) == [] && Run(o, body, s, C.Cold, es, t, b)
    ensures R.Routed(t) && PreparedSoFar(t) == [] && b == C.Cold
    decreases |es|
  {
    if es != [] {
      R.RoutedPreserved(s, es[0]);
      PreparedStep(s, es[0]);
      ColdAlongRun(o, body, R.Step(s, es[0]), es[1..], t, b);
    }
  }

  lemma {:induction false} RunIsPipelineRun(o: C.Ops, body: Body, s: R.State, a: C.Abs, es: seq<R.Event>, t: R.State,
                                            b: C.Abs)
    requires Run(o, body, s, a, es, t, b)
    ensures R.Run(s, es, t)
    decreases |es|
  {
    if es != [] {
      RunIsPipelineRun(o, body, R.Step(s, es[0]), EngineStep(o, body, s, a, es[0]), es[1..], t, b);
    }
  }

  lemma NothingPrepared(s: R.State, i: nat)
    requires PreparedSoFar(s) == [] && i < |s.sent + s.replies|
    ensures !(s.sent + s.replies)[i].origin.verdict.Accepted?
  {
    assert R.Answered(s)[i] == (s.sent + s.replies)[i].origin;
    if R.Answered(s)[i].verdict.Accepted? {
      R.SelectedOccurs(R.Answered(s), true, i);
    }
  }

  /** In every run of the server, for all operators and requests: the engine stays cold, no request is ever queued
      or computed, and every reply is a rejection. */
  lemma ServerRejectsAll(o: C.Ops, body: Body, es: seq<R.Event>, s: R.State, a: C.Abs)
    requires Run(o, body, R.INITIAL, C.Cold, es, s, a)
    ensures a == C.Cold && s.jobs == [] && s.served == 0 && !s.compute.Computing? && !s.compute.Answering?
    ensures forall r :: r in s.sent + s.replies ==>
              !r.origin.verdict.Accepted? && r.data == R.RejectionOf(r.origin.verdict) && r.data.payload.Error?
  {
    assert PreparedSoFar(R.INITIAL) == [];
    ColdAlongRun(o, body, R.INITIAL, es, s, a);
    RunIsPipelineRun(o, body, R.INITIAL, C.Cold, es, s, a);
    R.ReachableInv(s);
    forall r | r in s.sent + s.replies
      ensures !r.origin.verdict.Accepted? && r.data == R.RejectionOf(r.origin.verdict)
    {
      var i :| 0 <= i < |s.sent + s.replies| && (s.sent + s.replies)[i] == r;
      NothingPrepared(s, i);
      R.RepliesBelongToTheirRequests(s, r);
    }
  }

  // ---------------------------------------------------------------- a server given an engine

  function KeyOf(body: Body, first: seq<real>, prepared: seq<R.Request>): seq<real> {
    if prepared == [] then first else body(prepared[|prepared| - 1]).text
  }

  /** The stored key is the text of the request prepared last. */
  predicate KeyIsLatest(body: Body, first: seq<real>, s: R.State, a: C.Abs) {
    a.Warm? && a.key == KeyOf(body, first, PreparedSoFar(s))
  }

  /** Only accepting a request changes the key. */
  lemma EngineKey(o: C.Ops, body: Body, s: R.State, a: C.Abs, e: R.Event)
    requires a.Warm? && Enabled(o, body, s, a, e)
    ensures var b := EngineStep(o, body, s, a, e);
      b.Warm? && b.key == if e.Handle? && s.receive.request.verdict.Accepted? then body(s.receive.request).text
                          else a.key
  {
  }

  lemma KeyOfAppend(body: Body, first: seq<real>, prepared: seq<R.Request>, r: R.Request)
    ensures KeyOf(body, first, prepared + [r]) == body(r).text
  {
  }

  lemma KeyStep(o: C.Ops, body: Body, first: seq<real>, s: R.State, a: C.Abs, e: R.Event)
    requires R.Sorted(s) && KeyIsLatest(body, first, s, a) && Enabled(o, body, s, a, e)
    ensures KeyIsLatest(body, first, R.Step(s, e), EngineStep(o, body, s, a, e))
  {
    PreparedStep(s, e);
    EngineKey(o, body, s, a, e);
    if e.Handle? && s.receive.request.verdict.Accepted? {
      KeyOfAppend(body, first, PreparedSoFar(s), s.receive.request);
    } else {
      assert PreparedSoFar(R.Step(s, e)) == PreparedSoFar(s);
    }
  }

  lemma {:induction false} KeyAlongRun(o: C.Ops, body: Body, first: seq<real>, s: R.State, a: C.Abs,
                                       es: seq<R.Event>, t: R.State, b: C.Abs)
    requires R.Routed(s) && KeyIsLatest(body, first, s, a) && Run(o, body, s, a, es, t, b)
    ensures R.Routed(t) && KeyIsLatest(body, first, t, b)
    decreases |es|
  {
    if es != [] {
      R.RoutedPreserved(s, es[0]);
      KeyStep(o, body, first, s, a, es[0]);
      KeyAlongRun(o, body, first, R.Step(s, es[0]), EngineStep(o, body, s, a, es[0]), es[1..], t, b);
    }
  }

  /** The request whose text the compute thread is about to use. */
  function Latest(s: R.State): R.Request
    requires s.compute.Computing?
  {
    if Waiting(s) == [] then s.compute.job.origin else Waiting(s)[|Waiting(s)| - 1]
  }

  lemma LastOf(a: seq<R.Request>, x: R.Request, b: seq<R.Request>, c: seq<R.Request>)
    ensures var p, w := a + ([x] + b) + c, b + c; p[|p| - 1] == if w == [] then x else w[|w| - 1]
  {
  }

  lemma LatestIsLast(body: Body, first: seq<real>, s: R.State)
    requires s.compute.Computing?
    ensures KeyOf(body, first, PreparedSoFar(s)) == body(Latest(s)).text
  {
    LastOf(R.Select(R.Answered(s), true), s.compute.job.origin, R.JobOrigins(s.jobs), InHand(s));
  }

  lemma KeyAtWork(o: C.Ops, body: Body, first: C.Abs, es: seq<R.Event>, s: R.State, a: C.Abs)
    requires Run(o, body, R.INITIAL, first, es, s, a) && s.compute.Computing?
    ensures first.Warm? && a.Warm? && a.key == body(Latest(s)).text
  {
    assert PreparedSoFar(R.INITIAL) == [];
    if first.Cold? {
      ServerRejectsAll(o, body, es, s, a);
    } else {
      KeyAlongRun(o, body, first.key, R.INITIAL, first, es, s, a);
      LatestIsLast(body, first.key, s);
    }
  }

  /** Whatever engine the pipeline starts with, a chunk is computed from the text of the latest request accepted
      by then.  It is the uncached answer for all operators if and only if nothing waits behind its request or
      the last one waiting has the same text. */
  lemma ReplyRightIff(o: C.Ops, body: Body, first: C.Abs, es: seq<R.Event>, s: R.State, a: C.Abs)
    requires C.WellShaped(o) && o.hidden >= 1 && o.noiseLen >= 1
    requires Run(o, body, R.INITIAL, first, es, s, a) && s.compute.Computing?
    requires C.Proper(o, body(s.compute.job.origin))
    ensures a.Warm? && a.key == body(Latest(s)).text
    ensures body(Latest(s)).text == body(s.compute.job.origin).text ==>
              ChunkOf(o, body, s, a) == C.Uncached(o, body(s.compute.job.origin))
    ensures ChunkOf(C.Witness(o), body, s, a) == C.Uncached(C.Witness(o), body(s.compute.job.origin)) ==>
              body(Latest(s)).text == body(s.compute.job.origin).text
  {
    KeyAtWork(o, body, first, es, s, a);
    C.ComputeRightIff(o, a, body(s.compute.job.origin));
  }

  // ---------------------------------------------------------------- two requests in flight

  ghost predicate Reachable(o: C.Ops, body: Body, first: C.Abs, s: R.State, a: C.Abs) {
    exists es :: Run(o, body, R.INITIAL, first, es, s, a)
  }

  lemma {:induction false} AppendStep(o: C.Ops, body: Body, s: R.State, a: C.Abs, es: seq<R.Event>, t: R.State,
                                      b: C.Abs, e: R.Event)
    requires Run(o, body, s, a, es, t, b) && Enabled(o, body, t, b, e)
    ensures Run(o, body, s, a, es + [e], R.Step(t, e), EngineStep(o, body, t, b, e))
    decreases |es|
  {
    if es == [] {
      assert [e][1..] == [] && es + [e] == [e];
    } else {
      AppendStep(o, body, R.Step(s, es[0]), EngineStep(o, body, s, a, es[0]), es[1..], t, b, e);
      assert (es + [e])[1..] == es[1..] + [e];
    }
  }

  lemma Advance(o: C.Ops, body: Body, first: C.Abs, s: R.State, a: C.Abs, e: R.Event)
    returns (t: R.State, b: C.Abs)
    requires Reachable(o, body, first, s, a) && Enabled(o, body, s, a, e)
    ensures t == R.Step(s, e) && b == EngineStep(o, body, s, a, e) && Reachable(o, body, first, t, b)
  {
    t, b := R.Step(s, e), EngineStep(o, body, s, a, e);
    var es :| Run(o, body, R.INITIAL, first, es, s, a);
    AppendStep(o, body, R.INITIAL, first, es, s, a, e);
  }

  const ONE: R.Request := R.Request(0, "one", R.Accepted(1, []))
  const TWO: R.Request := R.Request(1, "two", R.Accepted(2, []))

  predicate Quiet(s: R.State) {
    s.receive.LoopTop? && s.compute.Testing? && !s.shutdown && s.replies == [] && s.sent == []
  }

  /** A request is received and prepared. */
  lemma Admitted(o: C.Ops, body: Body, first: C.Abs, s: R.State, a: C.Abs, r: R.Request)
    returns (t: R.State, b: C.Abs)
    requires Reachable(o, body, first, s, a) && Quiet(s) && C.CanPrepare(a, body(r))
    requires r.ticket == |s.received| && r.verdict.Accepted?
    ensures Reachable(o, body, first, t, b) && b == C.AfterPrepare(a, body(r))
    ensures t == s.(receive := R.Queueing(R.Job(r.identity, r.verdict.id, r.verdict.prepared, r)),
                    received := s.received + [r])
  {
    t, b := Advance(o, body, first, s, a, R.CheckShutdown);
    t, b := Advance(o, body, first, t, b, R.Drain);
    t, b := Advance(o, body, first, t, b, R.Receive(r.identity, r.verdict));
    t, b := Advance(o, body, first, t, b, R.Handle);
  }

  lemma Queued(o: C.Ops, body: Body, first: C.Abs, s: R.State, a: C.Abs)
    returns (t: R.State, b: C.Abs)
    requires Reachable(o, body, first, s, a) && s.receive.Queueing? && s.compute.Testing?
    ensures Reachable(o, body, first, t, b) && b == a
    ensures t == s.(receive := R.LoopTop, jobs := s.jobs + [s.receive.job])
  {
    t, b := Advance(o, body, first, s, a, R.PushJob);
    t, b := Advance(o, body, first, t, b, R.NotifyOne);
  }

  lemma TwoInFlight(o: C.Ops, body: Body, first: C.Abs) returns (s: R.State, a: C.Abs)
    requires C.CanPrepare(first, body(ONE)) && C.CanPrepare(first, body(TWO))
    ensures Reachable(o, body, first, s, a) && s.compute.Computing? && s.compute.job.origin == ONE
    ensures a.Warm? && a.key == body(TWO).text
  {
    s, a := R.INITIAL, first;
    assert Run(o, body, s, a, [], s, a);
    s, a := Admitted(o, body, first, s, a, ONE);
    s, a := Queued(o, body, first, s, a);
    s, a := Admitted(o, body, first, s, a, TWO);
    s, a := Advance(o, body, first, s, a, R.Evaluate);
    s, a := Advance(o, body, first, s, a, R.TakeOrExit);
  }

  /** The first request is being computed, and its chunk comes from the text of the second. */
  ghost predicate Mixes(o: C.Ops, body: Body, first: C.Abs, s: R.State, a: C.Abs) {
    && Reachable(o, body, first, s, a) && s.compute.Computing? && s.compute.job.origin == ONE
    && ChunkOf(o, body, s, a) == C.Answer(o, body(TWO).text, body(ONE))
  }

  ghost predicate Serves(o: C.Ops, body: Body, first: C.Abs) {
    exists s, a :: Reachable(o, body, first, s, a) && s.compute.Computing?
  }

  /** The pipeline ever computes a request if and only if a predict has warmed the engine before it starts; and
      two requests of the accepted length in flight then mix their texts. */
  lemma ServesIffWarm(o: C.Ops, body: Body, first: C.Abs)
    requires C.WellShaped(o) && o.hidden >= 1 && o.noiseLen >= 1
    requires C.Proper(o, body(ONE)) && C.Proper(o, body(TWO))
    requires first.Warm? ==> |first.key| == |body(ONE).text| == |body(TWO).text|
    ensures Serves(o, body, first) <==> first.Warm?
    ensures (exists s, a :: Mixes(o, body, first, s, a)) <==> first.Warm?
  {
    if first.Warm? {
      var s, a := TwoInFlight(o, body, first);
      C.SameRows(o.textDim, body(ONE).textSeq, body(TWO).textSeq);
      assert Mixes(o, body, first, s, a);
    } else {
      forall s, a | Reachable(o, body, first, s, a)
        ensures !s.compute.Computing?
      {
        var es :| Run(o, body, R.INITIAL, first, es, s, a);
        ServerRejectsAll(o, body, es, s, a);
      }
    }
  }
}
