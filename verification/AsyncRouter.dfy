/** The dual-thread ROUTER pipeline of the asynchronous server, as a step relation.

    A receive thread owns the socket; a compute thread owns the model.  They share `jobs` and
    `replies` (guarded by one mutex), a condition variable and the atomic flag `done`.
    Every step is one critical section, one atomic access or one thread-local action, so a run
    of steps is one interleaving of the two threads.  Inside `wait`, evaluating the predicate
    and blocking are separate steps: the mutex is held across both, but `done` is stored
    without the mutex and can change in between. */
module AsyncRouter {

  // ---------------------------------------------------------------- data

  datatype Payload = Chunk(values: seq<real>) | Error(message: string)
  datatype Response = Response(requestId: nat, payload: Payload)

  /** What parsing and preparing a request will conclude; chosen by the environment. */
  datatype Verdict =
    | Malformed
    | Invalid(id: nat, message: string)
    | PrepareFailed(id: nat, message: string)
    | Accepted(id: nat, prepared: seq<real>)

  /** A fully received request; `ticket` is its arrival number. */
  datatype Request = Request(ticket: nat, identity: string, verdict: Verdict)

  /** `origin` is a history tag: no step reads it to decide or to build anything else. */
  datatype Job = Job(identity: string, requestId: nat, prepared: seq<real>, origin: Request)
  datatype Reply = Reply(identity: string, data: Response, origin: Request)

  datatype ComputePc =
    | Testing                      // about to lock the mutex and evaluate the predicate
    | PredicateTrue                // holds the mutex, predicate was true
    | PredicateFalse               // holds the mutex, predicate was false, not yet blocked
    | Asleep                       // blocked on the condition variable, mutex released
    | Computing(job: Job)
    | Answering(reply: Reply)
    | Exited

  datatype ReceivePc =
    | LoopTop
    | Draining
    | Polling
    | Handling(request: Request)
    | Rejecting(reply: Reply)
    | Queueing(job: Job)
    | Notifying                    // job pushed, notify_one still owed
    | Stopping                     // left the loop, done not yet stored
    | Broadcasting                 // done stored, notify_all still owed
    | Joining
    | Returned

  datatype State = State(
    compute: ComputePc,
    receive: ReceivePc,
    jobs: seq<Job>,
    replies: seq<Reply>,
    done: bool,
    shutdown: bool,
    served: nat,
    sent: seq<Reply>,              // history: what went out on the socket
    received: seq<Request>,        // history: what came in
    storedInWindow: bool)          // history: done was stored between test and block

  datatype Event =
    | Evaluate | Block | SpuriousWake | TakeOrExit | Infer(chunk: seq<real>) | Answer
    | Signal | CheckShutdown | Drain | PollNothing | Receive(identity: string, verdict: Verdict)
    | Handle | Reject | PushJob | NotifyOne | StoreDone | NotifyAll | Join

  const INITIAL: State := State(Testing, LoopTop, [], [], false, false, 0, [], [], false)

  // ---------------------------------------------------------------- steps

  predicate HoldsMutex(c: ComputePc) {
    c.PredicateTrue? || c.PredicateFalse?
  }

  predicate Enabled(s: State, e: Event) {
    match e
    case Evaluate => s.compute.Testing?
    case Block => s.compute.PredicateFalse?
    case SpuriousWake => s.compute.Asleep?
    case TakeOrExit => s.compute.PredicateTrue? && (s.jobs != [] || s.done)
    case Infer(_) => s.compute.Computing?
    case Answer => s.compute.Answering?
    case Signal => !s.shutdown
    case CheckShutdown => s.receive.LoopTop?
    case Drain => s.receive.Draining? && !HoldsMutex(s.compute)
    case PollNothing => s.receive.Polling?
    case Receive(_, _) => s.receive.Polling?
    case Handle => s.receive.Handling?
    case Reject => s.receive.Rejecting? && !HoldsMutex(s.compute)
    case PushJob => s.receive.Queueing? && !HoldsMutex(s.compute)
    case NotifyOne => s.receive.Notifying?
    case StoreDone => s.receive.Stopping?
    case NotifyAll => s.receive.Broadcasting?
    case Join => s.receive.Joining? && s.compute.Exited?
  }

  function Woken(c: ComputePc): ComputePc {
    if c.Asleep? then Testing else c
  }

  function RejectionOf(v: Verdict): Response
    requires !v.Accepted?
  {
    match v
    case Malformed => Response(0, Error("request parse failed"))
    case Invalid(id, m) => Response(id, Error(m))
    case PrepareFailed(id, m) => Response(id, Error(m))
  }

  /** An empty action chunk becomes an error response. */
  function ResponseOf(requestId: nat, chunk: seq<real>): Response {
    if chunk == [] then Response(requestId, Error("compute failed")) else Response(requestId, Chunk(chunk))
  }

  function Step(s: State, e: Event): State
    requires Enabled(s, e)
  {
    match e
    case Evaluate => s.(compute := if s.jobs != [] || s.done then PredicateTrue else PredicateFalse)
    case Block => s.(compute := Asleep)
    case SpuriousWake => s.(compute := Testing)
    case TakeOrExit =>
      if s.jobs == [] then s.(compute := Exited)
      else s.(compute := Computing(s.jobs[0]), jobs := s.jobs[1..])
    case Infer(chunk) =>
      var j := s.compute.job;
      s.(compute := Answering(Reply(j.identity, ResponseOf(j.requestId, chunk), j.origin)))
    case Answer =>
      s.(compute := Testing, replies := s.replies + [s.compute.reply], served := s.served + 1)
    case Signal => s.(shutdown := true)
    case CheckShutdown => s.(receive := if s.shutdown then Stopping else Draining)
    case Drain => s.(receive := Polling, sent := s.sent + s.replies, replies := [])
    case PollNothing => s.(receive := LoopTop)
    case Receive(identity, verdict) =>
      var r := Request(|s.received|, identity, verdict);
      s.(receive := Handling(r), received := s.received + [r])
    case Handle =>
      var r := s.receive.request;
      if r.verdict.Accepted? then
        s.(receive := Queueing(Job(r.identity, r.verdict.id, r.verdict.prepared, r)))
      else
        s.(receive := Rejecting(Reply(r.identity, RejectionOf(r.verdict), r)))
    case Reject => s.(receive := LoopTop, replies := s.replies + [s.receive.reply])
    case PushJob => s.(receive := Notifying, jobs := s.jobs + [s.receive.job])
    case NotifyOne => s.(receive := LoopTop, compute := Woken(s.compute))
    case StoreDone => s.(receive := Broadcasting, done := true, storedInWindow := s.compute.PredicateFalse?)
    case NotifyAll => s.(receive := Joining, compute := Woken(s.compute))
    case Join => s.(receive := Returned)
  }

  /** `es` is a run from `s` to `t`. */
  predicate Run(s: State, es: seq<Event>, t: State)
    decreases |es|
  {
    if es == [] then s == t
    else Enabled(s, es[0]) && Run(Step(s, es[0]), es[1..], t)
  }

  ghost predicate Reachable(s: State) {
    exists es :: Run(INITIAL, es, s)
  }

  // ---------------------------------------------------------------- where requests are

  function Select(rs: seq<Request>, accepted: bool): seq<Request> {
    if rs == [] then []
    else
      var last := rs[|rs| - 1];
      Select(rs[..|rs| - 1], accepted) + (if last.verdict.Accepted? == accepted then [last] else [])
  }

  function JobOrigins(js: seq<Job>): seq<Request> {
    seq(|js|, i requires 0 <= i < |js| => js[i].origin)
  }

  function ReplyOrigins(rs: seq<Reply>): seq<Request> {
    seq(|rs|, i requires 0 <= i < |rs| => rs[i].origin)
  }

  function InCompute(c: ComputePc): seq<Request> {
    match c
    case Computing(j) => [j.origin]
    case Answering(r) => [r.origin]
    case _ => []
  }

  function InReceive(r: ReceivePc): seq<Request> {
    match r
    case Handling(q) => [q]
    case Rejecting(p) => [p.origin]
    case Queueing(j) => [j.origin]
    case _ => []
  }

  /** Requests that have a reply, in the order the replies go out. */
  function Answered(s: State): seq<Request> {
    ReplyOrigins(s.sent) + ReplyOrigins(s.replies)
  }

  // ---------------------------------------------------------------- invariants

  predicate JobMatches(j: Job) {
    j.identity == j.origin.identity && j.origin.verdict == Accepted(j.requestId, j.prepared)
  }

  /** The reply goes to the requester and answers the requester's own id. */
  ghost predicate ReplyMatches(r: Reply) {
    && r.identity == r.origin.identity
    && match r.origin.verdict
       case Accepted(id, _) => exists chunk :: r.data == ResponseOf(id, chunk)
       case v => r.data == RejectionOf(v)
  }

  ghost predicate Routed(s: State) {
    && (forall i :: 0 <= i < |s.jobs| ==> JobMatches(s.jobs[i]))
    && (forall i :: 0 <= i < |s.replies| ==> ReplyMatches(s.replies[i]))
    && (forall i :: 0 <= i < |s.sent| ==> ReplyMatches(s.sent[i]))
    && (s.compute.Computing? ==> JobMatches(s.compute.job))
    && (s.compute.Answering? ==> ReplyMatches(s.compute.reply))
    && (s.receive.Rejecting? ==> ReplyMatches(s.receive.reply))
    && (s.receive.Queueing? ==> JobMatches(s.receive.job))
    && Sorted(s)
  }

  /** Only accepted requests reach the compute thread; only rejected ones are answered by the receive thread. */
  predicate Sorted(s: State) {
    && (s.compute.Answering? ==> s.compute.reply.origin.verdict.Accepted?)
    && (s.receive.Rejecting? ==> !s.receive.reply.origin.verdict.Accepted?)
    && (s.receive.Queueing? ==> s.receive.job.origin.verdict.Accepted?)
  }

  /** The accepted requests flow through a first-in first-out pipeline, and so do the rejected ones. */
  predicate Flow(received: seq<Request>, answered: seq<Request>, inCompute: seq<Request>,
                 queued: seq<Request>, inReceive: seq<Request>) {
    && Select(received, true) == Select(answered, true) + inCompute + queued + Select(inReceive, true)
    && Select(received, false) == Select(answered, false) + Select(inReceive, false)
  }

  predicate Accounted(s: State) {
    Flow(s.received, Answered(s), InCompute(s.compute), JobOrigins(s.jobs), InReceive(s.receive))
  }

  /** Arrival numbers, and the bound below which every request outside the receive thread lies. */
  predicate Ticketed(s: State) {
    && (forall i :: 0 <= i < |s.received| ==> s.received[i].ticket == i)
    && (InReceive(s.receive) != [] ==> s.received != [] && InReceive(s.receive)[0] == s.received[|s.received| - 1])
  }

  function Horizon(s: State): int {
    |s.received| - |InReceive(s.receive)|
  }

  /** Requests waiting for their reply in the compute thread or its queue. */
  function Outstanding(s: State): seq<Request> {
    InCompute(s.compute) + JobOrigins(s.jobs)
  }

  predicate InOrder(answered: seq<Request>, outstanding: seq<Request>, bound: int) {
    && (forall i :: 0 <= i < |answered| ==> answered[i].ticket < bound)
    && (forall r :: r in outstanding ==> r.ticket < bound)
    && (forall i, j :: 0 <= i < j < |answered| && !answered[j].verdict.Accepted? ==>
          answered[i].ticket < answered[j].ticket)
  }

  /** A rejected request is never overtaken by a later one. */
  predicate RejectionsInOrder(s: State) {
    InOrder(Answered(s), Outstanding(s), Horizon(s))
  }

  predicate Wakeups(s: State) {
    && (s.done <==> s.receive.Broadcasting? || s.receive.Joining? || s.receive.Returned?)
    && (s.done || s.receive.Stopping? ==> s.shutdown)
    && (s.storedInWindow ==> s.done)
    && (s.compute.PredicateTrue? ==> s.jobs != [] || s.done)
    && (s.compute.PredicateFalse? ==> s.jobs == [] && (s.done ==> s.storedInWindow))
    && (s.compute.Asleep? && s.jobs != [] ==> s.receive.Notifying?)
    && (s.compute.Asleep? && s.done ==> s.receive.Broadcasting? || s.storedInWindow)
    && (s.compute.Exited? ==> s.done && s.jobs == [])
    && (s.receive.Returned? ==> s.compute.Exited?)
    && s.served == |Select(Answered(s), true)|
  }

  ghost predicate Inv(s: State) {
    Routed(s) && Accounted(s) && Ticketed(s) && RejectionsInOrder(s) && Wakeups(s)
  }

  // ---------------------------------------------------------------- preservation

  lemma {:induction false} SelectConcat(a: seq<Request>, b: seq<Request>, accepted: bool)
    ensures Select(a + b, accepted) == Select(a, accepted) + Select(b, accepted)
    decreases |b|
  {
    if b == [] {
      assert a + b == a;
    } else {
      var n := |b| - 1;
      assert (a + b)[..|a + b| - 1] == a + b[..n];
      SelectConcat(a, b[..n], accepted);
    }
  }

  lemma SelectAppend(a: seq<Request>, r: Request, accepted: bool)
    ensures Select(a + [r], accepted) ==
              Select(a, accepted) + if r.verdict.Accepted? == accepted then [r] else []
  {
  }

  /** Steps of the compute thread. */
  predicate OfCompute(e: Event) {
    e.Evaluate? || e.Block? || e.SpuriousWake? || e.TakeOrExit? || e.Infer? || e.Answer?
  }

  lemma RoutedByCompute(s: State, e: Event)
    requires Routed(s) && Enabled(s, e) && OfCompute(e)
    ensures Routed(Step(s, e))
  {
  }

  lemma RoutedByReceive(s: State, e: Event)
    requires Routed(s) && Enabled(s, e) && !OfCompute(e)
    ensures Routed(Step(s, e))
  {
  }

  lemma RoutedPreserved(s: State, e: Event)
    requires Routed(s) && Enabled(s, e)
    ensures Routed(Step(s, e))
  {
    if OfCompute(e) {
      RoutedByCompute(s, e);
    } else {
      RoutedByReceive(s, e);
    }
  }

  lemma AnsweredStep(s: State, e: Event)
    requires Enabled(s, e)
    ensures e.Answer? ==> Answered(Step(s, e)) == Answered(s) + [s.compute.reply.origin]
    ensures e.Reject? ==> Answered(Step(s, e)) == Answered(s) + [s.receive.reply.origin]
    ensures !e.Answer? && !e.Reject? ==> Answered(Step(s, e)) == Answered(s)
  {
  }

  lemma FlowReceive(rc: seq<Request>, a: seq<Request>, c: seq<Request>, q: seq<Request>, r: Request)
    requires Flow(rc, a, c, q, [])
    ensures Flow(rc + [r], a, c, q, [r])
  {
  }

  lemma FlowTake(rc: seq<Request>, a: seq<Request>, q: seq<Request>, v: seq<Request>)
    requires q != [] && Flow(rc, a, [], q, v)
    ensures Flow(rc, a, [q[0]], q[1..], v)
  {
  }

  lemma QuietStep(s: State, e: Event)
    requires Enabled(s, e)
    requires !e.Answer? && !e.Reject? && !e.Receive? && !e.PushJob? && !e.TakeOrExit?
    ensures var t := Step(s, e);
      && t.received == s.received && InCompute(t.compute) == InCompute(s.compute)
      && t.jobs == s.jobs && InReceive(t.receive) == InReceive(s.receive)
  {
  }

  lemma AccountedAnswer(s: State)
    requires Accounted(s) && Sorted(s) && Enabled(s, Answer)
    ensures Accounted(Step(s, Answer))
  {
    AnsweredStep(s, Answer);
  }

  lemma AccountedReject(s: State)
    requires Accounted(s) && Sorted(s) && Enabled(s, Reject)
    ensures Accounted(Step(s, Reject))
  {
    AnsweredStep(s, Reject);
  }

  lemma AccountedReceive(s: State, e: Event)
    requires Accounted(s) && Enabled(s, e) && e.Receive?
    ensures Accounted(Step(s, e))
  {
    AnsweredStep(s, e);
    FlowReceive(s.received, Answered(s), InCompute(s.compute), JobOrigins(s.jobs), Step(s, e).receive.request);
  }

  lemma AccountedPush(s: State)
    requires Accounted(s) && Sorted(s) && Enabled(s, PushJob)
    ensures Accounted(Step(s, PushJob))
  {
    AnsweredStep(s, PushJob);
    assert JobOrigins(s.jobs + [s.receive.job]) == JobOrigins(s.jobs) + [s.receive.job.origin];
  }

  lemma TakeStep(s: State)
    requires Enabled(s, TakeOrExit) && s.jobs != []
    ensures var t, q := Step(s, TakeOrExit), JobOrigins(s.jobs);
      && InCompute(s.compute) == [] && InCompute(t.compute) == [q[0]] && JobOrigins(t.jobs) == q[1..]
      && t.received == s.received && t.receive == s.receive
  {
  }

  lemma AccountedTake(s: State)
    requires Accounted(s) && Enabled(s, TakeOrExit)
    ensures Accounted(Step(s, TakeOrExit))
  {
    AnsweredStep(s, TakeOrExit);
    if s.jobs != [] {
      TakeStep(s);
      FlowTake(s.received, Answered(s), JobOrigins(s.jobs), InReceive(s.receive));
    }
  }

  lemma AccountedPreserved(s: State, e: Event)
    requires Accounted(s) && Sorted(s) && Enabled(s, e)
    ensures Accounted(Step(s, e))
  {
    if e.TakeOrExit? {
      AccountedTake(s);
    } else if e.Answer? {
      AccountedAnswer(s);
    } else if e.Reject? {
      AccountedReject(s);
    } else if e.Receive? {
      AccountedReceive(s, e);
    } else if e.PushJob? {
      AccountedPush(s);
    } else {
      QuietStep(s, e);
      AnsweredStep(s, e);
    }
  }

  lemma InReceiveStep(s: State, e: Event)
    requires Enabled(s, e) && !e.Receive?
    ensures Step(s, e).received == s.received
    ensures InReceive(Step(s, e).receive) == (if e.Reject? || e.PushJob? then [] else InReceive(s.receive))
  {
  }

  lemma TicketedPreserved(s: State, e: Event)
    requires Ticketed(s) && Enabled(s, e)
    ensures Ticketed(Step(s, e))
  {
    if !e.Receive? {
      InReceiveStep(s, e);
    }
  }

  lemma OutstandingTake(s: State)
    requires Enabled(s, TakeOrExit)
    ensures Outstanding(Step(s, TakeOrExit)) == Outstanding(s)
  {
    if s.jobs != [] {
      assert JobOrigins(s.jobs) == [s.jobs[0].origin] + JobOrigins(s.jobs[1..]);
    }
  }

  lemma OutstandingPush(s: State)
    requires Enabled(s, PushJob)
    ensures Outstanding(Step(s, PushJob)) == Outstanding(s) + [s.receive.job.origin]
  {
    assert JobOrigins(s.jobs + [s.receive.job]) == JobOrigins(s.jobs) + [s.receive.job.origin];
  }

  lemma OutstandingStep(s: State, e: Event, r: Request)
    requires Enabled(s, e) && r in Outstanding(Step(s, e))
    ensures r in Outstanding(s) || (e.PushJob? && r == s.receive.job.origin)
  {
    if e.TakeOrExit? {
      OutstandingTake(s);
    } else if e.PushJob? {
      OutstandingPush(s);
    } else if !e.Answer? && !e.Reject? && !e.Receive? {
      QuietStep(s, e);
    }
  }

  lemma HorizonStep(s: State, e: Event)
    requires Enabled(s, e)
    ensures Horizon(Step(s, e)) == Horizon(s) + if e.Reject? || e.PushJob? then 1 else 0
  {
    if !e.Receive? {
      InReceiveStep(s, e);
    }
  }

  lemma InOrderAppend(a: seq<Request>, r: Request, outstanding: seq<Request>, bound: int, next: int)
    requires InOrder(a, outstanding, bound) && bound <= next && r.ticket < next
    requires !r.verdict.Accepted? ==> bound <= r.ticket
    ensures InOrder(a + [r], [], next)
  {
  }

  lemma OutstandingBelow(s: State, e: Event)
    requires RejectionsInOrder(s) && Ticketed(s) && Enabled(s, e)
    ensures forall r :: r in Outstanding(Step(s, e)) ==> r.ticket < Horizon(Step(s, e))
  {
    HorizonStep(s, e);
    forall r | r in Outstanding(Step(s, e))
      ensures r.ticket < Horizon(Step(s, e))
    {
      OutstandingStep(s, e, r);
    }
  }

  lemma RejectionsInOrderPreserved(s: State, e: Event)
    requires RejectionsInOrder(s) && Ticketed(s) && Sorted(s) && Enabled(s, e)
    ensures RejectionsInOrder(Step(s, e))
  {
    AnsweredStep(s, e);
    HorizonStep(s, e);
    OutstandingBelow(s, e);
    if e.Answer? {
      assert s.compute.reply.origin == Outstanding(s)[0];
      InOrderAppend(Answered(s), s.compute.reply.origin, Outstanding(s), Horizon(s), Horizon(Step(s, e)));
    } else if e.Reject? {
      InOrderAppend(Answered(s), s.receive.reply.origin, Outstanding(s), Horizon(s), Horizon(Step(s, e)));
    }
  }

  lemma WakeupsPreserved(s: State, e: Event)
    requires Wakeups(s) && Sorted(s) && Enabled(s, e)
    ensures Wakeups(Step(s, e))
  {
    AnsweredStep(s, e);
    if e.Answer? {
      SelectAppend(Answered(s), s.compute.reply.origin, true);
    } else if e.Reject? {
      SelectAppend(Answered(s), s.receive.reply.origin, true);
      assert Select(Answered(Step(s, e)), true) == Select(Answered(s), true);
    }
  }

  lemma {:induction false} RunPreservesInv(s: State, es: seq<Event>, t: State)
    requires Inv(s) && Run(s, es, t)
    ensures Inv(t)
    decreases |es|
  {
    if es != [] {
      var e := es[0];
      RoutedPreserved(s, e);
      AccountedPreserved(s, e);
      TicketedPreserved(s, e);
      RejectionsInOrderPreserved(s, e);
      WakeupsPreserved(s, e);
      RunPreservesInv(Step(s, e), es[1..], t);
    }
  }

  lemma ReachableInv(s: State)
    requires Reachable(s)
    ensures Inv(s)
  {
    var es :| Run(INITIAL, es, s);
    assert Answered(INITIAL) == [];
    RunPreservesInv(INITIAL, es, s);
  }

  // ---------------------------------------------------------------- conservation and routing

  /** Every place a request can be, in one list. */
  function Places(s: State): seq<Request> {
    Answered(s) + InCompute(s.compute) + JobOrigins(s.jobs) + InReceive(s.receive)
  }

  lemma {:induction false} SelectSplits(rs: seq<Request>)
    ensures multiset(rs) == multiset(Select(rs, true)) + multiset(Select(rs, false))
  {
    if rs != [] {
      var n := |rs| - 1;
      SelectSplits(rs[..n]);
      assert rs == rs[..n] + [rs[n]];
    }
  }

  lemma FlowConserves(rc: seq<Request>, a: seq<Request>, c: seq<Request>, q: seq<Request>, v: seq<Request>)
    requires Flow(rc, a, c, q, v)
    ensures multiset(a + c + q + v) == multiset(rc)
  {
    SelectSplits(rc);
    SelectSplits(a);
    SelectSplits(v);
  }

  /** In every reachable state each received request is in exactly one place. */
  lemma EachRequestInOnePlace(s: State)
    requires Reachable(s)
    ensures multiset(Places(s)) == multiset(s.received)
    ensures forall r :: r in s.received ==> multiset(Places(s))[r] == 1
  {
    ReachableInv(s);
    FlowConserves(s.received, Answered(s), InCompute(s.compute), JobOrigins(s.jobs), InReceive(s.receive));
    forall r | r in s.received ensures multiset(s.received)[r] == 1 {
      TicketsOccurOnce(s.received, r);
    }
  }

  lemma {:induction false} TicketsOccurOnce(rs: seq<Request>, r: Request)
    requires forall i :: 0 <= i < |rs| ==> rs[i].ticket == i
    ensures multiset(rs)[r] == if r in rs then 1 else 0
  {
    if rs != [] {
      var n := |rs| - 1;
      TicketsOccurOnce(rs[..n], r);
      assert rs == rs[..n] + [rs[n]];
      assert rs[n] !in rs[..n];
    }
  }

  /** A reply under the request's own identity and id: the message of its rejection, a chunk that is not empty, or
      the error for an empty one.  A request that could not be parsed has no id; 0 stands for it. */
  predicate AnswersOwn(r: Reply) {
    && r.identity == r.origin.identity
    && match r.origin.verdict
       case Malformed => r.data == Response(0, Error("request parse failed"))
       case Invalid(id, m) => r.data.requestId == id && r.data.payload == Error(m)
       case PrepareFailed(id, m) => r.data.requestId == id && r.data.payload == Error(m)
       case Accepted(id, _) =>
         && r.data.requestId == id
         && match r.data.payload
            case Chunk(values) => values != []
            case Error(m) => m == "compute failed"
  }

  lemma MatchingAnswersOwn(r: Reply)
    requires ReplyMatches(r)
    ensures AnswersOwn(r)
  {
  }

  /** Every reply, queued or sent, answers a received request: same identity, same id, its own message. */
  lemma RepliesBelongToTheirRequests(s: State, r: Reply)
    requires Reachable(s) && r in s.sent + s.replies
    ensures r.origin in s.received && ReplyMatches(r) && AnswersOwn(r)
  {
    ReachableInv(s);
    EachRequestInOnePlace(s);
    var all := s.sent + s.replies;
    var i :| 0 <= i < |all| && all[i] == r;
    assert Answered(s)[i] == r.origin;
    assert r.origin in multiset(Places(s));
    MatchingAnswersOwn(r);
  }

  /** The reply to `job` with the chunk the model returned for it. */
  predicate CarriesChunk(r: Reply, job: Job, chunk: seq<real>) {
    && r.identity == job.identity && r.origin == job.origin && r.data.requestId == job.requestId
    && (chunk != [] ==> r.data.payload == Chunk(chunk))
    && (chunk == [] ==> r.data.payload == Error("compute failed"))
  }

  /** The computed chunk arrives in the reply queue under the job's own id. */
  lemma ChunkIsQueued(s: State, chunk: seq<real>)
    requires Enabled(s, Infer(chunk))
    ensures var t := Step(Step(s, Infer(chunk)), Answer);
      && |t.replies| == |s.replies| + 1 && t.replies[..|s.replies|] == s.replies
      && CarriesChunk(t.replies[|s.replies|], s.compute.job, chunk)
  {
  }

  // ---------------------------------------------------------------- order

  ghost predicate Increasing(rs: seq<Request>) {
    forall i, j :: 0 <= i < j < |rs| ==> rs[i].ticket < rs[j].ticket
  }

  lemma {:induction false} SelectIncreasing(rs: seq<Request>, accepted: bool)
    requires Increasing(rs)
    ensures Increasing(Select(rs, accepted))
    ensures forall r :: r in Select(rs, accepted) ==> r in rs && r.verdict.Accepted? == accepted
  {
    if rs != [] {
      SelectIncreasing(rs[..|rs| - 1], accepted);
    }
  }

  /** If the selected sublist increases, so do any two selected elements of the list itself. */
  lemma {:induction false} SelectedPairIncreases(rs: seq<Request>, accepted: bool, i: nat, j: nat)
    requires Increasing(Select(rs, accepted)) && i < j < |rs|
    requires rs[i].verdict.Accepted? == accepted && rs[j].verdict.Accepted? == accepted
    ensures rs[i].ticket < rs[j].ticket
  {
    var n := |rs| - 1;
    var front := Select(rs[..n], accepted);
    assert front <= Select(rs, accepted);
    if j < n {
      assert Increasing(front);
      SelectedPairIncreases(rs[..n], accepted, i, j);
    } else {
      SelectedOccurs(rs[..n], accepted, i);
      var k :| 0 <= k < |front| && front[k] == rs[i];
      assert Select(rs, accepted)[k] == rs[i] && Select(rs, accepted)[|front|] == rs[n];
    }
  }

  lemma {:induction false} SelectedOccurs(rs: seq<Request>, accepted: bool, i: nat)
    requires i < |rs| && rs[i].verdict.Accepted? == accepted
    ensures rs[i] in Select(rs, accepted)
  {
    if i < |rs| - 1 {
      SelectedOccurs(rs[..|rs| - 1], accepted, i);
    }
  }

  /** Replies leave in arrival order, except that a rejection may overtake earlier accepted requests. */
  lemma SendOrder(s: State, i: nat, j: nat)
    requires Reachable(s) && i < j < |Answered(s)|
    ensures var a, b := Answered(s)[i], Answered(s)[j];
      && (a.verdict.Accepted? == b.verdict.Accepted? ==> a.ticket < b.ticket)
      && (a.ticket > b.ticket ==> !a.verdict.Accepted? && b.verdict.Accepted?)
  {
    ReachableInv(s);
    SelectIncreasing(s.received, true);
    assert Select(Answered(s), true) <= Select(s.received, true);
    var a, b := Answered(s)[i], Answered(s)[j];
    if a.verdict.Accepted? && b.verdict.Accepted? {
      SelectedPairIncreases(Answered(s), true, i, j);
    }
  }

  /** Once the compute thread has exited nothing is queued or in flight: every request has its reply,
      sent or still in the reply queue, and the counter counted the accepted ones. */
  lemma ExitConserves(s: State)
    requires Reachable(s) && s.compute.Exited?
    ensures s.jobs == [] && InReceive(s.receive) == []
    ensures multiset(ReplyOrigins(s.sent)) + multiset(ReplyOrigins(s.replies)) == multiset(s.received)
    ensures |s.sent| + |s.replies| == |s.received|
    ensures s.served == |Select(s.received, true)|
  {
    ReachableInv(s);
    EachRequestInOnePlace(s);
    assert Places(s) == Answered(s);
    assert |multiset(Answered(s))| == |multiset(s.received)|;
  }

  // ---------------------------------------------------------------- wake-ups

  /** No lost wake-up for work: a sleeping compute thread with work queued has a notify on its way. */
  lemma WorkIsAlwaysNotified(s: State)
    requires Reachable(s) && s.compute.Asleep? && s.jobs != []
    ensures Enabled(s, NotifyOne) && Step(s, NotifyOne).compute.Testing?
  {
    ReachableInv(s);
  }

  // ---------------------------------------------------------------- progress

  /** Everything received so far has been answered and sent. */
  predicate Settled(s: State) {
    && s.jobs == [] && s.replies == []
    && InCompute(s.compute) == [] && InReceive(s.receive) == []
  }

  function ComputeWork(c: ComputePc): nat {
    match c
    case Testing => 3
    case PredicateTrue => 2
    case PredicateFalse => 5
    case Asleep => 4
    case Computing(_) => 12
    case Answering(_) => 11
    case Exited => 0
  }

  function ReceiveWork(r: ReceivePc): nat {
    match r
    case LoopTop => 2
    case Draining => 1
    case Polling => 3
    case Handling(_) => 40
    case Rejecting(_) => 30
    case Queueing(_) => 30
    case Notifying => 4
    case Stopping => 0
    case Broadcasting => 0
    case Joining => 0
    case Returned => 0
  }

  /** Bound on the steps to a settled state. */
  function Work(s: State): nat {
    20 * |s.jobs| + ComputeWork(s.compute) + ReceiveWork(s.receive) + if s.replies == [] then 0 else 5
  }

  /** A step of the two threads on the requests at hand: nothing new comes in and nobody wakes up by itself. */
  predicate OwnStep(e: Event) {
    !e.Receive? && !e.Signal? && !e.SpuriousWake?
  }

  /** The next step towards a settled state: the compute thread goes first while it has something to do. */
  function NextStep(s: State): Event {
    match s.compute
    case Computing(_) => Infer([])
    case Answering(_) => Answer
    case PredicateTrue => TakeOrExit
    case PredicateFalse => Block
    case _ =>
      if s.compute.Testing? && s.jobs != [] then Evaluate
      else match s.receive
        case Handling(_) => Handle
        case Rejecting(_) => Reject
        case Queueing(_) => PushJob
        case Notifying => NotifyOne
        case LoopTop => CheckShutdown
        case Draining => Drain
        case _ => PollNothing
  }

  /** The loop is running: no shutdown has been asked for. */
  predicate InService(s: State) {
    !s.shutdown && Wakeups(s)
  }

  lemma ServiceShape(s: State)
    requires InService(s)
    ensures !s.done && !LeftLoop(s) && !s.compute.Exited?
    ensures s.compute.PredicateTrue? ==> s.jobs != []
    ensures s.compute.PredicateFalse? ==> s.jobs == []
    ensures s.compute.Asleep? && s.jobs != [] ==> s.receive.Notifying?
  {
  }

  lemma ComputeWorks(s: State)
    requires InService(s) && !Settled(s)
    requires !s.compute.Asleep? && (s.compute.Testing? ==> s.jobs != [])
    ensures var e := NextStep(s); Enabled(s, e) && OwnStep(e) && Work(Step(s, e)) < Work(s)
    ensures var t := Step(s, NextStep(s)); !t.shutdown && t.received == s.received
  {
    ServiceShape(s);
  }

  lemma ReceiveWorks(s: State)
    requires InService(s) && !Settled(s)
    requires s.compute.Asleep? || (s.compute.Testing? && s.jobs == [])
    ensures var e := NextStep(s); Enabled(s, e) && OwnStep(e) && Work(Step(s, e)) < Work(s)
    ensures var t := Step(s, NextStep(s)); !t.shutdown && t.received == s.received
  {
    ServiceShape(s);
  }

  lemma ServiceStep(s: State)
    requires Inv(s) && !s.shutdown && !Settled(s)
    ensures var e := NextStep(s); Enabled(s, e) && OwnStep(e) && Work(Step(s, e)) < Work(s)
    ensures var t := Step(s, NextStep(s)); Inv(t) && !t.shutdown && t.received == s.received
  {
    if s.compute.Asleep? || (s.compute.Testing? && s.jobs == []) {
      ReceiveWorks(s);
    } else {
      ComputeWorks(s);
    }
    var e := NextStep(s);
    assert [e][1..] == [] && Run(s, [e], Step(s, e));
    RunPreservesInv(s, [e], Step(s, e));
  }

  ghost predicate OwnSteps(es: seq<Event>) {
    forall e :: e in es ==> OwnStep(e)
  }

  lemma {:induction false} Settles(s: State) returns (es: seq<Event>, t: State)
    requires Inv(s) && !s.shutdown
    ensures Run(s, es, t) && OwnSteps(es) && |es| <= Work(s)
    ensures Inv(t) && !t.shutdown && Settled(t) && t.received == s.received
    decreases Work(s)
  {
    if Settled(s) {
      es, t := [], s;
    } else {
      var e := NextStep(s);
      ServiceStep(s);
      var rest;
      rest, t := Settles(Step(s, e));
      es := [e] + rest;
      assert es[1..] == rest;
    }
  }

  /** Before shutdown no request is ever beyond answering: from every reachable state the steps of the two
      threads alone, without new requests or spurious wake-ups, lead within a bound to a state in which all
      received requests have been answered and their replies sent. */
  lemma EveryRequestCanBeServed(s: State) returns (es: seq<Event>, t: State)
    requires Reachable(s) && !s.shutdown
    ensures Run(s, es, t) && OwnSteps(es) && |es| <= Work(s) <= 20 * |s.jobs| + 57
    ensures t.received == s.received && t.replies == []
    ensures forall r :: r in s.received ==> r in ReplyOrigins(t.sent)
  {
    ReachableInv(s);
    es, t := Settles(s);
    RunsCompose(s, es, t);
    EachRequestInOnePlace(t);
    assert Places(t) == ReplyOrigins(t.sent);
    forall r | r in s.received
      ensures r in ReplyOrigins(t.sent)
    {
      assert r in multiset(t.received) && r in multiset(Places(t));
    }
  }

  // ---------------------------------------------------------------- shutdown

  /** No step is possible, unless the condition variable wakes up by itself. */
  ghost predicate Stuck(s: State) {
    forall e :: Enabled(s, e) ==> e.SpuriousWake?
  }

  /** Steps left after `done` has been stored. */
  function Remaining(s: State): nat {
    4 * |s.jobs|
    + (match s.compute
       case Testing => 2
       case PredicateTrue => 1
       case PredicateFalse => 4
       case Asleep => 3
       case Computing(_) => 4
       case Answering(_) => 3
       case Exited => 0)
    + (match s.receive
       case Broadcasting => 2
       case Joining => 1
       case _ => 0)
  }

  lemma ShutdownStepDecreases(s: State, e: Event)
    requires Wakeups(s) && s.done && Enabled(s, e)
    ensures Step(s, e).done && Remaining(Step(s, e)) < Remaining(s)
    ensures Step(s, e).storedInWindow == s.storedInWindow
  {
  }

  /** Every run that starts after `done` was stored is finite: at most 4 steps per queued job plus 6. */
  lemma {:induction false} ShutdownRunsAreShort(s: State, es: seq<Event>, t: State)
    requires Inv(s) && s.done && Run(s, es, t)
    ensures t.done && t.storedInWindow == s.storedInWindow
    ensures |es| + Remaining(t) <= Remaining(s) <= 4 * |s.jobs| + 6
    decreases |es|
  {
    if es != [] {
      var e := es[0];
      ShutdownStepDecreases(s, e);
      RunPreservesInv(s, [e], Step(s, e));
      ShutdownRunsAreShort(Step(s, e), es[1..], t);
    }
  }

  /** After `done` was stored outside the test-to-block window some thread can always move until the join. */
  lemma ShutdownMoves(s: State)
    requires Inv(s) && s.done && !s.storedInWindow && Stuck(s)
    ensures s.receive.Returned?
  {
    assert !Enabled(s, Evaluate) && !Enabled(s, TakeOrExit) && !Enabled(s, Block);
    assert !Enabled(s, Infer([])) && !Enabled(s, Answer);
    assert !Enabled(s, NotifyAll) && !Enabled(s, Join);
  }

  ghost predicate CanHang(s: State) {
    exists es, t :: Run(s, es, t) && Stuck(t) && !t.receive.Returned?
  }

  lemma HangsInWindow(s: State)
    requires Inv(s) && Enabled(s, StoreDone) && s.compute.PredicateFalse?
    ensures CanHang(Step(s, StoreDone))
  {
    var u := Step(s, StoreDone);
    var v := Step(u, NotifyAll);
    var t := Step(v, Block);
    assert [Block][1..] == [] && Run(v, [Block], t);
    assert [NotifyAll, Block][1..] == [Block];
    assert Run(u, [NotifyAll, Block], t);
    assert Stuck(t);
  }

  lemma HangsOnlyInWindow(s: State)
    requires Inv(s) && Enabled(s, StoreDone) && !s.compute.PredicateFalse?
    ensures !CanHang(Step(s, StoreDone))
  {
    var u := Step(s, StoreDone);
    RunPreservesInv(s, [StoreDone], u);
    if CanHang(u) {
      var es, t :| Run(u, es, t) && Stuck(t) && !t.receive.Returned?;
      RunPreservesInv(u, es, t);
      ShutdownRunsAreShort(u, es, t);
      ShutdownMoves(t);
    }
  }

  /** Shutdown can hang exactly when `done` is stored while the compute thread sits between
      evaluating the predicate and blocking. */
  lemma ShutdownHangsIffStoredInWindow(s: State)
    requires Reachable(s) && s.receive.Stopping?
    ensures CanHang(Step(s, StoreDone)) <==> s.compute.PredicateFalse?
  {
    ReachableInv(s);
    if s.compute.PredicateFalse? {
      HangsInWindow(s);
    } else {
      HangsOnlyInWindow(s);
    }
  }

  lemma ReachableStep(s: State, e: Event)
    requires Reachable(s) && Enabled(s, e)
    ensures Reachable(Step(s, e))
  {
    assert [e][1..] == [];
    RunsCompose(s, [e], Step(s, e));
  }

  lemma Advance(s: State, e: Event) returns (t: State)
    requires Reachable(s) && Enabled(s, e)
    ensures t == Step(s, e) && Reachable(t)
  {
    ReachableStep(s, e);
    t := Step(s, e);
  }

  lemma InWindowWhenStopping() returns (s: State)
    ensures Reachable(s) && s.receive.Stopping? && s.compute.PredicateFalse? && !s.done && s.shutdown
  {
    s := INITIAL;
    assert Run(s, [], s);
    s := Advance(s, Evaluate);
    s := Advance(s, Signal);
    s := Advance(s, CheckShutdown);
  }

  /** The hanging shutdown is reachable, in six steps from the start. */
  lemma HangIsReachable() returns (s: State)
    ensures Reachable(s) && Stuck(s) && s.compute.Asleep? && s.receive.Joining?
  {
    s := InWindowWhenStopping();
    s := Advance(s, StoreDone);
    s := Advance(s, NotifyAll);
    s := Advance(s, Block);
  }

  // ---------------------------------------------------------------- what shutdown leaves unsent

  predicate LeftLoop(s: State) {
    s.receive.Stopping? || s.receive.Broadcasting? || s.receive.Joining? || s.receive.Returned?
  }

  function Unsent(s: State): seq<Request> {
    ReplyOrigins(s.replies) + InCompute(s.compute) + JobOrigins(s.jobs)
  }

  lemma NothingSentByStep(s: State, e: Event)
    requires LeftLoop(s) && Enabled(s, e)
    ensures var t := Step(s, e); LeftLoop(t) && t.sent == s.sent && Unsent(t) == Unsent(s)
  {
    var t := Step(s, e);
    if e.TakeOrExit? && s.jobs != [] {
      assert JobOrigins(s.jobs) == [s.jobs[0].origin] + JobOrigins(t.jobs);
    } else if e.Answer? {
      assert ReplyOrigins(t.replies) == ReplyOrigins(s.replies) + [s.compute.reply.origin];
    }
  }

  lemma {:induction false} NothingSentAfterLoop(s: State, es: seq<Event>, t: State)
    requires LeftLoop(s) && Run(s, es, t)
    ensures LeftLoop(t) && t.sent == s.sent && Unsent(t) == Unsent(s)
    decreases |es|
  {
    if es != [] {
      NothingSentByStep(s, es[0]);
      NothingSentAfterLoop(Step(s, es[0]), es[1..], t);
    }
  }

  /** Replies are drained only inside the receive loop.  When the server has shut down, the unsent
      replies are those of exactly the requests that were unanswered when the loop was left: all
      clients got their reply if and only if nothing was outstanding then. */
  lemma ShutdownLosesOutstandingReplies(s: State, es: seq<Event>, t: State)
    requires Reachable(s) && s.receive.Stopping? && Run(s, es, t) && t.receive.Returned?
    ensures t.sent == s.sent
    ensures ReplyOrigins(t.replies) == ReplyOrigins(s.replies) + InCompute(s.compute) + JobOrigins(s.jobs)
    ensures |t.sent| == |t.received| <==> s.replies == [] && InCompute(s.compute) == [] && s.jobs == []
  {
    NothingSentAfterLoop(s, es, t);
    ReachableInv(s);
    RunPreservesInv(s, es, t);
    RunsCompose(s, es, t);
    ExitConserves(t);
  }

  const CLIENT: Request := Request(0, "client", Accepted(7, []))

  /** One accepted request has come in and waits to be queued. */
  lemma FirstRequest() returns (s: State)
    ensures Reachable(s) && s.receive == Queueing(Job("client", 7, [], CLIENT)) && s.compute.Testing?
    ensures s.received == [CLIENT] && s.jobs == [] && s.replies == [] && s.sent == [] && !s.shutdown
  {
    s := INITIAL;
    assert Run(s, [], s);
    s := Advance(s, CheckShutdown);
    s := Advance(s, Drain);
    s := Advance(s, Receive(CLIENT.identity, CLIENT.verdict));
    s := Advance(s, Handle);
  }

  /** A request accepted just before the signal is still queued when the receive loop ends. */
  lemma QueuedWhenStopping() returns (s: State)
    ensures Reachable(s) && s.receive.Stopping? && s.compute.Testing? && |s.jobs| == 1
    ensures s.replies == [] && s.sent == [] && s.received == [CLIENT]
  {
    s := FirstRequest();
    s := Advance(s, PushJob);
    s := Advance(s, NotifyOne);
    s := Advance(s, Signal);
    s := Advance(s, CheckShutdown);
  }

  lemma AnsweredWhenJoining() returns (s: State)
    ensures Reachable(s) && s.receive.Joining? && s.compute.Testing? && s.jobs == [] && s.done
    ensures s.sent == [] && s.received == [CLIENT] && |s.replies| == 1 && s.replies[0].data.payload.Chunk?
  {
    s := QueuedWhenStopping();
    s := Advance(s, StoreDone);
    s := Advance(s, NotifyAll);
    s := Advance(s, Evaluate);
    s := Advance(s, TakeOrExit);
    s := Advance(s, Infer([1.0]));
    s := Advance(s, Answer);
  }

  /** The loss is reachable: the server has shut down, its one request is answered and the reply never left. */
  lemma LossIsReachable() returns (s: State)
    ensures Reachable(s) && s.receive.Returned?
    ensures s.sent == [] && s.received == [CLIENT] && |s.replies| == 1 && s.replies[0].data.payload.Chunk?
  {
    s := AnsweredWhenJoining();
    s := Advance(s, Evaluate);
    s := Advance(s, TakeOrExit);
    s := Advance(s, Join);
  }

  lemma RunsCompose(s: State, es: seq<Event>, t: State)
    requires Reachable(s) && Run(s, es, t)
    ensures Reachable(t)
  {
    var before :| Run(INITIAL, before, s);
    AppendRuns(INITIAL, before, s, es, t);
  }

  lemma {:induction false} AppendRuns(s: State, es: seq<Event>, t: State, fs: seq<Event>, u: State)
    requires Run(s, es, t) && Run(t, fs, u)
    ensures Run(s, es + fs, u)
    decreases |es|
  {
    if es == [] {
      assert es + fs == fs;
    } else {
      AppendRuns(Step(s, es[0]), es[1..], t, fs, u);
      assert (es + fs)[1..] == es[1..] + fs;
    }
  }

  // ---------------------------------------------------------------- the critical sections as code

  /** The variables the two threads share, updated in place.  Each method is the body of one
      critical section (or atomic store) and performs exactly one step of the relation above. */
  class SharedQueues {
    var jobs: seq<Job>
    var replies: seq<Reply>
    var done: bool
    var served: nat
    var sent: seq<Reply>

    /** The pipeline state made of these variables and the rest of `s`. */
    ghost function In(s: State): State
      reads this
    {
      s.(jobs := jobs, replies := replies, done := done, served := served, sent := sent)
    }

    constructor ()
      ensures In(INITIAL) == INITIAL
    {
      jobs, replies, done, served, sent := [], [], false, 0, [];
    }

    /** The receive thread's drain: pop and send until the reply queue is empty. */
    method DrainReplies(ghost s: State)
      requires Enabled(In(s), Drain)
      modifies this`replies, this`sent
      ensures In(s.(receive := Polling)) == Step(old(In(s)), Drain)
    {
      while |replies| > 0
        invariant sent + replies == old(sent + replies)
      {
        var r := replies[0];
        replies := replies[1..];
        sent := sent + [r];
      }
    }

    /** What follows `wait` in the compute thread: leave if there is nothing to do, else take a job. */
    method TakeOrLeave(ghost s: State) returns (next: ComputePc)
      requires Enabled(In(s), TakeOrExit)
      modifies this`jobs
      ensures In(s.(compute := next)) == Step(old(In(s)), TakeOrExit)
    {
      if |jobs| == 0 && done {
        next := Exited;
      } else {
        next := Computing(jobs[0]);
        jobs := jobs[1..];
      }
    }

    /** The compute thread's work on a job; `chunk` is what the model returned. */
    method Complete(ghost s: State, job: Job, chunk: seq<real>)
      requires s.compute == Computing(job)
      modifies this`replies, this`served
      ensures In(s.(compute := Testing)) == Step(Step(old(In(s)), Infer(chunk)), Answer)
      ensures |replies| == |old(replies)| + 1 && replies[..|old(replies)|] == old(replies)
      ensures CarriesChunk(replies[|old(replies)|], job, chunk)
    {
      var response := Response(job.requestId, Chunk(chunk));
      if |chunk| == 0 {
        response := Response(job.requestId, Error("compute failed"));
      }
      replies := replies + [Reply(job.identity, response, job.origin)];
      served := served + 1;
    }

    /** The receive thread's work on a request: a rejection is answered at once, an accepted one is queued. */
    method Admit(ghost s: State, request: Request) returns (next: ReceivePc)
      requires s.receive == Handling(request) && !HoldsMutex(s.compute)
      modifies this`replies, this`jobs
      ensures In(s.(receive := next)) ==
              Step(Step(old(In(s)), Handle), if request.verdict.Accepted? then PushJob else Reject)
      ensures request.verdict.Accepted? ==>
        && replies == old(replies) && |jobs| == |old(jobs)| + 1
        && jobs[|old(jobs)|].origin == request && JobMatches(jobs[|old(jobs)|])
      ensures !request.verdict.Accepted? ==>
        && jobs == old(jobs) && |replies| == |old(replies)| + 1
        && replies[|old(replies)|].origin == request && AnswersOwn(replies[|old(replies)|])
    {
      match request.verdict {
        case Malformed =>
          replies := replies + [Reply(request.identity, Response(0, Error("request parse failed")), request)];
        case Invalid(id, m) =>
          replies := replies + [Reply(request.identity, Response(id, Error(m)), request)];
        case PrepareFailed(id, m) =>
          replies := replies + [Reply(request.identity, Response(id, Error(m)), request)];
        case Accepted(id, prepared) =>
          jobs := jobs + [Job(request.identity, id, prepared, request)];
          return Notifying;
      }
      next := LoopTop;
    }

    method Stop(ghost s: State)
      requires Enabled(In(s), StoreDone)
      modifies this`done
      ensures In(s.(receive := Broadcasting, storedInWindow := s.compute.PredicateFalse?)) ==
              Step(old(In(s)), StoreDone)
    {
      done := true;
    }
  }
}
