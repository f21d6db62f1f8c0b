/** What holds over every run of one DoIP connection. A run is any sequence of entry-point calls
    that the surrounding code may make, with arbitrary answers of the environment. */
module DoipRuns {
  import opened Wrappers
  import opened Bytes
  import opened DoipModel

  datatype Event =
    | AddMessageHandler
    | Resumed(address: bv16)
    | Started(internalAddress: bv16)
    | CloseCalled
    | PeerClosed
    | AliveCheckStarted(accepted: bool)
    | ActivationDone(success: bool, code: byte, accepted: bool)
    | HeaderIn(header: Header, versionOk: bool, answers: seq<bool>, receives: bool, accepted: bool)
    | ActivationPayload(payload: seq<byte>, result: FilterResult, accepted: bool)
    | AlivePayload(payload: seq<byte>)
    | TimerFired
    | JobReturned(id: nat)
    | ShutdownCalled

  /** What the surrounding code guarantees: nothing arrives on a connection that was not started,
      a resumed connection gets no alive check before start, and only jobs in flight come back. */
  predicate Enabled(c: Conn, e: Event) {
    match e
    case AddMessageHandler => true
    case Resumed(_) => true
    case Started(_) => true
    case ShutdownCalled => true
    case AliveCheckStarted(_) => c.started || c.state != ACTIVE
    case ActivationPayload(payload, _, _) => c.started && RequestPayload(payload)
    case AlivePayload(payload) => c.started && |payload| == 2
    case JobReturned(id) => c.started && id in c.inFlight
    case _ => c.started
  }

  function Step(c: Conn, e: Event): Conn
    requires Enabled(c, e)
  {
    match e
    case AddMessageHandler => AddHandler(c)
    case Resumed(address) => Resume(c, address)
    case Started(internalAddress) => Start(c, internalAddress)
    case CloseCalled => CloseNow(c)
    case PeerClosed => CloseNow(c)
    case AliveCheckStarted(accepted) => StartAliveCheck(c, accepted)
    case ActivationDone(success, code, accepted) => ActivationCompleted(c, success, code, accepted)
    case HeaderIn(header, versionOk, answers, receives, accepted) =>
      HeaderReceived(c, header, versionOk, answers, receives, accepted)
    case ActivationPayload(payload, result, accepted) => ActivationRequest(c, payload, result, accepted)
    case AlivePayload(payload) => AliveResponse(c, payload)
    case TimerFired => TimerExpired(c)
    case JobReturned(id) => JobDone(c, id)
    case ShutdownCalled => StopTimer(c)
  }

  // ----- history of a run -----

  /** A successful activation completes with an empty pool: the only way a closed connection is
      opened again. */
  predicate Reopens(c: Conn, e: Event) {
    e.ActivationDone? && e.success && c.state == ACTIVATING && c.free == 0
  }

  /** An alive check is requested after start, other than while one is already outstanding. */
  predicate Requests(c: Conn, e: Event) {
    e.AliveCheckStarted? && c.started && !(c.state == ACTIVE && c.aliveCheckPending)
  }

  /** An alive check response is delivered after the connection was shut down with a check
      outstanding. */
  predicate ArrivesLate(c: Conn, e: Event) {
    e.AlivePayload? && c.state == SHUTDOWN && c.aliveCheckPending
  }

  datatype History = History(reopened: bool, stopped: bool, requests: nat, late: nat)

  function Noted(h: History, c: Conn, e: Event): History {
    History(h.reopened || Reopens(c, e), h.stopped || e.ShutdownCalled?,
            h.requests + (if Requests(c, e) then 1 else 0), h.late + (if ArrivesLate(c, e) then 1 else 0))
  }

  // ----- the invariant -----

  /** Free slots and jobs in flight make up the pool; every job ever allocated is in flight or was
      released, once. */
  ghost predicate Balanced(free: nat, capacity: nat, inFlight: map<nat, SendJob>, released: seq<nat>, nextJob: nat) {
    && free + |inFlight| == capacity
    && |released| + |inFlight| == nextJob
    && (forall i, j :: 0 <= i < j < |released| ==> released[i] != released[j])
    && (forall i :: 0 <= i < |released| ==> released[i] < nextJob && released[i] !in inFlight)
    && (forall id :: id in inFlight ==> id < nextJob && inFlight[id].id == id)
  }

  ghost predicate PoolBalanced(c: Conn) {
    Balanced(c.free, c.capacity, c.inFlight, c.released, c.nextJob)
  }

  ghost predicate RefusedClose(out: seq<Output>) {
    exists o :: o in out && o.Sent? && !o.accepted && o.job.closeAfterSend
  }

  ghost predicate CloseInFlight(inFlight: map<nat, SendJob>) {
    exists id :: id in inFlight && inFlight[id].closeAfterSend
  }

  ghost predicate ClosingBacked(c: Conn) {
    c.state == CLOSING ==> CloseInFlight(c.inFlight) || RefusedClose(c.out)
  }

  /** The broadcasts of a started connection. */
  function Life(routing: bool, shutDown: bool, reopened: bool): seq<HandlerCall> {
    if reopened then [Opened, Closed, RoutingActive] + if shutDown then [Closed] else []
    else [Opened] + (if routing then [RoutingActive] else []) + if shutDown then [Closed] else []
  }

  /** The broadcasts made so far, read off the state. */
  function Expected(c: Conn, reopened: bool): seq<HandlerCall> {
    if c.started then Life(c.isOrWasRouting, c.state == SHUTDOWN, reopened) else []
  }

  /** A handler has seen the broadcasts made since it was registered. */
  ghost predicate Informed(handlers: seq<Handler>, broadcasts: seq<HandlerCall>) {
    forall i :: 0 <= i < |handlers| ==>
      |handlers[i].calls| <= |broadcasts|
      && handlers[i].calls == broadcasts[|broadcasts| - |handlers[i].calls|..]
  }

  /** A handler registered before start has seen all of them. */
  ghost predicate EarlyInformed(early: nat, handlers: seq<Handler>, broadcasts: seq<HandlerCall>) {
    early <= |handlers| && forall i :: 0 <= i < early ==> handlers[i].calls == broadcasts
  }

  ghost predicate HandlersInformed(c: Conn) {
    Informed(c.handlers, c.broadcasts) && (c.started ==> EarlyInformed(c.early, c.handlers, c.broadcasts))
  }

  function Answers(c: Conn): nat {
    multiset(c.out)[AliveAnswer(true)] + multiset(c.out)[AliveAnswer(false)]
  }

  function Outstanding(c: Conn): nat { if c.aliveCheckPending && c.state != SHUTDOWN then 1 else 0 }

  ghost predicate ChecksAnswered(c: Conn, h: History) {
    Answers(c) + Outstanding(c) == h.requests + h.late
  }

  ghost predicate TimerArmed(c: Conn, h: History) {
    && (c.started && !h.stopped && (c.state == INACTIVE || c.state == ACTIVE) ==> c.timer.Armed?)
    && (c.state == SHUTDOWN ==> c.timer == Idle)
  }

  ghost predicate StateConsistent(c: Conn, h: History) {
    && (!c.started ==>
      && (c.state == INACTIVE || c.state == ACTIVE)
      && c.inFlight == map[] && c.out == [] && c.broadcasts == [] && c.timer == Idle
      && !c.aliveCheckPending && !h.reopened && h.requests == 0 && h.late == 0)
    && (c.state == INACTIVE || c.state == ACTIVATING ==> !c.aliveCheckPending && !h.reopened && !c.isOrWasRouting)
    && (c.state == ACTIVE ==> c.isOrWasRouting)
    && (h.reopened ==> c.isOrWasRouting)
  }

  ghost predicate Closures(c: Conn, h: History) {
    multiset(c.out)[ConnectionClosedCallback] == (if h.reopened then 1 else 0) + if c.state == SHUTDOWN then 1 else 0
  }

  ghost predicate Inv(c: Conn, h: History) {
    && PoolBalanced(c)
    && ClosingBacked(c)
    && c.broadcasts == Expected(c, h.reopened)
    && HandlersInformed(c)
    && ChecksAnswered(c, h)
    && TimerArmed(c, h)
    && StateConsistent(c, h)
    && Closures(c, h)
  }

  // ----- the primitive effects keep the invariant -----

  /** All of the invariant but the clause that a closing connection has a job to close it. */
  ghost predicate InvButClosing(c: Conn, h: History) {
    && PoolBalanced(c)
    && c.broadcasts == Expected(c, h.reopened)
    && HandlersInformed(c)
    && ChecksAnswered(c, h)
    && TimerArmed(c, h)
    && StateConsistent(c, h)
    && Closures(c, h)
  }

  predicate Neutral(o: Output) {
    o != ConnectionClosedCallback && !o.AliveAnswer? && !o.Sent?
  }

  lemma RefusalRemembered(out: seq<Output>, o: Output)
    requires RefusedClose(out)
    ensures RefusedClose(out + [o])
  {
    var r :| r in out && r.Sent? && !r.accepted && r.job.closeAfterSend;
    assert r in out + [o];
  }

  lemma EmitKeeps(c: Conn, h: History, o: Output)
    requires Inv(c, h) && c.started && Neutral(o)
    ensures Inv(Emit(c, o), h)
  {
    if RefusedClose(c.out) { RefusalRemembered(c.out, o); }
  }

  lemma BroadcastInforms(c: Conn, call: HandlerCall)
    requires HandlersInformed(c)
    ensures HandlersInformed(Broadcast(c, call))
  {
    var c' := Broadcast(c, call);
    forall i | 0 <= i < |c.handlers|
      ensures |c'.handlers[i].calls| <= |c'.broadcasts|
      ensures c'.handlers[i].calls == c'.broadcasts[|c'.broadcasts| - |c'.handlers[i].calls|..]
    {
      assert c.handlers[i].calls == c.broadcasts[|c.broadcasts| - |c.handlers[i].calls|..];
    }
  }

  /** What closing tells: one closing to the callback, and the answer to a pending check. */
  lemma CloseAnswers(c: Conn)
    requires c.state != SHUTDOWN
    ensures var c' := CloseNow(c);
      && Answers(c') == Answers(c) + Outstanding(c)
      && multiset(c'.out)[ConnectionClosedCallback] == multiset(c.out)[ConnectionClosedCallback] + 1
  {
  }

  lemma CloseInforms(c: Conn)
    requires HandlersInformed(c) && c.state != SHUTDOWN
    ensures HandlersInformed(CloseNow(c)) && CloseNow(c).broadcasts == c.broadcasts + [Closed]
  {
    var closing := Emit(c.(state := SHUTDOWN), ConnectionClose);
    BroadcastInforms(closing, Closed);
  }

  lemma CloseKeeps(c: Conn, h: History)
    requires InvButClosing(c, h) && c.started && c.state != SHUTDOWN
    ensures Inv(CloseNow(c), h)
  {
    CloseAnswers(c);
    CloseInforms(c);
  }

  lemma CloseAlways(c: Conn, h: History)
    requires Inv(c, h) && c.started
    ensures Inv(CloseNow(c), h)
  {
    if c.state != SHUTDOWN { CloseKeeps(c, h); }
  }

  lemma MapRemove<K, V>(m: map<K, V>, k: K)
    ensures k in m ==> |m - {k}| == |m| - 1
    ensures k !in m ==> m - {k} == m
  {
    assert (m - {k}).Keys == m.Keys - {k};
  }

  lemma TakeAndSend(
    free: nat, capacity: nat, inFlight: map<nat, SendJob>, released: seq<nat>, nextJob: nat, job: SendJob)
    requires Balanced(free, capacity, inFlight, released, nextJob) && free > 0 && job.id == nextJob
    ensures Balanced(free - 1, capacity, inFlight[nextJob := job], released, nextJob + 1)
  {
  }

  lemma TakeAndReturn(free: nat, capacity: nat, inFlight: map<nat, SendJob>, released: seq<nat>, nextJob: nat)
    requires Balanced(free, capacity, inFlight, released, nextJob) && free > 0
    ensures inFlight - {nextJob} == inFlight
    ensures Balanced(free, capacity, inFlight, released + [nextJob], nextJob + 1)
  {
    MapRemove(inFlight, nextJob);
  }

  lemma Returned(free: nat, capacity: nat, inFlight: map<nat, SendJob>, released: seq<nat>, nextJob: nat, id: nat)
    requires Balanced(free, capacity, inFlight, released, nextJob) && id in inFlight
    ensures Balanced(free + 1, capacity, inFlight - {id}, released + [id], nextJob)
  {
    MapRemove(inFlight, id);
  }

  function JobFor(c: Conn, payloadType: bv16, payload: seq<byte>, closeAfterSend: bool): SendJob {
    SendJob(c.nextJob, payloadType, payload, closeAfterSend)
  }

  /** A job taken from a non-empty pool is in flight, or was refused and went back. */
  function AfterSend(c: Conn, job: SendJob, accepted: bool): Conn
    requires c.free > 0
  {
    var taken := c.(state := if job.closeAfterSend then CLOSING else c.state, nextJob := c.nextJob + 1,
                    out := c.out + [Sent(job, accepted)]);
    if accepted then taken.(free := c.free - 1, inFlight := c.inFlight[c.nextJob := job])
    else taken.(released := c.released + [c.nextJob])
  }

  lemma SentShape(c: Conn, payloadType: bv16, payload: seq<byte>, closeAfterSend: bool, accepted: bool)
    requires PoolBalanced(c) && c.free > 0 && c.state != SHUTDOWN
    ensures SendOrClose(c, payloadType, payload, closeAfterSend, accepted)
         == AfterSend(c, JobFor(c, payloadType, payload, closeAfterSend), accepted)
  {
    if !accepted {
      TakeAndReturn(c.free, c.capacity, c.inFlight, c.released, c.nextJob);
    }
  }

  lemma SentBalances(c: Conn, job: SendJob, accepted: bool)
    requires PoolBalanced(c) && c.free > 0 && job.id == c.nextJob
    ensures PoolBalanced(AfterSend(c, job, accepted))
  {
    TakeAndReturn(c.free, c.capacity, c.inFlight, c.released, c.nextJob);
    TakeAndSend(c.free, c.capacity, c.inFlight, c.released, c.nextJob, job);
  }

  lemma SentBacks(c: Conn, job: SendJob, accepted: bool)
    requires PoolBalanced(c) && ClosingBacked(c) && c.free > 0 && job.id == c.nextJob
    ensures ClosingBacked(AfterSend(c, job, accepted))
  {
    var c' := AfterSend(c, job, accepted);
    if job.closeAfterSend {
      assert Sent(job, accepted) in c'.out;
      if accepted { assert c.nextJob in c'.inFlight && c'.inFlight[c.nextJob].closeAfterSend; }
    } else if c.state == CLOSING {
      if RefusedClose(c.out) {
        RefusalRemembered(c.out, Sent(job, accepted));
      } else {
        var id :| id in c.inFlight && c.inFlight[id].closeAfterSend;
        assert id in c'.inFlight && c'.inFlight[id].closeAfterSend;
      }
    }
  }

  lemma NothingToSend(c: Conn, payloadType: bv16, payload: seq<byte>, closeAfterSend: bool, accepted: bool)
    requires c.free == 0 || c.state == SHUTDOWN
    ensures SendOrClose(c, payloadType, payload, closeAfterSend, accepted) == CloseNow(c)
  {
  }

  /** Handing over a job touches none of the clauses about handlers, timer and closings. */
  lemma SentFrame(c: Conn, h: History, job: SendJob, accepted: bool)
    requires c.free > 0 && c.started && c.state != SHUTDOWN
    requires HandlersInformed(c) && TimerArmed(c, h) && StateConsistent(c, h)
    ensures var c' := AfterSend(c, job, accepted);
      HandlersInformed(c') && TimerArmed(c', h) && StateConsistent(c', h)
  {
  }

  lemma SentAnswers(c: Conn, job: SendJob, accepted: bool)
    requires c.free > 0 && c.state != SHUTDOWN
    ensures var c' := AfterSend(c, job, accepted);
      && Answers(c') == Answers(c) && Outstanding(c') == Outstanding(c)
      && multiset(c'.out)[ConnectionClosedCallback] == multiset(c.out)[ConnectionClosedCallback]
  {
  }

  lemma SentKeeps(c: Conn, h: History, job: SendJob, accepted: bool)
    requires Inv(c, h) && c.started && c.free > 0 && c.state != SHUTDOWN && job.id == c.nextJob
    ensures Inv(AfterSend(c, job, accepted), h)
  {
    SentBalances(c, job, accepted);
    SentBacks(c, job, accepted);
    SentFrame(c, h, job, accepted);
    SentAnswers(c, job, accepted);
  }

  lemma SendKeeps(c: Conn, h: History, payloadType: bv16, payload: seq<byte>, closeAfterSend: bool, accepted: bool)
    requires Inv(c, h) && c.started
    ensures Inv(SendOrClose(c, payloadType, payload, closeAfterSend, accepted), h)
  {
    if c.free == 0 || c.state == SHUTDOWN {
      NothingToSend(c, payloadType, payload, closeAfterSend, accepted);
      CloseAlways(c, h);
    } else {
      SentShape(c, payloadType, payload, closeAfterSend, accepted);
      SentKeeps(c, h, JobFor(c, payloadType, payload, closeAfterSend), accepted);
    }
  }

  // ----- every entry point keeps the invariant -----

  lemma RearmKeeps(c: Conn, h: History)
    requires Inv(c, h) && c.started
    ensures Inv(Rearmed(c), h) && Rearmed(c).started
  {
  }

  /** Handlers that were told the same are informed alike. */
  lemma SameCalls(hs: seq<Handler>, hs': seq<Handler>, broadcasts: seq<HandlerCall>, early: nat)
    requires |hs'| == |hs| && forall i :: 0 <= i < |hs| ==> hs'[i].calls == hs[i].calls
    requires Informed(hs, broadcasts)
    ensures Informed(hs', broadcasts)
    ensures EarlyInformed(early, hs, broadcasts) ==> EarlyInformed(early, hs', broadcasts)
  {
  }

  /** Only what the handlers were offered has changed. */
  lemma ReplacedKeeps(c: Conn, h: History, handlers: seq<Handler>)
    requires Inv(c, h)
    requires |handlers| == |c.handlers| && forall i :: 0 <= i < |handlers| ==> handlers[i].calls == c.handlers[i].calls
    ensures Inv(c.(handlers := handlers), h)
  {
    SameCalls(c.handlers, handlers, c.broadcasts, c.early);
  }

  lemma OfferKeeps(c: Conn, h: History, header: Header, n: nat)
    requires Inv(c, h)
    ensures Inv(Offer(c, header, n), h)
  {
    ReplacedKeeps(c, h, OfferedTo(c.handlers, header, n));
  }

  lemma NackKeeps(c: Conn, h: History, code: byte, closeAfterSend: bool, accepted: bool)
    requires Inv(c, h) && c.started
    ensures Inv(SendNack(c, code, closeAfterSend, accepted), h)
  {
    SendKeeps(c, h, NEGATIVE_ACK, [code], closeAfterSend, accepted);
  }

  lemma ResponseKeeps(c: Conn, h: History, tester: bv16, code: byte, closeAfterSend: bool, accepted: bool)
    requires Inv(c, h) && c.started
    ensures Inv(SendResponse(c, tester, code, closeAfterSend, accepted), h)
  {
    SendKeeps(c, h, ROUTING_ACTIVATION_RESPONSE, ResponsePayload(tester, c.entity, code), closeAfterSend, accepted);
  }

  lemma HeaderActivationKeeps(c: Conn, h: History, header: Header, receives: bool, accepted: bool)
    requires Inv(c, h) && c.started
    ensures Inv(HeaderActivation(c, header, receives, accepted), h)
  {
    if header.payloadLength != 7 && header.payloadLength != 11 {
      NackKeeps(c, h, NACK_INVALID_PAYLOAD_LENGTH, true, accepted);
    } else {
      EmitKeeps(c, h, ReceivePayload(header.payloadLength, receives));
    }
  }

  lemma HeaderAliveKeeps(c: Conn, h: History, header: Header, receives: bool, accepted: bool)
    requires Inv(c, h) && c.started
    ensures Inv(HeaderAlive(c, header, receives, accepted), h)
  {
    if header.payloadLength != 2 {
      NackKeeps(c, h, NACK_INVALID_PAYLOAD_LENGTH, true, accepted);
    } else {
      EmitKeeps(c, h, ReceivePayload(2, receives));
    }
  }

  lemma UnansweredKeeps(c: Conn, h: History, header: Header, accepted: bool)
    requires Inv(c, h) && c.started
    ensures Inv(SendNack(Offer(c, header, |c.handlers|), NACK_UNKNOWN_PAYLOAD_TYPE, false, accepted), h)
  {
    OfferKeeps(c, h, header, |c.handlers|);
    NackKeeps(Offer(c, header, |c.handlers|), h, NACK_UNKNOWN_PAYLOAD_TYPE, false, accepted);
  }

  lemma HeaderDefaultKeeps(c: Conn, h: History, header: Header, answers: seq<bool>, accepted: bool)
    requires Inv(c, h) && c.started
    ensures Inv(HeaderDefault(c, header, answers, accepted), h)
  {
    match FirstAccepting(answers, |c.handlers|)
    case Some(k) =>
      OfferKeeps(c, h, header, k + 1);
      assert HeaderDefault(c, header, answers, accepted) == Offer(c, header, k + 1);
    case None =>
      UnansweredKeeps(c, h, header, accepted);
      assert HeaderDefault(c, header, answers, accepted)
          == SendNack(Offer(c, header, |c.handlers|), NACK_UNKNOWN_PAYLOAD_TYPE, false, accepted);
  }

  lemma HeaderKeeps(
    c: Conn, h: History, header: Header, versionOk: bool, answers: seq<bool>, receives: bool, accepted: bool)
    requires Inv(c, h) && c.started
    ensures Inv(HeaderReceived(c, header, versionOk, answers, receives, accepted), h)
  {
    RearmKeeps(c, h);
    if !versionOk {
      NackKeeps(c, h, NACK_INCORRECT_PATTERN, true, accepted);
    } else if header.payloadType == ROUTING_ACTIVATION_REQUEST {
      HeaderActivationKeeps(Rearmed(c), h, header, receives, accepted);
    } else if header.payloadType == ALIVE_CHECK_RESPONSE {
      HeaderAliveKeeps(Rearmed(c), h, header, receives, accepted);
    } else if Silent(header.payloadType) {
      EmitKeeps(Rearmed(c), h, EndReceive);
    } else {
      HeaderDefaultKeeps(Rearmed(c), h, header, answers, accepted);
    }
  }

  lemma BindKeeps(c: Conn, h: History, source: bv16, internalAddress: bv16)
    requires Inv(c, h) && c.started && c.state == INACTIVE
    ensures Inv(BindAddress(c, source, internalAddress), h)
    ensures BindAddress(c, source, internalAddress).started
  {
    var bound := c.(sourceAddress := source, internalAddress := internalAddress, state := ACTIVATING);
    assert Inv(bound, h);
    EmitKeeps(bound, h, ActivationRequested);
  }

  lemma DecideKeeps(c: Conn, h: History, source: bv16, result: FilterResult, accepted: bool)
    requires Inv(c, h) && c.started
    ensures Inv(Decide(c, source, result, accepted), h)
  {
    if result.action != Continue {
      ResponseKeeps(c, h, source, result.responseCode, result.action == Reject, accepted);
    } else if c.state == INACTIVE {
      BindKeeps(c, h, source, result.internalAddress);
    } else if c.sourceAddress == source {
      ResponseKeeps(c, h, source, ROUTING_SUCCESS, false, accepted);
    } else {
      ResponseKeeps(c, h, source, ROUTING_WRONG_SOURCE_ADDRESS, true, accepted);
    }
  }

  /** What closing and sending leave alone. */
  predicate SameLine(c: Conn, c': Conn) {
    && c'.started == c.started && c'.early == c.early && c'.entity == c.entity && c'.capacity == c.capacity
    && c'.sourceAddress == c.sourceAddress && c'.aliveCheckPending == c.aliveCheckPending
  }

  lemma AnnounceFrame(c: Conn)
    ensures var c' := AnnounceClosed(c);
      SameLine(c, c') && c'.state == c.state && c'.inFlight == c.inFlight && c'.free == c.free
  {
  }

  lemma CloseFrame(c: Conn)
    ensures var c' := CloseNow(c);
      SameLine(c, c') && c'.state == SHUTDOWN && c'.inFlight == c.inFlight && c'.free == c.free
  {
    if c.state != SHUTDOWN {
      AnnounceFrame(Broadcast(Emit(c.(state := SHUTDOWN), ConnectionClose), Closed));
    }
  }

  lemma SendFrame(c: Conn, job: SendJob, accepted: bool)
    ensures SameLine(c, SendOrRelease(c, job, accepted)) && SendOrRelease(c, job, accepted).state == c.state
  {
  }

  /** The pool slot a message takes. */
  function Taken(c: Conn, closeAfterSend: bool): Conn
    requires c.free > 0
  {
    c.(state := if closeAfterSend then CLOSING else c.state, free := c.free - 1, nextJob := c.nextJob + 1)
  }

  lemma StaysStarted(c: Conn, payloadType: bv16, payload: seq<byte>, closeAfterSend: bool, accepted: bool)
    ensures var c' := SendOrClose(c, payloadType, payload, closeAfterSend, accepted);
      && SameLine(c, c')
      && c'.state == if c.state == SHUTDOWN || c.free == 0 then SHUTDOWN
                     else if closeAfterSend then CLOSING else c.state
  {
    if c.state == SHUTDOWN || c.free == 0 {
      CloseFrame(c);
    } else {
      SendFrame(Taken(c, closeAfterSend), JobFor(c, payloadType, payload, closeAfterSend), accepted);
    }
  }

  lemma ResponseStarted(c: Conn, tester: bv16, code: byte, closeAfterSend: bool, accepted: bool)
    ensures SendResponse(c, tester, code, closeAfterSend, accepted).started == c.started
  {
    StaysStarted(c, ROUTING_ACTIVATION_RESPONSE, ResponsePayload(tester, c.entity, code), closeAfterSend, accepted);
  }

  lemma DecideStarted(c: Conn, source: bv16, result: FilterResult, accepted: bool)
    ensures Decide(c, source, result, accepted).started == c.started
  {
    if result.action != Continue {
      ResponseStarted(c, source, result.responseCode, result.action == Reject, accepted);
    } else if c.state != INACTIVE {
      ResponseStarted(c, source, ROUTING_SUCCESS, false, accepted);
      ResponseStarted(c, source, ROUTING_WRONG_SOURCE_ADDRESS, true, accepted);
    }
  }

  lemma ActivationRequestKeeps(c: Conn, h: History, payload: seq<byte>, result: FilterResult, accepted: bool)
    requires Inv(c, h) && c.started && RequestPayload(payload)
    ensures Inv(ActivationRequest(c, payload, result, accepted), h)
  {
    var source := Join16(payload[0], payload[1]);
    var o := FilterAsked(source, payload[2], OemField(payload), false);
    EmitKeeps(c, h, o);
    DecideKeeps(Emit(c, o), h, source, result, accepted);
    DecideStarted(Emit(c, o), source, result, accepted);
    EmitKeeps(Decide(Emit(c, o), source, result, accepted), h, EndReceive);
  }

  lemma AnswerKeeps(c: Conn, h: History, expected: bool)
    requires Inv(c, h) && c.started && c.aliveCheckPending
    ensures Inv(Emit(c.(aliveCheckPending := false), AliveAnswer(expected)),
                h.(late := h.late + if c.state == SHUTDOWN then 1 else 0))
  {
    if RefusedClose(c.out) { RefusalRemembered(c.out, AliveAnswer(expected)); }
  }

  lemma AliveResponseKeeps(c: Conn, h: History, payload: seq<byte>)
    requires Inv(c, h) && c.started && |payload| == 2
    ensures Inv(AliveResponse(c, payload), Noted(h, c, AlivePayload(payload)))
  {
    var expected := Join16(payload[0], payload[1]) == c.sourceAddress;
    var h' := Noted(h, c, AlivePayload(payload));
    var answered := Answered(c, expected);
    if c.aliveCheckPending { AnswerKeeps(c, h, expected); }
    EmitKeeps(answered, h', EndReceive);
    CloseAlways(answered, h');
  }

  lemma AbortKeeps(c: Conn, h: History)
    requires Inv(c, h) && c.started && c.state == ACTIVE
    ensures Inv(CloseNow(Emit(StopTimer(c), AbortMode)), h)
  {
    EmitKeeps(c, h, AbortMode);
    CloseKeeps(Emit(c, AbortMode), h);
    ClosedTimer(Emit(c, AbortMode), Idle);
    assert Emit(StopTimer(c), AbortMode) == Emit(c, AbortMode).(timer := Idle);
  }

  lemma TimerExpiredKeeps(c: Conn, h: History)
    requires Inv(c, h) && c.started
    ensures Inv(TimerExpired(c), h)
  {
    ExpiryCases(c);
    if c.state == ACTIVE && !c.aliveCheckPending {
      AbortKeeps(c, h);
    } else if c.state == INACTIVE || c.state == ACTIVE {
      CloseKeeps(c, h);
      ClosedTimer(c, Idle);
    } else {
      IdleKeeps(c, h);
    }
  }

  lemma IdleKeeps(c: Conn, h: History)
    requires Inv(c, h) && c.state != INACTIVE && c.state != ACTIVE
    ensures Inv(StopTimer(c), h)
  {
  }

  lemma JobDoneKeeps(c: Conn, h: History, id: nat)
    requires Inv(c, h) && c.started && id in c.inFlight
    ensures Inv(JobDone(c, id), h)
  {
    var c' := Release(c, id);
    Returned(c.free, c.capacity, c.inFlight, c.released, c.nextJob, id);
    assert InvButClosing(c', h);
    if c.inFlight[id].closeAfterSend {
      if c.state == SHUTDOWN {
        assert CloseNow(c') == c';
      } else {
        CloseKeeps(c', h);
      }
    } else if c.state == CLOSING && !RefusedClose(c.out) {
      var k :| k in c.inFlight && c.inFlight[k].closeAfterSend;
      assert k in c'.inFlight && c'.inFlight[k].closeAfterSend;
    }
  }

  lemma ActivateKeeps(c: Conn, h: History)
    requires Inv(c, h) && c.started && c.state == ACTIVATING
    ensures Inv(Activated(c), h)
  {
    var active := c.(state := ACTIVE, isOrWasRouting := true, timer := Armed(GeneralInactivity));
    BroadcastInforms(active, RoutingActive);
  }

  /** Lines 490 and 182 of DoIpServerConnectionHandler.cpp: the connection is closed for want of a
      job and then set active again. */
  lemma ReopenKeeps(c: Conn, h: History)
    requires Inv(c, h) && c.started && c.state == ACTIVATING
    ensures Inv(Activated(CloseNow(c)), h.(reopened := true))
  {
    CloseKeeps(c, h);
    var closed := CloseNow(c);
    var active := closed.(state := ACTIVE, isOrWasRouting := true, timer := Armed(GeneralInactivity));
    BroadcastInforms(active, RoutingActive);
  }

  lemma SentState(c: Conn, payloadType: bv16, payload: seq<byte>, accepted: bool)
    ensures c.free == 0 && c.state != SHUTDOWN ==>
      SendOrClose(c, payloadType, payload, false, accepted) == CloseNow(c)
    ensures c.free > 0 && c.state != SHUTDOWN ==>
      SendOrClose(c, payloadType, payload, false, accepted).state == c.state
  {
  }

  /** A successful activation with a job left, or with the re-opening. */
  lemma SucceededKeeps(c: Conn, h: History, code: byte, accepted: bool)
    requires Inv(c, h) && c.started && c.state == ACTIVATING
    ensures Inv(Activated(SendResponse(c, c.sourceAddress, code, false, accepted)),
                h.(reopened := h.reopened || c.free == 0))
  {
    var p := ResponsePayload(c.sourceAddress, c.entity, code);
    SentState(c, ROUTING_ACTIVATION_RESPONSE, p, accepted);
    if c.free == 0 {
      ReopenKeeps(c, h);
    } else {
      ResponseKeeps(c, h, c.sourceAddress, code, false, accepted);
      StaysStarted(c, ROUTING_ACTIVATION_RESPONSE, p, false, accepted);
      ActivateKeeps(SendResponse(c, c.sourceAddress, code, false, accepted), h);
    }
  }

  lemma ActivationDoneKeeps(c: Conn, h: History, success: bool, code: byte, accepted: bool)
    requires Inv(c, h) && c.started
    ensures Inv(ActivationCompleted(c, success, code, accepted), Noted(h, c, ActivationDone(success, code, accepted)))
  {
    if c.state == ACTIVATING {
      var c' := ActivationCompleted(c, success, code, accepted);
      var h' := Noted(h, c, ActivationDone(success, code, accepted));
      if success {
        SucceededKeeps(c, h, code, accepted);
        assert c' == Activated(SendResponse(c, c.sourceAddress, code, false, accepted));
        assert h' == h.(reopened := h.reopened || c.free == 0);
      } else {
        ResponseKeeps(c, h, c.sourceAddress, code, true, accepted);
        assert c' == SendResponse(c, c.sourceAddress, code, true, accepted) && h' == h;
      }
    }
  }

  lemma CheckOutstanding(c: Conn, h: History, timer: Timer)
    requires Inv(c, h) && c.started && c.state == ACTIVE && timer.Armed?
    ensures Inv(c.(aliveCheckPending := true, timer := timer),
                h.(requests := h.requests + if c.aliveCheckPending then 0 else 1))
  {
  }

  lemma ClosedTimer(c: Conn, timer: Timer)
    requires c.state != SHUTDOWN
    ensures CloseNow(c.(timer := timer)) == CloseNow(c)
  {
  }

  lemma RequestAliveKeeps(c: Conn, h: History, accepted: bool)
    requires Inv(c, h) && c.started && c.state == ACTIVE
    ensures Inv(RequestAlive(c, accepted), h.(requests := h.requests + if c.aliveCheckPending then 0 else 1))
  {
    var h' := h.(requests := h.requests + if c.aliveCheckPending then 0 else 1);
    var asked := c.(aliveCheckPending := true, timer := Armed(AliveCheckTimeout));
    CheckOutstanding(c, h, Armed(AliveCheckTimeout));
    if c.free == 0 {
      ClosedTimer(c.(aliveCheckPending := true), Armed(AliveCheckTimeout));
      CloseKeeps(asked, h');
    } else {
      SendKeeps(asked, h', ALIVE_CHECK_REQUEST, [], false, accepted);
    }
  }

  lemma AnsweredAtOnce(c: Conn, h: History)
    requires Inv(c, h) && c.started && c.state != ACTIVE
    ensures Inv(Emit(c, AliveAnswer(false)), h.(requests := h.requests + 1))
  {
    if RefusedClose(c.out) { RefusalRemembered(c.out, AliveAnswer(false)); }
  }

  lemma NotedCheck(c: Conn, h: History, accepted: bool)
    ensures Noted(h, c, AliveCheckStarted(accepted))
         == h.(requests := h.requests + if c.started && !(c.state == ACTIVE && c.aliveCheckPending) then 1 else 0)
  {
  }

  lemma AliveCheckKeeps(c: Conn, h: History, accepted: bool)
    requires Inv(c, h) && Enabled(c, AliveCheckStarted(accepted))
    ensures Inv(StartAliveCheck(c, accepted), Noted(h, c, AliveCheckStarted(accepted)))
  {
    NotedCheck(c, h, accepted);
    if c.state == ACTIVE {
      RequestAliveKeeps(c, h, accepted);
    } else if c.started {
      AnsweredAtOnce(c, h);
    }
  }

  lemma NothingTold(hs: seq<Handler>, broadcasts: seq<HandlerCall>)
    requires Informed(hs, broadcasts) && broadcasts == []
    ensures EarlyInformed(|hs|, hs, broadcasts)
  {
  }

  function Begun(c: Conn): Conn {
    Broadcast(Emit(c.(started := true, early := |c.handlers|), ConnectionInit), Opened)
  }

  lemma BegunInforms(c: Conn)
    requires HandlersInformed(c) && c.broadcasts == []
    ensures HandlersInformed(Begun(c))
  {
    NothingTold(c.handlers, c.broadcasts);
    BroadcastInforms(Emit(c.(started := true, early := |c.handlers|), ConnectionInit), Opened);
  }

  lemma FreshStartKeeps(c: Conn, h: History)
    requires Inv(c, h) && !c.started && c.state == INACTIVE
    ensures Inv(Begun(c).(timer := Armed(InitialInactivity)), h)
  {
    BegunInforms(c);
  }

  lemma ResumedStartKeeps(c: Conn, h: History, internalAddress: bv16)
    requires Inv(c, h) && !c.started && c.state == ACTIVE
    ensures Inv(StartResumed(Begun(c), internalAddress), h)
  {
    BegunInforms(c);
    var ready := Emit(Begun(c), FilterAsked(c.sourceAddress, 0, Some([0, 0, 0, 0]), true))
      .(internalAddress := internalAddress, timer := Armed(GeneralInactivity));
    assert HandlersInformed(ready);
    BroadcastInforms(ready, RoutingActive);
  }

  lemma StartKeeps(c: Conn, h: History, internalAddress: bv16)
    requires Inv(c, h)
    ensures Inv(Start(c, internalAddress), h)
  {
    if c.started {
      assert Start(c, internalAddress) == c;
    } else if c.state == INACTIVE {
      FreshStartKeeps(c, h);
      assert Start(c, internalAddress) == Begun(c).(timer := Armed(InitialInactivity));
    } else {
      ResumedStartKeeps(c, h, internalAddress);
      assert Start(c, internalAddress) == StartResumed(Begun(c), internalAddress);
    }
  }

  lemma NewcomerInformed(hs: seq<Handler>, broadcasts: seq<HandlerCall>, early: nat)
    requires Informed(hs, broadcasts)
    ensures Informed(hs + [Handler([], [])], broadcasts)
    ensures EarlyInformed(early, hs, broadcasts) ==> EarlyInformed(early, hs + [Handler([], [])], broadcasts)
  {
  }

  lemma AddHandlerKeeps(c: Conn, h: History)
    requires Inv(c, h)
    ensures Inv(AddHandler(c), h)
  {
    NewcomerInformed(c.handlers, c.broadcasts, c.early);
  }

  lemma ResumeKeeps(c: Conn, h: History, address: bv16)
    requires Inv(c, h)
    ensures Inv(Resume(c, address), h)
  {
  }

  lemma StopTimerKeeps(c: Conn, h: History)
    requires Inv(c, h)
    ensures Inv(StopTimer(c), h.(stopped := true))
  {
  }

  lemma AliveCheckStep(c: Conn, h: History, e: Event)
    requires Inv(c, h) && Enabled(c, e) && e.AliveCheckStarted?
    ensures Inv(Step(c, e), Noted(h, c, e))
  {
    AliveCheckKeeps(c, h, e.accepted);
    assert Step(c, e) == StartAliveCheck(c, e.accepted);
    assert e == AliveCheckStarted(e.accepted);
  }

  lemma ActivationStep(c: Conn, h: History, e: Event)
    requires Inv(c, h) && Enabled(c, e) && e.ActivationDone?
    ensures Inv(Step(c, e), Noted(h, c, e))
  {
    ActivationDoneKeeps(c, h, e.success, e.code, e.accepted);
    assert Step(c, e) == ActivationCompleted(c, e.success, e.code, e.accepted);
    assert e == ActivationDone(e.success, e.code, e.accepted);
  }

  lemma ResponseStep(c: Conn, h: History, e: Event)
    requires Inv(c, h) && Enabled(c, e) && e.AlivePayload?
    ensures Inv(Step(c, e), Noted(h, c, e))
  {
    AliveResponseKeeps(c, h, e.payload);
    assert Step(c, e) == AliveResponse(c, e.payload);
    assert e == AlivePayload(e.payload);
  }

  lemma StepKeeps(c: Conn, h: History, e: Event)
    requires Inv(c, h) && Enabled(c, e)
    ensures Inv(Step(c, e), Noted(h, c, e))
  {
    if e.AliveCheckStarted? {
      AliveCheckStep(c, h, e);
    } else if e.ActivationDone? {
      ActivationStep(c, h, e);
    } else if e.AlivePayload? {
      ResponseStep(c, h, e);
    } else if e.ShutdownCalled? {
      StopTimerKeeps(c, h);
    } else {
      UnrecordedStepKeeps(c, h, e);
    }
  }

  /** The events that leave the history as it is. */
  predicate Unrecorded(e: Event) {
    !e.AliveCheckStarted? && !e.ActivationDone? && !e.AlivePayload? && !e.ShutdownCalled?
  }

  lemma UnrecordedStepKeeps(c: Conn, h: History, e: Event)
    requires Inv(c, h) && Enabled(c, e) && Unrecorded(e)
    ensures Inv(Step(c, e), Noted(h, c, e))
  {
    assert Noted(h, c, e) == h;
    match e {
      case AddMessageHandler => AddHandlerKeeps(c, h);
      case Resumed(address) => ResumeKeeps(c, h, address);
      case Started(internalAddress) => StartKeeps(c, h, internalAddress);
      case CloseCalled => CloseAlways(c, h);
      case PeerClosed => CloseAlways(c, h);
      case HeaderIn(header, versionOk, answers, receives, accepted) =>
        HeaderKeeps(c, h, header, versionOk, answers, receives, accepted);
      case ActivationPayload(payload, result, accepted) => ActivationRequestKeeps(c, h, payload, result, accepted);
      case TimerFired => TimerExpiredKeeps(c, h);
      case JobReturned(id) => JobDoneKeeps(c, h, id);
    }
  }
}
