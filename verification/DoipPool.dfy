/** What every event does to the pool of send jobs and to what the message handlers were offered. */
module DoipPool {
  import opened Bytes
  import opened DoipEvents
  import opened DoipMessages
  import opened DoipModel
  import opened DoipRuns
  import opened Wrappers

  // ----- the pool -----

  datatype Pool = Pool(free: nat, inFlight: map<nat, SendJob>, released: seq<nat>, nextJob: nat)

  function PoolOf(c: Conn): Pool { Pool(c.free, c.inFlight, c.released, c.nextJob) }

  /** The pool after a message was due: one job is taken, in flight if the connection accepted it and
      released if not. */
  function Sending(c: Conn, due: Option<Message>, accepted: bool): Pool {
    var p := PoolOf(c);
    match due
    case None => p
    case Some(m) =>
      var job := SendJob(c.nextJob, m.payloadType, m.payload, m.closeAfterSend);
      if c.state == SHUTDOWN || c.free == 0 then p
      else if accepted then Pool(c.free - 1, c.inFlight[c.nextJob := job], c.released, c.nextJob + 1)
      else Pool(c.free, c.inFlight, c.released + [c.nextJob], c.nextJob + 1)
  }

  lemma ClosePool(c: Conn)
    ensures PoolOf(FlatClose(c)) == PoolOf(c)
  {
  }

  lemma SendPool(c: Conn, m: Message, accepted: bool)
    ensures PoolOf(FlatSend(c, m, accepted)) == Sending(c, Some(m), accepted)
  {
    ClosePool(c);
  }

  ghost predicate SameStock(c: Conn, d: Conn) { PoolOf(d) == PoolOf(c) && d.state == c.state }

  lemma PreparedPool(c: Conn, header: Header, versionOk: bool, answers: seq<bool>, receives: bool)
    ensures SameStock(c, Prepared(c, header, versionOk, answers, receives))
  {
  }

  lemma HeaderPool(c: Conn, header: Header, versionOk: bool, answers: seq<bool>, receives: bool, accepted: bool)
    requires PoolBalanced(c)
    ensures PoolOf(HeaderReceived(c, header, versionOk, answers, receives, accepted))
         == Sending(c, HeaderDue(c, header, versionOk, answers), accepted)
  {
    var due := HeaderDue(c, header, versionOk, answers);
    var ready := Prepared(c, header, versionOk, answers, receives);
    HeaderIsFlat(c, header, versionOk, answers, receives, accepted);
    PreparedPool(c, header, versionOk, answers, receives);
    if due.Some? {
      SendPool(ready, due.value, accepted);
      assert Sending(ready, due, accepted) == Sending(c, due, accepted);
    } else {
      assert HeaderReceived(c, header, versionOk, answers, receives, accepted) == ready;
    }
  }

  lemma RequestPool(c: Conn, payload: seq<byte>, result: FilterResult, accepted: bool)
    requires PoolBalanced(c) && RequestPayload(payload)
    ensures PoolOf(ActivationRequest(c, payload, result, accepted))
         == Sending(c, RequestDue(c, Source(payload), result), accepted)
  {
    var due := RequestDue(c, Source(payload), result);
    var oem := if |payload| == 11 then Some([payload[7], payload[8], payload[9], payload[10]]) else None;
    var asked := c.(out := c.out + [FilterAsked(Source(payload), payload[2], oem, false)]);
    RequestIsFlat(c, payload, result, accepted);
    if due.Some? {
      SendPool(asked, due.value, accepted);
      SameSending(c, asked, due, accepted);
    }
  }

  lemma SameSending(c: Conn, d: Conn, due: Option<Message>, accepted: bool)
    requires SameStock(c, d)
    ensures Sending(d, due, accepted) == Sending(c, due, accepted)
  {
  }

  lemma ActivationPool(c: Conn, success: bool, code: byte, accepted: bool)
    requires PoolBalanced(c) && c.state == ACTIVATING
    ensures PoolOf(ActivationCompleted(c, success, code, accepted))
         == Sending(c, Response(c, c.sourceAddress, code, !success), accepted)
  {
    ActivationIsFlat(c, success, code, accepted);
    SendPool(c, Response(c, c.sourceAddress, code, !success).value, accepted);
  }

  lemma CheckPool(c: Conn, accepted: bool)
    requires PoolBalanced(c) && c.state == ACTIVE
    ensures PoolOf(StartAliveCheck(c, accepted)) == Sending(c, Some(Message(ALIVE_CHECK_REQUEST, [], false)), accepted)
  {
    var asked := c.(aliveCheckPending := true, timer := Armed(AliveCheckTimeout));
    CheckIsFlat(c, accepted);
    ClosePool(c.(aliveCheckPending := true));
    SendPool(asked, Message(ALIVE_CHECK_REQUEST, [], false), accepted);
  }

  lemma QuietPool(c: Conn, e: Event)
    requires PoolBalanced(c) && Enabled(c, e)
    requires e.CloseCalled? || e.PeerClosed? || e.AlivePayload? || e.TimerFired?
    ensures PoolOf(Step(c, e)) == PoolOf(c)
  {
    StepIsFlat(c, e);
    ClosePool(c);
    if e.AlivePayload? {
      ClosePool(c.(aliveCheckPending := false,
                   out := c.out + if c.aliveCheckPending then [AliveAnswer(false)] else []));
    }
    ClosePool(c.(out := c.out + if c.aliveCheckPending then [] else [AbortMode]));
  }

  lemma ReturnPool(c: Conn, id: nat)
    requires id in c.inFlight
    ensures PoolOf(JobDone(c, id)) == Pool(c.free + 1, c.inFlight - {id}, c.released + [id], c.nextJob)
  {
    ReturnIsFlat(c, id);
    ClosePool(c.(free := c.free + 1, inFlight := c.inFlight - {id}, released := c.released + [id]));
  }

  lemma StartPool(c: Conn, internalAddress: bv16)
    ensures PoolOf(Start(c, internalAddress)) == PoolOf(c)
  {
    StartIsFlat(c, internalAddress);
  }

  /** The pool after every event. A message due takes the next job while one is free: the job carries
      the message and is in flight if the connection accepted it, and back in the pool if it did not.
      A returning job frees its slot. Nothing else touches the pool. */
  lemma PoolOfEvent(c: Conn, e: Event)
    requires PoolBalanced(c) && Enabled(c, e)
    ensures PoolOf(Step(c, e)) ==
      if e.JobReturned? then Pool(c.free + 1, c.inFlight - {e.id}, c.released + [e.id], c.nextJob)
      else match Due(c, e)
        case None => Pool(c.free, c.inFlight, c.released, c.nextJob)
        case Some(Message(payloadType, payload, closeAfterSend)) =>
          if c.state == SHUTDOWN || c.free == 0 then Pool(c.free, c.inFlight, c.released, c.nextJob)
          else if e.accepted
          then Pool(c.free - 1, c.inFlight[c.nextJob := SendJob(c.nextJob, payloadType, payload, closeAfterSend)],
                    c.released, c.nextJob + 1)
          else Pool(c.free, c.inFlight, c.released + [c.nextJob], c.nextJob + 1)
  {
    match e {
      case Started(internalAddress) => StartPool(c, internalAddress);
      case AliveCheckStarted(accepted) => if c.state == ACTIVE { CheckPool(c, accepted); }
      case ActivationDone(success, code, accepted) =>
        if c.state == ACTIVATING { ActivationPool(c, success, code, accepted); }
      case HeaderIn(header, versionOk, answers, receives, accepted) =>
        HeaderPool(c, header, versionOk, answers, receives, accepted);
      case ActivationPayload(payload, result, accepted) => RequestPool(c, payload, result, accepted);
      case JobReturned(id) => ReturnPool(c, id);
      case AddMessageHandler =>
      case Resumed(_) =>
      case ShutdownCalled =>
      case _ => QuietPool(c, e);
    }
  }

  // ----- the message handlers -----

  function Offers(handlers: seq<Handler>): (r: seq<seq<Header>>)
    ensures |r| == |handlers|
    ensures forall i :: 0 <= i < |r| ==> r[i] == handlers[i].offered
  {
    seq(|handlers|, i requires 0 <= i < |handlers| => handlers[i].offered)
  }

  lemma TellingOffersNothing(handlers: seq<Handler>, call: HandlerCall)
    ensures Offers(ToldAll(handlers, call)) == Offers(handlers)
  {
  }

  lemma CloseOffers(c: Conn)
    ensures Offers(FlatClose(c).handlers) == Offers(c.handlers)
  {
    TellingOffersNothing(c.handlers, Closed);
  }

  lemma SendOffers(c: Conn, m: Message, accepted: bool)
    ensures Offers(FlatSend(c, m, accepted).handlers) == Offers(c.handlers)
  {
    CloseOffers(c);
  }

  /** The handlers that are offered an unlisted header: each one up to and including the first that
      accepts it. */
  ghost predicate OfferedInOrder(before: seq<Handler>, after: seq<Handler>, header: Header, answers: seq<bool>) {
    && |after| == |before|
    && forall i :: 0 <= i < |before| ==>
      after[i].offered == if forall j :: 0 <= j < i && j < |answers| ==> !answers[j]
                          then before[i].offered + [header] else before[i].offered
  }

  lemma OfferingStops(handlers: seq<Handler>, header: Header, answers: seq<bool>)
    ensures match FirstAccepting(answers, |handlers|)
      case Some(k) => OfferedInOrder(handlers, OfferedTo(handlers, header, k + 1), header, answers)
      case None => OfferedInOrder(handlers, OfferedTo(handlers, header, |handlers|), header, answers)
  {
  }

  lemma HeaderOffers(c: Conn, header: Header, versionOk: bool, answers: seq<bool>, receives: bool, accepted: bool)
    requires PoolBalanced(c)
    ensures var ready := Prepared(c, header, versionOk, answers, receives);
      Offers(HeaderReceived(c, header, versionOk, answers, receives, accepted).handlers) == Offers(ready.handlers)
  {
    var due := HeaderDue(c, header, versionOk, answers);
    var ready := Prepared(c, header, versionOk, answers, receives);
    HeaderIsFlat(c, header, versionOk, answers, receives, accepted);
    if due.Some? { SendOffers(ready, due.value, accepted); }
  }

  lemma PreparedOffers(c: Conn, header: Header, versionOk: bool, answers: seq<bool>, receives: bool)
    ensures var ready := Prepared(c, header, versionOk, answers, receives);
      var listed := header.payloadType == 0x0000 || header.payloadType == 0x0005 || header.payloadType == 0x0008
                    || header.payloadType == 0x8002 || header.payloadType == 0x8003;
      if versionOk && !listed then OfferedInOrder(c.handlers, ready.handlers, header, answers)
      else ready.handlers == c.handlers
  {
    OfferingStops(c.handlers, header, answers);
  }

  lemma SameOffers(a: seq<Handler>, b: seq<Handler>, c: seq<Handler>, header: Header, answers: seq<bool>)
    requires OfferedInOrder(a, b, header, answers) && Offers(c) == Offers(b)
    ensures OfferedInOrder(a, c, header, answers)
  {
    assert |Offers(c)| == |Offers(b)|;
    forall i | 0 <= i < |c| ensures c[i].offered == b[i].offered {
      assert Offers(c)[i] == Offers(b)[i];
    }
  }

  /** Which headers the handlers are offered: those of the right version whose type is not one of the
      five that the connection processes itself, and each handler until one accepts. */
  lemma OffersOfHeader(c: Conn, header: Header, versionOk: bool, answers: seq<bool>, receives: bool, accepted: bool)
    requires PoolBalanced(c)
    ensures var c' := HeaderReceived(c, header, versionOk, answers, receives, accepted);
      var listed := header.payloadType in {0x0000, 0x0005, 0x0008, 0x8002, 0x8003};
      if versionOk && !listed then OfferedInOrder(c.handlers, c'.handlers, header, answers)
      else Offers(c'.handlers) == Offers(c.handlers)
  {
    var ready := Prepared(c, header, versionOk, answers, receives);
    var c' := HeaderReceived(c, header, versionOk, answers, receives, accepted);
    HeaderOffers(c, header, versionOk, answers, receives, accepted);
    PreparedOffers(c, header, versionOk, answers, receives);
    if versionOk && header.payloadType !in {0x0000, 0x0005, 0x0008, 0x8002, 0x8003} {
      SameOffers(c.handlers, ready.handlers, c'.handlers, header, answers);
    }
  }

  lemma StartOffers(c: Conn, internalAddress: bv16)
    ensures Offers(Start(c, internalAddress).handlers) == Offers(c.handlers)
  {
    StartIsFlat(c, internalAddress);
    TellingOffersNothing(c.handlers, Opened);
    TellingOffersNothing(ToldAll(c.handlers, Opened), RoutingActive);
  }

  lemma CheckOffers(c: Conn, accepted: bool)
    requires PoolBalanced(c)
    ensures Offers(StartAliveCheck(c, accepted).handlers) == Offers(c.handlers)
  {
    var asked := c.(aliveCheckPending := true);
    CheckIsFlat(c, accepted);
    CloseOffers(asked);
    SendOffers(asked.(timer := Armed(AliveCheckTimeout)), Message(ALIVE_CHECK_REQUEST, [], false), accepted);
  }

  lemma ActivationOffers(c: Conn, success: bool, code: byte, accepted: bool)
    requires PoolBalanced(c)
    ensures Offers(ActivationCompleted(c, success, code, accepted).handlers) == Offers(c.handlers)
  {
    if c.state == ACTIVATING {
      var due := Response(c, c.sourceAddress, code, !success);
      ActivationIsFlat(c, success, code, accepted);
      SendOffers(c, due.value, accepted);
      TellingOffersNothing(FlatSend(c, due.value, accepted).handlers, RoutingActive);
    }
  }

  lemma RequestOffers(c: Conn, payload: seq<byte>, result: FilterResult, accepted: bool)
    requires PoolBalanced(c) && RequestPayload(payload)
    ensures Offers(ActivationRequest(c, payload, result, accepted).handlers) == Offers(c.handlers)
  {
    var due := RequestDue(c, Source(payload), result);
    var oem := if |payload| == 11 then Some([payload[7], payload[8], payload[9], payload[10]]) else None;
    var asked := c.(out := c.out + [FilterAsked(Source(payload), payload[2], oem, false)]);
    RequestIsFlat(c, payload, result, accepted);
    if due.Some? { SendOffers(asked, due.value, accepted); }
  }

  lemma ResponseOffers(c: Conn, payload: seq<byte>)
    requires |payload| == 2
    ensures Offers(AliveResponse(c, payload).handlers) == Offers(c.handlers)
  {
    ResponseIsFlat(c, payload);
    CloseOffers(c.(aliveCheckPending := false,
                   out := c.out + if c.aliveCheckPending then [AliveAnswer(false)] else []));
  }

  lemma ExpiryOffers(c: Conn)
    ensures Offers(TimerExpired(c).handlers) == Offers(c.handlers)
  {
    ExpiryIsFlat(c);
    CloseOffers(c);
    CloseOffers(c.(out := c.out + if c.aliveCheckPending then [] else [AbortMode]));
  }

  lemma ReturnOffers(c: Conn, id: nat)
    requires id in c.inFlight
    ensures Offers(JobDone(c, id).handlers) == Offers(c.handlers)
  {
    ReturnIsFlat(c, id);
    CloseOffers(c.(free := c.free + 1, inFlight := c.inFlight - {id}, released := c.released + [id]));
  }

  lemma NewcomerOffers(c: Conn)
    ensures Offers(AddHandler(c).handlers) == Offers(c.handlers) + [[]]
  {
  }

  /** No other event offers anything; a new handler has been offered nothing. */
  lemma OffersOfEvent(c: Conn, e: Event)
    requires PoolBalanced(c) && Enabled(c, e) && !e.HeaderIn?
    ensures Offers(Step(c, e).handlers) == Offers(c.handlers) + if e.AddMessageHandler? then [[]] else []
  {
    match e {
      case AddMessageHandler => NewcomerOffers(c);
      case Started(internalAddress) => StartOffers(c, internalAddress);
      case CloseCalled => CloseIsFlat(c); CloseOffers(c);
      case PeerClosed => CloseIsFlat(c); CloseOffers(c);
      case AliveCheckStarted(accepted) => CheckOffers(c, accepted);
      case ActivationDone(success, code, accepted) => ActivationOffers(c, success, code, accepted);
      case ActivationPayload(payload, result, accepted) => RequestOffers(c, payload, result, accepted);
      case AlivePayload(payload) => ResponseOffers(c, payload);
      case TimerFired => ExpiryOffers(c);
      case JobReturned(id) => ReturnOffers(c, id);
      case _ =>
    }
  }

  /** A message is kept when the connection takes its payload or a handler takes it, and never when its
      version is wrong. */
  lemma KeptExactly(c: Conn, header: Header, versionOk: bool, answers: seq<bool>, receives: bool)
    ensures Keeps(c, header, versionOk, answers, receives) <==> versionOk && match header.payloadType
      case 0x0005 => (header.payloadLength == 7 || header.payloadLength == 11) && receives
      case 0x0008 => header.payloadLength == 2 && receives
      case 0x0000 => true
      case 0x8002 => true
      case 0x8003 => true
      case _ => exists i :: 0 <= i < |c.handlers| && i < |answers| && answers[i]
  {
  }
}
