/** The effect of every event, stated outright: the message due, the calls made and their order, the
    state, the addresses, the timer and the flags. */
module DoipTable {
  import opened Bytes
  import opened DoipEvents
  import opened DoipMessages
  import opened DoipModel
  import opened DoipRuns
  import opened Wrappers

  /** The message due, with the codes and types of the standard. */
  lemma DueOfEvent(c: Conn, e: Event)
    requires Enabled(c, e)
    ensures Due(c, e) == match e
      case HeaderIn(Header(payloadType, length), versionOk, answers, _, _) => (
        var taken := exists i :: 0 <= i < |answers| && i < |c.handlers| && answers[i];
        if !versionOk then Some(Message(0x0000, [0x00], true))
        else if payloadType == 0x0005 then
          if length == 7 || length == 11 then None else Some(Message(0x0000, [0x04], true))
        else if payloadType == 0x0008 then
          if length == 2 then None else Some(Message(0x0000, [0x04], true))
        else if payloadType == 0x0000 || payloadType == 0x8002 || payloadType == 0x8003 || taken then None
        else Some(Message(0x0000, [0x01], false)))
      case ActivationPayload(payload, FilterResult(action, code, _), _) => (
        var answer := (code: byte) => [payload[0], payload[1], High(c.entity), Low(c.entity), code, 0, 0, 0, 0];
        if action == Respond then Some(Message(0x0006, answer(code), false))
        else if action == Reject then Some(Message(0x0006, answer(code), true))
        else if c.state == INACTIVE then None
        else if Join16(payload[0], payload[1]) == c.sourceAddress then Some(Message(0x0006, answer(0x10), false))
        else Some(Message(0x0006, answer(0x02), true)))
      case ActivationDone(success, code, _) => (
        if c.state != ACTIVATING then None
        else
          var tester := c.sourceAddress;
          Some(Message(0x0006, [High(tester), Low(tester), High(c.entity), Low(c.entity), code, 0, 0, 0, 0], !success)))
      case AliveCheckStarted(_) => (if c.state == ACTIVE then Some(Message(0x0007, [], false)) else None)
      case _ => None
  {
    match e {
      case HeaderIn(header, _, answers, _, _) =>
        assert FirstAccepting(answers, |c.handlers|).Some? <==>
          exists i :: 0 <= i < |answers| && i < |c.handlers| && answers[i];
      case ActivationPayload(payload, _, _) => SplitJoin16(payload[0], payload[1]);
      case _ =>
    }
  }

  lemma SplitJoin16(high: byte, low: byte)
    ensures High(Join16(high, low)) == high && Low(Join16(high, low)) == low
  {
  }

  /** The calls that close an open connection: first the connection, then the callback, and only then
      the answer to a pending alive check. */
  function Closing(c: Conn, pending: bool): seq<Output> {
    if c.state == SHUTDOWN then []
    else if pending then [ConnectionClose, ConnectionClosedCallback, AliveAnswer(false)]
    else [ConnectionClose, ConnectionClosedCallback]
  }

  /** The calls for a message due: one job handed over, or the closing for want of a job. */
  function Sending(c: Conn, due: Option<Message>, pending: bool, accepted: bool): seq<Output> {
    match due
    case None => []
    case Some(m) =>
      if c.state == SHUTDOWN || c.free == 0 then Closing(c, pending)
      else [Sent(SendJob(c.nextJob, m.payloadType, m.payload, m.closeAfterSend), accepted)]
  }

  lemma FlatCloseCalls(c: Conn)
    ensures FlatClose(c).out == c.out + Closing(c, c.aliveCheckPending)
  {
  }

  lemma FlatSendCalls(c: Conn, m: Message, accepted: bool)
    ensures FlatSend(c, m, accepted).out == c.out + Sending(c, Some(m), c.aliveCheckPending, accepted)
  {
    FlatCloseCalls(c);
  }

  lemma TimerCalls(c: Conn)
    ensures TimerExpired(c).out == c.out
      + if c.state == INACTIVE then Closing(c, c.aliveCheckPending)
        else if c.state == ACTIVE
        then (if c.aliveCheckPending then [] else [AbortMode]) + Closing(c, c.aliveCheckPending)
        else []
  {
    var aborted := c.(out := c.out + if c.aliveCheckPending then [] else [AbortMode]);
    ExpiryIsFlat(c);
    FlatCloseCalls(c);
    FlatCloseCalls(aborted);
  }

  lemma ReturnCalls(c: Conn, id: nat)
    requires id in c.inFlight
    ensures JobDone(c, id).out == c.out + if c.inFlight[id].closeAfterSend then Closing(c, c.aliveCheckPending) else []
  {
    ReturnIsFlat(c, id);
    FlatCloseCalls(c.(free := c.free + 1, inFlight := c.inFlight - {id}, released := c.released + [id]));
  }

  lemma ResponseCalls(c: Conn, payload: seq<byte>)
    requires |payload| == 2
    ensures var expected := Join16(payload[0], payload[1]) == c.sourceAddress;
      AliveResponse(c, payload).out == c.out + ((if c.aliveCheckPending then [AliveAnswer(expected)] else [])
        + if expected then [EndReceive] else Closing(c, false))
  {
    var expected := Join16(payload[0], payload[1]) == c.sourceAddress;
    var answered := c.(aliveCheckPending := false,
                       out := c.out + if c.aliveCheckPending then [AliveAnswer(expected)] else []);
    ResponseIsFlat(c, payload);
    FlatCloseCalls(answered);
  }

  lemma CheckCalls(c: Conn, accepted: bool)
    requires PoolBalanced(c)
    ensures var due := if c.state == ACTIVE then Some(Message(ALIVE_CHECK_REQUEST, [], false)) else None;
      StartAliveCheck(c, accepted).out == c.out
        + if c.state == ACTIVE then Sending(c, due, true, accepted) else if c.started then [AliveAnswer(false)] else []
  {
    var asked := c.(aliveCheckPending := true);
    CheckIsFlat(c, accepted);
    FlatCloseCalls(asked);
    FlatSendCalls(asked.(timer := Armed(AliveCheckTimeout)), Message(ALIVE_CHECK_REQUEST, [], false), accepted);
  }

  lemma FlatRequestCalls(c: Conn, payload: seq<byte>, result: FilterResult, accepted: bool, oem: Option<seq<byte>>)
    requires RequestPayload(payload)
    requires oem == if |payload| == 11 then Some([payload[7], payload[8], payload[9], payload[10]]) else None
    ensures var due := RequestDue(c, Source(payload), result);
      FlatRequest(c, payload, result, accepted).out
      == c.out + ([FilterAsked(Source(payload), payload[2], oem, false)]
        + (if due.None? then [ActivationRequested] else Sending(c, due, c.aliveCheckPending, accepted)) + [EndReceive])
  {
    var due := RequestDue(c, Source(payload), result);
    var asked := c.(out := c.out + [FilterAsked(Source(payload), payload[2], oem, false)]);
    if due.Some? {
      FlatSendCalls(asked, due.value, accepted);
      assert Sending(asked, due, c.aliveCheckPending, accepted) == Sending(c, due, c.aliveCheckPending, accepted);
    } else {
      assert [ActivationRequested, EndReceive] == [ActivationRequested] + [EndReceive];
    }
  }

  lemma RequestCalls(c: Conn, payload: seq<byte>, result: FilterResult, accepted: bool)
    requires PoolBalanced(c) && RequestPayload(payload)
    ensures var due := RequestDue(c, Source(payload), result);
      var oem := if |payload| == 11 then Some([payload[7], payload[8], payload[9], payload[10]]) else None;
      ActivationRequest(c, payload, result, accepted).out
      == c.out + ([FilterAsked(Join16(payload[0], payload[1]), payload[2], oem, false)]
        + (if due.None? then [ActivationRequested] else Sending(c, due, c.aliveCheckPending, accepted)) + [EndReceive])
  {
    var oem := if |payload| == 11 then Some([payload[7], payload[8], payload[9], payload[10]]) else None;
    FlatRequestCalls(c, payload, result, accepted, oem);
    RequestIsFlat(c, payload, result, accepted);
  }

  /** The calls of a well-formed header that leads to no message. */
  function Received(header: Header, receives: bool): seq<Output> {
    var t := header.payloadType;
    if t == 0x0005 || t == 0x0008 then [ReceivePayload(header.payloadLength, receives)]
    else if t == 0x0000 || t == 0x8002 || t == 0x8003 then [EndReceive]
    else []
  }

  ghost predicate ReadyToSend(c: Conn, d: Conn, calls: seq<Output>) {
    && d.state == c.state && d.free == c.free && d.nextJob == c.nextJob && d.aliveCheckPending == c.aliveCheckPending
    && d.out == c.out + calls
  }

  lemma DispatchedCalls(c: Conn, header: Header, answers: seq<bool>, receives: bool)
    ensures var due := DispatchDue(c, header, answers);
      ReadyToSend(c, Dispatched(c, header, answers, receives), if due.Some? then [] else Received(header, receives))
  {
  }

  lemma PreparedCalls(c: Conn, header: Header, versionOk: bool, answers: seq<bool>, receives: bool)
    ensures var due := HeaderDue(c, header, versionOk, answers);
      ReadyToSend(c, Prepared(c, header, versionOk, answers, receives),
                  if due.Some? then [] else Received(header, receives))
  {
    if versionOk {
      var ready := c.(timer := if c.state == ACTIVE then Armed(GeneralInactivity) else c.timer);
      DispatchedCalls(ready, header, answers, receives);
      assert DispatchDue(ready, header, answers) == DispatchDue(c, header, answers);
    }
  }

  lemma HeaderCalls(c: Conn, header: Header, versionOk: bool, answers: seq<bool>, receives: bool, accepted: bool)
    requires PoolBalanced(c)
    ensures var due := HeaderDue(c, header, versionOk, answers);
      HeaderReceived(c, header, versionOk, answers, receives, accepted).out == c.out
        + if due.Some? then Sending(c, due, c.aliveCheckPending, accepted) else Received(header, receives)
  {
    var due := HeaderDue(c, header, versionOk, answers);
    var ready := Prepared(c, header, versionOk, answers, receives);
    HeaderIsFlat(c, header, versionOk, answers, receives, accepted);
    PreparedCalls(c, header, versionOk, answers, receives);
    if due.Some? {
      FlatSendCalls(ready, due.value, accepted);
      assert Sending(ready, due, c.aliveCheckPending, accepted) == Sending(c, due, c.aliveCheckPending, accepted);
    } else {
      assert HeaderReceived(c, header, versionOk, answers, receives, accepted) == ready;
    }
  }

  lemma ActivationCalls(c: Conn, success: bool, code: byte, accepted: bool)
    requires PoolBalanced(c) && c.state == ACTIVATING
    ensures var due := Response(c, c.sourceAddress, code, !success);
      ActivationCompleted(c, success, code, accepted).out
      == c.out + (Sending(c, due, c.aliveCheckPending, accepted) + if success then [RoutingActiveCallback] else [])
  {
    ActivationIsFlat(c, success, code, accepted);
    FlatSendCalls(c, Response(c, c.sourceAddress, code, !success).value, accepted);
  }

  lemma CloseCalls(c: Conn)
    ensures CloseNow(c).out == c.out + Closing(c, c.aliveCheckPending)
  {
    CloseIsFlat(c);
    FlatCloseCalls(c);
  }

  lemma StartCalls(c: Conn, internalAddress: bv16)
    ensures Start(c, internalAddress).out == c.out + if c.started then []
      else if c.state == INACTIVE then [ConnectionInit]
      else [ConnectionInit, FilterAsked(c.sourceAddress, 0, Some([0, 0, 0, 0]), true), RoutingActiveCallback]
  {
    StartIsFlat(c, internalAddress);
  }

  /** The calls of every event, in order. */
  lemma CallsOfEvent(c: Conn, e: Event)
    requires PoolBalanced(c) && Enabled(c, e)
    ensures Step(c, e).out == c.out + match e
      case Started(_) => (
        if c.started then []
        else if c.state == INACTIVE then [ConnectionInit]
        else [ConnectionInit, FilterAsked(c.sourceAddress, 0, Some([0, 0, 0, 0]), true), RoutingActiveCallback])
      case CloseCalled => Closing(c, c.aliveCheckPending)
      case PeerClosed => Closing(c, c.aliveCheckPending)
      case AliveCheckStarted(accepted) => (
        if c.state == ACTIVE then Sending(c, Due(c, e), true, accepted)
        else if c.started then [AliveAnswer(false)] else [])
      case ActivationDone(success, _, accepted) => (
        if c.state != ACTIVATING then []
        else Sending(c, Due(c, e), c.aliveCheckPending, accepted) + if success then [RoutingActiveCallback] else [])
      case HeaderIn(Header(payloadType, length), _, _, receives, accepted) => (
        if Due(c, e).Some? then Sending(c, Due(c, e), c.aliveCheckPending, accepted)
        else if payloadType == 0x0005 || payloadType == 0x0008 then [ReceivePayload(length, receives)]
        else if payloadType == 0x0000 || payloadType == 0x8002 || payloadType == 0x8003 then [EndReceive]
        else [])
      case ActivationPayload(payload, result, accepted) => (
        var oem := if |payload| == 11 then Some([payload[7], payload[8], payload[9], payload[10]]) else None;
        [FilterAsked(Join16(payload[0], payload[1]), payload[2], oem, false)]
        + (if Due(c, e).None? then [ActivationRequested] else Sending(c, Due(c, e), c.aliveCheckPending, accepted))
        + [EndReceive])
      case AlivePayload(payload) => (
        var expected := Join16(payload[0], payload[1]) == c.sourceAddress;
        (if c.aliveCheckPending then [AliveAnswer(expected)] else [])
        + if expected then [EndReceive] else Closing(c, false))
      case TimerFired => (
        if c.state == INACTIVE then Closing(c, c.aliveCheckPending)
        else if c.state == ACTIVE
        then (if c.aliveCheckPending then [] else [AbortMode]) + Closing(c, c.aliveCheckPending)
        else [])
      case JobReturned(id) => (if c.inFlight[id].closeAfterSend then Closing(c, c.aliveCheckPending) else [])
      case _ => []
  {
    match e {
      case Started(internalAddress) => StartCalls(c, internalAddress);
      case CloseCalled => CloseCalls(c);
      case PeerClosed => CloseCalls(c);
      case AliveCheckStarted(accepted) => CheckCalls(c, accepted);
      case ActivationDone(success, code, accepted) =>
        if c.state == ACTIVATING { ActivationCalls(c, success, code, accepted); }
      case HeaderIn(header, versionOk, answers, receives, accepted) =>
        HeaderCalls(c, header, versionOk, answers, receives, accepted);
      case ActivationPayload(payload, result, accepted) => RequestCalls(c, payload, result, accepted);
      case AlivePayload(payload) => ResponseCalls(c, payload);
      case TimerFired => TimerCalls(c);
      case JobReturned(id) => ReturnCalls(c, id);
      case _ =>
    }
  }

  /** Closing in the order of the original: the verdict on a pending check comes after the closing of
      the connection and of the callback. */
  lemma ClosingOrder(c: Conn, pending: bool)
    ensures Closing(c, pending) == if c.state == SHUTDOWN then []
      else [ConnectionClose, ConnectionClosedCallback] + if pending then [AliveAnswer(false)] else []
  {
  }

  // ----- the fields that steer a connection -----

  datatype Address = Address(word: bv16)

  datatype Core = Core(
    started: bool, state: ConnState, source: Address, internal: Address, pending: bool, routing: bool, timer: Timer)

  function CoreOf(c: Conn): Core {
    Core(c.started, c.state, Address(c.sourceAddress), Address(c.internalAddress), c.aliveCheckPending,
         c.isOrWasRouting, c.timer)
  }

  function Shut(k: Core): Core { if k.state == SHUTDOWN then k else k.(state := SHUTDOWN, timer := Idle) }

  /** The sending of a message when so many jobs are free. */
  function SentCore(k: Core, closeAfterSend: bool, free: nat): Core {
    if k.state == SHUTDOWN || free == 0 then Shut(k) else k.(state := if closeAfterSend then CLOSING else k.state)
  }

  lemma FlatCloseCore(c: Conn)
    ensures CoreOf(FlatClose(c)) == Shut(CoreOf(c))
  {
  }

  lemma CloseCore(c: Conn)
    ensures CoreOf(CloseNow(c)) == Shut(CoreOf(c))
  {
    CloseIsFlat(c);
    FlatCloseCore(c);
  }

  lemma FlatSendCore(c: Conn, m: Message, accepted: bool)
    ensures CoreOf(FlatSend(c, m, accepted)) == SentCore(CoreOf(c), m.closeAfterSend, c.free)
  {
    FlatCloseCore(c);
  }

  lemma BegunCore(c: Conn)
    ensures CoreOf(Begun(c)) == CoreOf(c).(started := true)
  {
  }

  lemma ResumedCore(told: Conn, internalAddress: bv16)
    ensures CoreOf(StartResumed(told, internalAddress))
         == CoreOf(told).(internal := Address(internalAddress), timer := Armed(GeneralInactivity))
  {
  }

  lemma StartCore(c: Conn, internalAddress: bv16)
    ensures var k := CoreOf(c);
      CoreOf(Start(c, internalAddress)) == if c.started then k
        else if c.state == INACTIVE then k.(started := true, timer := Armed(InitialInactivity))
        else k.(started := true, timer := Armed(GeneralInactivity), internal := Address(internalAddress))
  {
    BegunCore(c);
    ResumedCore(Begun(c), internalAddress);
    if !c.started && c.state == INACTIVE {
      assert Start(c, internalAddress) == Begun(c).(timer := Armed(InitialInactivity));
    } else if !c.started {
      assert Start(c, internalAddress) == StartResumed(Begun(c), internalAddress);
    }
  }

  lemma CheckCore(c: Conn, accepted: bool)
    requires PoolBalanced(c)
    ensures var k := CoreOf(c).(pending := true, timer := Armed(AliveCheckTimeout));
      CoreOf(StartAliveCheck(c, accepted))
      == if c.state != ACTIVE then CoreOf(c) else if c.free == 0 then Shut(k) else k
  {
    var asked := c.(aliveCheckPending := true);
    CheckIsFlat(c, accepted);
    FlatCloseCore(asked);
    FlatSendCore(asked.(timer := Armed(AliveCheckTimeout)), Message(ALIVE_CHECK_REQUEST, [], false), accepted);
  }

  lemma ActivationCore(c: Conn, success: bool, code: byte, accepted: bool)
    requires PoolBalanced(c)
    ensures var k := CoreOf(c);
      CoreOf(ActivationCompleted(c, success, code, accepted))
      == if c.state != ACTIVATING then k
         else if success then k.(state := ACTIVE, routing := true, timer := Armed(GeneralInactivity))
         else SentCore(k, true, c.free)
  {
    if c.state == ACTIVATING {
      ActivationIsFlat(c, success, code, accepted);
      FlatSendCore(c, Response(c, c.sourceAddress, code, !success).value, accepted);
    }
  }

  lemma DispatchedCore(c: Conn, header: Header, answers: seq<bool>, receives: bool)
    ensures Dispatched(c, header, answers, receives).free == c.free
    ensures CoreOf(Dispatched(c, header, answers, receives)) == CoreOf(c)
  {
    if header.payloadType == ROUTING_ACTIVATION_REQUEST || header.payloadType == ALIVE_CHECK_RESPONSE {
    } else if Silent(header.payloadType) {
    } else {
      match FirstAccepting(answers, |c.handlers|)
      case Some(k) =>
        assert Dispatched(c, header, answers, receives) == c.(handlers := OfferedTo(c.handlers, header, k + 1));
      case None =>
        assert Dispatched(c, header, answers, receives) == c.(handlers := OfferedTo(c.handlers, header, |c.handlers|));
    }
  }

  lemma PreparedCore(c: Conn, header: Header, versionOk: bool, answers: seq<bool>, receives: bool)
    ensures var ready := Prepared(c, header, versionOk, answers, receives);
      && ready.free == c.free
      && CoreOf(ready)
         == if versionOk && c.state == ACTIVE then CoreOf(c).(timer := Armed(GeneralInactivity)) else CoreOf(c)
  {
    if versionOk {
      var ready := c.(timer := if c.state == ACTIVE then Armed(GeneralInactivity) else c.timer);
      DispatchedCore(ready, header, answers, receives);
    }
  }

  lemma HeaderCore(c: Conn, header: Header, versionOk: bool, answers: seq<bool>, receives: bool, accepted: bool)
    requires PoolBalanced(c)
    ensures var due := HeaderDue(c, header, versionOk, answers);
      var k := if versionOk && c.state == ACTIVE then CoreOf(c).(timer := Armed(GeneralInactivity)) else CoreOf(c);
      CoreOf(HeaderReceived(c, header, versionOk, answers, receives, accepted))
      == if due.Some? then SentCore(k, due.value.closeAfterSend, c.free) else k
  {
    var due := HeaderDue(c, header, versionOk, answers);
    var ready := Prepared(c, header, versionOk, answers, receives);
    HeaderIsFlat(c, header, versionOk, answers, receives, accepted);
    PreparedCore(c, header, versionOk, answers, receives);
    if due.Some? {
      FlatSendCore(ready, due.value, accepted);
    } else {
      assert HeaderReceived(c, header, versionOk, answers, receives, accepted) == ready;
    }
  }

  lemma RequestCore(c: Conn, payload: seq<byte>, result: FilterResult, accepted: bool)
    requires PoolBalanced(c) && RequestPayload(payload)
    ensures var due := RequestDue(c, Source(payload), result);
      CoreOf(ActivationRequest(c, payload, result, accepted))
      == if due.Some? then SentCore(CoreOf(c), due.value.closeAfterSend, c.free)
         else CoreOf(c).(source := Address(Source(payload)), internal := Address(result.internalAddress),
                         state := ACTIVATING)
  {
    var oem := if |payload| == 11 then Some([payload[7], payload[8], payload[9], payload[10]]) else None;
    var asked := c.(out := c.out + [FilterAsked(Source(payload), payload[2], oem, false)]);
    RequestIsFlat(c, payload, result, accepted);
    if RequestDue(c, Source(payload), result).Some? {
      FlatSendCore(asked, RequestDue(c, Source(payload), result).value, accepted);
    }
  }

  lemma ResponseCore(c: Conn, payload: seq<byte>)
    requires |payload| == 2
    ensures var k := CoreOf(c).(pending := false);
      CoreOf(AliveResponse(c, payload)) == if Source(payload) == c.sourceAddress then k else Shut(k)
  {
    var expected := Source(payload) == c.sourceAddress;
    ResponseIsFlat(c, payload);
    FlatCloseCore(c.(aliveCheckPending := false,
                     out := c.out + if c.aliveCheckPending then [AliveAnswer(expected)] else []));
  }

  lemma ExpiryCore(c: Conn)
    ensures CoreOf(TimerExpired(c))
         == if c.state == INACTIVE || c.state == ACTIVE then Shut(CoreOf(c)) else CoreOf(c).(timer := Idle)
  {
    ExpiryIsFlat(c);
    FlatCloseCore(c);
    FlatCloseCore(c.(out := c.out + if c.aliveCheckPending then [] else [AbortMode]));
  }

  lemma ReturnCore(c: Conn, id: nat)
    requires id in c.inFlight
    ensures CoreOf(JobDone(c, id)) == if c.inFlight[id].closeAfterSend then Shut(CoreOf(c)) else CoreOf(c)
  {
    CloseCore(Release(c, id));
    assert CoreOf(Release(c, id)) == CoreOf(c);
  }

  // ----- every event on the core -----

  /** The address that the payload of an event names. */
  function Named(e: Event): Address {
    match e
    case ActivationPayload(payload, _, _) => Address(if |payload| >= 2 then Source(payload) else 0)
    case AlivePayload(payload) => Address(if |payload| >= 2 then Source(payload) else 0)
    case _ => Address(0)
  }

  /** A job returns that was to close the connection. */
  predicate ReturnsClosing(c: Conn, e: Event) {
    e.JobReturned? && e.id in c.inFlight && c.inFlight[e.id].closeAfterSend
  }

  /** The core after an event: due is the message due, named the address in the payload, free the
      number of free jobs, and closing says that a closing job returns. */
  function CoreStep(k: Core, e: Event, due: Option<Message>, named: Address, free: nat, closing: bool): Core {
    match e
    case AddMessageHandler => k
    case Resumed(address) => if k.started then k else k.(source := Address(address), state := ACTIVE, routing := true)
    case Started(internalAddress) =>
      if k.started then k
      else if k.state == INACTIVE then k.(started := true, timer := Armed(InitialInactivity))
      else k.(started := true, timer := Armed(GeneralInactivity), internal := Address(internalAddress))
    case CloseCalled => Shut(k)
    case PeerClosed => Shut(k)
    case AliveCheckStarted(_) =>
      var asked := k.(pending := true, timer := Armed(AliveCheckTimeout));
      if k.state != ACTIVE then k else if free == 0 then Shut(asked) else asked
    case ActivationDone(success, _, _) =>
      if k.state != ACTIVATING then k
      else if success then k.(state := ACTIVE, routing := true, timer := Armed(GeneralInactivity))
      else SentCore(k, true, free)
    case HeaderIn(_, versionOk, _, _, _) =>
      var ready := if versionOk && k.state == ACTIVE then k.(timer := Armed(GeneralInactivity)) else k;
      if due.Some? then SentCore(ready, due.value.closeAfterSend, free) else ready
    case ActivationPayload(_, result, _) =>
      if due.Some? then SentCore(k, due.value.closeAfterSend, free)
      else k.(source := named, internal := Address(result.internalAddress), state := ACTIVATING)
    case AlivePayload(_) => if named == k.source then k.(pending := false) else Shut(k.(pending := false))
    case TimerFired => if k.state == INACTIVE || k.state == ACTIVE then Shut(k) else k.(timer := Idle)
    case JobReturned(_) => if closing then Shut(k) else k
    case ShutdownCalled => k.(timer := Idle)
  }

  /** Every step of a connection is this step of its core. */
  lemma StepCore(c: Conn, e: Event)
    requires PoolBalanced(c) && Enabled(c, e)
    ensures CoreOf(Step(c, e)) == CoreStep(CoreOf(c), e, Due(c, e), Named(e), c.free, ReturnsClosing(c, e))
  {
    match e {
      case Started(internalAddress) => StartCore(c, internalAddress);
      case CloseCalled => CloseCore(c);
      case PeerClosed => CloseCore(c);
      case AliveCheckStarted(accepted) => CheckCore(c, accepted);
      case ActivationDone(success, code, accepted) => ActivationCore(c, success, code, accepted);
      case HeaderIn(header, versionOk, answers, receives, accepted) =>
        HeaderCore(c, header, versionOk, answers, receives, accepted);
      case ActivationPayload(payload, result, accepted) => RequestCore(c, payload, result, accepted);
      case AlivePayload(payload) => ResponseCore(c, payload);
      case TimerFired => ExpiryCore(c);
      case JobReturned(id) => ReturnCore(c, id);
      case _ =>
    }
  }

  // ----- the same, field by field -----

  /** The state after every event. */
  lemma StateOfEvent(k: Core, e: Event, due: Option<Message>, named: Address, free: nat, closing: bool)
    ensures
      var carrying := (close: bool) =>
        if k.state == SHUTDOWN || free == 0 then SHUTDOWN else if close then CLOSING else k.state;
      CoreStep(k, e, due, named, free, closing).state == match e
        case Resumed(_) => (if k.started then k.state else ACTIVE)
        case CloseCalled => SHUTDOWN
        case PeerClosed => SHUTDOWN
        case TimerFired => (if k.state == INACTIVE || k.state == ACTIVE then SHUTDOWN else k.state)
        case JobReturned(_) => (if closing then SHUTDOWN else k.state)
        case AlivePayload(_) => (if named == k.source then k.state else SHUTDOWN)
        case AliveCheckStarted(_) => (if k.state == ACTIVE && free == 0 then SHUTDOWN else k.state)
        case ActivationDone(success, _, _) => (
          if k.state != ACTIVATING then k.state else if success then ACTIVE else carrying(true))
        case HeaderIn(_, _, _, _, _) => (if due.Some? then carrying(due.value.closeAfterSend) else k.state)
        case ActivationPayload(_, _, _) => (if due.Some? then carrying(due.value.closeAfterSend) else ACTIVATING)
        case _ => k.state
  {
  }

  /** The timer after every event: a header of the right version restarts the inactivity timer of an
      active connection. */
  lemma TimerOfEvent(k: Core, e: Event, due: Option<Message>, named: Address, free: nat, closing: bool)
    ensures var k' := CoreStep(k, e, due, named, free, closing);
      k'.timer == if k.state != SHUTDOWN && k'.state == SHUTDOWN then Idle else match e
        case Started(_) => (
          if k.started then k.timer
          else if k.state == INACTIVE then Armed(InitialInactivity) else Armed(GeneralInactivity))
        case AliveCheckStarted(_) => (if k.state == ACTIVE then Armed(AliveCheckTimeout) else k.timer)
        case ActivationDone(success, _, _) => (
          if k.state == ACTIVATING && success then Armed(GeneralInactivity) else k.timer)
        case HeaderIn(_, versionOk, _, _, _) => (
          if versionOk && k.state == ACTIVE then Armed(GeneralInactivity) else k.timer)
        case TimerFired => Idle
        case ShutdownCalled => Idle
        case _ => k.timer
  {
  }

  /** The two addresses after every event. */
  lemma AddressesOfEvent(k: Core, e: Event, due: Option<Message>, named: Address, free: nat, closing: bool)
    ensures var k' := CoreStep(k, e, due, named, free, closing);
      && k'.source == (if e.ActivationPayload? && due.None? then named
                       else if e.Resumed? && !k.started then Address(e.address)
                       else k.source)
      && k'.internal == (if e.ActivationPayload? && due.None? then Address(e.result.internalAddress)
                         else if e.Started? && !k.started && k.state != INACTIVE then Address(e.internalAddress)
                         else k.internal)
  {
  }

  /** The flags after every event. */
  lemma FlagsOfEvent(k: Core, e: Event, due: Option<Message>, named: Address, free: nat, closing: bool)
    ensures var k' := CoreStep(k, e, due, named, free, closing);
      && k'.started == (k.started || e.Started?)
      && k'.pending == (!e.AlivePayload? && (k.pending || (e.AliveCheckStarted? && k.state == ACTIVE)))
      && k'.routing == (k.routing || (e.Resumed? && !k.started)
                        || (e.ActivationDone? && e.success && k.state == ACTIVATING))
  {
  }

  // ----- and on the connection itself -----

  lemma SameCore(c: Conn, k: Core)
    requires CoreOf(c) == k
    ensures c.started == k.started && c.state == k.state && c.aliveCheckPending == k.pending
    ensures c.isOrWasRouting == k.routing && c.timer == k.timer
    ensures c.sourceAddress == k.source.word && c.internalAddress == k.internal.word
  {
  }

  /** The state after every event of a connection. */
  lemma StateAfter(c: Conn, e: Event)
    requires PoolBalanced(c) && Enabled(c, e)
    ensures
      var sent := (close: bool) =>
        if c.state == SHUTDOWN || c.free == 0 then SHUTDOWN else if close then CLOSING else c.state;
      Step(c, e).state == match e
        case Resumed(_) => (if c.started then c.state else ACTIVE)
        case CloseCalled => SHUTDOWN
        case PeerClosed => SHUTDOWN
        case TimerFired => (if c.state == INACTIVE || c.state == ACTIVE then SHUTDOWN else c.state)
        case JobReturned(id) => (if c.inFlight[id].closeAfterSend then SHUTDOWN else c.state)
        case AlivePayload(payload) => (if Join16(payload[0], payload[1]) == c.sourceAddress then c.state else SHUTDOWN)
        case AliveCheckStarted(_) => (if c.state == ACTIVE && c.free == 0 then SHUTDOWN else c.state)
        case ActivationDone(success, _, _) => (
          if c.state != ACTIVATING then c.state else if success then ACTIVE else sent(true))
        case HeaderIn(_, _, _, _, _) => (if Due(c, e).Some? then sent(Due(c, e).value.closeAfterSend) else c.state)
        case ActivationPayload(_, _, _) => (
          if Due(c, e).Some? then sent(Due(c, e).value.closeAfterSend) else ACTIVATING)
        case _ => c.state
  {
    var k, named, closing := CoreOf(c), Named(e), ReturnsClosing(c, e);
    StepCore(c, e);
    StateOfEvent(k, e, Due(c, e), named, c.free, closing);
    SameCore(Step(c, e), CoreStep(k, e, Due(c, e), named, c.free, closing));
  }

  /** The flags after every event of a connection. */
  lemma FlagsAfter(c: Conn, e: Event)
    requires PoolBalanced(c) && Enabled(c, e)
    ensures var c' := Step(c, e);
      && c'.started == (c.started || e.Started?)
      && c'.aliveCheckPending == (!e.AlivePayload?
                                && (c.aliveCheckPending || (e.AliveCheckStarted? && c.state == ACTIVE)))
      && c'.isOrWasRouting == (c.isOrWasRouting || (e.Resumed? && !c.started)
                               || (e.ActivationDone? && e.success && c.state == ACTIVATING))
  {
    var k, named, closing := CoreOf(c), Named(e), ReturnsClosing(c, e);
    StepCore(c, e);
    FlagsOfEvent(k, e, Due(c, e), named, c.free, closing);
    SameCore(Step(c, e), CoreStep(k, e, Due(c, e), named, c.free, closing));
  }
}
