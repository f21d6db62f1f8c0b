/** What one event does to a connection, field by field and call by call. The layered effects of the
    entry points are first shown to be one flat update; its parts are then read off. */
module DoipEvents {
  import opened Bytes
  import opened DoipMessages
  import opened DoipModel
  import opened DoipRuns
  import opened Wrappers

  // ----- the flat update -----

  function FlatClose(c: Conn): Conn {
    if c.state == SHUTDOWN then c
    else
      c.(state := SHUTDOWN, timer := Idle, handlers := ToldAll(c.handlers, Closed),
         broadcasts := c.broadcasts + [Closed],
         out := c.out + [ConnectionClose, ConnectionClosedCallback]
                + if c.aliveCheckPending then [AliveAnswer(false)] else [])
  }

  function FlatSend(c: Conn, m: Message, accepted: bool): Conn {
    if c.state == SHUTDOWN || c.free == 0 then FlatClose(c)
    else
      var job := SendJob(c.nextJob, m.payloadType, m.payload, m.closeAfterSend);
      var sent := c.(state := if m.closeAfterSend then CLOSING else c.state, nextJob := c.nextJob + 1,
                     out := c.out + [Sent(job, accepted)]);
      if accepted then sent.(free := c.free - 1, inFlight := c.inFlight[c.nextJob := job])
      else sent.(released := c.released + [c.nextJob])
  }

  /** What a header does before anything is sent. */
  function Prepared(c: Conn, header: Header, versionOk: bool, answers: seq<bool>, receives: bool): Conn {
    if !versionOk then c
    else
      var ready := c.(timer := if c.state == ACTIVE then Armed(GeneralInactivity) else c.timer);
      Dispatched(ready, header, answers, receives)
  }

  function Dispatched(c: Conn, header: Header, answers: seq<bool>, receives: bool): Conn {
    if header.payloadType == ROUTING_ACTIVATION_REQUEST || header.payloadType == ALIVE_CHECK_RESPONSE then
      if DispatchDue(c, header, answers).Some? then c
      else c.(out := c.out + [ReceivePayload(header.payloadLength, receives)])
    else if Silent(header.payloadType) then c.(out := c.out + [EndReceive])
    else
      match FirstAccepting(answers, |c.handlers|)
      case Some(k) => c.(handlers := OfferedTo(c.handlers, header, k + 1))
      case None => c.(handlers := OfferedTo(c.handlers, header, |c.handlers|))
  }

  function FlatStart(c: Conn, internalAddress: bv16): Conn {
    if c.started then c
    else
      var told := c.(started := true, early := |c.handlers|, handlers := ToldAll(c.handlers, Opened),
                     broadcasts := c.broadcasts + [Opened], out := c.out + [ConnectionInit]);
      if c.state == INACTIVE then told.(timer := Armed(InitialInactivity))
      else
        told.(internalAddress := internalAddress, timer := Armed(GeneralInactivity),
              handlers := ToldAll(told.handlers, RoutingActive), broadcasts := told.broadcasts + [RoutingActive],
              out := told.out + [FilterAsked(c.sourceAddress, 0, Some([0, 0, 0, 0]), true), RoutingActiveCallback])
  }

  function FlatActive(c: Conn): Conn {
    c.(state := ACTIVE, isOrWasRouting := true, timer := Armed(GeneralInactivity),
       handlers := ToldAll(c.handlers, RoutingActive), broadcasts := c.broadcasts + [RoutingActive],
       out := c.out + [RoutingActiveCallback])
  }

  function FlatRequest(c: Conn, payload: seq<byte>, result: FilterResult, accepted: bool): Conn
    requires RequestPayload(payload)
  {
    var oem := if |payload| == 11 then Some([payload[7], payload[8], payload[9], payload[10]]) else None;
    var asked := c.(out := c.out + [FilterAsked(Source(payload), payload[2], oem, false)]);
    match RequestDue(c, Source(payload), result)
    case Some(m) => var sent := FlatSend(asked, m, accepted); sent.(out := sent.out + [EndReceive])
    case None => asked.(sourceAddress := Source(payload), internalAddress := result.internalAddress,
                        state := ACTIVATING, out := asked.out + [ActivationRequested, EndReceive])
  }

  function FlatResponse(c: Conn, payload: seq<byte>): Conn
    requires |payload| == 2
  {
    var expected := Source(payload) == c.sourceAddress;
    var answered := c.(aliveCheckPending := false,
                       out := c.out + if c.aliveCheckPending then [AliveAnswer(expected)] else []);
    if expected then answered.(out := answered.out + [EndReceive]) else FlatClose(answered)
  }

  function FlatCheck(c: Conn, accepted: bool): Conn {
    if c.state == ACTIVE then
      if c.free == 0 then FlatClose(c.(aliveCheckPending := true))
      else FlatSend(c.(aliveCheckPending := true, timer := Armed(AliveCheckTimeout)),
                    Message(ALIVE_CHECK_REQUEST, [], false), accepted)
    else if c.started then c.(out := c.out + [AliveAnswer(false)])
    else c
  }

  function FlatExpiry(c: Conn): Conn {
    if c.state == INACTIVE then FlatClose(c)
    else if c.state == ACTIVE then FlatClose(c.(out := c.out + if c.aliveCheckPending then [] else [AbortMode]))
    else c.(timer := Idle)
  }

  function FlatReturn(c: Conn, id: nat): Conn
    requires id in c.inFlight
  {
    var back := c.(free := c.free + 1, inFlight := c.inFlight - {id}, released := c.released + [id]);
    if c.inFlight[id].closeAfterSend then FlatClose(back) else back
  }

  function FlatStep(c: Conn, e: Event): Conn
    requires Enabled(c, e)
  {
    match e
    case AddMessageHandler => c.(handlers := c.handlers + [Handler([], [])])
    case Resumed(address) =>
      if c.started then c else c.(sourceAddress := address, state := ACTIVE, isOrWasRouting := true)
    case Started(internalAddress) => FlatStart(c, internalAddress)
    case CloseCalled => FlatClose(c)
    case PeerClosed => FlatClose(c)
    case AliveCheckStarted(accepted) => FlatCheck(c, accepted)
    case ActivationDone(success, _, accepted) =>
      if c.state != ACTIVATING then c
      else
        var sent := FlatSend(c, Due(c, e).value, accepted);
        if success then FlatActive(sent) else sent
    case HeaderIn(header, versionOk, answers, receives, accepted) =>
      var ready := Prepared(c, header, versionOk, answers, receives);
      if Due(c, e).Some? then FlatSend(ready, Due(c, e).value, accepted) else ready
    case ActivationPayload(payload, result, accepted) => FlatRequest(c, payload, result, accepted)
    case AlivePayload(payload) => FlatResponse(c, payload)
    case TimerFired => FlatExpiry(c)
    case JobReturned(id) => FlatReturn(c, id)
    case ShutdownCalled => c.(timer := Idle)
  }

  // ----- every step is the flat update -----

  lemma CloseIsFlat(c: Conn)
    ensures CloseNow(c) == FlatClose(c)
  {
    if c.state != SHUTDOWN {
      assert c.out + [ConnectionClose] + [ConnectionClosedCallback]
          == c.out + [ConnectionClose, ConnectionClosedCallback];
    }
  }

  lemma SendIsFlat(c: Conn, m: Message, accepted: bool)
    requires PoolBalanced(c)
    ensures SendOrClose(c, m.payloadType, m.payload, m.closeAfterSend, accepted) == FlatSend(c, m, accepted)
  {
    CloseIsFlat(c);
    if c.state != SHUTDOWN && c.free > 0 {
      SentShape(c, m.payloadType, m.payload, m.closeAfterSend, accepted);
    }
  }

  lemma NackIsFlat(c: Conn, code: byte, close: bool, accepted: bool)
    requires PoolBalanced(c)
    ensures SendNack(c, code, close, accepted) == FlatSend(c, Nack(code, close).value, accepted)
  {
    SendIsFlat(c, Nack(code, close).value, accepted);
  }

  lemma AnswerIsFlat(c: Conn, tester: bv16, code: byte, close: bool, accepted: bool)
    requires PoolBalanced(c)
    ensures SendResponse(c, tester, code, close, accepted)
         == FlatSend(c, Response(c, tester, code, close).value, accepted)
  {
    SendIsFlat(c, Response(c, tester, code, close).value, accepted);
  }

  lemma LengthIsFlat(c: Conn, header: Header, receives: bool, accepted: bool)
    requires PoolBalanced(c)
    ensures HeaderActivation(c, header, receives, accepted)
         == if header.payloadLength == 7 || header.payloadLength == 11
            then c.(out := c.out + [ReceivePayload(header.payloadLength, receives)])
            else FlatSend(c, Nack(0x04, true).value, accepted)
    ensures HeaderAlive(c, header, receives, accepted)
         == if header.payloadLength == 2 then c.(out := c.out + [ReceivePayload(header.payloadLength, receives)])
            else FlatSend(c, Nack(0x04, true).value, accepted)
  {
    NackIsFlat(c, NACK_INVALID_PAYLOAD_LENGTH, true, accepted);
  }

  lemma DefaultIsFlat(c: Conn, header: Header, answers: seq<bool>, accepted: bool)
    requires PoolBalanced(c)
    ensures HeaderDefault(c, header, answers, accepted)
         == match FirstAccepting(answers, |c.handlers|)
            case Some(k) => c.(handlers := OfferedTo(c.handlers, header, k + 1))
            case None =>
              FlatSend(c.(handlers := OfferedTo(c.handlers, header, |c.handlers|)), Nack(0x01, false).value, accepted)
  {
    if FirstAccepting(answers, |c.handlers|).None? {
      NackIsFlat(Offer(c, header, |c.handlers|), NACK_UNKNOWN_PAYLOAD_TYPE, false, accepted);
    }
  }

  lemma DispatchIsFlat(c: Conn, header: Header, answers: seq<bool>, receives: bool, accepted: bool)
    requires PoolBalanced(c)
    ensures var due, ready := DispatchDue(c, header, answers), Dispatched(c, header, answers, receives);
      Dispatch(c, header, answers, receives, accepted)
      == if due.Some? then FlatSend(ready, due.value, accepted) else ready
  {
    if header.payloadType == ROUTING_ACTIVATION_REQUEST || header.payloadType == ALIVE_CHECK_RESPONSE {
      LengthIsFlat(c, header, receives, accepted);
    } else if !Silent(header.payloadType) {
      DefaultIsFlat(c, header, answers, accepted);
    }
  }

  lemma HeaderIsFlat(c: Conn, header: Header, versionOk: bool, answers: seq<bool>, receives: bool, accepted: bool)
    requires PoolBalanced(c)
    ensures var due := HeaderDue(c, header, versionOk, answers);
      var ready := Prepared(c, header, versionOk, answers, receives);
      HeaderReceived(c, header, versionOk, answers, receives, accepted)
      == if due.Some? then FlatSend(ready, due.value, accepted) else ready
  {
    if !versionOk {
      NackIsFlat(c, NACK_INCORRECT_PATTERN, true, accepted);
    } else {
      HeaderDispatch(c, header, answers, receives, accepted);
      DispatchIsFlat(Rearmed(c), header, answers, receives, accepted);
    }
  }

  lemma DecideIsFlat(c: Conn, source: bv16, result: FilterResult, accepted: bool)
    requires PoolBalanced(c)
    ensures Decide(c, source, result, accepted)
         == match RequestDue(c, source, result)
            case Some(m) => FlatSend(c, m, accepted)
            case None => c.(sourceAddress := source, internalAddress := result.internalAddress, state := ACTIVATING,
                            out := c.out + [ActivationRequested])
  {
    DecideSplits(c, source, result, accepted);
    if RequestDue(c, source, result).Some? {
      SendIsFlat(c, RequestDue(c, source, result).value, accepted);
    }
  }

  lemma OemFieldBytes(payload: seq<byte>)
    requires RequestPayload(payload)
    ensures OemField(payload)
         == if |payload| == 11 then Some([payload[7], payload[8], payload[9], payload[10]]) else None
  {
    if |payload| == 11 {
      assert payload[7..11] == [payload[7], payload[8], payload[9], payload[10]];
    }
  }

  lemma RequestIsFlat(c: Conn, payload: seq<byte>, result: FilterResult, accepted: bool)
    requires PoolBalanced(c) && RequestPayload(payload)
    ensures ActivationRequest(c, payload, result, accepted) == FlatRequest(c, payload, result, accepted)
  {
    OemFieldBytes(payload);
    var o := FilterAsked(Source(payload), payload[2], OemField(payload), false);
    DecideIsFlat(Emit(c, o), Source(payload), result, accepted);
    SameRequestDue(c, o, Source(payload), result);
    var decided := Decide(Emit(c, o), Source(payload), result, accepted);
    assert ActivationRequest(c, payload, result, accepted) == Emit(decided, EndReceive);
    assert c.out + [o] + [ActivationRequested] + [EndReceive] == c.out + [o] + [ActivationRequested, EndReceive];
  }

  lemma StartIsFlat(c: Conn, internalAddress: bv16)
    ensures Start(c, internalAddress) == FlatStart(c, internalAddress)
  {
    if !c.started && c.state != INACTIVE {
      var asked := FilterAsked(c.sourceAddress, 0, Some([0, 0, 0, 0]), true);
      assert Start(c, internalAddress) == StartResumed(Begun(c), internalAddress);
      assert c.out + [ConnectionInit] + [asked] + [RoutingActiveCallback]
          == c.out + [ConnectionInit] + [asked, RoutingActiveCallback];
    }
  }

  lemma CheckIsFlat(c: Conn, accepted: bool)
    requires PoolBalanced(c)
    ensures StartAliveCheck(c, accepted) == FlatCheck(c, accepted)
  {
    var asked := c.(aliveCheckPending := true);
    CloseIsFlat(asked);
    SendIsFlat(asked.(timer := Armed(AliveCheckTimeout)), Message(ALIVE_CHECK_REQUEST, [], false), accepted);
  }

  lemma ResponseIsFlat(c: Conn, payload: seq<byte>)
    requires |payload| == 2
    ensures AliveResponse(c, payload) == FlatResponse(c, payload)
  {
    var expected := Source(payload) == c.sourceAddress;
    CloseIsFlat(Answered(c, expected));
    assert Answered(c, expected) == c.(aliveCheckPending := false,
      out := c.out + if c.aliveCheckPending then [AliveAnswer(expected)] else []);
  }

  lemma ExpiryIsFlat(c: Conn)
    ensures TimerExpired(c) == FlatExpiry(c)
  {
    ExpiryCases(c);
    CloseIsFlat(StopTimer(c));
    CloseIsFlat(Emit(StopTimer(c), AbortMode));
    assert c.out + [] == c.out;
  }

  lemma ReturnIsFlat(c: Conn, id: nat)
    requires id in c.inFlight
    ensures JobDone(c, id) == FlatReturn(c, id)
  {
    CloseIsFlat(Release(c, id));
  }

  lemma ActivationIsFlat(c: Conn, success: bool, code: byte, accepted: bool)
    requires PoolBalanced(c) && c.state == ACTIVATING
    ensures var sent := FlatSend(c, Response(c, c.sourceAddress, code, !success).value, accepted);
      ActivationCompleted(c, success, code, accepted) == if success then FlatActive(sent) else sent
  {
    AnswerIsFlat(c, c.sourceAddress, code, !success, accepted);
  }

  /** Every step is the flat update. */
  lemma StepIsFlat(c: Conn, e: Event)
    requires PoolBalanced(c) && Enabled(c, e)
    ensures Step(c, e) == FlatStep(c, e)
  {
    match e {
      case Started(internalAddress) => StartIsFlat(c, internalAddress);
      case CloseCalled => CloseIsFlat(c);
      case PeerClosed => CloseIsFlat(c);
      case AliveCheckStarted(accepted) => CheckIsFlat(c, accepted);
      case ActivationDone(success, code, accepted) =>
        if c.state == ACTIVATING { ActivationIsFlat(c, success, code, accepted); }
      case HeaderIn(header, versionOk, answers, receives, accepted) =>
        HeaderIsFlat(c, header, versionOk, answers, receives, accepted);
      case ActivationPayload(payload, result, accepted) => RequestIsFlat(c, payload, result, accepted);
      case AlivePayload(payload) => ResponseIsFlat(c, payload);
      case TimerFired => ExpiryIsFlat(c);
      case JobReturned(id) => ReturnIsFlat(c, id);
      case _ =>
    }
  }
}
