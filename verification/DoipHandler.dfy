/** The connection handler as an object that updates its fields in place. Every method is proved to
    have exactly the effect of the transition function of the same name. */
module DoipHandler {
  import opened Wrappers
  import opened Bytes
  import opened DoipModel

  class MessageHandler {
    var calls: seq<HandlerCall>
    var offered: seq<Header>

    function View(): Handler
      reads this
    {
      Handler(calls, offered)
    }

    constructor ()
      ensures View() == Handler([], [])
    {
      calls, offered := [], [];
    }

    method Notify(call: HandlerCall)
      modifies this
      ensures View() == Told(old(View()), call)
    {
      calls := calls + [call];
    }

    /** The answer is the environment's. */
    method HeaderReceived(header: Header, answer: bool) returns (handled: bool)
      modifies this
      ensures handled == answer
      ensures View() == old(View()).(offered := old(offered) + [header])
    {
      offered := offered + [header];
      handled := answer;
    }
  }

  ghost function ViewsOf(hs: seq<MessageHandler>): (r: seq<Handler>)
    reads hs
    ensures |r| == |hs|
    ensures forall i :: 0 <= i < |hs| ==> r[i] == hs[i].View()
  {
    seq(|hs|, i requires 0 <= i < |hs| reads hs => hs[i].View())
  }

  class DoIpServerConnectionHandler {
    const logicalEntityAddress: bv16
    const poolSize: nat

    var callbackSet: bool
    var state: ConnState
    var sourceAddress: bv16
    var internalSourceAddress: bv16
    var aliveCheckPending: bool
    var isOrWasRouting: bool
    var timerTimeout: Timer
    var messageHandlers: seq<MessageHandler>
    /** Free slots of the send job pool, and the identity of the next job. */
    var freeJobs: nat
    var nextJob: nat

    /** What the collaborators hold or have been told. */
    ghost var inFlight: map<nat, SendJob>
    ghost var released: seq<nat>
    ghost var early: nat
    ghost var broadcasts: seq<HandlerCall>
    ghost var out: seq<Output>

    ghost predicate Valid()
      reads `messageHandlers
    {
      forall i, j :: 0 <= i < j < |messageHandlers| ==> messageHandlers[i] != messageHandlers[j]
    }

    ghost function HandlerViews(): (r: seq<Handler>)
      reads `messageHandlers, messageHandlers
    {
      ViewsOf(messageHandlers)
    }

    ghost function View(): Conn
      reads this, messageHandlers
    {
      Conn(logicalEntityAddress, callbackSet, state, sourceAddress, internalSourceAddress,
           aliveCheckPending, isOrWasRouting, timerTimeout,
           poolSize, freeJobs, inFlight, nextJob, released,
           HandlerViews(), early, broadcasts, out)
    }

    constructor (logicalEntityAddress: bv16, invalidAddress: bv16, poolSize: nat)
      ensures Valid() && View() == Fresh(logicalEntityAddress, invalidAddress, poolSize)
      ensures messageHandlers == []
    {
      this.logicalEntityAddress, this.poolSize := logicalEntityAddress, poolSize;
      callbackSet, state := false, INACTIVE;
      sourceAddress, internalSourceAddress := invalidAddress, invalidAddress;
      aliveCheckPending, isOrWasRouting, timerTimeout := false, false, Idle;
      messageHandlers, freeJobs, nextJob := [], poolSize, 0;
      inFlight, released, early, broadcasts, out := map[], [], 0, [], [];
    }

    method AddMessageHandler(messageHandler: MessageHandler)
      requires Valid() && messageHandler !in messageHandlers && messageHandler.View() == Handler([], [])
      modifies this
      ensures Valid() && messageHandlers == old(messageHandlers) + [messageHandler]
      ensures View() == AddHandler(old(View()))
    {
      messageHandlers := messageHandlers + [messageHandler];
    }

    method Resume(address: bv16) returns (resumed: bool)
      requires Valid()
      modifies this
      ensures Valid() && messageHandlers == old(messageHandlers)
      ensures resumed == !old(callbackSet) && View() == DoipModel.Resume(old(View()), address)
    {
      if !callbackSet {
        sourceAddress := address;
        state := ACTIVE;
        isOrWasRouting := true;
        return true;
      }
      return false;
    }

    /** The internal address is the one the filter resolves for a resumed connection. */
    method Start(internalAddress: bv16)
      requires Valid()
      modifies this, messageHandlers
      ensures Valid() && messageHandlers == old(messageHandlers)
      ensures View() == DoipModel.Start(old(View()), internalAddress)
    {
      if !callbackSet {
        BeginConnection();
        CallHandlers(Opened);
        if state == INACTIVE {
          timerTimeout := Armed(InitialInactivity);
        } else {
          StartResumedConnection(internalAddress);
        }
      }
    }

    method BeginConnection()
      modifies `callbackSet, `early, `out
      ensures View() == Emit(old(View()).(started := true, early := |old(View()).handlers|), ConnectionInit)
    {
      callbackSet := true;
      early := |messageHandlers|;
      out := out + [ConnectionInit];
    }

    method StartResumedConnection(internalAddress: bv16)
      requires Valid()
      modifies this, messageHandlers
      ensures Valid() && messageHandlers == old(messageHandlers)
      ensures View() == StartResumed(old(View()), internalAddress)
    {
      ResolveResumed(internalAddress);
      SendRoutingActive();
    }

    method ResolveResumed(internalAddress: bv16)
      modifies `out, `internalSourceAddress, `timerTimeout
      ensures View() == Emit(old(View()), FilterAsked(sourceAddress, 0, Some([0, 0, 0, 0]), true))
        .(internalAddress := internalAddress, timer := Armed(GeneralInactivity))
    {
      out := out + [FilterAsked(sourceAddress, 0, Some([0, 0, 0, 0]), true)];
      internalSourceAddress := internalAddress;
      timerTimeout := Armed(GeneralInactivity);
    }

    method CallHandlers(call: HandlerCall)
      requires Valid()
      modifies `broadcasts, messageHandlers
      ensures View() == Broadcast(old(View()), call)
    {
      TellHandlers(call);
      broadcasts := broadcasts + [call];
    }

    /** The loop over the message handlers in sendConnectionOpened, sendRoutingActive and close. */
    method TellHandlers(call: HandlerCall)
      requires Valid()
      modifies messageHandlers
      ensures HandlerViews() == ToldAll(old(HandlerViews()), call)
    {
      ghost var before := HandlerViews();
      for i := 0 to |messageHandlers|
        invariant forall k :: 0 <= k < i ==> messageHandlers[k].View() == Told(before[k], call)
        invariant forall k :: i <= k < |messageHandlers| ==> messageHandlers[k].View() == before[k]
      {
        messageHandlers[i].Notify(call);
      }
    }

    method SendRoutingActive()
      requires Valid()
      modifies `broadcasts, `out, messageHandlers
      ensures View() == NotifyRouting(old(View()))
    {
      CallHandlers(RoutingActive);
      out := out + [RoutingActiveCallback];
    }

    method Close()
      requires Valid() && (callbackSet || state == SHUTDOWN)
      modifies this, messageHandlers
      ensures Valid() && messageHandlers == old(messageHandlers)
      ensures View() == CloseNow(old(View()))
    {
      if state != SHUTDOWN {
        ghost var c := View();
        state := SHUTDOWN;
        out := out + [ConnectionClose];
        assert View() == Emit(c.(state := SHUTDOWN), ConnectionClose);
        CallHandlers(Closed);
        AnnounceClosing();
      }
    }

    method AnnounceClosing()
      requires Valid()
      modifies `timerTimeout, `out
      ensures View() == AnnounceClosed(old(View()))
    {
      timerTimeout := Idle;
      out := out + [ConnectionClosedCallback];
      if aliveCheckPending {
        out := out + [AliveAnswer(false)];
      }
    }

    method AllocateSendJob(payloadType: bv16, payload: seq<byte>, closeAfterSend: bool) returns (job: Option<SendJob>)
      requires Valid()
      modifies `state, `freeJobs, `nextJob
      ensures (View(), job) == Allocate(old(View()), payloadType, payload, closeAfterSend)
    {
      if state == SHUTDOWN {
        return None;
      }
      if closeAfterSend {
        state := CLOSING;
      }
      if freeJobs == 0 {
        return None;
      }
      job := Some(SendJob(nextJob, payloadType, payload, closeAfterSend));
      freeJobs, nextJob := freeJobs - 1, nextJob + 1;
    }

    method ReleaseSendJob(job: SendJob)
      requires Valid()
      modifies `freeJobs, `inFlight, `released
      ensures View() == Release(old(View()), job.id)
    {
      freeJobs := freeJobs + 1;
      inFlight, released := inFlight - {job.id}, released + [job.id];
    }

    /** The connection accepts the job or refuses it. */
    method SendOrReleaseMessage(job: SendJob, accepted: bool)
      requires Valid()
      modifies `freeJobs, `inFlight, `released, `out
      ensures View() == SendOrRelease(old(View()), job, accepted)
    {
      out := out + [Sent(job, accepted)];
      if accepted {
        inFlight := inFlight[job.id := job];
      } else {
        ReleaseSendJob(job);
      }
    }

    /** The body shared by sendNack and sendRoutingActivationResponse. */
    method SendOrCloseJob(payloadType: bv16, payload: seq<byte>, closeAfterSend: bool, accepted: bool)
      requires Valid() && callbackSet
      modifies this, messageHandlers
      ensures Valid() && messageHandlers == old(messageHandlers)
      ensures View() == SendOrClose(old(View()), payloadType, payload, closeAfterSend, accepted)
    {
      SendThroughAllocation(View(), payloadType, payload, closeAfterSend, accepted);
      var job := AllocateSendJob(payloadType, payload, closeAfterSend);
      if job.Some? {
        SendOrReleaseMessage(job.value, accepted);
      } else {
        Close();
      }
    }

    method SendNack(nackCode: byte, closeAfterSend: bool, accepted: bool)
      requires Valid() && callbackSet
      modifies this, messageHandlers
      ensures Valid() && messageHandlers == old(messageHandlers)
      ensures View() == DoipModel.SendNack(old(View()), nackCode, closeAfterSend, accepted)
    {
      SendOrCloseJob(NEGATIVE_ACK, [nackCode], closeAfterSend, accepted);
    }

    method SendRoutingActivationResponse(tester: bv16, responseCode: byte, closeAfterSend: bool, accepted: bool)
      requires Valid() && callbackSet
      modifies this, messageHandlers
      ensures Valid() && messageHandlers == old(messageHandlers)
      ensures View() == SendResponse(old(View()), tester, responseCode, closeAfterSend, accepted)
    {
      var payload := ResponsePayload(tester, logicalEntityAddress, responseCode);
      SendOrCloseJob(ROUTING_ACTIVATION_RESPONSE, payload, closeAfterSend, accepted);
    }

    method StartAliveCheck(accepted: bool)
      requires Valid() && (callbackSet || state != ACTIVE || freeJobs > 0)
      modifies this, messageHandlers
      ensures Valid() && messageHandlers == old(messageHandlers)
      ensures View() == DoipModel.StartAliveCheck(old(View()), accepted)
    {
      if state == ACTIVE {
        RequestAliveCheck(accepted);
      } else if callbackSet {
        out := out + [AliveAnswer(false)];
      }
    }

    method RequestAliveCheck(accepted: bool)
      requires Valid() && state == ACTIVE && (callbackSet || freeJobs > 0)
      modifies this, messageHandlers
      ensures Valid() && messageHandlers == old(messageHandlers)
      ensures View() == RequestAlive(old(View()), accepted)
    {
      ghost var c := View();
      aliveCheckPending := true;
      assert View() == c.(aliveCheckPending := true);
      SendOrCloseCheck(accepted);
    }

    /** The request of a check that is marked as pending. */
    method SendOrCloseCheck(accepted: bool)
      requires Valid() && state == ACTIVE && aliveCheckPending && (callbackSet || freeJobs > 0)
      modifies this, messageHandlers
      ensures Valid() && messageHandlers == old(messageHandlers)
      ensures View() == RequestAlive(old(View()), accepted)
    {
      AliveRequestSent(View(), accepted);
      var job := AllocateSendJob(ALIVE_CHECK_REQUEST, [], false);
      if job.Some? {
        SendAliveCheck(job.value, accepted);
      } else {
        Close();
      }
    }

    method SendAliveCheck(job: SendJob, accepted: bool)
      requires Valid()
      modifies `timerTimeout, `freeJobs, `inFlight, `released, `out
      ensures View() == SendOrRelease(old(View()).(timer := Armed(AliveCheckTimeout)), job, accepted)
    {
      timerTimeout := Armed(AliveCheckTimeout);
      SendOrReleaseMessage(job, accepted);
    }

    method RoutingActivationCompleted(success: bool, responseCode: byte, accepted: bool)
      requires Valid() && callbackSet
      modifies this, messageHandlers
      ensures Valid() && messageHandlers == old(messageHandlers)
      ensures View() == ActivationCompleted(old(View()), success, responseCode, accepted)
    {
      if state == ACTIVATING {
        SendRoutingActivationResponse(sourceAddress, responseCode, !success, accepted);
        if success {
          BecomeActive();
        }
      }
    }

    method BecomeActive()
      requires Valid()
      modifies this, messageHandlers
      ensures Valid() && messageHandlers == old(messageHandlers)
      ensures View() == Activated(old(View()))
    {
      MarkActive();
      SendRoutingActive();
    }

    method MarkActive()
      modifies `state, `isOrWasRouting, `timerTimeout
      ensures View() == old(View()).(state := ACTIVE, isOrWasRouting := true, timer := Armed(GeneralInactivity))
    {
      state := ACTIVE;
      isOrWasRouting := true;
      timerTimeout := Armed(GeneralInactivity);
    }

    method ConnectionClosed()
      requires Valid() && callbackSet
      modifies this, messageHandlers
      ensures Valid() && messageHandlers == old(messageHandlers)
      ensures View() == CloseNow(old(View()))
    {
      Close();
    }

    method HeaderReceivedRoutingActivationRequest(header: Header, receives: bool, accepted: bool) returns (kept: bool)
      requires Valid() && callbackSet
      modifies this, messageHandlers
      ensures Valid() && messageHandlers == old(messageHandlers)
      ensures kept == ((header.payloadLength == 7 || header.payloadLength == 11) && receives)
      ensures View() == HeaderActivation(old(View()), header, receives, accepted)
    {
      if header.payloadLength != 7 && header.payloadLength != 11 {
        SendNack(NACK_INVALID_PAYLOAD_LENGTH, true, accepted);
        return false;
      }
      out := out + [ReceivePayload(header.payloadLength, receives)];
      return receives;
    }

    method HeaderReceivedAliveCheckResponse(header: Header, receives: bool, accepted: bool) returns (kept: bool)
      requires Valid() && callbackSet
      modifies this, messageHandlers
      ensures Valid() && messageHandlers == old(messageHandlers)
      ensures kept == (header.payloadLength == 2 && receives)
      ensures View() == HeaderAlive(old(View()), header, receives, accepted)
    {
      if header.payloadLength != 2 {
        SendNack(NACK_INVALID_PAYLOAD_LENGTH, true, accepted);
        return false;
      }
      out := out + [ReceivePayload(2, receives)];
      return receives;
    }

    method HeaderReceivedDefault(header: Header, answers: seq<bool>, accepted: bool) returns (kept: bool)
      requires Valid() && callbackSet
      modifies this, messageHandlers
      ensures Valid() && messageHandlers == old(messageHandlers)
      ensures kept == FirstAccepting(answers, |messageHandlers|).Some?
      ensures View() == HeaderDefault(old(View()), header, answers, accepted)
    {
      ghost var c := View();
      kept := OfferInOrder(header, answers);
      OfferedDefault(c, View(), header, answers, accepted);
      if !kept {
        SendNack(NACK_UNKNOWN_PAYLOAD_TYPE, false, accepted);
      }
    }

    /** Offers the header in registration order and stops at the first handler that accepts. */
    method OfferInOrder(header: Header, answers: seq<bool>) returns (kept: bool)
      requires Valid()
      modifies messageHandlers
      ensures kept == FirstAccepting(answers, |messageHandlers|).Some?
      ensures HandlerViews() == OfferedTo(old(HandlerViews()), header,
        match FirstAccepting(answers, |messageHandlers|) case Some(k) => k + 1 case None => |messageHandlers|)
    {
      ghost var before := HandlerViews();
      for i := 0 to |messageHandlers|
        invariant FirstAccepting(answers, i).None?
        invariant HandlerViews() == OfferedTo(before, header, i)
      {
        var handled := OfferHeader(i, header, i < |answers| && answers[i]);
        OfferOneMore(before, header, i);
        if handled {
          FirstAcceptingStays(answers, i, |messageHandlers|);
          return true;
        }
      }
      return false;
    }

    method OfferHeader(i: nat, header: Header, answer: bool) returns (handled: bool)
      requires Valid() && i < |messageHandlers|
      modifies messageHandlers[i]
      ensures handled == answer
      ensures HandlerViews() == OfferTo(old(HandlerViews()), header, i)
    {
      handled := messageHandlers[i].HeaderReceived(header, answer);
    }

    method HeaderReceived(header: Header, versionOk: bool, answers: seq<bool>, receives: bool, accepted: bool)
      returns (kept: bool)
      requires Valid() && callbackSet
      modifies this, messageHandlers
      ensures Valid() && messageHandlers == old(messageHandlers)
      ensures kept == Keeps(old(View()), header, versionOk, answers, receives)
      ensures View() == DoipModel.HeaderReceived(old(View()), header, versionOk, answers, receives, accepted)
    {
      if !versionOk {
        SendNack(NACK_INCORRECT_PATTERN, true, accepted);
        return false;
      }
      if state == ACTIVE {
        timerTimeout := Armed(GeneralInactivity);
      }
      assert View() == Rearmed(old(View()));
      if header.payloadType == ROUTING_ACTIVATION_REQUEST {
        kept := HeaderReceivedRoutingActivationRequest(header, receives, accepted);
      } else if header.payloadType == ALIVE_CHECK_RESPONSE {
        kept := HeaderReceivedAliveCheckResponse(header, receives, accepted);
      } else if Silent(header.payloadType) {
        out := out + [EndReceive];
        kept := true;
      } else {
        kept := HeaderReceivedDefault(header, answers, accepted);
      }
    }

    method Execute()
      requires Valid() && callbackSet
      modifies this, messageHandlers
      ensures Valid() && messageHandlers == old(messageHandlers)
      ensures View() == TimerExpired(old(View()))
    {
      ghost var c := View();
      ExpiryCases(c);
      timerTimeout := Idle;
      assert View() == StopTimer(c);
      match state {
        case INACTIVE =>
          Close();
        case ACTIVE =>
          CloseInactive();
        case _ =>
      }
    }

    /** The expiry of the general inactivity or alive check timer. */
    method CloseInactive()
      requires Valid() && callbackSet
      modifies this, messageHandlers
      ensures Valid() && messageHandlers == old(messageHandlers)
      ensures View() == CloseNow(if old(aliveCheckPending) then old(View()) else Emit(old(View()), AbortMode))
    {
      if !aliveCheckPending {
        out := out + [AbortMode];
      }
      Close();
    }

    method RoutingActivationRequestReceived(payload: seq<byte>, result: FilterResult, accepted: bool)
      requires Valid() && callbackSet && RequestPayload(payload)
      modifies this, messageHandlers
      ensures Valid() && messageHandlers == old(messageHandlers)
      ensures View() == ActivationRequest(old(View()), payload, result, accepted)
    {
      var source := Join16(payload[0], payload[1]);
      var oemField := if |payload[7..]| == 4 then Some(payload[7..11]) else None;
      assert oemField == OemField(payload);
      AskFilter(source, payload[2], oemField);
      DecideOnRequest(source, result, accepted);
      EndReceiving();
    }

    method AskFilter(source: bv16, activationType: byte, oemField: Option<seq<byte>>)
      modifies `out
      ensures View() == Emit(old(View()), FilterAsked(source, activationType, oemField, false))
    {
      out := out + [FilterAsked(source, activationType, oemField, false)];
    }

    method EndReceiving()
      modifies `out
      ensures View() == Emit(old(View()), EndReceive)
    {
      out := out + [EndReceive];
    }

    method DecideOnRequest(source: bv16, result: FilterResult, accepted: bool)
      requires Valid() && callbackSet
      modifies this, messageHandlers
      ensures Valid() && messageHandlers == old(messageHandlers)
      ensures View() == Decide(old(View()), source, result, accepted)
    {
      if result.action != Continue {
        SendRoutingActivationResponse(source, result.responseCode, result.action == Reject, accepted);
      } else if state == INACTIVE {
        Bind(source, result.internalAddress);
      } else if sourceAddress == source {
        SendRoutingActivationResponse(source, ROUTING_SUCCESS, false, accepted);
      } else {
        SendRoutingActivationResponse(source, ROUTING_WRONG_SOURCE_ADDRESS, true, accepted);
      }
    }

    method Bind(source: bv16, internalAddress: bv16)
      modifies `sourceAddress, `internalSourceAddress, `state, `out
      ensures View() == BindAddress(old(View()), source, internalAddress)
    {
      sourceAddress := source;
      internalSourceAddress := internalAddress;
      state := ACTIVATING;
      out := out + [ActivationRequested];
    }

    method AliveCheckResponseReceived(payload: seq<byte>)
      requires Valid() && callbackSet && |payload| == 2
      modifies this, messageHandlers
      ensures Valid() && messageHandlers == old(messageHandlers)
      ensures View() == AliveResponse(old(View()), payload)
    {
      var isExpectedAddress := Join16(payload[0], payload[1]) == sourceAddress;
      if aliveCheckPending {
        aliveCheckPending := false;
        out := out + [AliveAnswer(isExpectedAddress)];
      }
      if isExpectedAddress {
        out := out + [EndReceive];
      } else {
        Close();
      }
    }

    /** The connection returns a job: the release callback depends on how it was allocated. */
    method JobReturned(job: SendJob)
      requires Valid() && callbackSet && job.id in inFlight && inFlight[job.id] == job
      modifies this, messageHandlers
      ensures Valid() && messageHandlers == old(messageHandlers)
      ensures View() == JobDone(old(View()), job.id)
    {
      if job.closeAfterSend {
        ReleaseSendJobAndClose(job);
      } else {
        ReleaseSendJob(job);
      }
    }

    method ReleaseSendJobAndClose(job: SendJob)
      requires Valid() && callbackSet
      modifies this, messageHandlers
      ensures Valid() && messageHandlers == old(messageHandlers)
      ensures View() == CloseNow(Release(old(View()), job.id))
    {
      ReleaseSendJob(job);
      Close();
    }

    method Shutdown()
      requires Valid()
      modifies this
      ensures Valid() && messageHandlers == old(messageHandlers)
      ensures View() == StopTimer(old(View()))
    {
      timerTimeout := Idle;
    }
  }

  /** A request with its timer, as the sending of a job taken from the pool. */
  lemma AliveRequestSent(asked: Conn, accepted: bool)
    requires asked.state == ACTIVE && asked.aliveCheckPending
    ensures RequestAlive(asked, accepted)
         == match Allocate(asked, ALIVE_CHECK_REQUEST, [], false)
            case (c', Some(job)) => SendOrRelease(c'.(timer := Armed(AliveCheckTimeout)), job, accepted)
            case (c', None) => CloseNow(c')
  {
  }

  // ----- offering a header, one handler at a time -----

  /** Once the header was offered, only the NACK for an unaccepted one is left to do. */
  lemma OfferedDefault(c: Conn, offered: Conn, header: Header, answers: seq<bool>, accepted: bool)
    requires offered == c.(handlers := OfferedTo(c.handlers, header,
      match FirstAccepting(answers, |c.handlers|) case Some(k) => k + 1 case None => |c.handlers|))
    ensures HeaderDefault(c, header, answers, accepted)
         == if FirstAccepting(answers, |c.handlers|).Some? then offered
            else DoipModel.SendNack(offered, NACK_UNKNOWN_PAYLOAD_TYPE, false, accepted)
  {
  }

  function OfferTo(handlers: seq<Handler>, header: Header, i: nat): seq<Handler>
    requires i < |handlers|
  {
    handlers[i := handlers[i].(offered := handlers[i].offered + [header])]
  }

  lemma OfferOneMore(handlers: seq<Handler>, header: Header, i: nat)
    requires i < |handlers|
    ensures OfferTo(OfferedTo(handlers, header, i), header, i) == OfferedTo(handlers, header, i + 1)
  {
  }

  lemma {:induction false} FirstAcceptingStays(answers: seq<bool>, k: nat, n: nat)
    requires k < n && FirstAccepting(answers, k).None? && k < |answers| && answers[k]
    ensures FirstAccepting(answers, n) == Some(k)
  {
    if n == k + 1 {
    } else {
      FirstAcceptingStays(answers, k, n - 1);
    }
  }
}
