/** What a connection hands over and what the upper callback hears of its alive checks: a table of
    the message and the verdict due to each event, the proof that every run produces exactly these,
    and what follows for the addresses that are told of a successful activation. */
module DoipMessages {
  import opened Bytes
  import opened DoipModel
  import opened DoipRuns
  import opened Wrappers

  // ----- projections of the calls made -----

  /** The jobs handed to the connection, in order. */
  function SentJobs(out: seq<Output>): seq<SendJob> {
    if out == [] then []
    else SentJobs(out[..|out| - 1]) + match out[|out| - 1] case Sent(job, _) => [job] case _ => []
  }

  /** The alive check answers given to the callback, in order. */
  function Verdicts(out: seq<Output>): seq<bool> {
    if out == [] then []
    else Verdicts(out[..|out| - 1]) + match out[|out| - 1] case AliveAnswer(success) => [success] case _ => []
  }

  /** How many close-after-send jobs the connection has accepted. */
  function Committed(out: seq<Output>): nat {
    if out == [] then 0
    else Committed(out[..|out| - 1]) + if Commits(out[|out| - 1]) then 1 else 0
  }

  predicate Commits(o: Output) { o.Sent? && o.accepted && o.job.closeAfterSend }

  /** What one output adds to the three projections. */
  lemma OneMore(out: seq<Output>, o: Output)
    ensures Committed(out + [o]) == Committed(out) + if Commits(o) then 1 else 0
    ensures SentJobs(out + [o]) == SentJobs(out) + (match o case Sent(job, _) => [job] case _ => [])
    ensures Verdicts(out + [o]) == Verdicts(out) + (match o case AliveAnswer(success) => [success] case _ => [])
  {
    assert (out + [o])[..|out|] == out;
  }

  /** Between c and c' exactly these jobs were handed over, under fresh numbers, and these verdicts
      given. */
  ghost predicate Grows(c: Conn, c': Conn, jobs: seq<SendJob>, verdicts: seq<bool>) {
    && SentJobs(c'.out) == SentJobs(c.out) + jobs
    && Verdicts(c'.out) == Verdicts(c.out) + verdicts
    && c'.nextJob == c.nextJob + |jobs|
  }

  // ----- the message due -----

  datatype Message = Message(payloadType: bv16, payload: seq<byte>, closeAfterSend: bool)

  function Nack(code: byte, closeAfterSend: bool): Option<Message> {
    Some(Message(NEGATIVE_ACK, [code], closeAfterSend))
  }

  function Response(c: Conn, tester: bv16, code: byte, closeAfterSend: bool): Option<Message> {
    Some(Message(ROUTING_ACTIVATION_RESPONSE, ResponsePayload(tester, c.entity, code), closeAfterSend))
  }

  /** A wrong version is NACKed with 0x00 and a wrong length with 0x04, both closing; an unlisted
      type that no handler accepts with 0x01. */
  function HeaderDue(c: Conn, header: Header, versionOk: bool, answers: seq<bool>): Option<Message> {
    if versionOk then DispatchDue(c, header, answers) else Nack(0x00, true)
  }

  function LengthDue(fits: bool): Option<Message> { if fits then None else Nack(0x04, true) }

  function UnlistedDue(c: Conn, answers: seq<bool>): Option<Message> {
    if FirstAccepting(answers, |c.handlers|).Some? then None else Nack(0x01, false)
  }

  function DispatchDue(c: Conn, header: Header, answers: seq<bool>): Option<Message> {
    if header.payloadType == ROUTING_ACTIVATION_REQUEST then
      LengthDue(header.payloadLength == 7 || header.payloadLength == 11)
    else if header.payloadType == ALIVE_CHECK_RESPONSE then LengthDue(header.payloadLength == 2)
    else if Silent(header.payloadType) then None
    else UnlistedDue(c, answers)
  }

  /** The filter's verdict is answered unless it lets an unbound connection continue. */
  function RequestDue(c: Conn, source: bv16, result: FilterResult): Option<Message> {
    match result.action
    case Respond => Response(c, source, result.responseCode, false)
    case Reject => Response(c, source, result.responseCode, true)
    case Continue =>
      if c.state == INACTIVE then None
      else if source == c.sourceAddress then Response(c, source, 0x10, false)
      else Response(c, source, 0x02, true)
  }

  function Source(payload: seq<byte>): bv16
    requires |payload| >= 2
  {
    Join16(payload[0], payload[1])
  }

  function Due(c: Conn, e: Event): Option<Message>
    requires Enabled(c, e)
  {
    match e
    case HeaderIn(header, versionOk, answers, _, _) => HeaderDue(c, header, versionOk, answers)
    case ActivationPayload(payload, result, _) => RequestDue(c, Source(payload), result)
    case ActivationDone(success, code, _) =>
      if c.state == ACTIVATING then Response(c, c.sourceAddress, code, !success) else None
    case AliveCheckStarted(_) => if c.state == ACTIVE then Some(Message(ALIVE_CHECK_REQUEST, [], false)) else None
    case _ => None
  }

  function HandedFor(c: Conn, due: Option<Message>): (jobs: seq<SendJob>)
    ensures |jobs| <= 1
  {
    match due
    case Some(Message(payloadType, payload, close)) =>
      if c.state == SHUTDOWN || c.free == 0 then [] else [SendJob(c.nextJob, payloadType, payload, close)]
    case None => []
  }

  /** The message due, if a job is left to carry it. */
  function Handed(c: Conn, e: Event): seq<SendJob>
    requires Enabled(c, e)
  {
    HandedFor(c, Due(c, e))
  }

  // ----- the verdict due -----

  /** The events that close a connection: a call, an expiry, the return of a closing job, an
      address that is not the bound one, or a message due with no job left. */
  predicate Closes(c: Conn, e: Event)
    requires Enabled(c, e)
  {
    match e
    case CloseCalled => true
    case PeerClosed => true
    case TimerFired => c.state == INACTIVE || c.state == ACTIVE
    case JobReturned(id) => c.inFlight[id].closeAfterSend
    case AlivePayload(payload) => Source(payload) != c.sourceAddress
    case _ => Due(c, e).Some? && c.free == 0
  }

  /** A pending alive check fails when the connection closes. */
  function Failed(c: Conn, closes: bool): seq<bool> {
    if closes && c.aliveCheckPending && c.state != SHUTDOWN then [false] else []
  }

  function Judged(c: Conn, e: Event): seq<bool>
    requires Enabled(c, e)
  {
    match e
    case AlivePayload(payload) => if c.aliveCheckPending then [Source(payload) == c.sourceAddress] else []
    case AliveCheckStarted(_) => if !c.started || (c.state == ACTIVE && c.free > 0) then [] else [false]
    case _ => Failed(c, Closes(c, e))
  }

  // ----- every entry point produces exactly what is due -----

  lemma CloseGrows(c: Conn)
    ensures Grows(c, CloseNow(c), [], Failed(c, true))
  {
    if c.state != SHUTDOWN {
      OneMore(c.out, ConnectionClose);
      OneMore(c.out + [ConnectionClose], ConnectionClosedCallback);
      OneMore(c.out + [ConnectionClose] + [ConnectionClosedCallback], AliveAnswer(false));
    }
  }

  /** The calls made from c to c' are those for the message due, or for closing without a job. */
  ghost predicate Carries(c: Conn, c': Conn, due: Option<Message>) {
    Grows(c, c', HandedFor(c, due), Failed(c, due.Some? && c.free == 0))
  }

  lemma SentOnly(c: Conn, job: SendJob, accepted: bool)
    ensures SendOrRelease(c, job, accepted).out == c.out + [Sent(job, accepted)]
  {
  }

  lemma SendCarries(c: Conn, m: Message, accepted: bool)
    ensures Carries(c, SendOrClose(c, m.payloadType, m.payload, m.closeAfterSend, accepted), Some(m))
  {
    if c.state == SHUTDOWN || c.free == 0 {
      CloseGrows(c);
    } else {
      var job := JobFor(c, m.payloadType, m.payload, m.closeAfterSend);
      SentOnly(Taken(c, m.closeAfterSend), job, accepted);
      OneMore(c.out, Sent(job, accepted));
    }
  }

  // ----- a message as the sending of what is due -----

  ghost predicate SameTrace(out: seq<Output>, out': seq<Output>) {
    SentJobs(out') == SentJobs(out) && Verdicts(out') == Verdicts(out) && Committed(out') == Committed(out)
  }

  /** Nothing has changed but the timer, the handlers and calls other than sending and answering. */
  ghost predicate Calm(c: Conn, c': Conn) {
    c'.(timer := c.timer, handlers := c.handlers, out := c.out) == c && SameTrace(c.out, c'.out)
  }

  lemma CalmEmit(c: Conn, o: Output)
    requires !o.Sent? && !o.AliveAnswer?
    ensures Calm(c, Emit(c, o))
  {
    OneMore(c.out, o);
  }

  function SendDue(c: Conn, due: Option<Message>, accepted: bool): Conn {
    match due
    case Some(m) => SendOrClose(c, m.payloadType, m.payload, m.closeAfterSend, accepted)
    case None => c
  }

  lemma UnlistedSplits(c: Conn, header: Header, answers: seq<bool>, accepted: bool) returns (d: Conn)
    ensures Calm(c, d) && HeaderDefault(c, header, answers, accepted) == SendDue(d, UnlistedDue(c, answers), accepted)
  {
    match FirstAccepting(answers, |c.handlers|)
    case Some(k) => d := Offer(c, header, k + 1);
    case None => d := Offer(c, header, |c.handlers|);
  }

  lemma ActivationHeaderSplits(c: Conn, header: Header, receives: bool, accepted: bool) returns (d: Conn)
    ensures Calm(c, d)
    ensures HeaderActivation(c, header, receives, accepted)
         == SendDue(d, LengthDue(header.payloadLength == 7 || header.payloadLength == 11), accepted)
  {
    var received := Emit(c, ReceivePayload(header.payloadLength, receives));
    CalmEmit(c, ReceivePayload(header.payloadLength, receives));
    d := if header.payloadLength == 7 || header.payloadLength == 11 then received else c;
  }

  lemma AliveHeaderSplits(c: Conn, header: Header, receives: bool, accepted: bool) returns (d: Conn)
    ensures Calm(c, d)
    ensures HeaderAlive(c, header, receives, accepted) == SendDue(d, LengthDue(header.payloadLength == 2), accepted)
  {
    CalmEmit(c, ReceivePayload(2, receives));
    d := if header.payloadLength == 2 then Emit(c, ReceivePayload(2, receives)) else c;
  }

  lemma CalmAfterRearming(c: Conn, d: Conn)
    requires Calm(Rearmed(c), d)
    ensures Calm(c, d)
  {
  }

  /** The dispatch on the payload type, after the timer was restarted. */
  function Dispatch(c: Conn, header: Header, answers: seq<bool>, receives: bool, accepted: bool): Conn {
    if header.payloadType == ROUTING_ACTIVATION_REQUEST then HeaderActivation(c, header, receives, accepted)
    else if header.payloadType == ALIVE_CHECK_RESPONSE then HeaderAlive(c, header, receives, accepted)
    else if Silent(header.payloadType) then Emit(c, EndReceive)
    else HeaderDefault(c, header, answers, accepted)
  }

  lemma DispatchSplits(c: Conn, header: Header, answers: seq<bool>, receives: bool, accepted: bool) returns (d: Conn)
    ensures Calm(c, d)
    ensures Dispatch(c, header, answers, receives, accepted) == SendDue(d, DispatchDue(c, header, answers), accepted)
  {
    if header.payloadType == ROUTING_ACTIVATION_REQUEST {
      d := ActivationHeaderSplits(c, header, receives, accepted);
    } else if header.payloadType == ALIVE_CHECK_RESPONSE {
      d := AliveHeaderSplits(c, header, receives, accepted);
    } else if Silent(header.payloadType) {
      d := Emit(c, EndReceive);
      CalmEmit(c, EndReceive);
    } else {
      d := UnlistedSplits(c, header, answers, accepted);
    }
  }

  lemma HeaderDispatch(c: Conn, header: Header, answers: seq<bool>, receives: bool, accepted: bool)
    ensures HeaderReceived(c, header, true, answers, receives, accepted)
         == Dispatch(Rearmed(c), header, answers, receives, accepted)
    ensures HeaderDue(c, header, true, answers) == DispatchDue(Rearmed(c), header, answers)
  {
  }

  /** The processing of a header is the sending of what is due from a state that differs from c in
      nothing that matters. */
  lemma HeaderSplits(c: Conn, header: Header, versionOk: bool, answers: seq<bool>, receives: bool, accepted: bool)
    returns (d: Conn)
    ensures Calm(c, d)
    ensures HeaderReceived(c, header, versionOk, answers, receives, accepted)
         == SendDue(d, HeaderDue(c, header, versionOk, answers), accepted)
  {
    if !versionOk {
      d := c;
    } else {
      HeaderDispatch(c, header, answers, receives, accepted);
      d := DispatchSplits(Rearmed(c), header, answers, receives, accepted);
      CalmAfterRearming(c, d);
    }
  }

  /** The processing of an activation request is, between the question to the filter and the end of
      receiving, the sending of what is due or the binding. */
  lemma RequestSplits(c: Conn, payload: seq<byte>, result: FilterResult, accepted: bool) returns (d: Conn, d': Conn)
    requires RequestPayload(payload)
    ensures Calm(c, d) && Calm(d', ActivationRequest(c, payload, result, accepted))
    ensures d' == match RequestDue(c, Source(payload), result)
                  case None => BindAddress(d, Source(payload), result.internalAddress)
                  case due => SendDue(d, due, accepted)
  {
    var o := FilterAsked(Source(payload), payload[2], OemField(payload), false);
    d := Emit(c, o);
    d' := Decide(d, Source(payload), result, accepted);
    CalmEmit(c, o);
    CalmEmit(d', EndReceive);
    assert ActivationRequest(c, payload, result, accepted) == Emit(d', EndReceive);
    DecideSplits(d, Source(payload), result, accepted);
    SameRequestDue(c, o, Source(payload), result);
  }

  lemma SameRequestDue(c: Conn, o: Output, source: bv16, result: FilterResult)
    ensures RequestDue(Emit(c, o), source, result) == RequestDue(c, source, result)
  {
  }

  lemma DecideSplits(c: Conn, source: bv16, result: FilterResult, accepted: bool)
    ensures Decide(c, source, result, accepted)
         == match RequestDue(c, source, result)
            case None => BindAddress(c, source, result.internalAddress)
            case due => SendDue(c, due, accepted)
  {
    if result.action != Continue {
      AnswerDue(c, source, result.responseCode, result.action == Reject, accepted);
    } else if c.state != INACTIVE && c.sourceAddress == source {
      AnswerDue(c, source, ROUTING_SUCCESS, false, accepted);
    } else if c.state != INACTIVE {
      AnswerDue(c, source, ROUTING_WRONG_SOURCE_ADDRESS, true, accepted);
    }
  }

  lemma AnswerDue(c: Conn, tester: bv16, code: byte, closeAfterSend: bool, accepted: bool)
    ensures SendResponse(c, tester, code, closeAfterSend, accepted)
         == SendDue(c, Response(c, tester, code, closeAfterSend), accepted)
  {
  }

  lemma CalmCarries(a: Conn, b: Conn, c: Conn, d: Conn, due: Option<Message>)
    requires Calm(a, b) && Carries(b, c, due) && Calm(c, d)
    ensures Carries(a, d, due)
  {
  }

  lemma DueCarries(c: Conn, due: Option<Message>, accepted: bool)
    ensures Carries(c, SendDue(c, due, accepted), due)
  {
    if due.Some? { SendCarries(c, due.value, accepted); }
  }

  lemma HeaderCarries(c: Conn, header: Header, versionOk: bool, answers: seq<bool>, receives: bool, accepted: bool)
    ensures Carries(c, HeaderReceived(c, header, versionOk, answers, receives, accepted),
                    HeaderDue(c, header, versionOk, answers))
  {
    var due := HeaderDue(c, header, versionOk, answers);
    var d := HeaderSplits(c, header, versionOk, answers, receives, accepted);
    DueCarries(d, due, accepted);
    CalmCarries(c, d, SendDue(d, due, accepted), SendDue(d, due, accepted), due);
  }

  lemma BindCarries(c: Conn, source: bv16, internalAddress: bv16)
    ensures Carries(c, BindAddress(c, source, internalAddress), None)
  {
    OneMore(c.out, ActivationRequested);
  }

  lemma RequestCarries(c: Conn, payload: seq<byte>, result: FilterResult, accepted: bool)
    requires RequestPayload(payload)
    ensures Carries(c, ActivationRequest(c, payload, result, accepted), RequestDue(c, Source(payload), result))
  {
    var due := RequestDue(c, Source(payload), result);
    var d, d' := RequestSplits(c, payload, result, accepted);
    DueCarries(d, due, accepted);
    BindCarries(d, Source(payload), result.internalAddress);
    CalmCarries(c, d, d', ActivationRequest(c, payload, result, accepted), due);
  }

  lemma ActivationCarries(c: Conn, success: bool, code: byte, accepted: bool)
    requires c.state == ACTIVATING
    ensures Carries(c, ActivationCompleted(c, success, code, accepted), Response(c, c.sourceAddress, code, !success))
  {
    SendCarries(c, Response(c, c.sourceAddress, code, !success).value, accepted);
    OneMore(SendResponse(c, c.sourceAddress, code, !success, accepted).out, RoutingActiveCallback);
  }

  lemma AliveCheckGrows(c: Conn, accepted: bool)
    requires Enabled(c, AliveCheckStarted(accepted))
    ensures var e := AliveCheckStarted(accepted);
      Grows(c, StartAliveCheck(c, accepted), Handed(c, e), Judged(c, e))
  {
    if c.state == ACTIVE && c.free == 0 {
      CloseGrows(c.(aliveCheckPending := true));
    } else if c.state == ACTIVE {
      var asked := c.(aliveCheckPending := true, timer := Armed(AliveCheckTimeout));
      SendCarries(asked, Message(ALIVE_CHECK_REQUEST, [], false), accepted);
    } else {
      OneMore(c.out, AliveAnswer(false));
    }
  }

  lemma AliveResponseGrows(c: Conn, payload: seq<byte>)
    requires |payload| == 2
    ensures Grows(c, AliveResponse(c, payload), [],
                  if c.aliveCheckPending then [Source(payload) == c.sourceAddress] else [])
  {
    var expected := Source(payload) == c.sourceAddress;
    var answered := Answered(c, expected);
    OneMore(c.out, AliveAnswer(expected));
    OneMore(answered.out, EndReceive);
    CloseGrows(answered);
  }

  lemma TimerGrows(c: Conn)
    ensures Grows(c, TimerExpired(c), [], Failed(c, c.state == INACTIVE || c.state == ACTIVE))
  {
    var fired := c.(timer := Idle);
    OneMore(c.out, AbortMode);
    CloseGrows(fired);
    CloseGrows(Emit(fired, AbortMode));
  }

  lemma JobDoneGrows(c: Conn, id: nat)
    requires id in c.inFlight
    ensures Grows(c, JobDone(c, id), [], Failed(c, c.inFlight[id].closeAfterSend))
  {
    CloseGrows(Release(c, id));
  }

  lemma BegunGrows(c: Conn, c': Conn)
    requires c'.out == c.out + [ConnectionInit] && c'.nextJob == c.nextJob
    ensures Grows(c, c', [], [])
  {
    OneMore(c.out, ConnectionInit);
  }

  lemma ResumedGrows(told: Conn, internalAddress: bv16)
    ensures Grows(told, StartResumed(told, internalAddress), [], [])
  {
    var asked := FilterAsked(told.sourceAddress, 0, Some([0, 0, 0, 0]), true);
    OneMore(told.out, asked);
    OneMore(told.out + [asked], RoutingActiveCallback);
  }

  lemma QuietChain(a: Conn, b: Conn, c: Conn)
    requires Grows(a, b, [], []) && Grows(b, c, [], [])
    ensures Grows(a, c, [], [])
  {
  }

  lemma StartGrows(c: Conn, internalAddress: bv16)
    ensures Grows(c, Start(c, internalAddress), [], [])
  {
    if !c.started {
      var told := Begun(c);
      if c.state == INACTIVE {
        assert Start(c, internalAddress) == told.(timer := Armed(InitialInactivity));
        BegunGrows(c, told.(timer := Armed(InitialInactivity)));
      } else {
        assert Start(c, internalAddress) == StartResumed(told, internalAddress);
        BegunGrows(c, told);
        ResumedGrows(told, internalAddress);
        QuietChain(c, told, StartResumed(told, internalAddress));
      }
    }
  }

  lemma CarriesWhatIsDue(c: Conn, e: Event, c': Conn)
    requires Enabled(c, e) && (e.HeaderIn? || e.ActivationPayload? || e.ActivationDone?)
    requires Carries(c, c', Due(c, e))
    ensures Grows(c, c', Handed(c, e), Judged(c, e))
  {
  }

  /** Every event produces exactly the message and the verdict due. */
  lemma StepGrows(c: Conn, e: Event)
    requires Enabled(c, e)
    ensures Grows(c, Step(c, e), Handed(c, e), Judged(c, e))
  {
    match e {
      case AddMessageHandler =>
      case Resumed(_) =>
      case ShutdownCalled =>
      case Started(internalAddress) => StartGrows(c, internalAddress);
      case CloseCalled => CloseGrows(c);
      case PeerClosed => CloseGrows(c);
      case AliveCheckStarted(accepted) => AliveCheckGrows(c, accepted);
      case ActivationDone(success, code, accepted) =>
        if c.state == ACTIVATING { ActivationCarries(c, success, code, accepted); }
        CarriesWhatIsDue(c, e, Step(c, e));
      case HeaderIn(header, versionOk, answers, receives, accepted) =>
        HeaderCarries(c, header, versionOk, answers, receives, accepted);
        CarriesWhatIsDue(c, e, Step(c, e));
      case ActivationPayload(payload, result, accepted) =>
        RequestCarries(c, payload, result, accepted);
        CarriesWhatIsDue(c, e, Step(c, e));
      case AlivePayload(payload) => AliveResponseGrows(c, payload);
      case TimerFired => TimerGrows(c);
      case JobReturned(id) => JobDoneGrows(c, id);
    }
  }
}
