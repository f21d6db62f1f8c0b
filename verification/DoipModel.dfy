/** The server side of one DoIP connection (ISO 13400-2) as a transition function: the state of
    the connection handler, what its collaborators have been told, and the effect of every entry
    point. The answers of the environment are parameters. */
module DoipModel {
  import opened Wrappers
  import opened Bytes

  // ----- constants -----

  const NEGATIVE_ACK: bv16 := 0x0000
  const ROUTING_ACTIVATION_REQUEST: bv16 := 0x0005
  const ROUTING_ACTIVATION_RESPONSE: bv16 := 0x0006
  const ALIVE_CHECK_REQUEST: bv16 := 0x0007
  const ALIVE_CHECK_RESPONSE: bv16 := 0x0008
  const DIAGNOSTIC_MESSAGE_POSITIVE_ACK: bv16 := 0x8002
  const DIAGNOSTIC_MESSAGE_NEGATIVE_ACK: bv16 := 0x8003

  const NACK_INCORRECT_PATTERN: byte := 0x00
  const NACK_UNKNOWN_PAYLOAD_TYPE: byte := 0x01
  const NACK_INVALID_PAYLOAD_LENGTH: byte := 0x04

  const ROUTING_WRONG_SOURCE_ADDRESS: byte := 0x02
  const ROUTING_SUCCESS: byte := 0x10

  // ----- data -----

  datatype ConnState = INACTIVE | ACTIVATING | ACTIVE | CLOSING | SHUTDOWN

  datatype Timeout = InitialInactivity | GeneralInactivity | AliveCheckTimeout
  datatype Timer = Idle | Armed(timeout: Timeout)

  datatype Header = Header(payloadType: bv16, payloadLength: nat)

  /** A job allocated from the pool; the id stands for the identity of the pool slot's content. */
  datatype SendJob = SendJob(id: nat, payloadType: bv16, payload: seq<byte>, closeAfterSend: bool)

  datatype HandlerCall = Opened | RoutingActive | Closed

  /** What one registered message handler has seen. */
  datatype Handler = Handler(calls: seq<HandlerCall>, offered: seq<Header>)

  datatype Action = Continue | Respond | Reject
  datatype FilterResult = FilterResult(action: Action, responseCode: byte, internalAddress: bv16)

  /** Calls made on the connection and on the upper callback, in order. */
  datatype Output =
    | ConnectionInit
    | ConnectionClose
    | AbortMode
    | EndReceive
    | ReceivePayload(length: nat, accepted: bool)
    | Sent(job: SendJob, accepted: bool)
    | FilterAsked(source: bv16, activationType: byte, oemField: Option<seq<byte>>, resumed: bool)
    | ActivationRequested
    | RoutingActiveCallback
    | ConnectionClosedCallback
    | AliveAnswer(success: bool)

  datatype Conn = Conn(
    entity: bv16,
    started: bool, state: ConnState, sourceAddress: bv16, internalAddress: bv16,
    aliveCheckPending: bool, isOrWasRouting: bool, timer: Timer,
    capacity: nat, free: nat, inFlight: map<nat, SendJob>, nextJob: nat, released: seq<nat>,
    handlers: seq<Handler>, early: nat, broadcasts: seq<HandlerCall>, out: seq<Output>)

  /** A freshly constructed handler. */
  function Fresh(entity: bv16, invalidAddress: bv16, capacity: nat): Conn {
    Conn(entity, false, INACTIVE, invalidAddress, invalidAddress, false, false, Idle,
         capacity, capacity, map[], 0, [], [], 0, [], [])
  }

  // ----- wire format -----

  function High(a: bv16): byte { ((a >> 8) & 0xFF) as bv8 }
  function Low(a: bv16): byte { (a & 0xFF) as bv8 }
  function Join16(high: byte, low: byte): bv16 { ((high as bv16) << 8) | (low as bv16) }

  lemma JoinSplit16(a: bv16)
    ensures Join16(High(a), Low(a)) == a
  {
  }

  lemma Join16IsJoin24(high: byte, low: byte)
    ensures Join16(high, low) as bv32 == Join24(0, high, low)
  {
  }

  /** Two bytes are joined most significant first. */
  lemma JoinedAddress(high: byte, low: byte)
    ensures Number16(Join16(high, low)) == 0x100 * Value(high) + Value(low)
  {
    Join16IsJoin24(high, low);
    JoinedNumber(0, high, low);
  }

  /** The nine payload bytes of a routing activation response. */
  function ResponsePayload(tester: bv16, entity: bv16, code: byte): (p: seq<byte>)
    ensures |p| == 9
  {
    [High(tester), Low(tester), High(entity), Low(entity), code, 0, 0, 0, 0]
  }

  // ----- primitive effects -----

  function Emit(c: Conn, o: Output): Conn { c.(out := c.out + [o]) }

  function Told(h: Handler, call: HandlerCall): Handler { h.(calls := h.calls + [call]) }

  function ToldAll(handlers: seq<Handler>, call: HandlerCall): (r: seq<Handler>)
    ensures |r| == |handlers|
    ensures forall i :: 0 <= i < |handlers| ==> r[i] == Told(handlers[i], call)
  {
    seq(|handlers|, i requires 0 <= i < |handlers| => Told(handlers[i], call))
  }

  /** Every registered message handler gets the call. */
  function Broadcast(c: Conn, call: HandlerCall): Conn {
    c.(handlers := ToldAll(c.handlers, call), broadcasts := c.broadcasts + [call])
  }

  /** The rest of close() after the message handlers were told. The alive check answer comes after
      the closing callback. */
  function AnnounceClosed(c: Conn): Conn {
    var told := Emit(c.(timer := Idle), ConnectionClosedCallback);
    if c.aliveCheckPending then Emit(told, AliveAnswer(false)) else told
  }

  function CloseNow(c: Conn): Conn {
    if c.state == SHUTDOWN then c
    else AnnounceClosed(Broadcast(Emit(c.(state := SHUTDOWN), ConnectionClose), Closed))
  }

  function Allocate(c: Conn, payloadType: bv16, payload: seq<byte>, closeAfterSend: bool): (r: (Conn, Option<SendJob>))
  {
    if c.state == SHUTDOWN then (c, None)
    else
      var c' := if closeAfterSend then c.(state := CLOSING) else c;
      if c.free == 0 then (c', None)
      else (c'.(free := c.free - 1, nextJob := c.nextJob + 1),
            Some(SendJob(c.nextJob, payloadType, payload, closeAfterSend)))
  }

  /** A job goes back to the pool. */
  function Release(c: Conn, id: nat): Conn {
    c.(free := c.free + 1, inFlight := c.inFlight - {id}, released := c.released + [id])
  }

  function SendOrRelease(c: Conn, job: SendJob, accepted: bool): Conn {
    var c' := Emit(c, Sent(job, accepted));
    if accepted then c'.(inFlight := c'.inFlight[job.id := job]) else Release(c', job.id)
  }

  /** sendNack and sendRoutingActivationResponse: send, or close when no job is available. */
  function SendOrClose(c: Conn, payloadType: bv16, payload: seq<byte>, closeAfterSend: bool, accepted: bool): Conn {
    if c.state == SHUTDOWN || c.free == 0 then CloseNow(c)
    else
      var state := if closeAfterSend then CLOSING else c.state;
      var taken := c.(state := state, free := c.free - 1, nextJob := c.nextJob + 1);
      SendOrRelease(taken, SendJob(c.nextJob, payloadType, payload, closeAfterSend), accepted)
  }

  /** The same through the allocation, which marks the connection as closing even without a job. */
  lemma SendThroughAllocation(c: Conn, payloadType: bv16, payload: seq<byte>, closeAfterSend: bool, accepted: bool)
    ensures SendOrClose(c, payloadType, payload, closeAfterSend, accepted)
         == match Allocate(c, payloadType, payload, closeAfterSend)
            case (c', Some(job)) => SendOrRelease(c', job, accepted)
            case (c', None) => CloseNow(c')
  {
  }

  function SendNack(c: Conn, code: byte, closeAfterSend: bool, accepted: bool): Conn {
    SendOrClose(c, NEGATIVE_ACK, [code], closeAfterSend, accepted)
  }

  function SendResponse(c: Conn, tester: bv16, code: byte, closeAfterSend: bool, accepted: bool): Conn {
    SendOrClose(c, ROUTING_ACTIVATION_RESPONSE, ResponsePayload(tester, c.entity, code), closeAfterSend, accepted)
  }

  /** A send job comes back from the connection. */
  function JobDone(c: Conn, id: nat): Conn
    requires id in c.inFlight
  {
    var c' := Release(c, id);
    if c.inFlight[id].closeAfterSend then CloseNow(c') else c'
  }

  // ----- entry points -----

  function AddHandler(c: Conn): Conn { c.(handlers := c.handlers + [Handler([], [])]) }

  function Resume(c: Conn, sourceAddress: bv16): Conn {
    if c.started then c else c.(sourceAddress := sourceAddress, state := ACTIVE, isOrWasRouting := true)
  }

  function NotifyRouting(c: Conn): Conn { Emit(Broadcast(c, RoutingActive), RoutingActiveCallback) }

  /** A resumed connection asks the filter again and is active at once. */
  function StartResumed(c: Conn, internalAddress: bv16): Conn {
    NotifyRouting(Emit(c, FilterAsked(c.sourceAddress, 0, Some([0, 0, 0, 0]), true))
      .(internalAddress := internalAddress, timer := Armed(GeneralInactivity)))
  }

  function Start(c: Conn, internalAddress: bv16): Conn {
    if c.started then c
    else
      var told := Broadcast(Emit(c.(started := true, early := |c.handlers|), ConnectionInit), Opened);
      if c.state == INACTIVE then told.(timer := Armed(InitialInactivity)) else StartResumed(told, internalAddress)
  }

  /** The request is sent with a timer armed for its answer; without a job the connection closes. */
  function RequestAlive(c: Conn, accepted: bool): Conn {
    var asked := c.(aliveCheckPending := true);
    if c.free == 0 then CloseNow(asked)
    else SendOrClose(asked.(timer := Armed(AliveCheckTimeout)), ALIVE_CHECK_REQUEST, [], false, accepted)
  }

  function StartAliveCheck(c: Conn, accepted: bool): Conn {
    if c.state == ACTIVE then RequestAlive(c, accepted)
    else if c.started then Emit(c, AliveAnswer(false))
    else c
  }

  function Activated(c: Conn): Conn {
    NotifyRouting(c.(state := ACTIVE, isOrWasRouting := true, timer := Armed(GeneralInactivity)))
  }

  function ActivationCompleted(c: Conn, success: bool, responseCode: byte, accepted: bool): Conn {
    if c.state != ACTIVATING then c
    else
      var sent := SendResponse(c, c.sourceAddress, responseCode, !success, accepted);
      if success then Activated(sent) else sent
  }

  /** Index of the first of n handlers that accepts; handlers without an answer decline. */
  function FirstAccepting(answers: seq<bool>, n: nat): (r: Option<nat>)
    ensures r.Some? ==> r.value < n && r.value < |answers| && answers[r.value]
    ensures r.Some? ==> forall i :: 0 <= i < r.value ==> !answers[i]
    ensures r.None? ==> forall i :: 0 <= i < n && i < |answers| ==> !answers[i]
  {
    if n == 0 then None
    else
      match FirstAccepting(answers, n - 1)
      case Some(k) => Some(k)
      case None => if n <= |answers| && answers[n - 1] then Some(n - 1) else None
  }

  /** The first n handlers are offered the header. */
  function OfferedTo(handlers: seq<Handler>, header: Header, n: nat): (r: seq<Handler>)
    ensures |r| == |handlers|
    ensures forall i :: 0 <= i < |handlers| ==>
      r[i] == if i < n then handlers[i].(offered := handlers[i].offered + [header]) else handlers[i]
  {
    seq(|handlers|, i requires 0 <= i < |handlers| =>
      if i < n then handlers[i].(offered := handlers[i].offered + [header]) else handlers[i])
  }

  function Offer(c: Conn, header: Header, n: nat): Conn { c.(handlers := OfferedTo(c.handlers, header, n)) }

  function HeaderDefault(c: Conn, header: Header, answers: seq<bool>, accepted: bool): Conn {
    match FirstAccepting(answers, |c.handlers|)
    case Some(k) => Offer(c, header, k + 1)
    case None => SendNack(Offer(c, header, |c.handlers|), NACK_UNKNOWN_PAYLOAD_TYPE, false, accepted)
  }

  function HeaderActivation(c: Conn, header: Header, receives: bool, accepted: bool): Conn {
    if header.payloadLength != 7 && header.payloadLength != 11
    then SendNack(c, NACK_INVALID_PAYLOAD_LENGTH, true, accepted)
    else Emit(c, ReceivePayload(header.payloadLength, receives))
  }

  function HeaderAlive(c: Conn, header: Header, receives: bool, accepted: bool): Conn {
    if header.payloadLength != 2
    then SendNack(c, NACK_INVALID_PAYLOAD_LENGTH, true, accepted)
    else Emit(c, ReceivePayload(2, receives))
  }

  /** Acknowledgements are consumed without an answer. */
  predicate Silent(payloadType: bv16) {
    || payloadType == NEGATIVE_ACK
    || payloadType == DIAGNOSTIC_MESSAGE_POSITIVE_ACK
    || payloadType == DIAGNOSTIC_MESSAGE_NEGATIVE_ACK
  }

  /** A routing connection restarts its inactivity timer on every well-formed header. */
  function Rearmed(c: Conn): Conn {
    if c.state == ACTIVE then c.(timer := Armed(GeneralInactivity)) else c
  }

  function HeaderReceived(
    c: Conn, header: Header, versionOk: bool, answers: seq<bool>, receives: bool, accepted: bool): Conn
  {
    if !versionOk then SendNack(c, NACK_INCORRECT_PATTERN, true, accepted)
    else if header.payloadType == ROUTING_ACTIVATION_REQUEST then
      HeaderActivation(Rearmed(c), header, receives, accepted)
    else if header.payloadType == ALIVE_CHECK_RESPONSE then
      HeaderAlive(Rearmed(c), header, receives, accepted)
    else if Silent(header.payloadType) then Emit(Rearmed(c), EndReceive)
    else HeaderDefault(Rearmed(c), header, answers, accepted)
  }

  /** Whether the handler keeps the message (otherwise its payload is discarded). */
  predicate Keeps(c: Conn, header: Header, versionOk: bool, answers: seq<bool>, receives: bool) {
    && versionOk
    && if header.payloadType == ROUTING_ACTIVATION_REQUEST then
         (header.payloadLength == 7 || header.payloadLength == 11) && receives
       else if header.payloadType == ALIVE_CHECK_RESPONSE then header.payloadLength == 2 && receives
       else if Silent(header.payloadType) then true
       else FirstAccepting(answers, |c.handlers|).Some?
  }

  predicate RequestPayload(payload: seq<byte>) { |payload| == 7 || |payload| == 11 }

  function OemField(payload: seq<byte>): Option<seq<byte>> {
    if |payload| == 11 then Some(payload[7..11]) else None
  }

  function BindAddress(c: Conn, source: bv16, internalAddress: bv16): Conn {
    Emit(c.(sourceAddress := source, internalAddress := internalAddress, state := ACTIVATING), ActivationRequested)
  }

  /** The reaction to the filter's verdict on an activation request. */
  function Decide(c: Conn, source: bv16, result: FilterResult, accepted: bool): Conn {
    if result.action != Continue then SendResponse(c, source, result.responseCode, result.action == Reject, accepted)
    else if c.state == INACTIVE then BindAddress(c, source, result.internalAddress)
    else if c.sourceAddress == source then SendResponse(c, source, ROUTING_SUCCESS, false, accepted)
    else SendResponse(c, source, ROUTING_WRONG_SOURCE_ADDRESS, true, accepted)
  }

  function ActivationRequest(c: Conn, payload: seq<byte>, result: FilterResult, accepted: bool): Conn
    requires RequestPayload(payload)
  {
    var source := Join16(payload[0], payload[1]);
    var asked := Emit(c, FilterAsked(source, payload[2], OemField(payload), false));
    Emit(Decide(asked, source, result, accepted), EndReceive)
  }

  /** The verdict on a pending alive check. */
  function Answered(c: Conn, expected: bool): Conn {
    if c.aliveCheckPending then Emit(c.(aliveCheckPending := false), AliveAnswer(expected)) else c
  }

  function AliveResponse(c: Conn, payload: seq<byte>): Conn
    requires |payload| == 2
  {
    var expected := Join16(payload[0], payload[1]) == c.sourceAddress;
    var answered := Answered(c, expected);
    if expected then Emit(answered, EndReceive) else CloseNow(answered)
  }

  /** The armed timer fires. */
  function TimerExpired(c: Conn): Conn {
    var fired := c.(timer := Idle);
    match c.state
    case INACTIVE => CloseNow(fired)
    case ACTIVE => CloseNow(if c.aliveCheckPending then fired else Emit(fired, AbortMode))
    case _ => fired
  }

  lemma ExpiryCases(c: Conn)
    ensures c.state == INACTIVE ==> TimerExpired(c) == CloseNow(StopTimer(c))
    ensures c.state == ACTIVE ==>
      TimerExpired(c) == CloseNow(if c.aliveCheckPending then StopTimer(c) else Emit(StopTimer(c), AbortMode))
    ensures c.state != INACTIVE && c.state != ACTIVE ==> TimerExpired(c) == StopTimer(c)
  {
  }

  function StopTimer(c: Conn): Conn { c.(timer := Idle) }
}
