/** How often a connection commits itself to closing: the close-after-send messages that it hands over
    successfully, over every run. */
module DoipCommitments {
  import opened Bytes
  import opened DoipMessages
  import opened DoipModel
  import opened DoipRuns
  import opened DoipTheorems
  import opened Wrappers

  function ClosingIds(inFlight: map<nat, SendJob>): set<nat> {
    set id | id in inFlight && inFlight[id].closeAfterSend
  }

  predicate IsOpen(state: ConnState) { state == INACTIVE || state == ACTIVATING || state == ACTIVE }

  /** An open connection has committed nothing; a closing one has every commitment still in flight,
      because a return would have shut it down; no connection ever exceeds its pool. */
  ghost predicate Spent(state: ConnState, capacity: nat, inFlight: map<nat, SendJob>, committed: nat) {
    && committed <= capacity
    && (IsOpen(state) ==> committed == 0 && ClosingIds(inFlight) == {})
    && (state == CLOSING ==> committed == |ClosingIds(inFlight)|)
  }

  ghost predicate WithinPool(c: Conn) { Spent(c.state, c.capacity, c.inFlight, Committed(c.out)) }

  lemma CalmWithin(a: Conn, b: Conn)
    requires Calm(a, b)
    ensures WithinPool(a) <==> WithinPool(b)
    ensures PoolBalanced(a) <==> PoolBalanced(b)
  {
  }

  lemma CloseCommitsNothing(c: Conn)
    ensures Committed(CloseNow(c).out) == Committed(c.out) && CloseNow(c).capacity == c.capacity
  {
    CloseFrame(c);
    OneMore(c.out, ConnectionClose);
    OneMore(c.out + [ConnectionClose], ConnectionClosedCallback);
    OneMore(c.out + [ConnectionClose] + [ConnectionClosedCallback], AliveAnswer(false));
  }

  lemma CloseWithin(c: Conn)
    requires WithinPool(c)
    ensures WithinPool(CloseNow(c))
  {
    CloseCommitsNothing(c);
    CloseFrame(c);
  }

  // ----- sending -----

  lemma ClosingIdsFit(inFlight: map<nat, SendJob>)
    ensures |ClosingIds(inFlight)| <= |inFlight|
  {
    assert ClosingIds(inFlight) <= inFlight.Keys;
    assert inFlight.Keys == ClosingIds(inFlight) + (inFlight.Keys - ClosingIds(inFlight));
  }

  lemma OneInFlight(inFlight: map<nat, SendJob>, job: SendJob)
    requires job.id !in inFlight
    ensures ClosingIds(inFlight[job.id := job]) == ClosingIds(inFlight) + if job.closeAfterSend then {job.id} else {}
    ensures |inFlight[job.id := job]| == |inFlight| + 1
  {
    assert inFlight[job.id := job].Keys == inFlight.Keys + {job.id};
  }

  lemma SpentSent(
    state: ConnState, capacity: nat, inFlight: map<nat, SendJob>, committed: nat, job: SendJob, accepted: bool)
    requires Spent(state, capacity, inFlight, committed) && state != SHUTDOWN
    requires job.id !in inFlight && |inFlight| < capacity
    ensures Spent(if job.closeAfterSend then CLOSING else state, capacity,
                  if accepted then inFlight[job.id := job] else inFlight,
                  committed + if accepted && job.closeAfterSend then 1 else 0)
  {
    OneInFlight(inFlight, job);
    ClosingIdsFit(inFlight);
  }

  lemma SendWithin(c: Conn, m: Message, accepted: bool)
    requires PoolBalanced(c) && WithinPool(c)
    ensures WithinPool(SendOrClose(c, m.payloadType, m.payload, m.closeAfterSend, accepted))
  {
    if c.state == SHUTDOWN || c.free == 0 {
      CloseWithin(c);
    } else {
      var job := JobFor(c, m.payloadType, m.payload, m.closeAfterSend);
      SentShape(c, m.payloadType, m.payload, m.closeAfterSend, accepted);
      AfterSendWithin(c, job, accepted);
    }
  }

  lemma AfterSendWithin(c: Conn, job: SendJob, accepted: bool)
    requires PoolBalanced(c) && WithinPool(c) && c.state != SHUTDOWN && c.free > 0 && job.id == c.nextJob
    ensures WithinPool(AfterSend(c, job, accepted))
  {
    OneMore(c.out, Sent(job, accepted));
    SpentSent(c.state, c.capacity, c.inFlight, Committed(c.out), job, accepted);
  }

  lemma DueWithin(c: Conn, due: Option<Message>, accepted: bool)
    requires PoolBalanced(c) && WithinPool(c)
    ensures WithinPool(SendDue(c, due, accepted))
  {
    if due.Some? { SendWithin(c, due.value, accepted); }
  }

  // ----- every entry point -----

  lemma HeaderWithin(c: Conn, header: Header, versionOk: bool, answers: seq<bool>, receives: bool, accepted: bool)
    requires PoolBalanced(c) && WithinPool(c)
    ensures WithinPool(HeaderReceived(c, header, versionOk, answers, receives, accepted))
  {
    var d := HeaderSplits(c, header, versionOk, answers, receives, accepted);
    CalmWithin(c, d);
    DueWithin(d, HeaderDue(c, header, versionOk, answers), accepted);
  }

  lemma BindWithin(c: Conn, source: bv16, internalAddress: bv16)
    requires WithinPool(c) && c.state == INACTIVE
    ensures WithinPool(BindAddress(c, source, internalAddress))
  {
    OneMore(c.out, ActivationRequested);
  }

  lemma AnswerWithin(c: Conn, tester: bv16, code: byte, closeAfterSend: bool, accepted: bool)
    requires PoolBalanced(c) && WithinPool(c)
    ensures WithinPool(SendResponse(c, tester, code, closeAfterSend, accepted))
  {
    AnswerDue(c, tester, code, closeAfterSend, accepted);
    DueWithin(c, Response(c, tester, code, closeAfterSend), accepted);
  }

  lemma DecideWithin(c: Conn, source: bv16, result: FilterResult, accepted: bool)
    requires PoolBalanced(c) && WithinPool(c)
    ensures WithinPool(Decide(c, source, result, accepted))
  {
    if result.action != Continue {
      AnswerWithin(c, source, result.responseCode, result.action == Reject, accepted);
    } else if c.state == INACTIVE {
      BindWithin(c, source, result.internalAddress);
    } else if c.sourceAddress == source {
      AnswerWithin(c, source, ROUTING_SUCCESS, false, accepted);
    } else {
      AnswerWithin(c, source, ROUTING_WRONG_SOURCE_ADDRESS, true, accepted);
    }
  }

  lemma RequestWithin(c: Conn, payload: seq<byte>, result: FilterResult, accepted: bool)
    requires PoolBalanced(c) && WithinPool(c) && RequestPayload(payload)
    ensures WithinPool(ActivationRequest(c, payload, result, accepted))
  {
    var o := FilterAsked(Source(payload), payload[2], OemField(payload), false);
    var decided := Decide(Emit(c, o), Source(payload), result, accepted);
    CalmEmit(c, o);
    CalmWithin(c, Emit(c, o));
    DecideWithin(Emit(c, o), Source(payload), result, accepted);
    CalmEmit(decided, EndReceive);
    CalmWithin(decided, Emit(decided, EndReceive));
    assert ActivationRequest(c, payload, result, accepted) == Emit(decided, EndReceive);
  }

  lemma NotifyCommitsNothing(c: Conn)
    ensures Committed(Activated(c).out) == Committed(c.out)
  {
    OneMore(c.out, RoutingActiveCallback);
  }

  lemma ActivationWithin(c: Conn, success: bool, code: byte, accepted: bool)
    requires PoolBalanced(c) && WithinPool(c) && c.state == ACTIVATING
    ensures WithinPool(ActivationCompleted(c, success, code, accepted))
  {
    var m := Response(c, c.sourceAddress, code, !success).value;
    var sent := SendResponse(c, c.sourceAddress, code, !success, accepted);
    SendWithin(c, m, accepted);
    NotifyCommitsNothing(sent);
    StaysStarted(c, m.payloadType, m.payload, m.closeAfterSend, accepted);
    if c.free == 0 {
      CloseCommitsNothing(c);
      CloseFrame(c);
    }
  }

  lemma CheckWithin(c: Conn, accepted: bool)
    requires PoolBalanced(c) && WithinPool(c)
    ensures WithinPool(StartAliveCheck(c, accepted))
  {
    var asked := c.(aliveCheckPending := true);
    CloseWithin(asked);
    SendWithin(asked.(timer := Armed(AliveCheckTimeout)), Message(ALIVE_CHECK_REQUEST, [], false), accepted);
    OneMore(c.out, AliveAnswer(false));
  }

  lemma ResponseWithin(c: Conn, payload: seq<byte>)
    requires WithinPool(c) && |payload| == 2
    ensures WithinPool(AliveResponse(c, payload))
  {
    var expected := Source(payload) == c.sourceAddress;
    var answered := Answered(c, expected);
    OneMore(c.out, AliveAnswer(expected));
    OneMore(answered.out, EndReceive);
    CloseWithin(answered);
  }

  lemma TimerWithin(c: Conn)
    requires WithinPool(c)
    ensures WithinPool(TimerExpired(c))
  {
    ExpiryCases(c);
    OneMore(c.out, AbortMode);
    CloseWithin(StopTimer(c));
    CloseWithin(Emit(StopTimer(c), AbortMode));
  }

  lemma JobDoneWithin(c: Conn, id: nat)
    requires WithinPool(c) && id in c.inFlight
    ensures WithinPool(JobDone(c, id))
  {
    JobDoneEffect(c, id);
    CloseCommitsNothing(Release(c, id));
    CloseFrame(Release(c, id));
    if !c.inFlight[id].closeAfterSend {
      assert ClosingIds(c.inFlight - {id}) == ClosingIds(c.inFlight);
    } else {
      assert id in ClosingIds(c.inFlight);
    }
  }

  lemma BegunWithin(c: Conn)
    requires WithinPool(c)
    ensures WithinPool(Begun(c))
  {
    OneMore(c.out, ConnectionInit);
  }

  lemma ResumedWithin(told: Conn, internalAddress: bv16)
    requires WithinPool(told)
    ensures WithinPool(StartResumed(told, internalAddress))
  {
    var asked := FilterAsked(told.sourceAddress, 0, Some([0, 0, 0, 0]), true);
    OneMore(told.out, asked);
    OneMore(told.out + [asked], RoutingActiveCallback);
  }

  lemma StartWithin(c: Conn, internalAddress: bv16)
    requires WithinPool(c)
    ensures WithinPool(Start(c, internalAddress))
  {
    if c.started {
      assert Start(c, internalAddress) == c;
    } else {
      BegunWithin(c);
      if c.state == INACTIVE {
        assert Start(c, internalAddress) == Begun(c).(timer := Armed(InitialInactivity));
      } else {
        ResumedWithin(Begun(c), internalAddress);
        assert Start(c, internalAddress) == StartResumed(Begun(c), internalAddress);
      }
    }
  }

  lemma StepWithin(c: Conn, e: Event)
    requires PoolBalanced(c) && WithinPool(c) && Enabled(c, e) && (c.started || IsOpen(c.state))
    ensures WithinPool(Step(c, e))
  {
    match e {
      case Started(internalAddress) => StartWithin(c, internalAddress);
      case CloseCalled => CloseWithin(c);
      case PeerClosed => CloseWithin(c);
      case AliveCheckStarted(accepted) => CheckWithin(c, accepted);
      case ActivationDone(success, code, accepted) =>
        if c.state == ACTIVATING { ActivationWithin(c, success, code, accepted); }
      case HeaderIn(header, versionOk, answers, receives, accepted) =>
        HeaderWithin(c, header, versionOk, answers, receives, accepted);
      case ActivationPayload(payload, result, accepted) => RequestWithin(c, payload, result, accepted);
      case AlivePayload(payload) => ResponseWithin(c, payload);
      case TimerFired => TimerWithin(c);
      case JobReturned(id) => JobDoneWithin(c, id);
      case _ =>
    }
  }

  lemma {:induction false} AlongWithin(t: Track, es: seq<Event>)
    requires Consistent(t) && WithinPool(t.c)
    ensures WithinPool(After(t, es).c)
  {
    if es == [] {
    } else {
      var before, e := After(t, es[..|es| - 1]), es[|es| - 1];
      AlongWithin(t, es[..|es| - 1]);
      AfterConsistent(t, es[..|es| - 1]);
      if Enabled(before.c, e) { StepWithin(before.c, e); }
    }
  }

  lemma BeginWithin(entity: bv16, invalidAddress: bv16, capacity: nat)
    ensures WithinPool(Begin(entity, invalidAddress, capacity).c)
  {
  }

  /** Over every run, whatever else happens in it: a connection hands over at most as many
      close-after-send messages as its pool has slots, none before it is closing, and while it is
      closing each of them is still in flight. So two endpoints whose versions differ, and which
      answer each other's NACKs by closing NACKs, cannot go on for ever. */
  lemma CommitmentsBounded(entity: bv16, invalidAddress: bv16, capacity: nat, es: seq<Event>)
    ensures var c := After(Begin(entity, invalidAddress, capacity), es).c;
      && Committed(c.out) <= capacity
      && (IsOpen(c.state) ==> Committed(c.out) == 0)
      && (c.state == CLOSING ==> Committed(c.out) == |ClosingIds(c.inFlight)|)
  {
    var t := Begin(entity, invalidAddress, capacity);
    BeginConsistent(entity, invalidAddress, capacity);
    BeginWithin(entity, invalidAddress, capacity);
    AlongWithin(t, es);
    StateOrder(t, es);
  }
}
