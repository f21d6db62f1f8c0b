/** When a connection ends, and how an alive check ends, over every run. */
module DoipEndings {
  import opened Bytes
  import opened DoipMessages
  import opened DoipModel
  import opened DoipReplies
  import opened DoipRuns
  import opened DoipTheorems
  import opened Wrappers

  // ----- what processing a message does to the connection -----

  /** The processing of a message in c led to c': a message due was sent or closed the connection;
      without one only an unbound connection may have been bound. Jobs in flight stay there. */
  ghost predicate Processed(c: Conn, c': Conn, due: Option<Message>) {
    && c'.started == c.started && c'.aliveCheckPending == c.aliveCheckPending
    && (c.state != SHUTDOWN ==> (c'.state == SHUTDOWN <==> due.Some? && c.free == 0))
    && forall id :: id in c.inFlight && id < c.nextJob ==> id in c'.inFlight && c'.inFlight[id] == c.inFlight[id]
  }

  lemma SentHolds(c: Conn, sent: SendJob, accepted: bool, id: nat)
    requires id in c.inFlight && id != sent.id
    ensures var c' := SendOrRelease(c, sent, accepted);
      id in c'.inFlight && c'.inFlight[id] == c.inFlight[id]
  {
  }

  lemma SendHolds(c: Conn, m: Message, accepted: bool, id: nat)
    requires id in c.inFlight && id < c.nextJob
    ensures var c' := SendOrClose(c, m.payloadType, m.payload, m.closeAfterSend, accepted);
      id in c'.inFlight && c'.inFlight[id] == c.inFlight[id]
  {
    if c.state == SHUTDOWN || c.free == 0 {
      CloseFrame(c);
    } else {
      var job := JobFor(c, m.payloadType, m.payload, m.closeAfterSend);
      SentHolds(Taken(c, m.closeAfterSend), job, accepted, id);
    }
  }

  lemma SendProcessed(c: Conn, m: Message, accepted: bool)
    ensures Processed(c, SendOrClose(c, m.payloadType, m.payload, m.closeAfterSend, accepted), Some(m))
  {
    StaysStarted(c, m.payloadType, m.payload, m.closeAfterSend, accepted);
    forall id | id in c.inFlight && id < c.nextJob
      ensures var c' := SendOrClose(c, m.payloadType, m.payload, m.closeAfterSend, accepted);
        id in c'.inFlight && c'.inFlight[id] == c.inFlight[id]
    {
      SendHolds(c, m, accepted, id);
    }
  }

  lemma CalmProcessed(a: Conn, b: Conn, c: Conn, d: Conn, due: Option<Message>)
    requires Calm(a, b) && Processed(b, c, due) && Calm(c, d)
    ensures Processed(a, d, due)
  {
  }

  lemma DueProcessed(c: Conn, due: Option<Message>, accepted: bool)
    ensures Processed(c, SendDue(c, due, accepted), due)
  {
    if due.Some? { SendProcessed(c, due.value, accepted); }
  }

  lemma HeaderProcessed(c: Conn, header: Header, versionOk: bool, answers: seq<bool>, receives: bool, accepted: bool)
    ensures Processed(c, HeaderReceived(c, header, versionOk, answers, receives, accepted),
                      HeaderDue(c, header, versionOk, answers))
  {
    var due := HeaderDue(c, header, versionOk, answers);
    var d := HeaderSplits(c, header, versionOk, answers, receives, accepted);
    DueProcessed(d, due, accepted);
    CalmProcessed(c, d, SendDue(d, due, accepted), SendDue(d, due, accepted), due);
  }

  lemma BindProcessed(c: Conn, source: bv16, internalAddress: bv16)
    ensures Processed(c, BindAddress(c, source, internalAddress), None)
  {
  }

  lemma RequestProcessed(c: Conn, payload: seq<byte>, result: FilterResult, accepted: bool)
    requires RequestPayload(payload)
    ensures Processed(c, ActivationRequest(c, payload, result, accepted), RequestDue(c, Source(payload), result))
  {
    var due := RequestDue(c, Source(payload), result);
    var d, d' := RequestSplits(c, payload, result, accepted);
    DueProcessed(d, due, accepted);
    BindProcessed(d, Source(payload), result.internalAddress);
    CalmProcessed(c, d, d', ActivationRequest(c, payload, result, accepted), due);
  }

  // ----- what shuts a connection down -----

  lemma CheckShuts(c: Conn, accepted: bool)
    requires c.state != SHUTDOWN
    ensures StartAliveCheck(c, accepted).state == SHUTDOWN <==> c.state == ACTIVE && c.free == 0
  {
    var asked := c.(aliveCheckPending := true);
    CloseFrame(asked);
    StaysStarted(asked.(timer := Armed(AliveCheckTimeout)), ALIVE_CHECK_REQUEST, [], false, accepted);
  }

  lemma ActivationShuts(c: Conn, success: bool, code: byte, accepted: bool)
    requires c.state != SHUTDOWN
    ensures ActivationCompleted(c, success, code, accepted).state == SHUTDOWN
       <==> c.state == ACTIVATING && c.free == 0 && !success
  {
    var p := ResponsePayload(c.sourceAddress, c.entity, code);
    StaysStarted(c, ROUTING_ACTIVATION_RESPONSE, p, !success, accepted);
  }

  lemma ResponseShuts(c: Conn, payload: seq<byte>)
    requires c.state != SHUTDOWN && |payload| == 2
    ensures AliveResponse(c, payload).state == SHUTDOWN <==> Source(payload) != c.sourceAddress
  {
    CloseFrame(Emit(c.(aliveCheckPending := false), AliveAnswer(false)));
    CloseFrame(c);
  }

  lemma ProcessedShuts(c: Conn, e: Event, c': Conn)
    requires Enabled(c, e) && (e.HeaderIn? || e.ActivationPayload?) && c.state != SHUTDOWN
    requires Processed(c, c', Due(c, e))
    ensures c'.state == SHUTDOWN <==> Closes(c, e)
  {
  }

  /** An open connection is shut down by exactly the events that close it, unless one re-opens it. */
  lemma ShutdownExactly(c: Conn, e: Event)
    requires Enabled(c, e) && c.started && c.state != SHUTDOWN
    ensures Step(c, e).state == SHUTDOWN <==> Closes(c, e) && !Reopens(c, e)
  {
    match e {
      case CloseCalled => CloseFrame(c);
      case PeerClosed => CloseFrame(c);
      case TimerFired => Expiry(c);
      case JobReturned(id) => JobDoneEffect(c, id);
      case AliveCheckStarted(accepted) => CheckShuts(c, accepted);
      case ActivationDone(success, code, accepted) => ActivationShuts(c, success, code, accepted);
      case HeaderIn(header, versionOk, answers, receives, accepted) =>
        HeaderProcessed(c, header, versionOk, answers, receives, accepted);
        ProcessedShuts(c, e, Step(c, e));
      case ActivationPayload(payload, result, accepted) =>
        RequestProcessed(c, payload, result, accepted);
        ProcessedShuts(c, e, Step(c, e));
      case AlivePayload(payload) => ResponseShuts(c, payload);
      case _ =>
    }
  }

  // ----- the verdict on an alive check -----

  lemma CheckPending(c: Conn, accepted: bool)
    requires c.aliveCheckPending
    ensures StartAliveCheck(c, accepted).aliveCheckPending
  {
    CloseFrame(c);
    StaysStarted(c.(timer := Armed(AliveCheckTimeout)), ALIVE_CHECK_REQUEST, [], false, accepted);
  }

  /** Only a response withdraws a pending check. */
  lemma StaysPending(c: Conn, e: Event)
    requires Enabled(c, e) && c.started && c.aliveCheckPending && !e.AlivePayload?
    ensures Step(c, e).aliveCheckPending
  {
    match e {
      case CloseCalled => CloseFrame(c);
      case PeerClosed => CloseFrame(c);
      case TimerFired =>
        ExpiryCases(c);
        CloseFrame(StopTimer(c));
      case JobReturned(id) => CloseFrame(Release(c, id));
      case AliveCheckStarted(accepted) => CheckPending(c, accepted);
      case ActivationDone(success, code, accepted) =>
        var p := ResponsePayload(c.sourceAddress, c.entity, code);
        StaysStarted(c, ROUTING_ACTIVATION_RESPONSE, p, !success, accepted);
      case HeaderIn(header, versionOk, answers, receives, accepted) =>
        HeaderProcessed(c, header, versionOk, answers, receives, accepted);
      case ActivationPayload(payload, result, accepted) => RequestProcessed(c, payload, result, accepted);
      case _ =>
    }
  }

  lemma Withdrawn(c: Conn, payload: seq<byte>)
    requires |payload| == 2
    ensures !AliveResponse(c, payload).aliveCheckPending
  {
    CloseFrame(c);
    CloseFrame(Emit(c.(aliveCheckPending := false), AliveAnswer(false)));
  }

  /** An outstanding check is settled by a response or by the closing of the connection. */
  predicate Settles(c: Conn, e: Event)
    requires Enabled(c, e)
  {
    e.AlivePayload? || Closes(c, e)
  }

  predicate SettlesAt(t: Track, e: Event) { Enabled(t.c, e) && Settles(t.c, e) }

  lemma OutstandingStep(t: Track, e: Event)
    requires Consistent(t) && Outstanding(t.c) == 1
    ensures Outstanding(Next(t, e).c) == if SettlesAt(t, e) then 0 else 1
  {
    if Enabled(t.c, e) {
      ShutdownExactly(t.c, e);
      if e.AlivePayload? {
        Withdrawn(t.c, e.payload);
      } else {
        StaysPending(t.c, e);
      }
    }
  }

  /** The only success is the response of the bound address. */
  predicate Passes(address: bv16, e: Event) {
    e.AlivePayload? && |e.payload| == 2 && Source(e.payload) == address
  }

  lemma VerdictStep(t: Track, e: Event)
    requires Consistent(t) && Outstanding(t.c) == 1
    ensures JudgedAt(t, e) == if SettlesAt(t, e) then [Passes(t.c.sourceAddress, e)]
                              else Refusals(Next(t, e).h.requests - t.h.requests)
  {
  }

  /** Checks requested while one is outstanding on a connection that is no longer active. */
  function Refusals(n: int): seq<bool> { seq(if n >= 0 then n else 0, _ => false) }

  lemma MoreRefusals(before: seq<bool>, m: nat, n: nat)
    ensures (before + Refusals(m)) + Refusals(n) == before + Refusals(m + n)
  {
  }

  ghost predicate StaysOpen(t: Track, es: seq<Event>) {
    forall n :: 0 <= n < |es| ==> !SettlesAt(After(t, es[..n]), es[n])
  }

  lemma RequestsGrow(t: Track, e: Event)
    ensures Next(t, e).h.requests >= t.h.requests
  {
  }

  /** Since t the check has stayed outstanding and only further checks were refused. */
  ghost predicate Waits(t: Track, w: Track) {
    && Outstanding(w.c) == 1 && w.h.requests >= t.h.requests
    && Verdicts(w.c.out) == Verdicts(t.c.out) + Refusals(w.h.requests - t.h.requests)
  }

  lemma WaitGrows(t: Track, w: Track, w': Track)
    requires Waits(t, w) && Outstanding(w'.c) == 1 && w'.h.requests >= w.h.requests
    requires Verdicts(w'.c.out) == Verdicts(w.c.out) + Refusals(w'.h.requests - w.h.requests)
    ensures Waits(t, w')
  {
    MoreRefusals(Verdicts(t.c.out), w.h.requests - t.h.requests, w'.h.requests - w.h.requests);
  }

  lemma WaitStep(t: Track, w: Track, e: Event)
    requires Consistent(w) && Waits(t, w) && !SettlesAt(w, e)
    ensures Waits(t, Next(w, e))
  {
    OutstandingStep(w, e);
    VerdictStep(w, e);
    RequestsGrow(w, e);
    NextGrows(w, e);
    WaitGrows(t, w, Next(w, e));
  }

  lemma {:induction false} Unsettled(t: Track, es: seq<Event>)
    requires Consistent(t) && Outstanding(t.c) == 1 && StaysOpen(t, es)
    ensures Waits(t, After(t, es))
  {
    if es == [] {
    } else {
      var n := |es| - 1;
      assert forall k :: 0 <= k < n ==> es[..n][..k] == es[..k];
      Unsettled(t, es[..n]);
      AfterConsistent(t, es[..n]);
      WaitStep(t, After(t, es[..n]), es[n]);
    }
  }

  /** A check started on an active connection with a job left is outstanding. */
  lemma CheckOpens(t: Track, accepted: bool)
    requires t.c.started && t.c.state == ACTIVE && t.c.free > 0
    ensures Outstanding(Next(t, AliveCheckStarted(accepted)).c) == 1
  {
    var asked := t.c.(aliveCheckPending := true, timer := Armed(AliveCheckTimeout));
    StaysStarted(asked, ALIVE_CHECK_REQUEST, [], false, accepted);
  }

  /** Whatever run follows an outstanding alive check: until the first response or closing it stays
      outstanding, and the only verdicts given are refusals of further checks; that event then gives
      exactly one verdict on it, a success exactly for a response of the address that was bound when
      the check was outstanding. */
  lemma VerdictOfCheck(t: Track, es: seq<Event>, e: Event)
    requires Consistent(t) && Outstanding(t.c) == 1
    requires StaysOpen(t, es) && SettlesAt(After(t, es), e)
    ensures var w, w' := After(t, es), Next(After(t, es), e);
      Waits(t, w) && Outstanding(w'.c) == 0
      && Verdicts(w'.c.out) == Verdicts(w.c.out) + [Passes(t.c.sourceAddress, e)]
  {
    Unsettled(t, es);
    AfterConsistent(t, es);
    OutstandingStep(After(t, es), e);
    VerdictStep(After(t, es), e);
    NextGrows(After(t, es), e);
    StateOrder(t, es);
  }

  // ----- closing makes progress -----

  /** The connection is shut down, or closing with this job still in flight. */
  ghost predicate ClosesWith(c: Conn, id: nat, job: SendJob) {
    c.started && (c.state == SHUTDOWN || (c.state == CLOSING && id in c.inFlight && c.inFlight[id] == job))
  }

  lemma ProcessedHolds(c: Conn, c': Conn, due: Option<Message>, id: nat)
    requires Processed(c, c', due) && id in c.inFlight && id < c.nextJob
    ensures id in c'.inFlight && c'.inFlight[id] == c.inFlight[id]
  {
  }

  /** A job of a closing connection leaves the flight only by its return. */
  lemma StaysInFlight(c: Conn, e: Event, id: nat)
    requires Enabled(c, e) && c.started && c.state == CLOSING && id in c.inFlight && id < c.nextJob
    requires e != JobReturned(id)
    ensures id in Step(c, e).inFlight && Step(c, e).inFlight[id] == c.inFlight[id]
  {
    match e {
      case HeaderIn(header, versionOk, answers, receives, accepted) =>
        HeaderProcessed(c, header, versionOk, answers, receives, accepted);
        ProcessedHolds(c, Step(c, e), HeaderDue(c, header, versionOk, answers), id);
      case ActivationPayload(payload, result, accepted) =>
        RequestProcessed(c, payload, result, accepted);
        ProcessedHolds(c, Step(c, e), RequestDue(c, Source(payload), result), id);
      case JobReturned(other) => JobDoneEffect(c, other);
      case AlivePayload(payload) => ResponseHolds(c, payload);
      case CloseCalled => CloseFrame(c);
      case PeerClosed => CloseFrame(c);
      case _ =>
    }
  }

  lemma ClosingStep(t: Track, e: Event, id: nat, job: SendJob)
    requires Consistent(t) && ClosesWith(t.c, id, job) && job.closeAfterSend
    ensures ClosesWith(Next(t, e).c, id, job)
    ensures e == JobReturned(id) ==> Next(t, e).c.state == SHUTDOWN
  {
    NextForward(t, e);
    if Enabled(t.c, e) && t.c.state == CLOSING {
      if e == JobReturned(id) {
        JobDoneEffect(t.c, id);
      } else {
        StaysInFlight(t.c, e, id);
      }
    }
  }

  lemma ResponseHolds(c: Conn, payload: seq<byte>)
    requires |payload| == 2
    ensures AliveResponse(c, payload).inFlight == c.inFlight
  {
    var expected := Source(payload) == c.sourceAddress;
    CloseFrame(Answered(c, expected));
    assert AliveResponse(c, payload) == if expected then Emit(Answered(c, expected), EndReceive)
                                        else CloseNow(Answered(c, expected));
  }

  lemma {:induction false} ClosesAlong(t: Track, es: seq<Event>, id: nat, job: SendJob)
    requires Consistent(t) && ClosesWith(t.c, id, job) && job.closeAfterSend
    ensures ClosesWith(After(t, es).c, id, job)
    ensures JobReturned(id) in es ==> After(t, es).c.state == SHUTDOWN
  {
    if es == [] {
    } else {
      var before := After(t, es[..|es| - 1]);
      ClosesAlong(t, es[..|es| - 1], id, job);
      AfterConsistent(t, es[..|es| - 1]);
      ClosingStep(before, es[|es| - 1], id, job);
      NextForward(before, es[|es| - 1]);
    }
  }

  /** Closing makes progress, whatever else happens: from any closing state, every run in which the
      jobs in flight come back at some time ends with the connection shut down, provided that one of
      them is a close-after-send job; there always is one unless the connection refused one. */
  lemma ClosingProgress(t: Track, es: seq<Event>)
    requires Consistent(t) && t.c.state == CLOSING
    requires forall id :: id in t.c.inFlight ==> JobReturned(id) in es
    ensures CloseInFlight(t.c.inFlight) || !RefusedClose(t.c.out) ==> After(t, es).c.state == SHUTDOWN
  {
    if CloseInFlight(t.c.inFlight) {
      var id :| id in t.c.inFlight && t.c.inFlight[id].closeAfterSend;
      ClosesAlong(t, es, id, t.c.inFlight[id]);
    }
  }

  // ----- staying in the closing state -----

  predicate ClosesAt(t: Track, e: Event) { Enabled(t.c, e) && Closes(t.c, e) }

  ghost predicate NothingCloses(t: Track, es: seq<Event>) {
    forall n :: 0 <= n < |es| ==> !ClosesAt(After(t, es[..n]), es[n])
  }

  lemma ClosingOrShut(t: Track, e: Event)
    requires Consistent(t) && t.c.state == CLOSING
    ensures Next(t, e).c.state == if ClosesAt(t, e) then SHUTDOWN else CLOSING
  {
    NextForward(t, e);
    if Enabled(t.c, e) { ShutdownExactly(t.c, e); }
  }

  lemma NothingClosesNext(t: Track, es: seq<Event>)
    requires es != []
    ensures var n := |es| - 1;
      NothingCloses(t, es) <==> NothingCloses(t, es[..n]) && !ClosesAt(After(t, es[..n]), es[n])
  {
    var n := |es| - 1;
    assert forall k :: 0 <= k < n ==> es[..n][..k] == es[..k];
  }

  lemma ShutStaysShut(t: Track, e: Event)
    requires Consistent(t) && t.c.state == SHUTDOWN
    ensures Next(t, e).c.state == SHUTDOWN
  {
    NextForward(t, e);
  }

  /** A closing connection stays closing for exactly as long as nothing closes it. */
  lemma {:induction false} ClosingStays(t: Track, es: seq<Event>)
    requires Consistent(t) && t.c.state == CLOSING
    ensures After(t, es).c.state == if NothingCloses(t, es) then CLOSING else SHUTDOWN
  {
    if es == [] {
    } else {
      var before, e := After(t, es[..|es| - 1]), es[|es| - 1];
      ClosingStays(t, es[..|es| - 1]);
      NothingClosesNext(t, es);
      AfterConsistent(t, es[..|es| - 1]);
      if before.c.state == CLOSING {
        ClosingOrShut(before, e);
      } else {
        ShutStaysShut(before, e);
      }
    }
  }

  predicate Unattended(e: Event) { e.TimerFired? || e.JobReturned? || e.ShutdownCalled? }

  lemma UnattendedStep(t: Track, e: Event)
    requires Consistent(t) && t.c.state == CLOSING && !CloseInFlight(t.c.inFlight) && Unattended(e)
    ensures Next(t, e).c.state == CLOSING && !CloseInFlight(Next(t, e).c.inFlight)
  {
    ClosingOrShut(t, e);
    if e.TimerFired? { Expiry(t.c); }
    if e.JobReturned? && Enabled(t.c, e) { JobDoneEffect(t.c, e.id); }
  }

  /** A closing connection with no close-after-send job in flight is stuck: no expiry, no returning
      job and no shutdown() ever closes it, however many there are. */
  lemma {:induction false} StuckForever(t: Track, es: seq<Event>)
    requires Consistent(t) && t.c.state == CLOSING && !CloseInFlight(t.c.inFlight)
    requires forall e :: e in es ==> Unattended(e)
    ensures After(t, es).c.state == CLOSING && !CloseInFlight(After(t, es).c.inFlight)
  {
    if es == [] {
    } else {
      StuckForever(t, es[..|es| - 1]);
      AfterConsistent(t, es[..|es| - 1]);
      UnattendedStep(After(t, es[..|es| - 1]), es[|es| - 1]);
    }
  }
}
