/** What follows, over every run, from the table of messages due: their order and format, the
    addresses told of a successful activation, and the end of every exchange of replies. */
module DoipReplies {
  import opened Bytes
  import opened DoipMessages
  import opened DoipModel
  import opened DoipRuns
  import opened DoipTheorems

  // ----- the trace of a run -----

  function HandedAt(t: Track, e: Event): seq<SendJob> { if Enabled(t.c, e) then Handed(t.c, e) else [] }

  function JudgedAt(t: Track, e: Event): seq<bool> { if Enabled(t.c, e) then Judged(t.c, e) else [] }

  function HandedAlong(t: Track, es: seq<Event>): seq<SendJob> {
    if es == [] then []
    else HandedAlong(t, es[..|es| - 1]) + HandedAt(After(t, es[..|es| - 1]), es[|es| - 1])
  }

  function JudgedAlong(t: Track, es: seq<Event>): seq<bool> {
    if es == [] then []
    else JudgedAlong(t, es[..|es| - 1]) + JudgedAt(After(t, es[..|es| - 1]), es[|es| - 1])
  }

  lemma NextGrows(t: Track, e: Event)
    ensures Grows(t.c, Next(t, e).c, HandedAt(t, e), JudgedAt(t, e))
  {
    if Enabled(t.c, e) { StepGrows(t.c, e); }
  }

  lemma GrowsChain(
    a: Conn, b: Conn, c: Conn, jobs: seq<SendJob>, more: seq<SendJob>, verdicts: seq<bool>, last: seq<bool>)
    requires Grows(a, b, jobs, verdicts) && Grows(b, c, more, last)
    ensures Grows(a, c, jobs + more, verdicts + last)
  {
    assert SentJobs(a.out) + (jobs + more) == (SentJobs(a.out) + jobs) + more;
    assert Verdicts(a.out) + (verdicts + last) == (Verdicts(a.out) + verdicts) + last;
  }

  lemma {:induction false} AlongGrows(t: Track, es: seq<Event>)
    ensures Grows(t.c, After(t, es).c, HandedAlong(t, es), JudgedAlong(t, es))
  {
    if es == [] {
    } else {
      var before, e := After(t, es[..|es| - 1]), es[|es| - 1];
      AlongGrows(t, es[..|es| - 1]);
      NextGrows(before, e);
      GrowsChain(t.c, before.c, Next(before, e).c, HandedAlong(t, es[..|es| - 1]), HandedAt(before, e),
                 JudgedAlong(t, es[..|es| - 1]), JudgedAt(before, e));
    }
  }

  lemma TraceFromNothing(t: Track, es: seq<Event>)
    requires t.c.out == []
    ensures SentJobs(After(t, es).c.out) == HandedAlong(t, es)
    ensures Verdicts(After(t, es).c.out) == JudgedAlong(t, es)
  {
    AlongGrows(t, es);
  }

  /** Over every run: the messages handed over and the verdicts given are, in order, exactly those
      that were due. */
  lemma MessageTrace(entity: bv16, invalidAddress: bv16, capacity: nat, es: seq<Event>)
    ensures var t := Begin(entity, invalidAddress, capacity);
      && SentJobs(After(t, es).c.out) == HandedAlong(t, es)
      && Verdicts(After(t, es).c.out) == JudgedAlong(t, es)
  {
    TraceFromNothing(Begin(entity, invalidAddress, capacity), es);
  }

  // ----- formats -----

  /** Only NACKs, activation responses and alive check requests are sent. A NACK closes unless it
      reports an unknown type; a response names this entity and its reserved bytes are zero. */
  predicate WellFormed(job: SendJob, entity: bv16) {
    || (job.payloadType == NEGATIVE_ACK && job.payload in [[0x00], [0x01], [0x04]]
        && (job.closeAfterSend <==> job.payload != [0x01]))
    || (job.payloadType == ROUTING_ACTIVATION_RESPONSE && |job.payload| == 9
        && Join16(job.payload[2], job.payload[3]) == entity && job.payload[5..] == [0, 0, 0, 0])
    || (job.payloadType == ALIVE_CHECK_REQUEST && job.payload == [] && !job.closeAfterSend)
  }

  lemma ResponseWellFormed(c: Conn, tester: bv16, code: byte, close: bool)
    ensures var p := ResponsePayload(tester, c.entity, code);
      WellFormed(SendJob(c.nextJob, ROUTING_ACTIVATION_RESPONSE, p, close), c.entity)
  {
    JoinSplit16(c.entity);
  }

  lemma HandedWellFormed(c: Conn, e: Event)
    requires Enabled(c, e) && Handed(c, e) != []
    ensures Handed(c, e)[0].id == c.nextJob && WellFormed(Handed(c, e)[0], c.entity)
  {
    match e {
      case HeaderIn(_, _, _, _, _) =>
      case AliveCheckStarted(_) =>
      case ActivationDone(success, code, _) => ResponseWellFormed(c, c.sourceAddress, code, !success);
      case ActivationPayload(payload, result, _) =>
        var source := Source(payload);
        ResponseWellFormed(c, source, result.responseCode, result.action == Reject);
        ResponseWellFormed(c, source, ROUTING_SUCCESS, false);
        ResponseWellFormed(c, source, ROUTING_WRONG_SOURCE_ADDRESS, true);
    }
  }

  ghost predicate InOrder(jobs: seq<SendJob>, entity: bv16) {
    forall k :: 0 <= k < |jobs| ==> jobs[k].id == k && WellFormed(jobs[k], entity)
  }

  /** Over every run: the k-th message handed over carries number k and is well formed. */
  lemma {:induction false} MessagesWellFormed(entity: bv16, invalidAddress: bv16, capacity: nat, es: seq<Event>)
    ensures var c := After(Begin(entity, invalidAddress, capacity), es).c;
      InOrder(SentJobs(c.out), entity) && |SentJobs(c.out)| == c.nextJob && c.entity == entity
  {
    var t := Begin(entity, invalidAddress, capacity);
    if es == [] {
    } else {
      var before, e := After(t, es[..|es| - 1]), es[|es| - 1];
      MessagesWellFormed(entity, invalidAddress, capacity, es[..|es| - 1]);
      NextGrows(before, e);
      BeginConsistent(entity, invalidAddress, capacity);
      StateOrder(t, es);
      if HandedAt(before, e) != [] { HandedWellFormed(before.c, e); }
    }
  }

  // ----- who is told of a successful activation -----

  predicate IsSuccess(job: SendJob) {
    job.payloadType == ROUTING_ACTIVATION_RESPONSE && |job.payload| == 9 && job.payload[4] == ROUTING_SUCCESS
  }

  /** The address a response is about. */
  function Target(job: SendJob): bv16
    requires IsSuccess(job)
  {
    Source(job.payload)
  }

  /** A success handed over in state c that does not name the address c is bound to. */
  predicate Strays(c: Conn, job: SendJob) {
    IsSuccess(job) && (c.state == INACTIVE || Target(job) != c.sourceAddress)
  }

  /** The filter responds or rejects with the success code although the request does not come from
      the bound address. */
  predicate StrayVerdict(c: Conn, e: Event) {
    && e.ActivationPayload? && RequestPayload(e.payload)
    && e.result.action != Continue && e.result.responseCode == ROUTING_SUCCESS
    && c.state != SHUTDOWN && c.free > 0
    && (c.state == INACTIVE || Source(e.payload) != c.sourceAddress)
  }

  lemma ResponseTarget(c: Conn, tester: bv16, code: byte, close: bool)
    ensures var job := SendJob(c.nextJob, ROUTING_ACTIVATION_RESPONSE, ResponsePayload(tester, c.entity, code), close);
      (IsSuccess(job) <==> code == ROUTING_SUCCESS) && (IsSuccess(job) ==> Target(job) == tester)
  {
    JoinSplit16(tester);
  }

  lemma StraysExactly(c: Conn, e: Event)
    requires Enabled(c, e)
    ensures (exists job :: job in Handed(c, e) && Strays(c, job)) <==> StrayVerdict(c, e)
  {
    if e.ActivationDone? {
      ResponseTarget(c, c.sourceAddress, e.code, !e.success);
    }
    if e.ActivationPayload? {
      var source := Source(e.payload);
      ResponseTarget(c, source, e.result.responseCode, e.result.action == Reject);
      ResponseTarget(c, source, ROUTING_SUCCESS, false);
      ResponseTarget(c, source, ROUTING_WRONG_SOURCE_ADDRESS, true);
      if StrayVerdict(c, e) {
        assert Strays(c, Handed(c, e)[0]);
      }
    }
  }

  predicate StrayAt(t: Track, e: Event) { Enabled(t.c, e) && StrayVerdict(t.c, e) }

  /** No event of the run is a stray verdict of the filter. */
  ghost predicate NoStray(t: Track, es: seq<Event>) {
    forall n :: 0 <= n < |es| ==> !StrayAt(After(t, es[..n]), es[n])
  }

  /** Whenever the run hands over a success, it names the address bound at that moment. */
  ghost predicate AlwaysNamed(t: Track, es: seq<Event>) {
    forall n, job :: 0 <= n < |es| && job in HandedAt(After(t, es[..n]), es[n]) ==> !Strays(After(t, es[..n]).c, job)
  }

  /** Every success handed over so far names the bound address. */
  ghost predicate NamesBound(c: Conn) {
    forall job :: job in SentJobs(c.out) && IsSuccess(job) ==> c.state != INACTIVE && Target(job) == c.sourceAddress
  }

  lemma NextNamesBound(t: Track, e: Event)
    requires Consistent(t) && NamesBound(t.c) && !StrayAt(t, e)
    ensures NamesBound(Next(t, e).c)
  {
    var c' := Next(t, e).c;
    NextGrows(t, e);
    NextForward(t, e);
    if Enabled(t.c, e) { StraysExactly(t.c, e); }
    forall job | job in SentJobs(c'.out) && IsSuccess(job)
      ensures c'.state != INACTIVE && Target(job) == c'.sourceAddress
    {
      assert job in SentJobs(t.c.out) || (job in HandedAt(t, e) && !Strays(t.c, job));
      assert t.c.started && Rank(t.c.state) > 0;
    }
  }

  lemma {:induction false} NoStrayNamesBound(t: Track, es: seq<Event>)
    requires Consistent(t) && NamesBound(t.c) && NoStray(t, es)
    ensures NamesBound(After(t, es).c)
  {
    if es == [] {
    } else {
      var n := |es| - 1;
      assert forall k :: 0 <= k < n ==> es[..n][..k] == es[..k];
      NoStrayNamesBound(t, es[..n]);
      AfterConsistent(t, es[..n]);
      NextNamesBound(After(t, es[..n]), es[n]);
    }
  }

  /** Every routing success of a run names the address bound when it was handed over if and only if
      the filter never gave a stray verdict; then all of them name the one address to which the
      connection is bound for the rest of its life. */
  lemma SuccessNamesBound(entity: bv16, invalidAddress: bv16, capacity: nat, es: seq<Event>)
    ensures var t := Begin(entity, invalidAddress, capacity);
      && (AlwaysNamed(t, es) <==> NoStray(t, es))
      && (NoStray(t, es) ==> NamesBound(After(t, es).c))
  {
    var t := Begin(entity, invalidAddress, capacity);
    BeginConsistent(entity, invalidAddress, capacity);
    if NoStray(t, es) { NoStrayNamesBound(t, es); }
    forall n | 0 <= n < |es|
      ensures StrayAt(After(t, es[..n]), es[n])
         <==> exists job :: job in HandedAt(After(t, es[..n]), es[n]) && Strays(After(t, es[..n]).c, job)
    {
      if Enabled(After(t, es[..n]).c, es[n]) { StraysExactly(After(t, es[..n]).c, es[n]); }
    }
  }

  /** In particular when the filter keeps the success code to itself. */
  lemma HonestFilter(entity: bv16, invalidAddress: bv16, capacity: nat, es: seq<Event>)
    requires forall e :: e in es && e.ActivationPayload? && e.result.action != Continue ==>
      e.result.responseCode != ROUTING_SUCCESS
    ensures NamesBound(After(Begin(entity, invalidAddress, capacity), es).c)
  {
    SuccessNamesBound(entity, invalidAddress, capacity, es);
  }

  /** A run in which the filter responds with the success code: the connection tells an address of
      success and is bound to none. */
  lemma StraySuccess(entity: bv16, invalidAddress: bv16, payload: seq<byte>, accepted: bool)
    requires RequestPayload(payload) && Source(payload) != invalidAddress
    ensures var verdict := FilterResult(Respond, 0x10, 0);
      var es := [Started(invalidAddress)] + [ActivationPayload(payload, verdict, accepted)];
      var c := After(Begin(entity, invalidAddress, 1), es).c;
      && |SentJobs(c.out)| == 1 && IsSuccess(SentJobs(c.out)[0])
      && Target(SentJobs(c.out)[0]) == Source(payload) != c.sourceAddress && c.state == INACTIVE
  {
    var t := Begin(entity, invalidAddress, 1);
    var e0, e1 := Started(invalidAddress), ActivationPayload(payload, FilterResult(Respond, 0x10, 0), accepted);
    AfterOne(t, [], e0);
    assert [] + [e0] == [e0];
    AfterOne(t, [e0], e1);
    StrayStep(Next(t, e0), payload, accepted);
    NextGrows(t, e0);
  }

  lemma StrayStep(t: Track, payload: seq<byte>, accepted: bool)
    requires t.c.started && t.c.state == INACTIVE && t.c.free > 0 && RequestPayload(payload)
    ensures var e := ActivationPayload(payload, FilterResult(Respond, 0x10, 0), accepted);
      && |HandedAt(t, e)| == 1 && IsSuccess(HandedAt(t, e)[0]) && Target(HandedAt(t, e)[0]) == Source(payload)
      && SentJobs(Next(t, e).c.out) == SentJobs(t.c.out) + HandedAt(t, e)
      && Next(t, e).c.state == INACTIVE && Next(t, e).c.sourceAddress == t.c.sourceAddress
  {
    var p := ResponsePayload(Source(payload), t.c.entity, 0x10);
    var asked := Emit(t.c, FilterAsked(Source(payload), payload[2], OemField(payload), false));
    NextGrows(t, ActivationPayload(payload, FilterResult(Respond, 0x10, 0), accepted));
    ResponseTarget(t.c, Source(payload), 0x10, false);
    StaysStarted(asked, ROUTING_ACTIVATION_RESPONSE, p, false, accepted);
  }

  // ----- replies to messages of the right version -----

  /** How far a message type is from silence. */
  function ReplyRank(payloadType: bv16): nat {
    if Silent(payloadType) then 0 else if payloadType == ROUTING_ACTIVATION_REQUEST then 2 else 1
  }

  /** Between the two traces of calls a message of this type was handed over. */
  ghost predicate Replied(out: seq<Output>, out': seq<Output>, payloadType: bv16) {
    var jobs, jobs' := SentJobs(out), SentJobs(out');
    jobs <= jobs' && exists job :: job in jobs'[|jobs|..] && job.payloadType == payloadType
  }

  lemma RepliedGrows(c: Conn, c': Conn, jobs: seq<SendJob>, verdicts: seq<bool>, payloadType: bv16)
    requires Grows(c, c', jobs, verdicts)
    ensures Replied(c.out, c'.out, payloadType) <==> exists job :: job in jobs && job.payloadType == payloadType
  {
    assert SentJobs(c'.out)[|SentJobs(c.out)|..] == jobs;
  }

  /** The processing of one received message: its header, with the right version, or its payload. */
  predicate Receives(e: Event, payloadType: bv16) {
    || (e.HeaderIn? && e.versionOk && e.header.payloadType == payloadType)
    || (e.ActivationPayload? && payloadType == ROUTING_ACTIVATION_REQUEST)
    || (e.AlivePayload? && payloadType == ALIVE_CHECK_RESPONSE)
  }

  lemma DueDescends(c: Conn, e: Event, message: bv16, job: SendJob)
    requires Enabled(c, e) && Receives(e, message) && job in Handed(c, e)
    ensures ReplyRank(job.payloadType) < ReplyRank(message)
  {
  }

  /** Every reply to a message of the right version is strictly nearer to silence than the message. */
  lemma RepliesDescend(c: Conn, e: Event, message: bv16, reply: bv16)
    requires Enabled(c, e) && Receives(e, message) && Replied(c.out, Step(c, e).out, reply)
    ensures ReplyRank(reply) < ReplyRank(message)
  {
    StepGrows(c, e);
    RepliedGrows(c, Step(c, e), Handed(c, e), Judged(c, e), reply);
    var job :| job in Handed(c, e) && job.payloadType == reply;
    DueDescends(c, e, message, job);
  }

  /** One message and the reply it caused at some handler. */
  datatype Exchange = Exchange(c: Conn, e: Event, message: bv16, reply: bv16)

  ghost predicate Dialogue(xs: seq<Exchange>) {
    && (forall i :: 0 <= i < |xs| ==>
      && Enabled(xs[i].c, xs[i].e) && Receives(xs[i].e, xs[i].message)
      && Replied(xs[i].c.out, Step(xs[i].c, xs[i].e).out, xs[i].reply))
    && (forall i :: 0 < i < |xs| ==> xs[i].message == xs[i - 1].reply)
  }

  /** Two such endpoints that accept each other's version, in whatever states, never answer each
      other for ever: a chain of replies to replies has at most two links. */
  lemma {:induction false} DialoguesEnd(xs: seq<Exchange>)
    requires Dialogue(xs)
    ensures |xs| <= 2
    ensures xs != [] ==> ReplyRank(xs[|xs| - 1].reply) + |xs| <= ReplyRank(xs[0].message)
  {
    if xs == [] {
    } else {
      var n := |xs| - 1;
      RepliesDescend(xs[n].c, xs[n].e, xs[n].message, xs[n].reply);
      DialoguesEnd(xs[..n]);
    }
  }

  // ----- messages of the wrong version -----

  /** Processing the header hands over a reply that is not nearer to silence than the header. */
  ghost predicate NotNearer(c: Conn, e: Event)
    requires Enabled(c, e) && e.HeaderIn?
  {
    exists job :: job in Handed(c, e) && ReplyRank(job.payloadType) >= ReplyRank(e.header.payloadType)
  }

  /** The descent fails exactly for an acknowledgement of the wrong version: a NACK, 0x8002 or 0x8003
      that an open connection with a job left answers by a NACK. */
  lemma DescentFailsExactly(c: Conn, e: Event)
    requires Enabled(c, e) && e.HeaderIn?
    ensures NotNearer(c, e) <==> !e.versionOk && Silent(e.header.payloadType) && c.state != SHUTDOWN && c.free > 0
  {
    if !e.versionOk && Silent(e.header.payloadType) && c.state != SHUTDOWN && c.free > 0 {
      assert Handed(c, e)[0] in Handed(c, e);
    }
  }

  /** In that case the reply is a NACK: the types an acknowledgement of the wrong version leads to. */
  lemma WrongVersionAnswered(c: Conn, e: Event)
    requires Enabled(c, e) && e.HeaderIn? && NotNearer(c, e)
    ensures Replied(c.out, Step(c, e).out, NEGATIVE_ACK)
  {
    DescentFailsExactly(c, e);
    StepGrows(c, e);
    RepliedGrows(c, Step(c, e), Handed(c, e), Judged(c, e), NEGATIVE_ACK);
    assert Handed(c, e)[0].payloadType == NEGATIVE_ACK;
  }

  predicate WrongVersions(es: seq<Event>) {
    forall i :: 0 <= i < |es| ==> es[i].HeaderIn? && !es[i].versionOk
  }

  /** How many of the NACKs the connection accepts. */
  function AcceptedIn(es: seq<Event>): nat
    requires WrongVersions(es)
  {
    if es == [] then 0 else AcceptedIn(es[..|es| - 1]) + if es[|es| - 1].accepted then 1 else 0
  }

  lemma WrongVersionStep(t: Track, e: Event)
    requires t.c.started && e.HeaderIn? && !e.versionOk
    ensures var d := Next(t, e).c;
      && d.started
      && d.state == (if t.c.state == SHUTDOWN || t.c.free == 0 then SHUTDOWN else CLOSING)
      && d.free == if t.c.state != SHUTDOWN && t.c.free > 0 && e.accepted then t.c.free - 1 else t.c.free
  {
    StaysStarted(t.c, NEGATIVE_ACK, [NACK_INCORRECT_PATTERN], true, e.accepted);
    SentFree(t.c, NEGATIVE_ACK, [NACK_INCORRECT_PATTERN], true, e.accepted);
  }

  lemma SentFree(c: Conn, payloadType: bv16, payload: seq<byte>, closeAfterSend: bool, accepted: bool)
    ensures SendOrClose(c, payloadType, payload, closeAfterSend, accepted).free
         == if c.state != SHUTDOWN && c.free > 0 && accepted then c.free - 1 else c.free
  {
    if c.state == SHUTDOWN || c.free == 0 { CloseFrame(c); }
  }

  /** The pool in runs of wrong versions and nothing else, so that no job comes back: each accepted
      NACK costs a slot, and the first header that finds none left closes the connection. */
  lemma {:induction false} WrongVersionsRunDry(t: Track, es: seq<Event>)
    requires t.c.started && t.c.state != SHUTDOWN && WrongVersions(es)
    ensures var d := After(t, es).c;
      && d.started
      && d.free == (if AcceptedIn(es) <= t.c.free then t.c.free - AcceptedIn(es) else 0)
      && (d.state == SHUTDOWN <==> es != [] && AcceptedIn(es[..|es| - 1]) >= t.c.free)
  {
    if es == [] {
    } else {
      WrongVersionsRunDry(t, es[..|es| - 1]);
      WrongVersionStep(After(t, es[..|es| - 1]), es[|es| - 1]);
    }
  }
}
