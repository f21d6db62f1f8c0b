/** The order of the calls that close a connection, at every event and in the trace of every run. */
module DoipOrder {
  import opened Bytes
  import opened DoipMessages
  import opened DoipModel
  import opened DoipRuns
  import opened DoipTable
  import opened DoipTheorems
  import opened Wrappers

  // ----- one event -----

  /** An alive check is decided by the closing of the connection: one is outstanding, or the event is a
      check that finds no job, and the event shuts the connection down. */
  predicate ClosesChecked(c: Conn, e: Event)
    requires Enabled(c, e)
  {
    && c.started && c.state != SHUTDOWN && Step(c, e).state == SHUTDOWN
    && (c.aliveCheckPending || e.AliveCheckStarted?)
  }

  lemma PendingState(c: Conn, h: History)
    requires Inv(c, h) && c.aliveCheckPending
    ensures c.state != INACTIVE && c.state != ACTIVATING
  {
  }

  lemma AfterTheQuestion(out: seq<Output>, out': seq<Output>, asked: Output, sent: seq<Output>, last: Output)
    requires out' == out + ([asked] + sent + [last])
    ensures out < out' && out'[|out| + 1..] == sent + [last]
  {
  }

  lemma AskedAnsweredLast(c: Conn, payload: seq<byte>, result: FilterResult, accepted: bool)
    requires PoolBalanced(c) && RequestPayload(payload) && c.state != SHUTDOWN && c.aliveCheckPending
    requires RequestDue(c, Source(payload), result).Some? && c.free == 0
    ensures var out' := ActivationRequest(c, payload, result, accepted).out;
      && c.out < out'
      && out'[|c.out| + 1..] == [ConnectionClose, ConnectionClosedCallback, AliveAnswer(false), EndReceive]
  {
    var oem := if |payload| == 11 then Some([payload[7], payload[8], payload[9], payload[10]]) else None;
    var asked := FilterAsked(Join16(payload[0], payload[1]), payload[2], oem, false);
    RequestCalls(c, payload, result, accepted);
    AfterTheQuestion(c.out, ActivationRequest(c, payload, result, accepted).out, asked, Closing(c, true), EndReceive);
  }

  /** Closing with a check outstanding closes the connection first, then tells the callback, and only
      then answers the check; an activation request is still received to its end. The address of
      another tester is the answer to the check and comes before the closing. */
  lemma CheckAnsweredLast(c: Conn, h: History, e: Event)
    requires Inv(c, h) && Enabled(c, e) && ClosesChecked(c, e)
    ensures e.AlivePayload? ==>
      Step(c, e).out == c.out + [AliveAnswer(false), ConnectionClose, ConnectionClosedCallback]
    ensures e.ActivationPayload? ==> c.out < Step(c, e).out
    ensures e.ActivationPayload? ==>
      Step(c, e).out[|c.out| + 1..] == [ConnectionClose, ConnectionClosedCallback, AliveAnswer(false), EndReceive]
    ensures !e.AlivePayload? && !e.ActivationPayload? ==>
      Step(c, e).out == c.out + [ConnectionClose, ConnectionClosedCallback, AliveAnswer(false)]
  {
    if c.aliveCheckPending { PendingState(c, h); }
    StateAfter(c, e);
    CallsOfEvent(c, e);
    if e.ActivationPayload? { AskedAnsweredLast(c, e.payload, e.result, e.accepted); }
  }

  // ----- the trace of every run -----

  /** Every closing of the connection is followed at once by the closing callback, which comes only
      there. */
  ghost predicate Paired(out: seq<Output>) {
    forall k :: 0 <= k < |out| ==> PairedAt(out, k)
  }

  predicate PairedAt(out: seq<Output>, k: nat)
    requires k < |out|
  {
    && (out[k] == ConnectionClose ==> k + 1 < |out| && out[k + 1] == ConnectionClosedCallback)
    && (out[k] == ConnectionClosedCallback ==> k > 0 && out[k - 1] == ConnectionClose)
  }

  lemma PairedTogether(a: seq<Output>, b: seq<Output>)
    requires Paired(a) && Paired(b)
    ensures Paired(a + b)
  {
    forall k | 0 <= k < |a + b|
      ensures PairedAt(a + b, k)
    {
      if k < |a| { assert PairedAt(a, k); } else { assert PairedAt(b, k - |a|); }
    }
  }

  lemma ClosingPaired(c: Conn, pending: bool)
    ensures Paired(Closing(c, pending))
  {
  }

  lemma SendingPaired(c: Conn, due: Option<Message>, pending: bool, accepted: bool)
    ensures Paired(Sending(c, due, pending, accepted))
  {
    ClosingPaired(c, pending);
  }

  lemma RequestPaired(a: seq<Output>, b: seq<Output>, d: seq<Output>)
    requires Paired(a) && Paired(b) && Paired(d)
    ensures Paired(a + b + d)
  {
    PairedTogether(a, b);
    PairedTogether(a + b, d);
  }

  /** What an event adds to the trace. */
  ghost predicate AddsPaired(c: Conn, c': Conn) {
    exists added :: c'.out == c.out + added && Paired(added)
  }

  lemma RequestAddsPaired(c: Conn, payload: seq<byte>, result: FilterResult, accepted: bool)
    requires PoolBalanced(c) && RequestPayload(payload)
    ensures AddsPaired(c, ActivationRequest(c, payload, result, accepted))
  {
    var due := RequestDue(c, Source(payload), result);
    var oem := if |payload| == 11 then Some([payload[7], payload[8], payload[9], payload[10]]) else None;
    var asked := FilterAsked(Join16(payload[0], payload[1]), payload[2], oem, false);
    var sent := if due.None? then [ActivationRequested] else Sending(c, due, c.aliveCheckPending, accepted);
    RequestCalls(c, payload, result, accepted);
    SendingPaired(c, due, c.aliveCheckPending, accepted);
    RequestPaired([asked], sent, [EndReceive]);
  }

  lemma ActivationAddsPaired(c: Conn, e: Event)
    requires PoolBalanced(c) && Enabled(c, e) && e.ActivationDone?
    ensures AddsPaired(c, Step(c, e))
  {
    CallsOfEvent(c, e);
    if c.state == ACTIVATING {
      var told := if e.success then [RoutingActiveCallback] else [];
      var sent := Sending(c, Due(c, e), c.aliveCheckPending, e.accepted);
      assert Step(c, e).out == c.out + (sent + told);
      SendingPaired(c, Due(c, e), c.aliveCheckPending, e.accepted);
      PairedTogether(sent, told);
    } else {
      assert Step(c, e).out == c.out + [];
    }
  }

  lemma BothPaired(c: Conn, c': Conn, first: seq<Output>, second: seq<Output>)
    requires c'.out == c.out + (first + second) && Paired(first) && Paired(second)
    ensures AddsPaired(c, c')
  {
    PairedTogether(first, second);
  }

  lemma ExpiryAddsPaired(c: Conn)
    ensures AddsPaired(c, TimerExpired(c))
  {
    TimerCalls(c);
    ClosingPaired(c, c.aliveCheckPending);
    var closing := if c.state == INACTIVE || c.state == ACTIVE then Closing(c, c.aliveCheckPending) else [];
    var abort := if c.state == ACTIVE && !c.aliveCheckPending then [AbortMode] else [];
    BothPaired(c, TimerExpired(c), abort, closing);
  }

  lemma ResponseAddsPaired(c: Conn, payload: seq<byte>)
    requires |payload| == 2
    ensures AddsPaired(c, AliveResponse(c, payload))
  {
    var expected := Join16(payload[0], payload[1]) == c.sourceAddress;
    ResponseCalls(c, payload);
    ClosingPaired(c, false);
    BothPaired(c, AliveResponse(c, payload), if c.aliveCheckPending then [AliveAnswer(expected)] else [],
               if expected then [EndReceive] else Closing(c, false));
  }

  lemma CheckAddsPaired(c: Conn, accepted: bool)
    requires PoolBalanced(c)
    ensures AddsPaired(c, StartAliveCheck(c, accepted))
  {
    var due := if c.state == ACTIVE then Some(Message(ALIVE_CHECK_REQUEST, [], false)) else None;
    CheckCalls(c, accepted);
    SendingPaired(c, due, true, accepted);
    BothPaired(c, StartAliveCheck(c, accepted), [], if c.state == ACTIVE then Sending(c, due, true, accepted)
                                                    else if c.started then [AliveAnswer(false)] else []);
  }

  lemma HeaderAddsPaired(c: Conn, header: Header, versionOk: bool, answers: seq<bool>, receives: bool, accepted: bool)
    requires PoolBalanced(c)
    ensures AddsPaired(c, HeaderReceived(c, header, versionOk, answers, receives, accepted))
  {
    var due := HeaderDue(c, header, versionOk, answers);
    HeaderCalls(c, header, versionOk, answers, receives, accepted);
    SendingPaired(c, due, c.aliveCheckPending, accepted);
    BothPaired(c, HeaderReceived(c, header, versionOk, answers, receives, accepted), [],
               if due.Some? then Sending(c, due, c.aliveCheckPending, accepted) else Received(header, receives));
  }

  lemma CloseAddsPaired(c: Conn)
    ensures AddsPaired(c, CloseNow(c))
  {
    CloseCalls(c);
    ClosingPaired(c, c.aliveCheckPending);
  }

  lemma ReturnAddsPaired(c: Conn, id: nat)
    requires id in c.inFlight
    ensures AddsPaired(c, JobDone(c, id))
  {
    ReturnCalls(c, id);
    ClosingPaired(c, c.aliveCheckPending);
    BothPaired(c, JobDone(c, id), [], if c.inFlight[id].closeAfterSend then Closing(c, c.aliveCheckPending) else []);
  }

  lemma StartAddsPaired(c: Conn, internalAddress: bv16)
    ensures AddsPaired(c, Start(c, internalAddress))
  {
    StartCalls(c, internalAddress);
    var added := Start(c, internalAddress).out[|c.out|..];
    assert Start(c, internalAddress).out == c.out + added;
  }

  lemma StepPaired(c: Conn, e: Event)
    requires PoolBalanced(c) && Enabled(c, e)
    ensures AddsPaired(c, Step(c, e))
  {
    match e {
      case Started(internalAddress) => StartAddsPaired(c, internalAddress);
      case CloseCalled => CloseAddsPaired(c);
      case PeerClosed => CloseAddsPaired(c);
      case AliveCheckStarted(accepted) => CheckAddsPaired(c, accepted);
      case ActivationDone(_, _, _) => ActivationAddsPaired(c, e);
      case HeaderIn(header, versionOk, answers, receives, accepted) =>
        HeaderAddsPaired(c, header, versionOk, answers, receives, accepted);
      case ActivationPayload(payload, result, accepted) => RequestAddsPaired(c, payload, result, accepted);
      case AlivePayload(payload) => ResponseAddsPaired(c, payload);
      case TimerFired => ExpiryAddsPaired(c);
      case JobReturned(id) => ReturnAddsPaired(c, id);
      case _ => assert Step(c, e).out == c.out + [];
    }
  }

  lemma {:induction false} RunPaired(t: Track, es: seq<Event>)
    requires Consistent(t) && Paired(t.c.out)
    ensures Paired(After(t, es).c.out)
  {
    if es == [] {
    } else {
      var before, e := After(t, es[..|es| - 1]), es[|es| - 1];
      RunPaired(t, es[..|es| - 1]);
      AfterConsistent(t, es[..|es| - 1]);
      if Enabled(before.c, e) {
        StepPaired(before.c, e);
        var added :| Step(before.c, e).out == before.c.out + added && Paired(added);
        PairedTogether(before.c.out, added);
      }
    }
  }

  lemma NextExtends(t: Track, e: Event)
    requires Consistent(t)
    ensures t.c.out <= Next(t, e).c.out
  {
    if Enabled(t.c, e) { StepPaired(t.c, e); }
  }

  lemma {:induction false} TraceExtends(t: Track, es: seq<Event>, n: nat)
    requires Consistent(t) && n <= |es|
    ensures After(t, es[..n]).c.out <= After(t, es).c.out
  {
    if n == |es| {
      assert es[..n] == es;
    } else {
      var k := |es| - 1;
      assert es[..k][..n] == es[..n];
      TraceExtends(t, es[..k], n);
      AfterConsistent(t, es[..k]);
      NextExtends(After(t, es[..k]), es[k]);
    }
  }

  /** The calls that decide a check by closing stand in the trace from position k. */
  ghost predicate StandsAt(out: seq<Output>, k: nat, answerFirst: bool) {
    && k + 3 <= |out|
    && out[k..k + 3] == if answerFirst then [AliveAnswer(false), ConnectionClose, ConnectionClosedCallback]
                        else [ConnectionClose, ConnectionClosedCallback, AliveAnswer(false)]
  }

  lemma FromThere(out: seq<Output>, k: nat, calls: seq<Output>)
    requires k <= |out| && out[k..] == calls && |calls| >= 3
    ensures k + 3 <= |out| && out[k..k + 3] == calls[..3]
  {
  }

  /** Where the calls of an event that closes begin. */
  function Offset(e: Event): nat { if e.ActivationPayload? then 1 else 0 }

  lemma ClosesInOrder(c: Conn, h: History, e: Event)
    requires Inv(c, h) && Enabled(c, e) && ClosesChecked(c, e)
    ensures StandsAt(Step(c, e).out, |c.out| + Offset(e), e.AlivePayload?)
  {
    CheckAnsweredLast(c, h, e);
    var k, out := |c.out| + Offset(e), Step(c, e).out;
    FromThere(out, k, out[k..]);
  }

  predicate ClosesCheckedAt(t: Track, e: Event) { Enabled(t.c, e) && ClosesChecked(t.c, e) }

  lemma NextInOrder(t: Track, e: Event, next: Track)
    requires Consistent(t) && ClosesCheckedAt(t, e) && next == Next(t, e)
    ensures StandsAt(next.c.out, |t.c.out| + Offset(e), e.AlivePayload?)
  {
    ClosesInOrder(t.c, t.h, e);
  }

  lemma AfterUpTo(t: Track, es: seq<Event>, n: nat)
    requires n < |es|
    ensures After(t, es[..n + 1]) == Next(After(t, es[..n]), es[n])
  {
    AfterOne(t, es[..n], es[n]);
    assert es[..n + 1] == es[..n] + [es[n]];
  }

  lemma StillStands(out: seq<Output>, out': seq<Output>, k: nat, answerFirst: bool)
    requires StandsAt(out, k, answerFirst) && out <= out'
    ensures StandsAt(out', k, answerFirst)
  {
    assert out'[k..k + 3] == out[k..k + 3];
  }

  /** The calls that the n-th event of a run adds when it decides a check by closing. */
  lemma NthInOrder(t: Track, es: seq<Event>, n: nat)
    requires Consistent(t) && n < |es| && ClosesCheckedAt(After(t, es[..n]), es[n])
    ensures StandsAt(After(t, es[..n + 1]).c.out, |After(t, es[..n]).c.out| + Offset(es[n]), es[n].AlivePayload?)
  {
    AfterConsistent(t, es[..n]);
    AfterUpTo(t, es, n);
    NextInOrder(After(t, es[..n]), es[n], After(t, es[..n + 1]));
  }

  lemma ClosingStands(t: Track, es: seq<Event>, n: nat)
    requires Consistent(t) && n < |es| && ClosesCheckedAt(After(t, es[..n]), es[n])
    ensures StandsAt(After(t, es).c.out, |After(t, es[..n]).c.out| + Offset(es[n]), es[n].AlivePayload?)
  {
    NthInOrder(t, es, n);
    TraceExtends(t, es, n + 1);
    StillStands(After(t, es[..n + 1]).c.out, After(t, es).c.out, |After(t, es[..n]).c.out| + Offset(es[n]),
                es[n].AlivePayload?);
  }

  /** In the trace of every run each closing of the connection is followed at once by the closing
      callback; and whatever follows later, the closing that the n-th event brings about while an alive
      check is outstanding stands in the trace in the order of the original: connection, callback,
      answer. Only an answer that is itself the cause of the closing comes before it. */
  lemma ClosingTrace(entity: bv16, invalidAddress: bv16, capacity: nat, es: seq<Event>, n: nat)
    ensures var t := Begin(entity, invalidAddress, capacity);
      var out := After(t, es).c.out;
      && Paired(out)
      && (n < |es| && ClosesCheckedAt(After(t, es[..n]), es[n]) ==>
          var k := |After(t, es[..n]).c.out| + if es[n].ActivationPayload? then 1 else 0;
          k + 3 <= |out|
          && out[k..k + 3]
             == if es[n].AlivePayload? then [AliveAnswer(false), ConnectionClose, ConnectionClosedCallback]
                else [ConnectionClose, ConnectionClosedCallback, AliveAnswer(false)])
  {
    var t := Begin(entity, invalidAddress, capacity);
    BeginConsistent(entity, invalidAddress, capacity);
    RunPaired(t, es);
    if n < |es| && ClosesCheckedAt(After(t, es[..n]), es[n]) {
      ClosingStands(t, es, n);
    }
  }
}
