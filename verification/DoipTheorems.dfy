/** The main results about one DoIP connection, over every run from construction. */
module DoipTheorems {
  import opened Wrappers
  import opened Bytes
  import opened DoipModel
  import opened DoipRuns

  /** A connection together with the history of its run. Events that the surrounding code cannot
      produce leave both as they are. */
  datatype Track = Track(c: Conn, h: History)

  function Next(t: Track, e: Event): Track {
    if Enabled(t.c, e) then Track(Step(t.c, e), Noted(t.h, t.c, e)) else t
  }

  function After(t: Track, es: seq<Event>): Track {
    if es == [] then t else Next(After(t, es[..|es| - 1]), es[|es| - 1])
  }

  function Begin(entity: bv16, invalidAddress: bv16, capacity: nat): Track {
    Track(Fresh(entity, invalidAddress, capacity), History(false, false, 0, 0))
  }

  /** The invariant. Every state that a run reaches from construction satisfies it. */
  ghost predicate Consistent(t: Track) { Inv(t.c, t.h) }

  lemma BeginConsistent(entity: bv16, invalidAddress: bv16, capacity: nat)
    ensures Consistent(Begin(entity, invalidAddress, capacity))
  {
  }

  lemma NextConsistent(t: Track, e: Event)
    requires Consistent(t)
    ensures Consistent(Next(t, e))
  {
    if Enabled(t.c, e) { StepKeeps(t.c, t.h, e); }
  }

  lemma {:induction false} AfterConsistent(t: Track, es: seq<Event>)
    requires Consistent(t)
    ensures Consistent(After(t, es))
  {
    if es == [] {
    } else {
      AfterConsistent(t, es[..|es| - 1]);
      NextConsistent(After(t, es[..|es| - 1]), es[|es| - 1]);
    }
  }

  // ----- lifecycle -----

  /** The life of a connection as a message handler is meant to see it. */
  predicate Orderly(calls: seq<HandlerCall>) {
    calls <= [Opened, RoutingActive, Closed] || calls <= [Opened, Closed]
  }

  /** Over every run: the handlers registered before start see an orderly life if and only if no
      successful activation completed with an empty pool; a re-opened connection shows exactly
      opened, closed, routing active and, at its end, closed again. */
  lemma Lifecycle(entity: bv16, invalidAddress: bv16, capacity: nat, es: seq<Event>, i: nat)
    ensures var Track(c, h) := After(Begin(entity, invalidAddress, capacity), es);
      c.started && i < c.early ==>
        && i < |c.handlers|
        && (Orderly(c.handlers[i].calls) <==> !h.reopened)
        && (h.reopened ==>
          c.handlers[i].calls == [Opened, Closed, RoutingActive] + if c.state == SHUTDOWN then [Closed] else [])
  {
    var t := Begin(entity, invalidAddress, capacity);
    BeginConsistent(entity, invalidAddress, capacity);
    AfterConsistent(t, es);
    var Track(c, h) := After(t, es);
    OrderlyLife(c.isOrWasRouting, c.state == SHUTDOWN, h.reopened);
    if c.started && i < c.early { EarlyCalls(c, h, i); }
  }

  /** Of the possible lives exactly those without a re-opening are orderly. */
  lemma OrderlyLife(routing: bool, shutDown: bool, reopened: bool)
    ensures Orderly(Life(routing, shutDown, reopened)) <==> !reopened
  {
    if reopened {
      assert Life(routing, shutDown, reopened)[1] == Closed && Life(routing, shutDown, reopened)[2] == RoutingActive;
    }
  }

  lemma EarlyCalls(c: Conn, h: History, i: nat)
    requires Inv(c, h) && c.started && i < c.early
    ensures i < |c.handlers| && c.handlers[i].calls == Life(c.isOrWasRouting, c.state == SHUTDOWN, h.reopened)
  {
  }

  /** A handler registered later sees what is left of that life. */
  lemma LateHandler(entity: bv16, invalidAddress: bv16, capacity: nat, es: seq<Event>, i: nat)
    ensures var Track(c, h) := After(Begin(entity, invalidAddress, capacity), es);
      i < |c.handlers| ==>
        |c.handlers[i].calls| <= |Expected(c, h.reopened)|
        && c.handlers[i].calls == Expected(c, h.reopened)[|Expected(c, h.reopened)| - |c.handlers[i].calls|..]
  {
    BeginConsistent(entity, invalidAddress, capacity);
    AfterConsistent(Begin(entity, invalidAddress, capacity), es);
  }

  /** The upper callback hears of the closing once at the end of a run, and twice exactly when the
      connection was re-opened in between. */
  lemma ClosedCallback(entity: bv16, invalidAddress: bv16, capacity: nat, es: seq<Event>)
    ensures var Track(c, h) := After(Begin(entity, invalidAddress, capacity), es);
      var closings := multiset(c.out)[ConnectionClosedCallback];
      && (c.state == SHUTDOWN ==> closings >= 1)
      && (closings > 1 <==> h.reopened && c.state == SHUTDOWN)
      && closings <= 2
  {
    BeginConsistent(entity, invalidAddress, capacity);
    AfterConsistent(Begin(entity, invalidAddress, capacity), es);
  }

  /** What happens when a connection is closed and then set active. */
  ghost predicate ClosedAndActive(c: Conn, c': Conn) {
    && c'.state == ACTIVE && c'.timer == Armed(GeneralInactivity)
    && |c'.handlers| == |c.handlers|
    && (forall i :: 0 <= i < |c.handlers| ==> c'.handlers[i].calls == c.handlers[i].calls + [Closed, RoutingActive])
    && c'.out == c.out + [ConnectionClose, ConnectionClosedCallback, RoutingActiveCallback]
  }

  lemma ClosedThenActive(c: Conn)
    requires c.state != SHUTDOWN && !c.aliveCheckPending
    ensures ClosedAndActive(c, Activated(CloseNow(c)))
  {
  }

  /** What the re-opening event does: the connection is closed and every handler told, nothing is
      sent, and then it counts as active again with a running timer. */
  lemma ReopeningShape(t: Track, e: Event)
    requires Consistent(t) && Enabled(t.c, e) && Reopens(t.c, e)
    ensures ClosedAndActive(t.c, Next(t, e).c)
  {
    var p := ResponsePayload(t.c.sourceAddress, t.c.entity, e.code);
    NothingToSend(t.c, ROUTING_ACTIVATION_RESPONSE, p, false, e.accepted);
    ClosedThenActive(t.c);
    assert Next(t, e).c == Activated(CloseNow(t.c));
  }

  // ----- alive checks -----

  /** Over every run: each alive check requested after start has been answered once or is the one
      outstanding check; the only surplus answers are responses delivered after shutdown. */
  lemma AliveCheckAccounting(entity: bv16, invalidAddress: bv16, capacity: nat, es: seq<Event>)
    ensures var Track(c, h) := After(Begin(entity, invalidAddress, capacity), es);
      Answers(c) + Outstanding(c) == h.requests + h.late
  {
    BeginConsistent(entity, invalidAddress, capacity);
    AfterConsistent(Begin(entity, invalidAddress, capacity), es);
  }

  // ----- send jobs -----

  /** Over every run: no slot is lost, and the jobs allocated so far are exactly those in flight or
      released, each in one of the two places and released at most once. */
  lemma SendJobConservation(entity: bv16, invalidAddress: bv16, capacity: nat, es: seq<Event>, id: nat)
    ensures var c := After(Begin(entity, invalidAddress, capacity), es).c;
      && c.free + |c.inFlight| == c.capacity
      && (id < c.nextJob <==> id in c.inFlight || id in c.released)
      && multiset(c.released)[id] == (if id in c.released then 1 else 0)
      && !(id in c.inFlight && id in c.released)
  {
    BeginConsistent(entity, invalidAddress, capacity);
    AfterConsistent(Begin(entity, invalidAddress, capacity), es);
    var c := After(Begin(entity, invalidAddress, capacity), es).c;
    NoDuplicates(c.released, id);
    AllAccounted(c.free, c.capacity, c.inFlight, c.released, c.nextJob);
  }

  function Below(n: nat): (below: set<nat>)
    ensures |below| == n
    ensures forall id: nat :: id in below <==> id < n
  {
    if n == 0 then {}
    else
      var s := Below(n - 1) + {n - 1};
      assert forall id: nat :: id in s <==> id < n;
      s
  }

  /** Counting leaves no gap in the numbers of the jobs. */
  lemma AllAccounted(free: nat, capacity: nat, inFlight: map<nat, SendJob>, released: seq<nat>, nextJob: nat)
    requires Balanced(free, capacity, inFlight, released, nextJob)
    ensures forall id: nat :: id < nextJob ==> id in inFlight || id in released
  {
    IdsCounted(released);
    Fills(IdSet(released), inFlight.Keys, nextJob);
  }

  lemma Fills(a: set<nat>, b: set<nat>, n: nat)
    requires a !! b && |a| + |b| == n
    requires forall id :: id in a || id in b ==> id < n
    ensures forall id: nat :: id < n ==> id in a || id in b
  {
    assert |a + b| == n;
    FullSubset(a + b, Below(n));
  }

  lemma FullSubset<T>(a: set<T>, b: set<T>)
    requires a <= b && |a| == |b|
    ensures a == b
  {
    assert |b - a| == 0 by { assert b == a + (b - a); }
  }

  lemma {:induction false} NoDuplicates(s: seq<nat>, x: nat)
    requires forall i, j :: 0 <= i < j < |s| ==> s[i] != s[j]
    ensures multiset(s)[x] == if x in s then 1 else 0
  {
    if s == [] {
    } else {
      var n := |s| - 1;
      NoDuplicates(s[..n], x);
      assert s == s[..n] + [s[n]];
    }
  }

  /** The jobs with the given ids come back, one after the other. */
  function Returns(ids: seq<nat>): (es: seq<Event>)
    ensures |es| == |ids|
  {
    seq(|ids|, i requires 0 <= i < |ids| => JobReturned(ids[i]))
  }

  function IdSet(ids: seq<nat>): set<nat> { set id | id in ids }

  ghost predicate HasClosing(inFlight: map<nat, SendJob>, ids: set<nat>) {
    exists id :: id in ids && id in inFlight && inFlight[id].closeAfterSend
  }

  ghost predicate DrainedTo(c: Conn, ids: seq<nat>, d: Conn) {
    && d.started == c.started
    && d.inFlight == c.inFlight - IdSet(ids)
    && d.free == c.free + |ids|
    && d.state == if HasClosing(c.inFlight, IdSet(ids)) then SHUTDOWN else c.state
  }

  lemma JobDoneEffect(c: Conn, id: nat)
    requires id in c.inFlight
    ensures var d := JobDone(c, id);
      && d.started == c.started && d.inFlight == c.inFlight - {id} && d.free == c.free + 1
      && d.state == if c.inFlight[id].closeAfterSend then SHUTDOWN else c.state
  {
    CloseFrame(Release(c, id));
  }

  lemma ReturnOne(c: Conn, ids: seq<nat>, d: Conn, id: nat)
    requires DrainedTo(c, ids, d) && id in c.inFlight && id !in ids
    ensures id in d.inFlight && DrainedTo(c, ids + [id], JobDone(d, id))
  {
    JobDoneEffect(d, id);
    assert IdSet(ids + [id]) == IdSet(ids) + {id};
    assert c.inFlight - IdSet(ids + [id]) == (c.inFlight - IdSet(ids)) - {id};
    if HasClosing(c.inFlight, IdSet(ids)) {
      var k :| k in IdSet(ids) && k in c.inFlight && c.inFlight[k].closeAfterSend;
      assert k in IdSet(ids + [id]);
    }
    if c.inFlight[id].closeAfterSend {
      assert id in IdSet(ids + [id]);
    }
  }

  predicate NoRepeats(ids: seq<nat>) {
    forall i, j :: 0 <= i < j < |ids| ==> ids[i] != ids[j]
  }

  lemma {:induction false} Drain(t: Track, ids: seq<nat>)
    requires t.c.started && NoRepeats(ids) && IdSet(ids) <= t.c.inFlight.Keys
    ensures DrainedTo(t.c, ids, After(t, Returns(ids)).c)
  {
    if ids == [] {
      assert t.c.inFlight - IdSet(ids) == t.c.inFlight;
    } else {
      var n := |ids| - 1;
      assert ids == ids[..n] + [ids[n]];
      assert ids[n] in IdSet(ids);
      assert Returns(ids)[..n] == Returns(ids[..n]);
      Drain(t, ids[..n]);
      ReturnOne(t.c, ids[..n], After(t, Returns(ids[..n])).c, ids[n]);
    }
  }

  /** When all jobs in flight of a closing connection come back one after the other, in any order,
      the pool is full, and the connection is shut down exactly if one of them was a
      close-after-send job. There always is one unless the connection refused such a job. */
  lemma ReturnsClose(t: Track, ids: seq<nat>)
    requires Consistent(t) && t.c.state == CLOSING
    requires NoRepeats(ids) && IdSet(ids) == t.c.inFlight.Keys
    ensures var d := After(t, Returns(ids)).c;
      && d.inFlight == map[] && d.free == t.c.capacity
      && (d.state == SHUTDOWN <==> CloseInFlight(t.c.inFlight))
      && (!RefusedClose(t.c.out) ==> d.state == SHUTDOWN)
  {
    Drain(t, ids);
    IdsCounted(ids);
    assert t.c.inFlight - t.c.inFlight.Keys == map[];
    if CloseInFlight(t.c.inFlight) {
      var id :| id in t.c.inFlight && t.c.inFlight[id].closeAfterSend;
      assert id in IdSet(ids);
    }
  }

  lemma {:induction false} IdsCounted(ids: seq<nat>)
    requires NoRepeats(ids)
    ensures |IdSet(ids)| == |ids|
  {
    if ids == [] {
    } else {
      var n := |ids| - 1;
      IdsCounted(ids[..n]);
      assert IdSet(ids) == IdSet(ids[..n]) + {ids[n]};
    }
  }

  // ----- the stuck corner -----

  lemma AfterOne(t: Track, es: seq<Event>, e: Event)
    ensures After(t, es + [e]) == Next(After(t, es), e)
  {
    assert (es + [e])[..|es|] == es;
  }

  /** A refused close-after-send job leaves a closing connection with nothing in flight and no timer:
      here after one header with a wrong version. */
  lemma StuckClosing(entity: bv16, invalidAddress: bv16, header: Header)
    ensures var es := [Started(invalidAddress)] + [HeaderIn(header, false, [], false, false)] + [TimerFired];
      var c := After(Begin(entity, invalidAddress, 1), es).c;
      c.state == CLOSING && c.inFlight == map[] && c.timer == Idle
  {
    var t := Begin(entity, invalidAddress, 1);
    var e0, e1, e2 := Started(invalidAddress), HeaderIn(header, false, [], false, false), TimerFired;
    AfterOne(t, [], e0);
    assert [] + [e0] == [e0];
    AfterOne(t, [e0], e1);
    AfterOne(t, [e0] + [e1], e2);
    StartedFresh(entity, invalidAddress);
    RefusedNack(Next(t, e0), header);
  }

  lemma StartedFresh(entity: bv16, invalidAddress: bv16)
    ensures var c := Next(Begin(entity, invalidAddress, 1), Started(invalidAddress)).c;
      c.started && c.state == INACTIVE && c.free == 1 && c.inFlight == map[]
  {
  }

  lemma RefusedNack(t: Track, header: Header)
    requires t.c.started && t.c.state == INACTIVE && t.c.free == 1 && t.c.inFlight == map[]
    ensures var c := Next(t, HeaderIn(header, false, [], false, false)).c;
      c.started && c.state == CLOSING && c.inFlight == map[]
  {
  }

  // ----- the re-opening corner -----

  predicate Unlisted(payloadType: bv16) {
    !Silent(payloadType) && payloadType != ROUTING_ACTIVATION_REQUEST && payloadType != ALIVE_CHECK_RESPONSE
  }

  lemma OpenedWithHandler(entity: bv16, invalidAddress: bv16)
    ensures var t := Next(Next(Begin(entity, invalidAddress, 1), AddMessageHandler), Started(invalidAddress));
      t.c.started && t.c.state == INACTIVE && t.c.free == 1 && t.c.early == 1 && !t.h.reopened
  {
  }

  lemma PoolTaken(t: Track, header: Header)
    requires t.c.started && t.c.state == INACTIVE && t.c.free == 1 && Unlisted(header.payloadType) && !t.h.reopened
    ensures var t' := Next(t, HeaderIn(header, true, [], false, true));
      t'.c.started && t'.c.state == INACTIVE && t'.c.free == 0 && t'.c.early == t.c.early && !t'.h.reopened
  {
    Untaken(t.c, header, [], true);
  }

  lemma Bound(t: Track, payload: seq<byte>, code: byte, internalAddress: bv16)
    requires t.c.started && t.c.state == INACTIVE && t.c.free == 0 && RequestPayload(payload)
    ensures var t' := Next(t, ActivationPayload(payload, FilterResult(Continue, code, internalAddress), true));
      t'.c.started && t'.c.state == ACTIVATING && t'.c.free == 0 && t'.c.early == t.c.early
  {
  }

  lemma ReopenedThenClosed(t: Track, code: byte)
    requires Consistent(t) && t.c.started && t.c.state == ACTIVATING && t.c.free == 0
    ensures var t' := Next(Next(t, ActivationDone(true, code, true)), PeerClosed);
      t'.c.started && t'.c.state == SHUTDOWN && t'.c.early == t.c.early && t'.h.reopened
  {
    var p := ResponsePayload(t.c.sourceAddress, t.c.entity, code);
    var reopened := Next(t, ActivationDone(true, code, true));
    NothingToSend(t.c, ROUTING_ACTIVATION_RESPONSE, p, false, true);
    CloseFrame(t.c);
    assert reopened.c == Activated(CloseNow(t.c));
    CloseFrame(reopened.c);
  }

  /** A run that re-opens a closed connection: with one pool slot taken by an unanswered NACK, a
      successful activation closes and re-opens; the later close by the peer is reported to the
      message handler and to the callback a second time. */
  lemma ReopeningRun(entity: bv16, invalidAddress: bv16, header: Header, payload: seq<byte>, code: byte)
    requires Unlisted(header.payloadType) && RequestPayload(payload)
    ensures var es := [AddMessageHandler] + [Started(invalidAddress)] + [HeaderIn(header, true, [], false, true)]
        + [ActivationPayload(payload, FilterResult(Continue, code, 0), true)]
        + [ActivationDone(true, code, true)] + [PeerClosed];
      var c := After(Begin(entity, invalidAddress, 1), es).c;
      && |c.handlers| >= 1 && c.handlers[0].calls == [Opened, Closed, RoutingActive, Closed]
      && multiset(c.out)[ConnectionClosedCallback] == 2
  {
    var t := Begin(entity, invalidAddress, 1);
    var e0, e1 := AddMessageHandler, Started(invalidAddress);
    var e2 := HeaderIn(header, true, [], false, true);
    var e3 := ActivationPayload(payload, FilterResult(Continue, code, 0), true);
    var e4, e5 := ActivationDone(true, code, true), PeerClosed;
    SixEvents(t, e0, e1, e2, e3, e4, e5);
    OpenedWithHandler(entity, invalidAddress);
    BeginConsistent(entity, invalidAddress, 1);
    NextConsistent(t, e0);
    NextConsistent(Next(t, e0), e1);
    Replayed(Next(Next(t, e0), e1), header, payload, code);
  }

  lemma SixEvents(t: Track, e0: Event, e1: Event, e2: Event, e3: Event, e4: Event, e5: Event)
    ensures After(t, [e0] + [e1] + [e2] + [e3] + [e4] + [e5])
         == Next(Next(Next(Next(Next(Next(t, e0), e1), e2), e3), e4), e5)
  {
    assert [] + [e0] == [e0];
    AfterOne(t, [], e0);
    AfterOne(t, [e0], e1);
    AfterOne(t, [e0] + [e1], e2);
    AfterOne(t, [e0] + [e1] + [e2], e3);
    AfterOne(t, [e0] + [e1] + [e2] + [e3], e4);
    AfterOne(t, [e0] + [e1] + [e2] + [e3] + [e4], e5);
  }

  lemma Replayed(t: Track, header: Header, payload: seq<byte>, code: byte)
    requires Consistent(t) && t.c.started && t.c.state == INACTIVE && t.c.free == 1 && t.c.early == 1 && !t.h.reopened
    requires Unlisted(header.payloadType) && RequestPayload(payload)
    ensures var e3 := ActivationPayload(payload, FilterResult(Continue, code, 0), true);
      var t' := Next(Next(Next(Next(t, HeaderIn(header, true, [], false, true)), e3),
        ActivationDone(true, code, true)), PeerClosed);
      && |t'.c.handlers| >= 1 && t'.c.handlers[0].calls == [Opened, Closed, RoutingActive, Closed]
      && multiset(t'.c.out)[ConnectionClosedCallback] == 2
  {
    var t1 := Next(t, HeaderIn(header, true, [], false, true));
    var t2 := Next(t1, ActivationPayload(payload, FilterResult(Continue, code, 0), true));
    var t3 := Next(t2, ActivationDone(true, code, true));
    NextConsistent(t, HeaderIn(header, true, [], false, true));
    NextConsistent(t1, ActivationPayload(payload, FilterResult(Continue, code, 0), true));
    NextConsistent(t2, ActivationDone(true, code, true));
    NextConsistent(t3, PeerClosed);
    PoolTaken(t, header);
    Bound(t1, payload, code, 0);
    ReopenedThenClosed(t2, code);
    ClosedTwice(Next(t3, PeerClosed));
  }

  lemma ClosedTwice(t: Track)
    requires Consistent(t) && t.c.started && t.c.state == SHUTDOWN && t.c.early >= 1 && t.h.reopened
    ensures |t.c.handlers| >= 1 && t.c.handlers[0].calls == [Opened, Closed, RoutingActive, Closed]
    ensures multiset(t.c.out)[ConnectionClosedCallback] == 2
  {
  }

  // ----- order of states, address binding -----

  function Rank(s: ConnState): nat {
    match s
    case INACTIVE => 0
    case ACTIVATING => 1
    case ACTIVE => 2
    case CLOSING => 3
    case SHUTDOWN => 4
  }

  /** The state moves forward, a started connection stays started, and its address is fixed once
      it has left INACTIVE. */
  ghost predicate Forward(c: Conn, c': Conn) {
    && Rank(c.state) <= Rank(c'.state)
    && (c.started ==> c'.started)
    && (c.started && c.state != INACTIVE ==> c'.sourceAddress == c.sourceAddress)
    && c'.entity == c.entity && c'.capacity == c.capacity
  }

  lemma SendForward(c: Conn, payloadType: bv16, payload: seq<byte>, closeAfterSend: bool, accepted: bool)
    ensures var c' := SendOrClose(c, payloadType, payload, closeAfterSend, accepted);
      c.state != SHUTDOWN ==>
        Rank(c.state) <= Rank(c'.state) && SameLine(c, c')
  {
    StaysStarted(c, payloadType, payload, closeAfterSend, accepted);
  }

  lemma NackForward(c: Conn, code: byte, closeAfterSend: bool, accepted: bool)
    ensures var c' := SendNack(c, code, closeAfterSend, accepted);
      Rank(c.state) <= Rank(c'.state) && SameLine(c, c')
  {
    SendForward(c, NEGATIVE_ACK, [code], closeAfterSend, accepted);
  }

  lemma ResponseForward(c: Conn, tester: bv16, code: byte, closeAfterSend: bool, accepted: bool)
    ensures var c' := SendResponse(c, tester, code, closeAfterSend, accepted);
      Rank(c.state) <= Rank(c'.state) && SameLine(c, c')
  {
    SendForward(c, ROUTING_ACTIVATION_RESPONSE, ResponsePayload(tester, c.entity, code), closeAfterSend, accepted);
  }

  lemma HeaderDefaultForward(c: Conn, header: Header, answers: seq<bool>, accepted: bool)
    ensures Forward(c, HeaderDefault(c, header, answers, accepted))
  {
    NackForward(Offer(c, header, |c.handlers|), NACK_UNKNOWN_PAYLOAD_TYPE, false, accepted);
  }

  lemma RearmForward(c: Conn, c': Conn)
    requires Forward(Rearmed(c), c')
    ensures Forward(c, c')
  {
  }

  lemma HeaderActivationForward(c: Conn, header: Header, receives: bool, accepted: bool)
    ensures Forward(c, HeaderActivation(c, header, receives, accepted))
  {
    NackForward(c, NACK_INVALID_PAYLOAD_LENGTH, true, accepted);
  }

  lemma HeaderAliveForward(c: Conn, header: Header, receives: bool, accepted: bool)
    ensures Forward(c, HeaderAlive(c, header, receives, accepted))
  {
    NackForward(c, NACK_INVALID_PAYLOAD_LENGTH, true, accepted);
  }

  lemma HeaderForward(c: Conn, header: Header, versionOk: bool, answers: seq<bool>, receives: bool, accepted: bool)
    ensures Forward(c, HeaderReceived(c, header, versionOk, answers, receives, accepted))
  {
    if !versionOk {
      NackForward(c, NACK_INCORRECT_PATTERN, true, accepted);
    } else {
      if header.payloadType == ROUTING_ACTIVATION_REQUEST {
        HeaderActivationForward(Rearmed(c), header, receives, accepted);
      } else if header.payloadType == ALIVE_CHECK_RESPONSE {
        HeaderAliveForward(Rearmed(c), header, receives, accepted);
      } else if !Silent(header.payloadType) {
        HeaderDefaultForward(Rearmed(c), header, answers, accepted);
      }
      RearmForward(c, HeaderReceived(c, header, true, answers, receives, accepted));
    }
  }

  lemma DecideForward(c: Conn, source: bv16, result: FilterResult, accepted: bool)
    ensures Forward(c, Decide(c, source, result, accepted))
  {
    if result.action != Continue {
      ResponseForward(c, source, result.responseCode, result.action == Reject, accepted);
    } else if c.state != INACTIVE {
      ResponseForward(c, source, ROUTING_SUCCESS, false, accepted);
      ResponseForward(c, source, ROUTING_WRONG_SOURCE_ADDRESS, true, accepted);
    }
  }

  lemma ActivationForward(c: Conn, success: bool, code: byte, accepted: bool)
    ensures Forward(c, ActivationCompleted(c, success, code, accepted))
  {
    ResponseForward(c, c.sourceAddress, code, !success, accepted);
  }

  lemma AliveCheckForward(c: Conn, accepted: bool)
    ensures Forward(c, StartAliveCheck(c, accepted))
  {
    if c.state == ACTIVE {
      var asked := c.(aliveCheckPending := true, timer := Armed(AliveCheckTimeout));
      SendForward(asked, ALIVE_CHECK_REQUEST, [], false, accepted);
    }
  }

  lemma RequestForward(c: Conn, payload: seq<byte>, result: FilterResult, accepted: bool)
    requires RequestPayload(payload)
    ensures Forward(c, ActivationRequest(c, payload, result, accepted))
  {
    var source := Join16(payload[0], payload[1]);
    DecideForward(Emit(c, FilterAsked(source, payload[2], OemField(payload), false)), source, result, accepted);
  }

  lemma CloseForward(c: Conn)
    ensures Forward(c, CloseNow(c))
  {
    CloseFrame(c);
  }

  lemma AliveResponseForward(c: Conn, payload: seq<byte>)
    requires |payload| == 2
    ensures Forward(c, AliveResponse(c, payload))
  {
    var expected := Join16(payload[0], payload[1]) == c.sourceAddress;
    AnsweredForward(c, expected);
    CloseForward(Answered(c, expected));
    assert Forward(Answered(c, expected), Emit(Answered(c, expected), EndReceive));
    ForwardChain(c, Answered(c, expected), AliveResponse(c, payload));
  }

  lemma AnsweredForward(c: Conn, expected: bool)
    ensures Forward(c, Answered(c, expected))
  {
  }

  lemma ForwardChain(a: Conn, b: Conn, c: Conn)
    requires Forward(a, b) && b.started == a.started && b.state == a.state && Forward(b, c)
    ensures Forward(a, c)
  {
  }

  lemma TimerForward(c: Conn)
    ensures Forward(c, TimerExpired(c))
  {
    ExpiryCases(c);
    CloseFrame(StopTimer(c));
    CloseFrame(Emit(StopTimer(c), AbortMode));
  }

  lemma StartForward(c: Conn, internalAddress: bv16)
    ensures Forward(c, Start(c, internalAddress))
  {
  }

  lemma StepForward(c: Conn, e: Event)
    requires Enabled(c, e) && (c.started || c.state == INACTIVE || c.state == ACTIVE)
    ensures Forward(c, Step(c, e))
  {
    match e {
      case AddMessageHandler =>
      case Resumed(address) =>
      case Started(internalAddress) => StartForward(c, internalAddress);
      case CloseCalled => CloseForward(c);
      case PeerClosed => CloseForward(c);
      case AliveCheckStarted(accepted) => AliveCheckForward(c, accepted);
      case ActivationDone(success, code, accepted) => ActivationForward(c, success, code, accepted);
      case HeaderIn(header, versionOk, answers, receives, accepted) =>
        HeaderForward(c, header, versionOk, answers, receives, accepted);
      case ActivationPayload(payload, result, accepted) => RequestForward(c, payload, result, accepted);
      case AlivePayload(payload) => AliveResponseForward(c, payload);
      case TimerFired => TimerForward(c);
      case JobReturned(id) => JobDoneForward(c, id);
      case ShutdownCalled =>
    }
  }

  lemma NextForward(t: Track, e: Event)
    requires Consistent(t)
    ensures Forward(t.c, Next(t, e).c)
  {
    if Enabled(t.c, e) {
      StepForward(t.c, e);
    }
  }

  lemma JobDoneForward(c: Conn, id: nat)
    requires id in c.inFlight
    ensures Forward(c, JobDone(c, id))
  {
    CloseFrame(Release(c, id));
  }

  /** Between any two points of a run the state moves only forward in INACTIVE, ACTIVATING, ACTIVE,
      CLOSING, SHUTDOWN, and the source address of a started connection that has left INACTIVE
      never changes. */
  lemma {:induction false} StateOrder(t: Track, es: seq<Event>)
    requires Consistent(t)
    ensures Forward(t.c, After(t, es).c)
  {
    if es == [] {
    } else {
      StateOrder(t, es[..|es| - 1]);
      AfterConsistent(t, es[..|es| - 1]);
      NextForward(After(t, es[..|es| - 1]), es[|es| - 1]);
      assert Rank(t.c.state) > 0 ==> Rank(After(t, es[..|es| - 1]).c.state) > 0;
    }
  }

  // ----- timer -----

  /** Over every run without shutdown(): a started connection that is INACTIVE or ACTIVE has an armed
      timer; when it fires such a connection shuts down, and in the other states nothing but the
      timer changes. A shut-down connection never has an armed timer. */
  lemma TimerGuarantee(entity: bv16, invalidAddress: bv16, capacity: nat, es: seq<Event>)
    ensures var t := After(Begin(entity, invalidAddress, capacity), es);
      var fired := Next(t, TimerFired).c;
      && (t.c.started && !t.h.stopped && (t.c.state == INACTIVE || t.c.state == ACTIVE) ==> t.c.timer.Armed?)
      && (t.c.state == SHUTDOWN ==> t.c.timer == Idle)
      && (t.c.started ==>
        if t.c.state == INACTIVE || t.c.state == ACTIVE then fired.state == SHUTDOWN
        else fired == t.c.(timer := Idle))
  {
    BeginConsistent(entity, invalidAddress, capacity);
    AfterConsistent(Begin(entity, invalidAddress, capacity), es);
    TimerFires(After(Begin(entity, invalidAddress, capacity), es));
  }

  lemma Expiry(c: Conn)
    ensures var fired := TimerExpired(c);
      if c.state == INACTIVE || c.state == ACTIVE then fired.state == SHUTDOWN else fired == c.(timer := Idle)
  {
    ExpiryCases(c);
    CloseFrame(StopTimer(c));
    CloseFrame(Emit(StopTimer(c), AbortMode));
  }

  lemma TimerFires(t: Track)
    ensures var c, fired := t.c, Next(t, TimerFired).c;
      c.started ==>
        if c.state == INACTIVE || c.state == ACTIVE then fired.state == SHUTDOWN else fired == c.(timer := Idle)
  {
    Expiry(t.c);
  }

  // ----- dispatch -----

  /** Nothing but the timer changed, and n messages were consumed without an answer. */
  ghost predicate Consumed(c: Conn, c': Conn, n: nat) {
    && c'.(timer := c.timer, out := c.out) == c
    && c.out <= c'.out && |c'.out| == |c.out| + n
    && forall i :: |c.out| <= i < |c'.out| ==> c'.out[i] == EndReceive
  }

  lemma SilentHeader(c: Conn, e: Event)
    requires c.started && e.HeaderIn? && e.versionOk && Silent(e.header.payloadType)
    ensures Step(c, e) == Emit(Rearmed(c), EndReceive)
  {
  }

  lemma ConsumeOne(c: Conn, d: Conn, n: nat, e: Event)
    requires Consumed(c, d, n)
    requires d.started && e.HeaderIn? && e.versionOk && Silent(e.header.payloadType)
    ensures Consumed(c, Step(d, e), n + 1)
  {
    SilentHeader(d, e);
  }

  /** Any number of acknowledgement headers with a correct version: no job, no state change, no
      answer, nothing offered to the message handlers; each is consumed. */
  lemma {:induction false} AcknowledgementsAreSilent(t: Track, es: seq<Event>)
    requires t.c.started
    requires forall i :: 0 <= i < |es| ==> es[i].HeaderIn? && es[i].versionOk && Silent(es[i].header.payloadType)
    ensures Consumed(t.c, After(t, es).c, |es|)
  {
    if es == [] {
    } else {
      AcknowledgementsAreSilent(t, es[..|es| - 1]);
      ConsumeOne(t.c, After(t, es[..|es| - 1]).c, |es| - 1, es[|es| - 1]);
    }
  }

  /** Who is offered a header: everyone up to the first handler that accepts, or everyone. */
  ghost predicate OfferedInOrder(c: Conn, c': Conn, header: Header, taker: Option<nat>) {
    && |c'.handlers| == |c.handlers|
    && forall i :: 0 <= i < |c.handlers| ==>
      c'.handlers[i].offered == c.handlers[i].offered + if taker.None? || i <= taker.value then [header] else []
  }

  lemma OfferOrder(c: Conn, header: Header, taker: Option<nat>)
    ensures OfferedInOrder(c, Offer(c, header, if taker.None? then |c.handlers| else taker.value + 1), header, taker)
  {
  }

  lemma Untaken(c: Conn, header: Header, answers: seq<bool>, accepted: bool)
    requires FirstAccepting(answers, |c.handlers|).None? && c.state != SHUTDOWN && c.free > 0
    ensures var c' := HeaderDefault(c, header, answers, accepted);
      && OfferedInOrder(c, c', header, None)
      && c'.state == c.state
      && c'.out == c.out + [Sent(SendJob(c.nextJob, NEGATIVE_ACK, [NACK_UNKNOWN_PAYLOAD_TYPE], false), accepted)]
  {
    OfferOrder(c, header, None);
  }

  lemma ClosingOffersNothing(c: Conn)
    ensures |CloseNow(c).handlers| == |c.handlers|
    ensures forall i :: 0 <= i < |c.handlers| ==> CloseNow(c).handlers[i].offered == c.handlers[i].offered
  {
  }

  lemma Unanswerable(c: Conn, header: Header, answers: seq<bool>, accepted: bool)
    requires FirstAccepting(answers, |c.handlers|).None? && (c.state == SHUTDOWN || c.free == 0)
    ensures var c' := HeaderDefault(c, header, answers, accepted);
      OfferedInOrder(c, c', header, None) && c'.state == SHUTDOWN && (c.state == SHUTDOWN ==> c'.out == c.out)
  {
    OfferOrder(c, header, None);
    CloseFrame(Offer(c, header, |c.handlers|));
    ClosingOffersNothing(Offer(c, header, |c.handlers|));
  }

  lemma TakenUp(c: Conn, header: Header, answers: seq<bool>, accepted: bool)
    requires FirstAccepting(answers, |c.handlers|).Some?
    ensures var c' := HeaderDefault(c, header, answers, accepted);
      && OfferedInOrder(c, c', header, FirstAccepting(answers, |c.handlers|))
      && c'.(handlers := c.handlers) == c
  {
    OfferOrder(c, header, FirstAccepting(answers, |c.handlers|));
  }

  /** A header was offered to everyone up to the taker. With a taker, or once the connection is
      shut down, that is all; otherwise the answer is a NACK for an unknown type, or the closing of
      the connection when no job is left. */
  ghost predicate Dispatched(c: Conn, c': Conn, header: Header, taker: Option<nat>, accepted: bool) {
    && OfferedInOrder(c, c', header, taker)
    && (taker.Some? || c.state == SHUTDOWN ==> c'.out == c.out && c'.state == c.state)
    && (taker.None? && c.state != SHUTDOWN ==> c'.state == if c.free == 0 then SHUTDOWN else c.state)
    && (taker.None? && c.state != SHUTDOWN && c.free > 0 ==> c'.out == c.out + [Sent(UnknownType(c), accepted)])
  }

  function UnknownType(c: Conn): SendJob { SendJob(c.nextJob, NEGATIVE_ACK, [NACK_UNKNOWN_PAYLOAD_TYPE], false) }

  lemma DefaultDispatched(c: Conn, header: Header, answers: seq<bool>, accepted: bool)
    ensures Dispatched(c, HeaderDefault(c, header, answers, accepted),
                       header, FirstAccepting(answers, |c.handlers|), accepted)
  {
    if FirstAccepting(answers, |c.handlers|).Some? {
      TakenUp(c, header, answers, accepted);
    } else if c.state != SHUTDOWN && c.free > 0 {
      Untaken(c, header, answers, accepted);
    } else {
      Unanswerable(c, header, answers, accepted);
    }
  }

  lemma RearmDispatched(c: Conn, c': Conn, header: Header, taker: Option<nat>, accepted: bool)
    requires Dispatched(Rearmed(c), c', header, taker, accepted)
    ensures Dispatched(c, c', header, taker, accepted)
  {
  }

  lemma UnlistedHeader(c: Conn, header: Header, answers: seq<bool>, receives: bool, accepted: bool)
    requires Unlisted(header.payloadType)
    ensures HeaderReceived(c, header, true, answers, receives, accepted)
         == HeaderDefault(Rearmed(c), header, answers, accepted)
  {
  }

  /** In every state an unlisted type goes to the first handler, in registration order, that accepts
      it; the handlers before it are offered the header, the ones after it are not. */
  lemma DispatchToFirst(c: Conn, header: Header, answers: seq<bool>, receives: bool, accepted: bool)
    requires Unlisted(header.payloadType)
    ensures Dispatched(c, HeaderReceived(c, header, true, answers, receives, accepted),
                       header, FirstAccepting(answers, |c.handlers|), accepted)
  {
    UnlistedHeader(c, header, answers, receives, accepted);
    DefaultDispatched(Rearmed(c), header, answers, accepted);
    RearmDispatched(c, HeaderDefault(Rearmed(c), header, answers, accepted),
                    header, FirstAccepting(answers, |c.handlers|), accepted);
  }
}
