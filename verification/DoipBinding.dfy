/** To which address a connection gets bound, and by what. */
module DoipBinding {
  import opened Bytes
  import opened DoipMessages
  import opened DoipModel
  import opened DoipReplies
  import opened DoipRuns
  import opened DoipTable
  import opened DoipTheorems
  import opened Wrappers

  // ----- one request -----

  /** The first request that the filter lets continue binds the connection: the source address is the
      number in its first two payload bytes, the internal address comes from the filter. */
  lemma FirstRequestBinds(c: Conn, payload: seq<byte>, result: FilterResult, accepted: bool)
    requires PoolBalanced(c) && c.started && c.state == INACTIVE
    requires |payload| == 7 || |payload| == 11
    requires result.action == Continue
    ensures var c' := Step(c, ActivationPayload(payload, result, accepted));
      && c'.state == ACTIVATING
      && c'.sourceAddress == ((payload[0] as bv16) << 8) | (payload[1] as bv16)
      && Number16(c'.sourceAddress) == 0x100 * Value(payload[0]) + Value(payload[1])
      && c'.internalAddress == result.internalAddress
  {
    var e := ActivationPayload(payload, result, accepted);
    StepCore(c, e);
    SameCore(Step(c, e), CoreStep(CoreOf(c), e, Due(c, e), Named(e), c.free, false));
    JoinedAddress(payload[0], payload[1]);
  }

  /** No other event than this one and a resumption before start changes the source address; the
      internal address changes with it and when a resumed connection starts. */
  lemma AddressesAfter(c: Conn, e: Event)
    requires PoolBalanced(c) && Enabled(c, e)
    ensures var c' := Step(c, e);
      var binds := e.ActivationPayload? && c.state == INACTIVE && e.result.action == Continue;
      && (!binds && !(e.Resumed? && !c.started) ==> c'.sourceAddress == c.sourceAddress)
      && (e.Resumed? && !c.started ==> c'.sourceAddress == e.address)
      && (!binds && !e.Started? ==> c'.internalAddress == c.internalAddress)
      && (e.Started? ==>
          c'.internalAddress == if c.started || c.state == INACTIVE then c.internalAddress else e.internalAddress)
  {
    StepCore(c, e);
    AddressesOfEvent(CoreOf(c), e, Due(c, e), Named(e), c.free, ReturnsClosing(c, e));
    SameCore(Step(c, e), CoreStep(CoreOf(c), e, Due(c, e), Named(e), c.free, ReturnsClosing(c, e)));
  }

  // ----- over every run -----

  /** What bound a connection: nothing yet, a resumption (with the filter's internal address once the
      connection is started), or the payload of an activation request. */
  datatype Origin =
    | Unbound
    | ResumedAs(address: Address)
    | ResumedWith(address: Address, filtered: Address)
    | AskedBy(payload: seq<byte>, filtered: Address)

  /** The origin after an event at a connection with this core. */
  function Originated(o: Origin, started: bool, state: ConnState, e: Event): Origin {
    match e
    case Resumed(address) => if started then o else ResumedAs(Address(address))
    case Started(internalAddress) =>
      if !started && o.ResumedAs? then ResumedWith(o.address, Address(internalAddress)) else o
    case ActivationPayload(payload, result, _) =>
      if state == INACTIVE && result.action == Continue then AskedBy(payload, Address(result.internalAddress)) else o
    case _ => o
  }

  function OriginOf(t: Track, es: seq<Event>): Origin {
    if es == [] then Unbound
    else
      NextOrigin(OriginOf(t, es[..|es| - 1]), After(t, es[..|es| - 1]).c, es[|es| - 1])
  }

  function NextOrigin(o: Origin, c: Conn, e: Event): Origin {
    if Enabled(c, e) then Originated(o, c.started, c.state, e) else o
  }

  /** The two addresses are those of the origin. */
  ghost predicate BoundTo(k: Core, o: Origin, invalid: Address) {
    match o
    case Unbound => k.source == invalid && k.internal == invalid && k.state != ACTIVATING && k.state != ACTIVE
    case ResumedAs(address) => k.source == address && k.internal == invalid && k.state == ACTIVE && !k.started
    case ResumedWith(address, filtered) =>
      k.source == address && k.internal == filtered && k.state != INACTIVE && k.started
    case AskedBy(payload, filtered) =>
      && |payload| >= 2
      && k.source == Address(Source(payload)) && k.internal == filtered && k.state != INACTIVE && k.started
  }

  /** What the surrounding code guarantees about an event, on the core. */
  ghost predicate Arrives(k: Core, e: Event, due: Option<Message>, named: Address) {
    && (e.ActivationPayload? ==>
      && |e.payload| >= 2 && named == Address(Source(e.payload))
      && (due.None? <==> k.state == INACTIVE && e.result.action == Continue))
    && (k.started || e.AddMessageHandler? || e.Resumed? || e.Started? || e.ShutdownCalled?
        || (e.AliveCheckStarted? && k.state != ACTIVE))
    && (k.started || k.state == INACTIVE || k.state == ACTIVE)
  }

  lemma EnabledArrives(c: Conn, h: History, e: Event)
    requires StateConsistent(c, h) && Enabled(c, e)
    ensures Arrives(CoreOf(c), e, Due(c, e), Named(e))
  {
  }

  lemma Rebinds(
    k: Core, e: Event, due: Option<Message>, named: Address, free: nat, closing: bool, o: Origin, invalid: Address)
    requires BoundTo(k, o, invalid) && Arrives(k, e, due, named)
    ensures BoundTo(CoreStep(k, e, due, named, free, closing), Originated(o, k.started, k.state, e), invalid)
  {
    StateOfEvent(k, e, due, named, free, closing);
    AddressesOfEvent(k, e, due, named, free, closing);
    FlagsOfEvent(k, e, due, named, free, closing);
  }

  lemma NextBound(t: Track, e: Event, o: Origin, invalid: Address)
    requires Consistent(t) && Enabled(t.c, e) && BoundTo(CoreOf(t.c), o, invalid)
    ensures BoundTo(CoreOf(Next(t, e).c), Originated(o, t.c.started, t.c.state, e), invalid)
  {
    var k := CoreOf(t.c);
    EnabledArrives(t.c, t.h, e);
    StepCore(t.c, e);
    Rebinds(k, e, Due(t.c, e), Named(e), t.c.free, ReturnsClosing(t.c, e), o, invalid);
    assert Next(t, e).c == Step(t.c, e);
  }

  lemma {:induction false} RunBound(t: Track, es: seq<Event>, invalidAddress: bv16)
    requires Consistent(t) && BoundTo(CoreOf(t.c), Unbound, Address(invalidAddress))
    ensures BoundTo(CoreOf(After(t, es).c), OriginOf(t, es), Address(invalidAddress))
  {
    if es == [] {
    } else {
      var before, e := After(t, es[..|es| - 1]), es[|es| - 1];
      RunBound(t, es[..|es| - 1], invalidAddress);
      AfterConsistent(t, es[..|es| - 1]);
      if Enabled(before.c, e) { NextBound(before, e, OriginOf(t, es[..|es| - 1]), Address(invalidAddress)); }
    }
  }

  /** Over every run: a connection is bound to the address it was resumed with or to the one whose
      request was the first that the filter let continue; one that is ACTIVATING or ACTIVE was bound. */
  lemma BoundToTheFirst(entity: bv16, invalidAddress: bv16, capacity: nat, es: seq<Event>)
    ensures var t := Begin(entity, invalidAddress, capacity);
      var c := After(t, es).c;
      match OriginOf(t, es)
      case Unbound =>
        c.sourceAddress == c.internalAddress == invalidAddress && c.state != ACTIVATING && c.state != ACTIVE
      case ResumedAs(address) => c.sourceAddress == address.word && c.internalAddress == invalidAddress && !c.started
      case ResumedWith(address, filtered) => c.sourceAddress == address.word && c.internalAddress == filtered.word
      case AskedBy(payload, filtered) =>
        && |payload| >= 2
        && c.sourceAddress == ((payload[0] as bv16) << 8) | (payload[1] as bv16)
        && Number16(c.sourceAddress) == 0x100 * Value(payload[0]) + Value(payload[1])
        && c.internalAddress == filtered.word
  {
    var t := Begin(entity, invalidAddress, capacity);
    BeginConsistent(entity, invalidAddress, capacity);
    RunBound(t, es, invalidAddress);
    SameCore(After(t, es).c, CoreOf(After(t, es).c));
    var o := OriginOf(t, es);
    if o.AskedBy? { JoinedAddress(o.payload[0], o.payload[1]); }
  }

  // ----- who asked -----

  /** The event lets the filter bind the connection. */
  predicate Asks(t: Track, e: Event) {
    e.ActivationPayload? && Enabled(t.c, e) && t.c.state == INACTIVE && e.result.action == Continue
  }

  /** The connection is started and was bound or closed. */
  predicate LeftInactive(c: Conn) { c.started && c.state != INACTIVE }

  lemma BoundLeft(c: Conn, o: Origin, invalid: Address)
    requires BoundTo(CoreOf(c), o, invalid) && o.AskedBy?
    ensures LeftInactive(c)
  {
  }

  lemma KeepsOrigin(c: Conn, e: Event, o: Origin)
    requires LeftInactive(c) && !o.ResumedAs?
    ensures NextOrigin(o, c, e) == o
  {
  }

  lemma AskedNow(t: Track, e: Event, o: Origin)
    requires Asks(t, e)
    ensures NextOrigin(o, t.c, e) == AskedBy(e.payload, Address(e.result.internalAddress))
  {
  }

  lemma {:induction false} AskedFrom(t: Track, es: seq<Event>, n: nat, invalidAddress: bv16)
    requires Consistent(t) && BoundTo(CoreOf(t.c), Unbound, Address(invalidAddress))
    requires n < |es| && Asks(After(t, es[..n]), es[n])
    ensures OriginOf(t, es) == AskedBy(es[n].payload, Address(es[n].result.internalAddress))
  {
    var k := |es| - 1;
    if n < k {
      assert es[..k][..n] == es[..n];
      AskedFrom(t, es[..k], n, invalidAddress);
      RunBound(t, es[..k], invalidAddress);
      BoundLeft(After(t, es[..k]).c, OriginOf(t, es[..k]), Address(invalidAddress));
      KeepsOrigin(After(t, es[..k]).c, es[k], OriginOf(t, es[..k]));
    } else {
      AskedNow(After(t, es[..k]), es[k], OriginOf(t, es[..k]));
    }
  }

  /** There is one such event in a run at most, and it is the origin: whatever follows, the connection
      stays bound to the address that asked first. */
  lemma AskedOnce(entity: bv16, invalidAddress: bv16, capacity: nat, es: seq<Event>, n: nat)
    ensures var t := Begin(entity, invalidAddress, capacity);
      n < |es| && Asks(After(t, es[..n]), es[n]) ==>
        OriginOf(t, es) == AskedBy(es[n].payload, Address(es[n].result.internalAddress))
        && forall m :: n < m < |es| ==> !Asks(After(t, es[..m]), es[m])
  {
    var t := Begin(entity, invalidAddress, capacity);
    BeginConsistent(entity, invalidAddress, capacity);
    if n < |es| && Asks(After(t, es[..n]), es[n]) {
      AskedFrom(t, es, n, invalidAddress);
      forall m | n < m < |es|
        ensures !Asks(After(t, es[..m]), es[m])
      {
        assert es[..m][..n] == es[..n];
        AskedFrom(t, es[..m], n, invalidAddress);
        RunBound(t, es[..m], invalidAddress);
        BoundLeft(After(t, es[..m]).c, OriginOf(t, es[..m]), Address(invalidAddress));
      }
    }
  }

  lemma Named16(c: Conn, job: SendJob)
    requires NamesBound(c) && job in SentJobs(c.out)
    requires job.payloadType == 0x0006 && |job.payload| == 9 && job.payload[4] == 0x10
    ensures Source(job.payload) == c.sourceAddress
  {
    assert IsSuccess(job) && Target(job) == Source(job.payload);
  }

  lemma UnstartedSentNothing(entity: bv16, invalidAddress: bv16, capacity: nat, es: seq<Event>)
    ensures var c := After(Begin(entity, invalidAddress, capacity), es).c;
      !c.started ==> SentJobs(c.out) == []
  {
    BeginConsistent(entity, invalidAddress, capacity);
    AfterConsistent(Begin(entity, invalidAddress, capacity), es);
  }

  lemma SameBytes(p: seq<byte>, q: seq<byte>)
    requires |p| >= 2 && |q| >= 2 && Source(p) == Source(q)
    ensures p[..2] == q[..2]
  {
    SplitJoin16(p[0], p[1]);
    SplitJoin16(q[0], q[1]);
  }

  /** In a run with no stray verdict every success handed over names the address that asked first, byte
      for byte, or the address that was resumed; a connection that was never bound names the invalid
      address. */
  lemma SuccessNamesAsker(entity: bv16, invalidAddress: bv16, capacity: nat, es: seq<Event>, job: SendJob)
    requires NoStray(Begin(entity, invalidAddress, capacity), es)
    requires job in SentJobs(After(Begin(entity, invalidAddress, capacity), es).c.out)
    requires job.payloadType == 0x0006 && |job.payload| == 9 && job.payload[4] == 0x10
    ensures match OriginOf(Begin(entity, invalidAddress, capacity), es)
      case AskedBy(payload, _) => |payload| >= 2 && job.payload[..2] == payload[..2]
      case ResumedAs(_) => false
      case ResumedWith(address, _) => Source(job.payload) == address.word
      case Unbound => Source(job.payload) == invalidAddress
  {
    var t := Begin(entity, invalidAddress, capacity);
    SuccessNamesBound(entity, invalidAddress, capacity, es);
    BoundToTheFirst(entity, invalidAddress, capacity, es);
    Named16(After(t, es).c, job);
    UnstartedSentNothing(entity, invalidAddress, capacity, es);
    var o := OriginOf(t, es);
    if o.AskedBy? { SameBytes(job.payload, o.payload); }
  }
}
