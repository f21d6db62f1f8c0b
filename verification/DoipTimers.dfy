/** Which timeout is running: after every event, and over every run. */
module DoipTimers {
  import opened Bytes
  import opened DoipBinding
  import opened DoipMessages
  import opened DoipModel
  import opened DoipRuns
  import opened DoipTable
  import opened DoipTheorems
  import opened Wrappers

  // ----- one event -----

  /** A header of the right version restarts the inactivity timer of an ACTIVE connection, also when
      its answer is a closing one; no other header and no other open state touches the timer. */
  lemma HeaderRestarts(c: Conn, header: Header, versionOk: bool, answers: seq<bool>, receives: bool, accepted: bool)
    requires PoolBalanced(c) && c.started
    ensures var c' := Step(c, HeaderIn(header, versionOk, answers, receives, accepted));
      c'.state != SHUTDOWN ==>
        c'.timer == if versionOk && c.state == ACTIVE then Armed(GeneralInactivity) else c.timer
  {
    var e := HeaderIn(header, versionOk, answers, receives, accepted);
    var k := CoreOf(c);
    StepCore(c, e);
    TimerOfEvent(k, e, Due(c, e), Named(e), c.free, false);
    StateOfEvent(k, e, Due(c, e), Named(e), c.free, false);
    SameCore(Step(c, e), CoreStep(k, e, Due(c, e), Named(e), c.free, false));
  }

  /** The events that arm a timer, and with which timeout: a start, the start of an alive check with a
      job left, a successful activation and a header of the right version. */
  lemma ArmedBy(c: Conn, h: History, e: Event)
    requires Inv(c, h) && Enabled(c, e) && Step(c, e).state != SHUTDOWN
    ensures Step(c, e).timer == match e
      case Started(_) => (
        if c.started then c.timer
        else if c.state == INACTIVE then Armed(InitialInactivity) else Armed(GeneralInactivity))
      case AliveCheckStarted(_) => (if c.state == ACTIVE then Armed(AliveCheckTimeout) else c.timer)
      case ActivationDone(success, _, _) => (
        if c.state == ACTIVATING && success then Armed(GeneralInactivity) else c.timer)
      case HeaderIn(_, versionOk, _, _, _) => (
        if versionOk && c.state == ACTIVE then Armed(GeneralInactivity) else c.timer)
      case TimerFired => Idle
      case ShutdownCalled => Idle
      case _ => c.timer
  {
    var k, closing := CoreOf(c), ReturnsClosing(c, e);
    StepCore(c, e);
    TimerOfEvent(k, e, Due(c, e), Named(e), c.free, closing);
    SameCore(Step(c, e), CoreStep(k, e, Due(c, e), Named(e), c.free, closing));
  }

  // ----- over every run -----

  /** After an event that leads to state': whether the latest of becoming active, a header of the
      right version and the start of an alive check was the start of a check. */
  predicate CheckLatestAfter(was: bool, state: ConnState, e: Event, state': ConnState) {
    if e.AliveCheckStarted? && state == ACTIVE then true
    else if e.HeaderIn? && e.versionOk then false
    else if state != ACTIVE && state' == ACTIVE then false
    else was
  }

  ghost predicate CheckLatest(t: Track, es: seq<Event>) {
    es != []
    && var before, e := After(t, es[..|es| - 1]), es[|es| - 1];
       var was := CheckLatest(t, es[..|es| - 1]);
       if Enabled(before.c, e) then CheckLatestAfter(was, before.c.state, e, Next(before, e).c.state) else was
  }

  /** The timeout that is running, read off the state and what came last. */
  ghost predicate TimerTells(k: Core, stopped: bool, check: bool) {
    && (k.started && !stopped && k.state == INACTIVE ==> k.timer == Armed(InitialInactivity))
    && (k.started && !stopped && k.state == ACTIVE ==>
        k.timer == Armed(if check then AliveCheckTimeout else GeneralInactivity))
    && (!k.started ==> !check)
  }

  lemma Retells(
    k: Core, e: Event, due: Option<Message>, named: Address, free: nat, closing: bool, stopped: bool, check: bool)
    requires TimerTells(k, stopped, check) && Arrives(k, e, due, named)
    ensures var k' := CoreStep(k, e, due, named, free, closing);
      TimerTells(k', stopped || e.ShutdownCalled?, CheckLatestAfter(check, k.state, e, k'.state))
  {
    StateOfEvent(k, e, due, named, free, closing);
    TimerOfEvent(k, e, due, named, free, closing);
    FlagsOfEvent(k, e, due, named, free, closing);
  }

  lemma NextTells(t: Track, e: Event, check: bool)
    requires Consistent(t) && Enabled(t.c, e) && TimerTells(CoreOf(t.c), t.h.stopped, check)
    ensures var t' := Next(t, e);
      TimerTells(CoreOf(t'.c), t'.h.stopped, CheckLatestAfter(check, t.c.state, e, t'.c.state))
  {
    EnabledArrives(t.c, t.h, e);
    StepCore(t.c, e);
    Retells(CoreOf(t.c), e, Due(t.c, e), Named(e), t.c.free, ReturnsClosing(t.c, e), t.h.stopped, check);
    SameCore(Step(t.c, e), CoreOf(Step(t.c, e)));
    assert Next(t, e).c == Step(t.c, e) && Next(t, e).h.stopped == (t.h.stopped || e.ShutdownCalled?);
  }

  lemma {:induction false} RunTells(t: Track, es: seq<Event>)
    requires Consistent(t) && !t.c.started
    ensures TimerTells(CoreOf(After(t, es).c), After(t, es).h.stopped, CheckLatest(t, es))
  {
    if es == [] {
    } else {
      var before, e := After(t, es[..|es| - 1]), es[|es| - 1];
      RunTells(t, es[..|es| - 1]);
      AfterConsistent(t, es[..|es| - 1]);
      if Enabled(before.c, e) { NextTells(before, e, CheckLatest(t, es[..|es| - 1])); }
    }
  }

  /** Over every run without a call of shutdown(): a started connection that is INACTIVE has the initial
      inactivity timeout running, and one that is ACTIVE the timeout of an alive check if and only if
      the latest of becoming active, a header of the right version and the start of a check was the
      start of a check, and the general inactivity timeout otherwise. */
  lemma RunningTimeout(entity: bv16, invalidAddress: bv16, capacity: nat, es: seq<Event>)
    ensures var t := Begin(entity, invalidAddress, capacity);
      var Track(c, h) := After(t, es);
      c.started && !h.stopped ==>
        && (c.state == INACTIVE ==> c.timer == Armed(InitialInactivity))
        && (c.state == ACTIVE ==> c.timer == Armed(AliveCheckTimeout) || c.timer == Armed(GeneralInactivity))
        && (c.state == ACTIVE ==> (c.timer == Armed(AliveCheckTimeout) <==> CheckLatest(t, es)))
  {
    var t := Begin(entity, invalidAddress, capacity);
    BeginConsistent(entity, invalidAddress, capacity);
    RunTells(t, es);
    SameCore(After(t, es).c, CoreOf(After(t, es).c));
  }
}
