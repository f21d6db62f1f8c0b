/** What one step of the simulator does to each fault and each sensor, in every state of a run: which
    fault is drawn, what the draw makes of it, and what the thresholds make of it then. */
module SimulatorSteps {
  import opened Arithmetic
  import opened Bytes
  import opened DtcStore
  import opened Sensors
  import opened Simulator
  import opened SimulatorRuns
  import opened TroubleCodes
  import Lcg

  // ----- one fault -----

  /** The fault after the draw. */
  function Drawn(d: Dtc, drawn: bool, rnd: nat): Dtc {
    if !drawn then d
    else if d.status & 0x01 != 0 then (if rnd % 2 == 1 then d.(status := d.status & 0xFC) else d)
    else if rnd / 2 % 2 == 1 then d.(status := d.status | 0x2B) else d
  }

  /** The fault after the thresholds were followed. */
  function Followed(d: Dtc, i: nat, t: int, v: int): Dtc {
    if i == 0 && t > 120 then d.(status := d.status | 0x29)
    else if i == 0 && t < 100 then d.(status := d.status & 0xFE)
    else if i == 1 && v < 110 then d.(status := d.status | 0x29)
    else if i == 1 && v > 120 then d.(status := d.status & 0xFE)
    else d
  }

  lemma ToggledBits(d: Dtc, rnd: nat)
    ensures Toggled(d, rnd) == Drawn(d, true, rnd)
  {
  }

  lemma LinkedBits(d: Dtc, raise: bool, drop: bool)
    ensures Linked(d, raise, drop)
         == if raise then d.(status := d.status | 0x29) else if drop then d.(status := d.status & 0xFE) else d
  {
  }

  // ----- one step -----

  /** The five faults of the store, in the order of init(). */
  ghost predicate Demo(ds: seq<Dtc>) {
    && |ds| == 5
    && ds[0].number == 0x010100 && ds[1].number == 0x010200 && ds[2].number == 0x010300
    && ds[3].number == 0x010400 && ds[4].number == 0x010500
  }

  lemma ToggledAt(ds: seq<Dtc>, rnd: nat, fourth: bool, i: nat)
    requires Demo(ds) && i < 5
    ensures var toggled := if fourth then ToggleAny(ds, rnd) else ds;
      Demo(toggled) && toggled[i] == Drawn(ds[i], fourth && i == rnd % 5, rnd)
  {
    ToggledBits(ds[rnd % 5], rnd);
  }

  lemma FollowedAt(ds: seq<Dtc>, t: int, v: int, i: nat)
    requires Demo(ds) && i < 5
    ensures FollowSensors(ds, t, v)[i] == Followed(ds[i], i, t, v)
  {
    FirstIndexUnique(ds, DTC_ENGINE_OVERTEMP, 0);
    var heated := LinkNumber(ds, DTC_ENGINE_OVERTEMP, t > 120, t < 100);
    LinkedBits(ds[0], t > 120, t < 100);
    FirstIndexUnique(heated, DTC_BATTERY_VOLTAGE_LOW, 1);
    LinkedBits(heated[1], v < 110, v > 120);
  }

  /** s' is the state after the n-th step, taken in s. */
  ghost predicate Stepped(s: SimState, s': SimState, n: nat) {
    && Demo(s.dtcs) && s' == Advance(s)
    && s'.rngState == Lcg.Iterate(n, 42) && s'.stepCounter % 4 == n % 4
  }

  lemma FaultStep(s: SimState, s': SimState, n: nat, i: nat)
    requires Stepped(s, s', n) && i < 5
    ensures var rnd := Lcg.Iterate(n, 42) / 0x1_0000 % 0x1_0000;
      |s'.dtcs| == 5
      && s'.dtcs[i]
         == Followed(Drawn(s.dtcs[i], n % 4 == 0 && i == rnd % 5, rnd), i,
                     s'.engineTemp.current, s'.batteryVoltage.current)
  {
    var rnd := RandomBits(s'.rngState);
    var fourth := s'.stepCounter % 4 == 0;
    var toggled := if fourth then ToggleAny(s.dtcs, rnd) else s.dtcs;
    ToggledAt(s.dtcs, rnd, fourth, i);
    FollowedAt(toggled, s'.engineTemp.current, s'.batteryVoltage.current, i);
  }

  /** What the n-th step, taken in s, makes of fault i. With rnd the upper half of the n-th generator
      value: when 4 divides n, the fault with index rnd % 5 is drawn, and loses bits 0 and 1 if it is
      failing and bit 0 of rnd is set, or gets bits 0, 1, 3 and 5 if it is not failing and bit 1 of rnd
      is set. Then the first two faults follow the temperature and the voltage. */
  ghost predicate FaultFollows(s: SimState, s': SimState, n: nat, i: nat) {
    && |s.dtcs| == |s'.dtcs| == 5 && i < 5
    && var rnd := Lcg.Iterate(n, 42) / 0x1_0000 % 0x1_0000;
       var t, v := s'.engineTemp.current, s'.batteryVoltage.current;
       var d := s.dtcs[i];
       var drawn := if n % 4 != 0 || i != rnd % 5 then d
         else if d.status & 0x01 != 0 then (if rnd % 2 == 1 then d.(status := d.status & 0xFC) else d)
         else if rnd / 2 % 2 == 1 then d.(status := d.status | 0x2B) else d;
       s'.dtcs[i] == if i == 0 && t > 120 then drawn.(status := drawn.status | 0x29)
                     else if i == 0 && t < 100 then drawn.(status := drawn.status & 0xFE)
                     else if i == 1 && v < 110 then drawn.(status := drawn.status | 0x29)
                     else if i == 1 && v > 120 then drawn.(status := drawn.status & 0xFE)
                     else drawn
  }

  lemma SteppedFollows(s: SimState, s': SimState, n: nat, i: nat)
    requires Stepped(s, s', n) && i < 5
    ensures FaultFollows(s, s', n, i)
  {
    FaultStep(s, s', n, i);
  }

  /** The n-th step changes fault i if and only if 4 divides n, the fault is drawn, and the bit that
      decides about its present state is set. */
  ghost predicate ChangesAsDrawn(s: SimState, s': SimState, n: nat, i: nat) {
    && |s.dtcs| == |s'.dtcs| == 5 && i < 5
    && var rnd := Lcg.Iterate(n, 42) / 0x1_0000 % 0x1_0000;
       var failing := s.dtcs[i].status & 0x01 != 0;
       (s'.dtcs[i] != s.dtcs[i]
        <==> n % 4 == 0 && i == rnd % 5 && if failing then rnd % 2 == 1 else rnd / 2 % 2 == 1)
  }

  lemma Flips(b: byte)
    ensures b & 0x01 != 0 ==> b & 0xFC != b
    ensures b & 0x01 == 0 ==> b | 0x2B != b
  {
  }

  lemma FollowingChanges(s: SimState, s': SimState, n: nat, i: nat)
    requires FaultFollows(s, s', n, i) && i >= 2
    ensures ChangesAsDrawn(s, s', n, i)
  {
    Flips(s.dtcs[i].status);
  }

  // ----- every step of every run -----

  /** The state after init(), as far as the steps depend on it. */
  ghost predicate Initialised(s: SimState) {
    && Demo(s.dtcs) && s.stepCounter == 0 && s.rngState == 42 && SensorsBounded(s)
    && s.engineTemp.seed == 0xCF10 * 7 + 13 && s.batteryVoltage.seed == 0xCF11 * 7 + 13
    && s.vehicleSpeed.seed == 0xCF12 * 7 + 13
  }

  lemma InitialInitialised()
    ensures Initialised(INITIAL) && forall i :: 0 <= i < 5 ==> INITIAL.dtcs[i].status == 0
  {
  }

  lemma FourthStep(n: nat)
    ensures n % WORD % 4 == n % 4
  {
    NestedMod(n, 4, WORD / 4);
  }

  lemma OneEventMore(s: SimState, es: seq<SimEvent>, e: SimEvent)
    ensures Run(s, es + [e]) == Apply(Run(s, es), e)
    ensures StepsIn(es + [e]) == StepsIn(es) + if e.Step? then 1 else 0
  {
    assert (es + [e])[..|es|] == es;
  }

  /** The generators of s are at their n-th values. */
  ghost predicate CountedFrom(start: SimState, s: SimState, n: nat) {
    && s.rngState == Lcg.Iterate(n, start.rngState)
    && s.engineTemp.seed == Lcg.Iterate(n, start.engineTemp.seed)
    && s.batteryVoltage.seed == Lcg.Iterate(n, start.batteryVoltage.seed)
    && s.vehicleSpeed.seed == Lcg.Iterate(n, start.vehicleSpeed.seed)
    && s.stepCounter == n % WORD
  }

  lemma NextCounted(start: SimState, s: SimState, n: nat, e: SimEvent)
    requires CountedFrom(start, s, n)
    ensures CountedFrom(start, Apply(s, e), if e.Step? then n + 1 else n)
  {
    CounterStep(n);
  }

  lemma {:induction false} RunCounted(start: SimState, es: seq<SimEvent>)
    requires start.stepCounter == 0
    ensures CountedFrom(start, Run(start, es), StepsIn(es))
  {
    if es == [] {
    } else {
      RunCounted(start, es[..|es| - 1]);
      NextCounted(start, Run(start, es[..|es| - 1]), StepsIn(es[..|es| - 1]), es[|es| - 1]);
    }
  }

  lemma RunDemo(start: SimState, es: seq<SimEvent>)
    requires Demo(start.dtcs)
    ensures Demo(Run(start, es).dtcs)
  {
    RunEvolves(start, es);
    var ds, ds' := start.dtcs, Run(start, es).dtcs;
    assert forall i :: 0 <= i < 5 ==> Evolves(ds[i], ds'[i]);
  }

  lemma CountedStepped(start: SimState, s: SimState, n: nat)
    requires start.rngState == 42 && Demo(s.dtcs) && CountedFrom(start, Advance(s), n)
    ensures Stepped(s, Advance(s), n)
  {
    FourthStep(n);
  }

  lemma RunStepped(start: SimState, es: seq<SimEvent>)
    requires Initialised(start)
    ensures Stepped(Run(start, es), Run(start, es + [Step]), StepsIn(es) + 1)
  {
    var s := Run(start, es);
    RunDemo(start, es);
    RunCounted(start, es);
    NextCounted(start, s, StepsIn(es), Step);
    CountedStepped(start, s, StepsIn(es) + 1);
    OneEventMore(start, es, Step);
  }

  /** What a step makes of each of the five faults, in every run. */
  lemma StatusAfterStep(start: SimState, es: seq<SimEvent>, i: nat)
    requires Initialised(start) && i < 5
    ensures FaultFollows(Run(start, es), Run(start, es + [Step]), StepsIn(es) + 1, i)
  {
    RunStepped(start, es);
    SteppedFollows(Run(start, es), Run(start, es + [Step]), StepsIn(es) + 1, i);
  }

  /** When a step changes a fault without a sensor, in every run. */
  lemma ChangedByStep(start: SimState, es: seq<SimEvent>, i: nat)
    requires Initialised(start) && 2 <= i < 5
    ensures ChangesAsDrawn(Run(start, es), Run(start, es + [Step]), StepsIn(es) + 1, i)
  {
    StatusAfterStep(start, es, i);
    FollowingChanges(Run(start, es), Run(start, es + [Step]), StepsIn(es) + 1, i);
  }

  // ----- how often -----

  /** The n-th step draws fault i. */
  predicate Draws(n: nat, i: nat) { n % 4 == 0 && i == Lcg.Iterate(n, 42) / 0x1_0000 % 0x1_0000 % 5 }

  /** The number of steps of a run that draw fault i. */
  function DrawsIn(es: seq<SimEvent>, i: nat): nat {
    if es == [] then 0
    else
      DrawsIn(es[..|es| - 1], i)
      + if es[|es| - 1].Step? && Draws(StepsIn(es), i) then 1 else 0
  }

  predicate Changed(s: SimState, s': SimState, i: nat) {
    i < |s.dtcs| && i < |s'.dtcs| && s'.dtcs[i] != s.dtcs[i]
  }

  /** The number of steps of a run that change fault i. */
  function TogglesIn(start: SimState, es: seq<SimEvent>, i: nat): nat {
    if es == [] then 0
    else
      TogglesIn(start, es[..|es| - 1], i)
      + if es[|es| - 1].Step? && Changed(Run(start, es[..|es| - 1]), Run(start, es), i) then 1 else 0
  }

  /** In every run exactly one step in four draws a fault, also across the wrap of the step counter. */
  lemma {:induction false} ToggleRate(es: seq<SimEvent>)
    ensures DrawsIn(es, 0) + DrawsIn(es, 1) + DrawsIn(es, 2) + DrawsIn(es, 3) + DrawsIn(es, 4) == StepsIn(es) / 4
  {
    if es == [] {
    } else {
      ToggleRate(es[..|es| - 1]);
      Quarter(StepsIn(es[..|es| - 1]));
    }
  }

  lemma DrawnIfChanged(s: SimState, s': SimState, n: nat, i: nat)
    requires ChangesAsDrawn(s, s', n, i)
    ensures Changed(s, s', i) ==> Draws(n, i)
  {
  }

  lemma NextDraw(start: SimState, es: seq<SimEvent>, n: nat, i: nat)
    requires Initialised(start) && 2 <= i < 5 && n == StepsIn(es) + 1
    ensures Changed(Run(start, es), Run(start, es + [Step]), i) ==> Draws(n, i)
  {
    ChangedByStep(start, es, i);
    DrawnIfChanged(Run(start, es), Run(start, es + [Step]), n, i);
  }

  lemma StepCounted(es: seq<SimEvent>)
    ensures StepsIn(es + [Step]) == StepsIn(es) + 1
  {
    assert (es + [Step])[..|es|] == es;
  }

  lemma LastDraw(start: SimState, es: seq<SimEvent>, i: nat)
    requires Initialised(start) && 2 <= i < 5
    ensures Changed(Run(start, es), Run(start, es + [Step]), i) ==> Draws(StepsIn(es + [Step]), i)
  {
    StepCounted(es);
    NextDraw(start, es, StepsIn(es + [Step]), i);
  }

  /** A fault without a sensor changes only in steps that draw it. */
  lemma {:induction false} TogglesAreDraws(start: SimState, es: seq<SimEvent>, i: nat)
    requires Initialised(start) && 2 <= i < 5
    ensures TogglesIn(start, es, i) <= DrawsIn(es, i)
  {
    if es == [] {
    } else {
      TogglesAreDraws(start, es[..|es| - 1], i);
      if es[|es| - 1].Step? {
        assert es == es[..|es| - 1] + [Step];
        LastDraw(start, es[..|es| - 1], i);
      }
    }
  }

  // ----- an example -----

  lemma NextValue(n: nat, value: uint32, next: uint32)
    requires Lcg.Iterate(n, 42) == value && next == (value * 1103515245 + 12345) % 0x1_0000_0000
    ensures Lcg.Iterate(n + 1, 42) == next
  {
  }

  lemma FirstValues()
    ensures Lcg.Iterate(1, 42) == 3397979675 && Lcg.Iterate(4, 42) == 3816158454
    ensures Lcg.Iterate(8, 42) == 3884214914 && Lcg.Iterate(12, 42) == 1108520142
  {
    NextValue(0, 42, 3397979675);
    NextValue(1, 3397979675, 3263785912);
    NextValue(2, 3263785912, 3148160401);
    NextValue(3, 3148160401, 3816158454);
    NextValue(4, 3816158454, 3055579383);
    NextValue(5, 3055579383, 2219150180);
    NextValue(6, 2219150180, 3043819981);
    NextValue(7, 3043819981, 3884214914);
    NextValue(8, 3884214914, 1314989459);
    NextValue(9, 1314989459, 1535244752);
    NextValue(10, 1535244752, 2538925513);
    NextValue(11, 2538925513, 1108520142);
  }

  /** So many steps. */
  function Steps(k: nat): (es: seq<SimEvent>)
    ensures |es| == k
  {
    if k == 0 then [] else Steps(k - 1) + [Step]
  }

  lemma {:induction false} StepsCounted(k: nat)
    ensures StepsIn(Steps(k)) == k
  {
    if k == 0 {
    } else {
      StepsCounted(k - 1);
      OneEventMore(INITIAL, Steps(k - 1), Step);
    }
  }

  /** The n-th step draws fault i, and would set it. */
  predicate Sets(n: nat, i: nat) { n % 4 == 0 && SetsFault(Lcg.Iterate(n, 42), i) }

  predicate SetsFault(value: int, i: nat) {
    value / 0x1_0000 % 0x1_0000 % 5 == i && value / 0x1_0000 % 0x1_0000 / 2 % 2 == 1
  }

  lemma StaysZero(s: SimState, s': SimState, n: nat, i: nat)
    requires ChangesAsDrawn(s, s', n, i) && s.dtcs[i].status == 0 && !Sets(n, i)
    ensures s'.dtcs[i].status == 0
  {
  }

  ghost predicate Zero(s: SimState, i: nat) { |s.dtcs| == 5 && i < 5 && s.dtcs[i].status == 0 }

  lemma UnsetStep(start: SimState, es: seq<SimEvent>, i: nat)
    requires Initialised(start) && 2 <= i < 5 && Zero(Run(start, es), i) && !Sets(StepsIn(es) + 1, i)
    ensures Zero(Run(start, es + [Step]), i)
  {
    ChangedByStep(start, es, i);
    StaysZero(Run(start, es), Run(start, es + [Step]), StepsIn(es) + 1, i);
  }

  /** None of the first k steps sets fault i. */
  ghost predicate NeverSet(k: nat, i: nat) { forall n :: 1 <= n <= k ==> !Sets(n, i) }

  lemma LastUnset(k: nat, i: nat)
    requires k > 0 && NeverSet(k, i)
    ensures NeverSet(k - 1, i) && !Sets(k, i)
  {
  }

  lemma NextZero(start: SimState, k: nat, i: nat)
    requires Initialised(start) && 2 <= i < 5 && !Sets(k + 1, i) && Zero(Run(start, Steps(k)), i)
    ensures Zero(Run(start, Steps(k + 1)), i)
  {
    StepsCounted(k);
    assert Steps(k + 1) == Steps(k) + [Step];
    UnsetStep(start, Steps(k), i);
  }

  /** A fault without a sensor stays as it was registered until a draw sets it. */
  lemma {:induction false} Unset(start: SimState, k: nat, i: nat)
    requires Initialised(start) && 2 <= i < 5 && start.dtcs[i].status == 0 && NeverSet(k, i)
    ensures Zero(Run(start, Steps(k)), i)
  {
    if k == 0 {
    } else {
      LastUnset(k, i);
      Unset(start, k - 1, i);
      NextZero(start, k - 1, i);
    }
  }

  lemma SetsTo2B(s: SimState, s': SimState, n: nat, i: nat)
    requires FaultFollows(s, s', n, i) && i >= 2 && s.dtcs[i].status == 0 && Sets(n, i)
    ensures s'.dtcs[i].status == 0x2B
  {
  }

  /** The first twelve steps: the fourth draws the brake fault but leaves it, the eighth draws another
      one, and the twelfth (rnd is 16914) sets the brake fault. */
  lemma BrakeFaultSet(start: SimState)
    requires start == INITIAL
    ensures |Run(start, Steps(11)).dtcs| == |Run(start, Steps(12)).dtcs| == 5
    ensures Run(start, Steps(11)).dtcs[4].status == 0x00
    ensures Run(start, Steps(12)).dtcs[4].status == 0x2B
  {
    InitialInitialised();
    forall n | 1 <= n <= 12
      ensures Sets(n, 4) <==> n == 12
    {
      FirstSet(n);
    }
    StepsCounted(11);
    Unset(start, 11, 4);
    StatusAfterStep(start, Steps(11), 4);
    SetsTo2B(Run(start, Steps(11)), Run(start, Steps(12)), 12, 4);
  }

  lemma ValueAt(n: nat)
    ensures n == 4 ==> Lcg.Iterate(n, 42) == 3816158454
    ensures n == 8 ==> Lcg.Iterate(n, 42) == 3884214914
    ensures n == 12 ==> Lcg.Iterate(n, 42) == 1108520142
  {
    FirstValues();
  }

  lemma DrawnValues()
    ensures !SetsFault(3816158454, 4) && !SetsFault(3884214914, 4) && SetsFault(1108520142, 4)
  {
  }

  lemma FirstSet(n: nat)
    requires 1 <= n <= 12
    ensures Sets(n, 4) <==> n == 12
  {
    ValueAt(n);
    DrawnValues();
    assert n % 4 == 0 <==> n == 4 || n == 8 || n == 12;
  }

  // ----- the sensors -----

  /** What a step makes of a bounded sensor: it moves by -2 to 2 and stops at its bounds. */
  lemma SensorStep(s: Sensor)
    requires s.Bounded()
    ensures var moved := s.current + Lcg.Next(s.seed) / 0x1_0000 % 0x8000 % 5 - 2;
      s.Step().current == if moved < s.low then s.low else if moved > s.high then s.high else moved
  {
  }

  /** The values of the sensors after a step, in every run, injections included: n counts the steps so
      far, this one included. */
  lemma SensorsAfterStep(start: SimState, es: seq<SimEvent>)
    requires Initialised(start)
    ensures var s, s' := Run(start, es), Run(start, es + [Step]);
      var n := StepsIn(es) + 1;
      var t := s.engineTemp.current + Lcg.Iterate(n, 0xCF10 * 7 + 13) / 0x1_0000 % 0x8000 % 5 - 2;
      var v := s.batteryVoltage.current + Lcg.Iterate(n, 0xCF11 * 7 + 13) / 0x1_0000 % 0x8000 % 5 - 2;
      var k := s.vehicleSpeed.current + Lcg.Iterate(n, 0xCF12 * 7 + 13) / 0x1_0000 % 0x8000 % 5 - 2;
      && s'.engineTemp.current == (if t < 70 then 70 else if t > 130 then 130 else t)
      && s'.batteryVoltage.current == (if v < 100 then 100 else if v > 150 then 150 else v)
      && s'.vehicleSpeed.current == if k < 0 then 0 else if k > 220 then 220 else k
  {
    RunBounded(start, es);
    OneEventMore(start, es, Step);
    RunCounted(start, es + [Step]);
    SensorsStepped(Run(start, es), Run(start, es + [Step]));
  }

  lemma SensorsStepped(s: SimState, s': SimState)
    requires SensorsBounded(s) && s' == Advance(s)
    ensures
      var t := s.engineTemp.current + s'.engineTemp.seed / 0x1_0000 % 0x8000 % 5 - 2;
      var v := s.batteryVoltage.current + s'.batteryVoltage.seed / 0x1_0000 % 0x8000 % 5 - 2;
      var k := s.vehicleSpeed.current + s'.vehicleSpeed.seed / 0x1_0000 % 0x8000 % 5 - 2;
      && s'.engineTemp.current == (if t < 70 then 70 else if t > 130 then 130 else t)
      && s'.batteryVoltage.current == (if v < 100 then 100 else if v > 150 then 150 else v)
      && s'.vehicleSpeed.current == if k < 0 then 0 else if k > 220 then 220 else k
  {
    SensorStep(s.engineTemp);
    SensorStep(s.batteryVoltage);
    SensorStep(s.vehicleSpeed);
  }

  /** An injection in any run: the value is cut to the range of its sensor, and nothing else changes. */
  lemma InjectionCuts(start: SimState, es: seq<SimEvent>, sensor: SensorId, value: uint32)
    requires Initialised(start)
    ensures var s, s' := Run(start, es), Run(start, es + [Inject(sensor, value)]);
      var cut := (low: uint32, high: uint32) => if value < low then low else if value > high then high else value;
      && s' == s.(engineTemp := s'.engineTemp, batteryVoltage := s'.batteryVoltage, vehicleSpeed := s'.vehicleSpeed)
      && s'.engineTemp == (if sensor == EngineTemp then s.engineTemp.(current := cut(70, 130)) else s.engineTemp)
      && s'.batteryVoltage
         == (if sensor == BatteryVoltage then s.batteryVoltage.(current := cut(100, 150)) else s.batteryVoltage)
      && s'.vehicleSpeed
         == if sensor == VehicleSpeed then s.vehicleSpeed.(current := cut(0, 220)) else s.vehicleSpeed
  {
    RunBounded(start, es);
    OneEventMore(start, es, Inject(sensor, value));
  }
}
