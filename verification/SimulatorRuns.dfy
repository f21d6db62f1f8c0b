/** What holds over every run of the simulator: any interleaving of steps, clears and value
    injections. */
module SimulatorRuns {
  import opened Arithmetic
  import opened Bytes
  import opened TroubleCodes
  import opened DtcStore
  import opened Sensors
  import opened Simulator
  import Lcg

  datatype SensorId = EngineTemp | BatteryVoltage | VehicleSpeed

  datatype SimEvent =
    | Step
    | ClearAll
    | ClearOne(number: bv32)
    | Inject(sensor: SensorId, value: uint32)

  function Apply(s: SimState, e: SimEvent): SimState {
    match e
    case Step => Advance(s)
    case ClearAll => s.(dtcs := AllCleared(s.dtcs))
    case ClearOne(number) => s.(dtcs := ClearedByNumber(s.dtcs, number))
    case Inject(EngineTemp, value) => s.(engineTemp := s.engineTemp.SetValue(value))
    case Inject(BatteryVoltage, value) => s.(batteryVoltage := s.batteryVoltage.SetValue(value))
    case Inject(VehicleSpeed, value) => s.(vehicleSpeed := s.vehicleSpeed.SetValue(value))
  }

  function Run(s: SimState, es: seq<SimEvent>): SimState {
    if es == [] then s else Apply(Run(s, es[..|es| - 1]), es[|es| - 1])
  }

  function StepsIn(es: seq<SimEvent>): nat {
    if es == [] then 0 else StepsIn(es[..|es| - 1]) + if es[|es| - 1].Step? then 1 else 0
  }

  // ----- status bytes -----

  /** pendingDTC and warningIndicatorRequested are never set; confirmed and failed-since-clear go
      together, as do the two not-completed bits; a failure is always confirmed. */
  predicate Plausible(b: byte) {
    && b & (PENDING_DTC | WARNING_INDICATOR_REQUESTED) == 0
    && (b & CONFIRMED_DTC != 0 <==> b & TEST_FAILED_SINCE_LAST_CLEAR != 0)
    && (b & TEST_NOT_COMPLETED_SINCE_LAST_CLEAR != 0 <==> b & TEST_NOT_COMPLETED_THIS_OPERATION_CYCLE != 0)
    && (b & TEST_FAILED != 0 ==> b & CONFIRMED_DTC != 0)
    && (b & TEST_FAILED_THIS_OPERATION_CYCLE != 0 ==> b & CONFIRMED_DTC != 0)
  }

  /** The ten plausible bytes. */
  lemma PlausibleBytes(b: byte)
    ensures Plausible(b) <==> b in {0x00, 0x50, 0x28, 0x29, 0x2A, 0x2B, 0x78, 0x79, 0x7A, 0x7B}
  {
  }

  predicate Unlinked(number: bv32) {
    number != DTC_ENGINE_OVERTEMP && number != DTC_BATTERY_VOLTAGE_LOW
  }

  /** For a fault no sensor drives, the two failure bits agree. */
  predicate InStep(d: Dtc) {
    Unlinked(d.number) ==> (d.Has(TEST_FAILED) <==> d.Has(TEST_FAILED_THIS_OPERATION_CYCLE))
  }

  predicate Sound(d: Dtc) { Plausible(d.status) && InStep(d) }

  /** How one fault may change: it stays sound, keeps its number, never returns to status zero
      and never loses the marks of a clear. */
  ghost predicate Evolves(d: Dtc, d': Dtc) {
    && d'.number == d.number
    && (Sound(d) ==> Sound(d') && (d.status != 0 ==> d'.status != 0))
    && (d.Has(TEST_NOT_COMPLETED_SINCE_LAST_CLEAR) ==> d'.Has(TEST_NOT_COMPLETED_SINCE_LAST_CLEAR))
    && (d.Has(TEST_NOT_COMPLETED_THIS_OPERATION_CYCLE) ==> d'.Has(TEST_NOT_COMPLETED_THIS_OPERATION_CYCLE))
  }

  ghost predicate AllEvolve(ds: seq<Dtc>, ds': seq<Dtc>) {
    |ds'| == |ds| && forall i :: 0 <= i < |ds| ==> Evolves(ds[i], ds'[i])
  }

  lemma ToggledEvolves(d: Dtc, rnd: nat)
    ensures Evolves(d, Toggled(d, rnd))
  {
  }

  lemma LinkedEvolves(d: Dtc, raise: bool, drop: bool)
    requires !Unlinked(d.number)
    ensures Evolves(d, Linked(d, raise, drop))
  {
  }

  lemma ClearedEvolves(d: Dtc)
    ensures Evolves(d, d.Cleared())
  {
  }

  lemma LinkNumberEvolves(ds: seq<Dtc>, number: bv32, raise: bool, drop: bool)
    requires !Unlinked(number)
    ensures AllEvolve(ds, LinkNumber(ds, number, raise, drop))
  {
    var r := FirstIndex(ds, number);
    if r.Some? { LinkedEvolves(ds[r.value], raise, drop); }
  }

  lemma AdvanceEvolves(s: SimState)
    ensures AllEvolve(s.dtcs, Advance(s).dtcs)
  {
    var s' := Advance(s);
    var rnd := RandomBits(s'.rngState);
    var toggled := if s'.stepCounter % 4 == 0 then ToggleAny(s.dtcs, rnd) else s.dtcs;
    if s.dtcs != [] { ToggledEvolves(s.dtcs[rnd % |s.dtcs|], rnd); }
    var t, v := s'.engineTemp.current, s'.batteryVoltage.current;
    LinkNumberEvolves(toggled, DTC_ENGINE_OVERTEMP, t > 120, t < 100);
    var heated := LinkNumber(toggled, DTC_ENGINE_OVERTEMP, t > 120, t < 100);
    LinkNumberEvolves(heated, DTC_BATTERY_VOLTAGE_LOW, v < 110, v > 120);
    EvolvesChain(s.dtcs, toggled, heated);
    EvolvesChain(s.dtcs, heated, s'.dtcs);
  }

  lemma EvolvesChain(a: seq<Dtc>, b: seq<Dtc>, c: seq<Dtc>)
    requires AllEvolve(a, b) && AllEvolve(b, c)
    ensures AllEvolve(a, c)
  {
    forall i | 0 <= i < |a|
      ensures Evolves(a[i], c[i])
    {
      assert Evolves(a[i], b[i]) && Evolves(b[i], c[i]);
    }
  }

  lemma ApplyEvolves(s: SimState, e: SimEvent)
    ensures AllEvolve(s.dtcs, Apply(s, e).dtcs)
  {
    match e
    case Step => AdvanceEvolves(s);
    case ClearAll =>
      forall i | 0 <= i < |s.dtcs| ensures Evolves(s.dtcs[i], AllCleared(s.dtcs)[i]) {
        ClearedEvolves(s.dtcs[i]);
      }
    case ClearOne(number) =>
      var r := FirstIndex(s.dtcs, number);
      if r.Some? { ClearedEvolves(s.dtcs[r.value]); }
    case Inject(_, _) =>
  }

  /** Over every run, from every state: numbers, order and count are kept, a sound non-zero
      status never becomes zero (a clear included), and the marks of a clear stay. */
  lemma {:induction false} RunEvolves(s: SimState, es: seq<SimEvent>)
    ensures AllEvolve(s.dtcs, Run(s, es).dtcs)
  {
    if es == [] {
    } else {
      var before := Run(s, es[..|es| - 1]);
      RunEvolves(s, es[..|es| - 1]);
      ApplyEvolves(before, es[|es| - 1]);
      EvolvesChain(s.dtcs, before.dtcs, Run(s, es).dtcs);
    }
  }

  /** Every status byte reachable from init(). */
  lemma ReachableStatus(es: seq<SimEvent>)
    ensures var ds := Run(INITIAL, es).dtcs;
      |ds| == 5
      && (forall i :: 0 <= i < 5 ==> ds[i].number == DEMO_DTCS[i].number && Plausible(ds[i].status))
      && (forall i :: 2 <= i < 5 ==> (ds[i].Has(TEST_FAILED) <==> ds[i].Has(TEST_FAILED_THIS_OPERATION_CYCLE)))
      && Distinct(ds)
  {
    RunEvolves(INITIAL, es);
    var ds := Run(INITIAL, es).dtcs;
    forall i | 0 <= i < 5
      ensures ds[i].number == DEMO_DTCS[i].number && Sound(ds[i])
    {
      assert Sound(DEMO_DTCS[i]);
      assert Evolves(DEMO_DTCS[i], ds[i]);
    }
  }

  lemma {:induction false} RunSplit(s: SimState, es: seq<SimEvent>, fs: seq<SimEvent>)
    ensures Run(s, es + fs) == Run(Run(s, es), fs)
  {
    if fs == [] {
      assert es + fs == es;
    } else {
      RunSplit(s, es, fs[..|fs| - 1]);
      assert (es + fs)[..|es + fs| - 1] == es + fs[..|fs| - 1];
    }
  }

  /** A clear cannot be undone: after it bits 4 and 6 are set in every later state. */
  lemma ClearLeavesMarks(es: seq<SimEvent>, fs: seq<SimEvent>, i: nat)
    requires i < 5
    ensures var ds := Run(INITIAL, es + [ClearAll] + fs).dtcs;
      |ds| == 5 && ds[i].status & CLEARED == CLEARED
  {
    var s := Run(INITIAL, es);
    RunSplit(INITIAL, es, [ClearAll]);
    RunSplit(INITIAL, es + [ClearAll], fs);
    assert Run(s, [ClearAll]) == Apply(Run(s, []), ClearAll);
    ReachableStatus(es);
    RunEvolves(Run(s, [ClearAll]), fs);
    var d := Run(s, [ClearAll]).dtcs[i];
    assert Evolves(d, Run(Run(s, [ClearAll]), fs).dtcs[i]);
    BothMarks(Run(Run(s, [ClearAll]), fs).dtcs[i].status);
  }

  lemma BothMarks(b: byte)
    ensures b & CLEARED == CLEARED
       <==> b & TEST_NOT_COMPLETED_SINCE_LAST_CLEAR != 0 && b & TEST_NOT_COMPLETED_THIS_OPERATION_CYCLE != 0
  {
  }

  // ----- sensors -----

  ghost predicate SensorsBounded(s: SimState) {
    && s.engineTemp.Bounded() && s.engineTemp.low == 70 && s.engineTemp.high == 130
    && s.batteryVoltage.Bounded() && s.batteryVoltage.low == 100 && s.batteryVoltage.high == 150
    && s.vehicleSpeed.Bounded() && s.vehicleSpeed.low == 0 && s.vehicleSpeed.high == 220
  }

  lemma ApplyBounded(s: SimState, e: SimEvent)
    requires SensorsBounded(s)
    ensures SensorsBounded(Apply(s, e))
  {
    StepStaysBounded(s.engineTemp);
    StepStaysBounded(s.batteryVoltage);
    StepStaysBounded(s.vehicleSpeed);
    match e
    case Inject(EngineTemp, value) => SetValueStaysBounded(s.engineTemp, value);
    case Inject(BatteryVoltage, value) => SetValueStaysBounded(s.batteryVoltage, value);
    case Inject(VehicleSpeed, value) => SetValueStaysBounded(s.vehicleSpeed, value);
    case _ =>
  }

  /** Every sensor stays in its range and no step overflows, over every run, injections included. */
  lemma {:induction false} RunBounded(s: SimState, es: seq<SimEvent>)
    requires SensorsBounded(s)
    ensures SensorsBounded(Run(s, es))
    ensures var s' := Run(s, es);
      !s'.engineTemp.Overflows() && !s'.batteryVoltage.Overflows() && !s'.vehicleSpeed.Overflows()
  {
    if es == [] {
    } else {
      RunBounded(s, es[..|es| - 1]);
      ApplyBounded(Run(s, es[..|es| - 1]), es[|es| - 1]);
    }
    StepStaysBounded(Run(s, es).engineTemp);
    StepStaysBounded(Run(s, es).batteryVoltage);
    StepStaysBounded(Run(s, es).vehicleSpeed);
  }

  // ----- thresholds -----

  ghost predicate AgreesWithSensors(ds: seq<Dtc>, temperature: int, voltage: int) {
    && |ds| >= 2
    && (temperature > 120 ==> ds[0].Has(TEST_FAILED) && ds[0].Has(CONFIRMED_DTC))
    && (temperature < 100 ==> !ds[0].Has(TEST_FAILED))
    && (voltage < 110 ==> ds[1].Has(TEST_FAILED) && ds[1].Has(CONFIRMED_DTC))
    && (voltage > 120 ==> !ds[1].Has(TEST_FAILED))
  }

  lemma LinkedDecides(d: Dtc, raise: bool, drop: bool)
    ensures raise ==> Linked(d, raise, drop).Has(TEST_FAILED) && Linked(d, raise, drop).Has(CONFIRMED_DTC)
    ensures drop && !raise ==> !Linked(d, raise, drop).Has(TEST_FAILED)
    ensures !drop && !raise ==> Linked(d, raise, drop) == d
  {
  }

  lemma FollowThresholds(ds: seq<Dtc>, t: int, v: int)
    requires |ds| >= 2
    requires ds[0].number == DTC_ENGINE_OVERTEMP && ds[1].number == DTC_BATTERY_VOLTAGE_LOW
    ensures AgreesWithSensors(FollowSensors(ds, t, v), t, v)
  {
    FirstIndexUnique(ds, DTC_ENGINE_OVERTEMP, 0);
    var heated := LinkNumber(ds, DTC_ENGINE_OVERTEMP, t > 120, t < 100);
    FirstIndexUnique(heated, DTC_BATTERY_VOLTAGE_LOW, 1);
    LinkedDecides(ds[0], t > 120, t < 100);
    LinkedDecides(ds[1], v < 110, v > 120);
  }

  /** After every step the two linked faults agree with their sensors, whatever the random toggle
      did. */
  lemma ThresholdsDecide(es: seq<SimEvent>)
    ensures var s := Run(INITIAL, es + [Step]);
      AgreesWithSensors(s.dtcs, s.engineTemp.current, s.batteryVoltage.current)
  {
    ReachableStatus(es);
    assert (es + [Step])[..|es|] == es;
    AdvanceThresholds(Run(INITIAL, es));
  }

  lemma AdvanceThresholds(s: SimState)
    requires |s.dtcs| >= 2
    requires s.dtcs[0].number == DTC_ENGINE_OVERTEMP && s.dtcs[1].number == DTC_BATTERY_VOLTAGE_LOW
    ensures var s' := Advance(s); AgreesWithSensors(s'.dtcs, s'.engineTemp.current, s'.batteryVoltage.current)
  {
    var s' := Advance(s);
    var rnd := RandomBits(s'.rngState);
    ToggledEvolves(s.dtcs[rnd % |s.dtcs|], rnd);
    var toggled := if s'.stepCounter % 4 == 0 then ToggleAny(s.dtcs, rnd) else s.dtcs;
    FollowThresholds(toggled, s'.engineTemp.current, s'.batteryVoltage.current);
  }

  /** No value is injected into the sensor. */
  predicate Undisturbed(es: seq<SimEvent>, sensor: SensorId) {
    forall i :: 0 <= i < |es| ==> !(es[i].Inject? && es[i].sensor == sensor)
  }

  lemma {:induction false} RunDistance(s: SimState, es: seq<SimEvent>)
    requires SensorsBounded(s)
    ensures var s' := Run(s, es);
      && (Undisturbed(es, EngineTemp) ==>
        -2 * StepsIn(es) <= s'.engineTemp.current - s.engineTemp.current <= 2 * StepsIn(es))
      && (Undisturbed(es, BatteryVoltage) ==>
        -2 * StepsIn(es) <= s'.batteryVoltage.current - s.batteryVoltage.current <= 2 * StepsIn(es))
  {
    if es == [] {
    } else {
      var before := Run(s, es[..|es| - 1]);
      RunDistance(s, es[..|es| - 1]);
      RunBounded(s, es[..|es| - 1]);
      StepStaysBounded(before.engineTemp);
      StepStaysBounded(before.batteryVoltage);
    }
  }

  /** The fault was failing and no longer is. */
  predicate Subsided(d: Dtc, d': Dtc) { d.Has(TEST_FAILED) && !d'.Has(TEST_FAILED) }

  /** Where the sensor of a fault forces it on in s and off in s', the fault has subsided, and at
      least so many steps lie between unless a value was injected into the sensor. */
  ghost predicate FarApart(s: SimState, s': SimState, fs: seq<SimEvent>) {
    && |s.dtcs| >= 2 && |s'.dtcs| >= 2
    && (s.engineTemp.current > 120 && s'.engineTemp.current < 100 ==>
      Subsided(s.dtcs[0], s'.dtcs[0]) && (Undisturbed(fs, EngineTemp) ==> StepsIn(fs) >= 11))
    && (s.batteryVoltage.current < 110 && s'.batteryVoltage.current > 120 ==>
      Subsided(s.dtcs[1], s'.dtcs[1]) && (Undisturbed(fs, BatteryVoltage) ==> StepsIn(fs) >= 6))
  }

  lemma ForcedApart(s: SimState, fs: seq<SimEvent>)
    requires SensorsBounded(s) && AgreesWithSensors(s.dtcs, s.engineTemp.current, s.batteryVoltage.current)
    requires var s' := Run(s, fs); AgreesWithSensors(s'.dtcs, s'.engineTemp.current, s'.batteryVoltage.current)
    ensures FarApart(s, Run(s, fs), fs)
  {
    RunDistance(s, fs);
  }

  /** Hysteresis of the linked faults. When one step forces a fault on and a later one forces it off,
      its test-failed bit is set after the first and clear after the second; if nobody injected a
      value into its sensor in between, that takes at least 11 steps for the engine and 6 for the
      battery. */
  lemma Hysteresis(es: seq<SimEvent>, fs: seq<SimEvent>)
    ensures FarApart(Run(INITIAL, es + [Step]), Run(INITIAL, (es + [Step]) + (fs + [Step])), fs + [Step])
  {
    var before, after := es + [Step], fs + [Step];
    assert before + after == (before + fs) + [Step];
    ThresholdsDecide(es);
    ThresholdsDecide(before + fs);
    RunSplit(INITIAL, before, after);
    RunBounded(INITIAL, before);
    ForcedApart(Run(INITIAL, before), after);
  }

  // ----- generators and counters -----

  ghost predicate CountsAre(s: SimState, n: nat) {
    && s.rngState == Lcg.Iterate(n, INITIAL.rngState)
    && s.engineTemp.seed == Lcg.Iterate(n, INITIAL.engineTemp.seed)
    && s.batteryVoltage.seed == Lcg.Iterate(n, INITIAL.batteryVoltage.seed)
    && s.vehicleSpeed.seed == Lcg.Iterate(n, INITIAL.vehicleSpeed.seed)
    && s.stepCounter == n % WORD
  }

  lemma ApplyCounts(s: SimState, n: nat, e: SimEvent)
    requires CountsAre(s, n)
    ensures CountsAre(Apply(s, e), if e.Step? then n + 1 else n)
  {
    CounterStep(n);
  }

  lemma {:induction false} RunCounts(es: seq<SimEvent>)
    ensures CountsAre(Run(INITIAL, es), StepsIn(es))
  {
    if es == [] {
    } else {
      RunCounts(es[..|es| - 1]);
      ApplyCounts(Run(INITIAL, es[..|es| - 1]), StepsIn(es[..|es| - 1]), es[|es| - 1]);
    }
  }

  lemma StepCounterOf(es: seq<SimEvent>)
    ensures Run(INITIAL, es).stepCounter == StepsIn(es) % WORD
  {
    RunCounts(es);
  }

  /** The fault generator and the sensor generators depend on the number of steps alone. */
  lemma SeedsOf(es: seq<SimEvent>)
    ensures Run(INITIAL, es).rngState == Lcg.Iterate(StepsIn(es), 42)
    ensures Run(INITIAL, es).engineTemp.seed == Lcg.Iterate(StepsIn(es), 0xCF10 * 7 + 13)
    ensures Run(INITIAL, es).batteryVoltage.seed == Lcg.Iterate(StepsIn(es), 0xCF11 * 7 + 13)
    ensures Run(INITIAL, es).vehicleSpeed.seed == Lcg.Iterate(StepsIn(es), 0xCF12 * 7 + 13)
  {
    RunCounts(es);
  }

  lemma CounterStep(n: nat)
    ensures (n % WORD + 1) % WORD == (n + 1) % WORD
    ensures (n + 1) / 4 == n / 4 + if (n + 1) % WORD % 4 == 0 then 1 else 0
  {
    var q, r := n / WORD, n % WORD;
    if r + 1 < WORD {
      DivModUnique(n + 1, WORD, q, r + 1);
    } else {
      DivModUnique(n + 1, WORD, q + 1, 0);
    }
    NestedMod(n + 1, 4, WORD / 4);
    Quarter(n);
  }

  lemma Quarter(n: nat)
    ensures (n + 1) / 4 == n / 4 + if (n + 1) % 4 == 0 then 1 else 0
  {
  }

  /** The generator state recurs in a run exactly when the step counts agree modulo 2^32. */
  lemma GeneratorRecurs(es: seq<SimEvent>, fs: seq<SimEvent>)
    ensures Run(INITIAL, es + fs).rngState == Run(INITIAL, es).rngState <==> StepsIn(fs) % WORD == 0
  {
    SeedsOf(es);
    SeedsOf(es + fs);
    StepsSplit(es, fs);
    Lcg.IterateRecurs(StepsIn(fs), StepsIn(es), 42);
  }

  lemma {:induction false} StepsSplit(es: seq<SimEvent>, fs: seq<SimEvent>)
    ensures StepsIn(es + fs) == StepsIn(es) + StepsIn(fs)
  {
    if fs == [] {
      assert es + fs == es;
    } else {
      StepsSplit(es, fs[..|fs| - 1]);
      assert (es + fs)[..|es + fs| - 1] == es + fs[..|fs| - 1];
    }
  }
}
