/** The trouble code simulator: three sensor walks, random fault toggles and two faults linked
    to sensor thresholds. */
module Simulator {
  import opened Arithmetic
  import opened Bytes
  import opened TroubleCodes
  import opened DtcStore
  import opened Sensors
  import Lcg

  const DTC_ENGINE_OVERTEMP: bv32 := 0x010100
  const DTC_BATTERY_VOLTAGE_LOW: bv32 := 0x010200
  const DTC_COMMUNICATION_FAULT: bv32 := 0x010300
  const DTC_SENSOR_MALFUNCTION: bv32 := 0x010400
  const DTC_BRAKE_SYSTEM_FAULT: bv32 := 0x010500

  const DID_ENGINE_TEMP: bv16 := 0xCF10
  const DID_BATTERY_VOLT: bv16 := 0xCF11
  const DID_VEHICLE_SPEED: bv16 := 0xCF12

  const MAX_DTCS: nat := 16

  // ----- specification -----

  datatype SimState = SimState(
    dtcs: seq<Dtc>, engineTemp: Sensor, batteryVoltage: Sensor, vehicleSpeed: Sensor,
    stepCounter: uint32, rngState: uint32)

  const DEMO_DTCS: seq<Dtc> := [
    Dtc(DTC_ENGINE_OVERTEMP, 0), Dtc(DTC_BATTERY_VOLTAGE_LOW, 0), Dtc(DTC_COMMUNICATION_FAULT, 0),
    Dtc(DTC_SENSOR_MALFUNCTION, 0), Dtc(DTC_BRAKE_SYSTEM_FAULT, 0)]

  /** The state after construction and init(). */
  const INITIAL: SimState := SimState(
    DEMO_DTCS,
    Sensor(90, 70, 130, 0xCF10 * 7 + 13),
    Sensor(128, 100, 150, 0xCF11 * 7 + 13),
    Sensor(60, 0, 220, 0xCF12 * 7 + 13),
    0, 42)

  /** The 16 random bits taken from the generator state. */
  function RandomBits(rng: uint32): (r: int)
    ensures 0 <= r < 0x1_0000
  {
    (rng / 0x1_0000) % 0x1_0000
  }

  /** One coin flip on one fault: an active fault may go, an inactive one may come. */
  function Toggled(d: Dtc, rnd: nat): Dtc {
    if d.Has(TEST_FAILED) then
      if rnd % 2 != 0 then d.Without(TEST_FAILED).Without(TEST_FAILED_THIS_OPERATION_CYCLE) else d
    else if (rnd / 2) % 2 != 0 then
      d.With(TEST_FAILED).With(TEST_FAILED_THIS_OPERATION_CYCLE)
       .With(CONFIRMED_DTC).With(TEST_FAILED_SINCE_LAST_CLEAR)
    else d
  }

  function ToggleAny(ds: seq<Dtc>, rnd: nat): (r: seq<Dtc>)
    ensures |r| == |ds|
  {
    if ds == [] then ds else ds[rnd % |ds| := Toggled(ds[rnd % |ds|], rnd)]
  }

  /** A fault follows a threshold: raised, dropped, or left as it is. */
  function Linked(d: Dtc, raise: bool, drop: bool): Dtc {
    if raise then d.With(TEST_FAILED).With(CONFIRMED_DTC).With(TEST_FAILED_SINCE_LAST_CLEAR)
    else if drop then d.Without(TEST_FAILED)
    else d
  }

  function LinkNumber(ds: seq<Dtc>, number: bv32, raise: bool, drop: bool): (r: seq<Dtc>)
    ensures |r| == |ds|
  {
    match FirstIndex(ds, number)
    case Some(i) => ds[i := Linked(ds[i], raise, drop)]
    case None => ds
  }

  /** The engine fault follows the temperature, the battery fault the voltage. */
  function FollowSensors(ds: seq<Dtc>, temperature: int, voltage: int): (r: seq<Dtc>)
    ensures |r| == |ds|
  {
    var heated := LinkNumber(ds, DTC_ENGINE_OVERTEMP, temperature > 120, temperature < 100);
    LinkNumber(heated, DTC_BATTERY_VOLTAGE_LOW, voltage < 110, voltage > 120)
  }

  /** Every fourth step toggles one fault; every step follows the sensors. */
  function UpdatedFaults(ds: seq<Dtc>, counter: uint32, rng: uint32, temperature: int, voltage: int): (r: seq<Dtc>)
    ensures |r| == |ds|
  {
    var toggled := if counter % 4 == 0 then ToggleAny(ds, RandomBits(rng)) else ds;
    FollowSensors(toggled, temperature, voltage)
  }

  predicate Toggles(s: SimState) { (s.stepCounter + 1) % WORD % 4 == 0 }

  function Advance(s: SimState): SimState {
    var temp, volt, speed := s.engineTemp.Step(), s.batteryVoltage.Step(), s.vehicleSpeed.Step();
    var counter, rng := (s.stepCounter + 1) % WORD, Lcg.Next(s.rngState);
    SimState(UpdatedFaults(s.dtcs, counter, rng, temp.current, volt.current), temp, volt, speed, counter, rng)
  }

  lemma AdvanceFields(s: SimState, t: SimState)
    requires t.engineTemp == s.engineTemp.Step()
    requires t.batteryVoltage == s.batteryVoltage.Step()
    requires t.vehicleSpeed == s.vehicleSpeed.Step()
    requires t.stepCounter == (s.stepCounter + 1) % WORD
    requires t.rngState == Lcg.Next(s.rngState)
    requires t.dtcs == UpdatedFaults(
      s.dtcs, t.stepCounter, t.rngState, t.engineTemp.current, t.batteryVoltage.current)
    ensures t == Advance(s)
  {
  }

  function AddEach(ds: seq<Dtc>, added: seq<Dtc>, capacity: nat): seq<Dtc> {
    if added == [] then ds
    else
      var before := AddEach(ds, added[..|added| - 1], capacity);
      if |before| < capacity then before + [added[|added| - 1]] else before
  }

  lemma {:induction false} AddEachFits(ds: seq<Dtc>, added: seq<Dtc>, capacity: nat)
    requires |ds| + |added| <= capacity
    ensures AddEach(ds, added, capacity) == ds + added
  {
    if added == [] {
    } else {
      AddEachFits(ds, added[..|added| - 1], capacity);
    }
  }

  // ----- the simulator -----

  class DtcSimulator {
    const store: DiagnosticTroubleCodeStore
    const engineTemp: ReadIdentifierSimulated
    const batteryVoltage: ReadIdentifierSimulated
    const vehicleSpeed: ReadIdentifierSimulated
    var stepCounter: uint32
    var rngState: uint32

    ghost predicate Valid()
      reads this, store, store.cells
    {
      store.Valid() && engineTemp != batteryVoltage && engineTemp != vehicleSpeed && batteryVoltage != vehicleSpeed
    }

    ghost function View(): SimState
      requires Valid()
      reads this, store, store.cells, engineTemp, batteryVoltage, vehicleSpeed
    {
      SimState(store.View(), engineTemp.View(), batteryVoltage.View(), vehicleSpeed.View(), stepCounter, rngState)
    }

    constructor ()
      ensures Valid() && View() == INITIAL.(dtcs := [])
      ensures |store.cells| == MAX_DTCS
      ensures fresh(store) && fresh(store.cells)
      ensures fresh(engineTemp) && fresh(batteryVoltage) && fresh(vehicleSpeed)
    {
      store := new DiagnosticTroubleCodeStore(MAX_DTCS);
      engineTemp := new ReadIdentifierSimulated(DID_ENGINE_TEMP, 90, 70, 130);
      batteryVoltage := new ReadIdentifierSimulated(DID_BATTERY_VOLT, 128, 100, 150);
      vehicleSpeed := new ReadIdentifierSimulated(DID_VEHICLE_SPEED, 60, 0, 220);
      stepCounter, rngState := 0, 42;
    }

    method Init()
      requires Valid()
      modifies store, store.cells
      ensures Valid()
      ensures View() == old(View()).(dtcs := AddEach(old(store.View()), DEMO_DTCS, |store.cells|))
    {
      var demo := [DTC_ENGINE_OVERTEMP, DTC_BATTERY_VOLTAGE_LOW, DTC_COMMUNICATION_FAULT,
                   DTC_SENSOR_MALFUNCTION, DTC_BRAKE_SYSTEM_FAULT];
      for i := 0 to |demo|
        invariant Valid()
        invariant store.View() == AddEach(old(store.View()), DEMO_DTCS[..i], |store.cells|)
      {
        var added := store.AddDtc(demo[i], 0);
        assert DEMO_DTCS[..i + 1][..i] == DEMO_DTCS[..i];
      }
      assert DEMO_DTCS[..|demo|] == DEMO_DTCS;
    }

    method Step()
      requires Valid()
      requires Toggles(View()) ==> store.View() != []
      modifies this, store.cells, engineTemp, batteryVoltage, vehicleSpeed
      ensures Valid() && View() == Advance(old(View()))
    {
      ghost var s := View();
      StepGenerators();
      UpdateFaults();
      AdvanceFields(s, View());
    }

    /** The part of step() before the faults: counter, sensors and fault generator. */
    method StepGenerators()
      requires Valid()
      modifies `stepCounter, `rngState, engineTemp, batteryVoltage, vehicleSpeed
      ensures stepCounter == (old(stepCounter) + 1) % WORD && rngState == Lcg.Next(old(rngState))
      ensures engineTemp.View() == old(engineTemp.View()).Step()
      ensures batteryVoltage.View() == old(batteryVoltage.View()).Step()
      ensures vehicleSpeed.View() == old(vehicleSpeed.View()).Step()
    {
      stepCounter := (stepCounter + 1) % WORD;
      StepSensors();
      rngState := Lcg.Next(rngState);
    }

    method StepSensors()
      requires Valid()
      modifies engineTemp, batteryVoltage, vehicleSpeed
      ensures engineTemp.View() == old(engineTemp.View()).Step()
      ensures batteryVoltage.View() == old(batteryVoltage.View()).Step()
      ensures vehicleSpeed.View() == old(vehicleSpeed.View()).Step()
    {
      engineTemp.Step();
      batteryVoltage.Step();
      vehicleSpeed.Step();
    }

    /** The part of step() after the generators: toggle, then follow the thresholds. */
    method UpdateFaults()
      requires Valid()
      requires stepCounter % 4 == 0 ==> store.View() != []
      modifies store.cells
      ensures Valid()
      ensures store.View() == UpdatedFaults(
        old(store.View()), stepCounter, rngState, engineTemp.currentValue, batteryVoltage.currentValue)
    {
      var rnd := (rngState / 0x1_0000) % 0x1_0000;
      if stepCounter % 4 == 0 {
        ToggleDtc(rnd);
      }
      LinkToSensor(DTC_ENGINE_OVERTEMP, engineTemp.currentValue > 120, engineTemp.currentValue < 100);
      LinkToSensor(DTC_BATTERY_VOLTAGE_LOW, batteryVoltage.currentValue < 110, batteryVoltage.currentValue > 120);
    }

    method ToggleDtc(rnd: nat)
      requires Valid() && store.View() != []
      modifies store.cells
      ensures Valid() && store.View() == ToggleAny(old(store.View()), rnd)
    {
      var dtcIndex := rnd % store.count;
      var dtc := store.GetDtcByIndex(dtcIndex);
      if dtc != null {
        if dtc.statusByte & TEST_FAILED != 0 {
          if rnd % 2 != 0 {
            dtc.ClearStatusBit(TEST_FAILED);
            dtc.ClearStatusBit(TEST_FAILED_THIS_OPERATION_CYCLE);
          }
        } else {
          if (rnd / 2) % 2 != 0 {
            dtc.SetStatusBit(TEST_FAILED);
            dtc.SetStatusBit(TEST_FAILED_THIS_OPERATION_CYCLE);
            dtc.SetStatusBit(CONFIRMED_DTC);
            dtc.SetStatusBit(TEST_FAILED_SINCE_LAST_CLEAR);
          }
        }
        assert dtc.View() == Toggled(old(dtc.View()), rnd);
        store.CellChanged(dtcIndex);
      }
    }

    method LinkToSensor(number: bv32, raise: bool, drop: bool)
      requires Valid()
      modifies store.cells
      ensures Valid() && store.View() == LinkNumber(old(store.View()), number, raise, drop)
    {
      var dtc, index := store.FindDtcByNumber(number);
      if dtc != null {
        if raise {
          dtc.SetStatusBit(TEST_FAILED);
          dtc.SetStatusBit(CONFIRMED_DTC);
          dtc.SetStatusBit(TEST_FAILED_SINCE_LAST_CLEAR);
        } else if drop {
          dtc.ClearStatusBit(TEST_FAILED);
        }
        assert dtc.View() == Linked(old(dtc.View()), raise, drop);
        store.CellChanged(index);
      }
    }
  }

  /** init() on a freshly constructed simulator reaches the initial state of every run below. */
  lemma InitAfterConstruction()
    ensures INITIAL.(dtcs := AddEach([], DEMO_DTCS, MAX_DTCS)) == INITIAL
  {
    AddEachFits([], DEMO_DTCS, MAX_DTCS);
  }
}
