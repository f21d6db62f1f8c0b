/** The 10 ms cyclic job of the UDS system: every fiftieth tick of a 32-bit counter steps the simulator. */
module UdsTick {
  import opened Arithmetic
  import opened Simulator
  import opened SimulatorRuns

  const STEPS_PER_WRAP: nat := 85899346

  datatype TickState = TickState(counter: uint32, sim: SimState)

  predicate Fires(counter: uint32) { (counter + 1) % WORD % 50 == 0 }

  function Tick(t: TickState): TickState {
    TickState((t.counter + 1) % WORD, if Fires(t.counter) then Advance(t.sim) else t.sim)
  }

  class UdsSystem {
    const dtcSimulator: DtcSimulator
    var counter: uint32

    ghost predicate Valid()
      reads this, dtcSimulator, dtcSimulator.store, dtcSimulator.store.cells
    {
      dtcSimulator.Valid()
    }

    ghost function View(): TickState
      requires Valid()
      reads this, dtcSimulator, dtcSimulator.store, dtcSimulator.store.cells,
        dtcSimulator.engineTemp, dtcSimulator.batteryVoltage, dtcSimulator.vehicleSpeed
    {
      TickState(counter, dtcSimulator.View())
    }

    constructor ()
      ensures Valid() && View() == TickState(0, INITIAL.(dtcs := []))
      ensures |dtcSimulator.store.cells| == MAX_DTCS
    {
      dtcSimulator := new DtcSimulator();
      counter := 0;
    }

    method Init()
      requires Valid()
      modifies dtcSimulator.store, dtcSimulator.store.cells
      ensures Valid()
      ensures View() == old(View()).(sim := old(View()).sim.(dtcs :=
        AddEach(old(View()).sim.dtcs, DEMO_DTCS, |dtcSimulator.store.cells|)))
    {
      dtcSimulator.Init();
    }

    method Execute()
      requires Valid()
      requires Fires(counter) && Toggles(dtcSimulator.View()) ==> dtcSimulator.store.View() != []
      modifies this, dtcSimulator, dtcSimulator.store.cells,
        dtcSimulator.engineTemp, dtcSimulator.batteryVoltage, dtcSimulator.vehicleSpeed
      ensures Valid() && View() == Tick(old(View()))
    {
      ghost var t := View();
      counter := (counter + 1) % WORD;
      assert dtcSimulator.View() == t.sim;
      RunIfDue();
      assert dtcSimulator.View() == if Fires(t.counter) then Advance(t.sim) else t.sim;
    }

    method RunIfDue()
      requires Valid()
      requires counter % 50 == 0 && Toggles(dtcSimulator.View()) ==> dtcSimulator.store.View() != []
      modifies dtcSimulator, dtcSimulator.store.cells,
        dtcSimulator.engineTemp, dtcSimulator.batteryVoltage, dtcSimulator.vehicleSpeed
      ensures Valid()
      ensures dtcSimulator.View()
           == if counter % 50 == 0 then Advance(old(dtcSimulator.View())) else old(dtcSimulator.View())
    {
      if counter % 50 == 0 {
        dtcSimulator.Step();
      }
    }
  }

  // ----- scheduling over any number of ticks -----

  function Ticks(t: TickState, n: nat): TickState {
    if n == 0 then t else Tick(Ticks(t, n - 1))
  }

  /** The n-th tick (counting from 1) steps the simulator. */
  predicate StepsAt(n: nat) { n > 0 && n % WORD % 50 == 0 }

  function StepCount(n: nat): nat {
    if n == 0 then 0 else StepCount(n - 1) + if StepsAt(n) then 1 else 0
  }

  /** n ticks run exactly q * 85899346 + r / 50 steps, where n = q * 2^32 + r. */
  lemma {:induction false} StepCountClosedForm(n: nat)
    ensures StepCount(n) == n / WORD * STEPS_PER_WRAP + n % WORD / 50
  {
    if n == 0 {
    } else {
      StepCountClosedForm(n - 1);
      NextTick(n - 1);
    }
  }

  lemma NextTick(m: nat)
    ensures (m + 1) / WORD * STEPS_PER_WRAP + (m + 1) % WORD / 50
         == m / WORD * STEPS_PER_WRAP + m % WORD / 50 + if StepsAt(m + 1) then 1 else 0
  {
    var q, r := m / WORD, m % WORD;
    if r + 1 < WORD {
      DivModUnique(m + 1, WORD, q, r + 1);
    } else {
      DivModUnique(m + 1, WORD, q + 1, 0);
    }
  }

  /** Steps are 50 ticks apart, except for one gap of 46 ticks at each wrap of the counter. */
  lemma StepGap(n: nat)
    requires StepsAt(n)
    ensures var gap := if n % WORD == WORD - 46 then 46 else 50;
      StepsAt(n + gap) && forall m :: n < m < n + gap ==> !StepsAt(m)
  {
    var q, r := n / WORD, n % WORD;
    var gap := if r == WORD - 46 then 46 else 50;
    forall m | n < m <= n + gap
      ensures StepsAt(m) <==> m == n + gap
    {
      if r + (m - n) < WORD {
        DivModUnique(m, WORD, q, r + (m - n));
      } else {
        DivModUnique(m, WORD, q + 1, r + (m - n) - WORD);
      }
    }
  }

  function Repeat(k: nat): (es: seq<SimEvent>)
    ensures |es| == k
  {
    seq(k, i => Step)
  }

  lemma OneMoreStep(s: SimState, k: nat)
    ensures Run(s, Repeat(k + 1)) == Advance(Run(s, Repeat(k)))
  {
    assert Repeat(k + 1)[..k] == Repeat(k);
  }

  lemma FiresAtTick(n: nat)
    ensures Fires(n % WORD) == StepsAt(n + 1)
  {
    CounterStep(n);
  }

  /** t is what n ticks make of a system started in s: the counter wrapped, and exactly
      StepCount(n) simulator steps, nothing else. */
  ghost predicate IsAfter(t: TickState, s: SimState, n: nat) {
    t.counter == n % WORD && t.sim == Run(s, Repeat(StepCount(n)))
  }

  lemma TickIsAfter(t: TickState, s: SimState, n: nat)
    requires IsAfter(t, s, n)
    ensures IsAfter(Tick(t), s, n + 1)
  {
    CounterStep(n);
    FiresAtTick(n);
    if StepsAt(n + 1) {
      OneMoreStep(s, StepCount(n));
    }
  }

  lemma {:induction false} TicksAreSteps(s: SimState, n: nat)
    ensures IsAfter(Ticks(TickState(0, s), n), s, n)
  {
    if n == 0 {
    } else {
      TicksAreSteps(s, n - 1);
      TickIsAfter(Ticks(TickState(0, s), n - 1), s, n - 1);
    }
  }
}
