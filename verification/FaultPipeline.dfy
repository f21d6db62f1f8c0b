/** The fault memory end to end: what the ECU encodes is what the adapter decodes, and what the
    histories hold over every run of the whole system. */
module FaultPipeline {
  import opened Wrappers
  import opened Arithmetic
  import opened Bytes
  import opened Response
  import opened TroubleCodes
  import opened DtcStore
  import opened Sensors
  import opened Simulator
  import opened SimulatorRuns
  import opened UdsTick
  import opened UdsServices
  import opened FaultAdapter

  /** What the client receives for a 0x19 request when the response buffer holds capacity bytes. */
  function ReadResponse(ds: seq<Dtc>, request: seq<byte>, capacity: nat): seq<byte> {
    var (code, data) := ReadAnswer(ds, request);
    Wire(READ_DTC_INFORMATION, code, Take(data, capacity))
  }

  /** The number of records that fit after the two leading bytes. */
  function Fitting(records: nat, capacity: nat): nat {
    if capacity < 2 then 0 else if records <= (capacity - 2) / 4 then records else (capacity - 2) / 4
  }

  // ----- fault list -----

  lemma DecodedRecord(ds: seq<Dtc>, k: nat, i: nat)
    requires All24Bit(ds) && k <= |Records(ds)| && i < k / 4
    ensures i < |ds| && Decoded(Records(ds)[..k])[i] == ds[i]
  {
    var rs := Records(ds);
    RecordsAt(ds, i);
    assert rs[4 * i] == rs[4 * i..4 * i + 4][0];
    assert rs[4 * i + 1] == rs[4 * i..4 * i + 4][1];
    assert rs[4 * i + 2] == rs[4 * i..4 * i + 4][2];
    assert rs[4 * i + 3] == rs[4 * i..4 * i + 4][3];
    JoinSplit24(ds[i].number);
  }

  /** Decoding any prefix of the encoded records gives a prefix of the true list. */
  lemma PrefixDecodes(ds: seq<Dtc>, k: nat)
    requires All24Bit(ds) && k <= |Records(ds)|
    ensures Decoded(Records(ds)[..k]) == ds[..k / 4]
  {
    forall i | 0 <= i < k / 4
      ensures i < |ds| && Decoded(Records(ds)[..k])[i] == ds[i]
    {
      DecodedRecord(ds, k, i);
    }
  }

  lemma {:induction false} Matching24Bit(ds: seq<Dtc>, mask: byte)
    requires All24Bit(ds)
    ensures All24Bit(Matching(ds, mask))
  {
    if ds == [] {
    } else {
      Matching24Bit(ds[..|ds| - 1], mask);
    }
  }

  lemma ListAnswer(ds: seq<Dtc>, mask: byte)
    ensures ReadAnswer(ds, [0x02, mask]) == (Ok, [0x02, 0xFF] + Records(Matching(ds, mask)))
  {
    FullMask(mask);
    assert REPORT_DTC_BY_STATUS_MASK & 0x7F == REPORT_DTC_BY_STATUS_MASK;
  }

  lemma Framing(rs: seq<byte>, capacity: nat)
    ensures var resp := [0x59] + Take([0x02, 0xFF] + rs, capacity);
      if capacity < 2 then |resp| < 3
      else |resp| >= 3 && resp[0] == 0x59 && resp[3..] == Take(rs, capacity - 2)
  {
    var head: seq<byte> := [0x02, 0xFF];
    if 2 <= capacity < |rs| + 2 {
      assert (head + rs)[..capacity] == head + rs[..capacity - 2];
    }
  }

  lemma ListResponse(ds: seq<Dtc>, mask: byte, capacity: nat)
    ensures var resp := ReadResponse(ds, [0x02, mask], capacity);
      var rs := Records(Matching(ds, mask));
      if capacity < 2 then |resp| < 3
      else |resp| >= 3 && resp[0] == 0x59 && resp[3..] == Take(rs, capacity - 2)
  {
    ListAnswer(ds, mask);
    Framing(Records(Matching(ds, mask)), capacity);
    assert READ_DTC_INFORMATION | 0x40 == 0x59;
  }

  lemma WholeDecodes(ds: seq<Dtc>)
    requires All24Bit(ds)
    ensures Decoded(Records(ds)) == ds
  {
    var k := 4 * |ds|;
    PrefixDecodes(ds, k);
    assert Records(ds)[..k] == Records(ds);
    assert ds[..k / 4] == ds;
  }

  lemma TakenDecodes(ds: seq<Dtc>, room: nat)
    requires All24Bit(ds)
    ensures Decoded(Take(Records(ds), room)) == ds[..if |ds| <= room / 4 then |ds| else room / 4]
  {
    if |Records(ds)| <= room {
      WholeDecodes(ds);
    } else {
      PrefixDecodes(ds, room);
    }
  }

  lemma ListReply(resp: seq<byte>)
    ensures |resp| < 3 ==> FaultList(resp) == Unexpected
    ensures |resp| >= 3 && resp[0] == 0x59 ==> FaultList(resp) == Success(Decoded(resp[3..]))
  {
  }

  /** Fault list round trip, for every store, mask and buffer size: the adapter shows exactly the
      faults that meet the mask, in store order, cut to the records that fit. */
  lemma FaultListRoundTrip(ds: seq<Dtc>, mask: byte, capacity: nat)
    requires All24Bit(ds)
    ensures FaultList(ReadResponse(ds, [0x02, mask], capacity))
         == if capacity < 2 then Unexpected
            else Success(Matching(ds, mask)[..Fitting(|Matching(ds, mask)|, capacity)])
  {
    var resp := ReadResponse(ds, [0x02, mask], capacity);
    ListResponse(ds, mask, capacity);
    ListReply(resp);
    Matching24Bit(ds, mask);
    if capacity >= 2 {
      TakenDecodes(Matching(ds, mask), capacity - 2);
    }
  }

  /** What the client decodes from a 0x19 0x01 response. */
  lemma CountResponse(ds: seq<Dtc>, mask: byte, capacity: nat)
    requires capacity >= 5 && |ds| < 0x1_0000
    ensures var resp := ReadResponse(ds, [0x01, mask], capacity);
      |resp| == 6 && DecodedCount(resp[1..]) == |Matching(ds, mask)|
  {
    assert REPORT_NUMBER_OF_DTC_BY_STATUS_MASK & 0x7F == REPORT_NUMBER_OF_DTC_BY_STATUS_MASK;
    assert ReadResponse(ds, [0x01, mask], capacity)[1..] == CountData(ds, mask);
    CountRoundTrip(ds, mask);
  }

  /** When the matching faults fit, the three views of the fault memory agree: the list, the 16-bit
      count received for sub-function 0x01 and the size of the dictionary. */
  lemma ViewsAgree(ds: seq<Dtc>, mask: byte, capacity: nat)
    requires All24Bit(ds) && Distinct(ds) && |ds| < 0x1_0000
    requires capacity >= 5 && capacity >= 2 + 4 * |Matching(ds, mask)|
    ensures FaultList(ReadResponse(ds, [0x02, mask], capacity)) == Success(Matching(ds, mask))
    ensures var count := ReadResponse(ds, [0x01, mask], capacity);
      |count| == 6 && DecodedCount(count[1..]) == |Matching(ds, mask)|
    ensures |Snapshot(Matching(ds, mask))| == |Matching(ds, mask)|
  {
    var m := Matching(ds, mask);
    FaultListRoundTrip(ds, mask, capacity);
    assert m[..Fitting(|m|, capacity)] == m;
    CountResponse(ds, mask, capacity);
    MatchingDistinct(ds, mask);
    Matching24Bit(ds, mask);
    SnapshotFaithful(m, 0);
  }

  // ----- fault detail -----

  /** The adapter's request names exactly the number it was given when that number has 24 bits. */
  lemma DetailRequestNumber(number: bv32)
    ensures var r := DetailRequest(number);
      Join24(r[1], r[2], r[3]) == number <==> number & MASK24 == number
  {
    JoinSplit24(number);
  }

  /** Fault detail: the status shown is the stored one. The occurrence counter does not round trip
      for any fault: the adapter always shows 0xFF, the echoed record number, while the ECU sends
      the counter, 0 or 1, one byte later. */
  lemma FaultDetailRoundTrip(ds: seq<Dtc>, number: bv32, capacity: nat)
    requires number & MASK24 == number
    ensures var shown := DetailOf(number, ReadResponse(ds, DetailRequest(number), capacity));
      match FirstIndex(ds, number)
      case None => shown == Negative(0x31)
      case Some(i) =>
        && shown == (if capacity >= 6 then Success(FaultDetail(number, ds[i].status, Some(0xFF))) else Unexpected)
        && (capacity >= 7 ==>
          ReadResponse(ds, DetailRequest(number), capacity)[7] == Occurrences(ds[i]) && Occurrences(ds[i]) != 0xFF)
  {
    DetailRequestNumber(number);
    assert REPORT_DTC_EXT_DATA_RECORD_BY_DTC_NUMBER & 0x7F == REPORT_DTC_EXT_DATA_RECORD_BY_DTC_NUMBER;
  }

  // ----- the whole system -----

  datatype Sys = Sys(ecu: TickState, faults: seq<FaultEntry>, sensors: map<string, seq<Sample>>)

  const START: Sys := Sys(TickState(0, INITIAL), [], map[])

  datatype SysEvent =
    | Ticked
    | Cleared(request: seq<byte>)
    | Injected(sensor: SensorId, value: uint32)
    | FaultsRead(time: int)
    | SensorRead(sensor: SensorId, time: int)

  function SensorOf(s: SimState, id: SensorId): Sensor {
    match id
    case EngineTemp => s.engineTemp
    case BatteryVoltage => s.batteryVoltage
    case VehicleSpeed => s.vehicleSpeed
  }

  function DidOf(id: SensorId): string {
    match id
    case EngineTemp => POLL_DIDS[0]
    case BatteryVoltage => POLL_DIDS[1]
    case VehicleSpeed => POLL_DIDS[2]
  }

  function DidLow(id: SensorId): byte {
    match id
    case EngineTemp => 0x10
    case BatteryVoltage => 0x11
    case VehicleSpeed => 0x12
  }

  /** The response to a 0x22 request: identifier echo and the value, if it fits. */
  function SensorResponse(s: SimState, id: SensorId, capacity: nat): seq<byte> {
    [0x62, 0xCF, DidLow(id)] + if 4 <= capacity then BigEndian32(SensorOf(s, id).current) else []
  }

  function Happen(s: Sys, e: SysEvent, capacity: nat): Sys {
    match e
    case Ticked => s.(ecu := Tick(s.ecu))
    case Cleared(request) => s.(ecu := s.ecu.(sim := s.ecu.sim.(dtcs := ClearAnswer(s.ecu.sim.dtcs, request).0)))
    case Injected(sensor, value) => s.(ecu := s.ecu.(sim := Apply(s.ecu.sim, Inject(sensor, value))))
    case FaultsRead(time) =>
      s.(faults := FaultsPolled(s.faults, ReadResponse(s.ecu.sim.dtcs, [0x02, 0xFF], capacity), time))
    case SensorRead(id, time) =>
      s.(sensors := SensorPolled(s.sensors, DidOf(id), Int32, SensorResponse(s.ecu.sim, id, capacity), time))
  }

  /** What the ECU answers to the three sensor requests of one poll. */
  function SensorResponses(s: SimState, capacity: nat): seq<seq<byte>> {
    [SensorResponse(s, EngineTemp, capacity), SensorResponse(s, BatteryVoltage, capacity),
     SensorResponse(s, VehicleSpeed, capacity)]
  }

  /** The events of one poll, in order. */
  function Polled(s: Sys, time: int, capacity: nat): Sys {
    var s1 := Happen(s, SensorRead(EngineTemp, time), capacity);
    var s2 := Happen(s1, SensorRead(BatteryVoltage, time), capacity);
    var s3 := Happen(s2, SensorRead(VehicleSpeed, time), capacity);
    Happen(s3, FaultsRead(time), capacity)
  }

  lemma ThreeSensors(history: map<string, seq<Sample>>, formats: seq<Format>, a: seq<byte>, b: seq<byte>, c: seq<byte>,
                     ts: int)
    requires |formats| == |POLL_DIDS|
    ensures AllSensorsPolled(history, formats, [a, b, c], ts)
         == SensorPolled(SensorPolled(SensorPolled(history, POLL_DIDS[0], formats[0], a, ts),
                                      POLL_DIDS[1], formats[1], b, ts), POLL_DIDS[2], formats[2], c, ts)
  {
    assert [a, b, c][..2] == [a, b] && [a, b][..1] == [a] && [a][..0] == [];
    var first := AllSensorsPolled(history, formats, [a], ts);
    assert first == SensorPolled(AllSensorsPolled(history, formats, [], ts), POLL_DIDS[0], formats[0], a, ts);
    var second := AllSensorsPolled(history, formats, [a, b], ts);
    assert second == SensorPolled(first, POLL_DIDS[1], formats[1], b, ts);
  }

  /** One poll of the adapter, on the responses of the ECU, is three sensor reads and one fault read
      of the whole system. */
  lemma PollIsFourReads(s: Sys, time: int, capacity: nat)
    ensures Polled(s, time, capacity) == s.(
      sensors := AllSensorsPolled(s.sensors, [Int32, Int32, Int32], SensorResponses(s.ecu.sim, capacity), time),
      faults := FaultsPolled(s.faults, ReadResponse(s.ecu.sim.dtcs, [0x02, 0xFF], capacity), time))
  {
    ThreeSensors(s.sensors, [Int32, Int32, Int32], SensorResponse(s.ecu.sim, EngineTemp, capacity),
                 SensorResponse(s.ecu.sim, BatteryVoltage, capacity), SensorResponse(s.ecu.sim, VehicleSpeed, capacity),
                 time);
  }

  function History(es: seq<SysEvent>, capacity: nat): Sys {
    if es == [] then START else Happen(History(es[..|es| - 1], capacity), es[|es| - 1], capacity)
  }

  // ----- fault history -----

  ghost predicate Healthy(ds: seq<Dtc>) {
    Distinct(ds) && All24Bit(ds) && forall i :: 0 <= i < |ds| ==> Sound(ds[i])
  }

  /** The total a poll with mask 0xFF would record now. */
  function ShownTotal(ds: seq<Dtc>, capacity: nat): nat {
    Fitting(|Matching(ds, 0xFF)|, capacity)
  }

  lemma HealthyStays(ds: seq<Dtc>, ds': seq<Dtc>)
    requires Healthy(ds) && AllEvolve(ds, ds')
    ensures Healthy(ds')
  {
    forall i, j | 0 <= i < j < |ds'| ensures ds'[i].number != ds'[j].number {
      assert Evolves(ds[i], ds'[i]) && Evolves(ds[j], ds'[j]);
    }
    forall i | 0 <= i < |ds'| ensures ds'[i].Is24Bit() && Sound(ds'[i]) {
      assert Evolves(ds[i], ds'[i]);
    }
  }

  /** A fault that shows up under mask 0xFF shows up for ever. */
  lemma {:induction false} MatchingGrows(ds: seq<Dtc>, ds': seq<Dtc>)
    requires AllEvolve(ds, ds') && forall i :: 0 <= i < |ds| ==> Sound(ds[i])
    ensures |Matching(ds, 0xFF)| <= |Matching(ds', 0xFF)|
  {
    if ds == [] {
    } else {
      var n := |ds| - 1;
      assert Evolves(ds[n], ds'[n]) && Sound(ds[n]);
      NonZeroMatches(ds[n]);
      NonZeroMatches(ds'[n]);
      MatchingGrows(ds[..n], ds'[..n]);
    }
  }

  lemma NonZeroMatches(d: Dtc)
    ensures d.Matches(0xFF) <==> d.status != 0
  {
  }

  ghost predicate Ordered(snap: map<string, byte>) {
    CountsOf(snap).active <= CountsOf(snap).confirmed <= CountsOf(snap).total
  }

  /** What one poll records. */
  lemma PolledSnapshot(ds: seq<Dtc>, capacity: nat)
    requires Healthy(ds)
    ensures var snap := FaultSnapshot(ReadResponse(ds, [0x02, 0xFF], capacity));
      && (snap.Some? <==> capacity >= 2)
      && (snap.Some? ==> Ordered(snap.value) && CountsOf(snap.value).total == ShownTotal(ds, capacity))
  {
    ListResponse(ds, 0xFF, capacity);
    FaultListRoundTrip(ds, 0xFF, capacity);
    if capacity >= 2 {
      var m := Matching(ds, 0xFF);
      var shown := m[..Fitting(|m|, capacity)];
      MatchingIsFilter(ds, 0xFF);
      MatchingDistinct(ds, 0xFF);
      Matching24Bit(ds, 0xFF);
      SnapshotFaithful(shown, 0);
      assert Checked(ReadResponse(ds, [0x02, 0xFF], capacity)).Success?;
      forall i | 0 <= i < |shown|
        ensures Sound(shown[i])
      {
        assert m[i] in m;
      }
      SnapshotOrdered(shown);
    }
  }

  lemma SnapshotOrdered(shown: seq<Dtc>)
    requires forall i :: 0 <= i < |shown| ==> Sound(shown[i])
    ensures Ordered(Snapshot(shown))
  {
    forall id | id in Snapshot(shown) && Snapshot(shown)[id] & 0x01 != 0
      ensures Snapshot(shown)[id] & 0x08 != 0
    {
      var i := DictSource(Names(shown), id);
      assert Sound(shown[i]);
    }
    CountsOrdered(Snapshot(shown));
  }

  ghost predicate HistorySafe(faults: seq<FaultEntry>) {
    && |faults| <= MAX_HISTORY
    && (forall k :: 0 <= k < |faults| ==> Ordered(faults[k].snap))
    && (forall j, k :: 0 <= j < k < |faults| ==> CountsOf(faults[j].snap).total <= CountsOf(faults[k].snap).total)
  }

  ghost predicate AllAtMost(faults: seq<FaultEntry>, bound: nat) {
    forall k :: 0 <= k < |faults| ==> CountsOf(faults[k].snap).total <= bound
  }

  ghost predicate FaultInvariant(s: Sys, capacity: nat) {
    && Healthy(s.ecu.sim.dtcs)
    && HistorySafe(s.faults)
    && AllAtMost(s.faults, ShownTotal(s.ecu.sim.dtcs, capacity))
  }

  lemma PushKeepsSafe(faults: seq<FaultEntry>, entry: FaultEntry)
    requires HistorySafe(faults) && Ordered(entry.snap) && AllAtMost(faults, CountsOf(entry.snap).total)
    ensures HistorySafe(Push(faults, entry)) && AllAtMost(Push(faults, entry), CountsOf(entry.snap).total)
  {
  }

  lemma EcuKeepsInvariant(s: Sys, s': Sys, capacity: nat)
    requires FaultInvariant(s, capacity)
    requires s'.faults == s.faults && AllEvolve(s.ecu.sim.dtcs, s'.ecu.sim.dtcs)
    ensures FaultInvariant(s', capacity)
  {
    HealthyStays(s.ecu.sim.dtcs, s'.ecu.sim.dtcs);
    MatchingGrows(s.ecu.sim.dtcs, s'.ecu.sim.dtcs);
    assert ShownTotal(s.ecu.sim.dtcs, capacity) <= ShownTotal(s'.ecu.sim.dtcs, capacity);
  }

  lemma ClearAnswerEvolves(s: SimState, request: seq<byte>)
    ensures AllEvolve(s.dtcs, ClearAnswer(s.dtcs, request).0)
  {
    ApplyEvolves(s, ClearAll);
    if |request| == 3 {
      ApplyEvolves(s, ClearOne(Join24(request[0], request[1], request[2])));
    }
  }

  lemma HappenKeepsInvariant(s: Sys, e: SysEvent, capacity: nat)
    requires FaultInvariant(s, capacity)
    ensures FaultInvariant(Happen(s, e, capacity), capacity)
  {
    match e
    case Ticked =>
      AdvanceEvolves(s.ecu.sim);
      EcuKeepsInvariant(s, Happen(s, e, capacity), capacity);
    case Cleared(request) =>
      ClearAnswerEvolves(s.ecu.sim, request);
      EcuKeepsInvariant(s, Happen(s, e, capacity), capacity);
    case Injected(sensor, value) =>
      ApplyEvolves(s.ecu.sim, Inject(sensor, value));
      EcuKeepsInvariant(s, Happen(s, e, capacity), capacity);
    case FaultsRead(time) =>
      var snap := FaultSnapshot(ReadResponse(s.ecu.sim.dtcs, [0x02, 0xFF], capacity));
      PolledSnapshot(s.ecu.sim.dtcs, capacity);
      if snap.Some? {
        PushKeepsSafe(s.faults, FaultEntry(time, snap.value));
      }
    case SensorRead(_, _) =>
  }

  lemma StartSafe(s: Sys, capacity: nat)
    requires s.ecu.sim.dtcs == DEMO_DTCS && s.faults == []
    ensures FaultInvariant(s, capacity)
  {
    assert Healthy(DEMO_DTCS);
  }

  lemma {:induction false} InvariantHolds(es: seq<SysEvent>, capacity: nat)
    ensures FaultInvariant(History(es, capacity), capacity)
  {
    if es == [] {
      StartSafe(START, capacity);
      assert History(es, capacity) == START;
    } else {
      InvariantHolds(es[..|es| - 1], capacity);
      HappenKeepsInvariant(History(es[..|es| - 1], capacity), es[|es| - 1], capacity);
    }
  }

  /** End-to-end safety: over any interleaving of ticks, clears, injections and polls, with any
      response buffer, every recorded snapshot has active <= confirmed <= total, and the totals in
      the history never decrease. A clear does not lower them. */
  lemma FaultHistorySafe(es: seq<SysEvent>, capacity: nat)
    ensures HistorySafe(History(es, capacity).faults)
  {
    InvariantHolds(es, capacity);
  }

  // ----- sensor history -----

  predicate InRange(did: string, value: int) {
    if did == POLL_DIDS[0] then 70 <= value <= 130
    else if did == POLL_DIDS[1] then 100 <= value <= 150
    else did == POLL_DIDS[2] && 0 <= value <= 220
  }

  ghost predicate SensorsSafe(sensors: map<string, seq<Sample>>) {
    forall did :: did in sensors ==>
      |sensors[did]| <= MAX_HISTORY && forall k :: 0 <= k < |sensors[did]| ==> InRange(did, sensors[did][k].value)
  }

  lemma Int32Reply(head: seq<byte>, body: seq<byte>)
    requires |head| == 3 && head[0] == 0x62 && |body| == 4
    ensures SensorValue(head + body, Int32) == Some(Signed32(FromBigEndian32(body)))
  {
    assert (head + body)[3..7] == body;
  }

  lemma RangeOf(s: SimState, id: SensorId)
    requires SensorsBounded(s)
    ensures InRange(DidOf(id), SensorOf(s, id).current) && SensorOf(s, id).Bounded()
  {
  }

  lemma SensorReply(s: SimState, id: SensorId, capacity: nat)
    requires SensorsBounded(s)
    ensures SensorValue(SensorResponse(s, id, capacity), Int32)
         == if 4 <= capacity then Some(SensorOf(s, id).current) else None
    ensures InRange(DidOf(id), SensorOf(s, id).current)
  {
    RangeOf(s, id);
    if 4 <= capacity {
      Int32Reply([0x62, 0xCF, DidLow(id)], BigEndian32(SensorOf(s, id).current));
      ValueRoundTrip(SensorOf(s, id));
    }
  }

  lemma SampleKeepsSafe(sensors: map<string, seq<Sample>>, did: string, sample: Sample)
    requires SensorsSafe(sensors) && InRange(did, sample.value)
    ensures SensorsSafe(PushSample(sensors, did, sample))
  {
  }

  lemma SensorPollSafe(s: Sys, id: SensorId, time: int, capacity: nat)
    requires SensorsBounded(s.ecu.sim) && SensorsSafe(s.sensors)
    ensures SensorsSafe(Happen(s, SensorRead(id, time), capacity).sensors)
  {
    SensorReply(s.ecu.sim, id, capacity);
    SampleKeepsSafe(s.sensors, DidOf(id), Sample(time, SensorOf(s.ecu.sim, id).current));
  }

  lemma TickBounded(t: TickState)
    requires SensorsBounded(t.sim)
    ensures SensorsBounded(Tick(t).sim)
  {
    ApplyBounded(t.sim, Step);
  }

  lemma HappenKeepsSensors(s: Sys, e: SysEvent, capacity: nat)
    requires SensorsBounded(s.ecu.sim) && SensorsSafe(s.sensors)
    ensures SensorsBounded(Happen(s, e, capacity).ecu.sim) && SensorsSafe(Happen(s, e, capacity).sensors)
  {
    match e
    case Ticked => TickBounded(s.ecu);
    case Injected(sensor, value) => ApplyBounded(s.ecu.sim, Inject(sensor, value));
    case SensorRead(id, time) => SensorPollSafe(s, id, time, capacity);
    case _ =>
  }

  /** Every value in the bounded sensor histories lies in the range of its sensor, over every run. */
  lemma {:induction false} SensorHistorySafe(es: seq<SysEvent>, capacity: nat)
    ensures SensorsBounded(History(es, capacity).ecu.sim)
    ensures SensorsSafe(History(es, capacity).sensors)
  {
    if es == [] {
    } else {
      SensorHistorySafe(es[..|es| - 1], capacity);
      HappenKeepsSensors(History(es[..|es| - 1], capacity), es[|es| - 1], capacity);
    }
  }
}
