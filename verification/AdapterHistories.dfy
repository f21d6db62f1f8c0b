/** What the histories of the adapter remember: over every run of the whole system they are the last
    300 readings, in order, each with its time and with what the ECU held at that moment. */
module AdapterHistories {
  import opened Bytes
  import opened DtcStore
  import opened FaultAdapter
  import opened FaultPipeline
  import opened Sensors
  import opened Simulator
  import opened SimulatorRuns
  import opened TroubleCodes
  import opened UdsTick
  import opened Wrappers

  // ----- the last entries of a sequence -----

  /** The last 300 elements, or all of them if there are fewer. */
  function Recent<T>(s: seq<T>): (r: seq<T>)
    ensures |r| == if |s| <= 300 then |s| else 300
  {
    if |s| <= 300 then s else s[|s| - 300..]
  }

  /** A bounded history that was filled from empty holds the last entries. */
  lemma PushRecent<T>(s: seq<T>, entry: T)
    ensures Push(Recent(s), entry) == Recent(s + [entry])
  {
  }

  // ----- faults -----

  /** What a fault read gets from a store: the faults that have any status bit set, as many as fit. */
  function ReadOff(ds: seq<Dtc>, capacity: nat): map<string, byte>
    requires capacity >= 2
  {
    var shown := Matching(ds, 0xFF);
    Snapshot(if |shown| <= (capacity - 2) / 4 then shown else shown[..(capacity - 2) / 4])
  }

  /** The snapshots that the fault reads of a run get, in order. */
  function Snapshots(es: seq<SysEvent>, capacity: nat): seq<FaultEntry> {
    if es == [] || capacity < 2 then []
    else
      var n := |es| - 1;
      Snapshots(es[..n], capacity) + match es[n]
        case FaultsRead(time) => [FaultEntry(time, ReadOff(History(es[..n], capacity).ecu.sim.dtcs, capacity))]
        case _ => []
  }

  lemma ReadGets(ds: seq<Dtc>, capacity: nat)
    requires All24Bit(ds)
    ensures FaultSnapshot(ReadResponse(ds, [0x02, 0xFF], capacity))
         == if capacity < 2 then None else Some(ReadOff(ds, capacity))
  {
    ListResponse(ds, 0xFF, capacity);
    FaultListRoundTrip(ds, 0xFF, capacity);
    if capacity >= 2 {
      var shown := Matching(ds, 0xFF);
      ListReply(ReadResponse(ds, [0x02, 0xFF], capacity));
      assert shown[..|shown|] == shown;
    }
  }

  lemma HappenReads(s: Sys, e: SysEvent, capacity: nat)
    requires All24Bit(s.ecu.sim.dtcs)
    ensures Happen(s, e, capacity).faults
         == if e.FaultsRead? && capacity >= 2
            then Push(s.faults, FaultEntry(e.time, ReadOff(s.ecu.sim.dtcs, capacity))) else s.faults
  {
    ReadGets(s.ecu.sim.dtcs, capacity);
  }

  /** Over every run: the fault history is the last 300 of the snapshots that the fault reads of the run
      got, in order. With room for less than two bytes no read gets one. */
  lemma {:induction false} FaultHistoryRemembers(es: seq<SysEvent>, capacity: nat)
    ensures History(es, capacity).faults == Recent(Snapshots(es, capacity))
  {
    if es == [] {
    } else {
      var n := |es| - 1;
      FaultHistoryRemembers(es[..n], capacity);
      InvariantHolds(es[..n], capacity);
      HappenReads(History(es[..n], capacity), es[n], capacity);
      if es[n].FaultsRead? && capacity >= 2 {
        PushRecent(Snapshots(es[..n], capacity),
                   FaultEntry(es[n].time, ReadOff(History(es[..n], capacity).ecu.sim.dtcs, capacity)));
      }
    }
  }

  // ----- sensors -----

  /** The samples that the reads of one sensor get in a run, in order. */
  function Samples(es: seq<SysEvent>, id: SensorId, capacity: nat): seq<Sample> {
    if es == [] || capacity < 4 then []
    else
      var n := |es| - 1;
      Samples(es[..n], id, capacity)
      + if es[n].SensorRead? && es[n].sensor == id
        then [Sample(es[n].time, SensorOf(History(es[..n], capacity).ecu.sim, id).current)] else []
  }

  lemma DidsDiffer(a: SensorId, b: SensorId)
    ensures DidOf(a) == DidOf(b) ==> a == b
  {
    assert DidOf(a)[5] == DidOf(b)[5] || DidOf(a) != DidOf(b);
  }

  /** The history of one sensor holds the last of these samples. */
  ghost predicate Remembers(sensors: map<string, seq<Sample>>, did: string, samples: seq<Sample>) {
    && (did in sensors <==> samples != [])
    && (did in sensors ==> sensors[did] == Recent(samples))
  }

  lemma OneSampleMore(sensors: map<string, seq<Sample>>, did: string, samples: seq<Sample>, sample: Sample)
    requires Remembers(sensors, did, samples)
    ensures Remembers(PushSample(sensors, did, sample), did, samples + [sample])
  {
    PushRecent(samples, sample);
  }

  lemma OtherSample(sensors: map<string, seq<Sample>>, did: string, samples: seq<Sample>, other: string, sample: Sample)
    requires Remembers(sensors, did, samples) && other != did
    ensures Remembers(PushSample(sensors, other, sample), did, samples)
  {
  }

  /** What one event adds to the samples of a sensor. */
  function Sampled(s: Sys, e: SysEvent, id: SensorId, capacity: nat): seq<Sample> {
    if e.SensorRead? && e.sensor == id && capacity >= 4 then [Sample(e.time, SensorOf(s.ecu.sim, id).current)] else []
  }

  lemma HappenPushes(s: Sys, e: SysEvent, capacity: nat)
    requires SensorsBounded(s.ecu.sim)
    ensures Happen(s, e, capacity).sensors
         == if e.SensorRead? && capacity >= 4
            then PushSample(s.sensors, DidOf(e.sensor), Sample(e.time, SensorOf(s.ecu.sim, e.sensor).current))
            else s.sensors
  {
    if e.SensorRead? { SensorReply(s.ecu.sim, e.sensor, capacity); }
  }

  lemma PushedFor(
    sensors: map<string, seq<Sample>>, id: SensorId, samples: seq<Sample>, read: SensorId, sample: Sample)
    requires Remembers(sensors, DidOf(id), samples)
    ensures Remembers(PushSample(sensors, DidOf(read), sample), DidOf(id),
                      samples + if read == id then [sample] else [])
  {
    DidsDiffer(id, read);
    if read == id {
      OneSampleMore(sensors, DidOf(id), samples, sample);
    } else {
      OtherSample(sensors, DidOf(id), samples, DidOf(read), sample);
      assert samples + [] == samples;
    }
  }

  lemma HappenSamples(s: Sys, e: SysEvent, id: SensorId, capacity: nat, samples: seq<Sample>)
    requires SensorsBounded(s.ecu.sim) && Remembers(s.sensors, DidOf(id), samples)
    ensures Remembers(Happen(s, e, capacity).sensors, DidOf(id), samples + Sampled(s, e, id, capacity))
  {
    HappenPushes(s, e, capacity);
    if e.SensorRead? && capacity >= 4 {
      PushedFor(s.sensors, id, samples, e.sensor, Sample(e.time, SensorOf(s.ecu.sim, e.sensor).current));
    } else {
      assert samples + [] == samples;
    }
  }

  lemma SamplesSplit(es: seq<SysEvent>, id: SensorId, capacity: nat)
    requires es != []
    ensures var n := |es| - 1;
      Samples(es, id, capacity)
      == Samples(es[..n], id, capacity) + Sampled(History(es[..n], capacity), es[n], id, capacity)
  {
  }

  /** Over every run: the history of each sensor is the last 300 of the samples that its reads got, in
      order, and there is one as soon as one was got. With room for less than four bytes none is. */
  lemma {:induction false} SensorHistoryRemembers(es: seq<SysEvent>, id: SensorId, capacity: nat)
    ensures Remembers(History(es, capacity).sensors, DidOf(id), Samples(es, id, capacity))
  {
    if es == [] {
    } else {
      var n := |es| - 1;
      SensorHistoryRemembers(es[..n], id, capacity);
      SensorHistorySafe(es[..n], capacity);
      HappenSamples(History(es[..n], capacity), es[n], id, capacity, Samples(es[..n], id, capacity));
      SamplesSplit(es, id, capacity);
    }
  }

  /** The keys and the requests of the three sensors. */
  lemma SensorNames()
    ensures DidOf(EngineTemp) == "0xCF10" && DidOf(BatteryVoltage) == "0xCF11" && DidOf(VehicleSpeed) == "0xCF12"
    ensures DidLow(EngineTemp) == 0x10 && DidLow(BatteryVoltage) == 0x11 && DidLow(VehicleSpeed) == 0x12
  {
  }

  /** The value that a response to a sensor request carries, byte for byte. */
  lemma SensorFormats(resp: seq<byte>)
    ensures |resp| < 7 || resp[0] != 0x62 ==> SensorValue(resp, Int32) == SensorValue(resp, UInt16) == None
    ensures |resp| >= 7 && resp[0] == 0x62 ==>
      var v := 0x100_0000 * Value(resp[3]) + 0x1_0000 * Value(resp[4]) + 0x100 * Value(resp[5]) + Value(resp[6]);
      && SensorValue(resp, Int32) == Some(if v < 0x8000_0000 then v else v - 0x1_0000_0000)
      && SensorValue(resp, UInt16) == Some(0x100 * Value(resp[3]) + Value(resp[4]))
    ensures SensorValue(resp, Other) == None
  {
  }

  // ----- counts -----

  lemma KeysAfter(snap: map<string, byte>, id: string, status: byte, bit: byte)
    requires id !in snap
    ensures KeysWith(snap[id := status], bit)
         == KeysWith(snap, bit) + if status & bit != 0 then {id} else {}
    ensures id !in KeysWith(snap, bit)
  {
  }

  /** With distinct numbers the counts shown for a list are the numbers of its failing faults (bit 0), of
      its confirmed faults (bit 3) and of all its faults. */
  lemma {:induction false} CountsExactly(records: seq<Dtc>)
    requires Distinct(records) && All24Bit(records)
    ensures CountsOf(Snapshot(records))
         == Counts(|Matching(records, 0x01)|, |Matching(records, 0x08)|, |records|)
  {
    if records == [] {
    } else {
      var n := |records| - 1;
      CountsExactly(records[..n]);
      NewName(records);
      SnapshotFaithful(records, 0);
      assert records[..n + 1] == records;
      SnapshotNext(records, n);
      KeysAfter(Snapshot(records[..n]), HexId(records[n].number), records[n].status, 0x01);
      KeysAfter(Snapshot(records[..n]), HexId(records[n].number), records[n].status, 0x08);
    }
  }

  lemma NewName(records: seq<Dtc>)
    requires Distinct(records) && All24Bit(records) && records != []
    ensures HexId(records[|records| - 1].number) !in Snapshot(records[..|records| - 1])
  {
    var n := |records| - 1;
    if HexId(records[n].number) in Snapshot(records[..n]) {
      var i := DictSource(Names(records[..n]), HexId(records[n].number));
      HexIdInjective(records[i].number, records[n].number);
    }
  }
}
