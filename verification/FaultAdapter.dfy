/** The Python diagnostic adapter: decoders for the ECU's responses and the bounded histories. */
module FaultAdapter {
  import opened Wrappers
  import opened Bytes
  import opened TroubleCodes
  import opened DtcStore

  const MAX_HISTORY: nat := 300

  /** Why a request handler gives up: an ECU negative response, or an unexpected response. */
  datatype Reply<+T> = Success(value: T) | Negative(nrc: byte) | Unexpected

  // ----- status byte -----

  datatype StatusFlags = StatusFlags(
    testFailed: bool, testFailedThisOperationCycle: bool, pendingDTC: bool, confirmedDTC: bool,
    testNotCompletedSinceLastClear: bool, testFailedSinceLastClear: bool,
    testNotCompletedThisOperationCycle: bool, warningIndicatorRequested: bool)

  function DecodeStatusByte(sb: byte): StatusFlags {
    StatusFlags(sb & 0x01 != 0, sb & 0x02 != 0, sb & 0x04 != 0, sb & 0x08 != 0,
                sb & 0x10 != 0, sb & 0x20 != 0, sb & 0x40 != 0, sb & 0x80 != 0)
  }

  function Weight(flag: bool, mask: byte): byte { if flag then mask else 0 }

  function EncodeStatusFlags(f: StatusFlags): byte {
    Weight(f.testFailed, TEST_FAILED)
    | Weight(f.testFailedThisOperationCycle, TEST_FAILED_THIS_OPERATION_CYCLE)
    | Weight(f.pendingDTC, PENDING_DTC)
    | Weight(f.confirmedDTC, CONFIRMED_DTC)
    | Weight(f.testNotCompletedSinceLastClear, TEST_NOT_COMPLETED_SINCE_LAST_CLEAR)
    | Weight(f.testFailedSinceLastClear, TEST_FAILED_SINCE_LAST_CLEAR)
    | Weight(f.testNotCompletedThisOperationCycle, TEST_NOT_COMPLETED_THIS_OPERATION_CYCLE)
    | Weight(f.warningIndicatorRequested, WARNING_INDICATOR_REQUESTED)
  }

  /** The flag names of the adapter are the bits of the ECU: both directions lose nothing. */
  lemma StatusRoundTrip(sb: byte, f: StatusFlags)
    ensures EncodeStatusFlags(DecodeStatusByte(sb)) == sb
    ensures DecodeStatusByte(EncodeStatusFlags(f)) == f
  {
  }

  // ----- specification of the record decoder -----

  function RecordAt(data: seq<byte>, i: nat): Dtc
    requires 4 * i + 4 <= |data|
  {
    Dtc(Join24(data[4 * i], data[4 * i + 1], data[4 * i + 2]), data[4 * i + 3])
  }

  /** Exactly floor(len / 4) records, whatever the length. */
  function Decoded(data: seq<byte>): (r: seq<Dtc>)
    ensures |r| == |data| / 4
  {
    seq(|data| / 4, i requires 0 <= i < |data| / 4 => RecordAt(data, i))
  }

  // ----- identifiers -----

  function HexDigit(n: bv32): char { "0123456789ABCDEF"[(n & 15) as int] }

  /** The identifier of a fault: 0x and six hexadecimal digits. */
  function HexId(n: bv32): string {
    ['0', 'x', HexDigit(n >> 20), HexDigit(n >> 16), HexDigit(n >> 12), HexDigit(n >> 8), HexDigit(n >> 4), HexDigit(n)]
  }

  lemma HexDigitInjective(m: bv32, n: bv32)
    requires HexDigit(m) == HexDigit(n)
    ensures m & 15 == n & 15
  {
  }

  /** Different 24-bit numbers have different identifiers. */
  lemma HexIdInjective(m: bv32, n: bv32)
    requires HexId(m) == HexId(n)
    ensures m & MASK24 == n & MASK24
  {
    var a, b := HexId(m), HexId(n);
    assert a[2] == b[2] && a[3] == b[3] && a[4] == b[4] && a[5] == b[5] && a[6] == b[6] && a[7] == b[7];
    HexDigitInjective(m >> 20, n >> 20);
    HexDigitInjective(m >> 16, n >> 16);
    HexDigitInjective(m >> 12, n >> 12);
    HexDigitInjective(m >> 8, n >> 8);
    HexDigitInjective(m >> 4, n >> 4);
    HexDigitInjective(m, n);
  }

  /** The identifiers of the faults of the demo ECU. */
  lemma HexIds()
    ensures HexId(0x010100) == "0x010100" && HexId(0x010200) == "0x010200" && HexId(0x010300) == "0x010300"
    ensures HexId(0x010400) == "0x010400" && HexId(0x010500) == "0x010500" && HexId(0xABCDEF) == "0xABCDEF"
  {
  }

  // ----- fault dictionary -----

  datatype Named = Named(id: string, status: byte)

  /** A dictionary filled in order: a later entry with the same identifier wins. */
  function Dict(entries: seq<Named>): map<string, byte> {
    if entries == [] then map[]
    else
      var last := entries[|entries| - 1];
      Dict(entries[..|entries| - 1])[last.id := last.status]
  }

  lemma {:induction false} DictHolds(entries: seq<Named>, i: nat)
    requires i < |entries|
    requires forall k :: i < k < |entries| ==> entries[k].id != entries[i].id
    ensures entries[i].id in Dict(entries) && Dict(entries)[entries[i].id] == entries[i].status
  {
    if i == |entries| - 1 {
    } else {
      DictHolds(entries[..|entries| - 1], i);
    }
  }

  /** Every binding of the dictionary comes from an entry. */
  lemma {:induction false} DictSource(entries: seq<Named>, id: string) returns (i: nat)
    requires id in Dict(entries)
    ensures i < |entries| && entries[i] == Named(id, Dict(entries)[id])
  {
    i := |entries| - 1;
    if entries[i].id != id {
      i := DictSource(entries[..i], id);
    }
  }

  lemma {:induction false} DictSize(entries: seq<Named>)
    requires forall i, j :: 0 <= i < j < |entries| ==> entries[i].id != entries[j].id
    ensures |Dict(entries)| == |entries|
  {
    if entries == [] {
    } else {
      var n := |entries| - 1;
      DictSize(entries[..n]);
      if entries[n].id in Dict(entries[..n]) {
        var i := DictSource(entries[..n], entries[n].id);
      }
    }
  }

  function Names(records: seq<Dtc>): (r: seq<Named>)
    ensures |r| == |records|
  {
    seq(|records|, i requires 0 <= i < |records| => Named(HexId(records[i].number), records[i].status))
  }

  /** The fault dictionary of a decoded list. */
  function Snapshot(records: seq<Dtc>): map<string, byte> { Dict(Names(records)) }

  lemma SnapshotNext(records: seq<Dtc>, k: nat)
    requires k < |records|
    ensures Snapshot(records[..k + 1]) == Snapshot(records[..k])[HexId(records[k].number) := records[k].status]
  {
    assert Names(records[..k + 1])[..k] == Names(records[..k]);
  }

  ghost predicate All24Bit(ds: seq<Dtc>) {
    forall i :: 0 <= i < |ds| ==> ds[i].Is24Bit()
  }

  lemma NamesDistinct(records: seq<Dtc>)
    requires Distinct(records) && All24Bit(records)
    ensures forall i, j :: 0 <= i < j < |records| ==> Names(records)[i].id != Names(records)[j].id
  {
    forall i, j | 0 <= i < j < |records|
      ensures Names(records)[i].id != Names(records)[j].id
    {
      assert records[i].number != records[j].number;
      if HexId(records[i].number) == HexId(records[j].number) {
        HexIdInjective(records[i].number, records[j].number);
      }
    }
  }

  /** With distinct numbers the dictionary is the list, record for record. */
  lemma SnapshotFaithful(records: seq<Dtc>, i: nat)
    requires Distinct(records) && All24Bit(records)
    ensures |Snapshot(records)| == |records|
    ensures i < |records| ==>
      HexId(records[i].number) in Snapshot(records) && Snapshot(records)[HexId(records[i].number)] == records[i].status
  {
    NamesDistinct(records);
    DictSize(Names(records));
    if i < |records| {
      DictHolds(Names(records), i);
    }
  }

  // ----- counts shown for one snapshot -----

  datatype Counts = Counts(active: nat, confirmed: nat, total: nat)

  function KeysWith(snap: map<string, byte>, bit: byte): set<string> {
    set k | k in snap && snap[k] & bit != 0
  }

  function CountsOf(snap: map<string, byte>): Counts {
    Counts(|KeysWith(snap, 0x01)|, |KeysWith(snap, 0x08)|, |snap|)
  }

  lemma SubsetSize<T>(a: set<T>, b: set<T>)
    requires a <= b
    ensures |a| <= |b|
  {
    assert b == a + (b - a);
  }

  /** Counts are ordered whenever every failing fault of the snapshot is confirmed. */
  lemma CountsOrdered(snap: map<string, byte>)
    requires forall k :: k in snap && snap[k] & 0x01 != 0 ==> snap[k] & 0x08 != 0
    ensures CountsOf(snap).active <= CountsOf(snap).confirmed <= CountsOf(snap).total
  {
    SubsetSize(KeysWith(snap, 0x01), KeysWith(snap, 0x08));
    SubsetSize(KeysWith(snap, 0x08), snap.Keys);
  }

  // ----- bounded history -----

  /** Appending to a deque of bounded length drops the oldest entry. */
  function Push<T>(history: seq<T>, entry: T): (r: seq<T>)
    ensures |r| == if |history| + 1 <= 300 then |history| + 1 else 300
    ensures r == (history + [entry])[|history| + 1 - |r|..]
  {
    if |history| < MAX_HISTORY then history + [entry] else history[|history| - MAX_HISTORY + 1..] + [entry]
  }

  datatype FaultEntry = FaultEntry(time: int, snap: map<string, byte>)
  datatype Sample = Sample(time: int, value: int)

  /** The value formats of the catalogue that the poll decodes; any other gives no sample. */
  datatype Format = Int32 | UInt16 | Other

  /** The value read from a 0x22 response. */
  function SensorValue(resp: seq<byte>, format: Format): Option<int> {
    if |resp| < 7 || resp[0] != 0x62 then None
    else
      match format
      case Int32 => Some(Signed32(FromBigEndian32(resp[3..7])))
      case UInt16 => Some(Value(resp[3]) * 256 + Value(resp[4]))
      case Other => None
  }

  function FaultSnapshot(resp: seq<byte>): Option<map<string, byte>> {
    if |resp| >= 3 && resp[0] == 0x59 then Some(Snapshot(Decoded(resp[3..]))) else None
  }

  function PushSample(history: map<string, seq<Sample>>, did: string, sample: Sample): map<string, seq<Sample>> {
    history[did := Push(if did in history then history[did] else [], sample)]
  }

  function SensorPolled(
    history: map<string, seq<Sample>>, did: string, format: Format, resp: seq<byte>, ts: int): map<string, seq<Sample>>
  {
    match SensorValue(resp, format)
    case Some(value) => PushSample(history, did, Sample(ts, value))
    case None => history
  }

  function FaultsPolled(history: seq<FaultEntry>, resp: seq<byte>, ts: int): seq<FaultEntry> {
    match FaultSnapshot(resp)
    case Some(snap) => Push(history, FaultEntry(ts, snap))
    case None => history
  }

  lemma Overwrite<K, V>(m: map<K, V>, k: K, a: V, b: V)
    ensures m[k := a][k := b] == m[k := b]
  {
    assert m[k := a][k := b].Keys == m[k := b].Keys;
  }

  const POLL_DIDS: seq<string> := ["0xCF10", "0xCF11", "0xCF12"]

  function AllSensorsPolled(
    history: map<string, seq<Sample>>, formats: seq<Format>, responses: seq<seq<byte>>, ts: int)
    : map<string, seq<Sample>>
    requires |responses| <= |POLL_DIDS| == |formats|
  {
    if responses == [] then history
    else
      var k := |responses| - 1;
      SensorPolled(AllSensorsPolled(history, formats, responses[..k], ts), POLL_DIDS[k], formats[k], responses[k], ts)
  }

  // ----- request handlers -----

  /** Negative responses surface as errors before any decoding. */
  function Checked(resp: seq<byte>): Reply<seq<byte>> {
    if |resp| >= 3 && resp[0] == 0x7F then Negative(resp[2]) else Success(resp)
  }

  function FaultList(resp: seq<byte>): Reply<seq<Dtc>> {
    match Checked(resp)
    case Negative(nrc) => Negative(nrc)
    case _ => if |resp| < 3 || resp[0] != 0x59 then Unexpected else Success(Decoded(resp[3..]))
  }

  datatype FaultDetail = FaultDetail(number: bv32, status: byte, occurrenceCounter: Option<byte>)

  /** The request bytes after the service identifier: record number 0xFF asks for all records. */
  function DetailRequest(number: bv32): seq<byte> {
    [0x06, HighByte(number), MiddleByte(number), LowByte(number), 0xFF]
  }

  function DetailOf(number: bv32, resp: seq<byte>): Reply<FaultDetail> {
    match Checked(resp)
    case Negative(nrc) => Negative(nrc)
    case _ =>
      if |resp| < 7 || resp[0] != 0x59 then Unexpected
      else Success(FaultDetail(number, resp[5], if |resp| > 6 then Some(resp[6]) else None))
  }

  method ReadFaults(resp: seq<byte>) returns (reply: Reply<seq<Dtc>>)
    ensures reply == FaultList(resp)
  {
    if |resp| >= 3 && resp[0] == 0x7F {
      return Negative(resp[2]);
    }
    if |resp| < 3 || resp[0] != 0x59 {
      return Unexpected;
    }
    var faults := DecodeLoop(resp[3..]);
    return Success(faults);
  }

  method DecodeLoop(data: seq<byte>) returns (faults: seq<Dtc>)
    ensures faults == Decoded(data)
  {
    faults := [];
    var i := 0;
    while i < |data| - 3
      invariant i == 4 * |faults| && i <= |data|
      invariant forall k :: 0 <= k < |faults| ==> faults[k] == RecordAt(data, k)
    {
      var number := Join24(data[i], data[i + 1], data[i + 2]);
      faults := faults + [Dtc(number, data[i + 3])];
      i := i + 4;
    }
  }

  class Poller {
    var sensorHistory: map<string, seq<Sample>>
    var faultHistory: seq<FaultEntry>

    constructor ()
      ensures sensorHistory == map[] && faultHistory == []
    {
      sensorHistory, faultHistory := map[], [];
    }

    /** One poll: the three sensor responses in order, then the fault list. A request that got no
        usable response is an empty byte string. */
    method PollEcuOnce(formats: seq<Format>, sensorResponses: seq<seq<byte>>, faultResponse: seq<byte>, ts: int)
      requires |sensorResponses| == |POLL_DIDS| == |formats|
      modifies this
      ensures sensorHistory == AllSensorsPolled(old(sensorHistory), formats, sensorResponses, ts)
      ensures faultHistory == FaultsPolled(old(faultHistory), faultResponse, ts)
    {
      for k := 0 to |POLL_DIDS|
        invariant sensorHistory == AllSensorsPolled(old(sensorHistory), formats, sensorResponses[..k], ts)
        invariant faultHistory == old(faultHistory)
      {
        PollSensor(POLL_DIDS[k], formats[k], sensorResponses[k], ts);
        assert sensorResponses[..k + 1][..k] == sensorResponses[..k];
      }
      assert sensorResponses[..|POLL_DIDS|] == sensorResponses;
      if |faultResponse| >= 3 && faultResponse[0] == 0x59 {
        var snap := SnapshotLoop(faultResponse[3..]);
        faultHistory := Push(faultHistory, FaultEntry(ts, snap));
      }
    }

    method PollSensor(did: string, format: Format, resp: seq<byte>, ts: int)
      modifies this`sensorHistory
      ensures sensorHistory == SensorPolled(old(sensorHistory), did, format, resp, ts)
    {
      if |resp| >= 7 && resp[0] == 0x62 {
        var value: Option<int> := None;
        if format == Int32 {
          value := Some(Signed32(FromBigEndian32(resp[3..7])));
        } else if format == UInt16 {
          value := Some(Value(resp[3]) * 256 + Value(resp[4]));
        }
        if value.Some? {
          if did !in sensorHistory {
            Overwrite(sensorHistory, did, [], Push([], Sample(ts, value.value)));
            sensorHistory := sensorHistory[did := []];
          }
          sensorHistory := sensorHistory[did := Push(sensorHistory[did], Sample(ts, value.value))];
        }
      }
    }

    method SnapshotLoop(data: seq<byte>) returns (snap: map<string, byte>)
      ensures snap == Snapshot(Decoded(data))
    {
      snap := map[];
      var i := 0;
      ghost var k := 0;
      assert Decoded(data)[..0] == [];
      while i < |data| - 3
        invariant i == 4 * k && i <= |data|
        invariant snap == Snapshot(Decoded(data)[..k])
      {
        var number := Join24(data[i], data[i + 1], data[i + 2]);
        assert Decoded(data)[k] == RecordAt(data, k) == Dtc(number, data[i + 3]);
        SnapshotNext(Decoded(data), k);
        snap := snap[HexId(number) := data[i + 3]];
        i, k := i + 4, k + 1;
      }
      assert Decoded(data)[..|data| / 4] == Decoded(data);
    }

    /** The count series shown for the history. */
    method FaultsHistory() returns (result: seq<(int, Counts)>)
      ensures |result| == |faultHistory|
      ensures forall i :: 0 <= i < |result| ==>
        result[i] == (faultHistory[i].time, CountsOf(faultHistory[i].snap))
    {
      result := [];
      for i := 0 to |faultHistory|
        invariant |result| == i
        invariant forall k :: 0 <= k < i ==>
          result[k] == (faultHistory[k].time, CountsOf(faultHistory[k].snap))
      {
        result := result + [(faultHistory[i].time, CountsOf(faultHistory[i].snap))];
      }
    }
  }
}
