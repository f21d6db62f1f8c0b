/** The UDS services over the fault memory: ReadDTCInformation (0x19) and
    ClearDiagnosticInformation (0x14). Requests are the bytes after the service identifier. */
module UdsServices {
  import opened Bytes
  import opened Response
  import opened TroubleCodes
  import opened DtcStore

  const READ_DTC_INFORMATION: byte := 0x19

  const REPORT_NUMBER_OF_DTC_BY_STATUS_MASK: byte := 0x01
  const REPORT_DTC_BY_STATUS_MASK: byte := 0x02
  const REPORT_DTC_EXT_DATA_RECORD_BY_DTC_NUMBER: byte := 0x06
  const DTC_FORMAT_IDENTIFIER: byte := 0x01
  const STATUS_AVAILABILITY_MASK: byte := 0xFF
  const GROUP_OF_ALL_DTCS: bv32 := 0xFFFFFF

  datatype ReturnCode = Ok | SubFunctionNotSupported | InvalidFormat | RequestOutOfRange

  /** What the client receives: the positive response identifier and the data, or a negative
      response. */
  function Wire(service: byte, code: ReturnCode, data: seq<byte>): seq<byte> {
    match code
    case Ok => [service | 0x40] + data
    case SubFunctionNotSupported => [0x7F, service, 0x12]
    case InvalidFormat => [0x7F, service, 0x13]
    case RequestOutOfRange => [0x7F, service, 0x31]
  }

  // ----- specification of the response data -----

  function Record(d: Dtc): (r: seq<byte>)
    ensures |r| == 4
  {
    [HighByte(d.number), MiddleByte(d.number), LowByte(d.number), d.status]
  }

  function Records(ds: seq<Dtc>): (r: seq<byte>)
    ensures |r| == 4 * |ds|
  {
    if ds == [] then [] else Records(ds[..|ds| - 1]) + Record(ds[|ds| - 1])
  }

  function CountData(ds: seq<Dtc>, mask: byte): seq<byte> {
    var count := |Matching(ds, mask & STATUS_AVAILABILITY_MASK)|;
    [REPORT_NUMBER_OF_DTC_BY_STATUS_MASK, STATUS_AVAILABILITY_MASK, DTC_FORMAT_IDENTIFIER,
     ToByte(count / 256 % 256), ToByte(count % 256)]
  }

  function ListData(ds: seq<Dtc>, mask: byte): seq<byte> {
    [REPORT_DTC_BY_STATUS_MASK, STATUS_AVAILABILITY_MASK]
    + Records(Matching(ds, mask & STATUS_AVAILABILITY_MASK))
  }

  /** The occurrence counter is simulated: one while the test fails, else zero. */
  function Occurrences(d: Dtc): byte { if d.Has(TEST_FAILED) then 1 else 0 }

  function DetailData(d: Dtc, recordNumber: byte): seq<byte> {
    [REPORT_DTC_EXT_DATA_RECORD_BY_DTC_NUMBER] + Record(d) + [recordNumber, Occurrences(d)]
  }

  /** The untruncated answer of service 0x19. */
  function ReadAnswer(ds: seq<Dtc>, request: seq<byte>): (ReturnCode, seq<byte>) {
    if |request| < 2 then (InvalidFormat, [])
    else
      var subFunction := request[0] & 0x7F;
      if subFunction == REPORT_NUMBER_OF_DTC_BY_STATUS_MASK then (Ok, CountData(ds, request[1]))
      else if subFunction == REPORT_DTC_BY_STATUS_MASK then (Ok, ListData(ds, request[1]))
      else if subFunction == REPORT_DTC_EXT_DATA_RECORD_BY_DTC_NUMBER then
        if |request| < 5 then (InvalidFormat, [])
        else
          match FirstIndex(ds, Join24(request[1], request[2], request[3]))
          case Some(i) => (Ok, DetailData(ds[i], request[4]))
          case None => (RequestOutOfRange, [])
      else (SubFunctionNotSupported, [])
  }

  /** The store after service 0x14, and the return code. */
  function ClearAnswer(ds: seq<Dtc>, request: seq<byte>): (seq<Dtc>, ReturnCode) {
    if |request| != 3 then (ds, InvalidFormat)
    else
      var group := Join24(request[0], request[1], request[2]);
      if group == GROUP_OF_ALL_DTCS then (AllCleared(ds), Ok)
      else if FirstIndex(ds, group).Some? then (ClearedByNumber(ds, group), Ok)
      else (ds, RequestOutOfRange)
  }

  // ----- the services -----

  class ReadDTCInformation {
    const provider: DiagnosticTroubleCodeStore

    constructor (provider: DiagnosticTroubleCodeStore)
      ensures this.provider == provider
    {
      this.provider := provider;
    }

    /** verify() followed by process(). A response shorter than the answer is a prefix of it. */
    method Execute(request: seq<byte>, response: PositiveResponse) returns (code: ReturnCode)
      requires provider.Valid() && response.Valid() && response.data == []
      modifies response
      ensures response.Valid()
      ensures code == ReadAnswer(provider.View(), request).0
      ensures response.data == Take(ReadAnswer(provider.View(), request).1, response.capacity)
    {
      if |request| < 2 {
        return InvalidFormat;
      }
      var subFunction := request[0] & 0x7F;
      if subFunction == REPORT_NUMBER_OF_DTC_BY_STATUS_MASK {
        ReportNumberOfDtc(request[1], response);
        return Ok;
      } else if subFunction == REPORT_DTC_BY_STATUS_MASK {
        ReportDtcs(request[1], response);
        return Ok;
      } else if subFunction == REPORT_DTC_EXT_DATA_RECORD_BY_DTC_NUMBER {
        code := ReportExtDataRecord(request, response);
      } else {
        return SubFunctionNotSupported;
      }
    }

    method ReportNumberOfDtc(statusMask: byte, response: PositiveResponse)
      requires provider.Valid() && response.Valid() && response.data == []
      modifies response
      ensures response.Valid()
      ensures response.data == Take(CountData(provider.View(), statusMask), response.capacity)
    {
      var count := provider.CountByStatusMask(statusMask & STATUS_AVAILABILITY_MASK);
      AppendAll(response, [REPORT_NUMBER_OF_DTC_BY_STATUS_MASK, STATUS_AVAILABILITY_MASK, DTC_FORMAT_IDENTIFIER,
                           ToByte(count / 256 % 256), ToByte(count % 256)]);
    }

    method ReportDtcs(statusMask: byte, response: PositiveResponse)
      requires provider.Valid() && response.Valid() && response.data == []
      modifies response
      ensures response.Valid()
      ensures response.data == Take(ListData(provider.View(), statusMask), response.capacity)
    {
      var effectiveMask := statusMask & STATUS_AVAILABILITY_MASK;
      ghost var head := [REPORT_DTC_BY_STATUS_MASK, STATUS_AVAILABILITY_MASK];
      ghost var records := Records(Matching(provider.View(), effectiveMask));
      AppendAll(response, [REPORT_DTC_BY_STATUS_MASK, STATUS_AVAILABILITY_MASK]);
      assert response.data == Take(head, response.capacity);
      ReportMatching(effectiveMask, response);
      TakeAppend(head, records, response.capacity);
    }

    /** The loop over the store. */
    method ReportMatching(effectiveMask: byte, response: PositiveResponse)
      requires provider.Valid() && response.Valid()
      modifies response
      ensures response.Valid()
      ensures response.data
           == Take(old(response.data) + Records(Matching(provider.View(), effectiveMask)), response.capacity)
    {
      ghost var ds, head := provider.View(), response.data;
      SentAtFirst(head, ds, effectiveMask, response.capacity);
      for i := 0 to provider.count
        invariant response.Valid() && provider.View() == ds
        invariant response.data == Sent(head, ds, i, effectiveMask, response.capacity)
      {
        MatchOne(head, ds, i, effectiveMask, response.capacity);
        ReportEntry(i, effectiveMask, response);
      }
    }

    /** The loop body: the record of entry i, if its status meets the mask. */
    method ReportEntry(i: nat, effectiveMask: byte, response: PositiveResponse)
      requires provider.Valid() && response.Valid() && i < provider.count
      modifies response
      ensures response.Valid()
      ensures var d := provider.View()[i];
        response.data
        == if d.Matches(effectiveMask) then Take(old(response.data) + Record(d), response.capacity)
           else old(response.data)
    {
      var dtc := provider.GetDtcByIndex(i);
      assert dtc.View() == provider.View()[i];
      if dtc != null && dtc.statusByte & effectiveMask != 0 {
        AppendRecord(dtc, response);
      }
    }

    /** The three number bytes and the status byte, most significant first. */
    method AppendRecord(dtc: DiagnosticTroubleCode, response: PositiveResponse)
      requires response.Valid()
      modifies response
      ensures response.Valid()
      ensures response.data == Take(old(response.data) + Record(dtc.View()), response.capacity)
    {
      AppendAll(response, [HighByte(dtc.dtcNumber), MiddleByte(dtc.dtcNumber), LowByte(dtc.dtcNumber), dtc.statusByte]);
    }

    method ReportExtDataRecord(request: seq<byte>, response: PositiveResponse) returns (code: ReturnCode)
      requires provider.Valid() && response.Valid() && response.data == []
      requires |request| >= 2 && request[0] & 0x7F == REPORT_DTC_EXT_DATA_RECORD_BY_DTC_NUMBER
      modifies response
      ensures response.Valid()
      ensures code == ReadAnswer(provider.View(), request).0
      ensures response.data == Take(ReadAnswer(provider.View(), request).1, response.capacity)
    {
      if |request| < 5 {
        return InvalidFormat;
      }
      var dtcNumber := Join24(request[1], request[2], request[3]);
      var dtc, index := provider.FindDtcByNumber(dtcNumber);
      if dtc == null {
        return RequestOutOfRange;
      }
      ReportRecord(dtc, request[4], response);
      return Ok;
    }

    method ReportRecord(dtc: DiagnosticTroubleCode, recordNumber: byte, response: PositiveResponse)
      requires response.Valid() && response.data == []
      modifies response
      ensures response.Valid()
      ensures response.data == Take(DetailData(dtc.View(), recordNumber), response.capacity)
    {
      var counter: byte := if dtc.statusByte & TEST_FAILED != 0 then 1 else 0;
      ghost var head, record := [REPORT_DTC_EXT_DATA_RECORD_BY_DTC_NUMBER], Record(dtc.View());
      AppendAll(response, [REPORT_DTC_EXT_DATA_RECORD_BY_DTC_NUMBER]);
      assert response.data == Take(head, response.capacity);
      AppendRecord(dtc, response);
      TakeAppend(head, record, response.capacity);
      AppendAll(response, [recordNumber, counter]);
      TakeAppend(head + record, [recordNumber, counter], response.capacity);
    }

    /** One appendUint8 call per byte; results ignored. */
    method AppendAll(response: PositiveResponse, bytes: seq<byte>)
      requires response.Valid()
      modifies response
      ensures response.Valid() && response.data == Take(old(response.data) + bytes, response.capacity)
    {
      assert old(response.data) + bytes[..0] == old(response.data);
      for i := 0 to |bytes|
        invariant response.Valid()
        invariant response.data == Take(old(response.data) + bytes[..i], response.capacity)
      {
        assert old(response.data) + bytes[..i + 1] == old(response.data) + bytes[..i] + [bytes[i]];
        TakeAppend(old(response.data) + bytes[..i], [bytes[i]], response.capacity);
        var appended := response.AppendUint8(bytes[i]);
      }
      assert bytes[..|bytes|] == bytes;
    }
  }

  class ClearDiagnosticInformation {
    const provider: DiagnosticTroubleCodeStore

    constructor (provider: DiagnosticTroubleCodeStore)
      ensures this.provider == provider
    {
      this.provider := provider;
    }

    /** verify() followed by process(); the positive response carries no data. */
    method Execute(request: seq<byte>) returns (code: ReturnCode)
      requires provider.Valid()
      modifies provider.cells
      ensures provider.Valid()
      ensures (provider.View(), code) == ClearAnswer(old(provider.View()), request)
    {
      if |request| != 3 {
        return InvalidFormat;
      }
      var groupOfDtc := Join24(request[0], request[1], request[2]);
      if groupOfDtc == GROUP_OF_ALL_DTCS {
        provider.ClearAll();
      } else {
        var found := provider.ClearByNumber(groupOfDtc);
        if !found {
          return RequestOutOfRange;
        }
      }
      return Ok;
    }
  }

  // ----- records -----

  lemma RecordsAppend(ds: seq<Dtc>, d: Dtc)
    ensures Records(ds + [d]) == Records(ds) + Record(d)
  {
    assert (ds + [d])[..|ds|] == ds;
  }

  /** The response that starts with the given head, after the first n entries. */
  ghost function Sent(head: seq<byte>, ds: seq<Dtc>, n: nat, mask: byte, capacity: nat): (r: seq<byte>)
    requires n <= |ds|
    ensures n == |ds| ==> r == Take(head + Records(Matching(ds, mask)), capacity)
  {
    assert ds[..|ds|] == ds;
    Take(head + Records(Matching(ds[..n], mask)), capacity)
  }

  lemma SentAtFirst(head: seq<byte>, ds: seq<Dtc>, mask: byte, capacity: nat)
    requires |head| <= capacity
    ensures Sent(head, ds, 0, mask, capacity) == head
  {
    assert head + Records(Matching(ds[..0], mask)) == head;
  }

  /** The effect of entry i on that response. */
  lemma MatchOne(head: seq<byte>, ds: seq<Dtc>, i: nat, mask: byte, capacity: nat)
    requires i < |ds|
    ensures Sent(head, ds, i + 1, mask, capacity)
         == if ds[i].Matches(mask) then Take(Sent(head, ds, i, mask, capacity) + Record(ds[i]), capacity)
            else Sent(head, ds, i, mask, capacity)
  {
    assert ds[..i + 1][..i] == ds[..i];
    var before := Matching(ds[..i], mask);
    if ds[i].Matches(mask) {
      RecordsAppend(before, ds[i]);
      assert head + Records(before) + Record(ds[i]) == head + (Records(before) + Record(ds[i]));
      TakeAppend(head + Records(before), Record(ds[i]), capacity);
    }
  }

  lemma {:induction false} RecordsAt(ds: seq<Dtc>, i: nat)
    requires i < |ds|
    ensures Records(ds)[4 * i..4 * i + 4] == Record(ds[i])
  {
    if i == |ds| - 1 {
    } else {
      RecordsAt(ds[..|ds| - 1], i);
    }
  }

  // ----- selection by mask -----

  /** Exactly the stored entries that meet the mask, and never more of them. */
  lemma {:induction false} MatchingIsFilter(ds: seq<Dtc>, mask: byte)
    ensures forall d :: d in Matching(ds, mask) <==> d in ds && d.Matches(mask)
    ensures |Matching(ds, mask)| <= |ds|
  {
    if ds == [] {
    } else {
      var init := ds[..|ds| - 1];
      MatchingIsFilter(init, mask);
      assert forall d :: d in ds <==> d in init || d == ds[|ds| - 1];
    }
  }

  lemma {:induction false} MatchingDistinct(ds: seq<Dtc>, mask: byte)
    requires Distinct(ds)
    ensures Distinct(Matching(ds, mask))
  {
    if ds == [] {
    } else {
      var init := ds[..|ds| - 1];
      MatchingDistinct(init, mask);
      MatchingIsFilter(init, mask);
      var rest := Matching(init, mask);
      forall i | 0 <= i < |rest|
        ensures rest[i].number != ds[|ds| - 1].number
      {
        assert rest[i] in init;
        var k :| 0 <= k < |init| && init[k] == rest[i];
        assert ds[k].number != ds[|ds| - 1].number;
      }
    }
  }

  // ----- clearing -----

  /** Service 0x14 against a pointwise specification: numbers, order and count are kept, and each
      status becomes 0x50 exactly when the request names its entry. */
  lemma ClearPointwise(ds: seq<Dtc>, request: seq<byte>)
    requires Distinct(ds) && |request| == 3
    ensures var (ds', code) := ClearAnswer(ds, request);
      var group := Join24(request[0], request[1], request[2]);
      && |ds'| == |ds|
      && (code == Ok <==> group == GROUP_OF_ALL_DTCS || exists i :: 0 <= i < |ds| && ds[i].number == group)
      && (code != Ok ==> code == RequestOutOfRange)
      && forall i :: 0 <= i < |ds| ==>
        ds'[i] == if group == GROUP_OF_ALL_DTCS || ds[i].number == group
          then Dtc(ds[i].number, 0x50) else ds[i]
  {
  }

  /** Repeating a clear changes nothing and gives the same code. */
  lemma ClearIdempotent(ds: seq<Dtc>, request: seq<byte>)
    ensures var (ds', code) := ClearAnswer(ds, request);
      ClearAnswer(ds', request) == (ds', code)
  {
    if |request| == 3 {
      var group := Join24(request[0], request[1], request[2]);
      if group != GROUP_OF_ALL_DTCS {
        var r := FirstIndex(ds, group);
        if r.Some? {
          var ds' := ClearedByNumber(ds, group);
          FirstIndexUnique(ds', group, r.value);
          assert ClearedByNumber(ds', group) == ds';
        }
      } else {
        assert AllCleared(AllCleared(ds)) == AllCleared(ds);
      }
    }
  }

  /** The count decoded from a 0x19 0x01 answer. */
  function DecodedCount(data: seq<byte>): nat
    requires |data| == 5
  {
    Value(data[3]) * 256 + Value(data[4])
  }

  lemma TwoDigits(n: nat)
    ensures n / 256 % 256 * 256 + n % 256 == n % 0x1_0000
    ensures n < 0x1_0000 ==> n % 0x1_0000 == n
  {
  }

  lemma CountRoundTrip(ds: seq<Dtc>, mask: byte)
    ensures DecodedCount(CountData(ds, mask)) == |Matching(ds, mask)| % 0x1_0000
    ensures |ds| < 0x1_0000 ==> DecodedCount(CountData(ds, mask)) == |Matching(ds, mask)|
  {
    FullMask(mask);
    TwoDigits(|Matching(ds, mask)|);
    MatchingIsFilter(ds, mask);
  }

  lemma FullMask(mask: byte)
    ensures mask & STATUS_AVAILABILITY_MASK == mask
  {
  }

  lemma {:induction false} MatchingCleared(ds: seq<Dtc>, mask: byte)
    ensures |Matching(AllCleared(ds), mask)| == if mask & 0x50 != 0 then |ds| else 0
  {
    if ds == [] {
    } else {
      MatchingCleared(ds[..|ds| - 1], mask);
      assert AllCleared(ds)[..|ds| - 1] == AllCleared(ds[..|ds| - 1]);
      assert CLEARED & mask == mask & 0x50;
    }
  }

  lemma ClearAllAnswer(ds: seq<Dtc>)
    ensures ClearAnswer(ds, [0xFF, 0xFF, 0xFF]) == (AllCleared(ds), Ok)
  {
    assert Join24(0xFF, 0xFF, 0xFF) == GROUP_OF_ALL_DTCS;
  }

  /** Re-reading the count after a clear of all faults shows "zero or reduced" exactly when the
      mask avoids bits 4 and 6 (or there is no fault at all): the cleared state sets both bits. */
  lemma CountAfterClear(ds: seq<Dtc>, mask: byte)
    requires |ds| < 0x1_0000
    ensures var before := DecodedCount(CountData(ds, mask));
      var after := DecodedCount(CountData(ClearAnswer(ds, [0xFF, 0xFF, 0xFF]).0, mask));
      after == 0 || after < before <==> mask & 0x50 == 0 || ds == []
  {
    ClearAllAnswer(ds);
    CountRoundTrip(ds, mask);
    CountRoundTrip(AllCleared(ds), mask);
    MatchingCleared(ds, mask);
    MatchingIsFilter(ds, mask);
  }

  lemma {:induction false} NothingSet(ds: seq<Dtc>, mask: byte)
    requires forall i :: 0 <= i < |ds| ==> ds[i].status == 0
    ensures Matching(ds, mask) == []
  {
    if ds == [] {
    } else {
      NothingSet(ds[..|ds| - 1], mask);
    }
  }

  /** With the mask 0xFF the count never drops: faults that were never set count zero before a
      clear and all of them count after it. */
  lemma ClearRaisesCount(ds: seq<Dtc>)
    requires |ds| < 0x1_0000 && forall i :: 0 <= i < |ds| ==> ds[i].status == 0
    ensures DecodedCount(CountData(ds, 0xFF)) == 0
    ensures DecodedCount(CountData(ClearAnswer(ds, [0xFF, 0xFF, 0xFF]).0, 0xFF)) == |ds|
  {
    ClearAllAnswer(ds);
    CountRoundTrip(ds, 0xFF);
    CountRoundTrip(AllCleared(ds), 0xFF);
    MatchingCleared(ds, 0xFF);
    NothingSet(ds, 0xFF);
  }
}
