/** The bytes that a tester gets from services 0x19 and 0x14, for every request and every store. */
module UdsWire {
  import opened Bytes
  import opened DtcStore
  import opened FaultPipeline
  import opened Response
  import opened TroubleCodes
  import opened UdsServices
  import opened Wrappers

  // ----- selection -----

  /** Exactly the entries that share a bit with the mask are listed, in store order and each as often as
      it is stored: entry i is listed at the place given by the number of listed entries before it, and
      all of them are counted. */
  lemma {:induction false} MatchingInOrder(ds: seq<Dtc>, mask: byte, i: nat)
    requires i < |ds|
    ensures Matching(ds[..0], mask) == []
    ensures Matching(ds[..i], mask) <= Matching(ds, mask)
    ensures |Matching(ds[..i + 1], mask)|
         == |Matching(ds[..i], mask)| + if ds[i].status & mask != 0 then 1 else 0
    ensures ds[i].status & mask != 0 ==>
      |Matching(ds[..i], mask)| < |Matching(ds, mask)| && Matching(ds, mask)[|Matching(ds[..i], mask)|] == ds[i]
  {
    var n := |ds| - 1;
    if i == n {
      assert ds[..i + 1] == ds;
    } else {
      assert ds[..n][..i] == ds[..i] && ds[..n][..i + 1] == ds[..i + 1];
      MatchingInOrder(ds[..n], mask, i);
    }
  }

  // ----- service 0x19 -----

  lemma ListBytes(ds: seq<Dtc>, mask: byte, capacity: nat)
    requires 2 + 4 * |Matching(ds, mask)| <= capacity
    ensures ReadResponse(ds, [0x02, mask], capacity) == [0x59, 0x02, 0xFF] + Records(Matching(ds, mask))
  {
    ListAnswer(ds, mask);
    assert READ_DTC_INFORMATION | 0x40 == 0x59;
    var head: seq<byte> := [0x02, 0xFF];
    assert [0x59] + (head + Records(Matching(ds, mask))) == [0x59, 0x02, 0xFF] + Records(Matching(ds, mask));
  }

  lemma FourBytes(m: seq<Dtc>, head: seq<byte>, k: nat)
    requires k < |m| && |head| == 3
    ensures var resp := head + Records(m);
      && |resp| == 3 + 4 * |m| && resp[..3] == head
      && resp[3 + 4 * k] == HighByte(m[k].number) && resp[4 + 4 * k] == MiddleByte(m[k].number)
      && resp[5 + 4 * k] == LowByte(m[k].number) && resp[6 + 4 * k] == m[k].status
  {
    var rs := Records(m);
    RecordsAt(m, k);
    var record := rs[4 * k..4 * k + 4];
    assert rs[4 * k] == record[0] && rs[4 * k + 1] == record[1];
    assert rs[4 * k + 2] == record[2] && rs[4 * k + 3] == record[3];
  }

  /** The bytes of a fault list: three at the head and four for each listed fault, its number, most
      significant byte first, and its status. */
  lemma RecordBytes(ds: seq<Dtc>, mask: byte, capacity: nat, k: nat)
    requires k < |Matching(ds, mask)| && 2 + 4 * |Matching(ds, mask)| <= capacity
    ensures var resp := ReadResponse(ds, [0x02, mask], capacity);
      var d := Matching(ds, mask)[k];
      && |resp| == 3 + 4 * |Matching(ds, mask)|
      && resp[..3] == [0x59, 0x02, 0xFF]
      && Number24(d.number)
         == 0x1_0000 * Value(resp[3 + 4 * k]) + 0x100 * Value(resp[4 + 4 * k]) + Value(resp[5 + 4 * k])
      && resp[6 + 4 * k] == d.status
  {
    ListBytes(ds, mask, capacity);
    FourBytes(Matching(ds, mask), [0x59, 0x02, 0xFF], k);
    SplitNumber(Matching(ds, mask)[k].number);
  }

  /** The count, in two bytes, and the three bytes before it. */
  lemma CountBytes(ds: seq<Dtc>, mask: byte, capacity: nat)
    requires capacity >= 5
    ensures var resp := ReadResponse(ds, [0x01, mask], capacity);
      && |resp| == 6 && resp[..4] == [0x59, 0x01, 0xFF, 0x01]
      && 0x100 * Value(resp[4]) + Value(resp[5]) == |Matching(ds, mask)| % 0x1_0000
  {
    assert REPORT_NUMBER_OF_DTC_BY_STATUS_MASK & 0x7F == REPORT_NUMBER_OF_DTC_BY_STATUS_MASK;
    assert READ_DTC_INFORMATION | 0x40 == 0x59;
    assert ReadResponse(ds, [0x01, mask], capacity) == [0x59] + CountData(ds, mask);
    CountRoundTrip(ds, mask);
  }

  /** The detail of a fault: the number asked for, the stored status, the echoed record number, and one
      occurrence while the fault is failing. */
  lemma DetailBytes(ds: seq<Dtc>, request: seq<byte>, capacity: nat, i: nat)
    requires |request| >= 5 && request[0] & 0x7F == 0x06 && capacity >= 7
    requires i < |ds| && ds[i].number == Join24(request[1], request[2], request[3])
    requires forall j :: 0 <= j < i ==> ds[j].number != ds[i].number
    ensures ReadResponse(ds, request, capacity)
         == [0x59, 0x06, request[1], request[2], request[3], ds[i].status, request[4],
             if ds[i].status & 0x01 != 0 then 1 else 0]
  {
    FirstIndexUnique(ds, ds[i].number, i);
    SplitJoin24(request[1], request[2], request[3]);
    assert READ_DTC_INFORMATION | 0x40 == 0x59;
  }

  lemma SplitJoin24(high: byte, middle: byte, low: byte)
    ensures var n := Join24(high, middle, low);
      HighByte(n) == high && MiddleByte(n) == middle && LowByte(n) == low
  {
  }

  /** Which requests get which negative response, for every request and every store: 0x13 for a wrong
      length, 0x12 for an unknown sub-function, 0x31 for a fault that is not stored. The top bit of the
      sub-function is ignored. */
  lemma NegativeExactly(ds: seq<Dtc>, request: seq<byte>, capacity: nat)
    ensures var resp := ReadResponse(ds, request, capacity);
      var stored := |request| >= 4
        && exists i :: 0 <= i < |ds| && ds[i].number == Join24(request[1], request[2], request[3]);
      if |request| < 2 then resp == [0x7F, 0x19, 0x13]
      else if request[0] & 0x7F == 0x01 || request[0] & 0x7F == 0x02 then resp[0] == 0x59
      else if request[0] & 0x7F != 0x06 then resp == [0x7F, 0x19, 0x12]
      else if |request| < 5 then resp == [0x7F, 0x19, 0x13]
      else if stored then resp[0] == 0x59
      else resp == [0x7F, 0x19, 0x31]
  {
    assert READ_DTC_INFORMATION | 0x40 == 0x59;
  }

  /** A shorter buffer cuts the answer and changes nothing else. */
  lemma ShorterBuffer(ds: seq<Dtc>, request: seq<byte>, capacity: nat, room: nat)
    requires capacity <= room
    ensures ReadResponse(ds, request, capacity) <= ReadResponse(ds, request, room)
    ensures var short, long := ReadResponse(ds, request, capacity), ReadResponse(ds, request, room);
      |short| < |long| ==> |short| == 1 + capacity
  {
  }

  /** The top bit of the sub-function makes no difference. */
  lemma TopBitIgnored(ds: seq<Dtc>, request: seq<byte>, capacity: nat)
    requires request != []
    ensures ReadResponse(ds, request[0 := request[0] | 0x80], capacity) == ReadResponse(ds, request, capacity)
  {
    assert (request[0] | 0x80) & 0x7F == request[0] & 0x7F;
  }

  // ----- service 0x14 -----

  /** What the client receives for a clear. */
  function ClearResponse(ds: seq<Dtc>, request: seq<byte>): seq<byte> { Wire(0x14, ClearAnswer(ds, request).1, []) }

  /** The response to a clear and what it does to the store, for every request: a wrong length and an
      unknown group are refused and leave the store as it was. */
  lemma ClearExactly(ds: seq<Dtc>, request: seq<byte>)
    ensures var ds' := ClearAnswer(ds, request).0;
      var resp := ClearResponse(ds, request);
      if |request| != 3 then ds' == ds && resp == [0x7F, 0x14, 0x13]
      else if request == [0xFF, 0xFF, 0xFF] then
        && resp == [0x54] && |ds'| == |ds|
        && forall i :: 0 <= i < |ds| ==> ds'[i] == Dtc(ds[i].number, 0x50)
      else if exists i :: 0 <= i < |ds| && ds[i].number == Join24(request[0], request[1], request[2]) then
        && resp == [0x54] && |ds'| == |ds|
        && forall i :: 0 <= i < |ds| ==>
          var first := ds[i].number == Join24(request[0], request[1], request[2])
                       && forall j :: 0 <= j < i ==> ds[j].number != ds[i].number;
          ds'[i] == if first then Dtc(ds[i].number, 0x50) else ds[i]
      else ds' == ds && resp == [0x7F, 0x14, 0x31]
  {
    assert 0x14 | 0x40 == 0x54 as byte;
    if |request| == 3 {
      AllOnes(request[0], request[1], request[2]);
      assert request == [request[0], request[1], request[2]];
    }
  }

  lemma AllOnes(high: byte, middle: byte, low: byte)
    ensures Join24(high, middle, low) == 0xFFFFFF <==> high == 0xFF && middle == 0xFF && low == 0xFF
  {
    SplitJoin24(high, middle, low);
  }
}
