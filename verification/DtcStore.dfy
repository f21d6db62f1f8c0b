/** The statically allocated store of trouble codes. */
module DtcStore {
  import opened Wrappers
  import opened Bytes
  import opened TroubleCodes

  // ----- specification on the sequence of stored values -----

  /** Index of the first entry with the given number. */
  function FirstIndex(ds: seq<Dtc>, number: bv32): (r: Option<nat>)
    ensures r.Some? ==> r.value < |ds| && ds[r.value].number == number
    ensures r.Some? ==> forall i :: 0 <= i < r.value ==> ds[i].number != number
    ensures r.None? ==> forall i :: 0 <= i < |ds| ==> ds[i].number != number
  {
    if ds == [] then None
    else
      match FirstIndex(ds[..|ds| - 1], number)
      case Some(i) => Some(i)
      case None => if ds[|ds| - 1].number == number then Some(|ds| - 1) else None
  }

  lemma FirstIndexUnique(ds: seq<Dtc>, number: bv32, k: nat)
    requires k < |ds| && ds[k].number == number
    requires forall i :: 0 <= i < k ==> ds[i].number != number
    ensures FirstIndex(ds, number) == Some(k)
  {
    var r := FirstIndex(ds, number);
    assert r.Some? && ds[r.value].number == number;
  }

  ghost predicate Distinct(ds: seq<Dtc>) {
    forall i, j :: 0 <= i < j < |ds| ==> ds[i].number != ds[j].number
  }

  /** The entries that share a bit with the mask, in store order. */
  function Matching(ds: seq<Dtc>, mask: byte): seq<Dtc> {
    if ds == [] then []
    else
      var rest := Matching(ds[..|ds| - 1], mask);
      if ds[|ds| - 1].Matches(mask) then rest + [ds[|ds| - 1]] else rest
  }

  function AllCleared(ds: seq<Dtc>): (r: seq<Dtc>)
    ensures |r| == |ds|
  {
    seq(|ds|, i requires 0 <= i < |ds| => ds[i].Cleared())
  }

  // ----- the store -----

  class DiagnosticTroubleCodeStore {
    /** The embedded array: the cells are fixed, their contents change. */
    const cells: seq<DiagnosticTroubleCode>
    var count: nat

    ghost predicate Valid()
      reads this, cells
    {
      && count <= |cells|
      && (forall i, j :: 0 <= i < j < |cells| ==> cells[i] != cells[j])
      && (forall i :: 0 <= i < count ==> cells[i].View().Is24Bit())
    }

    ghost function View(): (ds: seq<Dtc>)
      requires Valid()
      reads this, cells
      ensures |ds| == count
    {
      seq(count, i requires 0 <= i < |cells| reads this, cells => cells[i].View())
    }

    constructor (capacity: nat)
      ensures Valid() && View() == []
      ensures |cells| == capacity && fresh(cells)
    {
      var made: seq<DiagnosticTroubleCode> := [];
      while |made| < capacity
        invariant |made| <= capacity
        invariant fresh(made)
        invariant forall i, j :: 0 <= i < j < |made| ==> made[i] != made[j]
      {
        var cell := new DiagnosticTroubleCode();
        made := made + [cell];
      }
      cells, count := made, 0;
    }

    /** Writing to one cell through a pointer changes one entry of the view. */
    twostate lemma CellChanged(k: nat)
      requires old(Valid()) && k < old(count) == count
      requires forall i :: 0 <= i < |cells| && i != k ==> unchanged(cells[i])
      requires cells[k].dtcNumber == old(cells[k].dtcNumber)
      ensures Valid() && View() == old(View())[k := cells[k].View()]
    {
    }

    method AddDtc(dtcNumber: bv32, initialStatus: byte) returns (added: bool)
      requires Valid()
      modifies this, cells
      ensures Valid()
      ensures added == (|old(View())| < |cells|)
      ensures View() == if added then old(View()) + [Dtc(dtcNumber & MASK24, initialStatus)] else old(View())
    {
      if count >= |cells| {
        return false;
      }
      cells[count].Assign(dtcNumber, initialStatus);
      count := count + 1;
      return true;
    }

    method GetDtcByIndex(index: nat) returns (dtc: DiagnosticTroubleCode?)
      requires Valid()
      ensures dtc == if index < |View()| then cells[index] else null
    {
      if index < count {
        return cells[index];
      }
      return null;
    }

    /** The ghost result is the index of the cell pointed to. */
    method FindDtcByNumber(dtcNumber: bv32) returns (dtc: DiagnosticTroubleCode?, ghost index: nat)
      requires Valid()
      ensures dtc == null <==> FirstIndex(View(), dtcNumber).None?
      ensures dtc != null ==> FirstIndex(View(), dtcNumber) == Some(index) && dtc == cells[index]
    {
      index := 0;
      for i := 0 to count
        invariant forall k :: 0 <= k < i ==> View()[k].number != dtcNumber
      {
        if cells[i].dtcNumber == dtcNumber {
          FirstIndexUnique(View(), dtcNumber, i);
          return cells[i], i;
        }
      }
      return null, 0;
    }

    method CountByStatusMask(mask: byte) returns (matches: nat)
      requires Valid()
      ensures matches == |Matching(View(), mask)|
    {
      matches := 0;
      for i := 0 to count
        invariant matches == |Matching(View()[..i], mask)|
      {
        assert View()[..i + 1][..i] == View()[..i];
        if cells[i].statusByte & mask != 0 {
          matches := matches + 1;
        }
      }
      assert View()[..count] == View();
    }

    method ClearAll()
      requires Valid()
      modifies cells
      ensures Valid() && View() == AllCleared(old(View()))
    {
      for i := 0 to count
        invariant Valid() && count == old(count)
        invariant forall k :: 0 <= k < i ==> cells[k].View() == old(cells[k].View()).Cleared()
        invariant forall k :: i <= k < count ==> cells[k].View() == old(cells[k].View())
      {
        cells[i].Clear();
      }
    }

    method ClearByNumber(dtcNumber: bv32) returns (found: bool)
      requires Valid()
      modifies cells
      ensures Valid()
      ensures found == FirstIndex(old(View()), dtcNumber).Some?
      ensures View() == ClearedByNumber(old(View()), dtcNumber)
    {
      var dtc, index := FindDtcByNumber(dtcNumber);
      if dtc != null {
        dtc.Clear();
        return true;
      }
      return false;
    }
  }

  function ClearedByNumber(ds: seq<Dtc>, dtcNumber: bv32): (r: seq<Dtc>)
    ensures |r| == |ds|
  {
    match FirstIndex(ds, dtcNumber)
    case Some(i) => ds[i := ds[i].Cleared()]
    case None => ds
  }
}
