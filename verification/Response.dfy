/** The bounded buffer a UDS service appends its positive response to. Appends that do not fit
    change nothing; the services ignore the result. */
module Response {
  import opened Bytes

  /** The first n elements, or all of them if there are fewer. */
  function Take<T>(s: seq<T>, n: nat): seq<T> {
    if |s| <= n then s else s[..n]
  }

  lemma TakeAppend<T>(s: seq<T>, t: seq<T>, n: nat)
    ensures Take(Take(s, n) + t, n) == Take(s + t, n)
  {
  }

  class PositiveResponse {
    const capacity: nat
    var data: seq<byte>

    ghost predicate Valid()
      reads this
    {
      |data| <= capacity
    }

    constructor (capacity: nat)
      ensures Valid() && this.capacity == capacity && data == []
    {
      this.capacity, data := capacity, [];
    }

    method AppendUint8(b: byte) returns (appended: bool)
      requires Valid()
      modifies this
      ensures Valid()
      ensures appended == (|old(data)| < capacity)
      ensures data == Take(old(data) + [b], capacity)
    {
      appended := |data| < capacity;
      if appended {
        data := data + [b];
      } else {
        assert (data + [b])[..capacity] == data;
      }
    }

    /** All bytes or none. */
    method AppendData(bytes: seq<byte>) returns (appended: bool)
      requires Valid()
      modifies this
      ensures Valid()
      ensures appended == (|old(data)| + |bytes| <= capacity)
      ensures data == if appended then old(data) + bytes else old(data)
    {
      appended := |data| + |bytes| <= capacity;
      if appended {
        data := data + bytes;
      }
    }
  }
}
