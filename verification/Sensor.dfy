/** The simulated sensor behind a ReadDataByIdentifier job: a clamped pseudo-random walk. */
module Sensors {
  import opened Arithmetic
  import opened Bytes
  import opened Response
  import Lcg

  datatype Sensor = Sensor(current: uint32, low: uint32, high: uint32, seed: uint32) {
    /** The bounds enclose the value and leave room for one step of signed 32-bit arithmetic. */
    ghost predicate Bounded() {
      low <= current <= high && high + 2 < 0x8000_0000
    }

    /** The step -2 .. 2 drawn from the next seed. */
    function Delta(): (d: int)
      ensures -2 <= d <= 2
    {
      (Lcg.Next(seed) / 0x1_0000) % 0x8000 % 5 - 2
    }

    /** The signed sum computed before clamping. */
    function Moved(): int { Signed32(current) + Delta() }

    ghost predicate Overflows() { !(-0x8000_0000 <= Moved() < 0x8000_0000) }

    function Step(): Sensor {
      var raised := if Moved() < Signed32(low) then Signed32(low) else Moved();
      var clamped := if raised > Signed32(high) then Signed32(high) else raised;
      this.(current := Unsigned32(clamped), seed := Lcg.Next(seed))
    }

    function SetValue(value: uint32): Sensor {
      var raised := if value < low then low else value;
      this.(current := if raised > high then high else raised)
    }
  }

  class ReadIdentifierSimulated {
    const identifier: bv16
    const minValue: uint32
    const maxValue: uint32
    var currentValue: uint32
    var seed: uint32

    ghost function View(): Sensor
      reads this
    {
      Sensor(currentValue, minValue, maxValue, seed)
    }

    constructor (identifier: bv16, initialValue: uint32, minValue: uint32, maxValue: uint32)
      ensures this.identifier == identifier
      ensures View() == Sensor(initialValue, minValue, maxValue, identifier as int * 7 + 13)
    {
      this.identifier := identifier;
      this.minValue, this.maxValue := minValue, maxValue;
      currentValue := initialValue;
      seed := identifier as int * 7 + 13;
    }

    method Step()
      modifies this
      ensures View() == old(View()).Step()
    {
      seed := (seed * 1103515245 + 12345) % WORD;
      var rnd := (seed / 0x1_0000) % 0x8000;
      var delta := rnd % 5 - 2;
      var newValue := Signed32(currentValue) + delta;
      if newValue < Signed32(minValue) {
        newValue := Signed32(minValue);
      }
      if newValue > Signed32(maxValue) {
        newValue := Signed32(maxValue);
      }
      currentValue := Unsigned32(newValue);
    }

    method SetValue(value: uint32)
      modifies this
      ensures View() == old(View()).SetValue(value)
    {
      currentValue := value;
      if currentValue < minValue {
        currentValue := minValue;
      }
      if currentValue > maxValue {
        currentValue := maxValue;
      }
    }

    /** The response data: the signed value, big-endian. */
    method Process(response: PositiveResponse)
      requires response.Valid()
      modifies response
      ensures response.Valid()
      ensures response.data == if |old(response.data)| + 4 <= response.capacity
        then old(response.data) + BigEndian32(currentValue) else old(response.data)
    {
      var appended := response.AppendData(BigEndian32(currentValue));
    }
  }

  // ----- properties of the walk -----

  /** Every step keeps the bounds, moves by at most two and does not overflow. */
  lemma StepStaysBounded(s: Sensor)
    requires s.Bounded()
    ensures !s.Overflows()
    ensures s.Step().Bounded()
    ensures -2 <= s.Step().current - s.current <= 2
    ensures s.Step().(current := s.current, seed := s.seed) == s
  {
  }

  lemma SetValueStaysBounded(s: Sensor, value: uint32)
    requires s.Bounded()
    ensures s.SetValue(value).Bounded()
    ensures s.low <= value <= s.high <==> s.SetValue(value).current == value
    ensures value < s.low ==> s.SetValue(value).current == s.low
    ensures value > s.high ==> s.SetValue(value).current == s.high
  {
  }

  /** n consecutive steps. */
  function Walked(s: Sensor, n: nat): Sensor {
    if n == 0 then s else Walked(s, n - 1).Step()
  }

  lemma {:induction false} WalkDistance(s: Sensor, n: nat)
    requires s.Bounded()
    ensures Walked(s, n).Bounded()
    ensures Walked(s, n).low == s.low && Walked(s, n).high == s.high
    ensures -2 * n <= Walked(s, n).current - s.current <= 2 * n
    ensures Walked(s, n).seed == Lcg.Iterate(n, s.seed)
  {
    if n == 0 {
    } else {
      WalkDistance(s, n - 1);
      StepStaysBounded(Walked(s, n - 1));
    }
  }

  /** The four response bytes decode, as a signed integer, to the value that was sent. */
  lemma ValueRoundTrip(s: Sensor)
    ensures Signed32(FromBigEndian32(BigEndian32(s.current))) == Signed32(s.current)
    ensures s.Bounded() ==> Signed32(FromBigEndian32(BigEndian32(s.current))) == s.current
  {
    BigEndianRoundTrip(s.current);
  }
}
