/** A diagnostic trouble code and its status byte (ISO 14229-1, Annex D). */
module TroubleCodes {
  import opened Bytes

  const TEST_FAILED: byte := 0x01
  const TEST_FAILED_THIS_OPERATION_CYCLE: byte := 0x02
  const PENDING_DTC: byte := 0x04
  const CONFIRMED_DTC: byte := 0x08
  const TEST_NOT_COMPLETED_SINCE_LAST_CLEAR: byte := 0x10
  const TEST_FAILED_SINCE_LAST_CLEAR: byte := 0x20
  const TEST_NOT_COMPLETED_THIS_OPERATION_CYCLE: byte := 0x40
  const WARNING_INDICATOR_REQUESTED: byte := 0x80

  /** The status byte that clear() writes. */
  const CLEARED: byte := TEST_NOT_COMPLETED_SINCE_LAST_CLEAR | TEST_NOT_COMPLETED_THIS_OPERATION_CYCLE

  /** The value held by one DiagnosticTroubleCode object. */
  datatype Dtc = Dtc(number: bv32, status: byte) {
    predicate Is24Bit() { number & MASK24 == number }
    predicate Matches(mask: byte) { status & mask != 0 }
    predicate Has(bit: byte) { status & bit != 0 }
    function With(bits: byte): Dtc { this.(status := status | bits) }
    function Without(bits: byte): Dtc { this.(status := status & !bits) }
    function Cleared(): Dtc { this.(status := CLEARED) }
  }

  class DiagnosticTroubleCode {
    var dtcNumber: bv32
    var statusByte: byte

    function View(): Dtc
      reads this
    {
      Dtc(dtcNumber, statusByte)
    }

    constructor ()
      ensures View() == Dtc(0, 0)
    {
      dtcNumber, statusByte := 0, 0;
    }

    /** Assignment from a freshly constructed object: the number keeps its lower 24 bits. */
    method Assign(number: bv32, initialStatus: byte)
      modifies this
      ensures View() == Dtc(number & MASK24, initialStatus)
    {
      dtcNumber, statusByte := number & MASK24, initialStatus;
    }

    method SetStatusBit(bit: byte)
      modifies this
      ensures View() == old(View()).With(bit)
    {
      statusByte := statusByte | bit;
    }

    method ClearStatusBit(bit: byte)
      modifies this
      ensures View() == old(View()).Without(bit)
    {
      statusByte := statusByte & !bit;
    }

    method Clear()
      modifies this
      ensures View() == old(View()).Cleared()
    {
      statusByte := TEST_NOT_COMPLETED_SINCE_LAST_CLEAR | TEST_NOT_COMPLETED_THIS_OPERATION_CYCLE;
    }
  }
}
