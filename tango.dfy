/** The parts of the Tango device model the servers use. */
module Tango {

  /** The device states the servers set (UNKNOWN is a device's state before `init_device`). */
  datatype DevState = UNKNOWN | ON | OFF | MOVING | WARN | FAULT

  /**
   * A command declared with `dtype_out=(float,)` hands its tuple to the client
   * as an array of doubles: a boolean travels as 1.0 or 0.0.
   */
  function ToDouble(b: bool): int {
    if b then 1 else 0
  }

  /** Python's truth value of a double read back from such an array. */
  function Truthy(x: int): bool {
    x != 0
  }
}
