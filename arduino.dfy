/** The slice of the Arduino core that the buzzer driver calls: `pinMode`,
    `digitalWrite` and `delay`. What these calls do to the hardware is not
    modelled; each call is recorded as one event, and a run of the driver is
    described by the sequence of events it produces. */
module Arduino {

  /** An unsigned 8-bit value (`uint8_t`). */
  newtype byte = x: int | 0 <= x < 256

  /** The two pin directions the driver passes to `pinMode`. */
  datatype PinDirection = Input | Output

  /** One call into the Arduino core. */
  datatype Event =
    | PinMode(pin: int, direction: PinDirection)
    | DigitalWrite(pin: int, value: byte)
    | Delay(ms: nat)

  /** C++ `~x` on an `int` (a `uint8_t` operand is promoted to `int` first):
      in two's complement every bit flips, which is the value -x - 1. */
  function BitNot(x: int): int
  {
    -x - 1
  }

  /** Conversion of an `int` to `uint8_t` (an argument passed to a `uint8_t`
      parameter): the value is taken modulo 256. */
  function ToByte(v: int): (r: byte)
    ensures (v - r as int) % 256 == 0
  {
    (v % 256) as byte
  }
}
