/** The few facilities of the Arduino core that the three output classes rely on:
    the `byte`, `int` and `unsigned long` integer types, unsigned subtraction and the
    `constrain` macro. */
module Arduino {

  /** An 8-bit unsigned value, the core's `byte`. */
  newtype byte = x: int | 0 <= x < 0x100

  /** A 16-bit signed value, the AVR core's `int`. */
  newtype int16 = x: int | -0x8000 <= x < 0x8000

  /** A 32-bit unsigned value, `unsigned long` on the AVR boards the module runs on. */
  newtype uint32 = x: int | 0 <= x < 0x1_0000_0000

  /** `unsigned long` subtraction `a - b`, which wraps around modulo 2^32. */
  function Sub32(a: uint32, b: uint32): (r: uint32)
    ensures a >= b ==> r as int == a as int - b as int
    ensures a < b ==> r as int == 0x1_0000_0000 - (b as int - a as int)
  {
    ((a as int - b as int) % 0x1_0000_0000) as uint32
  }

  /** The `constrain(x, lo, hi)` macro: `x` pulled into the closed range [lo, hi]. */
  function Constrain(x: int, lo: int, hi: int): (r: int)
    requires lo <= hi
    ensures lo <= r <= hi
    ensures lo <= x <= hi ==> r == x
    ensures x < lo ==> r == lo
    ensures hi < x ==> r == hi
  {
    if x < lo then lo else if x > hi then hi else x
  }
}
