/** Fixed-width integers of the modelled C++ code and small arithmetic helpers. */
module Numeric {

  const Uint32Modulus: int := 0x1_0000_0000

  /** C++ `uint32_t` (and `unsigned int` on the targeted platforms). */
  newtype uint32 = x: int | 0 <= x < 0x1_0000_0000

  /** `std::min` on naturals. */
  function Min(a: nat, b: nat): (m: nat)
    ensures m <= a && m <= b
    ensures m == a || m == b
  {
    if a <= b then a else b
  }
}
