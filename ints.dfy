/** Fixed-width integer types of the C++ bindings, with their wrap-around written out. */
module Ints {

  /** uint8_t */
  type u8 = x: int | 0 <= x < 0x100

  /** uint16_t: raw sensor codes and numpy uint16 cells */
  type u16 = x: int | 0 <= x < 0x1_0000

  const U16_MODULUS: int := 0x1_0000
  const U32_MODULUS: int := 0x1_0000_0000

  /** Conversion of an integer to uint16_t (keeps the low 16 bits). */
  function U16(x: int): (r: u16)
    ensures 0 <= x < 0x1_0000 ==> r == x
  {
    x % 0x1_0000
  }

  /** Conversion to uint16_t ignores multiples of 2^16. */
  lemma U16Periodic(x: int, k: int)
    ensures U16(x + k * U16_MODULUS) == U16(x)
  {
    var q := x / U16_MODULUS;
    assert x == q * U16_MODULUS + U16(x);
    assert x + k * U16_MODULUS == (q + k) * U16_MODULUS + U16(x);
  }

  /** Conversion of an integer to uint32_t (keeps the low 32 bits). */
  function U32(x: int): (r: nat)
    ensures r < 0x1_0000_0000
    ensures 0 <= x < 0x1_0000_0000 ==> r == x
  {
    x % 0x1_0000_0000
  }

  /** Adding to an operand before or after its conversion to uint32_t gives the same uint32_t. */
  lemma U32AddMod(x: int, v: int)
    ensures U32(U32(x) + v) == U32(x + v)
  {
    var q := x / U32_MODULUS;
    assert x == q * U32_MODULUS + U32(x);
    assert x + v == q * U32_MODULUS + (U32(x) + v);
  }

  /** Multiplying both sides of a <= b by the same natural number keeps the order. */
  lemma MulLe(a: int, b: int, c: nat)
    ensures a <= b ==> a * c <= b * c
  {
    assert b * c - a * c == (b - a) * c;
  }
}
