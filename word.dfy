/**
 * Fixed-width unsigned integers of the C code (uint8_t, uint32_t) and the
 * wrapping arithmetic the compiler performs on them.
 */
module Word {

  const WORD: int := 0x1_0000_0000
  const HALF: int := 0x8000_0000

  type u8 = x: int | 0 <= x < 0x100
  type u32 = x: int | 0 <= x < WORD

  /** uint32_t addition: wraps modulo 2^32. */
  function Add(a: u32, b: u32): (r: u32)
    ensures a + b < WORD ==> r == a + b
    ensures a + b >= WORD ==> r == a + b - WORD
  {
    (a + b) % WORD
  }

  /** uint32_t subtraction: wraps modulo 2^32, so a smaller minuend gives a large result. */
  function Sub(a: u32, b: u32): (r: u32)
    ensures b <= a ==> r == a - b
    ensures a < b ==> r == WORD + a - b
    ensures Add(r, b) == a
  {
    (a - b) % WORD
  }

  /** uint32_t multiplication: the product modulo 2^32, so an overflowing product wraps. */
  function Mul(a: u32, b: u32): (r: u32)
    ensures 0 <= a * b < WORD ==> r == a * b
    ensures (a * b - r) % WORD == 0
  {
    (a * b) % WORD
  }

  /** A u32 that differs from the true product by a multiple of 2^32 is the uint32_t product. */
  lemma MulUnique(a: u32, b: u32, r: u32)
    requires (a * b - r) % WORD == 0
    ensures r == Mul(a, b)
  {
    var k := (a * b - r) / WORD;
    assert a * b - r == k * WORD;
    var m := Mul(a, b);
    var j := (a * b) / WORD;
    assert a * b == j * WORD + m;
    assert r - m == (j - k) * WORD;
  }

  /** The value of a uint32_t converted to a 32-bit two's-complement int. */
  function AsInt32(a: u32): (r: int)
    ensures -HALF <= r < HALF
    ensures a < HALF ==> r == a
    ensures a >= HALF ==> r == a - WORD && r < 0
  {
    if a < HALF then a else a - WORD
  }
}
