/** The 32-bit signed integers of C# and their unchecked (wrap-around) addition. */
module Int32 {

  const MIN: int := -0x8000_0000
  const MAX: int := 0x7FFF_FFFF
  const MODULUS: int := 0x1_0000_0000

  type int32 = x: int | MIN <= x <= MAX

  /** The token counts a tokenizer can return: a non-negative `int`. */
  type count32 = x: int | 0 <= x <= MAX

  predicate InRange(x: int) {
    MIN <= x <= MAX
  }

  /** The two's-complement value C# keeps of an unchecked result `x`. */
  function Wrap(x: int): (r: int32)
    ensures InRange(x) ==> r == x
    ensures (x - r) % MODULUS == 0
  {
    (x - MIN) % MODULUS + MIN
  }

  /** Two integers that agree modulo 2^32 wrap to the same 32-bit value. */
  lemma WrapCongruent(x: int, y: int)
    requires (x - y) % MODULUS == 0
    ensures Wrap(x) == Wrap(y)
  {
    var k := (x - y) / MODULUS;
    assert x - MIN == (y - MIN) + k * MODULUS;
    ModShift(y - MIN, k);
  }

  lemma ModShift(a: int, k: int)
    ensures (a + k * MODULUS) % MODULUS == a % MODULUS
  {
    var q := a / MODULUS;
    var r := a % MODULUS;
    assert a + k * MODULUS == (q + k) * MODULUS + r;
  }

  /** Wrapping after every step of a running sum is the same as wrapping once at the end. */
  lemma WrapAdd(a: int, b: int)
    ensures Wrap(Wrap(a) + b) == Wrap(a + b)
  {
    var w := Wrap(a);
    assert (a - w) % MODULUS == 0;
    assert ((a + b) - (w + b)) % MODULUS == 0;
    WrapCongruent(w + b, a + b);
  }
}
