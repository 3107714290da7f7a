/** Java's fixed-width integers and the conversions between `short` and `int`. */
module JavaInts {

  /** Java `short`: 16-bit two's complement. */
  newtype Short = x: int | -0x8000 <= x < 0x8000

  /** Java `int`: 32-bit two's complement. */
  newtype Int32 = x: int | -0x8000_0000 <= x < 0x8000_0000

  /** `(int) s`, the widening primitive conversion: every short is an int. */
  function Widen(s: Short): (i: Int32)
    ensures i as int == s as int
  {
    s as int as Int32
  }

  /** `(short) i`, the narrowing primitive conversion: it keeps the low 16 bits of `i` and reads
      them as two's complement, so the result is the one short congruent to `i` modulo 2^16. */
  function Narrow(i: Int32): (s: Short)
    ensures (i as int - s as int) % 0x1_0000 == 0
    ensures -0x8000 <= i as int < 0x8000 ==> s as int == i as int
  {
    var low := (i as int + 0x8000) % 0x1_0000;
    assert i as int + 0x8000 == 0x1_0000 * ((i as int + 0x8000) / 0x1_0000) + low;
    (low - 0x8000) as Short
  }

  /** Widening a short and narrowing it back gives the short again. */
  lemma NarrowWiden(s: Short)
    ensures Narrow(Widen(s)) == s
  {
  }

  /** Narrowing is not injective: an int outside short range lands on another value. */
  lemma NarrowWrapsAround()
    ensures Narrow(0x8000 as Int32) == -0x8000 as Short
    ensures Narrow(40000 as Int32) == -25536 as Short
  {
  }

  /** Every int outside short range changes value when narrowed, and lands on the short that is
      congruent to it modulo 2^16. */
  lemma NarrowOutsideShortRange(i: Int32)
    requires !(-0x8000 <= i as int < 0x8000)
    ensures Narrow(i) as int != i as int
    ensures (i as int - Narrow(i) as int) % 0x1_0000 == 0
  {
  }
}
