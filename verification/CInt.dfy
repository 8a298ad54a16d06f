/** C integer arithmetic used by the firmware: fixed-width wrap-around,
    reinterpretation between signed and unsigned words, and division that
    truncates toward zero. */
module CInt {
  type u8 = x: int | 0 <= x < 0x100
  type u16 = x: int | 0 <= x < 0x1_0000
  type u32 = x: int | 0 <= x < 0x1_0000_0000
  type i16 = x: int | -0x8000 <= x < 0x8000
  type i64 = x: int | -0x8000_0000_0000_0000 <= x < 0x8000_0000_0000_0000

  const INT64_MAX := 0x7fff_ffff_ffff_ffff

  /** `(uint16_t)x` */
  function Wrap16(x: int): u16 { x % 0x1_0000 }

  /** `(uint32_t)x` */
  function Wrap32(x: int): u32 { x % 0x1_0000_0000 }

  /** `(int16_t)x` of an unsigned word. */
  function AsI16(x: u16): i16 { if x < 0x8000 then x else x - 0x1_0000 }

  /** `(int32_t)x` of an unsigned word. */
  function AsI32(x: u32): int { if x < 0x8000_0000 then x else x - 0x1_0000_0000 }

  /** `(uint16_t)x` of a signed word. */
  function AsU16(x: i16): u16 { if x < 0 then x + 0x1_0000 else x }

  function Abs(x: int): nat { if x < 0 then -x else x }

  /** C `a / b`: truncates toward zero (Dafny's `/` is Euclidean). */
  function CDiv(a: int, b: int): int
    requires b > 0
  {
    if a >= 0 then a / b else -((-a) / b)
  }

  /** C `a % b`: takes the sign of the dividend. */
  function CMod(a: int, b: int): int
    requires b > 0
  {
    a - CDiv(a, b) * b
  }

  /** C's pair of division and remainder: the quotient rounds toward zero and
      the remainder never outweighs the divisor nor disagrees with the sign of
      the dividend. */
  lemma CDivTruncates(a: int, b: int)
    requires b > 0
    ensures CDiv(a, b) * b + CMod(a, b) == a
    ensures Abs(CMod(a, b)) < b
    ensures a >= 0 ==> CMod(a, b) >= 0
    ensures a <= 0 ==> CMod(a, b) <= 0
  {
    if a >= 0 {
      Euclid(a, b);
    } else {
      Euclid(-a, b);
      assert CDiv(a, b) * b == -((-a) / b * b);
    }
  }

  lemma Euclid(a: nat, b: int)
    requires b > 0
    ensures 0 <= a - a / b * b < b
  {
    assert a == a / b * b + a % b;
  }

  lemma MulAtLeast(k: int, d: int)
    requires k >= 1 && d > 0
    ensures k * d >= d
  {
  }

  /** Quotient and remainder are unique. */
  lemma DivisionIsUnique(p: int, q: int, d: int, r: int, t: int)
    requires 0 <= r < d && 0 <= t < d && p * d + r == q * d + t
    ensures p == q && r == t
  {
    assert (p - q) * d == p * d - q * d && (q - p) * d == q * d - p * d;
    if p > q { MulAtLeast(p - q, d); }
    if q > p { MulAtLeast(q - p, d); }
  }
}
