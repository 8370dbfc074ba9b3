/** Go's fixed-width integers and the conversions between them. */
module GoInt {

  const TWO_32: int := 0x1_0000_0000
  const TWO_64: int := 0x1_0000_0000_0000_0000

  /** Go `int32`. */
  type Int32 = x: int | -0x8000_0000 <= x < 0x8000_0000

  /** Go `int` on a 64-bit platform. */
  type Int64 = x: int | -0x8000_0000_0000_0000 <= x < 0x8000_0000_0000_0000

  /** Go's conversion `int32(x)`: keeps the low 32 bits as a two's complement value. */
  function ToInt32(x: int): (r: Int32)
    ensures (x - r) % TWO_32 == 0
    ensures -0x8000_0000 <= x < 0x8000_0000 ==> r == x
  {
    var m := x % TWO_32;
    if m < 0x8000_0000 then m else m - TWO_32
  }

  /** Arithmetic on Go `int` wraps around modulo 2^64. */
  function ToInt64(x: int): (r: Int64)
    ensures (x - r) % TWO_64 == 0
    ensures -0x8000_0000_0000_0000 <= x < 0x8000_0000_0000_0000 ==> r == x
  {
    var m := x % TWO_64;
    if m < 0x8000_0000_0000_0000 then m else m - TWO_64
  }

  /** Two values congruent modulo 2^32 narrow to the same `int32`. */
  lemma ToInt32Congruent(x: int, y: int)
    requires (x - y) % TWO_32 == 0
    ensures ToInt32(x) == ToInt32(y)
  {
    assert x % TWO_32 == y % TWO_32 by {
      var k := (x - y) / TWO_32;
      assert x == y + k * TWO_32;
      ModAddMultiple(y, k);
    }
  }

  lemma ModAddMultiple(y: int, k: int)
    ensures (y + k * TWO_32) % TWO_32 == y % TWO_32
  {
  }

  /** Narrowing a product that first wrapped around in Go's 64-bit `int` gives the same
      `int32` as narrowing the exact product: 2^32 divides 2^64. */
  lemma {:induction false} NarrowAfterWrap(x: int)
    ensures ToInt32(ToInt64(x)) == ToInt32(x)
  {
    var m := x % TWO_64;
    var q := x / TWO_64;
    assert x == q * TWO_64 + m;
    MultipleOf64(q);
    AddMultiple32(m, q * TWO_64);
    MultipleOf64(1);
    AddMultiple32(m - TWO_64, TWO_64);
    var w := ToInt64(x);
    assert w % TWO_32 == x % TWO_32;
  }

  lemma MultipleOf64(q: int)
    ensures (q * TWO_64) % TWO_32 == 0
  {
    assert q * TWO_64 == (q * TWO_32) * TWO_32;
    ModAddMultiple(0, q * TWO_32);
  }

  lemma AddMultiple32(a: int, b: int)
    requires b % TWO_32 == 0
    ensures (a + b) % TWO_32 == a % TWO_32
  {
    ModAddMultiple(a, b / TWO_32);
  }
}
