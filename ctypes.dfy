/** C scalar types and C arithmetic shared by every module. */
module CTypes {

  /** `unsigned char` / `uint8_t` where the source tests its bits */
  type byte = bv8

  /** `uint8_t` where the source only compares and computes with it */
  type uint8 = x: int | 0 <= x < 0x100

  /** `int8_t` / `s8` */
  type int8 = x: int | -0x80 <= x < 0x80

  /** `int16_t` */
  type int16 = x: int | -0x8000 <= x < 0x8000

  /** `int` on every platform the port builds for */
  predicate IsInt32(x: int) { -0x8000_0000 <= x < 0x8000_0000 }

  datatype Option<+T> = None | Some(value: T)

  function Abs(x: int): nat { if x < 0 then -x else x }

  /** C's `n / d` on `int`: the quotient is truncated toward zero, so the
      remainder takes the sign of the dividend (ISO C99, section 6.5.5).
      Dafny's `/` is Euclidean instead. Every divisor in the source is a
      positive constant. */
  function TruncDiv(n: int, d: int): (q: int)
    requires d > 0
    ensures n >= 0 ==> q * d <= n < q * d + d
    ensures n < 0 ==> q * d - d < n <= q * d
    ensures Abs(q) == Abs(n) / d
  {
    if n >= 0 then n / d else -((-n) / d)
  }

  /** C truncating division is odd in the dividend, which Euclidean division is not. */
  lemma TruncDivNegate(n: int, d: int)
    requires d > 0
    ensures TruncDiv(-n, d) == -TruncDiv(n, d)
  {
  }

  lemma TruncDivMonotone(m: int, n: int, d: int)
    requires d > 0 && m <= n
    ensures TruncDiv(m, d) <= TruncDiv(n, d)
  {
    if m >= 0 {
      DivMonotone(m, n, d);
    } else if n < 0 {
      DivMonotone(-n, -m, d);
    }
  }

  lemma DivMonotone(m: nat, n: nat, d: int)
    requires d > 0 && m <= n
    ensures m / d <= n / d
  {
    var qm, qn := m / d, n / d;
    assert qm * d <= m <= n < (qn + 1) * d;
    MulCancel(qm, qn + 1, d);
  }

  lemma MulCancel(a: int, b: int, d: int)
    requires d > 0 && a * d < b * d
    ensures a < b
  {
  }
}
