// Shared vocabulary for the AT91 driver models: optional values, error
// returns, and the unsigned 32-bit / C integer arithmetic the drivers use.
module Common {

  datatype Option<T> = None | Some(value: T)

  /** Kernel error numbers returned (negated) by the drivers. */
  datatype Errno = EINVAL | ENODEV | EIO | EOther(code: int)

  datatype Result<T> = Ok(value: T) | Err(error: Errno)

  /** The positive error number (include/uapi/asm-generic/errno-base.h); drivers return its negation. */
  function Code(e: Errno): int
  {
    match e
    case EIO => 5
    case ENODEV => 19
    case EINVAL => 22
    case EOther(c) => c
  }

  const TWO32: int := 0x1_0000_0000

  predicate IsU32(x: int) { 0 <= x < TWO32 }

  /** Reduction modulo 2^32: how a C `u32`/`unsigned` value stores an integer result. */
  function Wrap32(x: int): (r: int)
    ensures IsU32(r)
  {
    x % TWO32
  }

  /** The conversion of a mathematical integer to a 32-bit register word. */
  function U32Of(x: int): bv32
  {
    Wrap32(x) as bv32
  }

  lemma WrapIdem(x: int)
    requires IsU32(x)
    ensures Wrap32(x) == x
  {
  }

  /** Unsigned arithmetic is arithmetic modulo 2^32: wrapping the operands first changes nothing. */
  lemma {:induction false} WrapSub(a: int, b: int)
    ensures Wrap32(Wrap32(a) - Wrap32(b)) == Wrap32(a - b)
  {
    var qa, qb := a / TWO32, b / TWO32;
    assert a == qa * TWO32 + Wrap32(a);
    assert b == qb * TWO32 + Wrap32(b);
    assert a - b == (qa - qb) * TWO32 + (Wrap32(a) - Wrap32(b));
    ModShift(Wrap32(a) - Wrap32(b), qa - qb);
  }

  lemma {:induction false} WrapAdd(a: int, b: int)
    ensures Wrap32(Wrap32(a) + Wrap32(b)) == Wrap32(a + b)
  {
    var qa, qb := a / TWO32, b / TWO32;
    assert a == qa * TWO32 + Wrap32(a);
    assert b == qb * TWO32 + Wrap32(b);
    assert a + b == (qa + qb) * TWO32 + (Wrap32(a) + Wrap32(b));
    ModShift(Wrap32(a) + Wrap32(b), qa + qb);
  }

  /** Adding a multiple of 2^32 does not change the wrapped value. */
  lemma {:induction false} ModShift(x: int, k: int)
    ensures Wrap32(x + k * TWO32) == Wrap32(x)
  {
    var q := x / TWO32;
    assert x == q * TWO32 + Wrap32(x);
    assert x + k * TWO32 == (q + k) * TWO32 + Wrap32(x);
    var y := x + k * TWO32;
    assert (y - Wrap32(x)) % TWO32 == 0 by {
      assert y - Wrap32(x) == (q + k) * TWO32;
    }
  }

  lemma MulNonneg(a: int, b: int)
    requires a >= 0 && b >= 0
    ensures a * b >= 0
  {
  }

  /** Multiplying by a non-negative factor keeps an order. */
  lemma MulMono(a: int, b: int, c: nat)
    requires a <= b
    ensures a * c <= b * c
  {
    MulNonneg(b - a, c);
    assert b * c - a * c == (b - a) * c;
  }

  /** Dividing by a positive divisor keeps an order. */
  lemma DivMono(a: nat, b: nat, d: nat)
    requires d > 0 && a <= b
    ensures a / d <= b / d
  {
    var qa := a / d;
    var qb := b / d;
    assert qa * d <= a && b < (qb + 1) * d;
    if qb + 1 <= qa {
      MulMono(qb + 1, qa, d);
    }
  }

  lemma {:induction false} MulAwayFromZero(d: int, b: int)
    requires b > 0 && d != 0
    ensures d * b >= b || d * b <= -b
  {
    if d > 0 {
      assert d * b == (d - 1) * b + b;
      MulNonneg(d - 1, b);
    } else {
      assert d * b == (d + 1) * b - b;
      MulNonneg(-(d + 1), b);
    }
  }

  lemma {:induction false} MulDivCancel(a: nat, b: nat)
    requires b > 0
    ensures (a * b) / b == a
  {
    var q: int := (a * b) / b;
    var d: int := a - q;
    var bi: int := b;
    assert d * bi == (a * b) % b;
    assert -bi < d * bi < bi;
    if d != 0 {
      MulAwayFromZero(d, bi);
    }
  }

  /** C division on `int`: truncates toward zero (for a positive divisor). */
  function CDiv(a: int, b: int): (r: int)
    requires b > 0
  {
    if a >= 0 then a / b else -((-a) / b)
  }

  /** C remainder on `int`: takes the sign of the dividend. */
  function CRem(a: int, b: int): (r: int)
    requires b > 0
  {
    a - b * CDiv(a, b)
  }

  /** DIV_ROUND_UP */
  function DivRoundUp(a: nat, b: nat): nat
    requires b > 0
  {
    (a + b - 1) / b
  }

  /**
   * DIV_ROUND_UP on a 32-bit unsigned numerator: the sum wraps before the
   * division, and agrees with the exact rounding up below the wrap.
   */
  function DivRoundUp32(a: nat, b: nat): (r: nat)
    requires b > 0
    ensures a + b - 1 < TWO32 ==> r == DivRoundUp(a, b)
    ensures r < TWO32
  {
    Wrap32(a + b - 1) / b
  }

  /** At the top of the 32-bit range the wrapped rounding gives 0, not 2^31. */
  lemma RoundUpWrapsAtTop()
    ensures DivRoundUp32(0xFFFF_FFFF, 2) == 0 && DivRoundUp(0xFFFF_FFFF, 2) == 0x8000_0000
    ensures DivRoundUp32(0xFFFF_FFFC, 8) == 0 && DivRoundUp(0xFFFF_FFFC, 8) == 0x2000_0000
  {
    assert Wrap32(0xFFFF_FFFF + 2 - 1) == 0;
    assert Wrap32(0xFFFF_FFFC + 8 - 1) == 3;
  }

  /** ALIGN(x, a) for a power of two a */
  function Align(x: nat, a: nat): nat
    requires a > 0
  {
    (x + a - 1) / a * a
  }

  /** KHZ2PICOS and PICOS2KHZ of <linux/fb.h>: a period in picoseconds from a frequency in kHz, and back. */
  function KHz2Picos(khz: nat): nat
    requires khz > 0
  {
    1000000000 / khz
  }

  function Picos2KHz(ps: nat): nat
    requires ps > 0
  {
    1000000000 / ps
  }

  function Max(a: int, b: int): int { if a >= b then a else b }
  function Min(a: int, b: int): int { if a <= b then a else b }
}
