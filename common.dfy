/** Shared vocabulary: optional and fallible results, and the fixed-width
    integers of the Go code, with their wrap-around and truncation written out. */
module Common {

  datatype Option<+T> = None | Some(value: T)

  datatype Result<+T, +E> = Ok(value: T) | Err(error: E)

  /** One byte of a Go `[]byte`. */
  type Byte = b: int | 0 <= b < 256

  const Two64: int := 0x1_0000_0000_0000_0000
  const Two63: int := 0x8000_0000_0000_0000

  /** Go's `uint64`. */
  type Uint64 = x: int | 0 <= x < Two64

  /** Go's `int64` (also the representation of `time.Duration`, in nanoseconds). */
  type Int64 = x: int | -Two63 <= x < Two63

  /** Go's conversion `uint64(x)` of an integer: two's complement wrap-around. */
  function ToUint64(x: int): (r: Uint64)
    ensures 0 <= x < Two64 ==> r == x
    ensures (r - x) % Two64 == 0
  {
    x % Two64
  }

  /** Go's `a + b` on two `uint64` values. */
  function Add64(a: Uint64, b: Uint64): (r: Uint64)
    ensures a + b < Two64 ==> r == a + b
    ensures a + b >= Two64 ==> r == a + b - Two64
  {
    (a + b) % Two64
  }

  /** Go's integer division `a / b`: the quotient is truncated toward zero
      (Dafny's own `/` is Euclidean and differs for a negative dividend). */
  function TruncDiv(a: int, b: int): (q: int)
    requires b != 0
    ensures a >= 0 && b > 0 ==> q == a / b
    ensures a < 0 && b > 0 ==> q == -((-a) / b)
    ensures a >= 0 && b < 0 ==> q == -(a / -b)
    ensures a < 0 && b < 0 ==> q == (-a) / (-b)
  {
    var m := (if a < 0 then -a else a) / (if b < 0 then -b else b);
    if (a < 0) == (b < 0) then m else -m
  }

  /** For a non-negative dividend and a positive divisor the truncated
      quotient is the largest `q` with `q * b <= a`. */
  lemma TruncDivBounds(a: int, b: int)
    requires a >= 0 && b > 0
    ensures 0 <= TruncDiv(a, b) * b <= a < (TruncDiv(a, b) + 1) * b
  {
    var q, r := a / b, a % b;
    assert a == q * b + r && 0 <= r < b;
    assert q >= 0;
    assert (q + 1) * b == q * b + b;
  }
}
