/** The few JavaScript value semantics the components depend on: `undefined`,
    integer-valued numbers that can become NaN, the truncating `%` operator,
    array indexing that yields `undefined` out of range, and `x || fallback`. */
module JsValues {

  /** `undefined` (None) or a defined value (Some). */
  datatype Option<+T> = None | Some(value: T)

  /** The outcome of rendering: a view, or the TypeError JavaScript throws
      when a property of `undefined` is used. */
  datatype Result<+T> = Ok(value: T) | TypeError

  /** The JavaScript numbers the components meet: integers and NaN. */
  datatype Num = Int(v: int) | NaN

  /** JavaScript `a % n` for integers and a positive divisor: the remainder
      truncates toward zero, so it takes the sign of the dividend. Dafny's
      `%` is Euclidean; the two agree unless `a` is negative and not a
      multiple of `n`, where JavaScript's result is `n` smaller. */
  function Rem(a: int, n: nat): (r: int)
    requires n > 0
    ensures r == if a >= 0 || a % n == 0 then a % n else a % n - n
    ensures a >= 0 ==> 0 <= r < n
    ensures a < 0 ==> -(n as int) < r <= 0
  {
    if a >= 0 then a % n
    else
      NegativeMod(a, n);
      -((-a) % n)
  }

  /** A step of `ModUnique` kept apart: stated inside that lemma's proof it
      leaves the solver without resources. */
  lemma MulAtLeast(n: int, d: int)
    requires n > 0 && d >= 1
    ensures n * d >= n
  {}

  /** Dafny's `%` is determined by any quotient/remainder split of `a`. */
  lemma ModUnique(a: int, n: int, q: int, r: int)
    requires n > 0 && a == n * q + r && 0 <= r < n
    ensures a % n == r
  {
    var q', r' := a / n, a % n;
    assert a == n * q' + r';
    if q' > q {
      MulAtLeast(n, q' - q);
      assert false;
    } else if q > q' {
      MulAtLeast(n, q - q');
      assert false;
    }
  }

  /** The Euclidean remainder of a negative number, from that of its negation. */
  lemma NegativeMod(a: int, n: int)
    requires n > 0 && a < 0
    ensures (-a) % n == 0 ==> a % n == 0
    ensures (-a) % n != 0 ==> a % n == n - (-a) % n
  {
    var q, m := (-a) / n, (-a) % n;
    assert -a == n * q + m;
    if m == 0 {
      assert a == n * (-q) + 0;
      ModUnique(a, n, -q, 0);
    } else {
      assert n * (-q - 1) == n * (-q) - n;
      assert a == n * (-q - 1) + (n - m);
      ModUnique(a, n, -q - 1, n - m);
    }
  }

  /** JavaScript `a + k` for an integer `k`. */
  function Add(a: Num, k: int): Num {
    match a
    case NaN => NaN
    case Int(v) => Int(v + k)
  }

  /** JavaScript `a % n` where `n` is an array length: `% 0` is NaN. */
  function NumRem(a: Num, n: nat): Num {
    match a
    case NaN => NaN
    case Int(v) => if n == 0 then NaN else Int(Rem(v, n))
  }

  /** JavaScript `s[k]`: undefined unless `k` is an integer index in range. */
  function At<T>(s: seq<T>, k: Num): Option<T> {
    if k.Int? && 0 <= k.v < |s| then Some(s[k.v]) else None
  }

  /** JavaScript `s || fallback` for a string that may be undefined:
      both `undefined` and the empty string are falsy. */
  function OrElse(s: Option<string>, fallback: string): string {
    if s.Some? && s.value != "" then s.value else fallback
  }

  /** A string value that is truthy in JavaScript. */
  predicate Truthy(s: Option<string>) {
    s.Some? && s.value != ""
  }
}
