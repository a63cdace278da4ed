/** Optional values and the handful of JavaScript value rules the application
    relies on: `||` fallbacks on optional fields, `Math.round`, `Math.floor`
    and the truncation behind the remainder operator `%`. JavaScript numbers
    are modelled as exact reals. */
module JsValues {

  /** A field that may be absent (`undefined`). */
  datatype Option<T> = None | Some(value: T)

  /** An option object spread over its defaults (`{ ...defaults, ...options }`):
      a given value wins, whatever it is; a missing one takes the default. */
  function OrDefault<T>(o: Option<T>, d: T): (r: T)
    ensures o.Some? ==> r == o.value
    ensures o.None? ==> r == d
  {
    if o.Some? then o.value else d
  }

  /** A number is falsy when absent or zero (NaN is not modelled). */
  predicate TruthyReal(o: Option<real>) {
    o.Some? && o.value != 0.0
  }

  /** `o || d` for an optional number. */
  function RealOr(o: Option<real>, d: real): (r: real)
    ensures TruthyReal(o) ==> r == o.value
    ensures !TruthyReal(o) ==> r == d
  {
    if TruthyReal(o) then o.value else d
  }

  /** A string is falsy when absent or empty. */
  predicate TruthyString(o: Option<string>) {
    o.Some? && o.value != ""
  }

  /** `o || d` for an optional string. */
  function StringOr(o: Option<string>, d: string): (r: string)
    ensures TruthyString(o) ==> r == o.value
    ensures !TruthyString(o) ==> r == d
  {
    if TruthyString(o) then o.value else d
  }

  /** An optional boolean flag is set only when present and true. */
  predicate Flag(o: Option<bool>) {
    o == Some(true)
  }

  function Max(a: real, b: real): real {
    if a >= b then a else b
  }

  function Min(a: real, b: real): real {
    if a <= b then a else b
  }

  function MinInt(a: int, b: int): int {
    if a <= b then a else b
  }

  function MaxInt(a: int, b: int): int {
    if a >= b then a else b
  }

  /** `v` lies between `a` and `b`, in either order. */
  predicate Between(v: real, a: real, b: real) {
    (a <= v <= b) || (b <= v <= a)
  }

  /** Scaling by a factor in [0, 1] moves a value towards zero. */
  lemma ScaleWithin(d: real, k: real)
    requires 0.0 <= k <= 1.0
    ensures d >= 0.0 ==> 0.0 <= d * k <= d
    ensures d < 0.0 ==> d <= d * k <= 0.0
  {
    if d >= 0.0 {
      assert d * k <= d * 1.0;
    } else {
      assert d * k >= d * 1.0;
    }
  }

  /** `Math.floor`. */
  function Floor(x: real): (r: int)
    ensures r as real <= x < r as real + 1.0
  {
    x.Floor
  }

  /** `Math.round`: halves round towards positive infinity. */
  function Round(x: real): (r: int)
    ensures x - 0.5 < r as real <= x + 0.5
  {
    Floor(x + 0.5)
  }

  /** Truncation towards zero, the quotient rule behind JavaScript's `%`. */
  function Trunc(x: real): (r: int)
    ensures x >= 0.0 ==> r == Floor(x)
    ensures x < 0.0 ==> r == -Floor(-x)
  {
    if x >= 0.0 then Floor(x) else -Floor(-x)
  }

  /** Bounds on a quotient from bounds on the dividend. */
  lemma LowerQuotient(sum: real, n: real, b: real)
    requires n > 0.0 && n * b <= sum
    ensures b <= sum / n
  {
    var q := sum / n;
    assert q * n == sum;
    if q < b {
      assert q * n < b * n;
    }
  }

  lemma UpperQuotient(sum: real, n: real, b: real)
    requires n > 0.0 && sum <= n * b
    ensures sum / n <= b
  {
    var q := sum / n;
    assert q * n == sum;
    if q > b {
      assert q * n > b * n;
    }
  }
}
