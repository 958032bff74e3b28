/** Small value-level building blocks shared by every module of the model:
    optional values, results that stand for raised exceptions, and the numeric
    conversions Python performs implicitly (`int()` on a float, `ceil` of a
    quotient, pandas' `tail`). */
module Common {

  /** An optional value. For prices, `None` stands for a float NaN. */
  datatype Option<T> = None | Some(value: T)

  /** The outcome of a computation that may raise; `Err` carries the kind of
      exception the source would raise. */
  datatype Result<T> = Ok(value: T) | Err(reason: string)

  function Min(a: int, b: int): int { if a <= b then a else b }

  function Abs(x: int): (r: nat)
    ensures r == x || r == -x
  { if x < 0 then -x else x }

  /** Python's `int(x)` on a float truncates toward zero. */
  function Trunc(x: real): (r: int)
    ensures 0.0 <= x ==> r as real <= x < r as real + 1.0
    ensures x < 0.0 ==> r as real - 1.0 < x <= r as real
  {
    if x >= 0.0 then x.Floor else -((-x).Floor)
  }

  /** `int(np.ceil(n / d))` for a positive divisor: the least integer `r`
      with `n <= r * d`. */
  function CeilDiv(n: int, d: int): (r: int)
    requires d > 0
    ensures n <= r * d < n + d
  {
    var q := (-n) / d;
    assert -n == q * d + (-n) % d;
    -q
  }

  /** Python truthiness of a float that may be NaN: NaN is truthy, only 0.0
      is falsy. */
  predicate Truthy(x: Option<real>) {
    x.None? || x.value != 0.0
  }

  /** Python truthiness of an optional float whose `None` is Python's `None`
      (not NaN): only a present, non-zero value is truthy. */
  predicate Given(x: Option<real>) {
    x.Some? && x.value != 0.0
  }

  /** `abs` on a float. */
  function RealAbs(x: real): (r: real)
    ensures r >= 0.0 && (r == x || r == -x)
  { if x < 0.0 then -x else x }

  /** pandas' `DataFrame.tail(n)`: the last `n` rows; for a negative `n`,
      every row except the first `-n`. */
  function Tail<T>(s: seq<T>, n: int): (r: seq<T>)
    ensures |r| <= |s| && r == s[|s| - |r|..]
    ensures n >= 0 ==> |r| == Min(n, |s|)
    ensures n < 0 ==> |r| == if -n < |s| then |s| + n else 0
  {
    if n >= 0 then
      (if n >= |s| then s else s[|s| - n..])
    else
      (if -n >= |s| then [] else s[-n..])
  }

  /** `is_valid_value(value, default)`: the value, unless it equals the
      source's "missing" marker -1, in which case the default. The marker is
      passed as `missing` so that the one definition serves both the float and
      the integer fields. */
  function IsValidValue<T(==)>(value: T, default: T, missing: T): (r: T)
    ensures value != missing ==> r == value
    ensures value == missing ==> r == default
  {
    if value != missing then value else default
  }

  /** The -1 marker the quote feeds use for an absent figure. */
  const MissingReal: real := -1.0
  const MissingInt: int := -1
}
