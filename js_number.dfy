/**
 * JavaScript number and string semantics that the pattern engine relies on:
 * UTF-16 strings, the ToInt32 conversion applied by the bitwise operators,
 * Math.floor / Math.max / Math.min / Math.abs, and the number of iterations
 * of a `for (i = 0; i < bound; i++)` or `for (x = 0; x < limit; x += step)`
 * loop, computed over exact reals.
 */
module JsNumber {

  /** One UTF-16 code unit: what `charCodeAt` returns and what `.length` counts. */
  type CodeUnit = x: int | 0 <= x < 0x1_0000

  /** A JavaScript string is a sequence of UTF-16 code units. */
  type JsString = seq<CodeUnit>

  /** A Dafny string literal whose characters are all in the Basic Multilingual Plane, as a JavaScript string. */
  function Units(s: string): (u: JsString)
    requires forall i :: 0 <= i < |s| ==> s[i] as int < 0x1_0000
    ensures |u| == |s|
    ensures forall i :: 0 <= i < |s| ==> u[i] == s[i] as int
  {
    seq(|s|, i requires 0 <= i < |s| => s[i] as int)
  }

  const TwoTo31: int := 0x8000_0000
  const TwoTo32: int := 0x1_0000_0000

  predicate IsInt32(x: int) {
    -TwoTo31 <= x < TwoTo31
  }

  /** ECMAScript ToInt32 on an integral number: reduce modulo 2^32 into the signed range. */
  function ToInt32(x: int): (r: int)
    ensures IsInt32(r)
    ensures (r - x) % TwoTo32 == 0
  {
    (x + TwoTo31) % TwoTo32 - TwoTo31
  }

  /** ToInt32 leaves a value that is already a signed 32-bit integer alone. */
  lemma ToInt32Identity(x: int)
    requires IsInt32(x)
    ensures ToInt32(x) == x
  {
  }

  /** Wrapping an intermediate sum does not change the wrapped total. */
  lemma ToInt32Absorbs(a: int, b: int)
    ensures ToInt32(ToInt32(a) + b) == ToInt32(a + b)
  {
  }

  function Abs(x: int): (r: nat)
    ensures r == x || r == -x
  {
    if x < 0 then -x else x
  }

  function MaxReal(a: real, b: real): (r: real)
    ensures r >= a && r >= b
    ensures r == a || r == b
  {
    if a >= b then a else b
  }

  function MinReal(a: real, b: real): (r: real)
    ensures r <= a && r <= b
    ensures r == a || r == b
  {
    if a <= b then a else b
  }

  function MaxInt(a: int, b: int): (r: int)
    ensures r >= a && r >= b
    ensures r == a || r == b
  {
    if a >= b then a else b
  }

  /** Math.floor on a real. */
  function Floor(x: real): (r: int)
    ensures r as real <= x < r as real + 1.0
  {
    x.Floor
  }

  /** The number of iterations of `for (let i = 0; i < bound; i++)`: the naturals below `bound`. */
  function CountBelow(bound: real): (n: nat)
    ensures n == 0 <==> bound <= 0.0
    ensures n > 0 ==> (n - 1) as real < bound <= n as real
  {
    if bound <= 0.0 then 0 else -((-bound).Floor)
  }

  /** An index runs in that loop exactly when it is below the bound. */
  lemma CountBelowBound(bound: real, i: nat)
    ensures i < CountBelow(bound) <==> i as real < bound
  {
  }

  /**
   * The number of iterations of `for (let x = 0; x < limit; x += step)`:
   * the naturals k with k * step < limit.
   */
  function StepCount(limit: real, step: real): (n: nat)
    requires step > 0.0
  {
    CountBelow(limit / step)
  }

  /** The k-th value of the loop variable of StepCount's loop reaches the limit exactly when k is the count. */
  lemma StepCountBound(limit: real, step: real, k: nat)
    requires step > 0.0
    ensures k < StepCount(limit, step) <==> k as real * step < limit
  {
    CountBelowBound(limit / step, k);
    assert k as real < limit / step <==> k as real * step < limit;
  }

  /** A loop that has run n steps, whose last tested value passed and whose current one fails, ran StepCount times. */
  lemma StepCountIs(limit: real, step: real, n: nat)
    requires step > 0.0
    requires n as real * step >= limit
    requires n == 0 || (n - 1) as real * step < limit
    ensures StepCount(limit, step) == n
  {
    StepCountBound(limit, step, n);
    if n > 0 {
      StepCountBound(limit, step, n - 1);
    }
  }

  /**
   * The value after k steps of a loop variable that starts at 0 and is
   * advanced by `x += step`, as repeated addition.
   */
  function LoopValue(k: nat, step: real): (x: real)
    ensures step >= 0.0 ==> x >= 0.0
  {
    if k == 0 then 0.0 else LoopValue(k - 1, step) + step
  }

  lemma {:induction false} LoopValueIsProduct(k: nat, step: real)
    ensures LoopValue(k, step) == k as real * step
  {
    if k > 0 {
      LoopValueIsProduct(k - 1, step);
    }
  }

  /** `for (let x = 0; x < limit; x += step)` tests its k-th value successfully exactly when k is below StepCount. */
  lemma StepCountLoop(limit: real, step: real, k: nat)
    requires step > 0.0
    ensures k < StepCount(limit, step) <==> LoopValue(k, step) < limit
  {
    LoopValueIsProduct(k, step);
    StepCountBound(limit, step, k);
  }

  /** Dividing a multiple of a positive divisor by it gives the multiplier back. */
  lemma MulDivCancel(a: real, d: real)
    requires d > 0.0
    ensures (a * d) / d == a
  {
  }

  /** For a positive divisor, `x / d < k` exactly when `x < k d`. */
  lemma DivLess(x: real, d: real, k: real)
    requires d > 0.0
    ensures x / d < k <==> x < k * d
  {
    var q := x / d;
    assert q * d == x;
    if q < k {
      assert (k - q) * d > 0.0;
    } else {
      assert (q - k) * d >= 0.0;
    }
  }
}
