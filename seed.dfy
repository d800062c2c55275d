/**
 * Seed derivation (`createSeed`): a Java-style string hash over the UTF-16
 * code units of a text followed by those of a colour tag. Each step computes
 * `(hash << 5) - hash + code` and then `hash & hash`, both of which wrap to a
 * signed 32-bit integer; the result is the absolute value of the final hash.
 */
module Seed {
  import opened JsNumber

  /** `hash << 5`: the left operand is converted by ToInt32 and the shifted bits wrap at 32. */
  function ShiftLeft5(h: int): int {
    ToInt32(ToInt32(h) * 32)
  }

  /** `hash & hash`: both operands are converted by ToInt32, and a & a == a. */
  function SelfAnd(h: int): int {
    ToInt32(h)
  }

  /** One step of the hash loop, as the source writes it. */
  function Step(h: int, c: CodeUnit): int {
    SelfAnd(ShiftLeft5(h) - h + c)
  }

  /** The step is the wrapped Java hash step `h * 31 + c`. */
  lemma StepIsTimes31(h: int, c: CodeUnit)
    requires IsInt32(h)
    ensures Step(h, c) == ToInt32(31 * h + c)
  {
    ToInt32Identity(h);
    ToInt32Absorbs(h * 32, -h + c);
  }

  /** The hash after running the loop over `s`, starting from `acc` (one step per code unit, first to last). */
  function Fold(acc: int, s: JsString): int
    decreases |s|
  {
    if |s| == 0 then acc else Step(Fold(acc, s[..|s| - 1]), s[|s| - 1])
  }

  /** The value `createSeed(text, color)` returns. */
  function SeedOf(text: JsString, color: JsString): nat {
    Abs(Fold(Fold(0, text), color))
  }

  /** The exact (unwrapped) polynomial hash: acc * 31^|s| + sum of s[i] * 31^(|s|-1-i). */
  function Poly(acc: int, s: JsString): int
    decreases |s|
  {
    if |s| == 0 then acc else 31 * Poly(acc, s[..|s| - 1]) + s[|s| - 1]
  }

  /** Wrapping before the step `31 * h + c` gives the same result as wrapping after it. */
  lemma WrapTimes31(p: int, c: int)
    ensures ToInt32(31 * ToInt32(p) + c) == ToInt32(31 * p + c)
  {
    var d := ToInt32(p) - p;
    var k := d / TwoTo32;
    assert d == k * TwoTo32;
    assert 31 * ToInt32(p) + c == (31 * p + c) + (31 * k) * TwoTo32;
    WrapMultiple(31 * p + c, 31 * k);
  }

  lemma WrapMultiple(x: int, k: int)
    ensures ToInt32(x + k * TwoTo32) == ToInt32(x)
  {
  }

  /** The loop's hash stays a signed 32-bit integer. */
  lemma {:induction false} FoldIsInt32(acc: int, s: JsString)
    requires IsInt32(acc)
    ensures IsInt32(Fold(acc, s))
  {
    if |s| > 0 {
      FoldIsInt32(acc, s[..|s| - 1]);
    }
  }

  /**
   * Wrapping at every step gives the same hash as computing the exact
   * polynomial and wrapping once at the end: the hash is `acc*31^n + ...`
   * modulo 2^32, read as a signed integer.
   */
  lemma {:induction false} FoldIsWrappedPoly(acc: int, s: JsString)
    requires IsInt32(acc)
    ensures Fold(acc, s) == ToInt32(Poly(acc, s))
  {
    if |s| == 0 {
      ToInt32Identity(acc);
    } else {
      var init := s[..|s| - 1];
      var c := s[|s| - 1];
      FoldIsWrappedPoly(acc, init);
      FoldIsInt32(acc, init);
      StepIsTimes31(Fold(acc, init), c);
      WrapTimes31(Poly(acc, init), c);
    }
  }

  /** Running the loop over a concatenation is running it over each part in turn. */
  lemma {:induction false} FoldAppend(acc: int, a: JsString, b: JsString)
    ensures Fold(acc, a + b) == Fold(Fold(acc, a), b)
    decreases |b|
  {
    if |b| == 0 {
      assert a + b == a;
    } else {
      var b' := b[..|b| - 1];
      assert (a + b)[..|a + b| - 1] == a + b';
      assert (a + b)[|a + b| - 1] == b[|b| - 1];
      FoldAppend(acc, a, b');
    }
  }

  /** The two loops of `createSeed` are one loop over the concatenated text and colour. */
  lemma SeedOfConcat(text: JsString, color: JsString)
    ensures SeedOf(text, color) == SeedOf(text + color, [])
  {
    FoldAppend(0, text, color);
  }

  /**
   * The seed lies in [0, 2^31]; it reaches 2^31 exactly when the final hash
   * is -2^31, the one signed 32-bit value whose absolute value is not one.
   */
  lemma SeedRange(text: JsString, color: JsString)
    ensures SeedOf(text, color) <= TwoTo31
    ensures SeedOf(text, color) == TwoTo31 <==> Fold(Fold(0, text), color) == -TwoTo31
  {
    FoldIsInt32(0, text);
    FoldIsInt32(Fold(0, text), color);
  }

  /** `createSeed(text, color)`, with the source's two loops. */
  method CreateSeed(text: JsString, color: JsString) returns (seed: nat)
    ensures seed == SeedOf(text, color)
    ensures seed <= TwoTo31
  {
    var hash := 0;
    var i := 0;
    while i < |text|
      invariant 0 <= i <= |text|
      invariant hash == Fold(0, text[..i])
    {
      assert text[..i + 1][..i] == text[..i];
      hash := ShiftLeft5(hash) - hash + text[i];
      hash := SelfAnd(hash);
      i := i + 1;
    }
    assert text[..|text|] == text;
    var j := 0;
    while j < |color|
      invariant 0 <= j <= |color|
      invariant hash == Fold(Fold(0, text), color[..j])
    {
      assert color[..j + 1][..j] == color[..j];
      hash := ShiftLeft5(hash) - hash + color[j];
      hash := SelfAnd(hash);
      j := j + 1;
    }
    assert color[..|color|] == color;
    seed := Abs(hash);
    SeedRange(text, color);
  }
}
