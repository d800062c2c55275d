/**
 * The seeded pseudo-random generator `seededRandom(seed)`: the fractional
 * part of `sin(seed) * 10000`. `Math.sin` and the other functions of the
 * JavaScript Math object the generators use are not definable here, so
 * they are a parameter: every fact below holds whatever they return.
 */
module Random {
  import opened JsNumber

  /** The parts of JavaScript's Math object that the pattern engine calls. */
  datatype MathLib = MathLib(sin: real -> real, cos: real -> real, tan: real -> real, pi: real)

  /** `seededRandom(seed)`: always in [0, 1), for any sine. */
  function SeededRandom(m: MathLib, seed: int): (r: real)
    ensures 0.0 <= r < 1.0
  {
    var x := m.sin(seed as real) * 10000.0;
    x - Floor(x) as real
  }

  /** `lo + seededRandom(seed) * span` lies in [lo, lo + span) for a positive span. */
  lemma JitterRange(m: MathLib, seed: int, lo: real, span: real)
    requires span > 0.0
    ensures lo <= lo + SeededRandom(m, seed) * span < lo + span
  {
    var r := SeededRandom(m, seed);
    assert 0.0 <= r * span;
    assert r * span < 1.0 * span;
  }

  /** The basic trigonometric identity, at one angle; the geometric lemmas assume it where they need it. */
  ghost predicate Pythagorean(m: MathLib, angle: real) {
    m.sin(angle) * m.sin(angle) + m.cos(angle) * m.cos(angle) == 1.0
  }
}
