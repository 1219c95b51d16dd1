/** `Math.exp` and `Math.log10` cannot be computed over the reals, so the model
    receives them as function values and assumes only the facts below about
    them. Floating-point rounding is not modelled. */
module Transcendental {

  datatype MathLib = MathLib(exp: real -> real, log10: real -> real)

  /** The properties of the real exponential and decimal logarithm the ranking
      relies on: exp is positive, strictly increasing and exp(0) = 1; log10 is
      strictly increasing on the positive reals with log10(10) = 1 and
      log10(100) = 2. */
  ghost predicate Sound(m: MathLib) {
    && (forall x :: 0.0 < m.exp(x))
    && (forall x, y :: x < y ==> m.exp(x) < m.exp(y))
    && m.exp(0.0) == 1.0
    && (forall x, y :: 0.0 < x < y ==> m.log10(x) < m.log10(y))
    && m.log10(10.0) == 1.0
    && m.log10(100.0) == 2.0
  }

  lemma ExpOfNonPositive(m: MathLib, x: real)
    requires Sound(m)
    requires x <= 0.0
    ensures 0.0 < m.exp(x) <= 1.0
  {
    if x < 0.0 {
      assert m.exp(x) < m.exp(0.0);
    }
  }

  lemma ExpIncreasing(m: MathLib, x: real, y: real)
    requires Sound(m)
    requires x < y
    ensures m.exp(x) < m.exp(y)
  {
  }

  /** log10 on [10, 100] lies in [1, 2]. */
  lemma Log10Between(m: MathLib, x: real)
    requires Sound(m)
    requires 10.0 <= x <= 100.0
    ensures 1.0 <= m.log10(x) <= 2.0
  {
    if 10.0 < x {
      assert m.log10(10.0) < m.log10(x);
    }
    if x < 100.0 {
      assert m.log10(x) < m.log10(100.0);
    }
  }

  lemma Log10AtLeastOne(m: MathLib, x: real)
    requires Sound(m)
    requires 10.0 <= x
    ensures 1.0 <= m.log10(x)
  {
    if 10.0 < x {
      assert m.log10(10.0) < m.log10(x);
    }
  }

  lemma Log10Monotone(m: MathLib, x: real, y: real)
    requires Sound(m)
    requires 0.0 < x <= y
    ensures m.log10(x) <= m.log10(y)
  {
    if x < y {
      assert m.log10(x) < m.log10(y);
    }
  }
}
