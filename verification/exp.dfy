/** The exponential used to turn a log-scale delta into a size ratio.

The decoder only needs three facts about `exp`, so the model takes the
function as a parameter and states those facts as a predicate instead of
computing it: exp(0) = 1, exp is positive, and exp is strictly increasing.
 */
module ExpLaws {

  /** How much `exp` grows from `x` to `y`. Monotonicity is stated through this
      term so that it is applied where a proof asks for it (`ExpStrictMonotone`)
      rather than to every pair of exp values in sight. */
  ghost function Rise(exp: real -> real, x: real, y: real): real {
    exp(y) - exp(x)
  }

  /** `exp` behaves like the real exponential as far as the decoder is concerned. */
  ghost predicate IsExp(exp: real -> real) {
    && exp(0.0) == 1.0
    && (forall x :: exp(x) > 0.0)
    && (forall x, y {:trigger Rise(exp, x, y)} :: x < y ==> Rise(exp, x, y) > 0.0)
  }

  /** Strict monotonicity. */
  lemma ExpStrictMonotone(exp: real -> real, x: real, y: real)
    requires IsExp(exp) && x < y
    ensures exp(x) < exp(y)
  {
    assert Rise(exp, x, y) > 0.0;
  }

  /** Non-strict monotonicity, the form the clamp proofs use. */
  lemma ExpMonotone(exp: real -> real, x: real, y: real)
    requires IsExp(exp) && x <= y
    ensures exp(x) <= exp(y)
  {
    if x < y {
      ExpStrictMonotone(exp, x, y);
    }
  }
}
