/** Facts about multiplication and integer division that the solver does not
    find on its own. */
module Arith {

  lemma MulMonotone(x: int, y: int, d: nat)
    requires x <= y
    ensures x * d <= y * d
  {
    var diff := y - x;
    assert y * d == x * d + diff * d;
    MulNonNegative(diff, d);
  }

  lemma MulNonNegative(x: nat, y: nat)
    ensures x * y >= 0
  {
  }

  /** Cancelling a positive factor from a strict product comparison. */
  lemma MulLess(x: int, y: int, d: int)
    requires d > 0 && x * d < y * d
    ensures x < y
  {
    if x >= y {
      MulMonotone(y, x, d);
    }
  }

  /** The quotient times the divisor never exceeds the dividend, and one more
      divisor does. */
  lemma DivBounds(a: nat, d: nat)
    requires d > 0
    ensures (a / d) * d <= a < (a / d + 1) * d
  {
    assert a == (a / d) * d + a % d;
  }

  /** Integer division is monotone in the dividend. */
  lemma DivMonotone(a: nat, b: nat, d: nat)
    requires a <= b && d > 0
    ensures a / d <= b / d
  {
    DivBounds(a, d);
    DivBounds(b, d);
    MulLess(a / d, b / d + 1, d);
  }

  /** `k` is below `len / d` exactly when `k + 1` whole blocks of `d` fit in `len`. */
  lemma BlocksFit(k: nat, d: nat, len: nat)
    requires d > 0 && k < len / d
    ensures (k + 1) * d <= len
  {
    DivBounds(len, d);
    MulMonotone(k + 1, len / d, d);
  }

  /** Dividing a multiple plus a remainder smaller than the divisor. */
  lemma DivOfMultiplePlus(k: nat, d: nat, t: nat)
    requires t < d
    ensures (k * d + t) / d == k
  {
    DivBounds(k * d + t, d);
    var q := (k * d + t) / d;
    if q < k {
      MulMonotone(q + 1, k, d);
    } else if q > k {
      MulMonotone(k + 1, q, d);
    }
  }

  /** Dividing an exact multiple. */
  lemma DivOfMultiple(k: nat, d: nat)
    requires d > 0
    ensures (k * d) / d == k
  {
    DivBounds(k * d, d);
    var q := (k * d) / d;
    if q < k {
      MulMonotone(q + 1, k, d);
    } else if q > k {
      MulMonotone(k + 1, q, d);
    }
  }
}
