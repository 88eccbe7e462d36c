/** Floor division of naturals, as used by every price and share formula. */
module Quotients {

  lemma {:induction false} QuotientBounds(a: nat, d: nat)
    requires d > 0
    ensures 0 <= a / d && (a / d) * d <= a < (a / d + 1) * d
  {
    assert a == d * (a / d) + a % d;
  }

  /** A quotient is at least k exactly when k divisors fit. */
  lemma {:induction false} QuotientAtLeast(a: nat, d: nat, k: int)
    requires d > 0
    ensures k <= a / d <==> k * d <= a
  {
    QuotientBounds(a, d);
    if k <= a / d {
      assert k * d <= (a / d) * d;
    } else {
      assert k * d >= (a / d + 1) * d;
    }
  }

  lemma {:induction false} QuotientMonotone(a: nat, b: nat, d: nat)
    requires d > 0 && a <= b
    ensures a / d <= b / d
  {
    QuotientBounds(a, d);
    QuotientAtLeast(b, d, a / d);
  }

  /** Quotient and remainder are the only ones of their kind. */
  lemma {:induction false} ModUnique(a: int, q: nat, d: int, r: nat)
    requires r < q && a == q * d + r
    ensures a % q == r && a / q == d
  {
    var e := d - a / q;
    assert q * e == q * d - q * (a / q) == a % q - r;
    MultipleOutside(q, e);
  }

  /** Every multiple of q other than 0 is at least q away from 0. */
  lemma {:induction false} MultipleOutside(q: int, e: int)
    requires q >= 0
    ensures e >= 1 ==> q * e >= q
    ensures e <= -1 ==> q * e <= -q
  {
    assert q * (e - 1) == q * e - q;
    assert q * (e + 1) == q * e + q;
  }
}
