/** Integer facts used by the models. */
module Arithmetic {

  lemma MulGap(p: nat, q: nat, q': nat)
    requires q < q'
    ensures p * q + p <= p * q'
  {
    var d := q' - q;
    assert p * q' == p * q + p * d;
    assert p * d == p + p * (d - 1);
  }

  /** Quotient and remainder are determined by `a == p * q + m`. */
  lemma DivUnique(p: nat, q: nat, m: nat)
    requires m < p
    ensures (p * q + m) / p == q && (p * q + m) % p == m
  {
    var a := p * q + m;
    var q' := a / p;
    assert a == p * q' + a % p;
    if q < q' {
      MulGap(p, q, q');
    } else if q' < q {
      MulGap(p, q', q);
    }
  }

  /** Wrapping once around a ring of size `p`. */
  lemma WrapOnce(x: nat, p: nat)
    requires x < 2 * p
    ensures x % p == if x < p then x else x - p
  {
    if x < p { DivUnique(p, 0, x); } else { DivUnique(p, 1, x - p); }
  }
}
