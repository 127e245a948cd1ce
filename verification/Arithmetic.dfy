/** Fixed-width constants, saturating operations and the few facts about
    multiplication and floor division that the other modules build on. */
module Arithmetic {
  const U32_LIMIT: nat := 0x1_0000_0000
  const U64_LIMIT: nat := 0x1_0000_0000_0000_0000
  const U128_MAX: nat := 0xFFFF_FFFF_FFFF_FFFF_FFFF_FFFF_FFFF_FFFF
  const BPS: nat := 10_000

  function Min(a: nat, b: nat): nat {
    if a <= b then a else b
  }

  function Max(a: nat, b: nat): nat {
    if a <= b then b else a
  }

  /** The value a saturating u128 operation keeps when the exact result is `x`. */
  function Sat(x: nat): nat {
    Min(x, U128_MAX)
  }

  function SatSub(a: nat, b: nat): nat {
    if b <= a then a - b else 0
  }

  function Mul(a: nat, b: nat): nat {
    a * b
  }

  function Div(a: nat, d: nat): nat
    requires d > 0
  {
    a / d
  }

  lemma MulMono(a: nat, b: nat, c: nat, d: nat)
    requires a <= b && c <= d
    ensures a * c <= b * d
  {
    assert a * c <= b * c;
    assert b * c <= b * d;
  }

  lemma StepMul(p: nat, q: nat, d: nat)
    requires p < q
    ensures p * d + d <= q * d
  {
    assert (p + 1) * d == p * d + d;
    MulMono(p + 1, q, d, d);
  }

  /** Floor division, characterised by its two bounds. */
  lemma DivBounds(a: nat, d: nat)
    requires d > 0
    ensures a / d * d <= a < a / d * d + d
  {
  }

  lemma DivIsFloor(a: nat, d: nat, q: nat)
    requires d > 0
    requires q * d <= a < q * d + d
    ensures a / d == q
  {
    var p := a / d;
    DivBounds(a, d);
    if p < q {
      StepMul(p, q, d);
    } else if q < p {
      StepMul(q, p, d);
    }
  }

  /** `q <= a / d` exactly when `q` copies of `d` fit into `a`. */
  lemma DivAtLeast(a: nat, d: nat, q: nat)
    requires d > 0
    ensures q <= a / d <==> q * d <= a
  {
    var p := a / d;
    DivBounds(a, d);
    if q <= p {
      MulMono(q, p, d, d);
    } else {
      StepMul(p, q, d);
    }
  }

  lemma DivMono(a: nat, b: nat, d: nat)
    requires d > 0 && a <= b
    ensures a / d <= b / d
  {
    DivBounds(a, d);
    DivAtLeast(b, d, a / d);
  }

  lemma DivWithin(a: nat, q: nat, d: nat)
    requires d > 0 && a <= d * q
    ensures a / d <= q
  {
    DivMono(a, d * q, d);
    DivIsFloor(d * q, d, q);
  }

  lemma Reassociate(k: nat, q: nat, d: nat)
    ensures k * (q * d) == q * (k * d)
    ensures k * (q * d + d) == q * (k * d) + k * d
  {
    assert k * (q * d) == q * (k * d);
    assert k * (q * d + d) == k * (q * d) + k * d;
  }

  /** A common factor cancels from a floor division. */
  lemma DivCancel(k: nat, a: nat, d: nat)
    requires k > 0 && d > 0
    ensures k * d > 0
    ensures (k * a) / (k * d) == a / d
  {
    var q := a / d;
    DivBounds(a, d);
    MulMono(1, k, 1, d);
    MulMono(k, k, q * d, a);
    MulMono(k, k, a + 1, q * d + d);
    Reassociate(k, q, d);
    DivIsFloor(k * a, k * d, q);
  }

  lemma Distribute(a: nat, b: nat, d: nat)
    ensures (a + b) * d == a * d + b * d
  {
  }

  /** The sum of two floors is at most the floor of the sum, and short by at most one. */
  lemma DivAdd(a: nat, b: nat, d: nat)
    requires d > 0
    ensures a / d + b / d <= (a + b) / d <= a / d + b / d + 1
  {
    var p, q := a / d, b / d;
    DivBounds(a, d);
    DivBounds(b, d);
    Distribute(p, q, d);
    Distribute(p + q, 2, d);
    DivAtLeast(a + b, d, p + q);
    DivAtLeast(a + b, d, p + q + 2);
  }

  /** `a * b / d`, rounded down: the shape of every price, fee, weight and share. */
  function MulDiv(a: nat, b: nat, d: nat): nat
    requires d > 0
  {
    a * b / d
  }

  lemma MulDivMono(a: nat, a': nat, b: nat, b': nat, d: nat)
    requires d > 0 && a <= a' && b <= b'
    ensures MulDiv(a, b, d) <= MulDiv(a', b', d)
  {
    MulMono(a, a', b, b');
    DivMono(a * b, a' * b', d);
  }

  lemma MulDivBounds(a: nat, b: nat, d: nat)
    requires d > 0
    ensures MulDiv(a, b, d) * d <= a * b < MulDiv(a, b, d) * d + d
  {
    DivBounds(a * b, d);
  }

  lemma MulDivAtLeast(a: nat, b: nat, d: nat, q: nat)
    requires d > 0
    ensures q <= MulDiv(a, b, d) <==> q * d <= a * b
  {
    DivAtLeast(a * b, d, q);
  }

  /** A fraction of at most one keeps the result within `a`. */
  lemma MulDivAtMost(a: nat, b: nat, d: nat)
    requires d > 0 && b <= d
    ensures MulDiv(a, b, d) <= a
  {
    MulDivMono(a, a, b, d, d);
    DivIsFloor(a * d, d, a);
  }

  /** `q` is `b / d` of `a`, rounded down. */
  predicate IsFloorShare(q: nat, a: nat, b: nat, d: nat) {
    q * d <= a * b < (q + 1) * d
  }

  lemma MulDivFloor(q: nat, a: nat, b: nat, d: nat)
    requires d > 0 && q == MulDiv(a, b, d)
    ensures IsFloorShare(q, a, b, d)
  {
    MulDivBounds(a, b, d);
    Distribute(q, 1, d);
  }
}
