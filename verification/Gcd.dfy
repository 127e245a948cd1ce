/** The Euclidean algorithm and the twofold reduction of `total * stake / whole`
    that the emission controller performs before multiplying. */
module Gcds {
  import opened Arithmetic

  /** The controller's `gcd`, which answers 1 when both arguments are 0. */
  function Gcd(a: nat, b: nat): (g: nat)
    ensures g > 0
    decreases b
  {
    if b != 0 then Gcd(b, a % b) else if a == 0 then 1 else a
  }

  method ComputeGcd(a0: nat, b0: nat) returns (g: nat)
    ensures g == Gcd(a0, b0)
  {
    var a, b := a0, b0;
    while b != 0
      invariant Gcd(a, b) == Gcd(a0, b0)
      decreases b
    {
      var t := b;
      b := a % b;
      a := t;
    }
    if a == 0 {
      return 1;
    }
    return a;
  }

  lemma Regroup(x: nat, y: nat, z: nat)
    ensures x * (y * z) == x * y * z
  {
  }

  lemma Recombine(a: nat, b: nat, r: nat, s: nat, g: nat) returns (p: nat)
    requires b > 0 && b == r * g && a % b == s * g
    ensures a == p * g
  {
    var k := a / b;
    p := k * r + s;
    DivBounds(a, b);
    Distribute(k * r, s, g);
    Regroup(k, r, g);
  }

  lemma {:induction false} GcdDivides(a: nat, b: nat) returns (p: nat, q: nat)
    ensures a == p * Gcd(a, b) && b == q * Gcd(a, b)
    decreases b
  {
    if b == 0 {
      p, q := (if a == 0 then 0 else 1), 0;
    } else {
      var r, s := GcdDivides(b, a % b);
      p := Recombine(a, b, r, s, Gcd(b, a % b));
      q := r;
    }
  }

  lemma BezoutStep(u: int, v: int, q: int, a: int, b: int)
    ensures v * a + (u - v * q) * b == u * b + v * (a - q * b)
  {
    assert (u - v * q) * b == u * b - v * q * b;
    assert v * (a - q * b) == v * a - v * (q * b);
    assert v * q * b == v * (q * b);
  }

  /** The greatest common divisor is an integer combination of its arguments. */
  lemma {:induction false} Bezout(a: nat, b: nat) returns (x: int, y: int)
    requires a > 0 || b > 0
    ensures x * a + y * b == Gcd(a, b)
    decreases b
  {
    if b == 0 {
      x, y := 1, 0;
    } else {
      var u, v := Bezout(b, a % b);
      x, y := v, u - v * (a / b);
      var q := a / b;
      DivBounds(a, b);
      assert a % b == a - q * b;
      BezoutStep(u, v, q, a, b);
    }
  }

  lemma NonPositive(k: int, d: nat)
    requires k <= 0
    ensures k * d <= 0
  {
  }

  lemma CommonFactor(x: int, y: int, p: int, q: int, d: int)
    ensures x * (p * d) + y * (q * d) == (x * p + y * q) * d
  {
    assert x * (p * d) == x * p * d;
    assert y * (q * d) == y * q * d;
  }

  /** Every common divisor is at most the greatest one. */
  lemma GcdGreatest(a: nat, b: nat, d: nat, p: nat, q: nat)
    requires a > 0 || b > 0
    requires a == p * d && b == q * d
    ensures d <= Gcd(a, b)
  {
    var x, y := Bezout(a, b);
    var k := x * p + y * q;
    CommonFactor(x, y, p, q, d);
    assert k * d == Gcd(a, b);
    if k <= 0 {
      NonPositive(k, d);
    } else {
      MulMono(1, k, d, d);
    }
  }

  lemma ModScales(k: nat, a: nat, b: nat)
    requires k > 0 && b > 0
    ensures k * b > 0 && (k * a) % (k * b) == k * (a % b)
  {
    DivCancel(k, a, b);
    var q := a / b;
    assert k * (a - q * b) == k * a - q * (k * b) by {
      assert k * (a - q * b) == k * a - k * (q * b);
      Reassociate(k, q, b);
    }
  }

  /** Scaling both arguments scales the divisor. */
  lemma {:induction false} GcdScales(k: nat, a: nat, b: nat)
    requires k > 0 && (a > 0 || b > 0)
    ensures Gcd(k * a, k * b) == k * Gcd(a, b)
    decreases b
  {
    if b == 0 {
      MulMono(1, k, 1, a);
    } else {
      ModScales(k, a, b);
      GcdScales(k, b, a % b);
    }
  }

  lemma GcdOfMultiples(g: nat, p: nat, q: nat, a: nat, b: nat)
    requires g > 0 && q > 0 && a == p * g && b == q * g
    ensures Gcd(a, b) == Mul(g, Gcd(p, q))
  {
    GcdScales(g, p, q);
    hide Gcd;
    assert g * p == a && g * q == b;
  }

  lemma CancelOne(g: nat, k: nat)
    requires g > 0 && k > 0 && g == Mul(g, k)
    ensures k == 1
  {
    if k > 1 {
      MulMono(g, g, 2, k);
    }
  }

  /** Dividing out the greatest common divisor leaves coprime numbers. */
  lemma CofactorsCoprime(a: nat, b: nat, p: nat, q: nat)
    requires b > 0 && q > 0
    requires a == p * Gcd(a, b) && b == q * Gcd(a, b)
    ensures Gcd(p, q) == 1
  {
    hide Gcd, Mul;
    GcdOfMultiples(Gcd(a, b), p, q, a, b);
    CancelOne(Gcd(a, b), Gcd(p, q));
  }

  /** From a combination equal to 1, the numbers share no factor. */
  lemma CombinationCoprime(a: nat, b: nat, x: int, y: int)
    requires x * a + y * b == 1
    ensures Gcd(a, b) == 1
  {
    var g := Gcd(a, b);
    var p, q := GcdDivides(a, b);
    CommonFactor(x, y, p, q, g);
    var k := x * p + y * q;
    if k <= 0 {
      NonPositive(k, g);
    } else if g > 1 {
      MulMono(1, k, 2, g);
    }
  }

  lemma MultiplyCombinations(x: int, y: int, u: int, v: int, a: int, b: int, c: int)
    requires x * a + y * c == 1 && u * b + v * c == 1
    ensures x * u * (a * b) + (x * a * v + y * (u * b + v * c)) * c == 1
  {
    var w := u * b + v * c;
    assert x * u * (a * b) + x * a * v * c == x * a * w by {
      assert x * a * w == x * a * (u * b) + x * a * (v * c);
      assert x * a * (u * b) == x * u * (a * b);
      assert x * a * (v * c) == x * a * v * c;
    }
    assert (x * a * v + y * w) * c == x * a * v * c + y * w * c;
    assert y * w * c == y * c * w;
  }

  /** Two numbers coprime to a third have a product coprime to it. */
  lemma ProductCoprime(a: nat, b: nat, c: nat)
    requires c > 0 && Gcd(a, c) == 1 && Gcd(b, c) == 1
    ensures Gcd(a * b, c) == 1
  {
    var x, y := Bezout(a, c);
    var u, v := Bezout(b, c);
    MultiplyCombinations(x, y, u, v, a, b, c);
    CombinationCoprime(a * b, c, x * u, x * a * v + y * (u * b + v * c));
  }

  /** A factor of a number coprime to `a` is itself coprime to `a`. */
  lemma DivisorCoprime(a: nat, c: nat, q: nat, d: nat)
    requires c > 0 && c == q * d && Gcd(a, c) == 1
    ensures Gcd(a, d) == 1
  {
    var x, y := Bezout(a, c);
    assert y * (q * d) == y * q * d;
    CombinationCoprime(a, d, x, y * q);
  }

  // ---------------------------------------------------------------------
  // The reduced share
  // ---------------------------------------------------------------------

  datatype Reduced = Reduced(product: nat, divisor: nat)

  /** The product formed after both reductions, and the divisor left over. */
  function Reduce(total: nat, stake: nat, whole: nat): Reduced {
    var g := Gcd(total, whole);
    var denominator := Div(whole, g);
    var g2 := Gcd(stake, denominator);
    Reduced(Mul(Div(total, g), Div(stake, g2)), Div(denominator, g2))
  }

  lemma QuotientOf(a: nat, p: nat, g: nat)
    requires g > 0 && a == p * g
    ensures Div(a, g) == p
  {
    DivIsFloor(a, g, p);
  }

  lemma PositiveFactor(q: nat, g: nat, b: nat)
    requires b == q * g && b > 0
    ensures q > 0
  {
  }

  lemma Cofactors(a: nat, b: nat) returns (p: nat, q: nat)
    requires b > 0
    ensures a == p * Gcd(a, b) && b == q * Gcd(a, b)
    ensures q > 0 && Gcd(p, q) == 1
  {
    hide Gcd;
    p, q := GcdDivides(a, b);
    PositiveFactor(q, Gcd(a, b), b);
    CofactorsCoprime(a, b, p, q);
  }

  lemma FactorOut(t: nat, g: nat, s: nat, g2: nat, w2: nat) returns (factor: nat)
    requires g > 0 && g2 > 0
    ensures factor > 0
    ensures Mul(t * g, s * g2) == Mul(factor, Mul(t, s)) && Mul(t, s) == t * s
    ensures w2 * g2 * g == Mul(factor, w2)
  {
    factor := g * g2;
    MulMono(1, g, 1, g2);
    assert t * g * (s * g2) == t * g * s * g2;
    assert t * g * s * g2 == g * g2 * (t * s);
  }

  lemma Reduction(total: nat, stake: nat, whole: nat) returns (factor: nat)
    requires whole > 0
    ensures factor > 0
    ensures var r := Reduce(total, stake, whole);
            && r.divisor > 0
            && Mul(total, stake) == Mul(factor, r.product)
            && whole == Mul(factor, r.divisor)
            && Gcd(r.product, r.divisor) == 1
  {
    hide Mul, Div, Gcd;
    var g := Gcd(total, whole);
    var t, w := Cofactors(total, whole);
    QuotientOf(total, t, g);
    QuotientOf(whole, w, g);
    var g2 := Gcd(stake, w);
    var s, w2 := Cofactors(stake, w);
    QuotientOf(stake, s, g2);
    QuotientOf(w, w2, g2);
    factor := FactorOut(t, g, s, g2, w2);
    assert w == g2 * w2;
    DivisorCoprime(t, w, g2, w2);
    ProductCoprime(t, s, w2);
  }

  /** Reducing by both divisors first gives exactly the plain floor division. */
  lemma ReducedShareIsExact(total: nat, stake: nat, whole: nat)
    requires whole > 0
    ensures var r := Reduce(total, stake, whole);
            r.divisor > 0 && r.product / r.divisor == MulDiv(total, stake, whole)
  {
    var factor := Reduction(total, stake, whole);
    hide Reduce;
    var r := Reduce(total, stake, whole);
    DivCancel(factor, r.product, r.divisor);
  }

  lemma LowestQuotient(a: nat, b: nat, factor: nat, p: nat, q: nat)
    requires factor > 0 && q > 0 && Gcd(p, q) == 1
    requires a == Mul(factor, p) && b == Mul(factor, q)
    ensures p == Div(a, Gcd(a, b))
  {
    hide Gcd, Div;
    assert a == p * factor && b == q * factor;
    GcdOfMultiples(factor, p, q, a, b);
    QuotientOf(a, p, factor);
  }

  /** The two reductions leave the fraction in lowest terms, so the product that
      has to fit in u128 is the full product over its greatest divisor with `whole`:
      it fits exactly when that quotient does. */
  lemma ReducedProductIsLowest(total: nat, stake: nat, whole: nat)
    requires whole > 0
    ensures Reduce(total, stake, whole).product == Div(Mul(total, stake), Gcd(Mul(total, stake), whole))
    ensures Gcd(Reduce(total, stake, whole).product, Reduce(total, stake, whole).divisor) == 1
  {
    hide Reduce, Gcd, Div, Mul;
    var factor := Reduction(total, stake, whole);
    var r := Reduce(total, stake, whole);
    LowestQuotient(Mul(total, stake), whole, factor, r.product, r.divisor);
  }

  /** So the reduction does not keep every product within u128. */
  lemma ReducedProductCanOverflow()
    ensures var total := 0x8000_0000_0000_0000_0000_0000_0000_0000;
            total <= U128_MAX && Reduce(total, 2, 3).product == 2 * total > U128_MAX
  {
    var total := 0x8000_0000_0000_0000_0000_0000_0000_0000;
    assert total % 3 == 2;
    assert Gcd(total, 3) == Gcd(3, 2) == Gcd(2, 1) == Gcd(1, 0) == 1;
    assert Gcd(2, 3) == Gcd(3, 2);
  }
}
