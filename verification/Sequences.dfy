/** Sums over sequences, sequences that enumerate a set, and the rounding bound
    for a proportional split. */
module Sequences {
  import opened Arithmetic
  import opened MapSums

  function SumBy<T>(s: seq<T>, f: T -> nat): nat {
    if s == [] then 0 else SumBy(s[..|s| - 1], f) + f(s[|s| - 1])
  }

  function Itself(n: nat): nat {
    n
  }

  lemma SumByPush<T>(s: seq<T>, x: T, f: T -> nat)
    ensures SumBy(s + [x], f) == SumBy(s, f) + f(x)
  {
    assert (s + [x])[..|s|] == s;
  }

  lemma {:induction false} SumByAppend<T>(s: seq<T>, t: seq<T>, f: T -> nat)
    ensures SumBy(s + t, f) == SumBy(s, f) + SumBy(t, f)
  {
    if t == [] {
      assert s + t == s;
    } else {
      SumByAppend(s, t[..|t| - 1], f);
      SumByPush(s + t[..|t| - 1], t[|t| - 1], f);
      assert s + t[..|t| - 1] + [t[|t| - 1]] == s + t;
    }
  }

  /** `s` lists every element of `keys` once, in some order. */
  ghost predicate Enumerates<K(!new)>(s: seq<K>, keys: set<K>) {
    && (forall i, j :: 0 <= i < j < |s| ==> s[i] != s[j])
    && (forall k :: k in s <==> k in keys)
  }

  function Values<K(==)>(m: map<K, nat>, s: seq<K>): (v: seq<nat>)
    requires forall k :: k in s ==> k in m
    ensures |v| == |s|
  {
    seq(|s|, i requires 0 <= i < |s| => m[s[i]])
  }

  lemma EnumeratesPush<K(!new)>(s: seq<K>, k: K, keys: set<K>)
    requires Enumerates(s, keys) && k !in keys
    ensures Enumerates(s + [k], keys + {k})
  {
  }

  lemma EnumeratesInit<K(!new)>(s: seq<K>, keys: set<K>)
    requires Enumerates(s, keys) && s != []
    ensures s[|s| - 1] in keys
    ensures Enumerates(s[..|s| - 1], keys - {s[|s| - 1]})
  {
    var n := |s| - 1;
    assert s == s[..n] + [s[n]];
    assert s[n] in s;
  }

  lemma ValuesPush<K>(m: map<K, nat>, s: seq<K>)
    requires s != [] && forall k :: k in s ==> k in m
    ensures var n := |s| - 1;
            && (forall k :: k in s[..n] ==> k in m)
            && SumBy(Values(m, s), Itself) == SumBy(Values(m, s[..n]), Itself) + m[s[n]]
  {
    var n := |s| - 1;
    assert Values(m, s) == Values(m, s[..n]) + [m[s[n]]];
    SumByPush(Values(m, s[..n]), m[s[n]], Itself);
  }

  /** Adding up in any listing order gives the sum over the set. */
  lemma {:induction false} EnumerationSum<K(!new)>(m: map<K, nat>, s: seq<K>, keys: set<K>)
    requires keys <= m.Keys && Enumerates(s, keys)
    ensures SumBy(Values(m, s), Itself) == Sum(m, keys)
    ensures |s| == |keys|
  {
    if s == [] {
      assert keys == {};
    } else {
      var n := |s| - 1;
      ValuesPush(m, s);
      EnumeratesInit(s, keys);
      hide SumBy, Sum, Values, Enumerates;
      EnumerationSum(m, s[..n], keys - {s[n]});
      SumSplit(m, keys, s[n]);
    }
  }

  // ---------------------------------------------------------------------
  // Proportional shares
  // ---------------------------------------------------------------------

  function Shares(total: nat, weights: seq<nat>, d: nat): (v: seq<nat>)
    requires d > 0
    ensures |v| == |weights|
  {
    seq(|weights|, i requires 0 <= i < |weights| => MulDiv(total, weights[i], d))
  }

  lemma AddShare(total: nat, sum: nat, w: nat, d: nat, shares: nat, n: nat)
    requires d > 0
    requires shares * d <= total * sum <= (shares + n) * d
    ensures (shares + MulDiv(total, w, d)) * d <= total * (sum + w)
    ensures total * (sum + w) < (shares + MulDiv(total, w, d) + (n + 1)) * d
  {
    MulDivBounds(total, w, d);
    hide MulDiv;
    var q := MulDiv(total, w, d);
    Distribute(shares, q, d);
    Distribute(shares + n, q + 1, d);
    Distribute(q, 1, d);
    assert total * (sum + w) == total * sum + total * w;
  }

  lemma {:induction false} ShareSumBounds(total: nat, weights: seq<nat>, d: nat)
    requires d > 0
    ensures SumBy(Shares(total, weights, d), Itself) * d <= total * SumBy(weights, Itself)
    ensures total * SumBy(weights, Itself) <= (SumBy(Shares(total, weights, d), Itself) + |weights|) * d
    ensures weights != [] ==>
              total * SumBy(weights, Itself) < (SumBy(Shares(total, weights, d), Itself) + |weights|) * d
  {
    if weights != [] {
      var n := |weights| - 1;
      ShareSumBounds(total, weights[..n], d);
      assert Shares(total, weights, d)[..n] == Shares(total, weights[..n], d);
      AddShare(total, SumBy(weights[..n], Itself), weights[n], d, SumBy(Shares(total, weights[..n], d), Itself), n);
    }
  }

  lemma WithinOnePerShare(total: nat, sum: nat, n: nat, d: nat)
    requires d > 0 && sum * d <= total * d < (sum + n) * d
    ensures sum <= total < sum + n
  {
    if total < sum {
      StepMul(total, sum, d);
    }
    if sum + n <= total {
      MulMono(sum + n, total, d, d);
    }
  }

  /** Rounded-down shares of the whole never add up to more than the total, and
      fall short of it by less than one unit per recipient. */
  lemma SharesOfWhole(total: nat, weights: seq<nat>, d: nat)
    requires d == SumBy(weights, Itself) && d > 0
    ensures var sum := SumBy(Shares(total, weights, d), Itself);
            sum <= total < sum + |weights|
  {
    assert weights != [];
    ShareSumBounds(total, weights, d);
    hide Shares, SumBy;
    var sum, n := SumBy(Shares(total, weights, d), Itself), |weights|;
    assert sum * d <= total * d < (sum + n) * d;
    WithinOnePerShare(total, sum, n, d);
  }

  // ---------------------------------------------------------------------
  // Shares whose product overflows
  // ---------------------------------------------------------------------

  /** A share as compiled without overflow checks: the product is taken modulo 2^128. */
  function WrappedShare(total: nat, weight: nat, d: nat): nat
    requires d > 0
  {
    total * weight % (U128_MAX + 1) / d
  }

  lemma Remainder(x: nat)
    ensures var y := x % (U128_MAX + 1);
            if x <= U128_MAX then y == x else y + U128_MAX < x
  {
  }

  lemma LostQuotient(x: nat, y: nat, d: nat)
    requires d > 0 && y + d <= x
    ensures y / d < x / d
  {
    var p, q := y / d, x / d;
    DivBounds(y, d);
    DivBounds(x, d);
    if q <= p {
      MulMono(q, p, d, d);
    }
  }

  /** Wrapping only ever loses, and it loses exactly when the product does not fit. */
  lemma WrappedShareIff(total: nat, weight: nat, d: nat)
    requires 0 < d <= U128_MAX
    ensures WrappedShare(total, weight, d) <= MulDiv(total, weight, d)
    ensures WrappedShare(total, weight, d) == MulDiv(total, weight, d) <==> total * weight <= U128_MAX
  {
    var x := total * weight;
    Remainder(x);
    if x > U128_MAX {
      LostQuotient(x, x % (U128_MAX + 1), d);
    }
  }

  function WrappedShares(total: nat, weights: seq<nat>, d: nat): (v: seq<nat>)
    requires d > 0
    ensures |v| == |weights|
  {
    seq(|weights|, i requires 0 <= i < |weights| => WrappedShare(total, weights[i], d))
  }

  function Largest(weights: seq<nat>): nat {
    if weights == [] then 0 else Max(Largest(weights[..|weights| - 1]), weights[|weights| - 1])
  }

  lemma LargerProduct(total: nat, a: nat, b: nat)
    ensures total * Max(a, b) <= U128_MAX <==> total * a <= U128_MAX && total * b <= U128_MAX
  {
    if a <= b {
      MulMono(total, total, a, b);
    } else {
      MulMono(total, total, b, a);
    }
  }

  /** All shares come out as they should exactly when the product with the largest weight
      fits; otherwise they add up to strictly less. */
  lemma {:induction false} WrappedSharesIff(total: nat, weights: seq<nat>, d: nat)
    requires 0 < d <= U128_MAX
    ensures var wrapped, exact := WrappedShares(total, weights, d), Shares(total, weights, d);
            && SumBy(wrapped, Itself) <= SumBy(exact, Itself)
            && (SumBy(wrapped, Itself) == SumBy(exact, Itself) <==> total * Largest(weights) <= U128_MAX)
            && (wrapped == exact <==> total * Largest(weights) <= U128_MAX)
  {
    if weights != [] {
      hide WrappedShare, MulDiv;
      var n := |weights| - 1;
      var before, w := weights[..n], weights[n];
      var wrapped, exact := WrappedShares(total, before, d), Shares(total, before, d);
      WrappedSharesIff(total, before, d);
      WrappedShareIff(total, w, d);
      assert WrappedShares(total, weights, d) == wrapped + [WrappedShare(total, w, d)];
      assert Shares(total, weights, d) == exact + [MulDiv(total, w, d)];
      SumByPush(wrapped, WrappedShare(total, w, d), Itself);
      SumByPush(exact, MulDiv(total, w, d), Itself);
      LargerProduct(total, Largest(before), w);
    }
  }

  /** Even wrapped, the shares of a whole never add up to more than the total. */
  lemma WrappedSharesWithin(total: nat, weights: seq<nat>, d: nat)
    requires d == SumBy(weights, Itself) && 0 < d <= U128_MAX
    ensures SumBy(WrappedShares(total, weights, d), Itself) <= total
  {
    WrappedSharesIff(total, weights, d);
    SharesOfWhole(total, weights, d);
  }
}
