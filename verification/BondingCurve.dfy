/** The pricing curves of agent tokens: price, cost, proceeds, and the two ways
    of turning a payment into a token count (a Newton square root for the linear
    curve, a binary search for the other two). Plain products are exact here;
    the saturating ones of the quadratic curve are written with `Sat`. */
module BondingCurve {
  import opened Arithmetic

  const SCALE: nat := 1_000_000

  datatype Curve =
    | Linear(slope: nat)
    | Quadratic(coefficient: nat)
    | Sigmoid(maxPrice: nat, midpoint: nat)

  function PriceAt(curve: Curve, supply: nat): nat {
    match curve
    case Linear(slope) => MulDiv(slope, supply, SCALE)
    case Quadratic(coefficient) => MulDiv(MulDiv(coefficient, supply, SCALE), supply, SCALE)
    case Sigmoid(maxPrice, midpoint) =>
      var low := midpoint / 5;
      var high := midpoint * 4 / 5;
      if supply <= low then maxPrice / 20
      else if supply >= high then maxPrice * 19 / 20
      else maxPrice / 20 + MulDiv(maxPrice * 9 / 10, supply - low, high - low)
  }

  function SatCube(x: nat): nat {
    Sat(Sat(x * x) * x)
  }

  lemma Square(a: nat, b: nat)
    requires a <= b
    ensures a * a <= b * b
  {
    MulMono(a, b, a, b);
  }

  /** The squares' difference that both linear formulas multiply by the slope. */
  function SquareGap(low: nat, high: nat): nat
    requires low <= high
  {
    Square(low, high);
    high * high - low * low
  }

  function BuyCost(curve: Curve, supply: nat, tokens: nat): nat {
    if tokens == 0 then 0
    else
      var newSupply := supply + tokens;
      match curve
      case Linear(slope) => MulDiv(slope, SquareGap(supply, newSupply), 2 * SCALE)
      case Quadratic(coefficient) =>
        Sat(coefficient * SatSub(SatCube(newSupply / SCALE), SatCube(supply / SCALE))) / 3
      case Sigmoid(_, _) => MulDiv(PriceAt(curve, supply) + PriceAt(curve, newSupply), tokens, 2)
  }

  function SellProceeds(curve: Curve, supply: nat, tokens: nat): nat {
    if tokens == 0 || tokens > supply then 0
    else
      var newSupply := supply - tokens;
      match curve
      case Linear(slope) => MulDiv(slope, SquareGap(newSupply, supply), 2 * SCALE)
      case Quadratic(coefficient) =>
        Sat(coefficient * SatSub(SatCube(supply / SCALE), SatCube(newSupply / SCALE))) / 3
      case Sigmoid(_, _) => MulDiv(PriceAt(curve, supply) + PriceAt(curve, newSupply), tokens, 2)
  }

  /** Selling what was just bought pays back exactly what it cost, on every curve. */
  lemma SellUndoesBuy(curve: Curve, supply: nat, tokens: nat)
    ensures SellProceeds(curve, supply + tokens, tokens) == BuyCost(curve, supply, tokens)
  {
    assert supply + tokens - tokens == supply;
  }

  // ---------------------------------------------------------------------
  // What the price is
  // ---------------------------------------------------------------------

  lemma LinearPrice(slope: nat, supply: nat)
    ensures var p := PriceAt(Linear(slope), supply);
            p * SCALE <= slope * supply < (p + 1) * SCALE
  {
    MulDivBounds(slope, supply, SCALE);
  }

  /** The quadratic price is rounded twice: first the product of coefficient and supply, then
      that rounded value times the supply. */
  lemma QuadraticPrice(coefficient: nat, supply: nat, rounded: nat)
    requires rounded * SCALE <= coefficient * supply < (rounded + 1) * SCALE
    ensures var p := PriceAt(Quadratic(coefficient), supply);
            p * SCALE <= rounded * supply < (p + 1) * SCALE
  {
    DivIsFloor(coefficient * supply, SCALE, rounded);
    hide MulDiv;
    assert MulDiv(coefficient, supply, SCALE) == rounded by {
      MulDivAtLeast(coefficient, supply, SCALE, rounded);
      MulDivAtLeast(coefficient, supply, SCALE, rounded + 1);
    }
    MulDivBounds(rounded, supply, SCALE);
  }

  lemma QuadraticRoundsTwice()
    ensures PriceAt(Quadratic(1), 1_500_000) == 1
    ensures 1 * 1_500_000 * 1_500_000 / (SCALE * SCALE) == 2
  {
    QuadraticPrice(1, 1_500_000, 1);
  }

  /** On the ramp the price rises from the low plateau in proportion to the distance covered,
      nine tenths of the top price over the whole ramp. */
  lemma SigmoidRamp(maxPrice: nat, midpoint: nat, supply: nat)
    requires midpoint / 5 < supply < midpoint * 4 / 5
    ensures var low, high := midpoint / 5, midpoint * 4 / 5;
            var risen := PriceAt(Sigmoid(maxPrice, midpoint), supply) - maxPrice / 20;
            risen * (high - low) <= maxPrice * 9 / 10 * (supply - low) < (risen + 1) * (high - low)
  {
    var low, high := midpoint / 5, midpoint * 4 / 5;
    MulDivBounds(maxPrice * 9 / 10, supply - low, high - low);
    hide MulDiv;
    Distribute(MulDiv(maxPrice * 9 / 10, supply - low, high - low), 1, high - low);
  }

  lemma SigmoidPlateaus(maxPrice: nat, midpoint: nat, supply: nat)
    ensures supply <= midpoint / 5 ==> PriceAt(Sigmoid(maxPrice, midpoint), supply) == maxPrice / 20
    ensures supply > midpoint / 5 && supply >= midpoint * 4 / 5 ==>
              PriceAt(Sigmoid(maxPrice, midpoint), supply) == maxPrice * 19 / 20
  {
  }

  // ---------------------------------------------------------------------
  // Monotonicity
  // ---------------------------------------------------------------------

  lemma PriceMonotone(curve: Curve, s: nat, t: nat)
    requires s <= t
    ensures PriceAt(curve, s) <= PriceAt(curve, t)
  {
    hide MulDiv;
    match curve
    case Linear(slope) =>
      MulDivMono(slope, slope, s, t, SCALE);
    case Quadratic(k) =>
      MulDivMono(k, k, s, t, SCALE);
      MulDivMono(MulDiv(k, s, SCALE), MulDiv(k, t, SCALE), s, t, SCALE);
    case Sigmoid(m, midpoint) =>
      var low, high := midpoint / 5, midpoint * 4 / 5;
      if low < s < high {
        MulDivAtMost(m * 9 / 10, s - low, high - low);
        if t < high {
          MulDivMono(m * 9 / 10, m * 9 / 10, s - low, t - low, high - low);
        }
      }
  }

  lemma SatCubeMonotone(x: nat, y: nat)
    requires x <= y
    ensures SatCube(x) <= SatCube(y)
  {
    Square(x, y);
    MulMono(Sat(x * x), Sat(y * y), x, y);
  }

  lemma BuyCostMonotone(curve: Curve, supply: nat, a: nat, b: nat)
    requires a <= b
    ensures BuyCost(curve, supply, a) <= BuyCost(curve, supply, b)
  {
    hide MulDiv, PriceAt, SatCube;
    if 0 < a < b {
      match curve
      case Linear(slope) =>
        Square(supply + a, supply + b);
        MulDivMono(slope, slope, SquareGap(supply, supply + a), SquareGap(supply, supply + b), 2 * SCALE);
      case Quadratic(k) =>
        DivMono(supply + a, supply + b, SCALE);
        SatCubeMonotone((supply + a) / SCALE, (supply + b) / SCALE);
        var base := SatCube(supply / SCALE);
        MulMono(k, k, SatSub(SatCube((supply + a) / SCALE), base), SatSub(SatCube((supply + b) / SCALE), base));
      case Sigmoid(_, _) =>
        PriceMonotone(curve, supply + a, supply + b);
        var p := PriceAt(curve, supply);
        MulDivMono(p + PriceAt(curve, supply + a), p + PriceAt(curve, supply + b), a, b, 2);
    }
  }

  // ---------------------------------------------------------------------
  // Integer square root
  // ---------------------------------------------------------------------

  /** The reference definition: count upwards. */
  function FloorSqrt(n: nat): (r: nat)
    ensures r * r <= n < (r + 1) * (r + 1)
  {
    if n == 0 then 0
    else
      var r := FloorSqrt(n - 1);
      assert (r + 1) * (r + 1) + 2 * r + 3 == (r + 2) * (r + 2);
      if (r + 1) * (r + 1) <= n then r + 1 else r
  }

  lemma FloorSqrtUnique(n: nat, r: nat)
    requires r * r <= n < (r + 1) * (r + 1)
    ensures r == FloorSqrt(n)
  {
    var q := FloorSqrt(n);
    if q < r {
      Square(q + 1, r);
    } else if r < q {
      Square(r + 1, q);
    }
  }

  function NewtonStep(n: nat, x: nat): nat
    requires x > 0
  {
    (x + n / x) / 2
  }

  lemma ProductBelowSquare(a: nat, b: nat, m: nat)
    requires a + b <= 2 * m
    ensures a * b <= m * m
  {
    Square(a + b, 2 * m);
    var d: int := a - b;
    assert d * d >= 0;
    assert (a + b) * (a + b) == 4 * (a * b) + d * d;
    assert (2 * m) * (2 * m) == 4 * (m * m);
  }

  /** One Newton step never falls below the root, wherever it starts. */
  lemma NewtonStaysAbove(n: nat, x: nat)
    requires n > 0 && x > 0
    ensures var y := NewtonStep(n, x); y > 0 && n < (y + 1) * (y + 1)
  {
    var q := n / x;
    var y := NewtonStep(n, x);
    DivBounds(n, x);
    assert x * (q + 1) == q * x + x;
    ProductBelowSquare(x, q + 1, y + 1);
    MulMono(1, x, 1, q + 1);
  }

  /** Where a Newton step no longer descends, the root has been reached. */
  lemma NewtonStops(n: nat, x: nat)
    requires n > 0 && x > 0 && NewtonStep(n, x) >= x
    requires x == n || n < (x + 1) * (x + 1)
    ensures x == FloorSqrt(n)
  {
    DivAtLeast(n, x, x);
    assert (n + 1) * (n + 1) == n * n + 2 * n + 1;
    FloorSqrtUnique(n, x);
  }

  method Isqrt(n: nat) returns (r: nat)
    ensures r == FloorSqrt(n)
  {
    if n == 0 {
      return 0;
    }
    var x := n;
    var y := (x + 1) / 2;
    DivIsFloor(n, n, 1);
    NewtonStaysAbove(n, n);
    while y < x
      invariant x > 0 && y > 0 && y == NewtonStep(n, x)
      invariant x == n || n < (x + 1) * (x + 1)
      decreases x
    {
      NewtonStaysAbove(n, x);
      x := y;
      y := NewtonStep(n, x);
      NewtonStaysAbove(n, x);
    }
    NewtonStops(n, x);
    return x;
  }

  // ---------------------------------------------------------------------
  // Tokens for a payment
  // ---------------------------------------------------------------------

  /** The reference for the binary search: walk down from the bound. */
  function LargestAffordable(curve: Curve, supply: nat, isa: nat, bound: nat): (t: nat)
    ensures t <= bound
    ensures BuyCost(curve, supply, t) <= isa
    ensures forall u :: t < u <= bound ==> BuyCost(curve, supply, u) > isa
  {
    if bound == 0 || BuyCost(curve, supply, bound) <= isa then bound
    else LargestAffordable(curve, supply, isa, bound - 1)
  }

  function SearchBound(curve: Curve, supply: nat, isa: nat): nat {
    isa / Max(PriceAt(curve, supply), 1) + 1
  }

  method BinarySearchTokens(curve: Curve, supply: nat, isa: nat) returns (lo: nat)
    ensures lo == LargestAffordable(curve, supply, isa, SearchBound(curve, supply, isa))
  {
    lo := 0;
    var hi := isa + 1;
    var price := Max(PriceAt(curve, supply), 1);
    DivAtLeast(isa, price, isa + 1);
    MulMono(isa + 1, isa + 1, 1, price);
    hi := Min(isa / price + 1, hi);
    var bound := hi;
    while lo < hi
      invariant lo <= hi <= bound
      invariant BuyCost(curve, supply, lo) <= isa
      invariant forall u :: hi < u <= bound ==> BuyCost(curve, supply, u) > isa
    {
      var mid := lo + (hi - lo + 1) / 2;
      var cost := BuyCost(curve, supply, mid);
      if cost <= isa {
        lo := mid;
      } else {
        forall u | mid <= u <= bound
          ensures BuyCost(curve, supply, u) > isa
        {
          BuyCostMonotone(curve, supply, mid, u);
        }
        hi := mid - 1;
      }
    }
  }

  function TokensFor(curve: Curve, supply: nat, isa: nat): nat {
    if isa == 0 then 0
    else
      match curve
      case Linear(slope) =>
        if slope == 0 then 0
        else SatSub(FloorSqrt(supply * supply + 2 * SCALE * isa / slope), supply)
      case Quadratic(coefficient) =>
        if coefficient == 0 then 0
        else LargestAffordable(curve, supply, isa, SearchBound(curve, supply, isa))
      case Sigmoid(_, _) =>
        LargestAffordable(curve, supply, isa, SearchBound(curve, supply, isa))
  }

  method TokensForIsa(curve: Curve, supply: nat, isa: nat) returns (tokens: nat)
    ensures tokens == TokensFor(curve, supply, isa)
  {
    if isa == 0 {
      return 0;
    }
    match curve {
      case Linear(slope) =>
        if slope == 0 {
          return 0;
        }
        var oldSq := supply * supply;
        var numerator := 2 * SCALE * isa;
        var addition := numerator / slope;
        var newSq := oldSq + addition;
        var newSupply := Isqrt(newSq);
        return SatSub(newSupply, supply);
      case Quadratic(coefficient) =>
        if coefficient == 0 {
          return 0;
        }
        tokens := BinarySearchTokens(curve, supply, isa);
      case Sigmoid(_, _) =>
        tokens := BinarySearchTokens(curve, supply, isa);
    }
  }

  // ---------------------------------------------------------------------
  // What the token count means
  // ---------------------------------------------------------------------

  lemma RootAbove(a: nat, extra: nat)
    ensures a <= FloorSqrt(a * a + extra)
  {
    hide FloorSqrt;
    var root := FloorSqrt(a * a + extra);
    if root < a {
      Square(root + 1, a);
    }
  }

  lemma WidestGap(slope: nat, paid: nat, base: nat, reached: nat, next: nat)
    requires slope > 0
    requires base <= reached <= base + paid / slope < next
    ensures slope * (reached - base) <= paid < slope * (next - base)
  {
    var q := paid / slope;
    DivBounds(paid, slope);
    MulMono(slope, slope, reached - base, q);
    MulMono(slope, slope, q + 1, next - base);
    Distribute(q, 1, slope);
  }

  /** The supply after a linear purchase squeezes the exact integral:
      it is paid for, and one token more would cost strictly more than was sent. */
  lemma LinearInversion(slope: nat, supply: nat, isa: nat)
    requires slope > 0 && isa > 0
    ensures var s' := supply + TokensFor(Linear(slope), supply, isa);
            && slope * SquareGap(supply, s') <= 2 * SCALE * isa
            && 2 * SCALE * isa < slope * SquareGap(supply, s' + 1)
  {
    hide FloorSqrt;
    var root := FloorSqrt(supply * supply + 2 * SCALE * isa / slope);
    RootAbove(supply, 2 * SCALE * isa / slope);
    Square(supply, root);
    WidestGap(slope, 2 * SCALE * isa, supply * supply, root * root, (root + 1) * (root + 1));
  }

  /** The payment always covers the tokens handed out, on every curve. */
  lemma TokensAlwaysAffordable(curve: Curve, supply: nat, isa: nat)
    ensures BuyCost(curve, supply, TokensFor(curve, supply, isa)) <= isa
  {
    if curve.Linear? && curve.slope > 0 && isa > 0 {
      LinearInversion(curve.slope, supply, isa);
      var t := TokensFor(curve, supply, isa);
      hide SquareGap, FloorSqrt;
      DivWithin(curve.slope * SquareGap(supply, supply + t), isa, 2 * SCALE);
    }
  }

  /** Nothing is sold for nothing, nor on a curve without slope, and nothing is paid for no
      token or for more than there are. */
  lemma NothingTraded(curve: Curve, supply: nat, tokens: nat, isa: nat)
    ensures isa == 0 || curve == Linear(0) || curve == Quadratic(0) ==> TokensFor(curve, supply, isa) == 0
    ensures tokens == 0 || tokens > supply ==> SellProceeds(curve, supply, tokens) == 0
  {
  }

  /** What the search stands for: the most tokens the payment covers among those up to one
      more than it would cover at the present price (taken as 1 if it is 0). */
  lemma SearchedTokens(curve: Curve, supply: nat, isa: nat, bound: nat)
    requires isa > 0 && !curve.Linear? && curve != Quadratic(0) && bound > 0
    requires (bound - 1) * Max(PriceAt(curve, supply), 1) <= isa < bound * Max(PriceAt(curve, supply), 1)
    ensures var t := TokensFor(curve, supply, isa);
            && t <= bound && BuyCost(curve, supply, t) <= isa
            && forall u :: t < u <= bound ==> BuyCost(curve, supply, u) > isa
  {
    hide PriceAt, BuyCost;
    var price := Max(PriceAt(curve, supply), 1);
    Distribute(bound - 1, 1, price);
    DivIsFloor(isa, price, bound - 1);
  }

  /** `t` is the most tokens that `isa` can pay for at this supply. */
  ghost predicate IsMaximum(curve: Curve, supply: nat, isa: nat, t: nat) {
    && BuyCost(curve, supply, t) <= isa
    && forall u :: u > t ==> BuyCost(curve, supply, u) > isa
  }

  lemma MaximumByNext(curve: Curve, supply: nat, isa: nat, t: nat)
    requires BuyCost(curve, supply, t) <= isa
    ensures IsMaximum(curve, supply, isa, t) <==> BuyCost(curve, supply, t + 1) > isa
  {
    if BuyCost(curve, supply, t + 1) > isa {
      forall u | u > t
        ensures BuyCost(curve, supply, u) > isa
      {
        BuyCostMonotone(curve, supply, t + 1, u);
      }
    }
  }

  /** The largest supply whose area exceeds the present one by at most `paid` per slope. */
  function Reach(slope: nat, supply: nat, paid: nat): nat
    requires slope > 0
  {
    FloorSqrt(supply * supply + paid / slope)
  }

  lemma PaidGap(slope: nat, gap: nat, isa: nat)
    requires slope > 0
    ensures MulDiv(slope, gap, 2 * SCALE) <= isa <==> gap <= (2 * SCALE * (isa + 1) - 1) / slope
  {
    DivAtLeast(slope * gap, 2 * SCALE, isa + 1);
    DivAtLeast(2 * SCALE * (isa + 1) - 1, slope, gap);
  }

  lemma WithinRoot(x: nat, n: nat)
    ensures x <= FloorSqrt(n) <==> x * x <= n
  {
    hide FloorSqrt;
    var root := FloorSqrt(n);
    if x <= root {
      Square(x, root);
    } else {
      Square(root + 1, x);
    }
  }

  /** Which linear purchases a payment covers, rounding included, in closed form. */
  lemma LinearAffordableIff(slope: nat, supply: nat, isa: nat, t: nat)
    requires slope > 0
    ensures BuyCost(Linear(slope), supply, t) <= isa
        <==> supply + t <= Reach(slope, supply, 2 * SCALE * (isa + 1) - 1)
  {
    hide FloorSqrt, MulDiv;
    Square(supply, supply + t);
    var gap := (supply + t) * (supply + t) - supply * supply;
    PaidGap(slope, gap, isa);
    assert t == 0 ==> MulDiv(slope, gap, 2 * SCALE) == 0 by {
      MulDivBounds(slope, 0, 2 * SCALE);
    }
    WithinRoot(supply + t, supply * supply + (2 * SCALE * (isa + 1) - 1) / slope);
  }

  lemma LinearReach(slope: nat, supply: nat, isa: nat)
    requires slope > 0 && isa > 0
    ensures supply + TokensFor(Linear(slope), supply, isa) == Reach(slope, supply, 2 * SCALE * isa)
  {
    hide FloorSqrt;
    RootAbove(supply, 2 * SCALE * isa / slope);
  }

  /** The linear answer inverts the exact integral, so rounding of the cost can leave more
      tokens within reach: it is the maximum exactly when the last fraction of a unit,
      which the floor gives away, does not reach one token further. */
  lemma LinearMaximumIff(slope: nat, supply: nat, isa: nat)
    requires slope > 0 && isa > 0
    ensures IsMaximum(Linear(slope), supply, isa, TokensFor(Linear(slope), supply, isa))
        <==> Reach(slope, supply, 2 * SCALE * isa) == Reach(slope, supply, 2 * SCALE * (isa + 1) - 1)
  {
    hide BuyCost, TokensFor, Reach;
    var curve := Linear(slope);
    var t := TokensFor(curve, supply, isa);
    LinearReach(slope, supply, isa);
    TokensAlwaysAffordable(curve, supply, isa);
    LinearAffordableIff(slope, supply, isa, t);
    LinearAffordableIff(slope, supply, isa, t + 1);
    MaximumByNext(curve, supply, isa, t);
  }

  lemma LinearNotAlwaysMaximum()
    ensures TokensFor(Linear(1), 0, 1) == 1414
    ensures BuyCost(Linear(1), 0, 1415) == 1
  {
    FloorSqrtUnique(2_000_000, 1414);
  }

  /** The search is cut off at its first upper bound: it finds the true maximum
      exactly when one token beyond that bound is already too dear. */
  lemma SearchMaximumIff(curve: Curve, supply: nat, isa: nat)
    ensures var bound := SearchBound(curve, supply, isa);
            IsMaximum(curve, supply, isa, LargestAffordable(curve, supply, isa, bound))
            <==> BuyCost(curve, supply, bound + 1) > isa
  {
    hide BuyCost, SearchBound;
    var bound := SearchBound(curve, supply, isa);
    var t := LargestAffordable(curve, supply, isa, bound);
    if BuyCost(curve, supply, bound + 1) > isa {
      forall u | u > t
        ensures BuyCost(curve, supply, u) > isa
      {
        if u > bound {
          BuyCostMonotone(curve, supply, bound + 1, u);
        }
      }
    }
  }

  lemma PositivePriceCostsTooMuch(p: nat, q: nat, isa: nat)
    requires 1 <= p <= q
    ensures MulDiv(p + q, isa / p + 2, 2) > isa
  {
    var t := isa / p + 2;
    DivBounds(isa, p);
    MulDivMono(2 * p, p + q, t, t, 2);
    assert 2 * p * t == 2 * (isa / p * p) + 4 * p;
    DivAtLeast(2 * p * t, 2, isa + 1);
  }

  lemma ZeroPriceCost(q: nat, isa: nat)
    requires isa > 0
    ensures MulDiv(0 + q, isa + 2, 2) > isa <==> q >= 2
  {
    if q >= 2 {
      MulDivMono(2, q, isa + 2, isa + 2, 2);
    } else {
      MulDivMono(q, 1, isa + 2, isa + 2, 2);
    }
  }

  /** On the sigmoid the cut-off is harmless once the current price is at least
      one, and otherwise exactly when the price just past the cut-off is two. */
  lemma SigmoidMaximumIff(maxPrice: nat, midpoint: nat, supply: nat, isa: nat)
    requires isa > 0
    ensures var curve := Sigmoid(maxPrice, midpoint);
            IsMaximum(curve, supply, isa, TokensFor(curve, supply, isa))
            <==> PriceAt(curve, supply) >= 1 || PriceAt(curve, supply + isa + 2) >= 2
  {
    hide MulDiv, PriceAt;
    var curve := Sigmoid(maxPrice, midpoint);
    var p := PriceAt(curve, supply);
    var t := SearchBound(curve, supply, isa) + 1;
    SearchMaximumIff(curve, supply, isa);
    PriceMonotone(curve, supply, supply + t);
    if p >= 1 {
      PositivePriceCostsTooMuch(p, PriceAt(curve, supply + t), isa);
    } else {
      DivIsFloor(isa, 1, isa);
      ZeroPriceCost(PriceAt(curve, supply + isa + 2), isa);
    }
  }

  lemma SigmoidMaximum(maxPrice: nat, midpoint: nat, supply: nat, isa: nat)
    requires maxPrice >= 20 && isa > 0
    ensures var curve := Sigmoid(maxPrice, midpoint);
            IsMaximum(curve, supply, isa, TokensFor(curve, supply, isa))
  {
    var curve := Sigmoid(maxPrice, midpoint);
    SigmoidMaximumIff(maxPrice, midpoint, supply, isa);
    PriceMonotone(curve, 0, supply);
  }

  /** On the quadratic curve the cut-off bites: the price that sets it is far
      above the cost per token, so a large payment buys a handful of tokens. */
  lemma QuadraticSearchIsCutOff()
    ensures var curve := Quadratic(1000);
            && TokensFor(curve, 10 * SCALE, 1_000_000) == 11
            && BuyCost(curve, 10 * SCALE, 11) == 0
            && BuyCost(curve, 10 * SCALE, 5_000_000) <= 1_000_000
  {
    var curve := Quadratic(1000);
    assert SearchBound(curve, 10 * SCALE, 1_000_000) == 11;
    assert (10 * SCALE + 11) / SCALE == 10;
    assert SatCube(10) == 1000 && SatCube(15) == 3375;
  }

  // ---------------------------------------------------------------------
  // When the plain u128 products fit
  // ---------------------------------------------------------------------

  /** A linear buy whose two inputs to the square root fit never overflows later:
      neither the new square nor the cost product can exceed them. */
  lemma LinearBuyFits(slope: nat, supply: nat, isa: nat)
    requires slope > 0 && isa > 0
    requires 2 * SCALE * isa <= U128_MAX
    requires supply * supply + 2 * SCALE * isa / slope <= U128_MAX
    ensures var s' := supply + TokensFor(Linear(slope), supply, isa);
            && s' * s' <= supply * supply + 2 * SCALE * isa / slope
            && slope * SquareGap(supply, s') <= U128_MAX
  {
    hide SquareGap, FloorSqrt;
    var t := TokensFor(Linear(slope), supply, isa);
    assert slope * SquareGap(supply, supply + t) <= 2 * SCALE * isa by {
      LinearInversion(slope, supply, isa);
    }
    var root := FloorSqrt(supply * supply + 2 * SCALE * isa / slope);
    assert supply + t == root by {
      RootAbove(supply, 2 * SCALE * isa / slope);
    }
  }

  predicate AllFit(xs: seq<nat>) {
    forall i :: 0 <= i < |xs| ==> xs[i] <= U128_MAX
  }

  /** Every product formed while computing one sigmoid price. */
  function PriceProducts(maxPrice: nat, midpoint: nat, supply: nat): seq<nat> {
    var low := midpoint / 5;
    var high := midpoint * 4 / 5;
    if supply <= low then [midpoint * 4]
    else if supply >= high then [midpoint * 4, maxPrice * 19]
    else [midpoint * 4, maxPrice * 9, Mul(maxPrice * 9 / 10, supply - low)]
  }

  /** The largest products: those of the top plateau and of the last step of the ramp. */
  predicate PricesFit(maxPrice: nat, midpoint: nat) {
    && midpoint * 4 <= U128_MAX
    && maxPrice * 19 <= U128_MAX
    && maxPrice * 9 / 10 * SatSub(midpoint * 4 / 5, midpoint / 5 + 1) <= U128_MAX
  }

  lemma TopAndRampFit(maxPrice: nat, midpoint: nat)
    requires forall supply: nat :: AllFit(PriceProducts(maxPrice, midpoint, supply))
    ensures PricesFit(maxPrice, midpoint)
  {
    var low, high := midpoint / 5, midpoint * 4 / 5;
    var top := PriceProducts(maxPrice, midpoint, midpoint + 1);
    assert AllFit(top) && top[0] == midpoint * 4 && top[1] == maxPrice * 19;
    if high > low + 1 {
      var ramp := PriceProducts(maxPrice, midpoint, high - 1);
      assert AllFit(ramp) && ramp[2] == maxPrice * 9 / 10 * (high - 1 - low);
    }
  }

  lemma PriceFits(maxPrice: nat, midpoint: nat, supply: nat)
    requires PricesFit(maxPrice, midpoint)
    ensures AllFit(PriceProducts(maxPrice, midpoint, supply))
  {
    var low, high := midpoint / 5, midpoint * 4 / 5;
    if low < supply < high {
      var spread := maxPrice * 9 / 10;
      MulMono(spread, spread, supply - low, SatSub(high, low + 1));
    }
  }

  /** No sigmoid price overflows at any supply exactly when those three products fit. */
  lemma PricesFitIff(maxPrice: nat, midpoint: nat)
    ensures (forall supply: nat :: AllFit(PriceProducts(maxPrice, midpoint, supply)))
        <==> PricesFit(maxPrice, midpoint)
  {
    if PricesFit(maxPrice, midpoint) {
      forall supply: nat
        ensures AllFit(PriceProducts(maxPrice, midpoint, supply))
      {
        PriceFits(maxPrice, midpoint, supply);
      }
    }
    if forall supply: nat :: AllFit(PriceProducts(maxPrice, midpoint, supply)) {
      TopAndRampFit(maxPrice, midpoint);
    }
  }

  /** Everything a probe of the search adds or multiplies. */
  function ProbeProducts(maxPrice: nat, midpoint: nat, supply: nat, mid: nat): seq<nat> {
    var curve := Sigmoid(maxPrice, midpoint);
    var p, q := PriceAt(curve, supply), PriceAt(curve, supply + mid);
    PriceProducts(maxPrice, midpoint, supply) + PriceProducts(maxPrice, midpoint, supply + mid)
    + [supply + mid, p + q, Mul(p + q, mid)]
  }

  lemma PriceBelowTop(maxPrice: nat, midpoint: nat, supply: nat)
    ensures PriceAt(Sigmoid(maxPrice, midpoint), supply) <= maxPrice
  {
    hide MulDiv;
    var curve := Sigmoid(maxPrice, midpoint);
    PriceMonotone(curve, supply, supply + midpoint + 1);
  }

  lemma TrapezoidFits(maxPrice: nat, midpoint: nat, supply: nat, isa: nat, mid: nat)
    requires mid <= SearchBound(Sigmoid(maxPrice, midpoint), supply, isa)
    ensures var curve := Sigmoid(maxPrice, midpoint);
            var sum := PriceAt(curve, supply) + PriceAt(curve, supply + mid);
            mid <= isa + 1 && sum * mid <= 2 * maxPrice * (isa + 1) && sum <= 2 * maxPrice * (isa + 1)
  {
    hide MulDiv, PriceAt;
    var curve := Sigmoid(maxPrice, midpoint);
    var p, q := PriceAt(curve, supply), PriceAt(curve, supply + mid);
    PriceBelowTop(maxPrice, midpoint, supply);
    PriceBelowTop(maxPrice, midpoint, supply + mid);
    assert mid <= isa + 1 by {
      MulMono(1, Max(p, 1), isa, isa);
      DivWithin(isa, isa, Max(p, 1));
    }
    MulMono(p + q, 2 * maxPrice, mid, isa + 1);
    MulMono(p + q, 2 * maxPrice, 1, isa + 1);
  }

  /** On a curve whose prices fit, no probe of a search overflows while the largest supply
      asked about and twice the top price times the payment fit too. */
  lemma SigmoidProbesFit(maxPrice: nat, midpoint: nat, supply: nat, isa: nat, mid: nat)
    requires PricesFit(maxPrice, midpoint)
    requires supply + isa + 1 <= U128_MAX && 2 * maxPrice * (isa + 1) <= U128_MAX
    requires mid <= SearchBound(Sigmoid(maxPrice, midpoint), supply, isa)
    ensures AllFit(ProbeProducts(maxPrice, midpoint, supply, mid))
  {
    PriceFits(maxPrice, midpoint, supply);
    PriceFits(maxPrice, midpoint, supply + mid);
    hide MulDiv, PriceAt, PriceProducts, PricesFit;
    TrapezoidFits(maxPrice, midpoint, supply, isa, mid);
  }

  /** The ramp is what overflows first: a price on it can exceed u128 inside although both
      plateaus and the trapezoid of the payment fit easily. */
  lemma RampOverflows()
    ensures var top, midpoint, supply := 1_000_000_000_000_000_000_000_000_000_000_000_000, 1_000_000, 500_000;
            && !AllFit(PriceProducts(top, midpoint, supply))
            && top * 19 <= U128_MAX && 2 * top * (1 + 1) <= U128_MAX
  {
    var products := PriceProducts(1_000_000_000_000_000_000_000_000_000_000_000_000, 1_000_000, 500_000);
    assert products[2] > U128_MAX;
  }

  // ---------------------------------------------------------------------
  // The integral behind the cost
  // ---------------------------------------------------------------------

  /** The area under the price curve up to `supply`, in units of `1 / Unit`. */
  function Area(curve: Curve, supply: nat): nat
    requires !curve.Sigmoid?
  {
    match curve
    case Linear(slope) => slope * (supply * supply)
    case Quadratic(k) => k * (supply / SCALE * (supply / SCALE) * (supply / SCALE))
  }

  function Unit(curve: Curve): nat
    requires !curve.Sigmoid?
  {
    if curve.Linear? then 2 * SCALE else 3
  }

  /** No saturating step can have been hit at this supply. */
  predicate Exact(curve: Curve, supply: nat) {
    curve.Linear? || (curve.Quadratic? && Area(curve, supply) <= U128_MAX)
  }

  lemma AreaMonotone(curve: Curve, s: nat, t: nat)
    requires !curve.Sigmoid? && s <= t
    ensures Area(curve, s) <= Area(curve, t)
  {
    match curve
    case Linear(slope) =>
      Square(s, t);
      MulMono(slope, slope, s * s, t * t);
    case Quadratic(k) =>
      DivMono(s, t, SCALE);
      var a, b := s / SCALE, t / SCALE;
      Square(a, b);
      MulMono(a * a, b * b, a, b);
      MulMono(k, k, a * a * a, b * b * b);
  }

  lemma DistributeSub(k: nat, x: nat, y: nat)
    requires y <= x
    ensures k * (x - y) == k * x - k * y
  {
  }

  lemma CubeFits(k: nat, x: nat)
    requires k > 0 && k * (x * x * x) <= U128_MAX
    ensures SatCube(x) == x * x * x
  {
    MulMono(1, k, x * x * x, x * x * x);
    if x > 0 {
      MulMono(x * x, x * x, 1, x);
    }
  }

  lemma GainFits(k: nat, x: nat, y: nat)
    requires y <= x && k * x <= U128_MAX
    ensures Sat(k * SatSub(x, y)) == k * x - k * y
  {
    DistributeSub(k, x, y);
  }

  lemma ExactCubes(k: nat, a: nat, b: nat)
    requires a <= b && k * (b * b * b) <= U128_MAX
    ensures k * (a * a * a) <= k * (b * b * b)
    ensures Sat(k * SatSub(SatCube(b), SatCube(a))) == k * (b * b * b) - k * (a * a * a)
  {
    Square(a, b);
    MulMono(a * a, b * b, a, b);
    MulMono(k, k, a * a * a, b * b * b);
    if k > 0 {
      CubeFits(k, b);
      CubeFits(k, a);
      hide SatCube;
      GainFits(k, b * b * b, a * a * a);
    }
  }

  /** Unless a product saturates, the cost is the area gained, rounded down. */
  lemma CostIsArea(curve: Curve, supply: nat, tokens: nat)
    requires Exact(curve, supply + tokens)
    ensures Area(curve, supply) <= Area(curve, supply + tokens)
    ensures BuyCost(curve, supply, tokens)
         == (Area(curve, supply + tokens) - Area(curve, supply)) / Unit(curve)
  {
    AreaMonotone(curve, supply, supply + tokens);
    if tokens > 0 {
      match curve
      case Linear(slope) =>
        Square(supply, supply + tokens);
        DistributeSub(slope, (supply + tokens) * (supply + tokens), supply * supply);
      case Quadratic(k) =>
        hide SatCube;
        DivMono(supply, supply + tokens, SCALE);
        ExactCubes(k, supply / SCALE, (supply + tokens) / SCALE);
    }
  }

  /** Splitting a purchase in two never costs more than making it at once,
      and saves at most one unit. */
  lemma SplitPurchase(curve: Curve, supply: nat, a: nat, b: nat)
    requires Exact(curve, supply + a + b)
    ensures var parts := BuyCost(curve, supply, a) + BuyCost(curve, supply + a, b);
            parts <= BuyCost(curve, supply, a + b) <= parts + 1
  {
    AreaMonotone(curve, supply + a, supply + a + b);
    CostIsArea(curve, supply, a);
    CostIsArea(curve, supply + a, b);
    CostIsArea(curve, supply, a + b);
    assert supply + (a + b) == supply + a + b;
    var x := Area(curve, supply + a) - Area(curve, supply);
    var y := Area(curve, supply + a + b) - Area(curve, supply + a);
    DivAdd(x, y, Unit(curve));
  }

  // ---------------------------------------------------------------------
  // Price and cost
  // ---------------------------------------------------------------------

  lemma WholePrice(k: nat, whole: nat)
    ensures PriceAt(Quadratic(k), whole * SCALE) == k * (whole * whole)
  {
    DivIsFloor(k * (whole * SCALE), SCALE, k * whole);
    DivIsFloor(k * whole * (whole * SCALE), SCALE, k * (whole * whole));
  }

  lemma Regroup(k: nat, x: nat, y: nat)
    ensures k * x * y == k * (x * y)
    ensures k * (3 * (x * y)) == 3 * (k * (x * y))
  {
  }

  lemma ThirdAtMost(k: nat, gain: nat, x: nat, y: nat)
    requires gain <= 3 * (x * y)
    ensures Sat(k * gain) / 3 <= k * x * y
  {
    Regroup(k, x, y);
    MulMono(k, k, gain, 3 * (x * y));
    DivWithin(Sat(k * gain), k * x * y, 3);
  }

  lemma ThirdAtLeast(k: nat, gain: nat, x: nat, y: nat)
    requires 3 * (x * y) <= gain && k * gain <= U128_MAX
    ensures k * x * y <= Sat(k * gain) / 3
  {
    Regroup(k, x, y);
    MulMono(k, k, 3 * (x * y), gain);
    DivAtLeast(k * gain, 3, k * x * y);
  }

  /** The gap between two cubes lies between three times the smaller and the larger square
      times the distance. */
  lemma CubeGap(a: nat, b: nat)
    requires a <= b
    ensures 3 * (a * a * (b - a)) <= b * b * b - a * a * a <= 3 * (b * b * (b - a))
  {
    var d := b - a;
    Square(a, b);
    MulMono(a, a, a, b);
    MulMono(a, b, b, b);
    assert b * b * b - a * a * a == (b * b + a * b + a * a) * d;
    MulMono(3 * (a * a), b * b + a * b + a * a, d, d);
    MulMono(b * b + a * b + a * a, 3 * (b * b), d, d);
    Regroup(3, a * a, d);
    Regroup(3, b * b, d);
  }

  lemma SatCubeIsSat(x: nat)
    ensures SatCube(x) == Sat(x * x * x)
  {
    if x > 0 {
      MulMono(x * x, x * x, 1, x);
      if x * x > U128_MAX {
        MulMono(U128_MAX, U128_MAX, 1, x);
      }
    }
  }

  /** The quadratic cost in full, saturation included: each cube and then the product stop at
      the u128 maximum, and a third of the rest is charged, rounded down. */
  lemma QuadraticCost(k: nat, supply: nat, tokens: nat)
    ensures var from, to := supply / SCALE, (supply + tokens) / SCALE;
            var cost := BuyCost(Quadratic(k), supply, tokens);
            && Sat(from * from * from) <= Sat(to * to * to)
            && var gain := Sat(to * to * to) - Sat(from * from * from);
               3 * cost <= Sat(k * gain) < 3 * (cost + 1)
  {
    var from, to := supply / SCALE, (supply + tokens) / SCALE;
    DivMono(supply, supply + tokens, SCALE);
    SatCubeMonotone(from, to);
    SatCubeIsSat(from);
    SatCubeIsSat(to);
    hide SatCube;
    assert tokens == 0 ==> k * 0 == 0;
  }

  lemma QuadraticCostBounds(k: nat, a: nat, b: nat)
    requires a <= b
    ensures Sat(k * SatSub(SatCube(b), SatCube(a))) / 3 <= k * (b * b) * (b - a)
    ensures k * (b * b * b) <= U128_MAX ==>
              k * (a * a) * (b - a) <= Sat(k * SatSub(SatCube(b), SatCube(a))) / 3
  {
    CubeGap(a, b);
    SatCubeIsSat(a);
    SatCubeIsSat(b);
    hide SatCube;
    var gain := SatSub(SatCube(b), SatCube(a));
    ThirdAtMost(k, gain, b * b, b - a);
    if 0 < k && k * (b * b * b) <= U128_MAX {
      CubeFits(k, b);
      Square(a, b);
      MulMono(a * a, b * b, a, b);
      MulMono(k, k, gain, b * b * b);
      ThirdAtLeast(k, gain, a * a, b - a);
    }
  }

  /** The quadratic curve charges its price once per `SCALE` tokens, not once per token: the
      cost lies between the first and the last price times the whole multiples of `SCALE`
      passed. Only the lower half needs the products not to saturate. */
  lemma QuadraticBetween(k: nat, supply: nat, tokens: nat)
    ensures var curve := Quadratic(k);
            var from, to := supply / SCALE, (supply + tokens) / SCALE;
            && from <= to <= from + tokens
            && BuyCost(curve, supply, tokens) <= PriceAt(curve, supply + tokens) * (to - from)
            && (Exact(curve, supply + tokens) ==>
                  PriceAt(curve, from * SCALE) * (to - from) <= BuyCost(curve, supply, tokens))
  {
    hide MulDiv, PriceAt, SatCube;
    var from, to := supply / SCALE, (supply + tokens) / SCALE;
    DivMono(supply, supply + tokens, SCALE);
    WholePrice(k, from);
    WholePrice(k, to);
    PriceMonotone(Quadratic(k), to * SCALE, supply + tokens);
    MulMono(k * (to * to), PriceAt(Quadratic(k), supply + tokens), to - from, to - from);
    QuadraticCostBounds(k, from, to);
  }

  lemma SigmoidBetween(p: nat, q: nat, tokens: nat)
    requires p <= q
    ensures p * tokens <= MulDiv(p + q, tokens, 2) <= q * tokens
  {
    MulMono(2 * p, p + q, tokens, tokens);
    MulMono(p + q, 2 * q, tokens, tokens);
    assert 2 * p * tokens == 2 * (p * tokens) && 2 * q * tokens == 2 * (q * tokens);
    MulDivAtLeast(p + q, tokens, 2, p * tokens);
    DivWithin((p + q) * tokens, q * tokens, 2);
  }

  lemma GapBetween(supply: nat, tokens: nat)
    ensures 2 * supply * tokens <= SquareGap(supply, supply + tokens) <= 2 * (supply + tokens) * tokens
  {
    assert (supply + tokens) * (supply + tokens) == supply * supply + 2 * (supply * tokens) + tokens * tokens;
    assert 2 * supply * tokens == 2 * (supply * tokens);
    assert 2 * (supply + tokens) * tokens == 2 * (supply * tokens) + 2 * (tokens * tokens);
  }

  lemma Triple(a: nat, b: nat, c: nat)
    ensures a * (2 * b * c) == a * b * (2 * c)
  {
  }

  lemma LinearLower(slope: nat, supply: nat, tokens: nat, gap: nat, p: nat)
    requires p * SCALE <= slope * supply && 2 * supply * tokens <= gap
    ensures p * tokens <= MulDiv(slope, gap, 2 * SCALE)
  {
    MulMono(p * SCALE, slope * supply, 2 * tokens, 2 * tokens);
    MulMono(slope, slope, 2 * supply * tokens, gap);
    Triple(slope, supply, tokens);
    Triple(p, SCALE, tokens);
    assert p * tokens * (2 * SCALE) == p * SCALE * (2 * tokens);
    MulDivAtLeast(slope, gap, 2 * SCALE, p * tokens);
  }

  lemma LinearUpper(slope: nat, last: nat, tokens: nat, gap: nat, q: nat)
    requires slope * last < q * SCALE + SCALE && gap <= 2 * last * tokens
    ensures MulDiv(slope, gap, 2 * SCALE) <= (q + 1) * tokens
  {
    MulMono(slope * last, (q + 1) * SCALE, 2 * tokens, 2 * tokens);
    MulMono(slope, slope, gap, 2 * last * tokens);
    Triple(slope, last, tokens);
    Triple(q + 1, SCALE, tokens);
    assert 2 * SCALE * ((q + 1) * tokens) == (q + 1) * SCALE * (2 * tokens);
    DivWithin(slope * gap, (q + 1) * tokens, 2 * SCALE);
  }

  lemma LinearBetween(slope: nat, supply: nat, tokens: nat)
    ensures PriceAt(Linear(slope), supply) * tokens <= BuyCost(Linear(slope), supply, tokens)
    ensures BuyCost(Linear(slope), supply, tokens) <= (PriceAt(Linear(slope), supply + tokens) + 1) * tokens
  {
    if tokens > 0 {
      var gap, last := SquareGap(supply, supply + tokens), supply + tokens;
      var p, q := MulDiv(slope, supply, SCALE), MulDiv(slope, last, SCALE);
      MulDivBounds(slope, supply, SCALE);
      MulDivBounds(slope, last, SCALE);
      assert 2 * supply * tokens <= gap <= 2 * last * tokens by {
        GapBetween(supply, tokens);
      }
      hide MulDiv, SquareGap;
      LinearLower(slope, supply, tokens, gap, p);
      LinearUpper(slope, last, tokens, gap, q);
    }
  }

  /** Price and cost agree: no purchase costs more than its last price per token (plus one
      on the linear curve, whose price is itself rounded), and off the quadratic curve none
      costs less than its first. */
  lemma CostBetweenPrices(curve: Curve, supply: nat, tokens: nat)
    ensures BuyCost(curve, supply, tokens)
         <= (PriceAt(curve, supply + tokens) + if curve.Linear? then 1 else 0) * tokens
    ensures !curve.Quadratic? ==> PriceAt(curve, supply) * tokens <= BuyCost(curve, supply, tokens)
  {
    var p, q := PriceAt(curve, supply), PriceAt(curve, supply + tokens);
    match curve
    case Linear(slope) =>
      hide MulDiv, PriceAt;
      LinearBetween(slope, supply, tokens);
    case Quadratic(k) =>
      hide MulDiv, PriceAt, BuyCost;
      QuadraticBetween(k, supply, tokens);
      MulMono(q, q, (supply + tokens) / SCALE - supply / SCALE, tokens);
    case Sigmoid(_, _) =>
      PriceMonotone(curve, supply, supply + tokens);
      hide PriceAt;
      SigmoidBetween(p, q, tokens);
  }

  // ---------------------------------------------------------------------
  // Where the sigmoid has no integral
  // ---------------------------------------------------------------------

  /** By how much the parts of a sigmoid purchase exceed the whole, in half units before
      rounding: the rise over the first part, which every token of the second then pays, less
      the rise over the second, which the whole charges to every token of the first. */
  function SplitExcess(p0: nat, pm: nat, p1: nat, a: nat, b: nat): int {
    (pm - p0) * b - (p1 - pm) * a
  }

  /** The half units that rounding drops from the two parts. */
  function Dropped(p0: nat, pm: nat, p1: nat, a: nat, b: nat): nat {
    (p0 + pm) * a % 2 + (pm + p1) * b % 2
  }

  lemma TrapezoidCost(curve: Curve, supply: nat, tokens: nat)
    requires curve.Sigmoid?
    ensures BuyCost(curve, supply, tokens) == (PriceAt(curve, supply) + PriceAt(curve, supply + tokens)) * tokens / 2
  {
  }

  lemma ThreeTrapezoids(p0: nat, pm: nat, p1: nat, a: nat, b: nat)
    ensures (p0 + p1) * (a + b) == (p0 + pm) * a + (pm + p1) * b - SplitExcess(p0, pm, p1, a, b)
  {
    assert (p0 + p1) * (a + b) == p0 * a + p0 * b + p1 * a + p1 * b;
    assert (p0 + pm) * a == p0 * a + pm * a && (pm + p1) * b == pm * b + p1 * b;
    assert (pm - p0) * b == pm * b - p0 * b && (p1 - pm) * a == p1 * a - pm * a;
  }

  lemma HalfSums(x: nat, y: nat, excess: int)
    ensures (x + y - excess) / 2 - x / 2 - y / 2 == (x % 2 + y % 2 - excess) / 2
  {
  }

  /** The sigmoid's trapezoid is no integral. What the whole costs beyond its two parts is
      exactly determined by the three prices involved. */
  lemma SigmoidSplit(maxPrice: nat, midpoint: nat, supply: nat, a: nat, b: nat)
    ensures var curve := Sigmoid(maxPrice, midpoint);
            var p0, pm, p1 := PriceAt(curve, supply), PriceAt(curve, supply + a), PriceAt(curve, supply + a + b);
            BuyCost(curve, supply, a + b) - BuyCost(curve, supply, a) - BuyCost(curve, supply + a, b)
            == (Dropped(p0, pm, p1, a, b) - SplitExcess(p0, pm, p1, a, b)) / 2
  {
    hide PriceAt;
    var curve := Sigmoid(maxPrice, midpoint);
    var p0, pm, p1 := PriceAt(curve, supply), PriceAt(curve, supply + a), PriceAt(curve, supply + a + b);
    assert supply + (a + b) == supply + a + b;
    TrapezoidCost(curve, supply, a);
    TrapezoidCost(curve, supply + a, b);
    TrapezoidCost(curve, supply, a + b);
    ThreeTrapezoids(p0, pm, p1, a, b);
    HalfSums((p0 + pm) * a, (pm + p1) * b, SplitExcess(p0, pm, p1, a, b));
  }

  /** Splitting a sigmoid purchase behaves as on the other curves, never dearer and at most
      one unit cheaper, exactly when the excess stays within rounding. */
  lemma SigmoidSplitIff(maxPrice: nat, midpoint: nat, supply: nat, a: nat, b: nat)
    ensures var curve := Sigmoid(maxPrice, midpoint);
            var p0, pm, p1 := PriceAt(curve, supply), PriceAt(curve, supply + a), PriceAt(curve, supply + a + b);
            var parts := BuyCost(curve, supply, a) + BuyCost(curve, supply + a, b);
            var dropped, excess := Dropped(p0, pm, p1, a, b), SplitExcess(p0, pm, p1, a, b);
            && (parts <= BuyCost(curve, supply, a + b) <==> excess <= dropped)
            && (BuyCost(curve, supply, a + b) <= parts + 1 <==> dropped - 3 <= excess)
  {
    SigmoidSplit(maxPrice, midpoint, supply, a, b);
    hide BuyCost, PriceAt, Dropped, SplitExcess;
  }

  /** Within one plateau nothing is lost either way. */
  lemma SigmoidSplitOnPlateau(maxPrice: nat, midpoint: nat, supply: nat, a: nat, b: nat)
    requires supply + a + b <= midpoint / 5 || (midpoint / 5 < supply && midpoint * 4 / 5 <= supply)
    ensures var curve := Sigmoid(maxPrice, midpoint);
            BuyCost(curve, supply, a) + BuyCost(curve, supply + a, b) == BuyCost(curve, supply, a + b)
  {
    var curve := Sigmoid(maxPrice, midpoint);
    var p := PriceAt(curve, supply);
    assert PriceAt(curve, supply + a) == p && PriceAt(curve, supply + a + b) == p;
    SigmoidSplit(maxPrice, midpoint, supply, a, b);
    hide BuyCost, PriceAt;
    assert (p + p) * a == 2 * (p * a) && (p + p) * b == 2 * (p * b);
  }

  /** The two plateaus of a sigmoid, and what lies beyond `midpoint`. */
  lemma Plateaus(maxPrice: nat, midpoint: nat, supply: nat)
    ensures PriceAt(Sigmoid(maxPrice, midpoint), 0) == maxPrice / 20
    ensures supply > midpoint ==> PriceAt(Sigmoid(maxPrice, midpoint), supply) == maxPrice * 19 / 20
    ensures maxPrice <= 1 ==> PriceAt(Sigmoid(maxPrice, midpoint), supply) == 0
    ensures maxPrice >= 2 ==> maxPrice / 20 < maxPrice * 19 / 20
  {
    if maxPrice <= 1 && midpoint / 5 < supply < midpoint * 4 / 5 {
      assert maxPrice * 9 / 10 == 0;
      DivIsFloor(0, midpoint * 4 / 5 - midpoint / 5, 0);
      assert MulDiv(0, supply - midpoint / 5, midpoint * 4 / 5 - midpoint / 5) == 0;
    }
  }

  lemma FreeOfCharge(maxPrice: nat, midpoint: nat, supply: nat, tokens: nat)
    requires maxPrice <= 1
    ensures BuyCost(Sigmoid(maxPrice, midpoint), supply, tokens) == 0
  {
    hide PriceAt;
    Plateaus(maxPrice, midpoint, supply);
    Plateaus(maxPrice, midpoint, supply + tokens);
  }

  predicate SplitsFairly(curve: Curve, supply: nat, a: nat, b: nat) {
    BuyCost(curve, supply, a) + BuyCost(curve, supply + a, b) <= BuyCost(curve, supply, a + b)
  }

  lemma CheaperAtOnce(low: nat, top: nat, a: nat)
    requires low < top
    ensures (low + top) * (a + 3) / 2 < (low + top) * a / 2 + (top + top) * 3 / 2
  {
    Distribute(a, 3, low + top);
  }

  lemma SplitPastRamp(maxPrice: nat, midpoint: nat)
    requires maxPrice >= 2
    ensures !SplitsFairly(Sigmoid(maxPrice, midpoint), 0, midpoint + 1, 3)
  {
    var curve, a := Sigmoid(maxPrice, midpoint), midpoint + 1;
    var low, top := maxPrice / 20, maxPrice * 19 / 20;
    Plateaus(maxPrice, midpoint, a);
    Plateaus(maxPrice, midpoint, a + 3);
    TrapezoidCost(curve, 0, a);
    TrapezoidCost(curve, a, 3);
    TrapezoidCost(curve, 0, a + 3);
    hide BuyCost, PriceAt;
    CheaperAtOnce(low, top, a);
  }

  /** The sigmoids on which splitting never costs more, at any supply: exactly those with a
      top price of 0 or 1, which charge nothing at all. On every other one a first purchase
      of `midpoint + 4` tokens already costs more in parts. */
  lemma SigmoidSplitsIff(maxPrice: nat, midpoint: nat)
    ensures (forall supply: nat, a: nat, b: nat :: SplitsFairly(Sigmoid(maxPrice, midpoint), supply, a, b))
        <==> maxPrice <= 1
  {
    hide BuyCost, PriceAt;
    if maxPrice <= 1 {
      forall supply: nat, a: nat, b: nat
        ensures SplitsFairly(Sigmoid(maxPrice, midpoint), supply, a, b)
      {
        FreeOfCharge(maxPrice, midpoint, supply, a);
        FreeOfCharge(maxPrice, midpoint, supply + a, b);
      }
    } else {
      SplitPastRamp(maxPrice, midpoint);
    }
  }

  /** Both sides of the condition fail: below the ramp a split purchase costs a quarter
      less, above it a quarter more. */
  lemma SigmoidCostDependsOnPath()
    ensures var curve := Sigmoid(2000, 10);
            && BuyCost(curve, 0, 8) == 8000
            && BuyCost(curve, 0, 2) + BuyCost(curve, 2, 6) == 6200
            && BuyCost(curve, 5, 15) == 21750
            && BuyCost(curve, 5, 3) + BuyCost(curve, 8, 12) == 27150
  {
  }
}
