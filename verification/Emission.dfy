/** The emission controller: a halving block reward, split over subnets by weight
    and within each subnet by stake, at most once per height. */
module Emissions {
  import opened Types
  import opened Arithmetic
  import opened MapSums
  import opened Sequences
  import opened Gcds

  type SubnetId = nat

  const MAX_HALVINGS: nat := 127

  datatype EmissionError = NoSubnets | InvalidWeights | AlreadyEmitted | ZeroReward

  datatype SubnetEmission = SubnetEmission(
    subnet: SubnetId,
    amount: nat,
    height: Height,
    providerShares: seq<(Address, nat)>)

  datatype Schedule = Schedule(baseReward: nat, halvingInterval: nat, minReward: nat)

  datatype Controller = Controller(
    schedule: Schedule,
    totalEmitted: nat,
    lastEmissionHeight: Height,
    history: seq<SubnetEmission>,
    subnetTotals: map<SubnetId, nat>)

  /** One call of `emit`: the height and the two tables it is handed. */
  datatype Call = Call(
    height: Height,
    weights: map<SubnetId, nat>,
    stakes: map<(SubnetId, Address), nat>)

  function Pow2(n: nat): (p: nat)
    ensures p > 0
  {
    if n == 0 then 1 else 2 * Pow2(n - 1)
  }

  function EraOf(s: Schedule, height: Height): nat
    requires s.halvingInterval > 0
  {
    height / s.halvingInterval
  }

  function Reward(s: Schedule, height: Height): nat {
    var halvings := if s.halvingInterval == 0 then 0 else Min(EraOf(s, height), MAX_HALVINGS);
    Max(Div(s.baseReward, Pow2(halvings)), s.minReward)
  }

  function Amount(e: SubnetEmission): nat {
    e.amount
  }

  function Subnets(es: seq<SubnetEmission>): (ids: seq<SubnetId>)
    ensures |ids| == |es|
  {
    seq(|es|, i requires 0 <= i < |es| => es[i].subnet)
  }

  /** The running totals after crediting every emission in turn. */
  function Credit(totals: map<SubnetId, nat>, es: seq<SubnetEmission>): map<SubnetId, nat> {
    if es == [] then totals
    else
      var before, e := Credit(totals, es[..|es| - 1]), es[|es| - 1];
      before[e.subnet := Get(before, e.subnet) + e.amount]
  }

  // ---------------------------------------------------------------------
  // Splitting within a subnet
  // ---------------------------------------------------------------------

  /** The positive stakes of one subnet, by provider. */
  ghost function SubnetStakes(stakes: map<(SubnetId, Address), nat>, subnet: SubnetId): map<Address, nat> {
    map k | k in stakes && k.0 == subnet && stakes[k] > 0 :: k.1 := stakes[k]
  }

  function Providers(shares: seq<(Address, nat)>): (ps: seq<Address>)
    ensures |ps| == |shares|
  {
    seq(|shares|, i requires 0 <= i < |shares| => shares[i].0)
  }

  function Amounts(shares: seq<(Address, nat)>): (v: seq<nat>)
    ensures |v| == |shares|
  {
    seq(|shares|, i requires 0 <= i < |shares| => shares[i].1)
  }

  /** Every provider with a positive stake is listed once, with the rounded-down
      share that the plain, unreduced division gives. */
  ghost predicate IsSplit(shares: seq<(Address, nat)>, total: nat, stakes: map<Address, nat>) {
    && Enumerates(Providers(shares), stakes.Keys)
    && forall i :: 0 <= i < |shares| ==>
         && Total(stakes) > 0
         && shares[i].1 == MulDiv(total, stakes[Providers(shares)[i]], Total(stakes))
  }

  /** The providers of `subnet` whose entry has been walked past. */
  ghost function Walked(stakes: map<(SubnetId, Address), nat>, subnet: SubnetId, pending: set<(SubnetId, Address)>)
    : set<Address>
  {
    set a | a in SubnetStakes(stakes, subnet) && (subnet, a) !in pending
  }

  lemma WalkPast(stakes: map<(SubnetId, Address), nat>, subnet: SubnetId, pending: set<(SubnetId, Address)>,
                 key: (SubnetId, Address))
    requires pending <= stakes.Keys && key in pending
    ensures var before, after := Walked(stakes, subnet, pending), Walked(stakes, subnet, pending - {key});
            if key.0 == subnet && stakes[key] > 0
            then key.1 !in before && after == before + {key.1} && SubnetStakes(stakes, subnet)[key.1] == stakes[key]
            else after == before
  {
    var before, after := Walked(stakes, subnet, pending), Walked(stakes, subnet, pending - {key});
    if key.0 == subnet && stakes[key] > 0 {
      assert after == before + {key.1};
    } else {
      assert after == before;
    }
  }

  method CollectStakers(subnet: SubnetId, stakes: map<(SubnetId, Address), nat>)
    returns (stakers: seq<(Address, nat)>)
    ensures Enumerates(Providers(stakers), SubnetStakes(stakes, subnet).Keys)
    ensures forall i :: 0 <= i < |stakers| ==> stakers[i].1 == SubnetStakes(stakes, subnet)[Providers(stakers)[i]]
  {
    ghost var table := SubnetStakes(stakes, subnet);
    stakers := [];
    var pending := stakes.Keys;
    assert Walked(stakes, subnet, pending) == {};
    while pending != {}
      invariant pending <= stakes.Keys
      invariant Enumerates(Providers(stakers), Walked(stakes, subnet, pending))
      invariant forall i :: 0 <= i < |stakers| ==> stakers[i].0 in table && stakers[i].1 == table[stakers[i].0]
    {
      var key :| key in pending;
      WalkPast(stakes, subnet, pending, key);
      hide SubnetStakes, Walked, Enumerates;
      if key.0 == subnet && stakes[key] > 0 {
        EnumeratesPush(Providers(stakers), key.1, Walked(stakes, subnet, pending));
        assert Providers(stakers + [(key.1, stakes[key])]) == Providers(stakers) + [key.1];
        stakers := stakers + [(key.1, stakes[key])];
      }
      pending := pending - {key};
    }
    assert Walked(stakes, subnet, {}) == table.Keys;
  }

  method SumStakes(ghost stakes: map<Address, nat>, stakers: seq<(Address, nat)>) returns (total: nat)
    requires Enumerates(Providers(stakers), stakes.Keys)
    requires forall i :: 0 <= i < |stakers| ==> stakers[i].1 == stakes[Providers(stakers)[i]]
    ensures total == Total(stakes)
  {
    total := 0;
    for i := 0 to |stakers|
      invariant total == SumBy(Amounts(stakers)[..i], Itself)
    {
      total := total + stakers[i].1;
      SumByPush(Amounts(stakers)[..i], stakers[i].1, Itself);
      assert Amounts(stakers)[..i + 1] == Amounts(stakers)[..i] + [stakers[i].1];
    }
    assert Amounts(stakers)[..|stakers|] == Amounts(stakers);
    assert Values(stakes, Providers(stakers)) == Amounts(stakers);
    EnumerationSum(stakes, Providers(stakers), stakes.Keys);
  }

  method ReducedShare(total: nat, stake: nat, totalStake: nat) returns (share: nat)
    requires totalStake > 0
    ensures share == MulDiv(total, stake, totalStake)
  {
    ReducedShareIsExact(total, stake, totalStake);
    var g := ComputeGcd(total, totalStake);
    var reducedTotal := Div(total, g);
    var reducedDenom := Div(totalStake, g);
    var g2 := ComputeGcd(stake, reducedDenom);
    var reducedStake := Div(stake, g2);
    var reducedDenom2 := Div(reducedDenom, g2);
    return Div(Mul(reducedTotal, reducedStake), reducedDenom2);
  }

  method SplitByStake(subnet: SubnetId, total: nat, stakes: map<(SubnetId, Address), nat>)
    returns (shares: seq<(Address, nat)>)
    ensures IsSplit(shares, total, SubnetStakes(stakes, subnet))
  {
    ghost var table := SubnetStakes(stakes, subnet);
    var stakers := CollectStakers(subnet, stakes);
    if stakers == [] {
      return [];
    }
    var totalStake := SumStakes(table, stakers);
    assert totalStake > 0 by {
      assert Providers(stakers)[0] in table;
      GetAtMostTotal(table, stakers[0].0);
    }
    shares := [];
    for i := 0 to |stakers|
      invariant |shares| == i
      invariant forall j :: 0 <= j < i ==>
                  shares[j].0 == stakers[j].0 && shares[j].1 == MulDiv(total, stakers[j].1, totalStake)
    {
      hide MulDiv;
      var share := ReducedShare(total, stakers[i].1, totalStake);
      shares := shares + [(stakers[i].0, share)];
    }
    assert Providers(shares) == Providers(stakers);
  }

  /** The shares of a subnet stay within its amount and leave less than one unit
      per provider unallocated. */
  lemma SplitDust(shares: seq<(Address, nat)>, total: nat, stakes: map<Address, nat>)
    requires IsSplit(shares, total, stakes) && shares != []
    ensures var sum := SumBy(Amounts(shares), Itself);
            sum <= total < sum + |shares|
  {
    var listed := Values(stakes, Providers(shares));
    EnumerationSum(stakes, Providers(shares), stakes.Keys);
    assert Amounts(shares) == Shares(total, listed, Total(stakes));
    SharesOfWhole(total, listed, Total(stakes));
  }

  // ---------------------------------------------------------------------
  // One emission
  // ---------------------------------------------------------------------

  /** The first of the source's guards that stops a call, in its order. */
  ghost function Refusal(c: Controller, call: Call): Option<EmissionError> {
    if exists i :: 0 <= i < |c.history| && c.history[i].height == call.height then Some(AlreadyEmitted)
    else if call.height == c.lastEmissionHeight && c.history != [] then Some(AlreadyEmitted)
    else if call.weights == map[] then Some(NoSubnets)
    else if Total(call.weights) == 0 then Some(InvalidWeights)
    else if Reward(c.schedule, call.height) == 0 then Some(ZeroReward)
    else None
  }

  ghost predicate EmissionFor(e: SubnetEmission, reward: nat, call: Call) {
    && e.subnet in call.weights
    && Total(call.weights) > 0
    && e.height == call.height
    && e.amount == MulDiv(reward, call.weights[e.subnet], Total(call.weights))
    && IsSplit(e.providerShares, e.amount, SubnetStakes(call.stakes, e.subnet))
  }

  /** `es` lists each subnet of `done` once, with its floor share of the reward
      and that share split over the subnet's providers. */
  ghost predicate EmissionsFor(es: seq<SubnetEmission>, done: set<SubnetId>, reward: nat, call: Call) {
    && Enumerates(Subnets(es), done)
    && done <= call.weights.Keys
    && forall i :: 0 <= i < |es| ==> Subnets(es)[i] in done && EmissionFor(es[i], reward, call)
  }

  ghost predicate Distributes(es: seq<SubnetEmission>, reward: nat, call: Call) {
    Total(call.weights) > 0 && EmissionsFor(es, call.weights.Keys, reward, call)
  }

  /** The weights a call is accepted with: any at all that do not add up to zero. */
  lemma AcceptedWeightsIff(c: Controller, call: Call)
    requires forall i :: 0 <= i < |c.history| ==> c.history[i].height != call.height
    requires c.history == [] || call.height != c.lastEmissionHeight
    requires Reward(c.schedule, call.height) > 0
    ensures Refusal(c, call).None? <==> Total(call.weights) > 0
  {
    assert call.weights == map[] ==> Total(call.weights) == 0;
  }

  function Fresh(s: Schedule): Controller {
    Controller(s, 0, 0, [], map[])
  }

  /** Which refusal a call meets: a height that has emitted, then no subnets, then weights that
      sum to zero, then no reward. */
  lemma RefusalsMean(c: Controller, call: Call)
    requires c.history != [] ==> exists i :: 0 <= i < |c.history| && c.history[i].height == c.lastEmissionHeight
    ensures var r := Refusal(c, call);
            var again := exists i :: 0 <= i < |c.history| && c.history[i].height == call.height;
            && (r == Some(AlreadyEmitted) <==> again)
            && (r == Some(NoSubnets) <==> !again && |call.weights| == 0)
            && (r == Some(InvalidWeights) <==> !again && |call.weights| > 0 && Total(call.weights) == 0)
            && (r == Some(ZeroReward) <==> !again && Total(call.weights) > 0 && Reward(c.schedule, call.height) == 0)
  {
    hide Reward;
    assert call.weights == map[] ==> Total(call.weights) == 0;
    assert |call.weights| == 0 <==> call.weights == map[];
  }

  /** So weights that add up to 5 instead of 10 000 distribute a reward like any others. */
  lemma AnyWeightSumEmits(s: Schedule, height: Height, subnet: SubnetId, stakes: map<(SubnetId, Address), nat>)
    requires Reward(s, height) > 0
    ensures var call := Call(height, map[subnet := 5], stakes);
            Refusal(Fresh(s), call).None? && MulDiv(Reward(s, height), 5, Total(call.weights)) == Reward(s, height)
  {
    hide Reward, MulDiv;
    var call := Call(height, map[subnet := 5], stakes);
    var weights := call.weights;
    SumSplit(weights, weights.Keys, subnet);
    assert weights.Keys - {subnet} == {};
    assert weights[subnet] == 5 && Sum(weights, {}) == 0;
    assert Total(weights) == 5;
    var r := Reward(s, height);
    MulDivAtMost(r, 5, 5);
    MulDivAtLeast(r, 5, 5, r);
    assert MulDiv(r, 5, Total(call.weights)) == r;
    assert weights != map[] by {
      assert subnet in weights;
    }
  }

  /** The sum of the weights as compiled without overflow checks, in 32 bits. */
  ghost function WrappedWeightSum(weights: map<SubnetId, nat>): nat {
    Total(weights) % U32_LIMIT
  }

  /** A subnet's amount as compiled is the exact one, for weights that add up within 32 bits,
      if and only if its product fits; otherwise it is less. */
  lemma CompiledAmountIff(reward: nat, weights: map<SubnetId, nat>, subnet: SubnetId)
    requires subnet in weights && 0 < Total(weights) < U32_LIMIT
    ensures WrappedWeightSum(weights) == Total(weights)
    ensures var compiled := WrappedShare(reward, weights[subnet], WrappedWeightSum(weights));
            && compiled <= MulDiv(reward, weights[subnet], Total(weights))
            && (compiled == MulDiv(reward, weights[subnet], Total(weights)) <==> reward * weights[subnet] <= U128_MAX)
  {
    WrappedShareIff(reward, weights[subnet], Total(weights));
  }

  lemma TwoWeights(weights: map<SubnetId, nat>, a: SubnetId, b: SubnetId)
    requires a != b && weights.Keys == {a, b}
    ensures Total(weights) == weights[a] + weights[b]
  {
    SumSplit(weights, {a, b}, a);
    SumSplit(weights, {a, b} - {a}, b);
    assert {a, b} - {a} - {b} == {};
    assert Sum(weights, {}) == 0;
  }

  /** Beyond 32 bits even the cap on one block falls: two weights whose sum wraps to 1 hand
      one subnet more than four billion times the reward. */
  lemma WeightSumWraps(weights: map<SubnetId, nat>, a: SubnetId, b: SubnetId, reward: nat)
    requires a != b && weights == map[a := U32_LIMIT - 1, b := 2]
    requires reward * (U32_LIMIT - 1) <= U128_MAX
    ensures WrappedWeightSum(weights) == 1
    ensures WrappedShare(reward, weights[a], WrappedWeightSum(weights)) == reward * (U32_LIMIT - 1)
  {
    TwoWeights(weights, a, b);
    hide WrappedShare;
    WrappedShareIff(reward, U32_LIMIT - 1, 1);
    DivIsFloor(reward * (U32_LIMIT - 1), 1, reward * (U32_LIMIT - 1));
  }

  lemma InWeights(e: SubnetEmission, reward: nat, call: Call)
    requires EmissionFor(e, reward, call)
    ensures e.subnet in call.weights
  {
  }

  lemma PushEmission(es: seq<SubnetEmission>, done: set<SubnetId>, reward: nat, call: Call, e: SubnetEmission)
    requires EmissionsFor(es, done, reward, call)
    requires EmissionFor(e, reward, call) && e.subnet !in done
    ensures EmissionsFor(es + [e], done + {e.subnet}, reward, call)
  {
    hide EmissionFor;
    var ids, ids' := Subnets(es), Subnets(es + [e]);
    assert ids' == ids + [e.subnet];
    EnumeratesPush(ids, e.subnet, done);
    assert e.subnet in call.weights.Keys by {
      InWeights(e, reward, call);
    }
    forall i | 0 <= i < |es + [e]|
      ensures ids'[i] in done + {e.subnet} && EmissionFor((es + [e])[i], reward, call)
    {
      if i < |es| {
        assert (es + [e])[i] == es[i] && ids'[i] == ids[i];
      }
    }
  }

  lemma NothingEmitted(totals: map<SubnetId, nat>, reward: nat, call: Call)
    ensures EmissionsFor([], {}, reward, call) && Credit(totals, []) == totals
  {
  }

  function Record(c: Controller, height: Height, es: seq<SubnetEmission>): Controller {
    c.(totalEmitted := c.totalEmitted + SumBy(es, Amount),
       lastEmissionHeight := height,
       history := c.history + es,
       subnetTotals := Credit(c.subnetTotals, es))
  }

  /** `c'` is what one call of `emit` may leave behind. */
  ghost predicate Transition(c: Controller, call: Call, c': Controller) {
    if Refusal(c, call).Some? then c' == c
    else
      && |c.history| <= |c'.history|
      && var es := c'.history[|c.history|..];
         Distributes(es, Reward(c.schedule, call.height), call) && c' == Record(c, call.height, es)
  }

  method EmitTo(subnet: SubnetId, call: Call, weightSum: nat, blockReward: nat) returns (e: SubnetEmission)
    requires subnet in call.weights && weightSum == Total(call.weights) > 0
    ensures EmissionFor(e, blockReward, call) && e.subnet == subnet
  {
    hide MulDiv, IsSplit;
    var amount := MulDiv(blockReward, call.weights[subnet], weightSum);
    var shares := SplitByStake(subnet, amount, call.stakes);
    return SubnetEmission(subnet, amount, call.height, shares);
  }

  lemma CreditPush(totals: map<SubnetId, nat>, es: seq<SubnetEmission>, e: SubnetEmission)
    ensures var before := Credit(totals, es);
            Credit(totals, es + [e]) == before[e.subnet := Get(before, e.subnet) + e.amount]
  {
    assert (es + [e])[..|es|] == es;
  }

  method SumWeights(weights: map<SubnetId, nat>) returns (sum: nat)
    ensures sum == Total(weights)
  {
    sum := 0;
    var pending := weights.Keys;
    while pending != {}
      invariant pending <= weights.Keys
      invariant sum + Sum(weights, pending) == Total(weights)
    {
      var k :| k in pending;
      SumSplit(weights, pending, k);
      sum := sum + weights[k];
      pending := pending - {k};
    }
  }

  class EmissionController {
    const schedule: Schedule
    var totalEmitted: nat
    var lastEmissionHeight: Height
    var emissionHistory: seq<SubnetEmission>
    var subnetTotals: map<SubnetId, nat>

    ghost function State(): Controller
      reads this
    {
      Controller(schedule, totalEmitted, lastEmissionHeight, emissionHistory, subnetTotals)
    }

    constructor (baseReward: nat, halvingInterval: nat, minReward: nat)
      ensures State() == Fresh(Schedule(baseReward, halvingInterval, minReward))
    {
      schedule := Schedule(baseReward, halvingInterval, minReward);
      totalEmitted, lastEmissionHeight, emissionHistory, subnetTotals := 0, 0, [], map[];
    }

    method Distribute(height: Height, weights: map<SubnetId, nat>, stakes: map<(SubnetId, Address), nat>,
                      weightSum: nat, blockReward: nat)
      returns (emissions: seq<SubnetEmission>)
      requires weightSum == Total(weights) > 0
      modifies this`subnetTotals
      ensures Distributes(emissions, blockReward, Call(height, weights, stakes))
      ensures subnetTotals == Credit(old(subnetTotals), emissions)
    {
      hide EmissionsFor, EmissionFor, Credit;
      var call := Call(height, weights, stakes);
      emissions := [];
      var pending := weights.Keys;
      NothingEmitted(subnetTotals, blockReward, call);
      assert weights.Keys - pending == {};
      while pending != {}
        invariant pending <= weights.Keys
        invariant EmissionsFor(emissions, weights.Keys - pending, blockReward, call)
        invariant subnetTotals == Credit(old(subnetTotals), emissions)
      {
        var subnet :| subnet in pending;
        var emission := EmitTo(subnet, call, weightSum, blockReward);
        subnetTotals := subnetTotals[subnet := Get(subnetTotals, subnet) + emission.amount];
        ghost var done := weights.Keys - pending;
        PushEmission(emissions, done, blockReward, call, emission);
        CreditPush(old(subnetTotals), emissions, emission);
        emissions := emissions + [emission];
        pending := pending - {subnet};
        assert weights.Keys - pending == done + {subnet};
      }
      assert weights.Keys - pending == weights.Keys;
    }

    method Emit(height: Height, weights: map<SubnetId, nat>, stakes: map<(SubnetId, Address), nat>)
      returns (r: Result<seq<SubnetEmission>, EmissionError>)
      modifies this
      ensures var call := Call(height, weights, stakes);
              && Transition(old(State()), call, State())
              && (r.Err? <==> Refusal(old(State()), call).Some?)
              && (r.Err? ==> Refusal(old(State()), call) == Some(r.error))
              && (r.Ok? ==> State() == Record(old(State()), height, r.value))
    {
      hide Distributes, Credit, Reward, SumBy;
      ghost var before, call := State(), Call(height, weights, stakes);
      if exists i :: 0 <= i < |emissionHistory| && emissionHistory[i].height == height {
        return Err(AlreadyEmitted);
      }
      if height == lastEmissionHeight && emissionHistory != [] {
        return Err(AlreadyEmitted);
      }
      if weights == map[] {
        return Err(NoSubnets);
      }
      var weightSum := SumWeights(weights);
      if weightSum == 0 {
        return Err(InvalidWeights);
      }
      var blockReward := Reward(schedule, height);
      if blockReward == 0 {
        return Err(ZeroReward);
      }
      var emissions := Distribute(height, weights, stakes, weightSum, blockReward);
      var totalDistributed := SumBy(emissions, Amount);
      totalEmitted := totalEmitted + totalDistributed;
      lastEmissionHeight := height;
      emissionHistory := emissionHistory + emissions;
      assert emissionHistory[|before.history|..] == emissions;
      return Ok(emissions);
    }
  }

  lemma {:induction false} SumOfAmounts(es: seq<SubnetEmission>, v: seq<nat>)
    requires |es| == |v| && forall i :: 0 <= i < |es| ==> v[i] == es[i].amount
    ensures SumBy(es, Amount) == SumBy(v, Itself)
  {
    if es != [] {
      SumOfAmounts(es[..|es| - 1], v[..|v| - 1]);
    }
  }

  /** The subnet amounts of one block stay within its reward, with less than one
      unit of dust per subnet. */
  lemma EmissionDust(es: seq<SubnetEmission>, reward: nat, call: Call)
    requires Distributes(es, reward, call)
    ensures SumBy(es, Amount) <= reward < SumBy(es, Amount) + |call.weights|
  {
    hide IsSplit;
    var listed := Values(call.weights, Subnets(es));
    EnumerationSum(call.weights, Subnets(es), call.weights.Keys);
    var shares := Shares(reward, listed, Total(call.weights));
    SharesOfWhole(reward, listed, Total(call.weights));
    SumOfAmounts(es, shares);
  }

  /** Whose stake counts in a subnet: every positive entry of that subnet, at its amount. */
  lemma StakesCounted(stakes: map<(SubnetId, Address), nat>, subnet: SubnetId, a: Address)
    ensures a in SubnetStakes(stakes, subnet) <==> (subnet, a) in stakes && stakes[(subnet, a)] > 0
    ensures a in SubnetStakes(stakes, subnet) ==> SubnetStakes(stakes, subnet)[a] == stakes[(subnet, a)]
  {
  }

  lemma ListedProvider(shares: seq<(Address, nat)>, total: nat, stakes: map<Address, nat>, j: nat)
    requires IsSplit(shares, total, stakes) && j < |shares|
    ensures var (a, share) := shares[j];
            a in stakes && IsFloorShare(share, total, stakes[a], Total(stakes))
  {
    assert Providers(shares)[j] == shares[j].0;
    assert shares[j].0 in Providers(shares);
    MulDivFloor(shares[j].1, total, stakes[shares[j].0], Total(stakes));
  }

  lemma AmountShare(e: SubnetEmission, reward: nat, call: Call)
    requires EmissionFor(e, reward, call)
    ensures e.subnet in call.weights && e.height == call.height
    ensures IsFloorShare(e.amount, reward, call.weights[e.subnet], Total(call.weights))
  {
    hide IsSplit, Total, MulDiv, IsFloorShare;
    MulDivFloor(e.amount, reward, call.weights[e.subnet], Total(call.weights));
  }

  lemma ListedEmission(es: seq<SubnetEmission>, reward: nat, call: Call, i: nat)
    requires Distributes(es, reward, call) && i < |es|
    ensures EmissionFor(es[i], reward, call)
  {
    hide EmissionFor, Enumerates;
    assert Subnets(es)[i] in call.weights.Keys;
  }

  /** What each subnet gets of a distributed reward: its own proportion, rounded down. */
  lemma SubnetProportion(es: seq<SubnetEmission>, reward: nat, call: Call, i: nat)
    requires Distributes(es, reward, call) && i < |es|
    ensures var e := es[i];
            && e.subnet in call.weights && e.height == call.height
            && IsFloorShare(e.amount, reward, call.weights[e.subnet], Total(call.weights))
  {
    ListedEmission(es, reward, call, i);
    hide Distributes, EmissionFor, Total, IsFloorShare;
    AmountShare(es[i], reward, call);
  }

  /** And each of its providers of that, by stake. */
  lemma ProviderProportion(es: seq<SubnetEmission>, reward: nat, call: Call, i: nat, j: nat)
    requires Distributes(es, reward, call) && i < |es| && j < |es[i].providerShares|
    ensures var (e, (a, share)) := (es[i], es[i].providerShares[j]);
            var stakes := SubnetStakes(call.stakes, e.subnet);
            a in stakes && IsFloorShare(share, e.amount, stakes[a], Total(stakes))
  {
    ListedEmission(es, reward, call, i);
    hide Distributes, IsSplit, SubnetStakes, Total, IsFloorShare;
    ListedProvider(es[i].providerShares, es[i].amount, SubnetStakes(call.stakes, es[i].subnet), j);
  }

  lemma ListedOnce(es: seq<SubnetEmission>, reward: nat, call: Call)
    requires Distributes(es, reward, call)
    ensures |es| == |call.weights|
  {
    EnumerationSum(call.weights, Subnets(es), call.weights.Keys);
  }

  /** What an accepted call records: one entry per subnet with positive or zero weight,
      distributing the reward of that very height, and nothing else in the history. */
  lemma EmissionRecorded(c: Controller, call: Call, c': Controller)
    requires Transition(c, call, c') && Refusal(c, call).None?
    ensures c.history <= c'.history && c'.schedule == c.schedule
    ensures var es := c'.history[|c.history|..];
            && Distributes(es, Reward(c.schedule, call.height), call)
            && |es| == |call.weights|
            && c'.totalEmitted == c.totalEmitted + SumBy(es, Amount)
            && c'.lastEmissionHeight == call.height
  {
    hide Distributes, Reward, Refusal, Credit, SumBy;
    var es := c'.history[|c.history|..];
    ListedOnce(es, Reward(c.schedule, call.height), call);
  }

  // ---------------------------------------------------------------------
  // Runs
  // ---------------------------------------------------------------------

  /** `states` are the controller's states before, between and after `calls`,
      whatever order the hash maps were walked in. */
  ghost predicate IsRun(s: Schedule, states: seq<Controller>, calls: seq<Call>) {
    && |states| == |calls| + 1
    && states[0] == Fresh(s)
    && forall i :: 0 <= i < |calls| ==> Transition(states[i], calls[i], states[i + 1])
  }

  ghost function HeightsOf(history: seq<SubnetEmission>): set<Height> {
    set i | 0 <= i < |history| :: history[i].height
  }

  ghost function Heights(c: Controller): set<Height> {
    HeightsOf(c.history)
  }

  ghost function Rewards(s: Schedule, heights: set<Height>): map<Height, nat> {
    map h | h in heights :: Reward(s, h)
  }

  /** What every reachable state satisfies. */
  ghost predicate Consistent(s: Schedule, c: Controller) {
    && c.schedule == s
    && c.totalEmitted == SumBy(c.history, Amount)
    && c.subnetTotals == Credit(map[], c.history)
    && (c.history != [] ==> c.lastEmissionHeight in Heights(c))
    && c.totalEmitted <= Total(Rewards(s, Heights(c)))
  }

  lemma {:induction false} CreditAppend(totals: map<SubnetId, nat>, a: seq<SubnetEmission>, b: seq<SubnetEmission>)
    ensures Credit(totals, a + b) == Credit(Credit(totals, a), b)
  {
    if b == [] {
      assert a + b == a;
    } else {
      CreditAppend(totals, a, b[..|b| - 1]);
      assert (a + b)[..|a + b| - 1] == a + b[..|b| - 1];
    }
  }

  lemma HeightsAppend(history: seq<SubnetEmission>, es: seq<SubnetEmission>, height: Height, ids: set<SubnetId>)
    requires ids != {} && Enumerates(Subnets(es), ids)
    requires forall i :: 0 <= i < |es| ==> es[i].height == height
    ensures HeightsOf(history + es) == HeightsOf(history) + {height}
  {
    var k :| k in ids;
    assert k in Subnets(es);
    assert (history + es)[|history|] == es[0];
    forall h | h in HeightsOf(history)
      ensures h in HeightsOf(history + es)
    {
      var i :| 0 <= i < |history| && history[i].height == h;
      assert (history + es)[i].height == h;
    }
  }

  lemma AcceptedHeights(c: Controller, call: Call, c': Controller)
    requires Refusal(c, call).None? && Transition(c, call, c')
    ensures call.height !in Heights(c)
    ensures Heights(c') == Heights(c) + {call.height}
  {
    hide Credit, SumBy, Reward, IsSplit, MulDiv, SubnetStakes;
    var es := c'.history[|c.history|..];
    HeightsAppend(c.history, es, call.height, call.weights.Keys);
  }

  lemma RecordKeepsTotals(c: Controller, height: Height, es: seq<SubnetEmission>)
    requires c.totalEmitted == SumBy(c.history, Amount)
    requires c.subnetTotals == Credit(map[], c.history)
    ensures var c' := Record(c, height, es);
            c'.totalEmitted == SumBy(c'.history, Amount) && c'.subnetTotals == Credit(map[], c'.history)
  {
    SumByAppend(c.history, es, Amount);
    CreditAppend(map[], c.history, es);
  }

  lemma RewardsPut(s: Schedule, heights: set<Height>, h: Height)
    requires h !in heights
    ensures Total(Rewards(s, heights + {h})) == Total(Rewards(s, heights)) + Reward(s, h)
  {
    hide Reward;
    assert Rewards(s, heights + {h}) == Rewards(s, heights)[h := Reward(s, h)];
    TotalPut(Rewards(s, heights), h, Reward(s, h));
  }

  lemma TransitionKeepsConsistent(s: Schedule, c: Controller, call: Call, c': Controller)
    requires Consistent(s, c) && Transition(c, call, c')
    ensures Consistent(s, c')
  {
    if Refusal(c, call).None? {
      hide Heights, Rewards, Distributes, Refusal, Reward, SumBy, Credit;
      var es := c'.history[|c.history|..];
      AcceptedHeights(c, call, c');
      RecordKeepsTotals(c, call.height, es);
      EmissionDust(es, Reward(s, call.height), call);
      RewardsPut(s, Heights(c), call.height);
    }
  }

  lemma {:induction false} RunKeepsConsistent(s: Schedule, states: seq<Controller>, calls: seq<Call>, i: nat)
    requires IsRun(s, states, calls) && i < |states|
    ensures Consistent(s, states[i])
  {
    if i == 0 {
      assert Heights(states[0]) == {};
    } else {
      RunKeepsConsistent(s, states, calls, i - 1);
      hide Consistent, Transition;
      TransitionKeepsConsistent(s, states[i - 1], calls[i - 1], states[i]);
    }
  }

  /** In a reachable state the second height guard never decides: whenever it
      would refuse a call, the first one already has. */
  lemma SecondGuardRedundant(s: Schedule, states: seq<Controller>, calls: seq<Call>, i: nat, call: Call)
    requires IsRun(s, states, calls) && i < |states|
    requires call.height == states[i].lastEmissionHeight && states[i].history != []
    ensures exists k :: 0 <= k < |states[i].history| && states[i].history[k].height == call.height
  {
    RunKeepsConsistent(s, states, calls, i);
  }

  lemma HeightsStep(c: Controller, call: Call, c': Controller)
    requires Transition(c, call, c')
    ensures Heights(c) <= Heights(c')
    ensures |Heights(c')| == |Heights(c)| + if Refusal(c, call).None? then 1 else 0
  {
    hide Heights, Distributes, Credit, SumBy;
    if Refusal(c, call).None? {
      AcceptedHeights(c, call, c');
    }
  }

  lemma {:induction false} HeightsGrow(s: Schedule, states: seq<Controller>, calls: seq<Call>, i: nat, j: nat)
    requires IsRun(s, states, calls) && i <= j < |states|
    ensures Heights(states[i]) <= Heights(states[j])
  {
    hide Heights, Transition;
    if i < j {
      HeightsGrow(s, states, calls, i, j - 1);
      HeightsStep(states[j - 1], calls[j - 1], states[j]);
    }
  }

  /** Two calls of one run that both emit have different heights. */
  lemma EachHeightAtMostOnce(s: Schedule, states: seq<Controller>, calls: seq<Call>, i: nat, j: nat)
    requires IsRun(s, states, calls) && i < j < |calls|
    requires Refusal(states[i], calls[i]).None? && Refusal(states[j], calls[j]).None?
    ensures calls[i].height != calls[j].height
  {
    AcceptedHeights(states[i], calls[i], states[i + 1]);
    HeightsGrow(s, states, calls, i + 1, j);
    AcceptedHeights(states[j], calls[j], states[j + 1]);
  }

  /** Per subnet, the running total is the sum of that subnet's history. */
  function AmountFor(subnet: SubnetId): SubnetEmission -> nat {
    (e: SubnetEmission) => if e.subnet == subnet then e.amount else 0
  }

  lemma {:induction false} CreditPerSubnet(es: seq<SubnetEmission>, subnet: SubnetId)
    ensures Get(Credit(map[], es), subnet) == SumBy(es, AmountFor(subnet))
  {
    if es != [] {
      CreditPerSubnet(es[..|es| - 1], subnet);
    }
  }

  lemma {:induction false} CreditTotal(es: seq<SubnetEmission>)
    ensures Total(Credit(map[], es)) == SumBy(es, Amount)
  {
    if es != [] {
      var before, e := Credit(map[], es[..|es| - 1]), es[|es| - 1];
      CreditTotal(es[..|es| - 1]);
      TotalPut(before, e.subnet, Get(before, e.subnet) + e.amount);
    }
  }

  /** Nothing is emitted outside the subnet totals, in any reachable state. */
  lemma SubnetTotalsBalance(s: Schedule, states: seq<Controller>, calls: seq<Call>, i: nat, subnet: SubnetId)
    requires IsRun(s, states, calls) && i < |states|
    ensures Total(states[i].subnetTotals) == states[i].totalEmitted
    ensures Get(states[i].subnetTotals, subnet) == SumBy(states[i].history, AmountFor(subnet))
  {
    RunKeepsConsistent(s, states, calls, i);
    CreditTotal(states[i].history);
    CreditPerSubnet(states[i].history, subnet);
  }

  // ---------------------------------------------------------------------
  // The cap
  // ---------------------------------------------------------------------

  /** The reward of an era if it kept halving without the cap or the floor. */
  function EraReward(s: Schedule, era: nat): nat {
    Div(s.baseReward, Pow2(era))
  }

  function Geometric(s: Schedule, eras: nat): nat {
    if eras == 0 then 0 else Geometric(s, eras - 1) + EraReward(s, eras - 1)
  }

  lemma EraHalves(s: Schedule, era: nat)
    ensures 2 * EraReward(s, era + 1) <= EraReward(s, era)
  {
    var p, q := Pow2(era), EraReward(s, era + 1);
    DivBounds(s.baseReward, 2 * p);
    assert 2 * q * p == q * (2 * p);
    DivAtLeast(s.baseReward, p, 2 * q);
  }

  lemma HalfOfFloor(a: nat, p: nat)
    requires p > 0
    ensures a / (2 * p) == a / p / 2
  {
    var r := a / p;
    var q := r / 2;
    DivBounds(a, p);
    MulMono(2 * q, r, p, p);
    MulMono(r + 1, 2 * q + 2, p, p);
    Distribute(r, 1, p);
    Distribute(2 * q, 2, p);
    assert 2 * q * p == q * (2 * p);
    DivIsFloor(a, 2 * p, q);
  }

  /** Each era's reward is half the one before, rounded down. */
  lemma EraIsHalf(s: Schedule, era: nat)
    ensures EraReward(s, era + 1) == EraReward(s, era) / 2
  {
    HalfOfFloor(s.baseReward, Pow2(era));
  }

  lemma {:induction false} EraDecreases(s: Schedule, era: nat, later: nat)
    requires era <= later
    ensures EraReward(s, later) <= EraReward(s, era)
  {
    if era < later {
      EraDecreases(s, era, later - 1);
      EraHalves(s, later - 1);
    }
  }

  lemma {:induction false} GeometricBound(s: Schedule, eras: nat)
    ensures Geometric(s, eras) + 2 * EraReward(s, eras) <= 2 * s.baseReward
  {
    if eras == 0 {
      DivIsFloor(s.baseReward, 1, s.baseReward);
    } else {
      GeometricBound(s, eras - 1);
      EraHalves(s, eras - 1);
    }
  }

  /** A block's reward exceeds its era's by at most the floor and the tail that
      the shift limit leaves. */
  lemma RewardBound(s: Schedule, height: Height)
    requires s.halvingInterval > 0
    ensures Reward(s, height)
         <= EraReward(s, EraOf(s, height)) + (EraReward(s, MAX_HALVINGS) + s.minReward)
  {
    var era := EraOf(s, height);
    if era > MAX_HALVINGS {
      EraDecreases(s, MAX_HALVINGS, era);
    }
  }

  /** The first interval pays the base reward (or the floor, if that is higher). */
  lemma FirstEraReward(s: Schedule, height: Height)
    requires height < s.halvingInterval || s.halvingInterval == 0
    ensures Reward(s, height) == Max(s.baseReward, s.minReward)
  {
    if s.halvingInterval > 0 {
      DivIsFloor(height, s.halvingInterval, 0);
    }
    DivIsFloor(s.baseReward, 1, s.baseReward);
  }

  /** The schedule itself: constant within an interval, halved (above the floor) from one
      interval to the next until the shift limit, and constant from there on. */
  lemma RewardHalves(s: Schedule, height: Height)
    requires s.halvingInterval > 0
    ensures Reward(s, height) == Reward(s, EraOf(s, height) * s.halvingInterval)
    ensures EraOf(s, height) < MAX_HALVINGS ==>
              Reward(s, height + s.halvingInterval)
              == Max(EraReward(s, EraOf(s, height)) / 2, s.minReward)
    ensures EraOf(s, height) >= MAX_HALVINGS ==>
              Reward(s, height + s.halvingInterval) == Reward(s, height)
  {
    var i, era := s.halvingInterval, EraOf(s, height);
    DivBounds(height, i);
    DivIsFloor(era * i, i, era);
    Distribute(era, 1, i);
    DivIsFloor(height + i, i, era + 1);
    EraIsHalf(s, era);
  }

  ghost function EraRewards(s: Schedule, heights: set<Height>): map<Height, nat>
    requires s.halvingInterval > 0
  {
    map h | h in heights :: EraReward(s, EraOf(s, h))
  }

  lemma MulStep(n: nat, x: nat)
    ensures Mul(n + 1, x) == Mul(n, x) + x
    ensures Mul(x, n + 1) == Mul(x, n) + x
  {
    Distribute(n, 1, x);
  }

  lemma NoRewards(s: Schedule)
    ensures Total(Rewards(s, {})) == 0
  {
    assert Rewards(s, {}) == map[];
  }

  lemma EraRewardsNone(s: Schedule)
    requires s.halvingInterval > 0
    ensures Total(EraRewards(s, {})) == 0
  {
    assert EraRewards(s, {}) == map[];
  }

  lemma EraRewardsPut(s: Schedule, heights: set<Height>, h: Height)
    requires s.halvingInterval > 0 && h !in heights
    ensures Total(EraRewards(s, heights + {h})) == Total(EraRewards(s, heights)) + EraReward(s, EraOf(s, h))
  {
    hide EraReward, EraOf;
    var r := EraReward(s, EraOf(s, h));
    assert EraRewards(s, heights + {h}) == EraRewards(s, heights)[h := r];
    TotalPut(EraRewards(s, heights), h, r);
  }

  lemma {:induction false} RewardsBound(s: Schedule, heights: set<Height>)
    requires s.halvingInterval > 0
    ensures Total(Rewards(s, heights))
         <= Total(EraRewards(s, heights)) + Mul(|heights|, EraReward(s, MAX_HALVINGS) + s.minReward)
    decreases heights
  {
    hide Reward, EraReward, Rewards, EraRewards, EraOf, Mul, Total;
    var tail := EraReward(s, MAX_HALVINGS) + s.minReward;
    if heights != {} {
      var h :| h in heights;
      var rest := heights - {h};
      assert heights == rest + {h};
      RewardsBound(s, rest);
      RewardBound(s, h);
      RewardsPut(s, rest, h);
      EraRewardsPut(s, rest, h);
      MulStep(|rest|, tail);
    } else {
      EraRewardsNone(s);
      NoRewards(s);
    }
  }

  /** The era rewards of the first `n` heights. */
  function UpTo(s: Schedule, n: nat): nat
    requires s.halvingInterval > 0
  {
    if n == 0 then 0 else UpTo(s, n - 1) + EraReward(s, EraOf(s, n - 1))
  }

  lemma {:induction false} SubsetBelow(s: Schedule, heights: set<Height>, n: nat)
    requires s.halvingInterval > 0
    requires forall h :: h in heights ==> h < n
    ensures Total(EraRewards(s, heights)) <= UpTo(s, n)
  {
    hide EraReward, EraRewards, EraOf, Total;
    if n > 0 {
      var h := n - 1;
      var rest := heights - {h};
      SubsetBelow(s, rest, n - 1);
      EraRewardsPut(s, rest, h);
      assert heights == rest || heights == rest + {h};
    } else {
      assert heights == {};
      EraRewardsNone(s);
    }
  }

  lemma {:induction false} WithinEra(s: Schedule, era: nat, j: nat)
    requires j <= s.halvingInterval && s.halvingInterval > 0
    ensures UpTo(s, Mul(era, s.halvingInterval) + j)
         == UpTo(s, Mul(era, s.halvingInterval)) + Mul(j, EraReward(s, era))
  {
    hide EraReward;
    if j > 0 {
      WithinEra(s, era, j - 1);
      DivIsFloor(Mul(era, s.halvingInterval) + (j - 1), s.halvingInterval, era);
      hide Mul;
      MulStep(j - 1, EraReward(s, era));
    }
  }

  lemma MulAdd(i: nat, g: nat, x: nat)
    ensures Mul(i, g + x) == Mul(i, g) + Mul(i, x)
  {
    Distribute(g, x, i);
  }

  lemma {:induction false} WholeEras(s: Schedule, eras: nat)
    requires s.halvingInterval > 0
    ensures UpTo(s, Mul(eras, s.halvingInterval)) == Mul(s.halvingInterval, Geometric(s, eras))
  {
    hide EraReward, EraOf;
    if eras > 0 {
      var i, g, x := s.halvingInterval, Geometric(s, eras - 1), EraReward(s, eras - 1);
      WholeEras(s, eras - 1);
      WithinEra(s, eras - 1, i);
      MulStep(eras - 1, i);
      MulAdd(i, g, x);
      hide Mul;
    }
  }

  lemma {:induction false} BoundedHeights(heights: set<Height>) returns (n: nat)
    ensures forall h :: h in heights ==> h < n
    decreases heights
  {
    n := 0;
    if heights != {} {
      var h :| h in heights;
      var m := BoundedHeights(heights - {h});
      n := Max(m, h + 1);
      assert forall k :: k in heights ==> k == h || k in heights - {h};
    }
  }

  /** Any set of distinct heights, in any order, earns less than two full intervals
      of the base reward, plus per emission the floor and the shift-limit tail. */
  lemma DistinctHeightsCap(s: Schedule, heights: set<Height>)
    requires s.halvingInterval > 0
    ensures Total(Rewards(s, heights))
         <= 2 * s.halvingInterval * s.baseReward + |heights| * (EraReward(s, MAX_HALVINGS) + s.minReward)
  {
    hide EraReward, Rewards, EraRewards;
    RewardsBound(s, heights);
    var n := BoundedHeights(heights);
    var i := s.halvingInterval;
    MulMono(n, n, 1, i);
    SubsetBelow(s, heights, Mul(n, i));
    WholeEras(s, n);
    GeometricBound(s, n);
    MulMono(i, i, Geometric(s, n), 2 * s.baseReward);
    assert i * (2 * s.baseReward) == 2 * i * s.baseReward;
  }

  /** How many of the first `i` calls emitted. */
  ghost function Emitted(states: seq<Controller>, calls: seq<Call>, i: nat): nat
    requires i <= |calls| && |states| == |calls| + 1
  {
    if i == 0 then 0
    else Emitted(states, calls, i - 1) + if Refusal(states[i - 1], calls[i - 1]).None? then 1 else 0
  }

  lemma {:induction false} HeightsCountEmissions(s: Schedule, states: seq<Controller>, calls: seq<Call>, i: nat)
    requires IsRun(s, states, calls) && i < |states|
    ensures |Heights(states[i])| == Emitted(states, calls, i)
  {
    if i == 0 {
      assert Heights(states[0]) == {};
    } else {
      HeightsCountEmissions(s, states, calls, i - 1);
      hide Heights, Transition, Refusal;
      HeightsStep(states[i - 1], calls[i - 1], states[i]);
    }
  }

  /** The emission cap over every run, at any heights in any order: two intervals of
      the base reward, plus per emission the floor reward and the tail that the shift
      limit leaves. */
  lemma EmissionCap(s: Schedule, states: seq<Controller>, calls: seq<Call>, i: nat)
    requires IsRun(s, states, calls) && i < |states| && s.halvingInterval > 0
    ensures states[i].totalEmitted
         <= 2 * s.halvingInterval * s.baseReward
            + Emitted(states, calls, i) * (EraReward(s, MAX_HALVINGS) + s.minReward)
  {
    RunKeepsConsistent(s, states, calls, i);
    HeightsCountEmissions(s, states, calls, i);
    hide EraReward;
    DistinctHeightsCap(s, Heights(states[i]));
  }

  lemma SmallPowers()
    ensures Pow2(1) == 2 && Pow2(8) == 256
  {
    assert Pow2(4) == 16;
  }

  lemma Doubled(p: nat, q: nat)
    ensures p * (2 * q) == 2 * (p * q)
  {
  }

  lemma {:induction false} Pow2Add(a: nat, b: nat)
    ensures Pow2(a + b) == Pow2(a) * Pow2(b)
  {
    if b > 0 {
      Pow2Add(a, b - 1);
      Doubled(Pow2(a), Pow2(b - 1));
    }
  }

  lemma ShiftLimit()
    ensures Pow2(MAX_HALVINGS) == 0x8000_0000_0000_0000_0000_0000_0000_0000
  {
    hide Pow2;
    SmallPowers();
    Pow2Add(8, 8);
    Pow2Add(16, 16);
    Pow2Add(32, 32);
    Pow2Add(63, 1);
    Pow2Add(64, 63);
  }

  lemma NoTail(s: Schedule)
    requires s.baseReward < 0x8000_0000_0000_0000_0000_0000_0000_0000
    ensures EraReward(s, MAX_HALVINGS) == 0
  {
    ShiftLimit();
    hide Pow2;
    DivIsFloor(s.baseReward, Pow2(MAX_HALVINGS), 0);
  }

  /** With a base reward below 2^127 the tail is zero: only the floor reward is
      left per emission. */
  lemma EmissionCapBelowShiftLimit(s: Schedule, states: seq<Controller>, calls: seq<Call>, i: nat)
    requires IsRun(s, states, calls) && i < |states| && s.halvingInterval > 0
    requires s.baseReward < 0x8000_0000_0000_0000_0000_0000_0000_0000
    ensures states[i].totalEmitted
         <= 2 * s.halvingInterval * s.baseReward + Emitted(states, calls, i) * s.minReward
  {
    hide IsRun, EraReward, Emitted;
    EmissionCap(s, states, calls, i);
    NoTail(s);
  }

  lemma {:induction false} ConstantRewards(s: Schedule, heights: set<Height>)
    requires s.halvingInterval == 0
    ensures Total(Rewards(s, heights)) == |heights| * Max(s.baseReward, s.minReward)
    decreases heights
  {
    if heights != {} {
      var h :| h in heights;
      var rest := heights - {h};
      assert heights == rest + {h};
      ConstantRewards(s, rest);
      RewardsPut(s, rest, h);
      DivIsFloor(s.baseReward, 1, s.baseReward);
      Distribute(|rest|, 1, Max(s.baseReward, s.minReward));
    } else {
      NoRewards(s);
    }
  }

  /** With halving switched off, every emission is bounded by the constant reward. */
  lemma {:induction false} EmissionCapWithoutHalving(s: Schedule, states: seq<Controller>, calls: seq<Call>, i: nat)
    requires IsRun(s, states, calls) && i < |states| && s.halvingInterval == 0
    ensures states[i].totalEmitted <= Emitted(states, calls, i) * Max(s.baseReward, s.minReward)
  {
    RunKeepsConsistent(s, states, calls, i);
    HeightsCountEmissions(s, states, calls, i);
    ConstantRewards(s, Heights(states[i]));
  }
}
