/** The proof-of-stake engine: a validator list that caches each stake and its
    weight, and weighted round-robin selection of the proposer. */
module ProofOfStake {
  import opened Types
  import opened Arithmetic
  import opened MapSums
  import opened Sequences
  import opened Staking

  const VALIDATOR_MIN_STAKE: nat := 32_000_000_000_000_000_000_000
  const DEFAULT_UNBONDING: nat := 100

  datatype PoSError =
    | InsufficientValidators
    | ValidatorNotFound
    | DuplicateValidator
    | StakingFailed(cause: StakingError)

  datatype Validator = Validator(
    address: Address,
    stake: nat,
    weight: nat,
    blocksProposed: nat,
    blocksMissed: nat)

  datatype Consensus = Consensus(
    vault: Vault,
    validators: seq<Validator>,
    proposer: Option<Address>,
    minValidators: nat)

  /** The cast to u64 truncates; `WeightNeverTruncates` shows that it cannot bite. */
  function StakeToWeight(stake: nat): nat {
    Div(stake, VALIDATOR_MIN_STAKE) % U64_LIMIT
  }

  lemma WeightNeverTruncates(stake: nat)
    requires stake <= U128_MAX
    ensures StakeToWeight(stake) == stake / VALIDATOR_MIN_STAKE
    ensures StakeToWeight(stake) > 0 <==> stake >= VALIDATOR_MIN_STAKE
  {
    DivMono(stake, U128_MAX, VALIDATOR_MIN_STAKE);
  }

  function NewValidator(address: Address, stake: nat): Validator {
    Validator(address, stake, StakeToWeight(stake), 0, 0)
  }

  /** A new record weighs one for every full 32 000 tokens of 10^18 units, and has proposed and
      missed nothing. */
  lemma NewRecord(address: Address, stake: nat)
    requires stake <= U128_MAX
    ensures var v := NewValidator(address, stake);
            && v.address == address && v.stake == stake && v.blocksProposed == 0 && v.blocksMissed == 0
            && v.weight * 32_000_000_000_000_000_000_000 <= stake < (v.weight + 1) * 32_000_000_000_000_000_000_000
  {
    WeightNeverTruncates(stake);
    DivBounds(stake, VALIDATOR_MIN_STAKE);
  }

  /** The vault of a new engine asks for 32 000 tokens and keeps them for 100 blocks. */
  lemma EngineVault()
    ensures var v := EmptyVault(VALIDATOR_MIN_STAKE, DEFAULT_UNBONDING);
            v.minStake == 32_000 * 1_000_000_000_000_000_000 && v.unbondingPeriod == 100 && v.totalStaked == 0
  {
  }

  function Weight(v: Validator): nat {
    v.weight
  }

  function VotingPower(validators: seq<Validator>): nat {
    SumBy(validators, Weight)
  }

  // ---------------------------------------------------------------------
  // Choosing a proposer
  // ---------------------------------------------------------------------

  /** The validator whose interval of cumulative weight holds the slot. */
  function Chosen(validators: seq<Validator>, slot: nat): (i: nat)
    requires slot < VotingPower(validators)
    ensures i < |validators|
    ensures VotingPower(validators[..i]) <= slot < VotingPower(validators[..i + 1])
  {
    var n := |validators| - 1;
    assert validators[..n + 1] == validators;
    if VotingPower(validators[..n]) <= slot then n
    else
      var i := Chosen(validators[..n], slot);
      assert validators[..n][..i] == validators[..i] && validators[..n][..i + 1] == validators[..i + 1];
      i
  }

  lemma {:induction false} PrefixPower(validators: seq<Validator>, i: nat, j: nat)
    requires i <= j <= |validators|
    ensures VotingPower(validators[..i]) <= VotingPower(validators[..j])
  {
    if i < j {
      PrefixPower(validators, i, j - 1);
      assert validators[..j][..j - 1] == validators[..j - 1];
    }
  }

  lemma ChosenUnique(validators: seq<Validator>, slot: nat, i: nat)
    requires slot < VotingPower(validators) && i < |validators|
    requires VotingPower(validators[..i]) <= slot < VotingPower(validators[..i + 1])
    ensures Chosen(validators, slot) == i
  {
    var k := Chosen(validators, slot);
    if k < i {
      PrefixPower(validators, k + 1, i);
    } else if i < k {
      PrefixPower(validators, i + 1, k);
    }
  }

  /** How many of the slots `lo`, ..., `hi - 1` fall to validator `i`. */
  function SlotsWon(validators: seq<Validator>, lo: nat, hi: nat, i: nat): nat
    requires lo <= hi <= VotingPower(validators)
  {
    if lo == hi then 0
    else SlotsWon(validators, lo, hi - 1, i) + if Chosen(validators, hi - 1) == i then 1 else 0
  }

  lemma {:induction false} SlotsSplit(validators: seq<Validator>, lo: nat, mid: nat, hi: nat, i: nat)
    requires lo <= mid <= hi <= VotingPower(validators)
    ensures SlotsWon(validators, lo, hi, i) == SlotsWon(validators, lo, mid, i) + SlotsWon(validators, mid, hi, i)
  {
    hide VotingPower, Chosen;
    if mid < hi {
      SlotsSplit(validators, lo, mid, hi - 1, i);
    }
  }

  lemma {:induction false} SlotsInside(validators: seq<Validator>, lo: nat, hi: nat, i: nat, j: nat)
    requires i < |validators|
    requires VotingPower(validators[..i]) <= lo <= hi <= VotingPower(validators[..i + 1]) <= VotingPower(validators)
    ensures SlotsWon(validators, lo, hi, j) == if i == j then hi - lo else 0
  {
    hide VotingPower, Chosen;
    if lo < hi {
      SlotsInside(validators, lo, hi - 1, i, j);
      ChosenUnique(validators, hi - 1, i);
    }
  }

  /** Over the first `k` validators' slots, `i` wins its weight if it is among them. */
  lemma {:induction false} SlotsOfPrefix(validators: seq<Validator>, k: nat, i: nat)
    requires k <= |validators| && i < |validators|
    ensures VotingPower(validators[..k]) <= VotingPower(validators)
    ensures SlotsWon(validators, 0, VotingPower(validators[..k]), i) == if i < k then validators[i].weight else 0
  {
    assert validators[..|validators|] == validators;
    PrefixPower(validators, k, |validators|);
    if k > 0 {
      var lo, hi := VotingPower(validators[..k - 1]), VotingPower(validators[..k]);
      assert validators[..k][..k - 1] == validators[..k - 1];
      SlotsOfPrefix(validators, k - 1, i);
      SlotsSplit(validators, 0, lo, hi, i);
      SlotsInside(validators, lo, hi, k - 1, i);
    }
  }

  function SlotAt(validators: seq<Validator>, height: Height): (slot: nat)
    requires VotingPower(validators) > 0
    ensures slot < VotingPower(validators)
  {
    height % VotingPower(validators)
  }

  /** How many of the `n` heights from `start` on propose validator `i`. */
  function Proposals(validators: seq<Validator>, start: Height, n: nat, i: nat): nat
    requires VotingPower(validators) > 0
  {
    if n == 0 then 0
    else
      Proposals(validators, start, n - 1, i)
      + if Chosen(validators, SlotAt(validators, start + n - 1)) == i then 1 else 0
  }

  lemma SmallMod(a: nat, w: nat)
    requires a < w
    ensures a % w == a
  {
  }

  lemma {:induction false} FirstCycle(validators: seq<Validator>, n: nat, i: nat)
    requires 0 < VotingPower(validators) && n <= VotingPower(validators)
    ensures Proposals(validators, 0, n, i) == SlotsWon(validators, 0, n, i)
  {
    hide VotingPower, Chosen;
    if n > 0 {
      FirstCycle(validators, n - 1, i);
      SmallMod(n - 1, VotingPower(validators));
    }
  }

  lemma {:induction false} DropFirst(validators: seq<Validator>, start: Height, n: nat, i: nat)
    requires VotingPower(validators) > 0
    ensures Proposals(validators, start, n + 1, i)
         == Proposals(validators, start + 1, n, i)
            + if Chosen(validators, SlotAt(validators, start)) == i then 1 else 0
  {
    hide VotingPower, Chosen, SlotAt;
    if n > 0 {
      DropFirst(validators, start, n - 1, i);
    }
  }

  lemma ModShift(a: nat, w: nat)
    requires w > 0
    ensures (a + w) % w == a % w
  {
    DivBounds(a, w);
    DivIsFloor(a + w, w, a / w + 1);
    Distribute(a / w, 1, w);
  }

  lemma SlotRepeats(validators: seq<Validator>, height: Height)
    requires VotingPower(validators) > 0
    ensures SlotAt(validators, height + VotingPower(validators)) == SlotAt(validators, height)
  {
    hide VotingPower;
    ModShift(height, VotingPower(validators));
  }

  lemma {:induction false} CycleFromAnywhere(validators: seq<Validator>, start: Height, i: nat)
    requires VotingPower(validators) > 0
    ensures Proposals(validators, start, VotingPower(validators), i)
         == Proposals(validators, 0, VotingPower(validators), i)
  {
    hide VotingPower, Chosen, SlotAt;
    if start > 0 {
      CycleFromAnywhere(validators, start - 1, i);
      DropFirst(validators, start - 1, VotingPower(validators), i);
      SlotRepeats(validators, start - 1);
    }
  }

  /** Exact fairness: from any starting height, one cycle of as many blocks as there
      is voting power proposes every validator exactly `weight` times, and so a
      validator without weight never. */
  lemma ProposerFairness(validators: seq<Validator>, start: Height, i: nat)
    requires VotingPower(validators) > 0 && i < |validators|
    ensures Proposals(validators, start, VotingPower(validators), i) == validators[i].weight
  {
    CycleFromAnywhere(validators, start, i);
    FirstCycle(validators, VotingPower(validators), i);
    SlotsOfPrefix(validators, |validators|, i);
    assert validators[..|validators|] == validators;
  }

  lemma RemainderIs(height: nat, cycles: nat, power: nat, slot: nat)
    requires height == cycles * power + slot && slot < power
    ensures height % power == slot
  {
    DivIsFloor(height, power, cycles);
    DivBounds(height, power);
  }

  /** Which height proposes whom: counted modulo the voting power, the height falls into the
      proposer's stretch of the cumulative weights in list order. */
  lemma ProposerAtHeight(validators: seq<Validator>, height: Height, cycles: nat, i: nat)
    requires VotingPower(validators) > 0 && i < |validators|
    requires var offset := cycles * VotingPower(validators) + VotingPower(validators[..i]);
             offset <= height < offset + validators[i].weight
    ensures Chosen(validators, SlotAt(validators, height)) == i
  {
    var power, slot := VotingPower(validators), height - cycles * VotingPower(validators);
    assert validators[..i + 1][..i] == validators[..i];
    PrefixPower(validators, i + 1, |validators|);
    assert validators[..|validators|] == validators;
    hide VotingPower, Chosen;
    RemainderIs(height, cycles, power, slot);
    ChosenUnique(validators, slot, i);
  }

  lemma PrefixStep(validators: seq<Validator>, i: nat)
    requires i < |validators|
    ensures VotingPower(validators[..i + 1]) == VotingPower(validators[..i]) + validators[i].weight
  {
    assert validators[..i + 1][..i] == validators[..i];
  }

  lemma ChosenHasWeight(validators: seq<Validator>, height: Height)
    requires VotingPower(validators) > 0
    ensures validators[Chosen(validators, SlotAt(validators, height))].weight > 0
  {
    var i := Chosen(validators, SlotAt(validators, height));
    hide SlotAt, Chosen;
    PrefixStep(validators, i);
    hide VotingPower;
  }

  // ---------------------------------------------------------------------
  // The engine
  // ---------------------------------------------------------------------

  predicate IsRegistered(validators: seq<Validator>, a: Address) {
    exists i :: 0 <= i < |validators| && validators[i].address == a
  }

  ghost predicate CachedOk(v: Validator, vault: Vault) {
    && v.weight == StakeToWeight(v.stake)
    && v.address in vault.stakes
    && v.stake == vault.stakes[v.address].amount
  }

  /** Addresses are distinct, weights follow the cached stakes, and every cached
      stake is the one in the vault. */
  ghost predicate CacheOk(c: Consensus) {
    && VaultOk(c.vault)
    && (forall i, j :: 0 <= i < j < |c.validators| ==> c.validators[i].address != c.validators[j].address)
    && (forall i :: 0 <= i < |c.validators| ==> CachedOk(c.validators[i], c.vault))
  }

  /** The cached record after its stake has been slashed. */
  function Resync(v: Validator, slashed: nat): Validator {
    v.(stake := SatSub(v.stake, slashed), weight := StakeToWeight(SatSub(v.stake, slashed)))
  }

  function SwapRemove(validators: seq<Validator>, pos: nat): seq<Validator>
    requires pos < |validators|
  {
    var last := |validators| - 1;
    validators[pos := validators[last]][..last]
  }

  /** Swap-removal drops exactly the validator at `pos` and keeps the rest distinct. */
  lemma RemovalKeepsOthers(validators: seq<Validator>, pos: nat)
    requires pos < |validators|
    requires forall i, j :: 0 <= i < j < |validators| ==> validators[i].address != validators[j].address
    ensures var rest := SwapRemove(validators, pos);
            && (forall i, j :: 0 <= i < j < |rest| ==> rest[i].address != rest[j].address)
            && (forall i :: 0 <= i < |rest| ==> rest[i] in validators && rest[i].address != validators[pos].address)
            && (forall i :: 0 <= i < |validators| && i != pos ==> validators[i] in rest)
  {
    var rest, last := SwapRemove(validators, pos), |validators| - 1;
    forall i | 0 <= i < |validators| && i != pos
      ensures validators[i] in rest
    {
      assert rest[if i == last then pos else i] == validators[i];
    }
  }

  class PoSConsensus {
    const stakingVault: StakingVault
    var validators: seq<Validator>
    var currentProposer: Option<Address>
    const minValidators: nat

    ghost function State(): Consensus
      reads this, stakingVault
    {
      Consensus(stakingVault.State(), validators, currentProposer, minValidators)
    }

    constructor (minValidators: nat)
      ensures State() == Consensus(EmptyVault(VALIDATOR_MIN_STAKE, DEFAULT_UNBONDING), [], None, minValidators)
      ensures fresh(stakingVault)
      ensures CacheOk(State())
    {
      stakingVault := new StakingVault(VALIDATOR_MIN_STAKE, DEFAULT_UNBONDING);
      validators, currentProposer := [], None;
      this.minValidators := minValidators;
    }

    method RegisterValidator(address: Address, stake: nat, height: Height) returns (r: Result<(), PoSError>)
      requires CacheOk(State())
      modifies this, stakingVault
      ensures CacheOk(State())
      ensures r.Err? ==> State() == old(State())
      ensures r.Ok? <==> !IsRegistered(old(validators), address)
                         && old(Step(stakingVault.State(), Stake(address, stake, height)).1).Ok?
      ensures r == Err(DuplicateValidator) <==> IsRegistered(old(validators), address)
      ensures r.Ok? ==> validators == old(validators) + [NewValidator(address, stake)]
                        && stakingVault.State() == old(Step(stakingVault.State(), Stake(address, stake, height)).0)
                        && currentProposer == old(currentProposer)
    {
      if exists i :: 0 <= i < |validators| && validators[i].address == address {
        return Err(DuplicateValidator);
      }
      StepKeepsVault(stakingVault.State(), Stake(address, stake, height));
      var staked := stakingVault.StakeInitial(address, stake, height);
      if staked.Err? {
        return Err(StakingFailed(staked.error));
      }
      validators := validators + [NewValidator(address, stake)];
      return Ok(());
    }

    method RemoveValidator(address: Address) returns (r: Result<(), PoSError>)
      requires CacheOk(State())
      modifies this
      ensures CacheOk(State())
      ensures r.Err? ==> r.error == ValidatorNotFound && State() == old(State())
      ensures r.Ok? <==> IsRegistered(old(validators), address)
      ensures r.Ok? ==>
                && !IsRegistered(validators, address)
                && |validators| == |old(validators)| - 1
                && (forall v :: v in old(validators) && v.address != address ==> v in validators)
                && (forall v :: v in validators ==> v in old(validators))
                && currentProposer == if old(currentProposer) == Some(address) then None else old(currentProposer)
    {
      var pos := 0;
      while pos < |validators| && validators[pos].address != address
        invariant 0 <= pos <= |validators|
        invariant forall j :: 0 <= j < pos ==> validators[j].address != address
      {
        pos := pos + 1;
      }
      if pos == |validators| {
        return Err(ValidatorNotFound);
      }
      RemovalKeepsOthers(validators, pos);
      validators := SwapRemove(validators, pos);
      if currentProposer == Some(address) {
        currentProposer := None;
      }
      return Ok(());
    }

    method TotalVotingPower() returns (total: nat)
      ensures total == VotingPower(validators)
    {
      total := 0;
      for i := 0 to |validators|
        invariant total == VotingPower(validators[..i])
      {
        assert validators[..i + 1][..i] == validators[..i];
        total := total + validators[i].weight;
      }
      assert validators[..|validators|] == validators;
    }

    method SelectProposer(height: Height) returns (r: Result<Address, PoSError>)
      modifies this`currentProposer
      ensures r.Err? <==> |validators| < minValidators || VotingPower(validators) == 0
      ensures r.Err? ==> r.error == InsufficientValidators && currentProposer == old(currentProposer)
      ensures r.Ok? ==> r.value == validators[Chosen(validators, SlotAt(validators, height))].address
                        && currentProposer == Some(r.value)
    {
      r := Err(InsufficientValidators);
      if |validators| < minValidators {
        return;
      }
      var total := TotalVotingPower();
      if total == 0 {
        return;
      }
      var slot := height % total;
      var cumulative := 0;
      assert validators[..|validators|] == validators;
      for i := 0 to |validators|
        invariant cumulative == VotingPower(validators[..i]) <= slot
      {
        assert validators[..i + 1][..i] == validators[..i];
        cumulative := cumulative + validators[i].weight;
        if slot < cumulative {
          ChosenUnique(validators, slot, i);
          currentProposer := Some(validators[i].address);
          return Ok(validators[i].address);
        }
      }
      // The fallback to the last validator is never reached: the slot lies below the
      // total, and the total has just been accumulated without exceeding the slot.
      assert false;
    }

    method SlashValidator(address: Address, percentBps: nat) returns (r: Result<nat, PoSError>)
      requires CacheOk(State())
      modifies this, stakingVault
      ensures CacheOk(State())
      ensures stakingVault.State() == old(Step(stakingVault.State(), Slash(address, percentBps)).0)
      ensures r.Ok? <==> address in old(stakingVault.stakes)
      ensures r.Ok? ==> Ok(r.value) == old(Step(stakingVault.State(), Slash(address, percentBps)).1)
      ensures r.Err? ==> State() == old(State())
      ensures |validators| == |old(validators)| && currentProposer == old(currentProposer)
      ensures forall i :: 0 <= i < |validators| ==>
                if old(validators)[i].address == address && r.Ok?
                then validators[i] == Resync(old(validators)[i], r.value)
                else validators[i] == old(validators)[i]
    {
      hide StakeToWeight;
      StepKeepsVault(stakingVault.State(), Slash(address, percentBps));
      var slashed := stakingVault.SlashStake(address, percentBps);
      if slashed.Err? {
        return Err(StakingFailed(slashed.error));
      }
      var pos := 0;
      while pos < |validators| && validators[pos].address != address
        invariant 0 <= pos <= |validators|
        invariant forall j :: 0 <= j < pos ==> validators[j].address != address
      {
        pos := pos + 1;
      }
      if pos < |validators| {
        validators := validators[pos := Resync(validators[pos], slashed.value)];
      }
      return Ok(slashed.value);
    }
  }

  // ---------------------------------------------------------------------
  // The vault behind the cache
  // ---------------------------------------------------------------------

  /** The active stake that a direct vault operation would change. */
  ghost predicate MovesActiveStake(v: Vault, op: Op) {
    && op.address in v.stakes
    && var amount := v.stakes[op.address].amount;
       match op
       case AddStake(_, extra) => extra > 0
       case BeginUnstake(_, less, _) => 0 < less <= amount
       case Slash(_, percentBps) => SlashAmount(amount, percentBps) > 0
       case _ => false
  }

  lemma DirectEffect(v: Vault, op: Op)
    requires VaultOk(v)
    ensures var v' := Step(v, op).0;
            && (forall a :: a in v.stakes ==> a in v'.stakes)
            && (forall a :: a in v.stakes && a != op.address ==> v'.stakes[a] == v.stakes[a])
            && (op.address in v.stakes ==>
                  (v'.stakes[op.address].amount == v.stakes[op.address].amount <==> !MovesActiveStake(v, op)))
  {
    hide SlashAmount, Locked, Mature;
  }

  /** The vault is public, so it can be changed behind the engine's back. The cache
      survives such an operation exactly when it moves no registered active stake. */
  lemma DirectVaultOperation(c: Consensus, op: Op)
    requires CacheOk(c)
    ensures CacheOk(c.(vault := Step(c.vault, op).0))
        <==> !(IsRegistered(c.validators, op.address) && MovesActiveStake(c.vault, op))
  {
    hide SlashAmount, Locked, Mature, StakeToWeight;
    var vault' := Step(c.vault, op).0;
    StepKeepsVault(c.vault, op);
    DirectEffect(c.vault, op);
    if IsRegistered(c.validators, op.address) {
      var i :| 0 <= i < |c.validators| && c.validators[i].address == op.address;
      assert CachedOk(c.validators[i], c.vault);
      assert CachedOk(c.validators[i], vault') <==> !MovesActiveStake(c.vault, op);
    }
  }

  // ---------------------------------------------------------------------
  // No overflow in the cumulative weights
  // ---------------------------------------------------------------------

  ghost function Addresses(validators: seq<Validator>): set<Address> {
    set i | 0 <= i < |validators| :: validators[i].address
  }

  lemma WeightWithinStake(stake: nat)
    ensures StakeToWeight(stake) * VALIDATOR_MIN_STAKE <= stake
  {
    DivBounds(stake, VALIDATOR_MIN_STAKE);
    MulMono(StakeToWeight(stake), stake / VALIDATOR_MIN_STAKE, VALIDATOR_MIN_STAKE, VALIDATOR_MIN_STAKE);
  }

  lemma {:induction false} PowerWithinStake(validators: seq<Validator>, vault: Vault)
    requires forall i :: 0 <= i < |validators| ==> CachedOk(validators[i], vault)
    requires forall i, j :: 0 <= i < j < |validators| ==> validators[i].address != validators[j].address
    ensures Addresses(validators) <= vault.stakes.Keys
    ensures VotingPower(validators) * VALIDATOR_MIN_STAKE <= Sum(Actives(vault.stakes), Addresses(validators))
  {
    hide StakeToWeight;
    if validators != [] {
      var n := |validators| - 1;
      var rest, v := validators[..n], validators[n];
      PowerWithinStake(rest, vault);
      assert Addresses(validators) == Addresses(rest) + {v.address};
      assert v.address !in Addresses(rest);
      SumSplit(Actives(vault.stakes), Addresses(validators), v.address);
      assert Addresses(validators) - {v.address} == Addresses(rest);
      WeightWithinStake(v.stake);
      Distribute(VotingPower(rest), v.weight, VALIDATOR_MIN_STAKE);
    }
  }

  lemma FitsU64(power: nat)
    requires power * VALIDATOR_MIN_STAKE <= U128_MAX
    ensures power < U64_LIMIT
  {
  }

  /** While all active stake fits in u128, no cumulative weight can leave u64. */
  lemma CumulativeWeightFits(c: Consensus)
    requires CacheOk(c) && c.vault.totalStaked <= U128_MAX
    ensures VotingPower(c.validators) < U64_LIMIT
  {
    PowerWithinStake(c.validators, c.vault);
    SumMonotone(Actives(c.vault.stakes), Addresses(c.validators), Actives(c.vault.stakes).Keys);
    FitsU64(VotingPower(c.validators));
  }
}
