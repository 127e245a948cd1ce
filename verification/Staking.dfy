/** The staking vault: active stakes, chunks waiting to unbond, and slashing. */
module Staking {
  import opened Types
  import opened Arithmetic
  import opened MapSums
  import opened Sequences

  const MAX_SLASH_BPS: nat := 5_000

  datatype StakingError = InsufficientStake | InsufficientBalance | NoStakeFound | StakeAlreadyExists

  datatype Chunk = Chunk(amount: nat, completionHeight: Height)

  datatype StakeEntry = StakeEntry(amount: nat, stakedAt: Height, unbonding: seq<Chunk>)

  datatype Vault = Vault(
    stakes: map<Address, StakeEntry>,
    totalStaked: nat,
    minStake: nat,
    unbondingPeriod: nat)

  datatype Op =
    | Stake(address: Address, amount: nat, height: Height)
    | AddStake(address: Address, amount: nat)
    | BeginUnstake(address: Address, amount: nat, height: Height)
    | CompleteUnbonding(address: Address, height: Height)
    | Slash(address: Address, percentBps: nat)

  type Outcome = Result<nat, StakingError>

  function SlashAmount(amount: nat, percentBps: nat): nat {
    Div(Sat(amount * Min(percentBps, MAX_SLASH_BPS)), BPS)
  }

  function ChunkAmount(c: Chunk): nat {
    c.amount
  }

  /** The chunks still locked at `height`, and the amount of those that are not. */
  function Locked(chunks: seq<Chunk>, height: Height): seq<Chunk> {
    if chunks == [] then []
    else
      var c := chunks[|chunks| - 1];
      Locked(chunks[..|chunks| - 1], height) + if c.completionHeight <= height then [] else [c]
  }

  function Mature(chunks: seq<Chunk>, height: Height): nat {
    if chunks == [] then 0
    else
      var c := chunks[|chunks| - 1];
      Mature(chunks[..|chunks| - 1], height) + if c.completionHeight <= height then c.amount else 0
  }

  ghost function Actives(stakes: map<Address, StakeEntry>): map<Address, nat> {
    map a | a in stakes :: stakes[a].amount
  }

  /** The running total is the sum of the active stakes. */
  ghost predicate VaultOk(v: Vault) {
    v.totalStaked == Total(Actives(v.stakes))
  }

  /** The lemma `StakeWithinTotal` is what lets the total be reduced. */
  lemma StakeWithinTotal(v: Vault, a: Address)
    requires VaultOk(v) && a in v.stakes
    ensures v.stakes[a].amount <= v.totalStaked
  {
    GetAtMostTotal(Actives(v.stakes), a);
  }

  lemma SlashBounds(amount: nat, percentBps: nat)
    ensures 2 * SlashAmount(amount, percentBps) <= amount
  {
    var bps := Min(percentBps, MAX_SLASH_BPS);
    MulMono(amount, amount, bps, MAX_SLASH_BPS);
    DivAtLeast(Sat(amount * bps), BPS, SlashAmount(amount, percentBps));
  }

  ghost function Step(v: Vault, op: Op): (Vault, Outcome)
    requires VaultOk(v)
  {
    match op
    case Stake(a, amount, height) =>
      if amount < v.minStake then (v, Err(InsufficientStake))
      else if a in v.stakes then (v, Err(StakeAlreadyExists))
      else (v.(stakes := v.stakes[a := StakeEntry(amount, height, [])],
               totalStaked := v.totalStaked + amount), Ok(0))
    case AddStake(a, amount) =>
      if a !in v.stakes then (v, Err(NoStakeFound))
      else
        var e := v.stakes[a];
        (v.(stakes := v.stakes[a := e.(amount := e.amount + amount)],
            totalStaked := v.totalStaked + amount), Ok(0))
    case BeginUnstake(a, amount, height) =>
      if a !in v.stakes then (v, Err(NoStakeFound))
      else if amount > v.stakes[a].amount then (v, Err(InsufficientBalance))
      else
        var e := v.stakes[a];
        StakeWithinTotal(v, a);
        (v.(stakes := v.stakes[a := e.(amount := e.amount - amount,
                                       unbonding := e.unbonding + [Chunk(amount, height + v.unbondingPeriod)])],
            totalStaked := v.totalStaked - amount), Ok(0))
    case CompleteUnbonding(a, height) =>
      if a !in v.stakes then (v, Ok(0))
      else
        var e := v.stakes[a];
        (v.(stakes := v.stakes[a := e.(unbonding := Locked(e.unbonding, height))]),
         Ok(Mature(e.unbonding, height)))
    case Slash(a, percentBps) =>
      if a !in v.stakes then (v, Err(NoStakeFound))
      else
        var e := v.stakes[a];
        var slashed := SlashAmount(e.amount, percentBps);
        StakeWithinTotal(v, a);
        SlashBounds(e.amount, percentBps);
        (v.(stakes := v.stakes[a := e.(amount := e.amount - slashed)],
            totalStaked := v.totalStaked - slashed), Ok(slashed))
  }

  lemma StepKeepsVault(v: Vault, op: Op)
    requires VaultOk(v)
    ensures VaultOk(Step(v, op).0)
    ensures Step(v, op).0.unbondingPeriod == v.unbondingPeriod && Step(v, op).0.minStake == v.minStake
  {
    hide SlashAmount, Locked, Mature;
    var v' := Step(v, op).0;
    var a := op.address;
    if v' != v {
      assert Actives(v'.stakes) == Actives(v.stakes)[a := v'.stakes[a].amount];
      TotalPut(Actives(v.stakes), a, v'.stakes[a].amount);
    }
  }

  function EmptyVault(minStake: nat, unbondingPeriod: nat): (v: Vault)
    ensures VaultOk(v)
  {
    assert Actives(map[]) == map[];
    Vault(map[], 0, minStake, unbondingPeriod)
  }

  class StakingVault {
    var stakes: map<Address, StakeEntry>
    var totalStaked: nat
    const minStake: nat
    const unbondingPeriod: nat

    ghost function State(): Vault
      reads this
    {
      Vault(stakes, totalStaked, minStake, unbondingPeriod)
    }

    constructor (minStake: nat, unbondingPeriod: nat)
      ensures State() == EmptyVault(minStake, unbondingPeriod)
    {
      this.minStake, this.unbondingPeriod := minStake, unbondingPeriod;
      stakes, totalStaked := map[], 0;
    }

    method StakeInitial(address: Address, amount: nat, height: Height) returns (r: Outcome)
      requires VaultOk(State())
      modifies this
      ensures (State(), r) == Step(old(State()), Stake(address, amount, height))
    {
      if amount < minStake {
        return Err(InsufficientStake);
      }
      if address in stakes {
        return Err(StakeAlreadyExists);
      }
      stakes := stakes[address := StakeEntry(amount, height, [])];
      totalStaked := totalStaked + amount;
      return Ok(0);
    }

    method AddToStake(address: Address, amount: nat) returns (r: Outcome)
      requires VaultOk(State())
      modifies this
      ensures (State(), r) == Step(old(State()), AddStake(address, amount))
    {
      if address !in stakes {
        return Err(NoStakeFound);
      }
      var entry := stakes[address];
      stakes := stakes[address := entry.(amount := entry.amount + amount)];
      totalStaked := totalStaked + amount;
      return Ok(0);
    }

    method BeginUnstaking(address: Address, amount: nat, currentHeight: Height) returns (r: Outcome)
      requires VaultOk(State())
      modifies this
      ensures (State(), r) == Step(old(State()), BeginUnstake(address, amount, currentHeight))
    {
      if address !in stakes {
        return Err(NoStakeFound);
      }
      var entry := stakes[address];
      if amount > entry.amount {
        return Err(InsufficientBalance);
      }
      StakeWithinTotal(State(), address);
      entry := entry.(amount := entry.amount - amount);
      totalStaked := totalStaked - amount;
      entry := entry.(unbonding := entry.unbonding + [Chunk(amount, currentHeight + unbondingPeriod)]);
      stakes := stakes[address := entry];
      return Ok(0);
    }

    method Complete(address: Address, currentHeight: Height) returns (released: nat)
      requires VaultOk(State())
      modifies this
      ensures (State(), Ok(released)) == Step(old(State()), CompleteUnbonding(address, currentHeight))
    {
      if address !in stakes {
        return 0;
      }
      var entry := stakes[address];
      released := 0;
      var kept: seq<Chunk> := [];
      for i := 0 to |entry.unbonding|
        invariant kept == Locked(entry.unbonding[..i], currentHeight)
        invariant released == Mature(entry.unbonding[..i], currentHeight)
      {
        var u := entry.unbonding[i];
        assert entry.unbonding[..i + 1][..i] == entry.unbonding[..i];
        if u.completionHeight <= currentHeight {
          released := released + u.amount;
        } else {
          kept := kept + [u];
        }
      }
      assert entry.unbonding[..|entry.unbonding|] == entry.unbonding;
      stakes := stakes[address := entry.(unbonding := kept)];
    }

    method SlashStake(address: Address, percentBps: nat) returns (r: Outcome)
      requires VaultOk(State())
      modifies this
      ensures (State(), r) == Step(old(State()), Slash(address, percentBps))
    {
      if address !in stakes {
        return Err(NoStakeFound);
      }
      var entry := stakes[address];
      StakeWithinTotal(State(), address);
      SlashBounds(entry.amount, percentBps);
      var effectiveBps := Min(percentBps, MAX_SLASH_BPS);
      var slashAmount := Div(Sat(entry.amount * effectiveBps), BPS);
      stakes := stakes[address := entry.(amount := entry.amount - slashAmount)];
      totalStaked := totalStaked - slashAmount;
      return Ok(slashAmount);
    }
  }

  /** Slashing, however often and at whatever rate, never empties a positive stake. */
  lemma SlashLeavesStake(v: Vault, a: Address, percentBps: nat)
    requires VaultOk(v) && a in v.stakes && v.stakes[a].amount > 0
    ensures var v' := Step(v, Slash(a, percentBps)).0;
            0 < v'.stakes[a].amount && v.stakes[a].amount <= 2 * v'.stakes[a].amount
  {
    SlashBounds(v.stakes[a].amount, percentBps);
  }

  lemma SlashRate(amount: nat, percentBps: nat)
    ensures var x := SlashAmount(amount, percentBps);
            10_000 * x <= Sat(amount * Min(percentBps, 5_000)) < 10_000 * (x + 1)
  {
    DivBounds(Sat(amount * Min(percentBps, MAX_SLASH_BPS)), BPS);
  }

  /** A slash takes the requested rate of the active stake, at most half, rounded down. */
  lemma SlashMeans(v: Vault, a: Address, percentBps: nat)
    requires VaultOk(v) && a in v.stakes
    ensures var (v', r) := Step(v, Slash(a, percentBps));
            var amount, rate := v.stakes[a].amount, Min(percentBps, 5_000);
            && r.Ok? && r.value <= amount
            && 10_000 * r.value <= Sat(amount * rate) < 10_000 * (r.value + 1)
            && a in v'.stakes && v'.stakes[a] == v.stakes[a].(amount := amount - r.value)
            && v'.totalStaked == v.totalStaked - r.value
  {
    hide SlashAmount;
    StakeWithinTotal(v, a);
    SlashBounds(v.stakes[a].amount, percentBps);
    SlashRate(v.stakes[a].amount, percentBps);
  }

  /** Which operations are accepted: a first stake of at least the minimum, any addition to an
      existing stake, unstaking up to the active amount, and any slash of an existing stake.
      A refused one changes nothing, and no operation touches another address. */
  lemma AcceptedIff(v: Vault, op: Op)
    requires VaultOk(v)
    ensures var (v', r) := Step(v, op);
            && (op.Stake? ==> (r.Ok? <==> op.amount >= v.minStake && op.address !in v.stakes))
            && (op.AddStake? || op.Slash? ==> (r.Ok? <==> op.address in v.stakes))
            && (op.BeginUnstake? ==>
                  (r.Ok? <==> op.address in v.stakes && op.amount <= v.stakes[op.address].amount))
            && (r == Err(InsufficientStake) <==> op.Stake? && op.amount < v.minStake)
            && (r == Err(StakeAlreadyExists) <==> op.Stake? && op.amount >= v.minStake && op.address in v.stakes)
            && (r == Err(NoStakeFound) <==>
                  (op.AddStake? || op.BeginUnstake? || op.Slash?) && op.address !in v.stakes)
            && (op.CompleteUnbonding? ==> r.Ok?)
            && (r.Err? ==> v' == v)
            && forall b :: b != op.address ==>
                 (b in v'.stakes <==> b in v.stakes) && (b in v.stakes ==> v'.stakes[b] == v.stakes[b])
  {
    hide SlashAmount, Locked, Mature;
  }

  /** What the three moving operations leave behind for their address. */
  lemma StakeMoves(v: Vault, op: Op)
    requires VaultOk(v) && Step(v, op).1.Ok? && (op.Stake? || op.AddStake? || op.BeginUnstake?)
    ensures var a, v' := op.address, Step(v, op).0;
            && a in v'.stakes
            && var after := v'.stakes[a];
               && (op.Stake? ==> after.amount == op.amount && after.stakedAt == op.height && after.unbonding == [])
               && (op.AddStake? ==> after == v.stakes[a].(amount := v.stakes[a].amount + op.amount))
               && (op.BeginUnstake? ==>
                     && after.amount + op.amount == v.stakes[a].amount && after.stakedAt == v.stakes[a].stakedAt
                     && after.unbonding == v.stakes[a].unbonding + [Chunk(op.amount, op.height + v.unbondingPeriod)])
  {
  }

  // ---------------------------------------------------------------------
  // Runs
  // ---------------------------------------------------------------------

  ghost function Run(start: Vault, ops: seq<Op>): (v: Vault)
    requires VaultOk(start)
    ensures VaultOk(v)
    ensures v.unbondingPeriod == start.unbondingPeriod
  {
    if ops == [] then start
    else
      StepKeepsVault(Run(start, ops[..|ops| - 1]), ops[|ops| - 1]);
      Step(Run(start, ops[..|ops| - 1]), ops[|ops| - 1]).0
  }

  /** What one accepted operation on `a` moves, by kind. */
  datatype Flow = Flow(deposited: nat, released: nat, slashed: nat)

  ghost function FlowOf(v: Vault, op: Op, a: Address): Flow
    requires VaultOk(v)
  {
    var r := Step(v, op).1;
    if op.address != a || r.Err? then Flow(0, 0, 0)
    else
      match op
      case Stake(_, amount, _) => Flow(amount, 0, 0)
      case AddStake(_, amount) => Flow(amount, 0, 0)
      case BeginUnstake(_, _, _) => Flow(0, 0, 0)
      case CompleteUnbonding(_, _) => Flow(0, r.value, 0)
      case Slash(_, _) => Flow(0, 0, r.value)
  }

  ghost function Flows(start: Vault, ops: seq<Op>, a: Address): Flow
    requires VaultOk(start)
  {
    if ops == [] then Flow(0, 0, 0)
    else
      var n := |ops| - 1;
      var f, g := Flows(start, ops[..n], a), FlowOf(Run(start, ops[..n]), ops[n], a);
      Flow(f.deposited + g.deposited, f.released + g.released, f.slashed + g.slashed)
  }

  /** What the vault still owes `a`: the active stake and every waiting chunk. */
  function Holding(v: Vault, a: Address): nat {
    if a in v.stakes then v.stakes[a].amount + SumBy(v.stakes[a].unbonding, ChunkAmount) else 0
  }

  lemma {:induction false} LockedPlusMature(chunks: seq<Chunk>, height: Height)
    ensures SumBy(chunks, ChunkAmount) == SumBy(Locked(chunks, height), ChunkAmount) + Mature(chunks, height)
  {
    if chunks != [] {
      var rest, c := chunks[..|chunks| - 1], chunks[|chunks| - 1];
      LockedPlusMature(rest, height);
      if c.completionHeight > height {
        SumByPush(Locked(rest, height), c, ChunkAmount);
      } else {
        assert Locked(chunks, height) == Locked(rest, height);
      }
    }
  }

  lemma StepBalances(v: Vault, op: Op, a: Address)
    requires VaultOk(v)
    ensures var f := FlowOf(v, op, a);
            Holding(v, a) + f.deposited == Holding(Step(v, op).0, a) + f.released + f.slashed
  {
    if op.address == a && a in v.stakes {
      var chunks := v.stakes[a].unbonding;
      hide SlashAmount, Locked, Mature;
      match op
      case BeginUnstake(_, amount, height) =>
        SumByPush(chunks, Chunk(amount, height + v.unbondingPeriod), ChunkAmount);
      case CompleteUnbonding(_, height) =>
        LockedPlusMature(chunks, height);
      case Slash(_, percentBps) =>
        SlashBounds(v.stakes[a].amount, percentBps);
      case _ =>
    }
  }

  /** Per address and over every run: everything deposited is still held, has been
      released, or has been slashed. */
  lemma {:induction false} StakeConservation(start: Vault, ops: seq<Op>, a: Address)
    requires VaultOk(start)
    ensures var f := Flows(start, ops, a);
            Holding(start, a) + f.deposited == Holding(Run(start, ops), a) + f.released + f.slashed
  {
    if ops != [] {
      var n := |ops| - 1;
      StakeConservation(start, ops[..n], a);
      hide Step, Holding, FlowOf;
      StepBalances(Run(start, ops[..n]), ops[n], a);
    }
  }

  // ---------------------------------------------------------------------
  // The unbonding period
  // ---------------------------------------------------------------------

  /** Released to `a` by the calls made at heights up to `limit`. */
  ghost function ReleasedBy(start: Vault, ops: seq<Op>, a: Address, limit: Height): nat
    requires VaultOk(start)
  {
    if ops == [] then 0
    else
      var n := |ops| - 1;
      ReleasedBy(start, ops[..n], a, limit)
      + if ops[n].CompleteUnbonding? && ops[n].height <= limit
        then FlowOf(Run(start, ops[..n]), ops[n], a).released else 0
  }

  /** Accepted unstake requests of `a` made a full period before `limit`. */
  ghost function BegunBefore(start: Vault, ops: seq<Op>, a: Address, limit: Height): nat
    requires VaultOk(start)
  {
    if ops == [] then 0
    else
      var n, op := |ops| - 1, ops[|ops| - 1];
      BegunBefore(start, ops[..n], a, limit)
      + if op.BeginUnstake? && op.address == a && op.height + start.unbondingPeriod <= limit
           && Step(Run(start, ops[..n]), op).1.Ok?
        then op.amount else 0
  }

  function MatureHolding(v: Vault, a: Address, limit: Height): nat {
    if a in v.stakes then Mature(v.stakes[a].unbonding, limit) else 0
  }

  lemma MaturePush(chunks: seq<Chunk>, c: Chunk, limit: Height)
    ensures Mature(chunks + [c], limit) == Mature(chunks, limit) + if c.completionHeight <= limit then c.amount else 0
  {
    assert (chunks + [c])[..|chunks|] == chunks;
  }

  lemma {:induction false} MatureWithin(chunks: seq<Chunk>, height: Height, limit: Height)
    requires height <= limit
    ensures Mature(Locked(chunks, height), limit) + Mature(chunks, height) == Mature(chunks, limit)
  {
    if chunks != [] {
      var rest, c := chunks[..|chunks| - 1], chunks[|chunks| - 1];
      MatureWithin(rest, height, limit);
      if c.completionHeight > height {
        MaturePush(Locked(rest, height), c, limit);
      } else {
        assert Locked(chunks, height) == Locked(rest, height);
      }
    }
  }

  lemma {:induction false} LockedMatureLess(chunks: seq<Chunk>, height: Height, limit: Height)
    ensures Mature(Locked(chunks, height), limit) <= Mature(chunks, limit)
  {
    if chunks != [] {
      var rest, c := chunks[..|chunks| - 1], chunks[|chunks| - 1];
      LockedMatureLess(rest, height, limit);
      if c.completionHeight > height {
        MaturePush(Locked(rest, height), c, limit);
      } else {
        assert Locked(chunks, height) == Locked(rest, height);
      }
    }
  }

  lemma StepMatures(v: Vault, op: Op, a: Address, limit: Height)
    requires VaultOk(v)
    ensures MatureHolding(Step(v, op).0, a, limit)
            + (if op.CompleteUnbonding? && op.height <= limit then FlowOf(v, op, a).released else 0)
         <= MatureHolding(v, a, limit)
            + if op.BeginUnstake? && op.address == a && op.height + v.unbondingPeriod <= limit && Step(v, op).1.Ok?
              then op.amount else 0
  {
    if op.address == a && a in v.stakes {
      var chunks := v.stakes[a].unbonding;
      hide SlashAmount, Locked, Mature;
      match op
      case BeginUnstake(_, amount, height) =>
        MaturePush(chunks, Chunk(amount, height + v.unbondingPeriod), limit);
      case CompleteUnbonding(_, height) =>
        if height <= limit {
          MatureWithin(chunks, height, limit);
        } else {
          LockedMatureLess(chunks, height, limit);
        }
      case _ =>
    } else if op.address == a {
      hide SlashAmount, Locked;
    }
  }

  /** Nothing comes out early: in every run, heights in any order, what calls up to a
      height release was asked for at least one unbonding period before that height. */
  lemma {:induction false} ReleasedOnlyAfterPeriod(start: Vault, ops: seq<Op>, a: Address, limit: Height)
    requires VaultOk(start)
    ensures MatureHolding(Run(start, ops), a, limit) + ReleasedBy(start, ops, a, limit)
         <= MatureHolding(start, a, limit) + BegunBefore(start, ops, a, limit)
  {
    if ops != [] {
      var n := |ops| - 1;
      ReleasedOnlyAfterPeriod(start, ops[..n], a, limit);
      hide Step, MatureHolding, FlowOf;
      StepMatures(Run(start, ops[..n]), ops[n], a, limit);
    }
  }

  lemma {:induction false} NoneMatureLeft(chunks: seq<Chunk>, height: Height)
    ensures Mature(Locked(chunks, height), height) == 0
  {
    MatureWithin(chunks, height, height);
  }

  lemma StepMaturesExactly(v: Vault, op: Op, a: Address, limit: Height)
    requires VaultOk(v) && (op.CompleteUnbonding? ==> op.height <= limit)
    ensures MatureHolding(Step(v, op).0, a, limit)
            + (if op.CompleteUnbonding? then FlowOf(v, op, a).released else 0)
         == MatureHolding(v, a, limit)
            + if op.BeginUnstake? && op.address == a && op.height + v.unbondingPeriod <= limit && Step(v, op).1.Ok?
              then op.amount else 0
  {
    if op.address == a && a in v.stakes {
      var chunks := v.stakes[a].unbonding;
      hide SlashAmount, Locked, Mature;
      match op
      case BeginUnstake(_, amount, height) =>
        MaturePush(chunks, Chunk(amount, height + v.unbondingPeriod), limit);
      case CompleteUnbonding(_, height) =>
        MatureWithin(chunks, height, limit);
      case _ =>
    } else if op.address == a {
      hide SlashAmount, Locked;
    }
  }

  lemma {:induction false} RunMaturesExactly(start: Vault, ops: seq<Op>, a: Address, limit: Height)
    requires VaultOk(start)
    requires forall i :: 0 <= i < |ops| && ops[i].CompleteUnbonding? ==> ops[i].height <= limit
    ensures MatureHolding(Run(start, ops), a, limit) + ReleasedBy(start, ops, a, limit)
         == MatureHolding(start, a, limit) + BegunBefore(start, ops, a, limit)
  {
    if ops != [] {
      var n := |ops| - 1;
      RunMaturesExactly(start, ops[..n], a, limit);
      hide Step, MatureHolding, FlowOf;
      StepMaturesExactly(Run(start, ops[..n]), ops[n], a, limit);
    }
  }

  /** Nothing stays locked either: once `complete_unbonding` has been called at the greatest
      height so far, exactly what was asked for a full period before that height, and all of
      it, has been released. */
  lemma ReleasedInTime(start: Vault, ops: seq<Op>, a: Address, limit: Height)
    requires VaultOk(start) && start.stakes == map[]
    requires forall i :: 0 <= i < |ops| && ops[i].CompleteUnbonding? ==> ops[i].height <= limit
    requires ops != [] && ops[|ops| - 1] == CompleteUnbonding(a, limit)
    ensures ReleasedBy(start, ops, a, limit) == BegunBefore(start, ops, a, limit)
  {
    RunMaturesExactly(start, ops, a, limit);
    var v := Run(start, ops[..|ops| - 1]);
    if a in v.stakes {
      NoneMatureLeft(v.stakes[a].unbonding, limit);
    }
    hide ReleasedBy, BegunBefore, Locked, Mature;
  }
}
