/** The finality tracker: one vote per voter and block, a quorum test by floor
    division, and what it takes for two blocks both to be justified. */
module Finality {
  import opened Types
  import opened Arithmetic
  import opened MapSums

  datatype Status = Pending | Justified | Finalized | Orphaned

  datatype FinalityError = BlockNotFound | DuplicateVote | AlreadyFinalized

  datatype Vote = Vote(voter: Address, blockHash: Hash, height: Height, round: nat)

  datatype Block = Block(height: Height, votes: seq<Vote>, votePower: nat, status: Status)

  const ZERO_HASH: Hash := 0

  datatype Tracker = Tracker(
    blocks: map<Hash, Block>,
    finalizedHeight: Height,
    finalizedHash: Hash,
    quorumBps: nat,
    totalPower: nat)

  datatype Op =
    | Register(hash: Hash, height: Height)
    | AddVote(vote: Vote, power: nat)
    | SetTotalPower(total: nat)
    | Finalize(target: Hash)
    | PruneBelow(floor: Height)

  type Outcome = Result<Option<Status>, FinalityError>

  predicate HasVoted(votes: seq<Vote>, voter: Address) {
    exists i :: 0 <= i < |votes| && votes[i].voter == voter
  }

  predicate QuorumReached(votePower: nat, totalPower: nat, quorumBps: nat) {
    totalPower != 0 && Div(Sat(votePower * BPS), totalPower) >= quorumBps
  }

  function Accept(b: Block, vote: Vote, power: nat, t: Tracker): Block {
    var votePower := Sat(b.votePower + power);
    b.(votes := b.votes + [vote],
       votePower := votePower,
       status := if b.status.Pending? && QuorumReached(votePower, t.totalPower, t.quorumBps)
                 then Justified else b.status)
  }

  function Step(t: Tracker, op: Op): (Tracker, Outcome) {
    match op
    case Register(hash, height) =>
      (if hash in t.blocks then t
       else t.(blocks := t.blocks[hash := Block(height, [], 0, Pending)]),
       Ok(None))
    case AddVote(vote, power) =>
      var hash := vote.blockHash;
      if hash !in t.blocks then (t, Err(BlockNotFound))
      else if t.blocks[hash].status.Finalized? then (t, Err(AlreadyFinalized))
      else if HasVoted(t.blocks[hash].votes, vote.voter) then (t, Err(DuplicateVote))
      else
        var b := Accept(t.blocks[hash], vote, power, t);
        (t.(blocks := t.blocks[hash := b]), Ok(Some(b.status)))
    case SetTotalPower(total) => (t.(totalPower := total), Ok(None))
    case Finalize(hash) =>
      if hash !in t.blocks then (t, Err(BlockNotFound))
      else if t.blocks[hash].status.Finalized? then (t, Err(AlreadyFinalized))
      else
        var b := t.blocks[hash].(status := Finalized);
        var t' := t.(blocks := t.blocks[hash := b]);
        (if b.height >= t.finalizedHeight
         then t'.(finalizedHeight := b.height, finalizedHash := hash) else t',
         Ok(None))
    case PruneBelow(floor) =>
      (t.(blocks := map h | h in t.blocks && t.blocks[h].height >= floor :: t.blocks[h]), Ok(None))
  }

  function Start(quorumBps: nat): Tracker {
    Tracker(map[], 0, ZERO_HASH, quorumBps, 0)
  }

  class FinalityTracker {
    var blocks: map<Hash, Block>
    var finalizedHeight: Height
    var finalizedHash: Hash
    const quorumThresholdBps: nat
    var totalValidatorPower: nat

    ghost function State(): Tracker
      reads this
    {
      Tracker(blocks, finalizedHeight, finalizedHash, quorumThresholdBps, totalValidatorPower)
    }

    constructor (quorumBps: nat)
      ensures State() == Start(quorumBps)
    {
      blocks, finalizedHeight, finalizedHash := map[], 0, ZERO_HASH;
      quorumThresholdBps, totalValidatorPower := quorumBps, 0;
    }

    method RegisterBlock(hash: Hash, height: Height) returns (r: Outcome)
      modifies this
      ensures (State(), r) == Step(old(State()), Register(hash, height))
    {
      if hash !in blocks {
        blocks := blocks[hash := Block(height, [], 0, Pending)];
      }
      return Ok(None);
    }

    method CheckQuorumInner(block: Block) returns (reached: bool)
      ensures reached <==> QuorumReached(block.votePower, totalValidatorPower, quorumThresholdBps)
    {
      if totalValidatorPower == 0 {
        return false;
      }
      var scaled := Div(Sat(block.votePower * BPS), totalValidatorPower);
      return scaled >= quorumThresholdBps;
    }

    method CheckQuorum(hash: Hash) returns (reached: bool)
      ensures reached <==> hash in blocks
                           && QuorumReached(blocks[hash].votePower, totalValidatorPower, quorumThresholdBps)
    {
      if hash !in blocks {
        return false;
      }
      reached := CheckQuorumInner(blocks[hash]);
    }

    method AddVoteTo(vote: Vote, power: nat) returns (r: Outcome)
      modifies this
      ensures (State(), r) == Step(old(State()), AddVote(vote, power))
    {
      var hash := vote.blockHash;
      if hash !in blocks {
        return Err(BlockNotFound);
      }
      var block := blocks[hash];
      if block.status.Finalized? {
        return Err(AlreadyFinalized);
      }
      if exists i :: 0 <= i < |block.votes| && block.votes[i].voter == vote.voter {
        return Err(DuplicateVote);
      }
      block := block.(votePower := Sat(block.votePower + power));
      block := block.(votes := block.votes + [vote]);
      blocks := blocks[hash := block];
      var quorumReached := false;
      if blocks[hash].status.Pending? {
        quorumReached := CheckQuorumInner(blocks[hash]);
      }
      if quorumReached {
        blocks := blocks[hash := blocks[hash].(status := Justified)];
      }
      assert blocks == old(blocks)[hash := blocks[hash]];
      return Ok(Some(blocks[hash].status));
    }

    method SetPower(total: nat)
      modifies this
      ensures State() == Step(old(State()), SetTotalPower(total)).0
    {
      totalValidatorPower := total;
    }

    method FinalizeBlock(hash: Hash) returns (r: Outcome)
      modifies this
      ensures (State(), r) == Step(old(State()), Finalize(hash))
    {
      if hash !in blocks {
        return Err(BlockNotFound);
      }
      if blocks[hash].status.Finalized? {
        return Err(AlreadyFinalized);
      }
      blocks := blocks[hash := blocks[hash].(status := Finalized)];
      if blocks[hash].height >= finalizedHeight {
        finalizedHeight := blocks[hash].height;
        finalizedHash := hash;
      }
      return Ok(None);
    }

    method Prune(floor: Height)
      modifies this
      ensures State() == Step(old(State()), PruneBelow(floor)).0
    {
      blocks := map h | h in blocks && blocks[h].height >= floor :: blocks[h];
    }
  }

  // ---------------------------------------------------------------------
  // Runs
  // ---------------------------------------------------------------------

  function Run(quorumBps: nat, ops: seq<Op>): Tracker {
    if ops == [] then Start(quorumBps)
    else Step(Run(quorumBps, ops[..|ops| - 1]), ops[|ops| - 1]).0
  }

  ghost function VotersOf(votes: seq<Vote>): set<Address> {
    set i | 0 <= i < |votes| :: votes[i].voter
  }

  ghost function Voters(b: Block): set<Address> {
    VotersOf(b.votes)
  }

  lemma PushVoter(votes: seq<Vote>, vote: Vote)
    ensures VotersOf(votes + [vote]) == VotersOf(votes) + {vote.voter}
    ensures HasVoted(votes, vote.voter) <==> vote.voter in VotersOf(votes)
  {
    var votes' := votes + [vote];
    assert votes'[|votes|] == vote;
    forall a | a in VotersOf(votes)
      ensures a in VotersOf(votes')
    {
      var i :| 0 <= i < |votes| && votes[i].voter == a;
      assert votes'[i].voter == a;
    }
  }

  /** The caller looks every voter up in one power table, and whenever it sets the
      total it sets the table's sum. */
  ghost predicate FollowsTable(ops: seq<Op>, power: map<Address, nat>) {
    forall i :: 0 <= i < |ops| ==>
      && (ops[i].AddVote? ==> ops[i].vote.voter in power && ops[i].power == power[ops[i].vote.voter])
      && (ops[i].SetTotalPower? ==> ops[i].total == Total(power))
  }

  /** What holds of every block while the callers follow the table. */
  ghost predicate BlockOk(b: Block, power: map<Address, nat>, quorumBps: nat) {
    && (forall i, j :: 0 <= i < j < |b.votes| ==> b.votes[i].voter != b.votes[j].voter)
    && Voters(b) <= power.Keys
    && b.votePower == Sum(power, Voters(b))
    && (b.status.Justified? ==> QuorumReached(b.votePower, Total(power), quorumBps))
  }

  ghost predicate TrackerOk(t: Tracker, power: map<Address, nat>, quorumBps: nat) {
    && t.quorumBps == quorumBps
    && (t.totalPower == 0 || t.totalPower == Total(power))
    && forall h :: h in t.blocks ==> BlockOk(t.blocks[h], power, quorumBps)
  }

  lemma QuorumMonotone(votePower: nat, more: nat, totalPower: nat, quorumBps: nat)
    requires votePower <= more && QuorumReached(votePower, totalPower, quorumBps)
    ensures QuorumReached(more, totalPower, quorumBps)
  {
    DivMono(Sat(votePower * BPS), Sat(more * BPS), totalPower);
  }

  lemma AddVoterPower(power: map<Address, nat>, voters: set<Address>, v: Address)
    requires voters <= power.Keys && v in power && v !in voters
    ensures Sum(power, voters + {v}) == Sum(power, voters) + power[v] <= Total(power)
  {
    SumSplit(power, voters + {v}, v);
    assert voters + {v} - {v} == voters;
    SumMonotone(power, voters + {v}, power.Keys);
  }

  lemma DistinctPush(votes: seq<Vote>, vote: Vote)
    requires forall i, j :: 0 <= i < j < |votes| ==> votes[i].voter != votes[j].voter
    requires !HasVoted(votes, vote.voter)
    ensures forall i, j :: 0 <= i < j < |votes + [vote]| ==> (votes + [vote])[i].voter != (votes + [vote])[j].voter
  {
  }

  lemma NoQuorumWithoutPower(votePower: nat, totalPower: nat, quorumBps: nat)
    ensures totalPower == 0 ==> !QuorumReached(votePower, totalPower, quorumBps)
  {
  }

  lemma AcceptKeepsBlock(b: Block, vote: Vote, t: Tracker, power: map<Address, nat>)
    requires Total(power) <= U128_MAX
    requires BlockOk(b, power, t.quorumBps) && TrackerOk(t, power, t.quorumBps)
    requires vote.voter in power && !HasVoted(b.votes, vote.voter)
    ensures BlockOk(Accept(b, vote, power[vote.voter], t), power, t.quorumBps)
    ensures Voters(Accept(b, vote, power[vote.voter], t)) == Voters(b) + {vote.voter}
  {
    hide QuorumReached, VotersOf, HasVoted;
    var b' := Accept(b, vote, power[vote.voter], t);
    PushVoter(b.votes, vote);
    AddVoterPower(power, Voters(b), vote.voter);
    assert forall i, j :: 0 <= i < j < |b'.votes| ==> b'.votes[i].voter != b'.votes[j].voter by {
      DistinctPush(b.votes, vote);
    }
    NoQuorumWithoutPower(b'.votePower, t.totalPower, t.quorumBps);
    if b.status.Justified? {
      QuorumMonotone(b.votePower, b'.votePower, Total(power), t.quorumBps);
    }
  }

  lemma StepKeepsTracker(t: Tracker, op: Op, power: map<Address, nat>)
    requires Total(power) <= U128_MAX
    requires TrackerOk(t, power, t.quorumBps) && FollowsTable([op], power)
    ensures TrackerOk(Step(t, op).0, power, t.quorumBps)
  {
    assert [op][0] == op;
    match op
    case AddVote(vote, p) =>
      if vote.blockHash in t.blocks && !HasVoted(t.blocks[vote.blockHash].votes, vote.voter) {
        AcceptKeepsBlock(t.blocks[vote.blockHash], vote, t, power);
      }
    case Register(hash, height) =>
      var b := Block(height, [], 0, Pending);
      assert Voters(b) == {};
    case Finalize(hash) =>
      if hash in t.blocks {
        var b := t.blocks[hash];
        assert Voters(b.(status := Finalized)) == Voters(b);
      }
    case _ =>
  }

  lemma {:induction false} RunKeepsTracker(quorumBps: nat, ops: seq<Op>, power: map<Address, nat>)
    requires Total(power) <= U128_MAX && FollowsTable(ops, power)
    ensures TrackerOk(Run(quorumBps, ops), power, quorumBps)
  {
    if ops != [] {
      var n := |ops| - 1;
      RunKeepsTracker(quorumBps, ops[..n], power);
      assert FollowsTable([ops[n]], power);
      hide Step;
      StepKeepsTracker(Run(quorumBps, ops[..n]), ops[n], power);
    }
  }

  /** Despite the floor and the saturation, a quorum really is the stated share of the
      total power; and short of saturation, that share is always a quorum. */
  lemma QuorumIsShare(votePower: nat, totalPower: nat, quorumBps: nat)
    ensures QuorumReached(votePower, totalPower, quorumBps)
        ==> totalPower > 0 && quorumBps * totalPower <= votePower * BPS
    ensures votePower * BPS <= U128_MAX && totalPower > 0 && quorumBps * totalPower <= votePower * BPS
        ==> QuorumReached(votePower, totalPower, quorumBps)
  {
    if totalPower > 0 {
      DivAtLeast(Sat(votePower * BPS), totalPower, quorumBps);
    }
  }

  lemma Overlap(x: nat, y: nat, union: nat, both: nat, total: nat, bps: nat)
    requires x + y == union + both && union <= total
    requires bps * total <= x * BPS && bps * total <= y * BPS
    ensures (2 * bps - BPS) * total <= BPS * both
  {
    assert (2 * bps - BPS) * total == 2 * (bps * total) - BPS * total;
  }

  lemma {:induction false} RunKeepsThreshold(quorumBps: nat, ops: seq<Op>)
    ensures Run(quorumBps, ops).quorumBps == quorumBps
  {
    if ops != [] {
      RunKeepsThreshold(quorumBps, ops[..|ops| - 1]);
      hide Accept, QuorumReached, HasVoted;
    }
  }

  ghost predicate FinalizedQuorate(t: Tracker, total: nat) {
    forall h :: h in t.blocks && t.blocks[h].status.Finalized? ==>
      QuorumReached(t.blocks[h].votePower, total, t.quorumBps)
  }

  /** What `finalize` would have to check: an accepted call meets a block with a quorum. */
  predicate FinalizesQuorum(t: Tracker, op: Op, total: nat) {
    op.Finalize? && op.target in t.blocks && !t.blocks[op.target].status.Finalized?
    ==> QuorumReached(t.blocks[op.target].votePower, total, t.quorumBps)
  }

  /** What its documentation asks for: an accepted call meets a justified block. */
  predicate FinalizesJustified(t: Tracker, op: Op) {
    op.Finalize? && op.target in t.blocks && !t.blocks[op.target].status.Finalized?
    ==> t.blocks[op.target].status.Justified?
  }

  /** Every accepted finalization of the run met a quorum of this total. */
  ghost predicate FinalizesWell(quorumBps: nat, ops: seq<Op>, total: nat) {
    forall i :: 0 <= i < |ops| ==> FinalizesQuorum(Run(quorumBps, ops[..i]), ops[i], total)
  }

  lemma FinalizeStep(t: Tracker, op: Op, total: nat)
    requires FinalizedQuorate(t, total)
    ensures FinalizedQuorate(Step(t, op).0, total) <==> FinalizesQuorum(t, op, total)
  {
    hide QuorumReached, HasVoted;
    var t' := Step(t, op).0;
    if op.Finalize? && op.target in t.blocks {
      assert t'.blocks[op.target].votePower == t.blocks[op.target].votePower;
    } else {
      assert forall h :: h in t'.blocks && t'.blocks[h].status.Finalized? ==>
          h in t.blocks && t'.blocks[h] == t.blocks[h];
    }
  }

  lemma RunNext(quorumBps: nat, ops: seq<Op>, i: nat)
    requires i < |ops|
    ensures Run(quorumBps, ops[..i + 1]) == Step(Run(quorumBps, ops[..i]), ops[i]).0
  {
    assert ops[..i + 1][..i] == ops[..i];
  }

  lemma {:induction false} QuorateUpTo(quorumBps: nat, ops: seq<Op>, total: nat, k: nat)
    requires k <= |ops| && FinalizesWell(quorumBps, ops, total)
    ensures FinalizedQuorate(Run(quorumBps, ops[..k]), total)
  {
    hide FinalizesQuorum, Step;
    if k > 0 {
      QuorateUpTo(quorumBps, ops, total, k - 1);
      RunNext(quorumBps, ops, k - 1);
      hide FinalizedQuorate;
      assert FinalizesQuorum(Run(quorumBps, ops[..k - 1]), ops[k - 1], total);
      FinalizeStep(Run(quorumBps, ops[..k - 1]), ops[k - 1], total);
    }
  }

  /** When finality means what it should, for every run and every total: all finalized blocks
      of all states on the way have a quorum exactly when every accepted finalization met one. */
  lemma FinalizedQuorateIff(quorumBps: nat, ops: seq<Op>, total: nat)
    ensures (forall k :: 0 <= k <= |ops| ==> FinalizedQuorate(Run(quorumBps, ops[..k]), total))
        <==> FinalizesWell(quorumBps, ops, total)
  {
    hide FinalizedQuorate, FinalizesQuorum, Step;
    if FinalizesWell(quorumBps, ops, total) {
      forall k | 0 <= k <= |ops|
        ensures FinalizedQuorate(Run(quorumBps, ops[..k]), total)
      {
        QuorateUpTo(quorumBps, ops, total, k);
      }
    }
    if forall k :: 0 <= k <= |ops| ==> FinalizedQuorate(Run(quorumBps, ops[..k]), total) {
      forall i | 0 <= i < |ops|
        ensures FinalizesQuorum(Run(quorumBps, ops[..i]), ops[i], total)
      {
        RunNext(quorumBps, ops, i);
        assert FinalizedQuorate(Run(quorumBps, ops[..i]), total);
        assert FinalizedQuorate(Run(quorumBps, ops[..i + 1]), total);
        FinalizeStep(Run(quorumBps, ops[..i]), ops[i], total);
      }
    }
  }

  /** A caller that follows the table and finalizes justified blocks only, as documented,
      meets a quorum every time. */
  lemma JustifiedSuffices(quorumBps: nat, ops: seq<Op>, power: map<Address, nat>)
    requires Total(power) <= U128_MAX && FollowsTable(ops, power)
    requires forall i :: 0 <= i < |ops| ==> FinalizesJustified(Run(quorumBps, ops[..i]), ops[i])
    ensures FinalizesWell(quorumBps, ops, Total(power))
  {
    forall i | 0 <= i < |ops|
      ensures FinalizesQuorum(Run(quorumBps, ops[..i]), ops[i], Total(power))
    {
      RunKeepsTracker(quorumBps, ops[..i], power);
      hide Run, Total, Sum, QuorumReached;
      assert FinalizesJustified(Run(quorumBps, ops[..i]), ops[i]);
    }
  }

  /** The block at `h` after `k` operations is justified, or finalized in a run whose
      finalizations all met a quorum. */
  ghost predicate Committed(quorumBps: nat, ops: seq<Op>, total: nat, k: nat, h: Hash)
    requires k <= |ops|
  {
    var blocks := Run(quorumBps, ops[..k]).blocks;
    && h in blocks
    && (blocks[h].status.Justified? || (blocks[h].status.Finalized? && FinalizesWell(quorumBps, ops, total)))
  }

  /** The voters of a committed block are in the table and hold the stated share. */
  lemma CommittedShare(quorumBps: nat, ops: seq<Op>, power: map<Address, nat>, k: nat, h: Hash)
    requires Total(power) <= U128_MAX && FollowsTable(ops, power) && k <= |ops|
    requires Committed(quorumBps, ops, Total(power), k, h)
    ensures var b := Run(quorumBps, ops[..k]).blocks[h];
            && Voters(b) <= power.Keys && Total(power) > 0
            && quorumBps * Total(power) <= Sum(power, Voters(b)) * BPS
  {
    var total, t := Total(power), Run(quorumBps, ops[..k]);
    RunKeepsTracker(quorumBps, ops[..k], power);
    RunKeepsThreshold(quorumBps, ops[..k]);
    if t.blocks[h].status.Finalized? {
      QuorateUpTo(quorumBps, ops, total, k);
    }
    hide Run, Sum, Total, FollowsTable;
    assert QuorumReached(t.blocks[h].votePower, total, quorumBps);
    QuorumIsShare(t.blocks[h].votePower, total, quorumBps);
  }

  /** Two blocks that are justified or finalized at any two moments of a run, even if one is
      pruned before the other is voted for, were both voted for by validators holding at
      least twice the quorum minus the whole. */
  lemma QuorumIntersection(quorumBps: nat, ops: seq<Op>, power: map<Address, nat>, j: nat, k: nat, a: Hash, b: Hash)
    requires Total(power) <= U128_MAX && FollowsTable(ops, power) && j <= |ops| && k <= |ops|
    requires Committed(quorumBps, ops, Total(power), j, a) && Committed(quorumBps, ops, Total(power), k, b)
    ensures var both := Voters(Run(quorumBps, ops[..j]).blocks[a]) * Voters(Run(quorumBps, ops[..k]).blocks[b]);
            && both <= power.Keys
            && (2 * quorumBps - BPS) * Total(power) <= BPS * Sum(power, both)
  {
    CommittedShare(quorumBps, ops, power, j, a);
    CommittedShare(quorumBps, ops, power, k, b);
    hide Run, Committed, FollowsTable, Voters;
    var va, vb := Voters(Run(quorumBps, ops[..j]).blocks[a]), Voters(Run(quorumBps, ops[..k]).blocks[b]);
    SumInclusionExclusion(power, va, vb);
    SumMonotone(power, va + vb, power.Keys);
    Overlap(Sum(power, va), Sum(power, vb), Sum(power, va + vb), Sum(power, va * vb), Total(power), quorumBps);
  }

  lemma MoreThanThird(total: nat, both: nat)
    requires total > 0 && (2 * 6667 - BPS) * total <= BPS * both
    ensures total < 3 * both
  {
  }

  /** At the default threshold the common voters hold more than a third. */
  lemma TwoThirdsIntersection(ops: seq<Op>, power: map<Address, nat>, j: nat, k: nat, a: Hash, b: Hash)
    requires Total(power) <= U128_MAX && FollowsTable(ops, power) && j <= |ops| && k <= |ops|
    requires Committed(6667, ops, Total(power), j, a) && Committed(6667, ops, Total(power), k, b)
    ensures var both := Voters(Run(6667, ops[..j]).blocks[a]) * Voters(Run(6667, ops[..k]).blocks[b]);
            both <= power.Keys && Total(power) < 3 * Sum(power, both)
  {
    QuorumIntersection(6667, ops, power, j, k, a, b);
    CommittedShare(6667, ops, power, j, a);
    hide Run, Committed, FollowsTable, Voters, Sum, Total;
    var both := Voters(Run(6667, ops[..j]).blocks[a]) * Voters(Run(6667, ops[..k]).blocks[b]);
    MoreThanThird(Total(power), Sum(power, both));
  }

  /** When a vote is accepted: for a known block that is not final, from a voter whose vote
      the block does not hold yet. A refused vote changes nothing. */
  lemma VoteOkIff(t: Tracker, vote: Vote, power: nat)
    ensures var (t', r) := Step(t, AddVote(vote, power));
            && (r.Ok? <==> vote.blockHash in t.blocks && !t.blocks[vote.blockHash].status.Finalized?
                           && vote.voter !in Voters(t.blocks[vote.blockHash]))
            && (r.Err? ==> t' == t)
            && (r.Ok? ==>
                  && vote.blockHash in t'.blocks
                  && t'.blocks[vote.blockHash].votes == t.blocks[vote.blockHash].votes + [vote]
                  && r.value == Some(t'.blocks[vote.blockHash].status))
  {
    hide QuorumReached, HasVoted, VotersOf;
    if vote.blockHash in t.blocks {
      PushVoter(t.blocks[vote.blockHash].votes, vote);
    }
  }

  /** Which refusal a vote or a finalization meets. */
  lemma ErrorsMean(t: Tracker, vote: Vote, power: nat, h: Hash)
    ensures var r, hash := Step(t, AddVote(vote, power)).1, vote.blockHash;
            && (r == Err(BlockNotFound) <==> hash !in t.blocks)
            && (r == Err(AlreadyFinalized) <==> hash in t.blocks && t.blocks[hash].status.Finalized?)
            && (r == Err(DuplicateVote) <==>
                  hash in t.blocks && !t.blocks[hash].status.Finalized? && vote.voter in Voters(t.blocks[hash]))
    ensures var r := Step(t, Finalize(h)).1;
            && (r == Err(BlockNotFound) <==> h !in t.blocks)
            && (r == Err(AlreadyFinalized) <==> h in t.blocks && t.blocks[h].status.Finalized?)
            && (r.Ok? <==> h in t.blocks && !t.blocks[h].status.Finalized?)
  {
    VoteOkIff(t, vote, power);
    hide QuorumReached, HasVoted, VotersOf;
  }

  /** Justification is neither missed nor premature: in a run that follows the table, an
      accepted vote on a pending block justifies it exactly when the total power has been set
      and the voters, this one included, hold the stated share of it. */
  lemma VoteJustifiesIff(quorumBps: nat, ops: seq<Op>, power: map<Address, nat>, vote: Vote)
    requires Total(power) * BPS <= U128_MAX
    requires FollowsTable(ops, power) && vote.voter in power
    requires var t := Run(quorumBps, ops);
             && vote.blockHash in t.blocks && t.blocks[vote.blockHash].status.Pending?
             && vote.voter !in Voters(t.blocks[vote.blockHash])
    ensures var (t', r) := Step(Run(quorumBps, ops), AddVote(vote, power[vote.voter]));
            && vote.blockHash in t'.blocks
            && var b := t'.blocks[vote.blockHash];
               && Voters(b) == Voters(Run(quorumBps, ops).blocks[vote.blockHash]) + {vote.voter}
               && Voters(b) <= power.Keys && r == Ok(Some(b.status))
               && b.status == if Run(quorumBps, ops).totalPower > 0
                                 && quorumBps * Total(power) <= BPS * Sum(power, Voters(b))
                              then Justified else Pending
  {
    RunKeepsTracker(quorumBps, ops, power);
    var t := Run(quorumBps, ops);
    hide Run, FollowsTable, Sum, Total, QuorumReached, VotersOf, HasVoted;
    var before := t.blocks[vote.blockHash];
    PushVoter(before.votes, vote);
    AcceptKeepsBlock(before, vote, t, power);
    var b := Accept(before, vote, power[vote.voter], t);
    SumMonotone(power, Voters(b), power.Keys);
    QuorumIsShare(b.votePower, t.totalPower, quorumBps);
  }

  lemma OneVoteJustifies(a: Op, b: Op, c: Op) returns (t: Tracker)
    requires a == SetTotalPower(1) && b == Register(7, 1) && c == AddVote(Vote(1, 7, 1, 0), 1)
    ensures t == Step(Step(Step(Run(6667, []), a).0, b).0, c).0
    ensures 7 in t.blocks && t.blocks[7].status.Justified? && t.blocks[7].votePower == 1
  {
    assert QuorumReached(1, 1, 6667);
    hide QuorumReached;
    var t1 := Step(Start(6667), a).0;
    var t2 := Step(t1, b).0;
    assert t2.blocks[7] == Block(1, [], 0, Pending);
    t := Step(t2, c).0;
  }

  lemma SetTotalKeepsBlocks(t: Tracker, total: nat)
    ensures Step(t, SetTotalPower(total)).0 == t.(totalPower := total)
  {
  }

  lemma RunPush(quorumBps: nat, ops: seq<Op>, op: Op)
    ensures Run(quorumBps, ops + [op]) == Step(Run(quorumBps, ops), op).0
  {
    assert (ops + [op])[..|ops|] == ops;
  }

  /** Without the table the claim fails: a total lowered for one vote and raised
      again leaves a block justified by a hundredth of the power. */
  lemma JustifiedBySmallMinority()
    ensures var ops := [SetTotalPower(1), Register(7, 1), AddVote(Vote(1, 7, 1, 0), 1), SetTotalPower(100)];
            var t := Run(6667, ops);
            && 7 in t.blocks && t.blocks[7].status.Justified?
            && t.totalPower == 100 && t.blocks[7].votePower == 1
  {
    var a, b, c, d := SetTotalPower(1), Register(7, 1), AddVote(Vote(1, 7, 1, 0), 1), SetTotalPower(100);
    hide QuorumReached, Accept;
    var t := OneVoteJustifies(a, b, c);
    SetTotalKeepsBlocks(t, 100);
    hide Step;
    assert [] + [a] == [a] && [a] + [b] == [a, b] && [a, b] + [c] == [a, b, c] && [a, b, c] + [d] == [a, b, c, d];
    RunPush(6667, [], a);
    RunPush(6667, [a], b);
    RunPush(6667, [a, b], c);
    RunPush(6667, [a, b, c], d);
    hide Run;
  }

  // ---------------------------------------------------------------------
  // Statuses and the finalized height
  // ---------------------------------------------------------------------

  /** The order in which a block's status may move. */
  function Rank(s: Status): nat {
    match s
    case Pending => 0
    case Justified => 1
    case Finalized => 2
    case Orphaned => 3
  }

  /** No finalized block lies above the finalized height, and no block is ever orphaned. */
  ghost predicate FinalizedOk(t: Tracker) {
    && (forall h :: h in t.blocks && t.blocks[h].status.Finalized? ==> t.blocks[h].height <= t.finalizedHeight)
    && (forall h :: h in t.blocks ==> !t.blocks[h].status.Orphaned?)
  }

  lemma AcceptIsMonotone(b: Block, vote: Vote, power: nat, t: Tracker)
    requires !b.status.Finalized?
    ensures var b' := Accept(b, vote, power, t);
            && b'.height == b.height && b.votes <= b'.votes
            && (b'.status == b.status || (b.status.Pending? && b'.status.Justified?))
  {
  }

  lemma StepKeepsFinalized(t: Tracker, op: Op)
    requires FinalizedOk(t)
    ensures FinalizedOk(Step(t, op).0)
    ensures t.finalizedHeight <= Step(t, op).0.finalizedHeight
  {
    hide QuorumReached, Accept, HasVoted;
    if op.AddVote? && op.vote.blockHash in t.blocks && !t.blocks[op.vote.blockHash].status.Finalized? {
      AcceptIsMonotone(t.blocks[op.vote.blockHash], op.vote, op.power, t);
    }
  }

  /** One block before and after an operation that keeps it. */
  ghost predicate BlockMoves(b: Block, b': Block) {
    && b'.height == b.height
    && b.votes <= b'.votes
    && Rank(b.status) <= Rank(b'.status)
    && (b.status.Finalized? ==> b' == b)
  }

  /** Under any single operation the finalized height never falls, a surviving block
      keeps its height and its earlier votes, never loses status, and does not change
      at all once finalized. */
  lemma StepIsMonotone(t: Tracker, op: Op)
    requires FinalizedOk(t)
    ensures var t' := Step(t, op).0;
            && t.finalizedHeight <= t'.finalizedHeight
            && forall h :: h in t.blocks && h in t'.blocks ==> BlockMoves(t.blocks[h], t'.blocks[h])
  {
    StepKeepsFinalized(t, op);
    hide QuorumReached, Accept, HasVoted;
    if op.AddVote? && op.vote.blockHash in t.blocks && !t.blocks[op.vote.blockHash].status.Finalized? {
      AcceptIsMonotone(t.blocks[op.vote.blockHash], op.vote, op.power, t);
    }
  }

  lemma {:induction false} FinalizedHeightIsHighest(quorumBps: nat, ops: seq<Op>)
    ensures FinalizedOk(Run(quorumBps, ops))
  {
    hide Step;
    if ops != [] {
      FinalizedHeightIsHighest(quorumBps, ops[..|ops| - 1]);
      hide FinalizedOk;
      StepKeepsFinalized(Run(quorumBps, ops[..|ops| - 1]), ops[|ops| - 1]);
    }
  }

  ghost predicate Prunes(op: Op, b: Block) {
    op.PruneBelow? && op.floor > b.height
  }

  lemma FinalizedStays(t: Tracker, op: Op, h: Hash)
    requires h in t.blocks && t.blocks[h].status.Finalized?
    ensures var t' := Step(t, op).0;
            if Prunes(op, t.blocks[h]) then h !in t'.blocks
            else h in t'.blocks && t'.blocks[h] == t.blocks[h]
  {
    hide QuorumReached, Accept, HasVoted;
  }

  lemma {:induction false} FinalizedUnpruned(quorumBps: nat, before: seq<Op>, later: seq<Op>, h: Hash)
    requires h in Run(quorumBps, before).blocks && Run(quorumBps, before).blocks[h].status.Finalized?
    requires forall i :: 0 <= i < |later| ==> !Prunes(later[i], Run(quorumBps, before).blocks[h])
    ensures h in Run(quorumBps, before + later).blocks
    ensures Run(quorumBps, before + later).blocks[h] == Run(quorumBps, before).blocks[h]
  {
    if later == [] {
      assert before + later == before;
    } else {
      var n := |later| - 1;
      FinalizedUnpruned(quorumBps, before, later[..n], h);
      assert (before + later)[..|before + later| - 1] == before + later[..n];
      hide Step, Prunes;
      FinalizedStays(Run(quorumBps, before + later[..n]), later[n], h);
    }
  }

  /** Finality over runs: a finalized block stays, unchanged to its last vote, through every
      later state exactly when no pruning above its height happens. */
  lemma FinalizedUntilPruned(quorumBps: nat, before: seq<Op>, later: seq<Op>, h: Hash)
    requires h in Run(quorumBps, before).blocks && Run(quorumBps, before).blocks[h].status.Finalized?
    ensures var b := Run(quorumBps, before).blocks[h];
            (forall k :: 0 <= k <= |later| ==>
               var blocks := Run(quorumBps, before + later[..k]).blocks; h in blocks && blocks[h] == b)
            <==> !exists i :: 0 <= i < |later| && Prunes(later[i], b)
  {
    var b := Run(quorumBps, before).blocks[h];
    hide Run, Step;
    if i :| 0 <= i < |later| && Prunes(later[i], b) {
      assert before + later[..i + 1] == before + later[..i] + [later[i]];
      RunPush(quorumBps, before + later[..i], later[i]);
      var t := Run(quorumBps, before + later[..i]);
      if h in t.blocks && t.blocks[h] == b {
        FinalizedStays(t, later[i], h);
        assert h !in Run(quorumBps, before + later[..i + 1]).blocks;
      }
    } else {
      forall k | 0 <= k <= |later|
        ensures var blocks := Run(quorumBps, before + later[..k]).blocks; h in blocks && blocks[h] == b
      {
        FinalizedUnpruned(quorumBps, before, later[..k], h);
      }
    }
  }

  /** A pruned finalized block can come back as a pending one without votes. */
  lemma PrunedThenPending(t: Tracker, h: Hash)
    requires h in t.blocks && t.blocks[h].status.Finalized?
    ensures var height := t.blocks[h].height;
            var t' := Step(Step(t, PruneBelow(height + 1)).0, Register(h, height)).0;
            h in t'.blocks && t'.blocks[h] == Block(height, [], 0, Pending)
  {
  }

  /** No justification is asked for: any block can be finalized without a single vote. */
  lemma FinalizedWithoutVote(t: Tracker, h: Hash, height: Height)
    requires h !in t.blocks
    ensures var (t', r) := Step(Step(t, Register(h, height)).0, Finalize(h));
            r.Ok? && h in t'.blocks && t'.blocks[h] == Block(height, [], 0, Finalized)
  {
  }

  /** The `k`-th operation is an accepted finalization of `h`, a block of this height. */
  ghost predicate FinalizesAt(quorumBps: nat, ops: seq<Op>, k: nat, h: Hash, height: Height)
    requires k < |ops|
  {
    var t := Run(quorumBps, ops[..k]);
    && ops[k] == Finalize(h) && h in t.blocks && !t.blocks[h].status.Finalized?
    && t.blocks[h].height == height
  }

  /** `height` and `h` are those of the last finalization of a highest block so far. */
  ghost predicate HighestFinalized(quorumBps: nat, ops: seq<Op>, h: Hash, height: Height) {
    exists k: nat :: k < |ops| && FinalizesAt(quorumBps, ops, k, h, height)
                && forall j: nat, g: Hash, other: Height :: j < |ops| && FinalizesAt(quorumBps, ops, j, g, other) ==>
                     if j <= k then other <= height else other < height
  }

  ghost predicate NoneFinalized(quorumBps: nat, ops: seq<Op>) {
    forall j: nat, g: Hash, other: Height :: j < |ops| ==> !FinalizesAt(quorumBps, ops, j, g, other)
  }

  lemma SameHistory(quorumBps: nat, ops: seq<Op>, op: Op, j: nat, g: Hash, other: Height)
    requires j < |ops|
    ensures FinalizesAt(quorumBps, ops + [op], j, g, other) <==> FinalizesAt(quorumBps, ops, j, g, other)
  {
    assert (ops + [op])[..j] == ops[..j];
  }

  lemma LastFinalizes(quorumBps: nat, ops: seq<Op>, op: Op, g: Hash, other: Height)
    ensures FinalizesAt(quorumBps, ops + [op], |ops|, g, other)
        <==> var t := Run(quorumBps, ops);
             op == Finalize(g) && g in t.blocks && !t.blocks[g].status.Finalized? && t.blocks[g].height == other
  {
    assert (ops + [op])[..|ops|] == ops;
  }

  lemma FinalizedHeadStep(quorumBps: nat, ops: seq<Op>, op: Op)
    requires var t := Run(quorumBps, ops);
             if NoneFinalized(quorumBps, ops) then t.finalizedHeight == 0 && t.finalizedHash == ZERO_HASH
             else HighestFinalized(quorumBps, ops, t.finalizedHash, t.finalizedHeight)
    ensures var t := Run(quorumBps, ops + [op]);
            if NoneFinalized(quorumBps, ops + [op]) then t.finalizedHeight == 0 && t.finalizedHash == ZERO_HASH
            else HighestFinalized(quorumBps, ops + [op], t.finalizedHash, t.finalizedHeight)
  {
    var t, ops', n := Run(quorumBps, ops), ops + [op], |ops|;
    RunPush(quorumBps, ops, op);
    forall j: nat, g: Hash, other: Height | j < n
      ensures FinalizesAt(quorumBps, ops', j, g, other) <==> FinalizesAt(quorumBps, ops, j, g, other)
    {
      SameHistory(quorumBps, ops, op, j, g, other);
    }
    forall g: Hash, other: Height
      ensures FinalizesAt(quorumBps, ops', n, g, other)
          <==> op == Finalize(g) && g in t.blocks && !t.blocks[g].status.Finalized? && t.blocks[g].height == other
    {
      LastFinalizes(quorumBps, ops, op, g, other);
    }
    hide Run, FinalizesAt;
    if op.Finalize? && op.target in t.blocks && !t.blocks[op.target].status.Finalized? {
      var height := t.blocks[op.target].height;
      assert FinalizesAt(quorumBps, ops', n, op.target, height);
      if height >= t.finalizedHeight {
        assert HighestFinalized(quorumBps, ops', op.target, height);
      } else {
        assert HighestFinalized(quorumBps, ops', t.finalizedHash, t.finalizedHeight);
      }
    }
  }

  /** In every run the finalized height and hash are those of the block finalized last among
      the highest ever finalized, whether or not it has been pruned since; before any
      finalization they are 0 and the zero hash. */
  lemma {:induction false} FinalizedHead(quorumBps: nat, ops: seq<Op>)
    ensures var t := Run(quorumBps, ops);
            if NoneFinalized(quorumBps, ops) then t.finalizedHeight == 0 && t.finalizedHash == ZERO_HASH
            else HighestFinalized(quorumBps, ops, t.finalizedHash, t.finalizedHeight)
  {
    if ops == [] {
      assert NoneFinalized(quorumBps, ops);
    } else {
      FinalizedHead(quorumBps, ops[..|ops| - 1]);
      assert ops[..|ops| - 1] + [ops[|ops| - 1]] == ops;
      hide Run, NoneFinalized, HighestFinalized;
      FinalizedHeadStep(quorumBps, ops[..|ops| - 1], ops[|ops| - 1]);
    }
  }
}
