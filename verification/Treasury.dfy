/** The protocol treasury: fees and deposits come in, fixed or proportional
    distributions go out, and rounding always stays in the treasury. */
module Treasury {
  import opened Types
  import opened Arithmetic
  import opened Sequences

  datatype TreasuryError = InsufficientBalance | InvalidFeeRate | ZeroAmount | NoRecipients | UnauthorizedAdmin

  type Entry = (Address, nat)

  datatype Distribution = Distribution(recipients: seq<Entry>, totalAmount: nat, height: Height)

  datatype Funds = Funds(
    balance: nat,
    totalCollected: nat,
    totalDistributed: nat,
    feeBps: nat,
    distributions: seq<Distribution>,
    admin: Address,
    stakerShareBps: nat)

  datatype Op =
    | CollectFee(gross: nat)
    | Deposit(amount: nat)
    | Distribute(recipients: seq<Entry>, height: Height, caller: Address)
    | DistributeProportional(stakers: seq<Entry>, total: nat, height: Height, caller: Address)
    | DistributeWithSplit(stakers: seq<Entry>, height: Height, caller: Address)
    | SetFeeRate(rate: nat, caller: Address)

  function AmountOf(e: Entry): nat {
    e.1
  }

  function TotalOf(d: Distribution): nat {
    d.totalAmount
  }

  function Stakes(stakers: seq<Entry>): (v: seq<nat>)
    ensures |v| == |stakers|
  {
    seq(|stakers|, i requires 0 <= i < |stakers| => stakers[i].1)
  }

  /** The stakers whose share is positive, in order, each with its share. */
  function Paid(stakers: seq<Entry>, shares: seq<nat>): seq<Entry>
    requires |shares| == |stakers|
  {
    if stakers == [] then []
    else
      var n := |stakers| - 1;
      Paid(stakers[..n], shares[..n]) + if shares[n] > 0 then [(stakers[n].0, shares[n])] else []
  }

  /** Who is paid what when `total` is split by stake, rounded down. */
  function Payees(stakers: seq<Entry>, total: nat, totalStake: nat): seq<Entry>
    requires totalStake > 0
  {
    Paid(stakers, Shares(total, Stakes(stakers), totalStake))
  }

  /** Dropping the zero shares does not change the sum. */
  lemma {:induction false} PaidAddUp(stakers: seq<Entry>, shares: seq<nat>)
    requires |shares| == |stakers|
    ensures SumBy(Paid(stakers, shares), AmountOf) == SumBy(shares, Itself)
  {
    if stakers != [] {
      var n := |stakers| - 1;
      PaidAddUp(stakers[..n], shares[..n]);
      SumByPush(Paid(stakers[..n], shares[..n]), (stakers[n].0, shares[n]), AmountOf);
      assert Paid(stakers[..n], shares[..n]) + [] == Paid(stakers[..n], shares[..n]);
    }
  }

  ghost predicate Lists(from: seq<nat>, shares: seq<nat>) {
    && (forall j, k :: 0 <= j < k < |from| ==> from[j] < from[k])
    && (forall i :: i in from <==> 0 <= i < |shares| && shares[i] > 0)
  }

  lemma ListingPush(stakers: seq<Entry>, shares: seq<nat>, before: seq<nat>) returns (from: seq<nat>)
    requires |shares| == |stakers| > 0
    requires var n, paid := |stakers| - 1, Paid(stakers[..|stakers| - 1], shares[..|shares| - 1]);
             && Lists(before, shares[..n]) && |before| == |paid|
             && forall j :: 0 <= j < |before| ==>
                  before[j] < n && paid[j] == (stakers[before[j]].0, shares[before[j]])
    ensures Lists(from, shares) && |from| == |Paid(stakers, shares)|
    ensures forall j :: 0 <= j < |from| ==>
              from[j] < |stakers| && Paid(stakers, shares)[j] == (stakers[from[j]].0, shares[from[j]])
  {
    var n := |stakers| - 1;
    from := before;
    if shares[n] > 0 {
      from := before + [n];
      assert forall i :: i in from <==> i in before || i == n;
    }
  }

  /** Who is in the list: exactly the stakers with a positive share, in the order given,
      each under its own address with its own share. */
  lemma {:induction false} PaidListing(stakers: seq<Entry>, shares: seq<nat>) returns (from: seq<nat>)
    requires |shares| == |stakers|
    ensures Lists(from, shares) && |from| == |Paid(stakers, shares)|
    ensures forall j :: 0 <= j < |from| ==>
              from[j] < |stakers| && Paid(stakers, shares)[j] == (stakers[from[j]].0, shares[from[j]])
  {
    from := [];
    if stakers != [] {
      var n := |stakers| - 1;
      from := PaidListing(stakers[..n], shares[..n]);
      from := ListingPush(stakers, shares, from);
    }
  }

  lemma {:induction false} StakesAddUp(stakers: seq<Entry>)
    ensures SumBy(stakers, AmountOf) == SumBy(Stakes(stakers), Itself)
  {
    if stakers != [] {
      StakesAddUp(stakers[..|stakers| - 1]);
      assert Stakes(stakers)[..|stakers| - 1] == Stakes(stakers[..|stakers| - 1]);
    }
  }

  /** What is paid out never exceeds the total and falls short of it by less than one
      unit per staker, even when an address is listed more than once. */
  lemma PayoutDust(stakers: seq<Entry>, total: nat)
    requires SumBy(stakers, AmountOf) > 0
    ensures var paid := SumBy(Payees(stakers, total, SumBy(stakers, AmountOf)), AmountOf);
            paid <= total < paid + |stakers|
  {
    var d := SumBy(stakers, AmountOf);
    PaidAddUp(stakers, Shares(total, Stakes(stakers), d));
    StakesAddUp(stakers);
    SharesOfWhole(total, Stakes(stakers), d);
  }

  // ---------------------------------------------------------------------
  // Operations
  // ---------------------------------------------------------------------

  function StakerTotal(t: Funds): nat {
    MulDiv(t.balance, t.stakerShareBps, BPS)
  }

  /** The first check of a proportional payout that fails; `total` is what it would split. */
  function PayoutRefusal(t: Funds, stakers: seq<Entry>, total: nat): Option<TreasuryError> {
    if total == 0 then Some(ZeroAmount)
    else if SumBy(stakers, AmountOf) == 0 then Some(ZeroAmount)
    else if Payees(stakers, total, SumBy(stakers, AmountOf)) == [] then Some(ZeroAmount)
    else None
  }

  function Refusal(t: Funds, op: Op): Option<TreasuryError> {
    match op
    case CollectFee(gross) => if MulDiv(gross, t.feeBps, BPS) == 0 then Some(ZeroAmount) else None
    case Deposit(amount) => if amount == 0 then Some(ZeroAmount) else None
    case Distribute(recipients, _, caller) =>
      if caller != t.admin then Some(UnauthorizedAdmin)
      else if recipients == [] then Some(NoRecipients)
      else if SumBy(recipients, AmountOf) == 0 then Some(ZeroAmount)
      else if SumBy(recipients, AmountOf) > t.balance then Some(InsufficientBalance)
      else None
    case DistributeProportional(stakers, total, _, caller) =>
      if caller != t.admin then Some(UnauthorizedAdmin)
      else if stakers == [] then Some(NoRecipients)
      else if total == 0 then Some(ZeroAmount)
      else if total > t.balance then Some(InsufficientBalance)
      else PayoutRefusal(t, stakers, total)
    case DistributeWithSplit(stakers, _, caller) =>
      if caller != t.admin then Some(UnauthorizedAdmin)
      else if stakers == [] then Some(NoRecipients)
      else if t.balance == 0 then Some(InsufficientBalance)
      else PayoutRefusal(t, stakers, StakerTotal(t))
    case SetFeeRate(rate, caller) =>
      if caller != t.admin then Some(UnauthorizedAdmin)
      else if rate > BPS then Some(InvalidFeeRate)
      else None
  }

  function Proportional(stakers: seq<Entry>, total: nat, height: Height): Distribution
    requires SumBy(stakers, AmountOf) > 0
  {
    var payees := Payees(stakers, total, SumBy(stakers, AmountOf));
    Distribution(payees, SumBy(payees, AmountOf), height)
  }

  /** The distribution that an accepted distributing operation records. */
  function Recorded(t: Funds, op: Op): Distribution
    requires op.Distribute? || op.DistributeProportional? || op.DistributeWithSplit?
    requires Refusal(t, op).None?
  {
    match op
    case Distribute(recipients, height, _) => Distribution(recipients, SumBy(recipients, AmountOf), height)
    case DistributeProportional(stakers, total, height, _) => Proportional(stakers, total, height)
    case DistributeWithSplit(stakers, height, _) => Proportional(stakers, StakerTotal(t), height)
  }

  /** The balance explains itself: everything collected and not distributed; and the
      distributed total is the sum over the recorded distributions. */
  ghost predicate FundsOk(t: Funds) {
    && t.stakerShareBps <= BPS
    && t.balance + t.totalDistributed == t.totalCollected
    && t.totalDistributed == SumBy(t.distributions, TotalOf)
    && forall i :: 0 <= i < |t.distributions| ==>
         t.distributions[i].totalAmount == SumBy(t.distributions[i].recipients, AmountOf)
  }

  /** No accepted distribution can take more than the balance holds. */
  lemma RecordedWithinBalance(t: Funds, op: Op)
    requires op.Distribute? || op.DistributeProportional? || op.DistributeWithSplit?
    requires Refusal(t, op).None? && t.stakerShareBps <= BPS
    ensures Recorded(t, op).totalAmount <= t.balance
    ensures Recorded(t, op).totalAmount == SumBy(Recorded(t, op).recipients, AmountOf)
  {
    match op
    case Distribute(_, _, _) =>
    case DistributeProportional(stakers, total, _, _) =>
      PayoutDust(stakers, total);
    case DistributeWithSplit(stakers, _, _) =>
      PayoutDust(stakers, StakerTotal(t));
      MulDivAtMost(t.balance, t.stakerShareBps, BPS);
  }

  function Collect(t: Funds, amount: nat): Funds {
    t.(balance := t.balance + amount, totalCollected := t.totalCollected + amount)
  }

  function PayOut(t: Funds, d: Distribution): Funds
    requires d.totalAmount <= t.balance
  {
    t.(balance := t.balance - d.totalAmount,
       totalDistributed := t.totalDistributed + d.totalAmount,
       distributions := t.distributions + [d])
  }

  ghost function Step(t: Funds, op: Op): Funds
    requires FundsOk(t)
  {
    if Refusal(t, op).Some? then t
    else
      match op
      case CollectFee(gross) => Collect(t, MulDiv(gross, t.feeBps, BPS))
      case Deposit(amount) => Collect(t, amount)
      case SetFeeRate(rate, _) => t.(feeBps := rate)
      case _ =>
        RecordedWithinBalance(t, op);
        PayOut(t, Recorded(t, op))
  }

  function NewTreasury(feeBps: nat, admin: Address): (t: Funds)
    ensures FundsOk(t)
  {
    Funds(0, 0, 0, feeBps, [], admin, 4_000)
  }

  class ProtocolTreasury {
    var balance: nat
    var totalCollected: nat
    var totalDistributed: nat
    var feeRateBps: nat
    var distributions: seq<Distribution>
    const admin: Address
    const stakerShareBps: nat

    ghost function State(): Funds
      reads this
    {
      Funds(balance, totalCollected, totalDistributed, feeRateBps, distributions, admin, stakerShareBps)
    }

    constructor (feeBps: nat, admin: Address)
      ensures State() == NewTreasury(feeBps, admin)
      ensures FundsOk(State())
    {
      balance, totalCollected, totalDistributed := 0, 0, 0;
      feeRateBps, distributions, this.admin := feeBps, [], admin;
      stakerShareBps := 4_000;
    }

    method CollectFeeOn(gross: nat) returns (r: Result<nat, TreasuryError>)
      requires FundsOk(State())
      modifies this
      ensures State() == Step(old(State()), CollectFee(gross))
      ensures r == match Refusal(old(State()), CollectFee(gross))
                   case Some(e) => Err(e)
                   case None => Ok(balance - old(balance))
    {
      if gross == 0 {
        return Err(ZeroAmount);
      }
      var fee := MulDiv(gross, feeRateBps, BPS);
      if fee == 0 {
        return Err(ZeroAmount);
      }
      balance := balance + fee;
      totalCollected := totalCollected + fee;
      return Ok(fee);
    }

    method DepositInto(amount: nat) returns (r: Result<(), TreasuryError>)
      requires FundsOk(State())
      modifies this
      ensures State() == Step(old(State()), Deposit(amount))
      ensures r.Err? <==> amount == 0
    {
      if amount == 0 {
        return Err(ZeroAmount);
      }
      balance := balance + amount;
      totalCollected := totalCollected + amount;
      return Ok(());
    }

    method DistributeFixed(recipients: seq<Entry>, height: Height, caller: Address)
      returns (r: Result<Distribution, TreasuryError>)
      requires FundsOk(State())
      modifies this
      ensures State() == Step(old(State()), Distribute(recipients, height, caller))
      ensures r == match Refusal(old(State()), Distribute(recipients, height, caller))
                   case Some(e) => Err(e)
                   case None => Ok(Recorded(old(State()), Distribute(recipients, height, caller)))
    {
      if caller != admin {
        return Err(UnauthorizedAdmin);
      }
      if recipients == [] {
        return Err(NoRecipients);
      }
      var totalAmount := SumBy(recipients, AmountOf);
      if totalAmount == 0 {
        return Err(ZeroAmount);
      }
      if totalAmount > balance {
        return Err(InsufficientBalance);
      }
      balance := balance - totalAmount;
      totalDistributed := totalDistributed + totalAmount;
      var distribution := Distribution(recipients, totalAmount, height);
      distributions := distributions + [distribution];
      return Ok(distribution);
    }

    method SplitAmong(stakers: seq<Entry>, total: nat, totalStake: nat) returns (recipients: seq<Entry>)
      requires totalStake > 0
      ensures recipients == Payees(stakers, total, totalStake)
    {
      ghost var shares := Shares(total, Stakes(stakers), totalStake);
      recipients := [];
      for i := 0 to |stakers|
        invariant recipients == Paid(stakers[..i], shares[..i])
      {
        hide MulDiv;
        assert stakers[..i + 1][..i] == stakers[..i] && shares[..i + 1][..i] == shares[..i];
        var share := MulDiv(total, stakers[i].1, totalStake);
        if share > 0 {
          recipients := recipients + [(stakers[i].0, share)];
        }
      }
      assert stakers[..|stakers|] == stakers && shares[..|stakers|] == shares;
    }

    method DistributeByStake(stakers: seq<Entry>, totalToDistribute: nat, height: Height, caller: Address)
      returns (r: Result<Distribution, TreasuryError>)
      requires FundsOk(State())
      modifies this
      ensures var op := DistributeProportional(stakers, totalToDistribute, height, caller);
              && State() == Step(old(State()), op)
              && r == match Refusal(old(State()), op)
                      case Some(e) => Err(e)
                      case None => Ok(Recorded(old(State()), op))
    {
      hide Payees;
      if caller != admin {
        return Err(UnauthorizedAdmin);
      }
      if stakers == [] {
        return Err(NoRecipients);
      }
      if totalToDistribute == 0 {
        return Err(ZeroAmount);
      }
      if totalToDistribute > balance {
        return Err(InsufficientBalance);
      }
      var totalStake := SumBy(stakers, AmountOf);
      if totalStake == 0 {
        return Err(ZeroAmount);
      }
      var recipients := SplitAmong(stakers, totalToDistribute, totalStake);
      if recipients == [] {
        return Err(ZeroAmount);
      }
      var actualTotal := SumBy(recipients, AmountOf);
      PayoutDust(stakers, totalToDistribute);
      balance := balance - actualTotal;
      totalDistributed := totalDistributed + actualTotal;
      var distribution := Distribution(recipients, actualTotal, height);
      distributions := distributions + [distribution];
      return Ok(distribution);
    }

    method DistributeSplit(stakers: seq<Entry>, height: Height, caller: Address)
      returns (r: Result<(Distribution, Distribution), TreasuryError>)
      requires FundsOk(State())
      modifies this
      ensures State() == Step(old(State()), DistributeWithSplit(stakers, height, caller))
      ensures var refusal := Refusal(old(State()), DistributeWithSplit(stakers, height, caller));
              (r.Err? <==> refusal.Some?) && (r.Err? ==> refusal == Some(r.error))
      ensures r.Ok? ==>
                && r.value.0 == Recorded(old(State()), DistributeWithSplit(stakers, height, caller))
                && r.value.1.totalAmount == old(balance) - StakerTotal(old(State()))
                && r.value.1 == Distribution([(admin, r.value.1.totalAmount)], r.value.1.totalAmount, height)
                && r.value.1.totalAmount <= balance < r.value.1.totalAmount + |stakers|
    {
      hide Payees;
      if caller != admin {
        return Err(UnauthorizedAdmin);
      }
      if stakers == [] {
        return Err(NoRecipients);
      }
      if balance == 0 {
        return Err(InsufficientBalance);
      }
      MulDivAtMost(balance, stakerShareBps, BPS);
      var totalBalance := balance;
      var stakerTotal := MulDiv(totalBalance, stakerShareBps, BPS);
      var treasuryRetained := totalBalance - stakerTotal;
      if stakerTotal == 0 {
        return Err(ZeroAmount);
      }
      var totalStake := SumBy(stakers, AmountOf);
      if totalStake == 0 {
        return Err(ZeroAmount);
      }
      var recipients := SplitAmong(stakers, stakerTotal, totalStake);
      if recipients == [] {
        return Err(ZeroAmount);
      }
      var actualStakerTotal := SumBy(recipients, AmountOf);
      PayoutDust(stakers, stakerTotal);
      balance := balance - actualStakerTotal;
      totalDistributed := totalDistributed + actualStakerTotal;
      var stakerDistribution := Distribution(recipients, actualStakerTotal, height);
      distributions := distributions + [stakerDistribution];
      return Ok((stakerDistribution, Distribution([(admin, treasuryRetained)], treasuryRetained, height)));
    }

    method SetRate(newRate: nat, caller: Address) returns (r: Result<(), TreasuryError>)
      requires FundsOk(State())
      modifies this
      ensures State() == Step(old(State()), SetFeeRate(newRate, caller))
      ensures r.Ok? <==> Refusal(old(State()), SetFeeRate(newRate, caller)).None?
    {
      if caller != admin {
        return Err(UnauthorizedAdmin);
      }
      if newRate > BPS {
        return Err(InvalidFeeRate);
      }
      feeRateBps := newRate;
      return Ok(());
    }
  }

  // ---------------------------------------------------------------------
  // Runs
  // ---------------------------------------------------------------------

  lemma StepKeepsFunds(t: Funds, op: Op)
    requires FundsOk(t)
    ensures FundsOk(Step(t, op))
  {
    hide MulDiv, Payees, PayoutRefusal;
    if Refusal(t, op).None? && (op.Distribute? || op.DistributeProportional? || op.DistributeWithSplit?) {
      RecordedWithinBalance(t, op);
      hide Refusal, Recorded;
      SumByPush(t.distributions, Recorded(t, op), TotalOf);
    }
  }

  /** In every reachable state the balance is what was collected less what the recorded
      distributions add up to, each of them the sum of what its recipients got. */
  ghost function Run(t: Funds, ops: seq<Op>): (t': Funds)
    requires FundsOk(t)
    ensures FundsOk(t')
  {
    if ops == [] then t
    else
      StepKeepsFunds(Run(t, ops[..|ops| - 1]), ops[|ops| - 1]);
      Step(Run(t, ops[..|ops| - 1]), ops[|ops| - 1])
  }

  /** A split leaves the treasury its retained share and less than one unit per staker more. */
  lemma SplitRetains(t: Funds, stakers: seq<Entry>, height: Height, caller: Address)
    requires FundsOk(t) && Refusal(t, DistributeWithSplit(stakers, height, caller)).None?
    ensures var t' := Step(t, DistributeWithSplit(stakers, height, caller));
            t.balance - StakerTotal(t) <= t'.balance < t.balance - StakerTotal(t) + |stakers|
  {
    hide MulDiv, Payees;
    PayoutDust(stakers, StakerTotal(t));
  }

  // ---------------------------------------------------------------------
  // What the operations answer
  // ---------------------------------------------------------------------

  lemma ShareMeans(total: nat, weights: seq<nat>, d: nat, i: nat)
    requires d > 0 && i < |weights|
    ensures var share := Shares(total, weights, d)[i];
            share * d <= total * weights[i] < (share + 1) * d
  {
    MulDivFloor(Shares(total, weights, d)[i], total, weights[i], d);
  }

  /** A proportional payout lists each staker whose proportion of the total reaches one unit,
      in order, with that proportion rounded down. */
  lemma PayeesMean(stakers: seq<Entry>, total: nat) returns (from: seq<nat>)
    requires SumBy(stakers, AmountOf) > 0
    ensures var d, payees := SumBy(stakers, AmountOf), Payees(stakers, total, SumBy(stakers, AmountOf));
            && |from| == |payees|
            && (forall j, k :: 0 <= j < k < |from| ==> from[j] < from[k])
            && (forall i :: i in from <==> 0 <= i < |stakers| && d <= total * stakers[i].1)
            && forall j :: 0 <= j < |from| ==>
                 from[j] < |stakers| && payees[j].0 == stakers[from[j]].0
                 && payees[j].1 * d <= total * stakers[from[j]].1 < (payees[j].1 + 1) * d
  {
    var d, stakes := SumBy(stakers, AmountOf), Stakes(stakers);
    var shares := Shares(total, stakes, d);
    from := PaidListing(stakers, shares);
    hide Shares;
    forall i | 0 <= i < |stakers|
      ensures shares[i] * d <= total * stakers[i].1 < (shares[i] + 1) * d
      ensures shares[i] > 0 <==> d <= total * stakers[i].1
    {
      ShareMeans(total, stakes, d, i);
      if shares[i] > 0 {
        MulMono(1, shares[i], d, d);
      }
    }
  }

  /** Some staker's proportion of the total reaches one unit. */
  ghost predicate SomeoneDue(stakers: seq<Entry>, total: nat) {
    exists i :: 0 <= i < |stakers| && 0 < SumBy(stakers, AmountOf) <= total * stakers[i].1
  }

  lemma PositiveFactor(a: nat, b: nat)
    requires a * b > 0
    ensures a > 0
  {
  }

  lemma DueIff(stakers: seq<Entry>, total: nat)
    ensures SomeoneDue(stakers, total) ==> stakers != [] && total > 0 && SumBy(stakers, AmountOf) > 0
    ensures SumBy(stakers, AmountOf) > 0 ==>
              (SomeoneDue(stakers, total) <==> Payees(stakers, total, SumBy(stakers, AmountOf)) != [])
  {
    if SumBy(stakers, AmountOf) > 0 {
      hide Payees;
      var from := PayeesMean(stakers, total);
      if SomeoneDue(stakers, total) {
        var i :| 0 <= i < |stakers| && SumBy(stakers, AmountOf) <= total * stakers[i].1;
        assert i in from;
        PositiveFactor(total, stakers[i].1);
      }
      if from != [] {
        assert from[0] in from;
      }
    }
  }

  /** When an operation is accepted. */
  lemma AcceptedIff(t: Funds, op: Op)
    ensures var ok := Refusal(t, op).None?;
            && (op.CollectFee? ==> (ok <==> BPS <= op.gross * t.feeBps))
            && (op.Deposit? ==> (ok <==> op.amount > 0))
            && (op.Distribute? ==>
                  (ok <==> op.caller == t.admin && op.recipients != []
                           && 0 < SumBy(op.recipients, AmountOf) <= t.balance))
            && (op.SetFeeRate? ==> (ok <==> op.caller == t.admin && op.rate <= BPS))
            && (op.DistributeProportional? ==>
                  (ok <==> op.caller == t.admin && 0 < op.total <= t.balance && SomeoneDue(op.stakers, op.total)))
            && (op.DistributeWithSplit? ==>
                  (ok <==> op.caller == t.admin && t.balance > 0 && SomeoneDue(op.stakers, StakerTotal(t))))
  {
    match op
    case CollectFee(gross) =>
      DivAtLeast(gross * t.feeBps, BPS, 1);
    case DistributeProportional(stakers, total, _, _) =>
      hide Payees;
      DueIff(stakers, total);
    case DistributeWithSplit(stakers, _, _) =>
      hide Payees, MulDiv;
      DueIff(stakers, StakerTotal(t));
    case _ =>
  }

  /** Which refusal an operation meets: a stranger first, then no one to pay, then amounts. */
  lemma ErrorsMean(t: Funds, op: Op)
    ensures var r := Refusal(t, op);
            var free := op.CollectFee? || op.Deposit?;
            var stranger := !free && op.caller != t.admin;
            var nobody := (op.Distribute? && op.recipients == [])
                          || ((op.DistributeProportional? || op.DistributeWithSplit?) && op.stakers == []);
            && (r == Some(UnauthorizedAdmin) <==> stranger)
            && (r == Some(NoRecipients) <==> !stranger && nobody)
            && (r == Some(InvalidFeeRate) <==> !stranger && op.SetFeeRate? && op.rate > BPS)
            && (r == Some(InsufficientBalance) <==>
                  !stranger && !nobody
                  && ((op.Distribute? && SumBy(op.recipients, AmountOf) > t.balance)
                      || (op.DistributeProportional? && op.total > t.balance)
                      || (op.DistributeWithSplit? && t.balance == 0)))
  {
    hide MulDiv, Payees;
  }

  /** A new treasury is empty and gives stakers four tenths. */
  lemma NewTreasuryMeans(feeBps: nat, admin: Address)
    ensures var t := NewTreasury(feeBps, admin);
            && t.balance == 0 && t.distributions == [] && t.feeBps == feeBps && t.admin == admin
            && t.stakerShareBps == 4_000
  {
  }

  /** What an accepted operation does to the funds: a fee is the rate on the amount, rounded
      down, the staker part the stakers' share of the balance, and payouts are recorded. */
  lemma AmountsMean(t: Funds, op: Op)
    requires FundsOk(t) && Refusal(t, op).None?
    ensures var t' := Step(t, op);
            && (op.CollectFee? ==>
                  t.balance <= t'.balance && t'.feeBps == t.feeBps
                  && var fee := t'.balance - t.balance; BPS * fee <= op.gross * t.feeBps < BPS * (fee + 1))
            && (op.Deposit? ==> t'.balance == t.balance + op.amount)
            && (op.SetFeeRate? ==> t' == t.(feeBps := op.rate))
            && (op.Distribute? ==>
                  t'.distributions == t.distributions
                    + [Distribution(op.recipients, SumBy(op.recipients, AmountOf), op.height)])
            && (op.DistributeProportional? || op.DistributeWithSplit? ==>
                  SumBy(op.stakers, AmountOf) > 0
                  && var total := if op.DistributeProportional? then op.total else StakerTotal(t);
                     var payees := Payees(op.stakers, total, SumBy(op.stakers, AmountOf));
                     t'.distributions == t.distributions
                       + [Distribution(payees, SumBy(payees, AmountOf), op.height)])
            && t'.admin == t.admin && t'.stakerShareBps == t.stakerShareBps
    ensures BPS * StakerTotal(t) <= t.balance * t.stakerShareBps < BPS * (StakerTotal(t) + 1)
  {
    MulDivBounds(t.balance, t.stakerShareBps, BPS);
    if op.CollectFee? {
      MulDivBounds(op.gross, t.feeBps, BPS);
    }
    hide MulDiv, Payees;
  }

  // ---------------------------------------------------------------------
  // Overflow of the plain products
  // ---------------------------------------------------------------------

  /** The payees as compiled without overflow checks, where a product wraps. */
  function WrappedPayees(stakers: seq<Entry>, total: nat, totalStake: nat): seq<Entry>
    requires totalStake > 0
  {
    Paid(stakers, WrappedShares(total, Stakes(stakers), totalStake))
  }

  /** A proportional payout is what it should be exactly when the total times the largest
      stake fits; wrapped or not, it never adds up to more than the total. */
  lemma PayeesFitIff(stakers: seq<Entry>, total: nat)
    requires 0 < SumBy(stakers, AmountOf) <= U128_MAX
    ensures var d := SumBy(stakers, AmountOf);
            && (WrappedPayees(stakers, total, d) == Payees(stakers, total, d)
                <==> total * Largest(Stakes(stakers)) <= U128_MAX)
            && SumBy(WrappedPayees(stakers, total, d), AmountOf) <= total
  {
    hide Shares, WrappedShares, Largest;
    var d, stakes := SumBy(stakers, AmountOf), Stakes(stakers);
    StakesAddUp(stakers);
    PaidAddUp(stakers, Shares(total, stakes, d));
    PaidAddUp(stakers, WrappedShares(total, stakes, d));
    WrappedSharesIff(total, stakes, d);
    WrappedSharesWithin(total, stakes, d);
  }

  /** So the subtraction from the balance cannot underflow even where products wrap: not in
      a proportional distribution, whose total is within the balance, and not in a split,
      whose staker part may itself have wrapped. */
  lemma WrappedWithinBalance(t: Funds, stakers: seq<Entry>, total: nat)
    requires 0 < SumBy(stakers, AmountOf) <= U128_MAX && t.stakerShareBps <= BPS && total <= t.balance
    ensures var d := SumBy(stakers, AmountOf);
            var part := WrappedShare(t.balance, t.stakerShareBps, BPS);
            && SumBy(WrappedPayees(stakers, total, d), AmountOf) <= t.balance
            && SumBy(WrappedPayees(stakers, part, d), AmountOf) <= StakerTotal(t) <= t.balance
            && (part == StakerTotal(t) <==> t.balance * t.stakerShareBps <= U128_MAX)
  {
    hide WrappedShare, WrappedPayees;
    WrappedShareIff(t.balance, t.stakerShareBps, BPS);
    MulDivAtMost(t.balance, t.stakerShareBps, BPS);
    PayeesFitIff(stakers, total);
    PayeesFitIff(stakers, WrappedShare(t.balance, t.stakerShareBps, BPS));
  }

  lemma PaidOne(staker: Entry, share: nat)
    requires share > 0
    ensures Paid([staker], [share]) == [(staker.0, share)]
  {
    assert Paid([staker][..0], [share][..0]) == [];
  }

  /** The product overflows at ordinary amounts: one token of 10^18 units split over a single
      minimum validator stake pays out less than a thousandth of it. */
  lemma OrdinaryAmountsWrap(staker: Address)
    ensures var total, stake := 1_000_000_000_000_000_000, 32_000_000_000_000_000_000_000;
            && Payees([(staker, stake)], total, stake) == [(staker, total)]
            && WrappedPayees([(staker, stake)], total, stake) == [(staker, 420_547_169_743_263)]
  {
    var total, stake := 1_000_000_000_000_000_000, 32_000_000_000_000_000_000_000;
    PaidOne((staker, stake), total);
    PaidOne((staker, stake), 420_547_169_743_263);
    assert Stakes([(staker, stake)]) == [stake];
    assert Shares(total, [stake], stake) == [total];
    assert WrappedShares(total, [stake], stake) == [420_547_169_743_263];
  }

  // ---------------------------------------------------------------------
  // The fee rate
  // ---------------------------------------------------------------------

  /** A fee stays within the gross amount, for every amount, exactly when the rate is at
      most 10 000 basis points. */
  lemma FeeWithinGrossIff(feeBps: nat)
    ensures (forall gross: nat :: MulDiv(gross, feeBps, BPS) <= gross) <==> feeBps <= BPS
  {
    if feeBps <= BPS {
      forall gross: nat
        ensures MulDiv(gross, feeBps, BPS) <= gross
      {
        MulDivAtMost(gross, feeBps, BPS);
      }
    } else {
      DivIsFloor(BPS * feeBps, BPS, feeBps);
      assert MulDiv(BPS, feeBps, BPS) > BPS;
    }
  }

  /** No operation moves the rate above that bound. */
  lemma {:induction false} RateStaysWithin(t: Funds, ops: seq<Op>)
    requires FundsOk(t) && t.feeBps <= BPS
    ensures Run(t, ops).feeBps <= BPS
  {
    if ops != [] {
      hide MulDiv, Payees, PayoutRefusal;
      RateStaysWithin(t, ops[..|ops| - 1]);
    }
  }

  /** The constructor takes any rate: a treasury made with 10 001 charges more than the gross. */
  lemma ConstructorTakesAnyRate(admin: Address)
    ensures var t := NewTreasury(10_001, admin);
            && Refusal(t, CollectFee(10_000)).None?
            && Step(t, CollectFee(10_000)).balance == 10_001
  {
  }
}
