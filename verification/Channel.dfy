/** Payment channels: a deposit split between two parties by ever newer states, closed
    or disputed, and paid out once after the dispute period. */
module Channels {
  import opened Types
  import opened MapSums

  /** The digest of sender, receiver and opening height, taken to be injective. */
  datatype ChannelId = Digest(sender: Address, receiver: Address, openedAt: Height)

  datatype Status =
    | Open
    | Closing(initiatedAt: Height)
    | Disputed(disputedAt: Height)
    | Closed
    | Expired

  datatype ChannelError =
    | ChannelNotFound
    | ChannelNotOpen
    | InsufficientDeposit
    | InvalidBalances
    | InvalidNonce
    | NotParticipant
    | DisputePeriodNotOver
    | SameParticipants

  datatype Channel = Channel(
    sender: Address,
    receiver: Address,
    deposit: nat,
    senderBalance: nat,
    receiverBalance: nat,
    nonce: nat,
    status: Status,
    openedAt: Height,
    expiresAt: Height,
    lastUpdated: Height,
    disputePeriod: nat)

  datatype Update = Update(nonce: nat, senderBalance: nat, receiverBalance: nat)

  /** An operation on an existing channel. */
  datatype Action =
    | Apply(update: Update)
    | Close(initiator: Address, height: Height)
    | Dispute(update: Update, disputer: Address, height: Height)
    | Finalize(height: Height)
    | TopUp(amount: nat)
    | CheckExpired(height: Height)

  datatype Op =
    | OpenChannel(sender: Address, receiver: Address, deposit: nat, height: Height)
    | On(id: ChannelId, action: Action)

  datatype Reply = Done | Payout(senderRefund: nat, receiverPayout: nat) | HasExpired(expired: bool)

  type Outcome = Result<Reply, ChannelError>

  datatype Manager = Manager(
    channels: map<ChannelId, Channel>,
    bySender: map<Address, seq<ChannelId>>,
    byReceiver: map<Address, seq<ChannelId>>,
    disputePeriod: nat,
    expiry: nat)

  function NewChannel(sender: Address, receiver: Address, deposit: nat, height: Height,
                      disputePeriod: nat, expiry: nat): Channel
  {
    Channel(sender, receiver, deposit, deposit, 0, 0, Open, height, height + expiry, height, disputePeriod)
  }

  predicate Participant(c: Channel, a: Address) {
    a == c.sender || a == c.receiver
  }

  function Adopt(c: Channel, u: Update): Channel {
    c.(nonce := u.nonce, senderBalance := u.senderBalance, receiverBalance := u.receiverBalance)
  }

  /** The check shared by updates and disputes. */
  function StateRefusal(c: Channel, u: Update): Option<ChannelError> {
    if u.nonce <= c.nonce then Some(InvalidNonce)
    else if u.senderBalance + u.receiverBalance != c.deposit then Some(InvalidBalances)
    else None
  }

  /** The height from which the dispute period counts. */
  function Since(c: Channel): Height
    requires c.status.Closing? || c.status.Disputed?
  {
    if c.status.Closing? then c.status.initiatedAt else c.status.disputedAt
  }

  function Act(c: Channel, a: Action): (Channel, Outcome) {
    match a
    case Apply(u) =>
      if !c.status.Open? then (c, Err(ChannelNotOpen))
      else if StateRefusal(c, u).Some? then (c, Err(StateRefusal(c, u).value))
      else (Adopt(c, u), Ok(Done))
    case Close(initiator, height) =>
      if !Participant(c, initiator) then (c, Err(NotParticipant))
      else if !c.status.Open? then (c, Err(ChannelNotOpen))
      else (c.(status := Closing(height), lastUpdated := height), Ok(Done))
    case Dispute(u, disputer, height) =>
      if !Participant(c, disputer) then (c, Err(NotParticipant))
      else if !c.status.Open? && !c.status.Closing? then (c, Err(ChannelNotOpen))
      else if StateRefusal(c, u).Some? then (c, Err(StateRefusal(c, u).value))
      else (Adopt(c, u).(status := Disputed(height), lastUpdated := height), Ok(Done))
    case Finalize(height) =>
      if !c.status.Closing? && !c.status.Disputed? then (c, Err(ChannelNotOpen))
      else if height < Since(c) + c.disputePeriod then (c, Err(DisputePeriodNotOver))
      else (c.(status := Closed, lastUpdated := height), Ok(Payout(c.senderBalance, c.receiverBalance)))
    case TopUp(amount) =>
      if !c.status.Open? then (c, Err(ChannelNotOpen))
      else if amount == 0 then (c, Err(InsufficientDeposit))
      else (c.(deposit := c.deposit + amount, senderBalance := c.senderBalance + amount), Ok(Done))
    case CheckExpired(height) =>
      if c.status.Open? && height >= c.expiresAt
      then (c.(status := Expired, lastUpdated := height), Ok(HasExpired(true)))
      else (c, Ok(HasExpired(false)))
  }

  function Append(index: map<Address, seq<ChannelId>>, a: Address, id: ChannelId): map<Address, seq<ChannelId>> {
    index[a := (if a in index then index[a] else []) + [id]]
  }

  function Step(m: Manager, op: Op): (Manager, Outcome) {
    match op
    case OpenChannel(sender, receiver, deposit, height) =>
      if sender == receiver then (m, Err(SameParticipants))
      else if deposit == 0 then (m, Err(InsufficientDeposit))
      else
        var id := Digest(sender, receiver, height);
        (m.(channels := m.channels[id := NewChannel(sender, receiver, deposit, height, m.disputePeriod, m.expiry)],
            bySender := Append(m.bySender, sender, id),
            byReceiver := Append(m.byReceiver, receiver, id)), Ok(Done))
    case On(id, action) =>
      if id !in m.channels then (m, Err(ChannelNotFound))
      else
        var (c, r) := Act(m.channels[id], action);
        (m.(channels := m.channels[id := c]), r)
  }

  function NewManager(disputePeriod: nat, expiry: nat): Manager {
    Manager(map[], map[], map[], disputePeriod, expiry)
  }

  class ChannelManager {
    var channels: map<ChannelId, Channel>
    var channelsBySender: map<Address, seq<ChannelId>>
    var channelsByReceiver: map<Address, seq<ChannelId>>
    const defaultDisputePeriod: nat
    const defaultExpiry: nat

    function State(): Manager
      reads this
    {
      Manager(channels, channelsBySender, channelsByReceiver, defaultDisputePeriod, defaultExpiry)
    }

    constructor (disputePeriod: nat, expiry: nat)
      ensures State() == NewManager(disputePeriod, expiry)
    {
      channels, channelsBySender, channelsByReceiver := map[], map[], map[];
      defaultDisputePeriod, defaultExpiry := disputePeriod, expiry;
    }

    method OpenNew(sender: Address, receiver: Address, deposit: nat, height: Height)
      returns (r: Result<ChannelId, ChannelError>)
      modifies this
      ensures State() == Step(old(State()), OpenChannel(sender, receiver, deposit, height)).0
      ensures r == match Step(old(State()), OpenChannel(sender, receiver, deposit, height)).1
                   case Ok(_) => Ok(Digest(sender, receiver, height))
                   case Err(e) => Err(e)
    {
      if sender == receiver {
        return Err(SameParticipants);
      }
      if deposit == 0 {
        return Err(InsufficientDeposit);
      }
      var id := Digest(sender, receiver, height);
      var channel := Channel(sender, receiver, deposit, deposit, 0, 0, Open, height, height + defaultExpiry,
                             height, defaultDisputePeriod);
      channels := channels[id := channel];
      channelsBySender := Append(channelsBySender, sender, id);
      channelsByReceiver := Append(channelsByReceiver, receiver, id);
      return Ok(id);
    }

    method UpdateChannel(id: ChannelId, update: Update) returns (r: Outcome)
      modifies this`channels
      ensures (State(), r) == Step(old(State()), On(id, Apply(update)))
    {
      if id !in channels {
        return Err(ChannelNotFound);
      }
      var channel := channels[id];
      assert channels == channels[id := channel];
      if !channel.status.Open? {
        return Err(ChannelNotOpen);
      }
      if update.nonce <= channel.nonce {
        return Err(InvalidNonce);
      }
      if update.senderBalance + update.receiverBalance != channel.deposit {
        return Err(InvalidBalances);
      }
      channel := channel.(nonce := update.nonce);
      channel := channel.(senderBalance := update.senderBalance);
      channel := channel.(receiverBalance := update.receiverBalance);
      channels := channels[id := channel];
      return Ok(Done);
    }

    method CloseChannel(id: ChannelId, initiator: Address, height: Height) returns (r: Outcome)
      modifies this`channels
      ensures (State(), r) == Step(old(State()), On(id, Close(initiator, height)))
    {
      if id !in channels {
        return Err(ChannelNotFound);
      }
      var channel := channels[id];
      assert channels == channels[id := channel];
      if initiator != channel.sender && initiator != channel.receiver {
        return Err(NotParticipant);
      }
      if !channel.status.Open? {
        return Err(ChannelNotOpen);
      }
      channels := channels[id := channel.(status := Closing(height), lastUpdated := height)];
      return Ok(Done);
    }

    method DisputeChannel(id: ChannelId, update: Update, disputer: Address, height: Height) returns (r: Outcome)
      modifies this`channels
      ensures (State(), r) == Step(old(State()), On(id, Dispute(update, disputer, height)))
    {
      if id !in channels {
        return Err(ChannelNotFound);
      }
      var channel := channels[id];
      assert channels == channels[id := channel];
      if disputer != channel.sender && disputer != channel.receiver {
        return Err(NotParticipant);
      }
      match channel.status {
        case Open =>
        case Closing(_) =>
        case _ => return Err(ChannelNotOpen);
      }
      if update.nonce <= channel.nonce {
        return Err(InvalidNonce);
      }
      if update.senderBalance + update.receiverBalance != channel.deposit {
        return Err(InvalidBalances);
      }
      channel := channel.(nonce := update.nonce);
      channel := channel.(senderBalance := update.senderBalance);
      channel := channel.(receiverBalance := update.receiverBalance);
      channel := channel.(status := Disputed(height), lastUpdated := height);
      channels := channels[id := channel];
      return Ok(Done);
    }

    method FinalizeChannel(id: ChannelId, currentHeight: Height) returns (r: Outcome)
      modifies this`channels
      ensures (State(), r) == Step(old(State()), On(id, Finalize(currentHeight)))
    {
      if id !in channels {
        return Err(ChannelNotFound);
      }
      var channel := channels[id];
      assert channels == channels[id := channel];
      var initiatedAt := 0;
      match channel.status {
        case Closing(at) => initiatedAt := at;
        case Disputed(at) => initiatedAt := at;
        case _ => return Err(ChannelNotOpen);
      }
      if currentHeight < initiatedAt + channel.disputePeriod {
        return Err(DisputePeriodNotOver);
      }
      var senderRefund, receiverPayout := channel.senderBalance, channel.receiverBalance;
      channels := channels[id := channel.(status := Closed, lastUpdated := currentHeight)];
      return Ok(Payout(senderRefund, receiverPayout));
    }

    method TopUpChannel(id: ChannelId, amount: nat) returns (r: Outcome)
      modifies this`channels
      ensures (State(), r) == Step(old(State()), On(id, TopUp(amount)))
    {
      if id !in channels {
        return Err(ChannelNotFound);
      }
      var channel := channels[id];
      assert channels == channels[id := channel];
      if !channel.status.Open? {
        return Err(ChannelNotOpen);
      }
      if amount == 0 {
        return Err(InsufficientDeposit);
      }
      channel := channel.(deposit := channel.deposit + amount);
      channel := channel.(senderBalance := channel.senderBalance + amount);
      channels := channels[id := channel];
      return Ok(Done);
    }

    method ExpireChannel(id: ChannelId, currentHeight: Height) returns (r: Outcome)
      modifies this`channels
      ensures (State(), r) == Step(old(State()), On(id, CheckExpired(currentHeight)))
    {
      if id !in channels {
        return Err(ChannelNotFound);
      }
      var channel := channels[id];
      assert channels == channels[id := channel];
      if channel.status.Open? && currentHeight >= channel.expiresAt {
        channels := channels[id := channel.(status := Expired, lastUpdated := currentHeight)];
        return Ok(HasExpired(true));
      }
      return Ok(HasExpired(false));
    }
  }

  // ---------------------------------------------------------------------
  // One channel
  // ---------------------------------------------------------------------

  /** Status only ever moves down this ranking. */
  function Rank(s: Status): nat {
    match s
    case Open => 3
    case Closing(_) => 2
    case Disputed(_) => 1
    case Closed => 0
    case Expired => 0
  }

  predicate Balanced(c: Channel) {
    c.senderBalance + c.receiverBalance == c.deposit
  }

  /** Whatever the action: the two balances keep adding up to the deposit, the nonce never
      falls and rises with every accepted state, and a status change goes down the ranking. */
  lemma ActIsSafe(c: Channel, a: Action)
    requires Balanced(c)
    ensures var (c', r) := Act(c, a);
            && Balanced(c')
            && c'.sender == c.sender && c'.receiver == c.receiver && c'.disputePeriod == c.disputePeriod
            && c.nonce <= c'.nonce
            && ((a.Apply? || a.Dispute?) && r.Ok? ==> c.nonce < c'.nonce == a.update.nonce)
            && (c'.status == c.status || Rank(c'.status) < Rank(c.status))
            && (r.Err? ==> c' == c)
  {
  }

  /** A payout happens exactly out of a closing or disputed channel whose period is over,
      and hands out the whole deposit. */
  lemma PayoutIff(c: Channel, height: Height)
    requires Balanced(c)
    ensures var (c', r) := Act(c, Finalize(height));
            && (r.Ok? <==> (c.status.Closing? || c.status.Disputed?) && Since(c) + c.disputePeriod <= height)
            && (r.Ok? ==> r.value.Payout? && r.value.senderRefund + r.value.receiverPayout == c.deposit
                          && c'.status.Closed?)
  {
  }

  function ActAll(c: Channel, actions: seq<Action>): Channel {
    if actions == [] then c else Act(ActAll(c, actions[..|actions| - 1]), actions[|actions| - 1]).0
  }

  /** Some course of actions ends in a payout. */
  ghost predicate CanPay(c: Channel) {
    exists actions, height :: Act(ActAll(c, actions), Finalize(height)).1.Ok?
  }

  lemma {:induction false} StatusStuck(c: Channel, actions: seq<Action>)
    requires Rank(c.status) == 0
    ensures ActAll(c, actions).status == c.status
  {
    if actions != [] {
      StatusStuck(c, actions[..|actions| - 1]);
    }
  }

  /** A deposit can still be paid out exactly while its channel is open, closing or disputed:
      expiry locks it for good, and after a payout there is no second one. */
  lemma CanPayIff(c: Channel)
    ensures CanPay(c) <==> c.status.Open? || c.status.Closing? || c.status.Disputed?
  {
    if c.status.Open? {
      var close := Close(c.sender, 0);
      assert [close][..0] == [];
      assert ActAll(c, [close]) == c.(status := Closing(0), lastUpdated := 0);
      assert Act(ActAll(c, [close]), Finalize(c.disputePeriod)).1.Ok?;
    } else if c.status.Closing? || c.status.Disputed? {
      assert Act(ActAll(c, []), Finalize(Since(c) + c.disputePeriod)).1.Ok?;
    } else {
      forall actions, height
        ensures Act(ActAll(c, actions), Finalize(height)).1.Err?
      {
        StatusStuck(c, actions);
      }
    }
  }

  // ---------------------------------------------------------------------
  // Runs
  // ---------------------------------------------------------------------

  function Run(m: Manager, ops: seq<Op>): Manager {
    if ops == [] then m else Step(Run(m, ops[..|ops| - 1]), ops[|ops| - 1]).0
  }

  ghost predicate AllBalanced(m: Manager) {
    forall id :: id in m.channels ==> Balanced(m.channels[id]) && m.channels[id].deposit > 0
  }

  lemma DepositGrows(c: Channel, a: Action)
    ensures Act(c, a).0.deposit == c.deposit + if a.TopUp? && Act(c, a).1.Ok? then a.amount else 0
  {
  }

  lemma StepKeepsBalanced(m: Manager, op: Op)
    requires AllBalanced(m)
    ensures AllBalanced(Step(m, op).0)
  {
    if op.On? && op.id in m.channels {
      ActIsSafe(m.channels[op.id], op.action);
      DepositGrows(m.channels[op.id], op.action);
      hide Act;
    }
  }

  lemma {:induction false} RunKeepsBalanced(m: Manager, ops: seq<Op>)
    requires AllBalanced(m)
    ensures AllBalanced(Run(m, ops))
  {
    if ops != [] {
      RunKeepsBalanced(m, ops[..|ops| - 1]);
      hide Step, AllBalanced;
      StepKeepsBalanced(Run(m, ops[..|ops| - 1]), ops[|ops| - 1]);
    }
  }

  /** Whether an accepted operation of the run opens a channel under this id. */
  predicate Opens(op: Op, id: ChannelId) {
    op.OpenChannel? && Digest(op.sender, op.receiver, op.height) == id && op.sender != op.receiver && op.deposit > 0
  }

  /** Once closed or expired, a channel never pays out again and never changes status,
      unless its id is opened anew: in particular a second finalization always fails. */
  lemma {:induction false} SettledForGood(m: Manager, ops: seq<Op>, id: ChannelId, height: Height)
    requires id in m.channels && Rank(m.channels[id].status) == 0
    requires forall i :: 0 <= i < |ops| ==> !Opens(ops[i], id)
    ensures var m' := Run(m, ops);
            && id in m'.channels && m'.channels[id].status == m.channels[id].status
            && Step(m', On(id, Finalize(height))).1.Err?
  {
    if ops != [] {
      SettledForGood(m, ops[..|ops| - 1], id, height);
    }
  }

  /** The opening deposit of `id` plus every accepted top-up since it was last opened. */
  function Funded(m: Manager, ops: seq<Op>, id: ChannelId): nat {
    if ops == [] then 0
    else
      var before, op := ops[..|ops| - 1], ops[|ops| - 1];
      if Opens(op, id) then op.deposit
      else
        Funded(m, before, id)
        + if op.On? && op.id == id && op.action.TopUp? && Step(Run(m, before), op).1.Ok? then op.action.amount else 0
  }

  lemma {:induction false} DepositIsFunding(disputePeriod: nat, expiry: nat, ops: seq<Op>, id: ChannelId)
    ensures var m := NewManager(disputePeriod, expiry);
            id in Run(m, ops).channels ==> Run(m, ops).channels[id].deposit == Funded(m, ops, id)
  {
    if ops != [] {
      var m, op := Run(NewManager(disputePeriod, expiry), ops[..|ops| - 1]), ops[|ops| - 1];
      DepositIsFunding(disputePeriod, expiry, ops[..|ops| - 1], id);
      if op.On? && op.id in m.channels {
        DepositGrows(m.channels[op.id], op.action);
      }
      hide Act;
    }
  }

  /** Finalizing pays exactly what was put in: the opening deposit plus all top-ups. */
  lemma PayoutIsFunding(disputePeriod: nat, expiry: nat, ops: seq<Op>, id: ChannelId, height: Height)
    requires Step(Run(NewManager(disputePeriod, expiry), ops), On(id, Finalize(height))).1.Ok?
    ensures var m := NewManager(disputePeriod, expiry);
            var r := Step(Run(m, ops), On(id, Finalize(height))).1.value;
            r.Payout? && r.senderRefund + r.receiverPayout == Funded(m, ops, id)
  {
    var m := NewManager(disputePeriod, expiry);
    RunKeepsBalanced(m, ops);
    DepositIsFunding(disputePeriod, expiry, ops, id);
    PayoutIff(Run(m, ops).channels[id], height);
  }

  // ---------------------------------------------------------------------
  // Who is owed what
  // ---------------------------------------------------------------------

  /** What each action on a channel asks for, and what the accepted ones change. */
  lemma ActOkIff(c: Channel, a: Action)
    ensures var (c', r) := Act(c, a);
            && (a.Apply? ==> (r.Ok? <==> c.status.Open? && a.update.nonce > c.nonce
                                         && a.update.senderBalance + a.update.receiverBalance == c.deposit))
            && (a.Dispute? ==> (r.Ok? <==> (a.disputer == c.sender || a.disputer == c.receiver)
                                           && (c.status.Open? || c.status.Closing?)
                                           && a.update.nonce > c.nonce
                                           && a.update.senderBalance + a.update.receiverBalance == c.deposit))
            && (a.Close? ==> (r.Ok? <==> (a.initiator == c.sender || a.initiator == c.receiver) && c.status.Open?))
            && (a.TopUp? ==> (r.Ok? <==> c.status.Open? && a.amount > 0))
            && (a.CheckExpired? ==> r == Ok(HasExpired(c.status.Open? && a.height >= c.expiresAt))
                                    && (c'.status.Expired? <==> r == Ok(HasExpired(true)) || c.status.Expired?))
  {
  }

  /** Which refusal an action meets. */
  lemma ActErrors(c: Channel, a: Action)
    ensures var r := Act(c, a).1;
            var party := (a.Close? ==> a.initiator == c.sender || a.initiator == c.receiver)
                         && (a.Dispute? ==> a.disputer == c.sender || a.disputer == c.receiver);
            var open := if a.Finalize? then c.status.Closing? || c.status.Disputed?
                        else c.status.Open? || (a.Dispute? && c.status.Closing?) || a.CheckExpired?;
            && (r == Err(NotParticipant) <==> !party)
            && (r == Err(ChannelNotOpen) <==> party && !open)
            && (r == Err(InvalidNonce) <==>
                  party && open && (a.Apply? || a.Dispute?) && a.update.nonce <= c.nonce)
            && (r == Err(InvalidBalances) <==>
                  party && open && (a.Apply? || a.Dispute?) && a.update.nonce > c.nonce
                  && a.update.senderBalance + a.update.receiverBalance != c.deposit)
            && (r == Err(InsufficientDeposit) <==> open && a.TopUp? && a.amount == 0)
            && (r == Err(DisputePeriodNotOver) <==> open && a.Finalize? && a.height < Since(c) + c.disputePeriod)
  {
  }

  /** The dispute period counts from the close, and anew from a dispute. */
  lemma PeriodCountsFrom(c: Channel, a: Action, height: Height)
    requires (a.Close? || a.Dispute?) && Act(c, a).1.Ok?
    ensures Act(Act(c, a).0, Finalize(height)).1.Ok? <==> a.height + c.disputePeriod <= height
  {
  }

  /** An accepted opening creates an open channel with the manager's periods, at the
      receiver's balance of nothing. */
  lemma OpeningMeans(m: Manager, sender: Address, receiver: Address, deposit: nat, height: Height)
    ensures var id := Digest(sender, receiver, height);
            var (m', r) := Step(m, OpenChannel(sender, receiver, deposit, height));
            && (r == Err(SameParticipants) <==> sender == receiver)
            && (r == Err(InsufficientDeposit) <==> sender != receiver && deposit == 0)
            && (r.Ok? <==> sender != receiver && deposit > 0)
            && (r.Err? ==> m' == m)
            && (r.Ok? ==>
                  && id in m'.channels
                  && var c := m'.channels[id];
                     && c.sender == sender && c.receiver == receiver && c.status.Open? && c.nonce == 0
                     && c.senderBalance == c.deposit == deposit && c.receiverBalance == 0
                     && c.disputePeriod == m.disputePeriod && c.expiresAt == height + m.expiry)
  {
  }

  /** The receiver's balance in the last state accepted by an update or dispute since `id`
      was last opened; nothing if there was none. */
  function ReceiverDue(m: Manager, ops: seq<Op>, id: ChannelId): nat {
    if ops == [] then 0
    else
      var before, op := ops[..|ops| - 1], ops[|ops| - 1];
      if Opens(op, id) then 0
      else if op.On? && op.id == id && (op.action.Apply? || op.action.Dispute?) && Step(Run(m, before), op).1.Ok?
      then op.action.update.receiverBalance
      else ReceiverDue(m, before, id)
  }

  /** The sender's balance in that state, or the opening deposit, with every top-up accepted
      since. */
  function SenderDue(m: Manager, ops: seq<Op>, id: ChannelId): nat {
    if ops == [] then 0
    else
      var before, op := ops[..|ops| - 1], ops[|ops| - 1];
      if Opens(op, id) then op.deposit
      else if op.On? && op.id == id && (op.action.Apply? || op.action.Dispute?) && Step(Run(m, before), op).1.Ok?
      then op.action.update.senderBalance
      else
        SenderDue(m, before, id)
        + if op.On? && op.id == id && op.action.TopUp? && Step(Run(m, before), op).1.Ok? then op.action.amount else 0
  }

  lemma BalancesMove(c: Channel, a: Action)
    ensures var (c', r) := Act(c, a);
            if (a.Apply? || a.Dispute?) && r.Ok?
            then c'.receiverBalance == a.update.receiverBalance && c'.senderBalance == a.update.senderBalance
            else c'.receiverBalance == c.receiverBalance
                 && c'.senderBalance == c.senderBalance + if a.TopUp? && r.Ok? then a.amount else 0
  {
  }

  lemma {:induction false} BalancesAreDue(disputePeriod: nat, expiry: nat, ops: seq<Op>, id: ChannelId)
    ensures var m := NewManager(disputePeriod, expiry);
            id in Run(m, ops).channels ==>
              && Run(m, ops).channels[id].senderBalance == SenderDue(m, ops, id)
              && Run(m, ops).channels[id].receiverBalance == ReceiverDue(m, ops, id)
  {
    if ops != [] {
      var m, op := Run(NewManager(disputePeriod, expiry), ops[..|ops| - 1]), ops[|ops| - 1];
      BalancesAreDue(disputePeriod, expiry, ops[..|ops| - 1], id);
      if op.On? && op.id in m.channels {
        BalancesMove(m.channels[op.id], op.action);
      }
      hide Act;
    }
  }

  /** Each party is paid its own share of the last accepted state: the receiver what that
      state gives the receiver, the sender the rest and all later top-ups. */
  lemma PayoutIsDue(disputePeriod: nat, expiry: nat, ops: seq<Op>, id: ChannelId, height: Height)
    requires Step(Run(NewManager(disputePeriod, expiry), ops), On(id, Finalize(height))).1.Ok?
    ensures var m := NewManager(disputePeriod, expiry);
            Step(Run(m, ops), On(id, Finalize(height))).1
            == Ok(Payout(SenderDue(m, ops, id), ReceiverDue(m, ops, id)))
  {
    BalancesAreDue(disputePeriod, expiry, ops, id);
    hide Run, SenderDue, ReceiverDue;
  }

  function ListedIds(index: map<Address, seq<ChannelId>>, a: Address): seq<ChannelId> {
    if a in index then index[a] else []
  }

  /** The ids of the accepted openings in which `a` was the sender (or the receiver). */
  function OpenedBy(ops: seq<Op>, a: Address, asSender: bool): seq<ChannelId> {
    if ops == [] then []
    else
      var op := ops[|ops| - 1];
      OpenedBy(ops[..|ops| - 1], a, asSender)
      + if op.OpenChannel? && op.sender != op.receiver && op.deposit > 0
           && a == (if asSender then op.sender else op.receiver)
        then [Digest(op.sender, op.receiver, op.height)] else []
  }

  /** Both indices list exactly the channels opened, in order, in every reachable state. */
  lemma {:induction false} IndicesListOpenings(disputePeriod: nat, expiry: nat, ops: seq<Op>, a: Address)
    ensures var m := Run(NewManager(disputePeriod, expiry), ops);
            && ListedIds(m.bySender, a) == OpenedBy(ops, a, true)
            && ListedIds(m.byReceiver, a) == OpenedBy(ops, a, false)
  {
    if ops != [] {
      hide Act;
      IndicesListOpenings(disputePeriod, expiry, ops[..|ops| - 1], a);
    }
  }

  // ---------------------------------------------------------------------
  // Conservation
  // ---------------------------------------------------------------------

  /** What a channel still holds: its deposit until it has been paid out. */
  function Held(c: Channel): nat {
    if c.status.Closed? then 0 else c.deposit
  }

  ghost function Holdings(channels: map<ChannelId, Channel>): map<ChannelId, nat> {
    map id | id in channels :: Held(channels[id])
  }

  /** What one operation brings in, pays out, and overwrites. */
  datatype Flow = Flow(received: nat, paid: nat, overwritten: nat)

  function FlowOf(m: Manager, op: Op): Flow {
    var r := Step(m, op).1;
    if r.Err? then Flow(0, 0, 0)
    else
      match op
      case OpenChannel(sender, receiver, deposit, height) =>
        var id := Digest(sender, receiver, height);
        Flow(deposit, 0, if id in m.channels then Held(m.channels[id]) else 0)
      case On(_, action) =>
        if action.TopUp? then Flow(action.amount, 0, 0)
        else if r.value.Payout? then Flow(0, r.value.senderRefund + r.value.receiverPayout, 0)
        else Flow(0, 0, 0)
  }

  function Flows(m: Manager, ops: seq<Op>): Flow {
    if ops == [] then Flow(0, 0, 0)
    else
      var n := |ops| - 1;
      var f, g := Flows(m, ops[..n]), FlowOf(Run(m, ops[..n]), ops[n]);
      Flow(f.received + g.received, f.paid + g.paid, f.overwritten + g.overwritten)
  }

  /** What an accepted action changes in the channel's holding. */
  lemma ActFlows(c: Channel, a: Action)
    requires Balanced(c) && Act(c, a).1.Ok?
    ensures var (c', r) := Act(c, a);
            Held(c) + (if a.TopUp? then a.amount else 0)
            == Held(c') + if r.value.Payout? then r.value.senderRefund + r.value.receiverPayout else 0
    ensures Act(c, a).1.value.Payout? ==> !a.TopUp?
  {
  }

  lemma HoldingsPut(channels: map<ChannelId, Channel>, id: ChannelId, c: Channel)
    ensures Total(Holdings(channels[id := c])) + (if id in channels then Held(channels[id]) else 0)
         == Total(Holdings(channels)) + Held(c)
  {
    assert Holdings(channels[id := c]) == Holdings(channels)[id := Held(c)];
    TotalPut(Holdings(channels), id, Held(c));
  }

  lemma StepBalances(m: Manager, op: Op)
    requires AllBalanced(m)
    ensures var f := FlowOf(m, op);
            Total(Holdings(m.channels)) + f.received
            == Total(Holdings(Step(m, op).0.channels)) + f.paid + f.overwritten
  {
    var m', r := Step(m, op).0, Step(m, op).1;
    var id := if op.On? then op.id else Digest(op.sender, op.receiver, op.height);
    if r.Ok? {
      if op.On? {
        ActFlows(m.channels[id], op.action);
      }
      hide Act;
      assert m'.channels == m.channels[id := m'.channels[id]];
      HoldingsPut(m.channels, id, m'.channels[id]);
    } else {
      assert m'.channels == m.channels;
    }
  }

  /** Over every run: all deposits and top-ups are still held, have been paid out, or were
      in a channel that a later opening under the same id overwrote. */
  lemma {:induction false} ChannelConservation(disputePeriod: nat, expiry: nat, ops: seq<Op>)
    ensures var m := NewManager(disputePeriod, expiry);
            var f := Flows(m, ops);
            f.received == Total(Holdings(Run(m, ops).channels)) + f.paid + f.overwritten
  {
    var m := NewManager(disputePeriod, expiry);
    if ops == [] {
      assert Holdings(m.channels) == map[];
    } else {
      var n := |ops| - 1;
      ChannelConservation(disputePeriod, expiry, ops[..n]);
      RunKeepsBalanced(m, ops[..n]);
      hide Step, FlowOf, AllBalanced;
      StepBalances(Run(m, ops[..n]), ops[n]);
    }
  }

  /** An accepted opening whose id is still held by a channel that was never paid out. */
  predicate ReopensLive(m: Manager, op: Op) {
    op.OpenChannel? && Step(m, op).1.Ok? &&
    var id := Digest(op.sender, op.receiver, op.height);
    id in m.channels && !m.channels[id].status.Closed?
  }

  predicate EverReopensLive(m: Manager, ops: seq<Op>) {
    ops != [] &&
    (EverReopensLive(m, ops[..|ops| - 1]) || ReopensLive(Run(m, ops[..|ops| - 1]), ops[|ops| - 1]))
  }

  lemma OverwritesIff(m: Manager, op: Op)
    requires AllBalanced(m)
    ensures FlowOf(m, op).overwritten > 0 <==> ReopensLive(m, op)
  {
  }

  /** Money is lost exactly when one pair opens twice at one height while the first
      channel is still live: the id does not tell the two apart. */
  lemma {:induction false} OverwrittenIff(m: Manager, ops: seq<Op>)
    requires AllBalanced(m)
    ensures Flows(m, ops).overwritten > 0 <==> EverReopensLive(m, ops)
  {
    if ops != [] {
      var n := |ops| - 1;
      OverwrittenIff(m, ops[..n]);
      RunKeepsBalanced(m, ops[..n]);
      hide Step, FlowOf, AllBalanced, ReopensLive;
      OverwritesIff(Run(m, ops[..n]), ops[n]);
    }
  }

  lemma SecondOpeningOverwrites(m: Manager, sender: Address, receiver: Address, height: Height)
    requires sender != receiver && Digest(sender, receiver, height) !in m.channels
    ensures var m1 := Step(m, OpenChannel(sender, receiver, 5, height)).0;
            FlowOf(m1, OpenChannel(sender, receiver, 7, height)).overwritten == 5
  {
  }
}
