/** The factory of bonding-curve tokens: supply, reserve and holders of every
    agent's token under buys and sells. */
module AgentTokens {
  import opened Types
  import opened Arithmetic
  import opened MapSums
  import opened BondingCurve

  datatype TokenError =
    | TokenAlreadyExists
    | TokenNotFound
    | InsufficientFunds
    | InsufficientTokens
    | InvalidAmount
    | ZeroAmount

  datatype AgentToken = AgentToken(
    agentId: Hash,
    totalSupply: nat,
    reserveBalance: nat,
    holders: map<Address, nat>,
    curve: Curve,
    createdAt: Height,
    creator: Address)

  datatype Factory = Factory(tokens: map<Hash, AgentToken>, totalCreated: nat)

  datatype Op =
    | Create(agent: Hash, curve: Curve, creator: Address, height: Height)
    | Buy(agent: Hash, buyer: Address, isa: nat)
    | Sell(agent: Hash, seller: Address, amount: nat)

  type Outcome = Result<nat, TokenError>

  function NewToken(agent: Hash, curve: Curve, creator: Address, height: Height): AgentToken {
    AgentToken(agent, 0, 0, map[], curve, height, creator)
  }

  function BuyFrom(token: AgentToken, buyer: Address, isa: nat): (AgentToken, Outcome) {
    var tokensOut := TokensFor(token.curve, token.totalSupply, isa);
    var cost := BuyCost(token.curve, token.totalSupply, tokensOut);
    if tokensOut == 0 then (token, Err(InvalidAmount))
    else if cost > isa then (token, Err(InsufficientFunds))
    else
      (token.(totalSupply := token.totalSupply + tokensOut,
              reserveBalance := token.reserveBalance + cost,
              holders := token.holders[buyer := Get(token.holders, buyer) + tokensOut]),
       Ok(tokensOut))
  }

  /** Every holder's balance is positive and together they are the supply. */
  ghost predicate Ledger(token: AgentToken) {
    && Total(token.holders) == token.totalSupply
    && forall h :: h in token.holders ==> token.holders[h] > 0
  }

  function SellTo(token: AgentToken, seller: Address, amount: nat): (AgentToken, Outcome)
    requires Ledger(token)
  {
    var balance := Get(token.holders, seller);
    var isaOut := SellProceeds(token.curve, token.totalSupply, amount);
    if balance < amount then (token, Err(InsufficientTokens))
    else if isaOut > token.reserveBalance then (token, Err(InsufficientFunds))
    else
      GetAtMostTotal(token.holders, seller);
      (token.(totalSupply := token.totalSupply - amount,
              reserveBalance := token.reserveBalance - isaOut,
              holders := if balance == amount then token.holders - {seller}
                         else token.holders[seller := balance - amount]),
       Ok(isaOut))
  }

  ghost predicate Ledgers(f: Factory) {
    forall a :: a in f.tokens ==> Ledger(f.tokens[a])
  }

  ghost function Step(f: Factory, op: Op): (Factory, Outcome)
    requires Ledgers(f)
  {
    match op
    case Create(agent, curve, creator, height) =>
      if agent in f.tokens then (f, Err(TokenAlreadyExists))
      else (Factory(f.tokens[agent := NewToken(agent, curve, creator, height)], f.totalCreated + 1), Ok(0))
    case Buy(agent, buyer, isa) =>
      if isa == 0 then (f, Err(ZeroAmount))
      else if agent !in f.tokens then (f, Err(TokenNotFound))
      else
        var (token, outcome) := BuyFrom(f.tokens[agent], buyer, isa);
        (f.(tokens := f.tokens[agent := token]), outcome)
    case Sell(agent, seller, amount) =>
      if amount == 0 then (f, Err(ZeroAmount))
      else if agent !in f.tokens then (f, Err(TokenNotFound))
      else
        var (token, outcome) := SellTo(f.tokens[agent], seller, amount);
        (f.(tokens := f.tokens[agent := token]), outcome)
  }

  lemma BuyKeepsLedger(token: AgentToken, buyer: Address, isa: nat)
    requires Ledger(token)
    ensures Ledger(BuyFrom(token, buyer, isa).0)
  {
    var tokensOut := TokensFor(token.curve, token.totalSupply, isa);
    TotalPut(token.holders, buyer, Get(token.holders, buyer) + tokensOut);
  }

  lemma SellKeepsLedger(token: AgentToken, seller: Address, amount: nat)
    requires Ledger(token) && amount > 0
    ensures Ledger(SellTo(token, seller, amount).0)
  {
    var balance := Get(token.holders, seller);
    if balance == amount {
      TotalRemove(token.holders, seller);
    } else if balance > amount {
      TotalPut(token.holders, seller, balance - amount);
    }
  }

  lemma StepKeepsLedgers(f: Factory, op: Op)
    requires Ledgers(f)
    ensures Ledgers(Step(f, op).0)
  {
    match op
    case Create(agent, curve, creator, height) =>
    case Buy(agent, buyer, isa) =>
      if agent in f.tokens {
        BuyKeepsLedger(f.tokens[agent], buyer, isa);
      }
    case Sell(agent, seller, amount) =>
      if agent in f.tokens && amount > 0 {
        SellKeepsLedger(f.tokens[agent], seller, amount);
      }
  }

  class AgentTokenFactory {
    var tokens: map<Hash, AgentToken>
    var totalTokensCreated: nat

    ghost function State(): Factory
      reads this
    {
      Factory(tokens, totalTokensCreated)
    }

    constructor ()
      ensures State() == Factory(map[], 0)
    {
      tokens, totalTokensCreated := map[], 0;
    }

    method CreateToken(agent: Hash, curve: Curve, creator: Address, height: Height) returns (r: Outcome)
      requires Ledgers(State())
      modifies this
      ensures (State(), r) == Step(old(State()), Create(agent, curve, creator, height))
      ensures Ledgers(State())
    {
      StepKeepsLedgers(State(), Create(agent, curve, creator, height));
      if agent in tokens {
        return Err(TokenAlreadyExists);
      }
      tokens := tokens[agent := NewToken(agent, curve, creator, height)];
      totalTokensCreated := totalTokensCreated + 1;
      return Ok(0);
    }

    method BuyTokens(agent: Hash, buyer: Address, isa: nat) returns (r: Outcome)
      requires Ledgers(State())
      modifies this
      ensures (State(), r) == Step(old(State()), Buy(agent, buyer, isa))
      ensures Ledgers(State())
    {
      hide BuyCost, TokensFor;
      StepKeepsLedgers(State(), Buy(agent, buyer, isa));
      if isa == 0 {
        return Err(ZeroAmount);
      }
      if agent !in tokens {
        return Err(TokenNotFound);
      }
      var token := tokens[agent];
      assert tokens == tokens[agent := token];
      var tokensOut := TokensForIsa(token.curve, token.totalSupply, isa);
      if tokensOut == 0 {
        return Err(InvalidAmount);
      }
      var actualCost := BuyCost(token.curve, token.totalSupply, tokensOut);
      if actualCost > isa {
        return Err(InsufficientFunds);
      }
      token := token.(totalSupply := token.totalSupply + tokensOut);
      token := token.(reserveBalance := token.reserveBalance + actualCost);
      token := token.(holders := token.holders[buyer := Get(token.holders, buyer) + tokensOut]);
      tokens := tokens[agent := token];
      return Ok(tokensOut);
    }

    method SellTokens(agent: Hash, seller: Address, amount: nat) returns (r: Outcome)
      requires Ledgers(State())
      modifies this
      ensures (State(), r) == Step(old(State()), Sell(agent, seller, amount))
      ensures Ledgers(State())
    {
      StepKeepsLedgers(State(), Sell(agent, seller, amount));
      if amount == 0 {
        return Err(ZeroAmount);
      }
      if agent !in tokens {
        return Err(TokenNotFound);
      }
      var token := tokens[agent];
      assert tokens == tokens[agent := token];
      var balance := Get(token.holders, seller);
      if balance < amount {
        return Err(InsufficientTokens);
      }
      var isaOut := SellProceeds(token.curve, token.totalSupply, amount);
      if isaOut > token.reserveBalance {
        return Err(InsufficientFunds);
      }
      GetAtMostTotal(token.holders, seller);
      token := token.(totalSupply := token.totalSupply - amount);
      token := token.(reserveBalance := token.reserveBalance - isaOut);
      if balance == amount {
        token := token.(holders := token.holders - {seller});
      } else {
        token := token.(holders := token.holders[seller := balance - amount]);
      }
      tokens := tokens[agent := token];
      return Ok(isaOut);
    }
  }

  // ---------------------------------------------------------------------
  // One step
  // ---------------------------------------------------------------------

  /** A buy succeeds exactly when it yields a token; the final cost check never fires. */
  lemma BuyOutcome(f: Factory, agent: Hash, buyer: Address, isa: nat)
    requires Ledgers(f)
    ensures var r := Step(f, Buy(agent, buyer, isa)).1;
            && r != Err(InsufficientFunds)
            && (r.Ok? <==> agent in f.tokens
                           && TokensFor(f.tokens[agent].curve, f.tokens[agent].totalSupply, isa) > 0)
  {
    if agent in f.tokens {
      TokensAlwaysAffordable(f.tokens[agent].curve, f.tokens[agent].totalSupply, isa);
    }
  }

  /** What creating a token does: once per agent, an empty token on the given curve. */
  lemma CreateEffect(f: Factory, agent: Hash, curve: Curve, creator: Address, height: Height)
    requires Ledgers(f)
    ensures var (f', r) := Step(f, Create(agent, curve, creator, height));
            && (r.Ok? <==> agent !in f.tokens)
            && (r.Err? ==> f' == f)
            && (r.Ok? ==>
                  && agent in f'.tokens && f'.totalCreated == f.totalCreated + 1
                  && var t := f'.tokens[agent];
                     && t.agentId == agent && t.curve == curve && t.creator == creator && t.createdAt == height
                     && t.totalSupply == 0 && t.reserveBalance == 0 && t.holders == map[])
  {
  }

  /** What a successful buy does, to whom: the tokens the payment buys go to the buyer, their
      cost to the reserve, and every other holder keeps what he has. */
  lemma BuyEffect(f: Factory, agent: Hash, buyer: Address, isa: nat)
    requires Ledgers(f)
    ensures var (f', r) := Step(f, Buy(agent, buyer, isa));
            if r.Err? then f' == f
            else
              && agent in f.tokens && agent in f'.tokens
              && var t, t' := f.tokens[agent], f'.tokens[agent];
                 && r.value == TokensFor(t.curve, t.totalSupply, isa) > 0
                 && t'.totalSupply == t.totalSupply + r.value
                 && t'.reserveBalance == t.reserveBalance + BuyCost(t.curve, t.totalSupply, r.value)
                 && Get(t'.holders, buyer) == Get(t.holders, buyer) + r.value
                 && (forall h :: h != buyer ==> Get(t'.holders, h) == Get(t.holders, h))
                 && t'.curve == t.curve
  {
    hide TokensFor, BuyCost;
    if agent in f.tokens {
      assert f.tokens[agent := f.tokens[agent]] == f.tokens;
    }
  }

  /** When a sell succeeds and what it does: the holder has the tokens and the reserve covers
      what buying them back would cost, which the seller is paid. */
  lemma SellEffect(f: Factory, agent: Hash, seller: Address, amount: nat)
    requires Ledgers(f)
    ensures var (f', r) := Step(f, Sell(agent, seller, amount));
            && (r.Ok? <==> amount > 0 && agent in f.tokens
                           && var t := f.tokens[agent];
                              && amount <= Get(t.holders, seller) && amount <= t.totalSupply
                              && BuyCost(t.curve, t.totalSupply - amount, amount) <= t.reserveBalance)
            && (r.Err? ==> f' == f)
            && (r.Ok? ==>
                  && agent in f'.tokens
                  && var t, t' := f.tokens[agent], f'.tokens[agent];
                     && r.value == BuyCost(t.curve, t'.totalSupply, amount)
                     && t'.totalSupply + amount == t.totalSupply
                     && t'.reserveBalance + r.value == t.reserveBalance
                     && Get(t'.holders, seller) + amount == Get(t.holders, seller)
                     && (forall h :: h != seller ==> Get(t'.holders, h) == Get(t.holders, h))
                     && t'.curve == t.curve)
  {
    hide SellProceeds, BuyCost;
    if agent in f.tokens {
      var t := f.tokens[agent];
      assert f.tokens[agent := t] == f.tokens;
      GetAtMostTotal(t.holders, seller);
      if amount <= t.totalSupply {
        SellUndoesBuy(t.curve, t.totalSupply - amount, amount);
      }
    }
  }

  /** Which refusal a buy or a sell meets. */
  lemma TradeErrors(f: Factory, op: Op)
    requires Ledgers(f) && !op.Create?
    ensures var r, known := Step(f, op).1, op.agent in f.tokens;
            var amount := if op.Buy? then op.isa else op.amount;
            && (r == Err(ZeroAmount) <==> amount == 0)
            && (r == Err(TokenNotFound) <==> amount > 0 && !known)
            && (r == Err(InvalidAmount) <==>
                  op.Buy? && amount > 0 && known
                  && TokensFor(f.tokens[op.agent].curve, f.tokens[op.agent].totalSupply, amount) == 0)
            && (r == Err(InsufficientTokens) <==>
                  op.Sell? && amount > 0 && known && Get(f.tokens[op.agent].holders, op.seller) < amount)
            && (r == Err(InsufficientFunds) ==> op.Sell?)
  {
    hide TokensFor, BuyCost, SellProceeds;
    if op.Buy? && op.agent in f.tokens {
      TokensAlwaysAffordable(f.tokens[op.agent].curve, f.tokens[op.agent].totalSupply, op.isa);
    }
  }

  /** Selling at once exactly the tokens of a successful buy returns the charge in
      full and puts the whole factory back as it was. */
  lemma BuyThenSell(f: Factory, agent: Hash, buyer: Address, isa: nat)
    requires Ledgers(f)
    requires Step(f, Buy(agent, buyer, isa)).1.Ok?
    ensures var (f', bought) := Step(f, Buy(agent, buyer, isa));
            && Ledgers(f')
            && Step(f', Sell(agent, buyer, bought.value))
               == (f, Ok(f'.tokens[agent].reserveBalance - f.tokens[agent].reserveBalance))
  {
    hide BuyCost, SellProceeds, TokensFor;
    StepKeepsLedgers(f, Buy(agent, buyer, isa));
    var token := f.tokens[agent];
    var (token', bought) := BuyFrom(token, buyer, isa);
    SellUndoesBuy(token.curve, token.totalSupply, bought.value);
    BuyKeepsLedger(token, buyer, isa);
    var token'' := SellTo(token', buyer, bought.value).0;
    assert token''.holders == token.holders;
    assert token'' == token;
    assert f.tokens[agent := token'][agent := token] == f.tokens;
  }

  /** A token is only ever touched by operations on its own agent. */
  lemma OthersUntouched(f: Factory, op: Op, other: Hash)
    requires Ledgers(f) && other != op.agent
    ensures var f' := Step(f, op).0;
            && (other in f'.tokens <==> other in f.tokens)
            && (other in f.tokens ==> f'.tokens[other] == f.tokens[other])
  {
  }

  // ---------------------------------------------------------------------
  // Runs
  // ---------------------------------------------------------------------

  ghost function Run(ops: seq<Op>): (f: Factory)
    ensures Ledgers(f)
  {
    if ops == [] then Factory(map[], 0)
    else
      StepKeepsLedgers(Run(ops[..|ops| - 1]), ops[|ops| - 1]);
      Step(Run(ops[..|ops| - 1]), ops[|ops| - 1]).0
  }

  /** The factory counts the tokens it has created, and never loses one. */
  lemma {:induction false} CreatedCount(ops: seq<Op>)
    ensures Run(ops).totalCreated == |Run(ops).tokens|
  {
    if ops != [] {
      hide BuyFrom, SellTo;
      CreatedCount(ops[..|ops| - 1]);
    }
  }

  /** The number of buys of `agent`'s token that succeeded during the run. */
  ghost function Buys(ops: seq<Op>, agent: Hash): nat {
    if ops == [] then 0
    else
      var before, op := ops[..|ops| - 1], ops[|ops| - 1];
      Buys(before, agent) + if op.Buy? && op.agent == agent && Step(Run(before), op).1.Ok? then 1 else 0
  }

  ghost function Sells(ops: seq<Op>, agent: Hash): nat {
    if ops == [] then 0
    else
      var before, op := ops[..|ops| - 1], ops[|ops| - 1];
      Sells(before, agent) + if op.Sell? && op.agent == agent && Step(Run(before), op).1.Ok? then 1 else 0
  }

  /** In every state of the run the agent's supply is too small to saturate a product. */
  ghost predicate ExactThroughout(ops: seq<Op>, agent: Hash) {
    && (agent in Run(ops).tokens ==> Exact(Run(ops).tokens[agent].curve, Run(ops).tokens[agent].totalSupply))
    && (ops == [] || ExactThroughout(ops[..|ops| - 1], agent))
  }

  /** The reserve lags behind the area under the curve by less than one unit
      per buy and runs ahead of it by less than one unit per sell. */
  ghost predicate Tracks(token: AgentToken, buys: nat, sells: nat)
    requires !token.curve.Sigmoid?
  {
    var unit := Unit(token.curve);
    && Area(token.curve, token.totalSupply) + buys <= unit * (token.reserveBalance + buys)
    && unit * token.reserveBalance + sells <= Area(token.curve, token.totalSupply) + unit * sells
  }

  /** Adding a rounded-down gain to the reserve uses up one more unit of slack. */
  lemma AddFloor(area: nat, area': nat, unit: nat, reserve: nat, buys: nat, sells: nat)
    requires unit > 0 && area <= area'
    requires area + buys <= unit * (reserve + buys)
    requires unit * reserve + sells <= area + unit * sells
    ensures var reserve' := reserve + (area' - area) / unit;
            && area' + (buys + 1) <= unit * (reserve' + (buys + 1))
            && unit * reserve' + sells <= area' + unit * sells
  {
    var gain := (area' - area) / unit;
    DivBounds(area' - area, unit);
    assert unit * (reserve + gain) == unit * reserve + gain * unit;
    assert unit * (reserve + gain + (buys + 1)) == unit * (reserve + buys) + gain * unit + unit;
  }

  lemma BuyTracks(token: AgentToken, buyer: Address, isa: nat, buys: nat, sells: nat)
    requires var (t, r) := BuyFrom(token, buyer, isa); r.Ok? && Exact(t.curve, t.totalSupply)
    requires Tracks(token, buys, sells)
    ensures Tracks(BuyFrom(token, buyer, isa).0, buys + 1, sells)
  {
    hide MulDiv, Area;
    var (t, r) := BuyFrom(token, buyer, isa);
    CostIsArea(token.curve, token.totalSupply, r.value);
    AddFloor(Area(token.curve, token.totalSupply), Area(t.curve, t.totalSupply),
             Unit(t.curve), token.reserveBalance, buys, sells);
  }

  lemma SubtractFloor(area: nat, area': nat, unit: nat, reserve: nat, buys: nat, sells: nat)
    requires unit > 0 && area' <= area
    requires area + buys <= unit * (reserve + buys)
    requires unit * reserve + sells <= area + unit * sells
    requires (area - area') / unit <= reserve
    ensures var reserve' := reserve - (area - area') / unit;
            && area' + buys <= unit * (reserve' + buys)
            && unit * reserve' + (sells + 1) <= area' + unit * (sells + 1)
  {
    var loss := (area - area') / unit;
    DivBounds(area - area', unit);
    assert unit * (reserve - loss) == unit * reserve - loss * unit;
    assert unit * (reserve - loss + buys) == unit * (reserve + buys) - loss * unit;
    assert unit * (sells + 1) == unit * sells + unit;
  }

  /** What a sell pays is the area given up, rounded down. */
  lemma AreaPaidOut(token: AgentToken, amount: nat) returns (loss: nat)
    requires Exact(token.curve, token.totalSupply) && amount <= token.totalSupply
    ensures loss == Area(token.curve, token.totalSupply) - Area(token.curve, token.totalSupply - amount)
    ensures SellProceeds(token.curve, token.totalSupply, amount) == loss / Unit(token.curve)
  {
    hide MulDiv, Area;
    var rest := token.totalSupply - amount;
    SellUndoesBuy(token.curve, rest, amount);
    CostIsArea(token.curve, rest, amount);
    loss := Area(token.curve, token.totalSupply) - Area(token.curve, rest);
  }

  lemma SellTracks(token: AgentToken, seller: Address, amount: nat, buys: nat, sells: nat)
    requires Ledger(token) && Exact(token.curve, token.totalSupply)
    requires SellTo(token, seller, amount).1.Ok?
    requires Tracks(token, buys, sells)
    ensures Tracks(SellTo(token, seller, amount).0, buys, sells + 1)
  {
    hide MulDiv, Area;
    var (t, r) := SellTo(token, seller, amount);
    GetAtMostTotal(token.holders, seller);
    var loss := AreaPaidOut(token, amount);
    SubtractFloor(Area(token.curve, token.totalSupply), Area(t.curve, t.totalSupply),
                  Unit(t.curve), token.reserveBalance, buys, sells);
  }

  lemma TradeTracks(f: Factory, op: Op, agent: Hash, buys: nat, sells: nat)
    requires Ledgers(f) && agent in f.tokens && Exact(f.tokens[agent].curve, f.tokens[agent].totalSupply)
    requires var f' := Step(f, op).0;
             agent in f'.tokens && Exact(f'.tokens[agent].curve, f'.tokens[agent].totalSupply)
    requires Tracks(f.tokens[agent], buys, sells)
    ensures var (f', r) := Step(f, op);
            && !f'.tokens[agent].curve.Sigmoid?
            && Tracks(f'.tokens[agent],
                      buys + (if op.Buy? && op.agent == agent && r.Ok? then 1 else 0),
                      sells + if op.Sell? && op.agent == agent && r.Ok? then 1 else 0)
  {
    hide Tracks, BuyCost, SellProceeds, TokensFor, Area;
    var token := f.tokens[agent];
    if op.agent != agent {
      OthersUntouched(f, op, agent);
    } else if op.Buy? && Step(f, op).1.Ok? {
      BuyTracks(token, op.buyer, op.isa, buys, sells);
    } else if op.Sell? && Step(f, op).1.Ok? {
      SellTracks(token, op.seller, op.amount, buys, sells);
    }
  }

  lemma FreshTracks(token: AgentToken)
    requires !token.curve.Sigmoid? && token.totalSupply == 0 && token.reserveBalance == 0
    ensures Tracks(token, 0, 0)
  {
  }

  lemma {:induction false} NeverTraded(ops: seq<Op>, agent: Hash)
    requires agent !in Run(ops).tokens
    ensures Buys(ops, agent) == 0 && Sells(ops, agent) == 0
  {
    if ops != [] {
      var before, op := ops[..|ops| - 1], ops[|ops| - 1];
      assert agent !in Run(before).tokens;
      NeverTraded(before, agent);
    }
  }

  /** Over every run, for the linear and the unsaturated quadratic curve. */
  lemma {:induction false} ReserveTracksArea(ops: seq<Op>, agent: Hash)
    requires agent in Run(ops).tokens && ExactThroughout(ops, agent)
    ensures Tracks(Run(ops).tokens[agent], Buys(ops, agent), Sells(ops, agent))
  {
    hide Tracks, BuyCost, SellProceeds, TokensFor;
    var before, op := ops[..|ops| - 1], ops[|ops| - 1];
    var f := Run(before);
    if agent !in f.tokens {
      NeverTraded(before, agent);
      FreshTracks(Run(ops).tokens[agent]);
    } else {
      ReserveTracksArea(before, agent);
      hide Run, Exact;
      TradeTracks(f, op, agent, Buys(before, agent), Sells(before, agent));
    }
  }

  lemma {:induction false} LinearIsExact(ops: seq<Op>, agent: Hash)
    requires agent in Run(ops).tokens ==> Run(ops).tokens[agent].curve.Linear?
    ensures ExactThroughout(ops, agent)
  {
    if ops != [] {
      var before, op := ops[..|ops| - 1], ops[|ops| - 1];
      assert agent in Run(before).tokens ==>
          agent in Run(ops).tokens && Run(ops).tokens[agent].curve == Run(before).tokens[agent].curve;
      LinearIsExact(before, agent);
    }
  }

  ghost predicate LinearWithin(slope: nat, supply: nat, reserve: nat, buys: nat, sells: nat) {
    slope * (supply * supply) - (2 * SCALE - 1) * buys
      <= 2 * SCALE * reserve
      <= slope * (supply * supply) + (2 * SCALE - 1) * sells
  }

  lemma LinearUnits(token: AgentToken, buys: nat, sells: nat)
    requires token.curve.Linear? && Tracks(token, buys, sells)
    ensures LinearWithin(token.curve.slope, token.totalSupply, token.reserveBalance, buys, sells)
  {
  }

  /** A linear token's reserve equals half the slope times the squared supply,
      up to less than one unit per trade, after any run whatever. */
  lemma LinearReserve(ops: seq<Op>, agent: Hash)
    requires agent in Run(ops).tokens && Run(ops).tokens[agent].curve.Linear?
    ensures var t := Run(ops).tokens[agent];
            LinearWithin(t.curve.slope, t.totalSupply, t.reserveBalance, Buys(ops, agent), Sells(ops, agent))
  {
    LinearIsExact(ops, agent);
    hide Tracks, LinearWithin;
    ReserveTracksArea(ops, agent);
    LinearUnits(Run(ops).tokens[agent], Buys(ops, agent), Sells(ops, agent));
  }

  lemma SquareProducts(t: AgentToken, buys: nat, sells: nat, amount: nat)
    requires t.curve.Linear? && amount <= t.totalSupply
    requires LinearWithin(t.curve.slope, t.totalSupply, t.reserveBalance, buys, sells)
    requires 2 * SCALE * (t.reserveBalance + buys) <= U128_MAX
    ensures t.curve.slope * SquareGap(t.totalSupply - amount, t.totalSupply) <= U128_MAX
    ensures t.curve.slope > 0 ==> t.totalSupply * t.totalSupply <= U128_MAX
  {
    var slope, square := t.curve.slope, t.totalSupply * t.totalSupply;
    MulMono(slope, slope, SquareGap(t.totalSupply - amount, t.totalSupply), square);
    if slope > 0 {
      MulMono(1, slope, square, square);
    }
  }

  /** A linear sell multiplies nothing that the reserve would not cover, give or take one unit
      per buy: while that fits, neither the squares nor the product of any sell overflow. */
  lemma LinearSellFits(ops: seq<Op>, agent: Hash, amount: nat)
    requires agent in Run(ops).tokens && Run(ops).tokens[agent].curve.Linear?
    requires amount <= Run(ops).tokens[agent].totalSupply
    requires 2 * SCALE * (Run(ops).tokens[agent].reserveBalance + Buys(ops, agent)) <= U128_MAX
    ensures var t := Run(ops).tokens[agent];
            && t.curve.slope * SquareGap(t.totalSupply - amount, t.totalSupply) <= U128_MAX
            && (t.curve.slope > 0 ==> t.totalSupply * t.totalSupply <= U128_MAX)
  {
    hide Run, Buys, Sells, LinearWithin, SquareGap;
    LinearReserve(ops, agent);
    SquareProducts(Run(ops).tokens[agent], Buys(ops, agent), Sells(ops, agent), amount);
  }

  lemma RunPush(ops: seq<Op>, op: Op)
    ensures Run(ops + [op]) == Step(Run(ops), op).0
  {
    assert (ops + [op])[..|ops|] == ops;
  }

  lemma RunCreate(agent: Hash, curve: Curve, creator: Address) returns (f: Factory)
    ensures f == Factory(map[agent := NewToken(agent, curve, creator, 0)], 1)
    ensures f == Run([Create(agent, curve, creator, 0)])
  {
    f := Factory(map[agent := NewToken(agent, curve, creator, 0)], 1);
    var op := Create(agent, curve, creator, 0);
    RunPush([], op);
    assert [] + [op] == [op];
    assert map[][agent := NewToken(agent, curve, creator, 0)] == f.tokens;
  }

  /** A buy or a sell of a run, read off the token it trades. */
  lemma BuyPush(ops: seq<Op>, agent: Hash, buyer: Address, isa: nat, tokensOut: nat, cost: nat)
    requires agent in Run(ops).tokens
    requires var t := Run(ops).tokens[agent];
             && TokensFor(t.curve, t.totalSupply, isa) == tokensOut && 0 < tokensOut
             && BuyCost(t.curve, t.totalSupply, tokensOut) == cost <= isa && 0 < isa
    ensures var t, op := Run(ops).tokens[agent], Buy(agent, buyer, isa);
            && Step(Run(ops), op).1 == Ok(tokensOut)
            && agent in Run(ops + [op]).tokens
            && Run(ops + [op]).tokens[agent]
               == t.(totalSupply := t.totalSupply + tokensOut,
                     reserveBalance := t.reserveBalance + cost,
                     holders := t.holders[buyer := Get(t.holders, buyer) + tokensOut])
  {
    RunPush(ops, Buy(agent, buyer, isa));
    hide Run, TokensFor, BuyCost;
  }

  lemma SellPush(ops: seq<Op>, agent: Hash, seller: Address, amount: nat, isaOut: nat)
    requires agent in Run(ops).tokens && amount > 0
    requires var t := Run(ops).tokens[agent];
             && SellProceeds(t.curve, t.totalSupply, amount) == isaOut <= t.reserveBalance
             && amount <= Get(t.holders, seller) && amount <= t.totalSupply
    ensures var t, op := Run(ops).tokens[agent], Sell(agent, seller, amount);
            && Step(Run(ops), op).1 == Ok(isaOut)
            && agent in Run(ops + [op]).tokens
            && Run(ops + [op]).tokens[agent]
               == t.(totalSupply := t.totalSupply - amount,
                     reserveBalance := t.reserveBalance - isaOut,
                     holders := if t.holders[seller] == amount then t.holders - {seller}
                                else t.holders[seller := t.holders[seller] - amount])
  {
    RunPush(ops, Sell(agent, seller, amount));
    hide Run, SellProceeds;
  }

  lemma SellRefused(f: Factory, agent: Hash, seller: Address, amount: nat)
    requires Ledgers(f) && agent in f.tokens && 0 < amount <= Get(f.tokens[agent].holders, seller)
    requires var t := f.tokens[agent]; SellProceeds(t.curve, t.totalSupply, amount) > t.reserveBalance
    ensures Step(f, Sell(agent, seller, amount)).1 == Err(InsufficientFunds)
  {
    hide SellProceeds;
  }

  lemma ProceedsWithinReserve(token: AgentToken, amount: nat, buys: nat, sells: nat)
    requires Exact(token.curve, token.totalSupply) && Tracks(token, buys, sells)
    requires amount <= token.totalSupply
    ensures SellProceeds(token.curve, token.totalSupply, amount) <= token.reserveBalance + SatSub(buys, 1)
  {
    var loss := AreaPaidOut(token, amount);
    var unit, reach := Unit(token.curve), token.reserveBalance + buys;
    if buys > 0 {
      DivAtLeast(loss, unit, reach);
    } else {
      DivWithin(loss, reach, unit);
    }
  }

  /** When a sell is refused for lack of reserve, the gap is rounding only: strictly less
      than the number of buys that ever went through, so never after a single one. */
  lemma ShortfallBounded(ops: seq<Op>, agent: Hash, seller: Address, amount: nat)
    requires agent in Run(ops).tokens && ExactThroughout(ops, agent)
    requires Step(Run(ops), Sell(agent, seller, amount)).1 == Err(InsufficientFunds)
    ensures var t := Run(ops).tokens[agent];
            t.reserveBalance < SellProceeds(t.curve, t.totalSupply, amount) < t.reserveBalance + Buys(ops, agent)
  {
    hide Tracks, MulDiv;
    ReserveTracksArea(ops, agent);
    var t := Run(ops).tokens[agent];
    GetAtMostTotal(t.holders, seller);
    ProceedsWithinReserve(t, amount, Buys(ops, agent), Sells(ops, agent));
  }

  lemma TwoPaymentsOfOne()
    ensures TokensFor(Linear(1), 0, 1) == 1414 && BuyCost(Linear(1), 0, 1414) == 0
    ensures TokensFor(Linear(1), 1414, 1) == 585 && BuyCost(Linear(1), 1414, 585) == 0
    ensures SellProceeds(Linear(1), 1999, 1999) == 1
  {
    LinearNotAlwaysMaximum();
    FloorSqrtUnique(1414 * 1414 + 2_000_000, 1999);
  }

  /** Such refusals happen: two payments of 1 buy 1999 tokens for nothing, and selling
      them all asks for the 1 that was never charged. */
  lemma RefusalHappens(agent: Hash, holder: Address)
    ensures var ops := [Create(agent, Linear(1), holder, 0)] + [Buy(agent, holder, 1)] + [Buy(agent, holder, 1)];
            && agent in Run(ops).tokens
            && Run(ops).tokens[agent].totalSupply == 1999
            && Run(ops).tokens[agent].reserveBalance == 0
            && Step(Run(ops), Sell(agent, holder, 1999)).1 == Err(InsufficientFunds)
  {
    hide Run, Step, TokensFor, BuyCost, SellProceeds;
    TwoPaymentsOfOne();
    var f0 := RunCreate(agent, Linear(1), holder);
    var ops := [Create(agent, Linear(1), holder, 0)];
    BuyPush(ops, agent, holder, 1, 1414, 0);
    ops := ops + [Buy(agent, holder, 1)];
    BuyPush(ops, agent, holder, 1, 585, 0);
    ops := ops + [Buy(agent, holder, 1)];
    SellRefused(Run(ops), agent, holder, 1999);
  }

  lemma EmptyTracks(token: AgentToken, buys: nat, sells: nat)
    requires !token.curve.Sigmoid? && Tracks(token, buys, sells) && token.totalSupply == 0
    ensures token.reserveBalance <= SatSub(sells, 1)
  {
    assert Area(token.curve, 0) == 0;
    if sells <= token.reserveBalance {
      MulMono(Unit(token.curve), Unit(token.curve), sells, token.reserveBalance);
    }
  }

  /** Once every token has been sold back, what is left in the reserve is less than one
      unit per sell. */
  lemma DustAfterSellOut(ops: seq<Op>, agent: Hash)
    requires agent in Run(ops).tokens && ExactThroughout(ops, agent)
    requires Run(ops).tokens[agent].totalSupply == 0
    ensures Run(ops).tokens[agent].reserveBalance <= SatSub(Sells(ops, agent), 1)
    ensures Run(ops).tokens[agent].holders == map[]
  {
    hide Tracks;
    ReserveTracksArea(ops, agent);
    var t := Run(ops).tokens[agent];
    EmptyTracks(t, Buys(ops, agent), Sells(ops, agent));
    assert t.holders.Keys == {} by {
      if h :| h in t.holders {
        GetAtMostTotal(t.holders, h);
      }
    }
  }

  // ---------------------------------------------------------------------
  // Buying at once and selling in parts
  // ---------------------------------------------------------------------

  /** Buying at once, then selling the last `last` tokens and after them the first `first`. */
  ghost function BuyThenParts(t: AgentToken, buyer: Address, isa: nat, first: nat, last: nat)
    : (AgentToken, Outcome, Outcome)
    requires Ledger(t) && first > 0 && last > 0
  {
    BuyKeepsLedger(t, buyer, isa);
    var t1 := BuyFrom(t, buyer, isa).0;
    SellKeepsLedger(t1, buyer, last);
    var (t2, later) := SellTo(t1, buyer, last);
    var (t3, rest) := SellTo(t2, buyer, first);
    (t3, later, rest)
  }

  /** What a sell does to a token whose reserve and seller can cover it. */
  lemma SellOkIff(t: AgentToken, seller: Address, amount: nat, isaOut: nat)
    requires Ledger(t) && 0 < amount <= Get(t.holders, seller)
    requires amount <= t.totalSupply ==> BuyCost(t.curve, t.totalSupply - amount, amount) == isaOut
    ensures SellTo(t, seller, amount).1 == if isaOut <= t.reserveBalance then Ok(isaOut) else Err(InsufficientFunds)
  {
    hide BuyCost, SellProceeds;
    GetAtMostTotal(t.holders, seller);
    SellUndoesBuy(t.curve, t.totalSupply - amount, amount);
  }

  lemma BuyBack(t: AgentToken, t2: AgentToken, seller: Address, first: nat)
    requires Ledger(t) && Ledger(t2) && first > 0
    requires t2.holders == t.holders[seller := Get(t.holders, seller) + first]
    ensures SellTo(t2, seller, first).1.Ok? ==> SellTo(t2, seller, first).0.holders == t.holders
  {
  }

  /** Both sales go through exactly when the reserve covers the two parts, and then everything
      is restored except the reserve, which keeps what the whole cost beyond its parts. */
  lemma SellInParts(t: AgentToken, buyer: Address, isa: nat, first: nat, last: nat)
    requires Ledger(t) && first > 0 && last > 0
    requires BuyFrom(t, buyer, isa).1 == Ok(first + last)
    ensures var (t3, later, rest) := BuyThenParts(t, buyer, isa, first, last);
            var a, b := BuyCost(t.curve, t.totalSupply, first), BuyCost(t.curve, t.totalSupply + first, last);
            var reserve := t.reserveBalance + BuyCost(t.curve, t.totalSupply, first + last);
            && (later.Ok? && rest.Ok? <==> a + b <= reserve)
            && (a + b <= reserve ==>
                  later == Ok(b) && rest == Ok(a) && t3 == t.(reserveBalance := reserve - a - b))
  {
    hide BuyCost, SellProceeds, TokensFor, Ledger;
    var a, b := BuyCost(t.curve, t.totalSupply, first), BuyCost(t.curve, t.totalSupply + first, last);
    BuyKeepsLedger(t, buyer, isa);
    var t1 := BuyFrom(t, buyer, isa).0;
    assert t1.holders[buyer] == Get(t.holders, buyer) + first + last;
    SellOkIff(t1, buyer, last, b);
    SellKeepsLedger(t1, buyer, last);
    var t2 := SellTo(t1, buyer, last).0;
    if b <= t1.reserveBalance {
      assert t2.holders == t.holders[buyer := Get(t.holders, buyer) + first];
      SellOkIff(t2, buyer, first, a);
      BuyBack(t, t2, buyer, first);
    }
  }

  /** On the linear and the unsaturated quadratic curve both sales always go through. */
  lemma SellInPartsOnExact(t: AgentToken, buyer: Address, isa: nat, first: nat, last: nat)
    requires Ledger(t) && first > 0 && last > 0
    requires BuyFrom(t, buyer, isa).1 == Ok(first + last) && Exact(t.curve, t.totalSupply + first + last)
    ensures var (t3, later, rest) := BuyThenParts(t, buyer, isa, first, last);
            && later.Ok? && rest.Ok?
            && t.reserveBalance <= t3.reserveBalance <= t.reserveBalance + 1
            && t3 == t.(reserveBalance := t3.reserveBalance)
  {
    hide BuyCost, BuyFrom, BuyThenParts, Ledger, Exact;
    SplitPurchase(t.curve, t.totalSupply, first, last);
    SellInParts(t, buyer, isa, first, last);
  }

  /** Whether that round trip pays: on the linear and the unsaturated quadratic curve never,
      on the sigmoid exactly when the price rises enough faster over the first part of the
      tokens than over the last. */
  lemma SellInPartsPaysIff(curve: Curve, supply: nat, first: nat, last: nat)
    ensures var gain := BuyCost(curve, supply, first) + BuyCost(curve, supply + first, last)
                        - BuyCost(curve, supply, first + last);
            && (Exact(curve, supply + first + last) ==> gain <= 0)
            && (curve.Sigmoid? ==>
                  var p0, pm, p1 := PriceAt(curve, supply), PriceAt(curve, supply + first),
                                    PriceAt(curve, supply + first + last);
                  gain > 0 <==> SplitExcess(p0, pm, p1, first, last) > Dropped(p0, pm, p1, first, last))
  {
    hide BuyCost, PriceAt, SplitExcess, Dropped, Exact;
    if Exact(curve, supply + first + last) {
      SplitPurchase(curve, supply, first, last);
    }
    if curve.Sigmoid? {
      SigmoidSplitIff(curve.maxPrice, curve.midpoint, supply, first, last);
    }
  }

  // ---------------------------------------------------------------------
  // The sigmoid's reserve
  // ---------------------------------------------------------------------

  /** A search that stops short of its bound at `t` has found `t`. */
  lemma SigmoidBuys(maxPrice: nat, midpoint: nat, supply: nat, isa: nat, t: nat)
    requires var curve := Sigmoid(maxPrice, midpoint);
             && isa > 0 && t < SearchBound(curve, supply, isa)
             && BuyCost(curve, supply, t) <= isa < BuyCost(curve, supply, t + 1)
    ensures TokensFor(Sigmoid(maxPrice, midpoint), supply, isa) == t
  {
    var curve := Sigmoid(maxPrice, midpoint);
    hide BuyCost, SearchBound;
    var found := LargestAffordable(curve, supply, isa, SearchBound(curve, supply, isa));
    if found > t {
      BuyCostMonotone(curve, supply, t + 1, found);
    }
  }

  lemma FirstPurchase()
    ensures TokensFor(Sigmoid(2000, 10), 0, 2750) == 5 && BuyCost(Sigmoid(2000, 10), 0, 5) == 2750
  {
    hide TokensFor;
    assert PriceAt(Sigmoid(2000, 10), 0) == 100;
    SigmoidBuys(2000, 10, 0, 2750, 5);
  }

  lemma MidRampPrice()
    ensures PriceAt(Sigmoid(2000, 10), 5) == 1000
  {
    hide MulDiv;
    MulDivAtLeast(1800, 3, 6, 900);
    MulDivAtLeast(1800, 3, 6, 901);
  }

  lemma FromMidRamp(tokens: nat)
    requires tokens > 5
    ensures BuyCost(Sigmoid(2000, 10), 5, tokens) == 1450 * tokens
    ensures tokens < SearchBound(Sigmoid(2000, 10), 5, 1450 * tokens)
  {
    hide PriceAt, BuyCost;
    MidRampPrice();
    Plateaus(2000, 10, 5 + tokens);
    TrapezoidCost(Sigmoid(2000, 10), 5, tokens);
    DivAtLeast(1450 * tokens, 1000, tokens);
  }

  lemma SecondPurchase(n: nat)
    ensures var curve, tokens := Sigmoid(2000, 10), 23 + 38 * n;
            TokensFor(curve, 5, 1450 * tokens) == tokens && BuyCost(curve, 5, tokens) == 1450 * tokens
  {
    hide TokensFor, PriceAt, BuyCost, SearchBound;
    var tokens := 23 + 38 * n;
    FromMidRamp(tokens);
    FromMidRamp(tokens + 1);
    SigmoidBuys(2000, 10, 5, 1450 * tokens, tokens);
  }

  lemma TwoHolders(agent: Hash, first: Address, second: Address, n: nat) returns (two: seq<Op>)
    requires first != second
    ensures var one := [Create(agent, Sigmoid(2000, 10), first, 0)] + [Buy(agent, first, 2750)];
            && two == one + [Buy(agent, second, 1450 * (23 + 38 * n))]
            && Step(Run(one), Buy(agent, second, 1450 * (23 + 38 * n))).1 == Ok(23 + 38 * n)
    ensures agent in Run(two).tokens
    ensures var t := Run(two).tokens[agent];
            && t.curve == Sigmoid(2000, 10)
            && t.totalSupply == 28 + 38 * n && t.reserveBalance == 36100 + 55100 * n
            && t.holders == map[first := 5, second := 23 + 38 * n]
  {
    hide Run, Step, TokensFor, BuyCost, SellProceeds, PriceAt;
    var f0 := RunCreate(agent, Sigmoid(2000, 10), first);
    FirstPurchase();
    SecondPurchase(n);
    var tokens := 23 + 38 * n;
    var created := [Create(agent, Sigmoid(2000, 10), first, 0)];
    var one := created + [Buy(agent, first, 2750)];
    BuyPush(created, agent, first, 2750, 5, 2750);
    BuyPush(one, agent, second, 1450 * tokens, tokens, 1450 * tokens);
    two := one + [Buy(agent, second, 1450 * tokens)];
  }

  lemma LaterSales(n: nat)
    ensures SellProceeds(Sigmoid(2000, 10), 28 + 38 * n, 19 + 29 * n) == 36100 + 55100 * n
    ensures SellProceeds(Sigmoid(2000, 10), 9 + 9 * n, 5) > 0
  {
    var curve := Sigmoid(2000, 10);
    assert PriceAt(curve, 28 + 38 * n) == 1900 && PriceAt(curve, 9 + 9 * n) == 1900;
    hide PriceAt;
    DivIsFloor(3800 * (19 + 29 * n), 2, 1900 * (19 + 29 * n));
    DivAtLeast((1900 + PriceAt(curve, 4 + 9 * n)) * 5, 2, 1);
  }

  lemma SecondSells(two: seq<Op>, agent: Hash, first: Address, second: Address, n: nat)
    requires first != second && agent in Run(two).tokens
    requires var t := Run(two).tokens[agent];
             && t.curve == Sigmoid(2000, 10)
             && t.totalSupply == 28 + 38 * n && t.reserveBalance == 36100 + 55100 * n
             && t.holders == map[first := 5, second := 23 + 38 * n]
    ensures var sold := two + [Sell(agent, second, 19 + 29 * n)];
            && Step(Run(two), Sell(agent, second, 19 + 29 * n)).1 == Ok(36100 + 55100 * n)
            && agent in Run(sold).tokens
            && var t := Run(sold).tokens[agent];
               && t.totalSupply == 9 + 9 * n && t.reserveBalance == 0
               && t.holders == map[first := 5, second := 4 + 9 * n]
               && Step(Run(sold), Sell(agent, first, 5)).1 == Err(InsufficientFunds)
  {
    hide Run, Step, Ledger, TokensFor, BuyCost, SellProceeds, PriceAt;
    LaterSales(n);
    SellPush(two, agent, second, 19 + 29 * n, 36100 + 55100 * n);
    SellRefused(Run(two + [Sell(agent, second, 19 + 29 * n)]), agent, first, 5);
  }

  /** On the sigmoid the reserve can run out with any number of tokens outstanding. One
      holder pays 2750 for 5 tokens, a second 33350 + 55100n for 23 + 38n; the second sells
      19 + 29n of his for 2750 more than he paid for all, which empties the reserve while
      9 + 9n tokens are still held, and the first can no longer sell his. */
  lemma SigmoidReserveRunsDry(agent: Hash, first: Address, second: Address, n: nat)
    requires first != second
    ensures var one := [Create(agent, Sigmoid(2000, 10), first, 0)] + [Buy(agent, first, 2750)];
            var two := one + [Buy(agent, second, 33350 + 55100 * n)];
            var sold := two + [Sell(agent, second, 19 + 29 * n)];
            && Step(Run(one), Buy(agent, second, 33350 + 55100 * n)).1 == Ok(23 + 38 * n)
            && Step(Run(two), Sell(agent, second, 19 + 29 * n)).1 == Ok(33350 + 55100 * n + 2750)
            && agent in Run(sold).tokens
            && var t := Run(sold).tokens[agent];
               && t.totalSupply == 9 + 9 * n && t.reserveBalance == 0
               && t.holders == map[first := 5, second := 4 + 9 * n]
               && Step(Run(sold), Sell(agent, first, 5)).1 == Err(InsufficientFunds)
  {
    hide Run, Step, TokensFor, BuyCost, SellProceeds, PriceAt;
    var two := TwoHolders(agent, first, second, n);
    SecondSells(two, agent, first, second, n);
  }

  // ---------------------------------------------------------------------
  // Where the supply governs a sigmoid's reserve
  // ---------------------------------------------------------------------

  ghost predicate AtPrice(f: Factory, agent: Hash, p: nat) {
    && agent in f.tokens && f.tokens[agent].curve.Sigmoid?
    && PriceAt(f.tokens[agent].curve, f.tokens[agent].totalSupply) == p
  }

  lemma FlatCost(curve: Curve, supply: nat, tokens: nat, p: nat)
    requires curve.Sigmoid? && PriceAt(curve, supply) == p && PriceAt(curve, supply + tokens) == p
    ensures BuyCost(curve, supply, tokens) == p * tokens
  {
    hide PriceAt;
    TrapezoidCost(curve, supply, tokens);
    assert (p + p) * tokens == 2 * (p * tokens);
  }

  lemma FlatBuy(t: AgentToken, buyer: Address, isa: nat, p: nat)
    requires var (t', r) := BuyFrom(t, buyer, isa);
             && t.curve.Sigmoid? && r.Ok?
             && PriceAt(t.curve, t.totalSupply) == p && PriceAt(t.curve, t'.totalSupply) == p
    ensures var t' := BuyFrom(t, buyer, isa).0;
            t'.reserveBalance - p * t'.totalSupply == t.reserveBalance - p * t.totalSupply
  {
    hide BuyCost, TokensFor, PriceAt;
    var tokensOut := TokensFor(t.curve, t.totalSupply, isa);
    FlatCost(t.curve, t.totalSupply, tokensOut, p);
    assert p * (t.totalSupply + tokensOut) == p * t.totalSupply + p * tokensOut;
  }

  lemma FlatSell(t: AgentToken, seller: Address, amount: nat, p: nat)
    requires Ledger(t) && SellTo(t, seller, amount).1.Ok?
    requires var t' := SellTo(t, seller, amount).0;
             t.curve.Sigmoid? && PriceAt(t.curve, t.totalSupply) == p && PriceAt(t.curve, t'.totalSupply) == p
    ensures var t' := SellTo(t, seller, amount).0;
            t'.reserveBalance - p * t'.totalSupply == t.reserveBalance - p * t.totalSupply
  {
    hide BuyCost, SellProceeds, PriceAt;
    GetAtMostTotal(t.holders, seller);
    var rest := t.totalSupply - amount;
    SellUndoesBuy(t.curve, rest, amount);
    FlatCost(t.curve, rest, amount, p);
    assert p * t.totalSupply == p * rest + p * amount;
  }

  /** Between two states with the same price the reserve moves by that price per token. */
  lemma FlatStep(f: Factory, op: Op, agent: Hash, p: nat)
    requires Ledgers(f) && AtPrice(f, agent, p) && AtPrice(Step(f, op).0, agent, p)
    ensures var t, t' := f.tokens[agent], Step(f, op).0.tokens[agent];
            && t'.curve == t.curve
            && t'.reserveBalance - p * t'.totalSupply == t.reserveBalance - p * t.totalSupply
  {
    hide BuyCost, SellProceeds, TokensFor, PriceAt;
    var t := f.tokens[agent];
    if op.agent != agent {
      OthersUntouched(f, op, agent);
    } else if op.Buy? && Step(f, op).1.Ok? {
      FlatBuy(t, op.buyer, op.isa, p);
    } else if op.Sell? && Step(f, op).1.Ok? {
      FlatSell(t, op.seller, op.amount, p);
    }
  }

  /** Over any part of any run during which the price does not move, on either plateau or at
      one point of the ramp, the reserve is governed by the supply exactly. */
  lemma {:induction false} FlatRun(before: seq<Op>, later: seq<Op>, agent: Hash, p: nat)
    requires forall k :: 0 <= k <= |later| ==> AtPrice(Run(before + later[..k]), agent, p)
    ensures AtPrice(Run(before), agent, p) && AtPrice(Run(before + later), agent, p)
    ensures var t, t' := Run(before).tokens[agent], Run(before + later).tokens[agent];
            t'.reserveBalance - p * t'.totalSupply == t.reserveBalance - p * t.totalSupply
  {
    hide Run, AtPrice;
    assert before + later[..0] == before && before + later[..|later|] == before + later;
    assert AtPrice(Run(before + later[..0]), agent, p) && AtPrice(Run(before + later[..|later|]), agent, p);
    if later != [] {
      var n := |later| - 1;
      forall k | 0 <= k <= n
        ensures AtPrice(Run(before + later[..n][..k]), agent, p)
      {
        assert later[..n][..k] == later[..k];
      }
      FlatRun(before, later[..n], agent, p);
      assert before + later[..n] + [later[n]] == before + later;
      RunPush(before + later[..n], later[n]);
      FlatStep(Run(before + later[..n]), later[n], agent, p);
    }
  }

  /** In every state of the run the agent's price is still the one it started at. */
  ghost predicate FlatThroughout(ops: seq<Op>, agent: Hash) {
    && (agent in Run(ops).tokens && Run(ops).tokens[agent].curve.Sigmoid? ==>
          AtPrice(Run(ops), agent, Run(ops).tokens[agent].curve.maxPrice / 20))
    && (ops == [] || FlatThroughout(ops[..|ops| - 1], agent))
  }

  /** From creation on, while the supply stays on the low plateau: the reserve is exactly the
      bottom price times the supply. */
  lemma {:induction false} FlatReserve(ops: seq<Op>, agent: Hash)
    requires agent in Run(ops).tokens && Run(ops).tokens[agent].curve.Sigmoid? && FlatThroughout(ops, agent)
    ensures var t := Run(ops).tokens[agent]; t.reserveBalance == t.curve.maxPrice / 20 * t.totalSupply
  {
    var before, op := ops[..|ops| - 1], ops[|ops| - 1];
    var f := Run(before);
    hide BuyCost, SellProceeds, TokensFor, PriceAt;
    if agent in f.tokens {
      assert Run(ops).tokens[agent].curve == f.tokens[agent].curve;
      FlatReserve(before, agent);
      hide Run, Step;
      FlatStep(f, op, agent, f.tokens[agent].curve.maxPrice / 20);
    }
  }

  lemma FlatProceeds(curve: Curve, supply: nat, amount: nat)
    requires curve.Sigmoid? && PriceAt(curve, supply) == curve.maxPrice / 20 && amount <= supply
    ensures SellProceeds(curve, supply, amount) <= curve.maxPrice / 20 * supply
  {
    hide PriceAt, BuyCost, SellProceeds;
    var p := curve.maxPrice / 20;
    Plateaus(curve.maxPrice, curve.midpoint, 0);
    PriceMonotone(curve, 0, supply - amount);
    PriceMonotone(curve, supply - amount, supply);
    SellUndoesBuy(curve, supply - amount, amount);
    FlatCost(curve, supply - amount, amount, p);
    MulMono(p, p, amount, supply);
  }

  /** So no sale is refused there for lack of reserve. */
  lemma FlatNeverRefuses(ops: seq<Op>, agent: Hash, seller: Address, amount: nat)
    requires agent in Run(ops).tokens && Run(ops).tokens[agent].curve.Sigmoid? && FlatThroughout(ops, agent)
    ensures Step(Run(ops), Sell(agent, seller, amount)).1 != Err(InsufficientFunds)
  {
    FlatReserve(ops, agent);
    var t := Run(ops).tokens[agent];
    hide Run, FlatThroughout, SellProceeds, PriceAt;
    if 0 < amount <= Get(t.holders, seller) {
      GetAtMostTotal(t.holders, seller);
      FlatProceeds(t.curve, t.totalSupply, amount);
    }
  }

  lemma {:induction false} FreeIsFlat(ops: seq<Op>, agent: Hash)
    requires agent in Run(ops).tokens ==>
               Run(ops).tokens[agent].curve.Sigmoid? && Run(ops).tokens[agent].curve.maxPrice <= 1
    ensures FlatThroughout(ops, agent)
  {
    hide BuyCost, SellProceeds, TokensFor, PriceAt;
    if agent in Run(ops).tokens {
      var t := Run(ops).tokens[agent];
      Plateaus(t.curve.maxPrice, t.curve.midpoint, t.totalSupply);
    }
    if ops != [] {
      var before := ops[..|ops| - 1];
      assert agent in Run(before).tokens ==>
          agent in Run(ops).tokens && Run(ops).tokens[agent].curve == Run(before).tokens[agent].curve;
      FreeIsFlat(before, agent);
    }
  }

  lemma TopPriceCovers(low: nat, top: nat, count: nat)
    requires low < top
    ensures (low + top) * count / 2 <= top * count
    ensures count <= top * count / Max(low, 1)
  {
    MulMono(low + top, 2 * top, count, count);
    assert 2 * top * count == 2 * (top * count);
    DivWithin((low + top) * count, top * count, 2);
    MulMono(count, count, Max(low, 1), top);
    DivAtLeast(top * count, Max(low, 1), count);
  }

  /** A payment of `count` top prices buys at least that many tokens from supply 0. */
  lemma TopPriceBuys(maxPrice: nat, midpoint: nat, count: nat)
    requires maxPrice >= 2 && count > midpoint
    ensures TokensFor(Sigmoid(maxPrice, midpoint), 0, maxPrice * 19 / 20 * count) >= count
  {
    var curve := Sigmoid(maxPrice, midpoint);
    var low, top := maxPrice / 20, maxPrice * 19 / 20;
    Plateaus(maxPrice, midpoint, count);
    hide PriceAt;
    TrapezoidCost(curve, 0, count);
    TopPriceCovers(low, top, count);
    hide BuyCost;
    MulMono(1, top, 1, count);
    assert count <= SearchBound(curve, 0, top * count);
  }

  lemma PastRampGain(low: nat, top: nat, bought: nat, kept: nat, n: nat)
    requires low < top && kept <= bought && bought >= 2 * n + 2 * Mul(top, kept) + 1
    ensures top * (bought - kept) > (low + top) * bought / 2 + n
  {
    MulMono(low + top, 2 * top - 1, bought, bought);
    assert (2 * top - 1) * bought == 2 * (top * bought) - bought;
    assert top * (bought - kept) == top * bought - top * kept;
  }

  lemma SellPastRamp(maxPrice: nat, midpoint: nat, bought: nat, n: nat)
    requires maxPrice >= 2
    requires bought >= 2 * n + 2 * Mul(maxPrice * 19 / 20, midpoint + 1) + midpoint + 1
    ensures bought > midpoint + 1
    ensures var curve := Sigmoid(maxPrice, midpoint);
            SellProceeds(curve, bought, bought - (midpoint + 1)) > BuyCost(curve, 0, bought) + n
  {
    var curve := Sigmoid(maxPrice, midpoint);
    var low, top := maxPrice / 20, maxPrice * 19 / 20;
    MulMono(1, top, 1, midpoint + 1);
    var amount := bought - (midpoint + 1);
    Plateaus(maxPrice, midpoint, bought);
    Plateaus(maxPrice, midpoint, midpoint + 1);
    SellUndoesBuy(curve, midpoint + 1, amount);
    FlatCost(curve, midpoint + 1, amount, top);
    TrapezoidCost(curve, 0, bought);
    hide PriceAt, BuyCost, SellProceeds;
    PastRampGain(low, top, bought, midpoint + 1, n);
  }

  /** On every sigmoid that charges anything, one buyer is enough: having bought far enough
      past the ramp, he is refused the sale of what lies beyond it, and what the reserve
      misses has no bound. */
  lemma SigmoidShortfall(agent: Hash, holder: Address, maxPrice: nat, midpoint: nat, n: nat)
      returns (isa: nat, amount: nat)
    requires maxPrice >= 2
    ensures var curve := Sigmoid(maxPrice, midpoint);
            var ops := [Create(agent, curve, holder, 0)] + [Buy(agent, holder, isa)];
            && agent in Run(ops).tokens && Run(ops).tokens[agent].curve == curve
            && Step(Run(ops), Sell(agent, holder, amount)).1 == Err(InsufficientFunds)
            && var t := Run(ops).tokens[agent];
               amount <= t.totalSupply && SellProceeds(curve, t.totalSupply, amount) > t.reserveBalance + n
  {
    var curve := Sigmoid(maxPrice, midpoint);
    var low, top := maxPrice / 20, maxPrice * 19 / 20;
    var count := 2 * n + 2 * Mul(top, midpoint + 1) + midpoint + 1;
    isa := top * count;
    MulMono(1, top, 1, count);
    TopPriceBuys(maxPrice, midpoint, count);
    TokensAlwaysAffordable(curve, 0, isa);
    hide Run, Step, TokensFor, BuyCost, SellProceeds, PriceAt;
    var f0 := RunCreate(agent, curve, holder);
    var bought := TokensFor(curve, 0, isa);
    amount := bought - (midpoint + 1);
    BuyPush([Create(agent, curve, holder, 0)], agent, holder, isa, bought, BuyCost(curve, 0, bought));
    SellPastRamp(maxPrice, midpoint, bought, n);
    SellRefused(Run([Create(agent, curve, holder, 0)] + [Buy(agent, holder, isa)]), agent, holder, amount);
  }

  /** The curve-level condition, which can be read off when the token is created: a sigmoid
      token never refuses a covered sale for lack of reserve, in any run, exactly when its
      top price is 0 or 1. */
  lemma SigmoidNeverRefusesIff(maxPrice: nat, midpoint: nat)
    ensures (forall ops: seq<Op>, agent: Hash, seller: Address, amount: nat ::
               agent in Run(ops).tokens && Run(ops).tokens[agent].curve == Sigmoid(maxPrice, midpoint) ==>
               Step(Run(ops), Sell(agent, seller, amount)).1 != Err(InsufficientFunds))
            <==> maxPrice <= 1
  {
    hide Run, Step, PriceAt;
    if maxPrice <= 1 {
      forall ops: seq<Op>, agent: Hash, seller: Address, amount: nat
        | agent in Run(ops).tokens && Run(ops).tokens[agent].curve == Sigmoid(maxPrice, midpoint)
        ensures Step(Run(ops), Sell(agent, seller, amount)).1 != Err(InsufficientFunds)
      {
        FreeIsFlat(ops, agent);
        FlatNeverRefuses(ops, agent, seller, amount);
      }
    } else {
      var isa, amount := SigmoidShortfall(0, 0, maxPrice, midpoint, 0);
    }
  }

  lemma ThreeAtTop(maxPrice: nat, midpoint: nat, supply: nat)
    requires maxPrice >= 2 && supply > midpoint
    ensures var curve, top := Sigmoid(maxPrice, midpoint), maxPrice * 19 / 20;
            TokensFor(curve, supply, 3 * top) == 3 && BuyCost(curve, supply, 3) == 3 * top
  {
    var curve, top := Sigmoid(maxPrice, midpoint), maxPrice * 19 / 20;
    Plateaus(maxPrice, midpoint, supply);
    Plateaus(maxPrice, midpoint, supply + 3);
    Plateaus(maxPrice, midpoint, supply + 4);
    FlatCost(curve, supply, 3, top);
    FlatCost(curve, supply, 4, top);
    DivAtLeast(3 * top, top, 3);
    hide TokensFor, BuyCost, PriceAt;
    SigmoidBuys(maxPrice, midpoint, supply, 3 * top, 3);
  }

  lemma PartsCostMore(maxPrice: nat, midpoint: nat, bought: nat)
    requires maxPrice >= 2 && bought > midpoint
    ensures SellProceeds(Sigmoid(maxPrice, midpoint), bought + 3, bought + 3)
          < BuyCost(Sigmoid(maxPrice, midpoint), 0, bought) + 3 * (maxPrice * 19 / 20)
  {
    var curve := Sigmoid(maxPrice, midpoint);
    hide PriceAt, BuyCost, SellProceeds;
    Plateaus(maxPrice, midpoint, bought);
    Plateaus(maxPrice, midpoint, bought + 3);
    TrapezoidCost(curve, 0, bought);
    TrapezoidCost(curve, 0, bought + 3);
    SellUndoesBuy(curve, 0, bought + 3);
    CheaperAtOnce(maxPrice / 20, maxPrice * 19 / 20, bought);
  }

  /** A first payment of `midpoint + 1` top prices, and what it buys. */
  function FirstPayment(maxPrice: nat, midpoint: nat): nat {
    maxPrice * 19 / 20 * (midpoint + 1)
  }

  function FirstBatch(maxPrice: nat, midpoint: nat): nat {
    TokensFor(Sigmoid(maxPrice, midpoint), 0, FirstPayment(maxPrice, midpoint))
  }

  lemma FirstBatchPastRamp(maxPrice: nat, midpoint: nat)
    requires maxPrice >= 2
    ensures FirstPayment(maxPrice, midpoint) > 0 && FirstBatch(maxPrice, midpoint) > midpoint
    ensures BuyCost(Sigmoid(maxPrice, midpoint), 0, FirstBatch(maxPrice, midpoint)) <= FirstPayment(maxPrice, midpoint)
  {
    hide TokensFor, BuyCost;
    MulMono(1, maxPrice * 19 / 20, 1, midpoint + 1);
    TopPriceBuys(maxPrice, midpoint, midpoint + 1);
    TokensAlwaysAffordable(Sigmoid(maxPrice, midpoint), 0, FirstPayment(maxPrice, midpoint));
  }

  /** Buying past the ramp, buying three tokens more, and selling all of them at once,
      over and over. */
  function Cycles(agent: Hash, trader: Address, maxPrice: nat, midpoint: nat, n: nat): seq<Op> {
    if n == 0 then [Create(agent, Sigmoid(maxPrice, midpoint), trader, 0)]
    else
      Cycles(agent, trader, maxPrice, midpoint, n - 1)
      + [Buy(agent, trader, FirstPayment(maxPrice, midpoint))]
      + [Buy(agent, trader, 3 * (maxPrice * 19 / 20))]
      + [Sell(agent, trader, FirstBatch(maxPrice, midpoint) + 3)]
  }

  lemma BuyTwiceSellAll(before: seq<Op>, agent: Hash, trader: Address, isa: nat, bought: nat, isa': nat)
    requires agent in Run(before).tokens
    requires var t := Run(before).tokens[agent];
             && t.totalSupply == 0 && t.holders == map[] && isa > 0 && isa' > 0
             && TokensFor(t.curve, 0, isa) == bought > 0 && BuyCost(t.curve, 0, bought) <= isa
             && TokensFor(t.curve, bought, isa') == 3 && BuyCost(t.curve, bought, 3) == isa'
             && SellProceeds(t.curve, bought + 3, bought + 3) < BuyCost(t.curve, 0, bought) + isa'
    ensures var ops := before + [Buy(agent, trader, isa)] + [Buy(agent, trader, isa')]
                       + [Sell(agent, trader, bought + 3)];
            && agent in Run(ops).tokens
            && var t, t' := Run(before).tokens[agent], Run(ops).tokens[agent];
               t'.curve == t.curve && t'.totalSupply == 0 && t'.holders == map[] && t'.reserveBalance > t.reserveBalance
  {
    hide Run, Step, Ledger, TokensFor, BuyCost, SellProceeds;
    var curve := Run(before).tokens[agent].curve;
    BuyPush(before, agent, trader, isa, bought, BuyCost(curve, 0, bought));
    var ops := before + [Buy(agent, trader, isa)];
    BuyPush(ops, agent, trader, isa', 3, isa');
    ops := ops + [Buy(agent, trader, isa')];
    SellPush(ops, agent, trader, bought + 3, SellProceeds(curve, bought + 3, bought + 3));
  }

  lemma OneCycle(before: seq<Op>, agent: Hash, trader: Address, maxPrice: nat, midpoint: nat)
    requires maxPrice >= 2 && agent in Run(before).tokens
    requires var t := Run(before).tokens[agent];
             t.curve == Sigmoid(maxPrice, midpoint) && t.totalSupply == 0 && t.holders == map[]
    ensures var top := maxPrice * 19 / 20;
            var ops := before + [Buy(agent, trader, FirstPayment(maxPrice, midpoint))] + [Buy(agent, trader, 3 * top)]
                       + [Sell(agent, trader, FirstBatch(maxPrice, midpoint) + 3)];
            && agent in Run(ops).tokens
            && var t, t' := Run(before).tokens[agent], Run(ops).tokens[agent];
               t'.curve == t.curve && t'.totalSupply == 0 && t'.holders == map[] && t'.reserveBalance > t.reserveBalance
  {
    hide Run, Step, TokensFor, BuyCost, SellProceeds, PriceAt, FirstPayment;
    var bought := FirstBatch(maxPrice, midpoint);
    FirstBatchPastRamp(maxPrice, midpoint);
    ThreeAtTop(maxPrice, midpoint, bought);
    PartsCostMore(maxPrice, midpoint, bought);
    BuyTwiceSellAll(before, agent, trader, FirstPayment(maxPrice, midpoint), bought, 3 * (maxPrice * 19 / 20));
  }

  /** On every sigmoid that charges anything each such cycle leaves something behind, so that
      the reserve held against no token at all has no bound. */
  lemma {:induction false} SigmoidReserveUnbounded(agent: Hash, trader: Address, maxPrice: nat, midpoint: nat, n: nat)
    requires maxPrice >= 2
    ensures var ops := Cycles(agent, trader, maxPrice, midpoint, n);
            && |ops| == 1 + 3 * n && agent in Run(ops).tokens
            && var t := Run(ops).tokens[agent];
               && t.curve == Sigmoid(maxPrice, midpoint) && t.totalSupply == 0 && t.holders == map[]
               && t.reserveBalance >= n
  {
    hide Run, Step, TokensFor, BuyCost, SellProceeds, PriceAt;
    if n == 0 {
      var f := RunCreate(agent, Sigmoid(maxPrice, midpoint), trader);
    } else {
      var ops := Cycles(agent, trader, maxPrice, midpoint, n - 1);
      SigmoidReserveUnbounded(agent, trader, maxPrice, midpoint, n - 1);
      OneCycle(ops, agent, trader, maxPrice, midpoint);
    }
  }

  ghost predicate SoldOut(ops: seq<Op>, agent: Hash, curve: Curve) {
    agent in Run(ops).tokens && Run(ops).tokens[agent].curve == curve && Run(ops).tokens[agent].totalSupply == 0
  }

  ghost predicate ReserveBounded(curve: Curve, r: nat) {
    forall ops, agent :: SoldOut(ops, agent, curve) ==> Run(ops).tokens[agent].reserveBalance <= r
  }

  /** Whether some amount bounds what is left in the reserve when all tokens are sold back,
      in whatever run: the same condition decides. */
  lemma SigmoidReserveBoundedIff(maxPrice: nat, midpoint: nat)
    ensures (exists r: nat :: ReserveBounded(Sigmoid(maxPrice, midpoint), r)) <==> maxPrice <= 1
  {
    hide Run, PriceAt;
    if maxPrice <= 1 {
      forall ops: seq<Op>, agent: Hash | SoldOut(ops, agent, Sigmoid(maxPrice, midpoint))
        ensures Run(ops).tokens[agent].reserveBalance <= 0
      {
        FreeIsFlat(ops, agent);
        FlatReserve(ops, agent);
      }
      assert ReserveBounded(Sigmoid(maxPrice, midpoint), 0);
    } else {
      forall r: nat
        ensures !ReserveBounded(Sigmoid(maxPrice, midpoint), r)
      {
        SigmoidReserveUnbounded(0, 0, maxPrice, midpoint, r + 1);
        assert SoldOut(Cycles(0, 0, maxPrice, midpoint, r + 1), 0, Sigmoid(maxPrice, midpoint));
      }
    }
  }
}
