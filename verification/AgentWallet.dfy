/** Agent wallets: a balance guarded by a period limit, a daily limit and a monthly
    limit, each counted in a lazily reset window. */
module AgentWallets {
  import opened Types
  import opened Arithmetic
  import opened Sequences
  import opened SlidingWindows
  import opened RecordIndices

  type SubnetId = nat

  const DAILY_BLOCKS: nat := 28_800
  const MONTHLY_BLOCKS: nat := 864_000

  datatype Status = Active | Frozen | Suspended | Closed

  datatype WalletError =
    | WalletNotFound
    | AgentAlreadyHasWallet
    | UnauthorizedOwner
    | WalletFrozen
    | WalletClosed
    | SpendingLimitExceeded
    | InsufficientBalance
    | InvalidAmount
    | SubnetNotAllowed
    | DailyLimitExceeded
    | MonthlyLimitExceeded

  /** `period`, `daily` and `monthly` pair each window's start height with its counter. */
  datatype Wallet = Wallet(
    agent: Hash,
    owner: Address,
    balance: nat,
    spendingLimit: nat,
    period: Window,
    periodLength: nat,
    status: Status,
    totalSpent: nat,
    maxDaily: nat,
    daily: Window,
    maxMonthly: nat,
    monthly: Window,
    allowedSubnets: Option<seq<SubnetId>>)

  datatype Op =
    | Deposit(amount: nat)
    | Spend(amount: nat, height: Height, subnet: Option<SubnetId>)
    | Freeze(caller: Address)
    | Unfreeze(caller: Address)
    | Close(caller: Address)
    | SetLimit(newLimit: nat, caller: Address)
    | ResetPeriod(height: Height)

  type Outcome = Result<nat, WalletError>

  function NewWallet(agent: Hash, owner: Address, limit: nat, length: nat, height: Height,
                     maxDaily: nat, maxMonthly: nat): Wallet
  {
    Wallet(agent, owner, 0, limit, Window(height, 0), length, Active, 0,
           maxDaily, Window(height, 0), maxMonthly, Window(height, 0), None)
  }

  /** A wallet address is derived from the agent by hashing, taken to be injective. */
  function AddressOf(agent: Hash): Address {
    agent
  }

  function RefreshAll(w: Wallet, height: Height): Wallet {
    w.(period := Refresh(w.period, w.periodLength, height),
       daily := Refresh(w.daily, DAILY_BLOCKS, height),
       monthly := Refresh(w.monthly, MONTHLY_BLOCKS, height))
  }

  /** The error of the first check that stops a spend, once the windows are refreshed. */
  function SpendRefusal(w: Wallet, amount: nat): Option<WalletError> {
    if Sat(w.period.used + amount) > w.spendingLimit then Some(SpendingLimitExceeded)
    else if w.maxDaily > 0 && Sat(w.daily.used + amount) > w.maxDaily then Some(DailyLimitExceeded)
    else if w.maxMonthly > 0 && Sat(w.monthly.used + amount) > w.maxMonthly then Some(MonthlyLimitExceeded)
    else if w.balance < amount then Some(InsufficientBalance)
    else None
  }

  function Debit(w: Wallet, amount: nat): Wallet
    requires amount <= w.balance
  {
    w.(balance := w.balance - amount,
       period := w.period.(used := Sat(w.period.used + amount)),
       daily := w.daily.(used := w.daily.used + amount),
       monthly := w.monthly.(used := w.monthly.used + amount),
       totalSpent := w.totalSpent + amount)
  }

  predicate Excluded(w: Wallet, subnet: Option<SubnetId>) {
    w.allowedSubnets.Some? && subnet.Some? && subnet.value !in w.allowedSubnets.value
  }

  function OwnerOnly(w: Wallet, caller: Address, changed: Wallet, value: nat): (Wallet, Outcome) {
    if caller != w.owner then (w, Err(UnauthorizedOwner))
    else if w.status.Closed? then (w, Err(WalletClosed))
    else (changed, Ok(value))
  }

  function Step(w: Wallet, op: Op): (Wallet, Outcome) {
    match op
    case Deposit(amount) =>
      if amount == 0 then (w, Err(InvalidAmount))
      else if w.status.Closed? then (w, Err(WalletClosed))
      else (w.(balance := w.balance + amount), Ok(0))
    case Spend(amount, height, subnet) =>
      if amount == 0 then (w, Err(InvalidAmount))
      else if w.status.Frozen? || w.status.Suspended? then (w, Err(WalletFrozen))
      else if w.status.Closed? then (w, Err(WalletClosed))
      else if Excluded(w, subnet) then (w, Err(SubnetNotAllowed))
      else
        var r := RefreshAll(w, height);
        if SpendRefusal(r, amount).Some? then (r, Err(SpendRefusal(r, amount).value))
        else (Debit(r, amount), Ok(0))
    case Freeze(caller) => OwnerOnly(w, caller, w.(status := Frozen), 0)
    case Unfreeze(caller) => OwnerOnly(w, caller, w.(status := Active), 0)
    case Close(caller) => OwnerOnly(w, caller, w.(balance := 0, status := Closed), w.balance)
    case SetLimit(newLimit, caller) => OwnerOnly(w, caller, w.(spendingLimit := newLimit), 0)
    case ResetPeriod(height) => (w.(period := Refresh(w.period, w.periodLength, height)), Ok(0))
  }

  class AgentWalletFactory {
    var wallets: map<Address, Wallet>
    var walletsByOwner: map<Address, seq<Address>>
    var walletsByAgent: map<Hash, Address>

    constructor ()
      ensures wallets == map[] && walletsByOwner == map[] && walletsByAgent == map[]
    {
      wallets, walletsByOwner, walletsByAgent := map[], map[], map[];
    }

    method CreateWallet(agent: Hash, owner: Address, limit: nat, length: nat, height: Height,
                        maxDaily: nat, maxMonthly: nat) returns (r: Result<Address, WalletError>)
      modifies this
      ensures r.Err? <==> agent in old(walletsByAgent)
      ensures r.Err? ==> r.error == AgentAlreadyHasWallet && unchanged(this)
      ensures r.Ok? ==>
                && r.value == AddressOf(agent)
                && wallets == old(wallets)[r.value :=
                     NewWallet(agent, owner, limit, length, height, maxDaily, maxMonthly)]
                && walletsByAgent == old(walletsByAgent)[agent := r.value]
                && walletsByOwner == Push(old(walletsByOwner), owner, r.value)
    {
      if agent in walletsByAgent {
        return Err(AgentAlreadyHasWallet);
      }
      var address := AddressOf(agent);
      wallets := wallets[address := NewWallet(agent, owner, limit, length, height, maxDaily, maxMonthly)];
      walletsByAgent := walletsByAgent[agent := address];
      walletsByOwner := Push(walletsByOwner, owner, address);
      return Ok(address);
    }

    /** Only the addressed wallet changes, and as its own step says. */
    ghost predicate StepsAt(before: map<Address, Wallet>, address: Address, op: Op, r: Outcome)
      reads this
    {
      if address in before
      then var (w, outcome) := Step(before[address], op);
           wallets == before[address := w] && r == outcome
      else wallets == before && (r == Err(WalletNotFound) || op.ResetPeriod?)
    }

    method DepositTo(address: Address, amount: nat) returns (r: Outcome)
      modifies this`wallets
      ensures amount > 0 ==> StepsAt(old(wallets), address, Deposit(amount), r)
      ensures amount == 0 ==> r == Err(InvalidAmount) && wallets == old(wallets)
    {
      if amount == 0 {
        return Err(InvalidAmount);
      }
      if address !in wallets {
        return Err(WalletNotFound);
      }
      var wallet := wallets[address];
      if wallet.status.Closed? {
        assert wallets == wallets[address := wallet];
        return Err(WalletClosed);
      }
      wallets := wallets[address := wallet.(balance := wallet.balance + amount)];
      return Ok(0);
    }

    static lemma RefusalCoversBalance(w: Wallet, amount: nat)
      requires SpendRefusal(w, amount).None?
      ensures amount <= w.balance
    {
    }

    static method ResetExpired(w: Wallet, currentHeight: Height) returns (wallet: Wallet)
      ensures wallet == RefreshAll(w, currentHeight)
    {
      wallet := w;
      if currentHeight >= wallet.period.start + wallet.periodLength {
        wallet := wallet.(period := Window(currentHeight, 0));
      }
      if currentHeight >= wallet.daily.start + DAILY_BLOCKS {
        wallet := wallet.(daily := Window(currentHeight, 0));
      }
      if currentHeight >= wallet.monthly.start + MONTHLY_BLOCKS {
        wallet := wallet.(monthly := Window(currentHeight, 0));
      }
    }

    static method CheckLimits(wallet: Wallet, amount: nat) returns (refusal: Option<WalletError>)
      ensures refusal == SpendRefusal(wallet, amount)
    {
      var newPeriodSpent := Sat(wallet.period.used + amount);
      if newPeriodSpent > wallet.spendingLimit {
        return Some(SpendingLimitExceeded);
      }
      if wallet.maxDaily > 0 {
        var newDaily := Sat(wallet.daily.used + amount);
        if newDaily > wallet.maxDaily {
          return Some(DailyLimitExceeded);
        }
      }
      if wallet.maxMonthly > 0 {
        var newMonthly := Sat(wallet.monthly.used + amount);
        if newMonthly > wallet.maxMonthly {
          return Some(MonthlyLimitExceeded);
        }
      }
      if wallet.balance < amount {
        return Some(InsufficientBalance);
      }
      return None;
    }

    method SpendFrom(address: Address, amount: nat, currentHeight: Height, subnet: Option<SubnetId>)
      returns (r: Outcome)
      modifies this`wallets
      ensures amount > 0 ==> StepsAt(old(wallets), address, Spend(amount, currentHeight, subnet), r)
      ensures amount == 0 ==> r == Err(InvalidAmount) && wallets == old(wallets)
    {
      if amount == 0 {
        return Err(InvalidAmount);
      }
      if address !in wallets {
        return Err(WalletNotFound);
      }
      var wallet := wallets[address];
      assert wallets == wallets[address := wallet];
      match wallet.status {
        case Frozen => return Err(WalletFrozen);
        case Closed => return Err(WalletClosed);
        case Suspended => return Err(WalletFrozen);
        case Active =>
      }
      if wallet.allowedSubnets.Some? && subnet.Some? {
        if subnet.value !in wallet.allowedSubnets.value {
          return Err(SubnetNotAllowed);
        }
      }
      hide RefreshAll, SpendRefusal;
      wallet := ResetExpired(wallet, currentHeight);
      wallets := wallets[address := wallet];
      var refusal := CheckLimits(wallet, amount);
      if refusal.Some? {
        return Err(refusal.value);
      }
      RefusalCoversBalance(wallet, amount);
      wallet := wallet.(balance := wallet.balance - amount);
      wallet := wallet.(period := wallet.period.(used := Sat(wallet.period.used + amount)));
      wallet := wallet.(daily := wallet.daily.(used := wallet.daily.used + amount));
      wallet := wallet.(monthly := wallet.monthly.(used := wallet.monthly.used + amount));
      wallet := wallet.(totalSpent := wallet.totalSpent + amount);
      wallets := wallets[address := wallet];
      return Ok(0);
    }

    method CloseWallet(address: Address, owner: Address) returns (r: Outcome)
      modifies this`wallets
      ensures StepsAt(old(wallets), address, Close(owner), r)
    {
      if address !in wallets {
        return Err(WalletNotFound);
      }
      var wallet := wallets[address];
      assert wallets == wallets[address := wallet];
      if wallet.owner != owner {
        return Err(UnauthorizedOwner);
      }
      if wallet.status.Closed? {
        return Err(WalletClosed);
      }
      var remaining := wallet.balance;
      wallets := wallets[address := wallet.(balance := 0, status := Closed)];
      return Ok(remaining);
    }

    method FreezeWallet(address: Address, owner: Address) returns (r: Outcome)
      modifies this`wallets
      ensures StepsAt(old(wallets), address, Freeze(owner), r)
    {
      if address !in wallets {
        return Err(WalletNotFound);
      }
      var wallet := wallets[address];
      assert wallets == wallets[address := wallet];
      if wallet.owner != owner {
        return Err(UnauthorizedOwner);
      }
      if wallet.status.Closed? {
        return Err(WalletClosed);
      }
      wallets := wallets[address := wallet.(status := Frozen)];
      return Ok(0);
    }

    method UnfreezeWallet(address: Address, owner: Address) returns (r: Outcome)
      modifies this`wallets
      ensures StepsAt(old(wallets), address, Unfreeze(owner), r)
    {
      if address !in wallets {
        return Err(WalletNotFound);
      }
      var wallet := wallets[address];
      assert wallets == wallets[address := wallet];
      if wallet.owner != owner {
        return Err(UnauthorizedOwner);
      }
      if wallet.status.Closed? {
        return Err(WalletClosed);
      }
      wallets := wallets[address := wallet.(status := Active)];
      return Ok(0);
    }

    method SetSpendingLimit(address: Address, newLimit: nat, owner: Address) returns (r: Outcome)
      modifies this`wallets
      ensures StepsAt(old(wallets), address, SetLimit(newLimit, owner), r)
    {
      if address !in wallets {
        return Err(WalletNotFound);
      }
      var wallet := wallets[address];
      assert wallets == wallets[address := wallet];
      if wallet.owner != owner {
        return Err(UnauthorizedOwner);
      }
      if wallet.status.Closed? {
        return Err(WalletClosed);
      }
      wallets := wallets[address := wallet.(spendingLimit := newLimit)];
      return Ok(0);
    }

    method ResetPeriodOf(address: Address, currentHeight: Height)
      modifies this`wallets
      ensures StepsAt(old(wallets), address, ResetPeriod(currentHeight), Ok(0))
    {
      if address in wallets {
        var wallet := wallets[address];
        assert wallets == wallets[address := wallet];
        if currentHeight >= wallet.period.start + wallet.periodLength {
          wallets := wallets[address := wallet.(period := Window(currentHeight, 0))];
        }
      }
    }
  }

  // ---------------------------------------------------------------------
  // Runs of one wallet
  // ---------------------------------------------------------------------

  function Run(w: Wallet, ops: seq<Op>): Wallet {
    if ops == [] then w else Step(Run(w, ops[..|ops| - 1]), ops[|ops| - 1]).0
  }

  /** The spends that went through, in order. */
  function Spends(w: Wallet, ops: seq<Op>): seq<Use> {
    if ops == [] then []
    else
      var before, op := ops[..|ops| - 1], ops[|ops| - 1];
      Spends(w, before)
      + if op.Spend? && Step(Run(w, before), op).1.Ok? then [Use(op.height, op.amount)] else []
  }

  predicate HasHeight(op: Op) {
    op.Spend? || op.ResetPeriod?
  }

  function LastHeight(ops: seq<Op>): Height {
    if ops == [] then 0
    else
      var h := LastHeight(ops[..|ops| - 1]);
      if HasHeight(ops[|ops| - 1]) then Max(h, ops[|ops| - 1].height) else h
  }

  /** The block height never goes back from one operation to the next. */
  predicate Chronological(ops: seq<Op>) {
    ops == [] ||
    (Chronological(ops[..|ops| - 1]) &&
     (HasHeight(ops[|ops| - 1]) ==> LastHeight(ops[..|ops| - 1]) <= ops[|ops| - 1].height))
  }

  /** No limit set during the run is above `limit`. */
  predicate LimitsWithin(ops: seq<Op>, limit: nat) {
    forall i :: 0 <= i < |ops| && ops[i].SetLimit? ==> ops[i].newLimit <= limit
  }

  /** The three windows of a wallet, told apart by their length and limit. */
  datatype Kind = Period | Daily | Monthly

  function WindowOf(w: Wallet, kind: Kind): Window {
    match kind
    case Period => w.period
    case Daily => w.daily
    case Monthly => w.monthly
  }

  function LengthOf(w: Wallet, kind: Kind): nat {
    match kind
    case Period => w.periodLength
    case Daily => DAILY_BLOCKS
    case Monthly => MONTHLY_BLOCKS
  }

  /** Whether `limit` bounds this window: the daily and monthly ones are off at 0. */
  predicate Limits(w: Wallet, kind: Kind, limit: nat) {
    match kind
    case Period => w.spendingLimit <= limit
    case Daily => 0 < w.maxDaily <= limit
    case Monthly => 0 < w.maxMonthly <= limit
  }

  /** What still counts against the limit at `height`: nothing once the window has run out. */
  function Counted(w: Wallet, kind: Kind, height: Height): nat {
    var v := WindowOf(w, kind);
    if height < v.start + LengthOf(w, kind) then v.used else 0
  }

  /** Whether an amount fits on top of what is counted; 0 means no daily or monthly limit. */
  predicate Admits(w: Wallet, kind: Kind, height: Height, amount: nat) {
    var used := Sat(Counted(w, kind, height) + amount);
    match kind
    case Period => used <= w.spendingLimit
    case Daily => w.maxDaily == 0 || used <= w.maxDaily
    case Monthly => w.maxMonthly == 0 || used <= w.maxMonthly
  }

  lemma AllKinds(w: Wallet, height: Height, amount: nat)
    requires Admits(w, Period, height, amount) && Admits(w, Daily, height, amount) && Admits(w, Monthly, height, amount)
    ensures forall kind :: Admits(w, kind, height, amount)
  {
    forall kind
      ensures Admits(w, kind, height, amount)
    {
      match kind
      case Period =>
      case Daily =>
      case Monthly =>
    }
  }

  lemma RefusalByLimit(w: Wallet, amount: nat, height: Height)
    ensures SpendRefusal(RefreshAll(w, height), amount)
         == if !Admits(w, Period, height, amount) then Some(SpendingLimitExceeded)
            else if !Admits(w, Daily, height, amount) then Some(DailyLimitExceeded)
            else if !Admits(w, Monthly, height, amount) then Some(MonthlyLimitExceeded)
            else if w.balance < amount then Some(InsufficientBalance)
            else None
  {
  }

  /** A spend succeeds exactly when the wallet is active, the subnet is allowed, the balance
      covers it, and every limit admits it. */
  lemma SpendOkIff(w: Wallet, amount: nat, height: Height, subnet: Option<SubnetId>)
    ensures Step(w, Spend(amount, height, subnet)).1.Ok?
        <==> amount > 0 && w.status.Active? && amount <= w.balance
             && (subnet.None? || w.allowedSubnets.None? || subnet.value in w.allowedSubnets.value)
             && forall kind :: Admits(w, kind, height, amount)
  {
    RefusalByLimit(w, amount, height);
    hide RefreshAll, SpendRefusal, Admits;
    if Admits(w, Period, height, amount) && Admits(w, Daily, height, amount) && Admits(w, Monthly, height, amount) {
      AllKinds(w, height, amount);
    }
  }

  /** Which refusal a spend meets: the amount, the status, the subnet, then the three limits
      from the shortest to the longest, then the balance. */
  lemma SpendErrors(w: Wallet, amount: nat, height: Height, subnet: Option<SubnetId>)
    ensures var r := Step(w, Spend(amount, height, subnet)).1;
            var allowed := subnet.None? || w.allowedSubnets.None? || subnet.value in w.allowedSubnets.value;
            var checked := amount > 0 && w.status.Active? && allowed;
            && (r == Err(InvalidAmount) <==> amount == 0)
            && (r == Err(WalletFrozen) <==> amount > 0 && (w.status.Frozen? || w.status.Suspended?))
            && (r == Err(WalletClosed) <==> amount > 0 && w.status.Closed?)
            && (r == Err(SubnetNotAllowed) <==> amount > 0 && w.status.Active? && !allowed)
            && (r == Err(SpendingLimitExceeded) <==> checked && !Admits(w, Period, height, amount))
            && (r == Err(DailyLimitExceeded) <==>
                  checked && Admits(w, Period, height, amount) && !Admits(w, Daily, height, amount))
            && (r == Err(MonthlyLimitExceeded) <==>
                  checked && Admits(w, Period, height, amount) && Admits(w, Daily, height, amount)
                  && !Admits(w, Monthly, height, amount))
            && (r == Err(InsufficientBalance) <==>
                  checked && (forall kind :: Admits(w, kind, height, amount)) && w.balance < amount)
  {
    RefusalByLimit(w, amount, height);
    hide RefreshAll, SpendRefusal, Admits;
    if Admits(w, Period, height, amount) && Admits(w, Daily, height, amount) && Admits(w, Monthly, height, amount) {
      AllKinds(w, height, amount);
    }
  }

  /** What a spend leaves behind: a success debits the amount once and counts it in every
      window of positive length; a refusal may reset windows but neither forgets nor adds
      anything that still counts. Only a window of length 0 counts nothing, once it is reached. */
  lemma SpendCounts(w: Wallet, amount: nat, height: Height, subnet: Option<SubnetId>, kind: Kind)
    ensures var (w', r) := Step(w, Spend(amount, height, subnet));
            var before, after := Counted(w, kind, height), Counted(w', kind, height);
            if r.Ok? then
              && w'.balance + amount == w.balance && w'.totalSpent == w.totalSpent + amount
              && after == if LengthOf(w, kind) == 0 && height >= WindowOf(w, kind).start then 0
                          else if kind.Period? then Sat(before + amount) else before + amount
            else
              w'.balance == w.balance && w'.totalSpent == w.totalSpent && after == before
  {
  }

  /** What the owner's operations do, and that nobody else can do them: a stranger is refused
      and so is anyone on a closed wallet, with nothing changed. */
  lemma OwnerOperations(w: Wallet, op: Op)
    requires op.Freeze? || op.Unfreeze? || op.Close? || op.SetLimit?
    ensures var (w', r) := Step(w, op);
            && (r.Ok? <==> op.caller == w.owner && !w.status.Closed?)
            && (r.Err? ==> w' == w && r.error == if op.caller != w.owner then UnauthorizedOwner else WalletClosed)
            && (r.Ok? && op.Freeze? ==> w'.status.Frozen? && w'.balance == w.balance)
            && (r.Ok? && op.Unfreeze? ==> w'.status.Active? && w'.balance == w.balance)
            && (r.Ok? && op.Close? ==> w'.status.Closed? && w'.balance == 0 && r.value == w.balance)
            && (r.Ok? && op.SetLimit? ==> w'.spendingLimit == op.newLimit && w'.status == w.status)
            && w'.owner == w.owner
  {
  }

  /** Resetting the period forgets what it has counted once it has run out, at the caller's
      height, and does nothing before. */
  lemma ResetMeans(w: Wallet, height: Height)
    ensures var (w', r) := Step(w, ResetPeriod(height));
            && r.Ok?
            && w' == w.(period := w'.period)
            && w'.period == if height < w.period.start + w.periodLength then w.period else Window(height, 0)
  {
  }

  lemma DepositMeans(w: Wallet, amount: nat)
    ensures var (w', r) := Step(w, Deposit(amount));
            && (r.Ok? <==> amount > 0 && !w.status.Closed?)
            && w' == w.(balance := w.balance + if r.Ok? then amount else 0)
  {
  }

  /** A new wallet is open and empty, with the given limits and nothing counted. */
  lemma NewWalletMeans(agent: Hash, owner: Address, limit: nat, length: nat, height: Height,
                       maxDaily: nat, maxMonthly: nat, kind: Kind)
    ensures var w := NewWallet(agent, owner, limit, length, height, maxDaily, maxMonthly);
            && w.agent == agent && w.owner == owner && w.status.Active? && w.balance == 0 && w.totalSpent == 0
            && w.spendingLimit == limit && w.maxDaily == maxDaily && w.maxMonthly == maxMonthly
            && w.periodLength == length && w.allowedSubnets.None?
            && WindowOf(w, kind) == Window(height, 0)
            && LengthOf(w, Daily) == 28_800 && LengthOf(w, Monthly) == 864_000
  {
  }

  ghost predicate WindowGuarded(w: Wallet, kind: Kind, uses: seq<Use>, last: Height, limit: nat) {
    Guarded(uses, last, WindowOf(w, kind), LengthOf(w, kind), limit)
  }

  lemma SpendKeepsGuard(w: Wallet, kind: Kind, uses: seq<Use>, last: Height, limit: nat,
                        amount: nat, height: Height)
    requires WindowGuarded(w, kind, uses, last, limit) && Limits(w, kind, limit)
    requires last <= height && limit < U128_MAX
    ensures var r := RefreshAll(w, height);
            && WindowGuarded(r, kind, uses, height, limit)
            && (SpendRefusal(r, amount).None? ==>
                  WindowGuarded(Debit(r, amount), kind, uses + [Use(height, amount)], height, limit))
  {
    hide Guarded;
    var r := RefreshAll(w, height);
    RefreshGuarded(uses, last, height, WindowOf(w, kind), LengthOf(w, kind), limit);
    if SpendRefusal(r, amount).None? {
      UseGuarded(uses, Use(height, amount), WindowOf(r, kind), LengthOf(r, kind), limit);
    }
  }

  lemma StepKeepsGuard(w: Wallet, kind: Kind, uses: seq<Use>, last: Height, limit: nat, op: Op)
    requires WindowGuarded(w, kind, uses, last, limit) && Limits(w, kind, limit) && limit < U128_MAX
    requires HasHeight(op) ==> last <= op.height
    requires op.SetLimit? ==> op.newLimit <= limit
    ensures var (w', r) := Step(w, op);
            && Limits(w', kind, limit)
            && WindowGuarded(w', kind, if op.Spend? && r.Ok? then uses + [Use(op.height, op.amount)] else uses,
                             if HasHeight(op) then op.height else last, limit)
  {
    hide Guarded;
    match op
    case Spend(amount, height, _) =>
      SpendKeepsGuard(w, kind, uses, last, limit, amount, height);
      LaterGuarded(uses, last, height, WindowOf(w, kind), LengthOf(w, kind), limit);
    case ResetPeriod(height) =>
      RefreshGuarded(uses, last, height, WindowOf(w, kind), LengthOf(w, kind), limit);
      LaterGuarded(uses, last, height, WindowOf(w, kind), LengthOf(w, kind), limit);
    case _ =>
  }

  lemma {:induction false} RunKeepsGuard(w: Wallet, kind: Kind, ops: seq<Op>, limit: nat)
    requires WindowOf(w, kind).used == 0 && Limits(w, kind, limit) && limit < U128_MAX
    requires Chronological(ops) && LimitsWithin(ops, limit)
    ensures Limits(Run(w, ops), kind, limit)
    ensures WindowGuarded(Run(w, ops), kind, Spends(w, ops), LastHeight(ops), limit)
  {
    if ops == [] {
      NewWindowGuarded(WindowOf(w, kind).start, LengthOf(w, kind), limit);
    } else {
      var before, op := ops[..|ops| - 1], ops[|ops| - 1];
      RunKeepsGuard(w, kind, before, limit);
      hide Step, Limits, WindowGuarded;
      StepKeepsGuard(Run(w, before), kind, Spends(w, before), LastHeight(before), limit, op);
      assert Spends(w, before) + [] == Spends(w, before);
    }
  }

  function AmountUsed(u: Use): nat {
    u.amount
  }

  lemma StepTotals(w: Wallet, op: Op)
    ensures var (w', r) := Step(w, op);
            && w'.totalSpent == w.totalSpent + (if op.Spend? && r.Ok? then op.amount else 0)
            && w'.periodLength == w.periodLength
  {
  }

  lemma {:induction false} SpendsAddUp(w: Wallet, ops: seq<Op>)
    ensures Run(w, ops).totalSpent == w.totalSpent + SumBy(Spends(w, ops), AmountUsed)
    ensures Run(w, ops).periodLength == w.periodLength
  {
    if ops != [] {
      var before, op := ops[..|ops| - 1], ops[|ops| - 1];
      SpendsAddUp(w, before);
      StepTotals(Run(w, before), op);
      hide Step;
      if op.Spend? && Step(Run(w, before), op).1.Ok? {
        SumByPush(Spends(w, before), Use(op.height, op.amount), AmountUsed);
      } else {
        assert Spends(w, ops) == Spends(w, before);
      }
    }
  }

  lemma {:induction false} UsedWithinTotal(uses: seq<Use>, lo: Height, hi: Height)
    ensures UsedBetween(uses, lo, hi) <= SumBy(uses, AmountUsed)
  {
    if uses != [] {
      UsedWithinTotal(uses[..|uses| - 1], lo, hi);
    }
  }

  /** The sliding bound of each of the three limits: over any stretch of as many blocks
      as the window is long, the spends that went through total at most twice the limit,
      however the lazy resets and the refused spends fell. */
  lemma SlidingSpendBound(w: Wallet, kind: Kind, ops: seq<Op>, limit: nat, lo: Height)
    requires WindowOf(w, kind).used == 0 && Limits(w, kind, limit)
    requires Chronological(ops) && LimitsWithin(ops, limit)
    requires Run(w, ops).totalSpent <= U128_MAX
    ensures UsedFor(Spends(w, ops), lo, LengthOf(w, kind)) <= 2 * limit
  {
    hide Step, Guarded;
    SpendsAddUp(w, ops);
    if limit < U128_MAX {
      RunKeepsGuard(w, kind, ops, limit);
      GuardedBound(Spends(w, ops), LastHeight(ops), WindowOf(Run(w, ops), kind), LengthOf(w, kind), limit, lo);
    } else {
      UsedWithinTotal(Spends(w, ops), lo, lo + LengthOf(w, kind));
    }
  }

  lemma StepKeepsSettled(w: Wallet, kind: Kind, start: Height, uses: seq<Use>, last: Height, limit: nat, op: Op)
    requires WindowGuarded(w, kind, uses, last, limit) && Limits(w, kind, limit) && limit < U128_MAX
    requires Settled(start, uses, last, WindowOf(w, kind), LengthOf(w, kind), limit)
    requires HasHeight(op) ==> last <= op.height
    ensures var (w', r) := Step(w, op);
            Settled(start, if op.Spend? && r.Ok? then uses + [Use(op.height, op.amount)] else uses,
                    if HasHeight(op) then op.height else last, WindowOf(w', kind), LengthOf(w', kind), limit)
  {
    hide Guarded, UsedFor;
    if HasHeight(op) {
      var v, length := WindowOf(w, kind), LengthOf(w, kind);
      RefreshSettled(start, uses, last, op.height, v, length, limit);
      if op.Spend? {
        UseSettled(start, uses, Use(op.height, op.amount), Refresh(v, length, op.height), length, limit);
      }
    }
  }

  lemma {:induction false} RunKeepsSettled(w: Wallet, kind: Kind, before: seq<Op>, later: seq<Op>, limit: nat)
    requires WindowOf(w, kind).used == 0 && Limits(w, kind, limit) && limit < U128_MAX
    requires Chronological(before + later) && LimitsWithin(before + later, limit)
    ensures var ops := before + later;
            Settled(WindowOf(Run(w, before), kind).start, Spends(w, ops), LastHeight(ops),
                    WindowOf(Run(w, ops), kind), LengthOf(Run(w, ops), kind), limit)
  {
    if later == [] {
      assert before + later == before;
    } else {
      var n := |later| - 1;
      var ops, rest := before + later, before + later[..n];
      assert ops[..|ops| - 1] == rest && ops[|ops| - 1] == later[n];
      assert LimitsWithin(rest, limit) by {
        assert forall i :: 0 <= i < |rest| ==> rest[i] == ops[i];
      }
      RunKeepsSettled(w, kind, before, later[..n], limit);
      RunKeepsGuard(w, kind, rest, limit);
      hide Step, Limits, WindowGuarded, Settled, LimitsWithin;
      StepKeepsSettled(Run(w, rest), kind, WindowOf(Run(w, before), kind).start,
                       Spends(w, rest), LastHeight(rest), limit, later[n]);
      assert Spends(w, rest) + [] == Spends(w, rest);
    }
  }

  /** The fixed bound: whatever window is open after part of a run, the spends that fall into
      it by the end of the whole run total at most the limit, once and not twice. */
  lemma FixedWindowBound(w: Wallet, kind: Kind, before: seq<Op>, later: seq<Op>, limit: nat)
    requires WindowOf(w, kind).used == 0 && Limits(w, kind, limit)
    requires Chronological(before + later) && LimitsWithin(before + later, limit)
    requires Run(w, before + later).totalSpent <= U128_MAX
    ensures UsedFor(Spends(w, before + later), WindowOf(Run(w, before), kind).start, LengthOf(w, kind)) <= limit
  {
    hide Step, Guarded;
    var ops, start := before + later, WindowOf(Run(w, before), kind).start;
    SpendsAddUp(w, ops);
    if limit < U128_MAX {
      RunKeepsGuard(w, kind, ops, limit);
      RunKeepsSettled(w, kind, before, later, limit);
      hide Settled;
      SettledBound(start, Spends(w, ops), LastHeight(ops), WindowOf(Run(w, ops), kind), LengthOf(w, kind), limit);
    } else {
      UsedWithinTotal(Spends(w, ops), start, start + LengthOf(w, kind));
    }
  }

  lemma RunNone(w: Wallet)
    ensures Run(w, []) == w && Spends(w, []) == [] && Chronological([]) && LastHeight([]) == 0
  {
  }

  lemma RunPush(w: Wallet, ops: seq<Op>, op: Op)
    ensures Run(w, ops + [op]) == Step(Run(w, ops), op).0
    ensures Spends(w, ops + [op])
         == Spends(w, ops) + if op.Spend? && Step(Run(w, ops), op).1.Ok? then [Use(op.height, op.amount)] else []
    ensures Chronological(ops + [op]) <==>
              Chronological(ops) && (HasHeight(op) ==> LastHeight(ops) <= op.height)
    ensures LastHeight(ops + [op]) == if HasHeight(op) then Max(LastHeight(ops), op.height) else LastHeight(ops)
  {
    assert (ops + [op])[..|ops|] == ops;
  }

  lemma ThreeOps(w: Wallet, a: Op, b: Op, c: Op)
    requires a.Deposit? && b.Spend? && c.Spend? && b.height <= c.height
    requires var w1 := Step(w, a).0;
             Step(w1, b).1.Ok? && Step(Step(w1, b).0, c).1.Ok?
    ensures Chronological([a, b, c])
    ensures Spends(w, [a, b, c]) == [Use(b.height, b.amount), Use(c.height, c.amount)]
  {
    hide Step, Run, Spends, Chronological, LastHeight;
    RunNone(w);
    assert [a] == [] + [a] && [a, b] == [a] + [b] && [a, b, c] == [a, b] + [c];
    RunPush(w, [], a);
    RunPush(w, [a], b);
    RunPush(w, [a, b], c);
  }

  lemma AdjacentUses(height: Height, amount: nat)
    ensures UsedFor([Use(height, amount), Use(height + 1, amount)], height, 2) == 2 * amount
  {
    var u, v := Use(height, amount), Use(height + 1, amount);
    UsePush([u], v, height, height + 2);
    UsePush([], u, height, height + 2);
    assert [] + [u] == [u] && [u] + [v] == [u, v];
  }

  lemma LimitTwiceSteps(w: Wallet, limit: nat)
    requires 0 < limit && 2 * limit <= U128_MAX
    requires w == NewWallet(w.agent, w.owner, 2 * limit, MONTHLY_BLOCKS, 0, limit, 0)
    ensures var w1 := Step(w, Deposit(2 * limit)).0;
            var w2 := Step(w1, Spend(limit, DAILY_BLOCKS - 1, None)).0;
            && Step(w1, Spend(limit, DAILY_BLOCKS - 1, None)).1.Ok?
            && Step(w2, Spend(limit, DAILY_BLOCKS, None)).1.Ok?
  {
    var w1 := Step(w, Deposit(2 * limit)).0;
    var w2 := Step(w1, Spend(limit, DAILY_BLOCKS - 1, None)).0;
    assert w2.balance == limit && w2.daily == Window(0, limit) && w2.period == Window(0, limit);
  }

  /** The factor two is attained: the daily limit spent on the last block of one window
      and again on the first block of the next lies within two consecutive blocks. */
  lemma TwiceTheDailyLimit(agent: Hash, owner: Address, limit: nat)
    requires 0 < limit && 2 * limit <= U128_MAX
    ensures var w := NewWallet(agent, owner, 2 * limit, MONTHLY_BLOCKS, 0, limit, 0);
            var ops := [Deposit(2 * limit),
                        Spend(limit, DAILY_BLOCKS - 1, None),
                        Spend(limit, DAILY_BLOCKS, None)];
            && Chronological(ops)
            && Spends(w, ops) == [Use(DAILY_BLOCKS - 1, limit), Use(DAILY_BLOCKS, limit)]
            && UsedFor(Spends(w, ops), DAILY_BLOCKS - 1, 2) == 2 * limit
  {
    var w := NewWallet(agent, owner, 2 * limit, MONTHLY_BLOCKS, 0, limit, 0);
    var a, b, c := Deposit(2 * limit), Spend(limit, DAILY_BLOCKS - 1, None), Spend(limit, DAILY_BLOCKS, None);
    LimitTwiceSteps(w, limit);
    hide Step, NewWallet, UsedFor;
    ThreeOps(w, a, b, c);
    AdjacentUses(DAILY_BLOCKS - 1, limit);
  }

  // ---------------------------------------------------------------------
  // Conservation
  // ---------------------------------------------------------------------

  /** Accepted deposits and the payouts of closing, over a run. */
  function Deposits(w: Wallet, ops: seq<Op>): nat {
    if ops == [] then 0
    else
      var before, op := ops[..|ops| - 1], ops[|ops| - 1];
      Deposits(w, before) + if op.Deposit? && Step(Run(w, before), op).1.Ok? then op.amount else 0
  }

  function Payouts(w: Wallet, ops: seq<Op>): nat {
    if ops == [] then 0
    else
      var before, op := ops[..|ops| - 1], ops[|ops| - 1];
      var r := Step(Run(w, before), op).1;
      Payouts(w, before) + if op.Close? && r.Ok? then r.value else 0
  }

  lemma RefreshKeeps(w: Wallet, height: Height)
    ensures var r := RefreshAll(w, height);
            r.balance == w.balance && r.totalSpent == w.totalSpent && r.status == w.status
  {
  }

  lemma StepConserves(w: Wallet, op: Op)
    requires w.status.Closed? ==> w.balance == 0
    ensures var (w', r) := Step(w, op);
            && w'.balance + w'.totalSpent + (if op.Close? && r.Ok? then r.value else 0)
               == w.balance + w.totalSpent + (if op.Deposit? && r.Ok? then op.amount else 0)
            && (w'.status.Closed? ==> w'.balance == 0)
            && (w.status.Closed? ==> w'.status.Closed? && (op.Spend? ==> r.Err?))
  {
    hide RefreshAll;
    if op.Spend? {
      RefreshKeeps(w, op.height);
    }
  }

  /** Whatever was deposited is still there, was spent, or was paid out on closing; and
      a closed wallet stays closed and empty. */
  lemma {:induction false} WalletConservation(w: Wallet, ops: seq<Op>)
    requires w.status.Closed? ==> w.balance == 0
    ensures var w' := Run(w, ops);
            && w'.balance + w'.totalSpent + Payouts(w, ops) == w.balance + w.totalSpent + Deposits(w, ops)
            && (w'.status.Closed? ==> w'.balance == 0)
            && (w.status.Closed? ==> w'.status.Closed? && Spends(w, ops) == [])
  {
    if ops != [] {
      var before, op := ops[..|ops| - 1], ops[|ops| - 1];
      hide Step;
      WalletConservation(w, before);
      StepConserves(Run(w, before), op);
    }
  }
}
