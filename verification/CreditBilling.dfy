/** The credit billing engine: charges limited per user and service in a lazily reset
    window, recorded once and mirrored in two indices and two tables of totals. */
module CreditBilling {
  import opened Types
  import opened Arithmetic
  import opened MapSums
  import opened Sequences
  import opened SlidingWindows
  import opened RecordIndices

  datatype BillingError = InsufficientCredits | ServiceNotEnabled | RateLimitExceeded | InvalidAmount

  /** A record's id is the digest of these three fields, taken to be injective. */
  datatype RecordId = Digest(user: Address, height: Height, index: nat)

  datatype Record = Record(
    id: RecordId,
    user: Address,
    service: ServiceType,
    credits: nat,
    height: Height)

  type Key = (Address, ServiceType)

  datatype Engine = Engine(
    records: seq<Record>,
    byUser: map<Address, seq<nat>>,
    byService: map<ServiceType, seq<nat>>,
    userTotals: map<Address, nat>,
    serviceTotals: map<ServiceType, (nat, nat)>,
    enabled: set<ServiceType>,
    rateLimits: map<Key, Window>,
    maxRequests: nat,
    periodLength: nat)

  datatype Op =
    | Enable(service: ServiceType)
    | Disable(service: ServiceType)
    | Charge(user: Address, service: ServiceType, credits: nat, balance: nat, height: Height)

  type Outcome = Result<Option<Record>, BillingError>

  function UserOf(r: Record): Address {
    r.user
  }

  function ServiceOf(r: Record): ServiceType {
    r.service
  }

  predicate WithinRateLimit(e: Engine, key: Key, height: Height) {
    || key !in e.rateLimits
    || height >= e.rateLimits[key].start + e.periodLength
    || e.rateLimits[key].used < e.maxRequests
  }

  /** The window of `key` after one more accepted request. */
  function Bump(e: Engine, key: Key, height: Height): Window {
    var w := Refresh(if key in e.rateLimits then e.rateLimits[key] else Window(height, 0), e.periodLength, height);
    w.(used := w.used + 1)
  }

  function ServiceTotal(e: Engine, s: ServiceType): (nat, nat) {
    if s in e.serviceTotals then e.serviceTotals[s] else (0, 0)
  }

  function Refusal(e: Engine, op: Op): Option<BillingError>
    requires op.Charge?
  {
    if op.credits == 0 then Some(InvalidAmount)
    else if op.service !in e.enabled then Some(ServiceNotEnabled)
    else if !WithinRateLimit(e, (op.user, op.service), op.height) then Some(RateLimitExceeded)
    else if op.balance < op.credits then Some(InsufficientCredits)
    else None
  }

  function RecordFor(e: Engine, op: Op): Record
    requires op.Charge?
  {
    Record(Digest(op.user, op.height, |e.records|), op.user, op.service, op.credits, op.height)
  }

  /** The engine after an accepted charge. */
  function Book(e: Engine, op: Op): Engine
    requires op.Charge?
  {
    var total := ServiceTotal(e, op.service);
    e.(records := e.records + [RecordFor(e, op)],
       byUser := Push(e.byUser, op.user, |e.records|),
       byService := Push(e.byService, op.service, |e.records|),
       userTotals := e.userTotals[op.user := Get(e.userTotals, op.user) + op.credits],
       serviceTotals := e.serviceTotals[op.service := (total.0 + op.credits, total.1 + 1)],
       rateLimits := e.rateLimits[(op.user, op.service) := Bump(e, (op.user, op.service), op.height)])
  }

  function Step(e: Engine, op: Op): (Engine, Outcome) {
    match op
    case Enable(s) => (e.(enabled := e.enabled + {s}), Ok(None))
    case Disable(s) => (e.(enabled := e.enabled - {s}), Ok(None))
    case Charge(_, _, _, _, _) =>
      if Refusal(e, op).Some? then (e, Err(Refusal(e, op).value))
      else (Book(e, op), Ok(Some(RecordFor(e, op))))
  }

  function NewEngine(maxRequests: nat, periodLength: nat): Engine {
    Engine([], map[], map[], map[], map[], {}, map[], maxRequests, periodLength)
  }

  class CreditBillingEngine {
    var records: seq<Record>
    var byUser: map<Address, seq<nat>>
    var byService: map<ServiceType, seq<nat>>
    var userTotals: map<Address, nat>
    var serviceTotals: map<ServiceType, (nat, nat)>
    var enabledServices: set<ServiceType>
    var rateLimits: map<Key, Window>
    const maxRequestsPerPeriod: nat
    const periodLength: nat

    function State(): Engine
      reads this
    {
      Engine(records, byUser, byService, userTotals, serviceTotals, enabledServices, rateLimits,
             maxRequestsPerPeriod, periodLength)
    }

    constructor (maxRequests: nat, periodLength: nat)
      ensures State() == NewEngine(maxRequests, periodLength)
    {
      records, byUser, byService, userTotals, serviceTotals := [], map[], map[], map[], map[];
      enabledServices, rateLimits := {}, map[];
      maxRequestsPerPeriod, this.periodLength := maxRequests, periodLength;
    }

    method EnableService(service: ServiceType)
      modifies this
      ensures State() == Step(old(State()), Enable(service)).0
    {
      enabledServices := enabledServices + {service};
    }

    method DisableService(service: ServiceType)
      modifies this
      ensures State() == Step(old(State()), Disable(service)).0
    {
      enabledServices := enabledServices - {service};
    }

    method CheckRateLimit(user: Address, service: ServiceType, currentHeight: Height) returns (within: bool)
      ensures within == WithinRateLimit(State(), (user, service), currentHeight)
    {
      if (user, service) !in rateLimits {
        return true;
      }
      var w := rateLimits[(user, service)];
      if currentHeight >= w.start + periodLength {
        return true;
      }
      return w.used < maxRequestsPerPeriod;
    }

    method CheckCharge(user: Address, service: ServiceType, credits: nat, creditBalance: nat, height: Height)
      returns (refusal: Option<BillingError>)
      ensures refusal == Refusal(State(), Charge(user, service, credits, creditBalance, height))
    {
      if credits == 0 {
        return Some(InvalidAmount);
      }
      if service !in enabledServices {
        return Some(ServiceNotEnabled);
      }
      var within := CheckRateLimit(user, service, height);
      if !within {
        return Some(RateLimitExceeded);
      }
      if creditBalance < credits {
        return Some(InsufficientCredits);
      }
      return None;
    }

    method BumpCounter(key: Key, height: Height)
      modifies this`rateLimits
      ensures rateLimits == old(rateLimits)[key := Bump(old(State()), key, height)]
    {
      var entry := if key in rateLimits then rateLimits[key] else Window(height, 0);
      if height >= entry.start + periodLength {
        entry := Window(height, 0);
      }
      rateLimits := rateLimits[key := entry.(used := entry.used + 1)];
    }

    method RecordCharge(user: Address, service: ServiceType, credits: nat, ghost creditBalance: nat, height: Height)
      returns (record: Record)
      modifies this
      ensures State() == Book(old(State()), Charge(user, service, credits, creditBalance, height))
      ensures record == RecordFor(old(State()), Charge(user, service, credits, creditBalance, height))
    {
      hide Push, Get, Bump;
      BumpCounter((user, service), height);
      var recordIndex := |records|;
      record := Record(Digest(user, height, recordIndex), user, service, credits, height);
      byUser := Push(byUser, user, recordIndex);
      byService := Push(byService, service, recordIndex);
      userTotals := userTotals[user := Get(userTotals, user) + credits];
      var total := if service in serviceTotals then serviceTotals[service] else (0, 0);
      serviceTotals := serviceTotals[service := (total.0 + credits, total.1 + 1)];
      records := records + [record];
    }

    method ChargeCredits(user: Address, service: ServiceType, credits: nat, creditBalance: nat, height: Height)
      returns (r: Outcome)
      modifies this
      ensures (State(), r) == Step(old(State()), Charge(user, service, credits, creditBalance, height))
    {
      var refusal := CheckCharge(user, service, credits, creditBalance, height);
      if refusal.Some? {
        return Err(refusal.value);
      }
      hide Refusal;
      var record := RecordCharge(user, service, credits, creditBalance, height);
      return Ok(Some(record));
    }
  }

  // ---------------------------------------------------------------------
  // Indices and totals
  // ---------------------------------------------------------------------

  function CreditsOf(user: Address): Record -> nat {
    (r: Record) => if r.user == user then r.credits else 0
  }

  function CreditsFor(service: ServiceType): Record -> nat {
    (r: Record) => if r.service == service then r.credits else 0
  }

  function Credits(r: Record): nat {
    r.credits
  }

  ghost predicate UserTotalsOk(totals: map<Address, nat>, records: seq<Record>) {
    && (forall u :: Get(totals, u) == SumBy(records, CreditsOf(u)))
    && Total(totals) == SumBy(records, Credits)
  }

  ghost predicate ServiceTotalsOk(e: Engine) {
    forall s :: ServiceTotal(e, s)
                == (SumBy(e.records, CreditsFor(s)), |Positions(e.records, ServiceOf, s)|)
  }

  /** Both indices and both tables of totals say exactly what the records say. */
  ghost predicate BooksOk(e: Engine) {
    && IndexOk(e.byUser, e.records, UserOf)
    && IndexOk(e.byService, e.records, ServiceOf)
    && UserTotalsOk(e.userTotals, e.records)
    && ServiceTotalsOk(e)
    && (forall i :: 0 <= i < |e.records| ==> e.records[i].id.index == i)
  }

  lemma UserTotalsPut(totals: map<Address, nat>, records: seq<Record>, r: Record)
    requires UserTotalsOk(totals, records)
    ensures UserTotalsOk(totals[r.user := Get(totals, r.user) + r.credits], records + [r])
  {
    var totals' := totals[r.user := Get(totals, r.user) + r.credits];
    forall u
      ensures Get(totals', u) == SumBy(records + [r], CreditsOf(u))
    {
      SumByPush(records, r, CreditsOf(u));
      assert Get(totals, u) == SumBy(records, CreditsOf(u));
    }
    SumByPush(records, r, Credits);
    TotalPut(totals, r.user, Get(totals, r.user) + r.credits);
  }

  lemma ServiceTotalsPut(e: Engine, op: Op)
    requires op.Charge? && ServiceTotalsOk(e)
    ensures ServiceTotalsOk(Book(e, op))
  {
    hide Bump;
    var e', r := Book(e, op), RecordFor(e, op);
    forall s
      ensures ServiceTotal(e', s) == (SumBy(e'.records, CreditsFor(s)), |Positions(e'.records, ServiceOf, s)|)
    {
      SumByPush(e.records, r, CreditsFor(s));
      assert ServiceTotal(e, s) == (SumBy(e.records, CreditsFor(s)), |Positions(e.records, ServiceOf, s)|);
      assert e'.records[..|e.records|] == e.records;
    }
  }

  lemma StepKeepsBooks(e: Engine, op: Op)
    requires BooksOk(e)
    ensures BooksOk(Step(e, op).0)
  {
    hide IndexOk, WithinRateLimit, Bump, UserTotalsOk, Refusal;
    if op.Charge? && Refusal(e, op).None? {
      var r := RecordFor(e, op);
      PushKeepsIndex(e.byUser, e.records, UserOf, r);
      PushKeepsIndex(e.byService, e.records, ServiceOf, r);
      UserTotalsPut(e.userTotals, e.records, r);
      ServiceTotalsPut(e, op);
      hide ServiceTotalsOk;
    }
  }

  function Run(e: Engine, ops: seq<Op>): Engine {
    if ops == [] then e else Step(Run(e, ops[..|ops| - 1]), ops[|ops| - 1]).0
  }

  /** In every reachable state each index lists its records in order and each total is
      the sum over them; record ids are distinct because their positions are. */
  lemma {:induction false} BooksAlwaysAgree(maxRequests: nat, periodLength: nat, ops: seq<Op>)
    ensures BooksOk(Run(NewEngine(maxRequests, periodLength), ops))
  {
    if ops == [] {
      assert Run(NewEngine(maxRequests, periodLength), ops).userTotals.Keys == {};
    } else {
      BooksAlwaysAgree(maxRequests, periodLength, ops[..|ops| - 1]);
      hide BooksOk, Step;
      StepKeepsBooks(Run(NewEngine(maxRequests, periodLength), ops[..|ops| - 1]), ops[|ops| - 1]);
    }
  }

  // ---------------------------------------------------------------------
  // The rate limit over a run
  // ---------------------------------------------------------------------

  /** The accepted charges of one user for one service, each counting one. */
  function Requests(e: Engine, ops: seq<Op>, key: Key): seq<Use> {
    if ops == [] then []
    else
      var before, op := ops[..|ops| - 1], ops[|ops| - 1];
      Requests(e, before, key)
      + if op.Charge? && (op.user, op.service) == key && Step(Run(e, before), op).1.Ok?
        then [Use(op.height, 1)] else []
  }

  function LastHeight(ops: seq<Op>): Height {
    if ops == [] then 0
    else
      var h := LastHeight(ops[..|ops| - 1]);
      if ops[|ops| - 1].Charge? then Max(h, ops[|ops| - 1].height) else h
  }

  predicate Chronological(ops: seq<Op>) {
    ops == [] ||
    (Chronological(ops[..|ops| - 1]) &&
     (ops[|ops| - 1].Charge? ==> LastHeight(ops[..|ops| - 1]) <= ops[|ops| - 1].height))
  }

  /** A limit of zero still lets the first request of every period through. */
  function EffectiveLimit(e: Engine): nat {
    Max(e.maxRequests, 1)
  }

  ghost predicate KeyGuarded(e: Engine, key: Key, uses: seq<Use>, last: Height) {
    if key in e.rateLimits then Guarded(uses, last, e.rateLimits[key], e.periodLength, EffectiveLimit(e))
    else uses == []
  }

  lemma StepKeepsKey(e: Engine, op: Op, key: Key, uses: seq<Use>, last: Height)
    requires KeyGuarded(e, key, uses, last)
    requires op.Charge? ==> last <= op.height
    ensures var (e', r) := Step(e, op);
            && e'.maxRequests == e.maxRequests && e'.periodLength == e.periodLength
            && KeyGuarded(e', key,
                          if op.Charge? && (op.user, op.service) == key && r.Ok?
                          then uses + [Use(op.height, 1)] else uses,
                          if op.Charge? then op.height else last)
  {
    hide Guarded;
    if op.Charge? {
      var limit := EffectiveLimit(e);
      if key in e.rateLimits {
        LaterGuarded(uses, last, op.height, e.rateLimits[key], e.periodLength, limit);
      }
      if (op.user, op.service) == key && Refusal(e, op).None? {
        var w := if key in e.rateLimits then e.rateLimits[key] else Window(op.height, 0);
        if key !in e.rateLimits {
          NewWindowGuarded(op.height, e.periodLength, limit);
          LaterGuarded([], 0, op.height, w, e.periodLength, limit);
        }
        RefreshGuarded(uses, op.height, op.height, w, e.periodLength, limit);
        UseGuarded(uses, Use(op.height, 1), Refresh(w, e.periodLength, op.height), e.periodLength, limit);
      }
    }
  }

  lemma {:induction false} RunKeepsKey(e: Engine, ops: seq<Op>, key: Key)
    requires e.rateLimits == map[] && Chronological(ops)
    ensures Run(e, ops).maxRequests == e.maxRequests && Run(e, ops).periodLength == e.periodLength
    ensures KeyGuarded(Run(e, ops), key, Requests(e, ops, key), LastHeight(ops))
  {
    if ops != [] {
      var before, op := ops[..|ops| - 1], ops[|ops| - 1];
      RunKeepsKey(e, before, key);
      hide Step, KeyGuarded;
      StepKeepsKey(Run(e, before), op, key, Requests(e, before, key), LastHeight(before));
      assert Requests(e, before, key) + [] == Requests(e, before, key);
    }
  }

  /** Over any period's worth of consecutive blocks, at most twice the limit is accepted
      for one user and service (twice one, when the limit is zero). */
  lemma SlidingRateBound(maxRequests: nat, periodLength: nat, ops: seq<Op>, key: Key, lo: Height)
    requires Chronological(ops)
    ensures UsedFor(Requests(NewEngine(maxRequests, periodLength), ops, key), lo, periodLength)
         <= 2 * Max(maxRequests, 1)
  {
    var e := NewEngine(maxRequests, periodLength);
    RunKeepsKey(e, ops, key);
    var e' := Run(e, ops);
    if key in e'.rateLimits {
      GuardedBound(Requests(e, ops, key), LastHeight(ops), e'.rateLimits[key], periodLength, EffectiveLimit(e'), lo);
    }
  }

  ghost predicate KeySettled(e: Engine, key: Key, start: Height, uses: seq<Use>, last: Height) {
    key in e.rateLimits && Settled(start, uses, last, e.rateLimits[key], e.periodLength, EffectiveLimit(e))
  }

  lemma StepKeepsSettled(e: Engine, op: Op, key: Key, start: Height, uses: seq<Use>, last: Height)
    requires KeyGuarded(e, key, uses, last) && KeySettled(e, key, start, uses, last)
    requires op.Charge? ==> last <= op.height
    ensures var (e', r) := Step(e, op);
            KeySettled(e', key, start,
                       if op.Charge? && (op.user, op.service) == key && r.Ok?
                       then uses + [Use(op.height, 1)] else uses,
                       if op.Charge? then op.height else last)
  {
    hide Guarded, UsedFor;
    if op.Charge? {
      var w, limit := e.rateLimits[key], EffectiveLimit(e);
      RefreshSettled(start, uses, last, op.height, w, e.periodLength, limit);
      if (op.user, op.service) == key && Refusal(e, op).None? {
        UseSettled(start, uses, Use(op.height, 1), Refresh(w, e.periodLength, op.height), e.periodLength, limit);
      }
    }
  }

  lemma {:induction false} RunKeepsSettled(e: Engine, before: seq<Op>, later: seq<Op>, key: Key)
    requires e.rateLimits == map[] && Chronological(before + later) && key in Run(e, before).rateLimits
    ensures var ops := before + later;
            KeySettled(Run(e, ops), key, Run(e, before).rateLimits[key].start, Requests(e, ops, key), LastHeight(ops))
  {
    if later == [] {
      assert before + later == before;
    } else {
      var n := |later| - 1;
      var ops, rest := before + later, before + later[..n];
      assert ops[..|ops| - 1] == rest && ops[|ops| - 1] == later[n];
      RunKeepsSettled(e, before, later[..n], key);
      RunKeepsKey(e, rest, key);
      hide Step, KeyGuarded, KeySettled;
      StepKeepsSettled(Run(e, rest), later[n], key, Run(e, before).rateLimits[key].start,
                       Requests(e, rest, key), LastHeight(rest));
      assert Requests(e, rest, key) + [] == Requests(e, rest, key);
    }
  }

  /** Into the window open after any part of a run fall, by the end of the whole run, at most
      as many accepted charges as the limit allows, once and not twice. */
  lemma FixedRateBound(maxRequests: nat, periodLength: nat, before: seq<Op>, later: seq<Op>, key: Key)
    requires Chronological(before + later) && key in Run(NewEngine(maxRequests, periodLength), before).rateLimits
    ensures var e := NewEngine(maxRequests, periodLength);
            UsedFor(Requests(e, before + later, key), Run(e, before).rateLimits[key].start, periodLength)
            <= Max(maxRequests, 1)
  {
    var e, ops := NewEngine(maxRequests, periodLength), before + later;
    RunKeepsKey(e, ops, key);
    RunKeepsSettled(e, before, later, key);
    hide Run, Guarded, Settled;
    SettledBound(Run(e, before).rateLimits[key].start, Requests(e, ops, key), LastHeight(ops),
                 Run(e, ops).rateLimits[key], periodLength, EffectiveLimit(e));
  }

  /** With the limit at zero a request is accepted all the same. */
  lemma ZeroLimitAcceptsOne(periodLength: nat, user: Address, service: ServiceType, height: Height)
    ensures var e := Step(NewEngine(0, periodLength), Enable(service)).0;
            Step(e, Charge(user, service, 1, 1, height)).1.Ok?
  {
  }

  // ---------------------------------------------------------------------
  // What a charge does
  // ---------------------------------------------------------------------

  /** The requests that still count against the limit at `height`. */
  function Counted(e: Engine, key: Key, height: Height): nat {
    if key in e.rateLimits && height < e.rateLimits[key].start + e.periodLength then e.rateLimits[key].used else 0
  }

  /** When a charge is accepted: a positive amount that the balance covers, an enabled
      service, and a first request of its period or one below the limit. */
  lemma ChargeOkIff(e: Engine, user: Address, service: ServiceType, credits: nat, balance: nat, height: Height)
    ensures var key, (e', r) := (user, service), Step(e, Charge(user, service, credits, balance, height));
            && (r.Ok? <==> 0 < credits <= balance && service in e.enabled
                           && (key !in e.rateLimits || height >= e.rateLimits[key].start + e.periodLength
                               || Counted(e, key, height) < e.maxRequests))
            && (r == Err(InvalidAmount) <==> credits == 0)
            && (r == Err(ServiceNotEnabled) <==> credits > 0 && service !in e.enabled)
            && (r == Err(RateLimitExceeded) <==>
                  credits > 0 && service in e.enabled && key in e.rateLimits
                  && height < e.rateLimits[key].start + e.periodLength && Counted(e, key, height) >= e.maxRequests)
            && (r.Err? ==> e' == e)
  {
  }

  /** An accepted charge counts once, for its own user and service only, and is recorded as
      it was made. */
  lemma ChargeCounts(e: Engine, user: Address, service: ServiceType, credits: nat, balance: nat, height: Height)
    requires Step(e, Charge(user, service, credits, balance, height)).1.Ok? && e.periodLength > 0
    ensures var key, (e', r) := (user, service), Step(e, Charge(user, service, credits, balance, height));
            && Counted(e', key, height) == Counted(e, key, height) + 1
            && (forall other :: other != key ==>
                  (other in e'.rateLimits <==> other in e.rateLimits)
                  && (other in e.rateLimits ==> e'.rateLimits[other] == e.rateLimits[other]))
            && r.value.Some? && e'.records == e.records + [r.value.value]
            && var record := r.value.value;
               record.user == user && record.service == service && record.credits == credits && record.height == height
  {
    hide Push;
  }

  /** Enabling and disabling concern one service. */
  lemma EnabledMeans(e: Engine, service: ServiceType, other: ServiceType)
    ensures other in Step(e, Enable(service)).0.enabled <==> other in e.enabled || other == service
    ensures other in Step(e, Disable(service)).0.enabled <==> other in e.enabled && other != service
  {
  }
}
