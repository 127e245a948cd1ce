/** The settlement engine: an append-only list of settlements with two indices, running
    totals, and a protocol fee rounded down. */
module Settlement {
  import opened Types
  import opened Arithmetic
  import opened Sequences
  import opened RecordIndices

  datatype SettlementError = InvalidAmount | SameUserAndProvider

  /** The digest of a settlement's inputs and its position, taken to be injective. */
  datatype SettlementId = Digest(
    user: Address,
    provider: Address,
    gross: nat,
    height: Height,
    timestamp: nat,
    index: nat)

  datatype TxRef = BurnOf(burnId: SettlementId) | MintOf(mintId: SettlementId)

  datatype Record = Record(
    id: SettlementId,
    user: Address,
    provider: Address,
    gross: nat,
    fee: nat,
    net: nat,
    burnTx: TxRef,
    mintTx: TxRef,
    height: Height,
    timestamp: nat,
    service: ServiceType)

  datatype Engine = Engine(
    records: seq<Record>,
    byUser: map<Address, seq<nat>>,
    byProvider: map<Address, seq<nat>>,
    totalSettled: nat,
    totalFees: nat,
    feeBps: nat)

  datatype Request = Request(user: Address, provider: Address, gross: nat, service: ServiceType)

  type Outcome = Result<Record, SettlementError>

  function Fee(gross: nat, feeBps: nat): nat {
    Div(Sat(gross * feeBps), BPS)
  }

  function Net(gross: nat, feeBps: nat): nat {
    SatSub(gross, Fee(gross, feeBps))
  }

  function Refusal(r: Request): Option<SettlementError> {
    if r.gross == 0 then Some(InvalidAmount)
    else if r.user == r.provider then Some(SameUserAndProvider)
    else None
  }

  function RecordFor(r: Request, feeBps: nat, height: Height, timestamp: nat, index: nat): Record {
    var id := Digest(r.user, r.provider, r.gross, height, timestamp, index);
    Record(id, r.user, r.provider, r.gross, Fee(r.gross, feeBps), Net(r.gross, feeBps),
           BurnOf(id), MintOf(id), height, timestamp, r.service)
  }

  function UserOf(r: Record): Address {
    r.user
  }

  function ProviderOf(r: Record): Address {
    r.provider
  }

  function Step(e: Engine, r: Request, height: Height, timestamp: nat): (Engine, Outcome) {
    if Refusal(r).Some? then (e, Err(Refusal(r).value))
    else
      var record := RecordFor(r, e.feeBps, height, timestamp, |e.records|);
      (Engine(e.records + [record],
              Push(e.byUser, r.user, |e.records|),
              Push(e.byProvider, r.provider, |e.records|),
              Sat(e.totalSettled + r.gross),
              Sat(e.totalFees + record.fee),
              e.feeBps),
       Ok(record))
  }

  function NewEngine(feeBps: nat): Engine {
    Engine([], map[], map[], 0, 0, feeBps)
  }

  /** One call of the engine; every call brings its own height and time. */
  datatype Call = Call(request: Request, height: Height, timestamp: nat)

  function StepCall(e: Engine, c: Call): (Engine, Outcome) {
    Step(e, c.request, c.height, c.timestamp)
  }

  function Run(e: Engine, calls: seq<Call>): Engine {
    if calls == [] then e
    else StepCall(Run(e, calls[..|calls| - 1]), calls[|calls| - 1]).0
  }

  lemma RunNext(e: Engine, calls: seq<Call>, i: nat)
    requires i < |calls|
    ensures Run(e, calls[..i + 1]) == StepCall(Run(e, calls[..i]), calls[i]).0
  {
    assert calls[..i + 1][..i] == calls[..i];
  }

  /** A batch is a run of calls at one height and time. */
  function Calls(requests: seq<Request>, height: Height, timestamp: nat): (calls: seq<Call>)
    ensures |calls| == |requests|
  {
    seq(|requests|, i requires 0 <= i < |requests| => Call(requests[i], height, timestamp))
  }

  // ---------------------------------------------------------------------
  // Fees
  // ---------------------------------------------------------------------

  lemma FeeWithinGross(gross: nat, feeBps: nat)
    requires feeBps <= BPS
    ensures Fee(gross, feeBps) <= gross
  {
    MulMono(gross, gross, feeBps, BPS);
    DivWithin(Sat(gross * feeBps), gross, BPS);
  }

  lemma FeeAboveGross(feeBps: nat)
    requires feeBps > BPS
    ensures Fee(BPS, feeBps) + Net(BPS, feeBps) != BPS
  {
    MulMono(BPS, BPS, BPS + 1, feeBps);
    DivAtLeast(Sat(BPS * feeBps), BPS, BPS + 1);
  }

  /** Fee and net add up to the gross, for every amount at once, exactly when the rate is
      at most 10 000 basis points. */
  lemma SplitAlwaysConservesIff(feeBps: nat)
    ensures (forall gross: nat :: gross <= U128_MAX ==> Fee(gross, feeBps) + Net(gross, feeBps) == gross)
        <==> feeBps <= BPS
  {
    if feeBps <= BPS {
      forall gross: nat | gross <= U128_MAX
        ensures Fee(gross, feeBps) + Net(gross, feeBps) == gross
      {
        FeeWithinGross(gross, feeBps);
      }
    } else {
      FeeAboveGross(feeBps);
    }
  }

  // ---------------------------------------------------------------------
  // Books
  // ---------------------------------------------------------------------

  function GrossOf(r: Record): nat {
    r.gross
  }

  function FeeOf(r: Record): nat {
    r.fee
  }

  predicate RecordOk(r: Record, feeBps: nat, index: nat) {
    && r.id.index == index
    && r.burnTx == BurnOf(r.id) && r.mintTx == MintOf(r.id)
    && r.gross > 0 && r.user != r.provider
    && r.fee == Fee(r.gross, feeBps)
    && (if r.fee <= r.gross then r.fee + r.net == r.gross else r.net == 0)
  }

  /** Everything the engine keeps beside its records follows from the records. */
  ghost predicate BooksOk(e: Engine) {
    && IndexOk(e.byUser, e.records, UserOf)
    && IndexOk(e.byProvider, e.records, ProviderOf)
    && e.totalSettled == Sat(SumBy(e.records, GrossOf))
    && e.totalFees == Sat(SumBy(e.records, FeeOf))
    && (forall i :: 0 <= i < |e.records| ==> RecordOk(e.records[i], e.feeBps, i))
  }

  lemma StepKeepsBooks(e: Engine, r: Request, height: Height, timestamp: nat)
    requires BooksOk(e)
    ensures BooksOk(Step(e, r, height, timestamp).0)
  {
    hide IndexOk, Fee;
    if Refusal(r).None? {
      var record := RecordFor(r, e.feeBps, height, timestamp, |e.records|);
      PushKeepsIndex(e.byUser, e.records, UserOf, record);
      PushKeepsIndex(e.byProvider, e.records, ProviderOf, record);
      SumByPush(e.records, record, GrossOf);
      SumByPush(e.records, record, FeeOf);
    }
  }

  lemma {:induction false} RunKeepsBooks(e: Engine, calls: seq<Call>)
    requires BooksOk(e)
    ensures BooksOk(Run(e, calls))
  {
    if calls != [] {
      var before, c := calls[..|calls| - 1], calls[|calls| - 1];
      RunKeepsBooks(e, before);
      hide BooksOk, Step;
      StepKeepsBooks(Run(e, before), c.request, c.height, c.timestamp);
    }
  }

  /** In every reachable state, whatever the heights and times of the calls, each index lists
      its records in order and the totals are the (saturated) sums. */
  lemma BooksAlwaysAgree(feeBps: nat, calls: seq<Call>)
    ensures BooksOk(Run(NewEngine(feeBps), calls))
  {
    RunKeepsBooks(NewEngine(feeBps), calls);
  }

  function CallOf(r: Record): Call {
    Call(Request(r.user, r.provider, r.gross, r.service), r.height, r.timestamp)
  }

  /** When a settlement is accepted and what its record says: the parties, amount, service,
      height and time it was called with, the rate on the amount rounded down as fee, and
      the rest as net. */
  lemma SettleMeans(e: Engine, c: Call)
    ensures var (e', r) := StepCall(e, c);
            && (r == Err(InvalidAmount) <==> c.request.gross == 0)
            && (r == Err(SameUserAndProvider) <==> c.request.gross > 0 && c.request.user == c.request.provider)
            && (r.Ok? <==> c.request.gross > 0 && c.request.user != c.request.provider)
            && (r.Err? ==> e' == e)
            && (r.Ok? ==>
                  && e'.records == e.records + [r.value] && CallOf(r.value) == c
                  && BPS * r.value.fee <= Sat(c.request.gross * e.feeBps) < BPS * (r.value.fee + 1)
                  && (if r.value.fee <= r.value.gross then r.value.fee + r.value.net == r.value.gross
                      else r.value.net == 0))
  {
    DivBounds(Sat(c.request.gross * e.feeBps), BPS);
    hide Push;
  }

  /** No two settlements of one engine ever share an id or a token transaction, not even
      the same request made twice at one height and time. */
  lemma IdsDistinct(feeBps: nat, calls: seq<Call>, i: nat, j: nat)
    requires i < j < |Run(NewEngine(feeBps), calls).records|
    ensures var records := Run(NewEngine(feeBps), calls).records;
            && records[i].id != records[j].id
            && records[i].burnTx != records[j].burnTx
            && records[i].mintTx != records[j].mintTx
  {
    BooksAlwaysAgree(feeBps, calls);
    hide IndexOk, Run;
    var e := Run(NewEngine(feeBps), calls);
    assert RecordOk(e.records[i], e.feeBps, i) && RecordOk(e.records[j], e.feeBps, j);
  }

  /** The calls that are not refused, in order. */
  function Accepted(calls: seq<Call>): seq<Call> {
    if calls == [] then []
    else
      var c := calls[|calls| - 1];
      Accepted(calls[..|calls| - 1]) + if Refusal(c.request).None? then [c] else []
  }

  /** The list of records is the history of accepted calls: none lost, none made up, each
      with the height and time it was called with. */
  lemma {:induction false} RecordsAreAccepted(feeBps: nat, calls: seq<Call>)
    ensures var records := Run(NewEngine(feeBps), calls).records;
            && |records| == |Accepted(calls)|
            && forall i :: 0 <= i < |records| ==> CallOf(records[i]) == Accepted(calls)[i]
  {
    if calls != [] {
      hide Fee, Net, Push;
      RecordsAreAccepted(feeBps, calls[..|calls| - 1]);
    }
  }

  lemma {:induction false} RunKeepsRate(feeBps: nat, calls: seq<Call>)
    ensures Run(NewEngine(feeBps), calls).feeBps == feeBps
  {
    if calls != [] {
      hide Fee, Net, Push;
      RunKeepsRate(feeBps, calls[..|calls| - 1]);
    }
  }

  lemma AddFee(grossSum: nat, feeSum: nat, n: nat, gross: nat, feeBps: nat)
    requires BPS * feeSum <= feeBps * grossSum && feeBps * grossSum + n <= BPS * (feeSum + n)
    requires gross * feeBps <= U128_MAX
    ensures BPS * (feeSum + Fee(gross, feeBps)) <= feeBps * (grossSum + gross)
    ensures feeBps * (grossSum + gross) + (n + 1) <= BPS * (feeSum + Fee(gross, feeBps) + (n + 1))
  {
    DivBounds(gross * feeBps, BPS);
    Distribute(grossSum, gross, feeBps);
  }

  lemma {:induction false} FeesOfRecords(records: seq<Record>, feeBps: nat)
    requires forall i :: 0 <= i < |records| ==>
               records[i].fee == Fee(records[i].gross, feeBps) && records[i].gross * feeBps <= U128_MAX
    ensures BPS * SumBy(records, FeeOf) <= feeBps * SumBy(records, GrossOf)
    ensures feeBps * SumBy(records, GrossOf) + |records| <= BPS * (SumBy(records, FeeOf) + |records|)
  {
    if records != [] {
      var before, r := records[..|records| - 1], records[|records| - 1];
      FeesOfRecords(before, feeBps);
      AddFee(SumBy(before, GrossOf), SumBy(before, FeeOf), |before|, r.gross, feeBps);
    }
  }

  /** The fees collected are the rate applied to everything settled, short by less than one
      unit per settlement, in every state whose totals have not reached the u128 maximum
      and none of whose fee products did. */
  lemma FeeRounding(feeBps: nat, calls: seq<Call>)
    requires var e := Run(NewEngine(feeBps), calls);
             && e.totalSettled < U128_MAX && e.totalFees < U128_MAX
             && forall i :: 0 <= i < |e.records| ==> e.records[i].gross * feeBps <= U128_MAX
    ensures var e := Run(NewEngine(feeBps), calls);
            && BPS * e.totalFees <= feeBps * e.totalSettled
            && (e.records != [] ==> feeBps * e.totalSettled < BPS * (e.totalFees + |e.records|))
  {
    BooksAlwaysAgree(feeBps, calls);
    RunKeepsRate(feeBps, calls);
    hide Run, IndexOk;
    var e := Run(NewEngine(feeBps), calls);
    forall i | 0 <= i < |e.records|
      ensures e.records[i].fee == Fee(e.records[i].gross, feeBps)
    {
      assert RecordOk(e.records[i], e.feeBps, i);
    }
    FeesOfRecords(e.records, feeBps);
  }

  // ---------------------------------------------------------------------
  // The engine
  // ---------------------------------------------------------------------

  class SettlementEngine {
    var records: seq<Record>
    var recordsByUser: map<Address, seq<nat>>
    var recordsByProvider: map<Address, seq<nat>>
    var totalSettled: nat
    var totalFees: nat
    const feeRateBps: nat

    function State(): Engine
      reads this
    {
      Engine(records, recordsByUser, recordsByProvider, totalSettled, totalFees, feeRateBps)
    }

    constructor (feeBps: nat)
      ensures State() == NewEngine(feeBps)
    {
      records, recordsByUser, recordsByProvider := [], map[], map[];
      totalSettled, totalFees := 0, 0;
      feeRateBps := feeBps;
    }

    method Settle(r: Request, height: Height, timestamp: nat) returns (outcome: Outcome)
      modifies this
      ensures (State(), outcome) == Step(old(State()), r, height, timestamp)
      ensures BooksOk(old(State())) ==> BooksOk(State())
    {
      if BooksOk(State()) {
        StepKeepsBooks(State(), r, height, timestamp);
      }
      hide Push, BooksOk;
      if r.gross == 0 {
        return Err(InvalidAmount);
      }
      if r.user == r.provider {
        return Err(SameUserAndProvider);
      }
      var fee := Fee(r.gross, feeRateBps);
      var net := Net(r.gross, feeRateBps);
      var index := |records|;
      var id := Digest(r.user, r.provider, r.gross, height, timestamp, index);
      var record := Record(id, r.user, r.provider, r.gross, fee, net, BurnOf(id), MintOf(id),
                           height, timestamp, r.service);
      recordsByUser := Push(recordsByUser, r.user, index);
      recordsByProvider := Push(recordsByProvider, r.provider, index);
      totalSettled := Sat(totalSettled + r.gross);
      totalFees := Sat(totalFees + fee);
      records := records + [record];
      return Ok(record);
    }

    /** One outcome per request, in order, as if each had been settled on its own. */
    method BatchSettle(requests: seq<Request>, height: Height, timestamp: nat) returns (outcomes: seq<Outcome>)
      modifies this
      ensures |outcomes| == |requests|
      ensures var calls := Calls(requests, height, timestamp);
              && State() == Run(old(State()), calls)
              && forall i :: 0 <= i < |calls| ==> outcomes[i] == StepCall(Run(old(State()), calls[..i]), calls[i]).1
      ensures BooksOk(old(State())) ==> BooksOk(State())
    {
      hide Step, BooksOk;
      ghost var e := State();
      ghost var calls := Calls(requests, height, timestamp);
      outcomes := [];
      for i := 0 to |requests|
        invariant |outcomes| == i
        invariant State() == Run(e, calls[..i])
        invariant forall j :: 0 <= j < i ==> outcomes[j] == StepCall(Run(e, calls[..j]), calls[j]).1
      {
        hide Run;
        var outcome := Settle(requests[i], height, timestamp);
        outcomes := outcomes + [outcome];
        RunNext(e, calls, i);
      }
      assert calls[..|calls|] == calls;
      if BooksOk(e) {
        RunKeepsBooks(e, calls);
      }
    }
  }
}
