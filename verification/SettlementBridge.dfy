/** The settlement bridge: billing events are deduplicated over a sliding window of ids,
    queued, and drained into settlements. */
module SettlementBridges {
  import opened Types
  import opened Arithmetic
  import opened Sequences
  import Settlement

  /** Event ids are only compared. */
  type EventId = nat

  datatype Event = Event(
    id: EventId,
    user: Address,
    provider: Address,
    amount: nat,
    service: ServiceType)

  datatype Config = Config(batchInterval: nat, maxBatchSize: nat, dedupWindow: nat, feeBps: nat)

  datatype BridgeError = DuplicateEvent | InvalidEvent | BatchFailed | ZeroAmount

  datatype Bridge = Bridge(
    config: Config,
    queue: seq<Event>,
    processed: set<EventId>,
    dedupOrder: seq<EventId>,
    batchesCreated: nat,
    eventsProcessed: nat,
    totalSettled: nat,
    lastBatchHeight: Height,
    failed: seq<(Event, Settlement.SettlementError)>)

  datatype Op =
    | Ingest(event: Event)
    | CreateBatch(height: Height, timestamp: nat)
    | Flush
    | RetryFailed

  datatype Reply =
    | Accepted
    | Refused(error: BridgeError)
    | Batch(records: seq<Settlement.Record>)
    | Events(events: seq<Event>)

  function RequestOf(e: Event): Settlement.Request {
    Settlement.Request(e.user, e.provider, e.amount, e.service)
  }

  /** The last `n` elements, or all of them if there are fewer. */
  function LastN<T>(s: seq<T>, n: nat): seq<T> {
    if |s| <= n then s else s[|s| - n..]
  }

  function IdSet(ids: seq<EventId>): set<EventId> {
    set i | 0 <= i < |ids| :: ids[i]
  }

  /** Whether an event would settle: exactly what the engine itself asks. */
  predicate Valid(e: Event) {
    e.amount > 0 && e.user != e.provider
  }

  function Amount(e: Event): nat {
    e.amount
  }

  /** The events of a drained queue that settle, and those that fail with their reason. */
  function Settling(events: seq<Event>): seq<Event> {
    if events == [] then []
    else Settling(events[..|events| - 1]) + if Valid(events[|events| - 1]) then [events[|events| - 1]] else []
  }

  function Failing(events: seq<Event>): seq<(Event, Settlement.SettlementError)> {
    if events == [] then []
    else
      var e := events[|events| - 1];
      Failing(events[..|events| - 1])
      + if Valid(e) then [] else [(e, Settlement.Refusal(RequestOf(e)).value)]
  }

  /** One record per settling event, in order and numbered from 0. */
  function RecordsFor(events: seq<Event>, feeBps: nat, height: Height, timestamp: nat): (rs: seq<Settlement.Record>)
    ensures |rs| == |events|
  {
    seq(|events|, i requires 0 <= i < |events| =>
      Settlement.RecordFor(RequestOf(events[i]), feeBps, height, timestamp, i))
  }

  /** A running total after adding the amounts one by one, saturating each time. */
  function AddAll(total: nat, events: seq<Event>): nat {
    if events == [] then total
    else Sat(AddAll(total, events[..|events| - 1]) + events[|events| - 1].amount)
  }

  lemma {:induction false} AddAllIsSum(total: nat, events: seq<Event>)
    requires total <= U128_MAX
    ensures AddAll(total, events) == Sat(total + SumBy(events, Amount))
  {
    if events != [] {
      AddAllIsSum(total, events[..|events| - 1]);
    }
  }

  function AcceptEvent(b: Bridge, e: Event): Bridge {
    var order := LastN(b.dedupOrder + [e.id], b.config.dedupWindow);
    b.(processed := IdSet(order), dedupOrder := order, queue := b.queue + [e])
  }

  /** What draining a queue changes: the records made, the total, the count, the failures. */
  datatype BatchState = BatchState(
    records: seq<Settlement.Record>,
    total: nat,
    count: nat,
    failed: seq<(Event, Settlement.SettlementError)>)

  function Batched(start: BatchState, events: seq<Event>, feeBps: nat, height: Height, timestamp: nat): BatchState {
    var settling := Settling(events);
    BatchState(RecordsFor(settling, feeBps, height, timestamp),
               AddAll(start.total, settling),
               start.count + |settling|,
               start.failed + Failing(events))
  }

  function Drain(b: Bridge, height: Height): Bridge {
    var settling := Settling(b.queue);
    b.(queue := [],
       batchesCreated := b.batchesCreated + 1,
       eventsProcessed := b.eventsProcessed + |settling|,
       totalSettled := AddAll(b.totalSettled, settling),
       lastBatchHeight := height,
       failed := b.failed + Failing(b.queue))
  }

  function FailedEvents(failed: seq<(Event, Settlement.SettlementError)>): seq<Event> {
    seq(|failed|, i requires 0 <= i < |failed| => failed[i].0)
  }

  function Step(b: Bridge, op: Op): (Bridge, Reply) {
    match op
    case Ingest(e) =>
      if e.amount == 0 then (b, Refused(ZeroAmount))
      else if e.user == e.provider then (b, Refused(InvalidEvent))
      else if e.id in b.processed then (b, Refused(DuplicateEvent))
      else (AcceptEvent(b, e), Accepted)
    case CreateBatch(height, timestamp) =>
      if b.queue == [] then (b, Refused(BatchFailed))
      else (Drain(b, height), Batch(RecordsFor(Settling(b.queue), b.config.feeBps, height, timestamp)))
    case Flush => (b.(queue := []), Events(b.queue))
    case RetryFailed =>
      (b.(queue := b.queue + FailedEvents(b.failed), failed := []), Events(FailedEvents(b.failed)))
  }

  /** The id set and the id queue agree, and the window is never exceeded. */
  ghost predicate DedupOk(b: Bridge) {
    && b.processed == IdSet(b.dedupOrder)
    && (forall i, j :: 0 <= i < j < |b.dedupOrder| ==> b.dedupOrder[i] != b.dedupOrder[j])
    && |b.dedupOrder| <= b.config.dedupWindow
  }

  lemma NothingBatched(start: BatchState, feeBps: nat, height: Height, timestamp: nat)
    requires start.records == []
    ensures Batched(start, [], feeBps, height, timestamp) == start
  {
  }

  /** What one more drained event adds to the batch. */
  lemma BatchPush(start: BatchState, events: seq<Event>, e: Event, feeBps: nat, height: Height, timestamp: nat)
    ensures var s := Batched(start, events, feeBps, height, timestamp);
            Batched(start, events + [e], feeBps, height, timestamp)
            == if Valid(e)
               then BatchState(s.records + [Settlement.RecordFor(RequestOf(e), feeBps, height, timestamp, |s.records|)],
                               Sat(s.total + e.amount), s.count + 1, s.failed)
               else s.(failed := s.failed + [(e, Settlement.Refusal(RequestOf(e)).value)])
  {
    hide Settlement.RecordFor;
    assert (events + [e])[..|events|] == events;
    var settled := Settling(events);
    if Valid(e) {
      assert (settled + [e])[..|settled|] == settled;
      assert RecordsFor(settled + [e], feeBps, height, timestamp)
          == RecordsFor(settled, feeBps, height, timestamp)
             + [Settlement.RecordFor(RequestOf(e), feeBps, height, timestamp, |settled|)];
      assert Failing(events + [e]) == Failing(events);
    } else {
      assert Settling(events + [e]) == settled;
    }
  }

  lemma PushId(ids: seq<EventId>, id: EventId)
    ensures IdSet(ids + [id]) == IdSet(ids) + {id}
  {
    var ids' := ids + [id];
    assert ids'[|ids|] == id;
    forall x | x in IdSet(ids)
      ensures x in IdSet(ids')
    {
      var i :| 0 <= i < |ids| && ids[i] == x;
      assert ids'[i] == x;
    }
  }

  lemma PopId(ids: seq<EventId>)
    requires ids != []
    requires forall i, j :: 0 <= i < j < |ids| ==> ids[i] != ids[j]
    ensures IdSet(ids[1..]) == IdSet(ids) - {ids[0]}
  {
    forall x | x in IdSet(ids) && x != ids[0]
      ensures x in IdSet(ids[1..])
    {
      var i :| 0 <= i < |ids| && ids[i] == x;
      assert ids[1..][i - 1] == x;
    }
  }

  function NewBridge(config: Config): Bridge {
    Bridge(config, [], {}, [], 0, 0, 0, 0, [])
  }

  class SettlementBridge {
    const config: Config
    var eventQueue: seq<Event>
    var processedEvents: set<EventId>
    var dedupOrder: seq<EventId>
    var batchesCreated: nat
    var eventsProcessed: nat
    var totalSettled: nat
    var lastBatchHeight: Height
    var failedEvents: seq<(Event, Settlement.SettlementError)>

    function State(): Bridge
      reads this
    {
      Bridge(config, eventQueue, processedEvents, dedupOrder, batchesCreated, eventsProcessed,
             totalSettled, lastBatchHeight, failedEvents)
    }

    constructor (config: Config)
      ensures State() == NewBridge(config)
    {
      this.config := config;
      eventQueue, processedEvents, dedupOrder := [], {}, [];
      batchesCreated, eventsProcessed, totalSettled, lastBatchHeight := 0, 0, 0, 0;
      failedEvents := [];
    }

    /** Insert the id, then evict from the front while the window is exceeded. */
    method RememberId(id: EventId)
      requires DedupOk(State()) && id !in processedEvents
      modifies this`processedEvents, this`dedupOrder
      ensures dedupOrder == LastN(old(dedupOrder) + [id], config.dedupWindow)
      ensures processedEvents == IdSet(dedupOrder)
      ensures DedupOk(State())
    {
      ghost var all := dedupOrder + [id];
      PushId(dedupOrder, id);
      processedEvents := processedEvents + {id};
      dedupOrder := dedupOrder + [id];
      while |dedupOrder| > config.dedupWindow
        invariant |all| <= config.dedupWindow + 1
        invariant dedupOrder == all || (|all| == config.dedupWindow + 1 && dedupOrder == all[1..])
        invariant processedEvents == IdSet(dedupOrder)
        decreases |dedupOrder|
      {
        hide IdSet;
        var oldest := dedupOrder[0];
        PopId(dedupOrder);
        dedupOrder := dedupOrder[1..];
        processedEvents := processedEvents - {oldest};
      }
    }

    method IngestEvent(event: Event) returns (r: Reply)
      requires DedupOk(State())
      modifies this
      ensures (State(), r) == Step(old(State()), Ingest(event))
      ensures DedupOk(State())
    {
      if event.amount == 0 {
        return Refused(ZeroAmount);
      }
      if event.user == event.provider {
        return Refused(InvalidEvent);
      }
      if event.id in processedEvents {
        return Refused(DuplicateEvent);
      }
      RememberId(event.id);
      eventQueue := eventQueue + [event];
      return Accepted;
    }

    /** Settle one event, or file it as failed: at most one record. */
    method SettleOne(engine: Settlement.SettlementEngine, event: Event, height: Height, timestamp: nat)
      returns (records: seq<Settlement.Record>)
      modifies engine, this`totalSettled, this`eventsProcessed, this`failedEvents
      ensures |engine.records| == |old(engine.records)| + |records|
      ensures Valid(event) ==>
                && records == [Settlement.RecordFor(RequestOf(event), engine.feeRateBps, height, timestamp,
                                                    |old(engine.records)|)]
                && totalSettled == Sat(old(totalSettled) + event.amount)
                && eventsProcessed == old(eventsProcessed) + 1
                && failedEvents == old(failedEvents)
      ensures !Valid(event) ==>
                && records == []
                && totalSettled == old(totalSettled) && eventsProcessed == old(eventsProcessed)
                && failedEvents == old(failedEvents) + [(event, Settlement.Refusal(RequestOf(event)).value)]
    {
      var outcome := engine.Settle(RequestOf(event), height, timestamp);
      match outcome {
        case Ok(record) =>
          totalSettled := Sat(totalSettled + event.amount);
          eventsProcessed := eventsProcessed + 1;
          return [record];
        case Err(reason) =>
          failedEvents := failedEvents + [(event, reason)];
          return [];
      }
    }

    ghost function Books(records: seq<Settlement.Record>): BatchState
      reads this
    {
      BatchState(records, totalSettled, eventsProcessed, failedEvents)
    }

    method SettleEvents(events: seq<Event>, height: Height, timestamp: nat) returns (records: seq<Settlement.Record>)
      modifies this`totalSettled, this`eventsProcessed, this`failedEvents
      ensures Books(records) == Batched(old(Books([])), events, config.feeBps, height, timestamp)
    {
      hide Batched;
      var engine := new Settlement.SettlementEngine(config.feeBps);
      records := [];
      ghost var start := Books([]);
      NothingBatched(start, config.feeBps, height, timestamp);
      for i := 0 to |events|
        invariant fresh(engine) && engine.feeRateBps == config.feeBps
        invariant |engine.records| == |records|
        invariant Books(records) == Batched(start, events[..i], config.feeBps, height, timestamp)
      {
        ghost var done := events[..i];
        assert events[..i + 1] == done + [events[i]];
        BatchPush(start, done, events[i], config.feeBps, height, timestamp);
        var settled := SettleOne(engine, events[i], height, timestamp);
        records := records + settled;
      }
      assert events[..|events|] == events;
    }

    method CreateBatchAt(currentHeight: Height, timestamp: nat) returns (r: Reply)
      modifies this
      ensures (State(), r) == Step(old(State()), CreateBatch(currentHeight, timestamp))
    {
      hide RecordsFor, Settling, Failing, AddAll;
      if eventQueue == [] {
        return Refused(BatchFailed);
      }
      var events := eventQueue;
      eventQueue := [];
      var records := SettleEvents(events, currentHeight, timestamp);
      batchesCreated := batchesCreated + 1;
      lastBatchHeight := currentHeight;
      return Batch(records);
    }

    method FlushQueue() returns (events: seq<Event>)
      modifies this
      ensures (State(), Events(events)) == Step(old(State()), Flush)
    {
      events := eventQueue;
      eventQueue := [];
    }

    method RetryFailedEvents() returns (requeued: seq<Event>)
      modifies this
      ensures (State(), Events(requeued)) == Step(old(State()), RetryFailed)
    {
      requeued := FailedEvents(failedEvents);
      failedEvents := [];
      for i := 0 to |requeued|
        invariant eventQueue == old(eventQueue) + requeued[..i]
        invariant failedEvents == []
        invariant processedEvents == old(processedEvents) && dedupOrder == old(dedupOrder)
        invariant batchesCreated == old(batchesCreated) && eventsProcessed == old(eventsProcessed)
        invariant totalSettled == old(totalSettled) && lastBatchHeight == old(lastBatchHeight)
      {
        eventQueue := eventQueue + [requeued[i]];
        assert requeued[..i + 1] == requeued[..i] + [requeued[i]];
      }
      assert requeued[..|requeued|] == requeued;
    }
  }

  // ---------------------------------------------------------------------
  // Runs
  // ---------------------------------------------------------------------

  function Run(config: Config, ops: seq<Op>): Bridge {
    if ops == [] then NewBridge(config)
    else Step(Run(config, ops[..|ops| - 1]), ops[|ops| - 1]).0
  }

  /** What one operation accepts, settles and flushes. */
  function AcceptedBy(b: Bridge, op: Op): seq<Event> {
    if op.Ingest? && Step(b, op).1.Accepted? then [op.event] else []
  }

  /** The queued events for which a batch hands out a record. */
  function SettledBy(b: Bridge, op: Op): seq<Event> {
    if op.CreateBatch? then Settling(b.queue) else []
  }

  /** What a flush hands back to its caller. */
  function FlushedBy(b: Bridge, op: Op): seq<Event> {
    if op.Flush? && Step(b, op).1.Events? then Step(b, op).1.events else []
  }

  /** The events let in so far, in order; those settled by batches; those flushed unsettled. */
  function AcceptedEvents(config: Config, ops: seq<Op>): seq<Event> {
    if ops == [] then []
    else
      var before := ops[..|ops| - 1];
      AcceptedEvents(config, before) + AcceptedBy(Run(config, before), ops[|ops| - 1])
  }

  function SettledEvents(config: Config, ops: seq<Op>): seq<Event> {
    if ops == [] then []
    else
      var before := ops[..|ops| - 1];
      SettledEvents(config, before) + SettledBy(Run(config, before), ops[|ops| - 1])
  }

  function FlushedEvents(config: Config, ops: seq<Op>): seq<Event> {
    if ops == [] then []
    else
      var before := ops[..|ops| - 1];
      FlushedEvents(config, before) + FlushedBy(Run(config, before), ops[|ops| - 1])
  }

  function Ids(events: seq<Event>): (ids: seq<EventId>)
    ensures |ids| == |events|
  {
    seq(|events|, i requires 0 <= i < |events| => events[i].id)
  }

  lemma LastNPush<T>(s: seq<T>, x: T, n: nat)
    ensures LastN(LastN(s, n) + [x], n) == LastN(s + [x], n)
  {
  }

  lemma DrainKeepsDedup(b: Bridge, height: Height)
    ensures var b' := Drain(b, height);
            b'.config == b.config && b'.dedupOrder == b.dedupOrder && b'.processed == b.processed
  {
  }

  lemma DistinctAfterPush(ids: seq<EventId>, id: EventId, n: nat)
    requires forall i, j :: 0 <= i < j < |ids| ==> ids[i] != ids[j]
    requires id !in IdSet(ids)
    ensures var kept := LastN(ids + [id], n);
            |kept| <= n && forall i, j :: 0 <= i < j < |kept| ==> kept[i] != kept[j]
  {
  }

  lemma DedupStep(b: Bridge, op: Op, accepted: seq<Event>)
    requires b.dedupOrder == LastN(Ids(accepted), b.config.dedupWindow) && DedupOk(b)
    ensures var (b', r) := Step(b, op);
            && b'.config == b.config && DedupOk(b')
            && b'.dedupOrder == LastN(Ids(accepted + AcceptedBy(b, op)), b.config.dedupWindow)
  {
    hide Drain, RecordsFor;
    assert accepted + [] == accepted;
    if op.Ingest? && Step(b, op).1.Accepted? {
      hide LastN, IdSet;
      assert Ids(accepted + [op.event]) == Ids(accepted) + [op.event.id];
      LastNPush(Ids(accepted), op.event.id, b.config.dedupWindow);
      DistinctAfterPush(b.dedupOrder, op.event.id, b.config.dedupWindow);
    } else if op.CreateBatch? {
      DrainKeepsDedup(b, op.height);
    }
  }

  /** The dedup window is exactly the last accepted ids, as many as the window holds. */
  lemma {:induction false} DedupIsLastAccepted(config: Config, ops: seq<Op>)
    ensures var b := Run(config, ops);
            && b.config == config
            && b.dedupOrder == LastN(Ids(AcceptedEvents(config, ops)), config.dedupWindow)
            && DedupOk(b)
  {
    if ops != [] {
      var before, op := ops[..|ops| - 1], ops[|ops| - 1];
      DedupIsLastAccepted(config, before);
      hide Step, DedupOk, AcceptedBy;
      DedupStep(Run(config, before), op, AcceptedEvents(config, before));
    }
  }

  /** A well-formed event is refused as a duplicate exactly when its id is among the
      last `dedupWindow` accepted ones; an older id is let in again. */
  lemma DuplicateIff(config: Config, ops: seq<Op>, e: Event)
    requires Valid(e)
    ensures Step(Run(config, ops), Ingest(e)).1 == Refused(DuplicateEvent)
        <==> e.id in LastN(Ids(AcceptedEvents(config, ops)), config.dedupWindow)
  {
    DedupIsLastAccepted(config, ops);
  }

  lemma {:induction false} AllValidSettle(events: seq<Event>)
    requires forall i :: 0 <= i < |events| ==> Valid(events[i])
    ensures Settling(events) == events && Failing(events) == []
  {
    if events != [] {
      var n := |events| - 1;
      AllValidSettle(events[..n]);
      assert events == events[..n] + [events[n]];
    }
  }

  /** Only events that will settle are queued, and so none has ever failed. */
  ghost predicate QueueOk(b: Bridge) {
    b.failed == [] && forall i :: 0 <= i < |b.queue| ==> Valid(b.queue[i])
  }

  lemma Regroup<T>(a: multiset<T>, a': multiset<T>, q: multiset<T>, q': multiset<T>,
                   s: multiset<T>, s': multiset<T>, f: multiset<T>, f': multiset<T>)
    requires a == q + s + f && q + a' == q' + s' + f'
    ensures a + a' == q' + (s + s') + (f + f')
  {
    forall x
      ensures (a + a')[x] == (q' + (s + s') + (f + f'))[x]
    {
      assert (q + a')[x] == (q' + s' + f')[x];
    }
  }

  lemma DrainMoves(b: Bridge, height: Height, timestamp: nat)
    requires QueueOk(b)
    ensures var b' := Step(b, CreateBatch(height, timestamp)).0;
            b'.queue == [] && b'.failed == [] && SettledBy(b, CreateBatch(height, timestamp)) == b.queue
  {
    AllValidSettle(b.queue);
    hide RecordsFor, Settling, Failing, AddAll;
  }

  lemma NothingToRetry(b: Bridge)
    requires b.failed == []
    ensures Step(b, RetryFailed).0 == b
  {
    assert FailedEvents(b.failed) == [];
    assert b.queue + [] == b.queue;
  }

  lemma QueueOfAccepted(b: Bridge, e: Event)
    requires e.amount > 0 && e.user != e.provider
    ensures AcceptEvent(b, e).queue == b.queue + [e] && AcceptEvent(b, e).failed == b.failed && Valid(e)
  {
  }

  lemma QueueMoves(b: Bridge, op: Op)
    requires QueueOk(b)
    ensures var b' := Step(b, op).0;
            b.queue + AcceptedBy(b, op) == b'.queue + SettledBy(b, op) + FlushedBy(b, op) && QueueOk(b')
  {
    hide AcceptEvent, Drain, RecordsFor, Settling, Failing, Valid;
    match op
    case Ingest(e) =>
      if Step(b, op).1.Accepted? {
        QueueOfAccepted(b, e);
      }
    case CreateBatch(height, timestamp) =>
      DrainMoves(b, height, timestamp);
    case Flush =>
    case RetryFailed =>
      NothingToRetry(b);
  }

  lemma Moved<T>(q: seq<T>, a: seq<T>, q': seq<T>, s: seq<T>, f: seq<T>)
    requires q + a == q' + s + f
    ensures multiset(q) + multiset(a) == multiset(q') + multiset(s) + multiset(f)
  {
    assert multiset(q + a) == multiset(q' + s + f);
  }

  /** One operation moves each event to at most one place. */
  lemma ConservationStep(b: Bridge, op: Op)
    requires QueueOk(b)
    ensures var b' := Step(b, op).0;
            && multiset(b.queue) + multiset(AcceptedBy(b, op))
               == multiset(b'.queue) + multiset(SettledBy(b, op)) + multiset(FlushedBy(b, op))
            && QueueOk(b')
  {
    QueueMoves(b, op);
    hide Step, QueueOk, AcceptedBy, SettledBy, FlushedBy;
    Moved(b.queue, AcceptedBy(b, op), Step(b, op).0.queue, SettledBy(b, op), FlushedBy(b, op));
  }

  /** Nothing is lost and nothing is doubled: every accepted event is queued, settled or
      flushed, once. The failure list stays empty, so a retry never has anything to do. */
  lemma {:induction false} BridgeConservation(config: Config, ops: seq<Op>)
    ensures var b := Run(config, ops);
            && multiset(AcceptedEvents(config, ops))
               == multiset(b.queue) + multiset(SettledEvents(config, ops)) + multiset(FlushedEvents(config, ops))
            && QueueOk(b)
  {
    if ops != [] {
      var before, op := ops[..|ops| - 1], ops[|ops| - 1];
      BridgeConservation(config, before);
      hide Step, QueueOk, AcceptedBy, SettledBy, FlushedBy;
      var b := Run(config, before);
      ConservationStep(b, op);
      Regroup(multiset(AcceptedEvents(config, before)), multiset(AcceptedBy(b, op)),
              multiset(b.queue), multiset(Step(b, op).0.queue),
              multiset(SettledEvents(config, before)), multiset(SettledBy(b, op)),
              multiset(FlushedEvents(config, before)), multiset(FlushedBy(b, op)));
    }
  }

  /** The queue keeps the order of acceptance: it is what was accepted last, from some event
      on. */
  ghost predicate QueueIsTail(queue: seq<Event>, accepted: seq<Event>) {
    |queue| <= |accepted| && accepted[|accepted| - |queue|..] == queue
  }

  lemma TailPush(queue: seq<Event>, accepted: seq<Event>, more: seq<Event>)
    requires QueueIsTail(queue, accepted)
    ensures QueueIsTail(queue + more, accepted + more)
  {
    var from := |accepted| - |queue|;
    assert (accepted + more)[from..] == accepted[from..] + more;
  }

  lemma TailStep(b: Bridge, op: Op, accepted: seq<Event>)
    requires b.failed == [] && QueueIsTail(b.queue, accepted)
    ensures QueueIsTail(Step(b, op).0.queue, accepted + AcceptedBy(b, op))
  {
    hide Settling, Failing, RecordsFor, IdSet, LastN;
    var q := Step(b, op).0.queue;
    if op.RetryFailed? {
      assert q == b.queue + FailedEvents(b.failed) == b.queue;
    }
    if q == b.queue + AcceptedBy(b, op) {
      TailPush(b.queue, accepted, AcceptedBy(b, op));
    }
  }

  lemma {:induction false} QueueInOrder(config: Config, ops: seq<Op>)
    ensures QueueIsTail(Run(config, ops).queue, AcceptedEvents(config, ops))
  {
    if ops != [] {
      var before, op := ops[..|ops| - 1], ops[|ops| - 1];
      QueueInOrder(config, before);
      BridgeConservation(config, before);
      hide Step, QueueIsTail, AcceptedBy;
      TailStep(Run(config, before), op, AcceptedEvents(config, before));
    }
  }

  /** When an event is let in: it has an amount, two different parties, and an id that is
      not among the last accepted ones. */
  lemma IngestIff(config: Config, ops: seq<Op>, e: Event)
    ensures Step(Run(config, ops), Ingest(e)).1 == Refused(ZeroAmount) <==> e.amount == 0
    ensures Step(Run(config, ops), Ingest(e)).1 == Refused(InvalidEvent) <==> e.amount > 0 && e.user == e.provider
    ensures Step(Run(config, ops), Ingest(e)).1 == Accepted
        <==> e.amount > 0 && e.user != e.provider
             && var ids := Ids(AcceptedEvents(config, ops));
                e.id !in ids[SatSub(|ids|, config.dedupWindow)..]
  {
    DedupIsLastAccepted(config, ops);
    hide Run, AcceptedEvents;
    var ids := Run(config, ops).dedupOrder;
    assert e.id in IdSet(ids) <==> e.id in ids;
  }

  /** What was handed out: a flush returns the whole queue in order, a retry the failed events
      as it queues them again, and the count and height are those of the batches made. */
  lemma RepliesMean(b: Bridge, op: Op)
    ensures var (b', r) := Step(b, op);
            && (op.Flush? ==> r == Events(b.queue) && b'.queue == [] && b'.failed == b.failed)
            && (op.CreateBatch? && b.queue == [] ==> r == Refused(BatchFailed) && b' == b)
            && (op.CreateBatch? && b.queue != [] ==>
                  r.Batch? && b'.queue == [] && b'.failed == b.failed + Failing(b.queue))
            && (op.RetryFailed? ==>
                  r.Events? && b'.queue == b.queue + r.events && b'.failed == []
                  && |r.events| == |b.failed|
                  && forall i :: 0 <= i < |b.failed| ==> r.events[i] == b.failed[i].0)
            && b'.batchesCreated == b.batchesCreated + (if r.Batch? then 1 else 0)
            && b'.lastBatchHeight == if r.Batch? then op.height else b.lastBatchHeight
  {
    hide Settling, Failing, RecordsFor, IdSet, LastN, AddAll;
  }

  /** Whatever is queued, a batch makes a record of exactly the valid events, in order, and
      keeps every other one as failed. */
  lemma {:induction false} BatchSplits(events: seq<Event>)
    ensures forall e :: e in Settling(events) <==> e in events && Valid(e)
    ensures multiset(events) == multiset(Settling(events)) + multiset(FailedEvents(Failing(events)))
  {
    if events != [] {
      var n := |events| - 1;
      var before, e := events[..n], events[n];
      BatchSplits(before);
      assert events == before + [e];
      if !Valid(e) {
        var failing, last := Failing(before), (e, Settlement.Refusal(RequestOf(e)).value);
        assert FailedEvents(failing + [last]) == FailedEvents(failing) + [e];
        assert Settling(events) == Settling(before) + [];
      } else {
        assert Failing(events) == Failing(before);
        assert Settling(events) == Settling(before) + [e];
      }
    } else {
      assert FailedEvents([]) == [];
    }
  }

  lemma NoneSettling(events: seq<Event>)
    ensures events == [] ==> Settling(events) == []
  {
  }

  lemma CountersOfAccepted(b: Bridge, e: Event)
    ensures AcceptEvent(b, e).eventsProcessed == b.eventsProcessed && AcceptEvent(b, e).totalSettled == b.totalSettled
  {
  }

  lemma CounterStep(b: Bridge, op: Op)
    requires b.totalSettled <= U128_MAX
    ensures var b' := Step(b, op).0;
            && b'.eventsProcessed == b.eventsProcessed + |SettledBy(b, op)|
            && b'.totalSettled == Sat(b.totalSettled + SumBy(SettledBy(b, op), Amount))
  {
    hide RecordsFor, AcceptEvent, Settling, Failing;
    if op.CreateBatch? {
      AddAllIsSum(b.totalSettled, Settling(b.queue));
      NoneSettling(b.queue);
    } else if op.Ingest? {
      CountersOfAccepted(b, op.event);
    }
  }

  lemma SatTwice(x: nat, y: nat)
    ensures Sat(x) <= U128_MAX && Sat(Sat(x) + y) == Sat(x + y)
  {
  }

  lemma SettledPush(config: Config, before: seq<Op>, op: Op)
    ensures Run(config, before + [op]) == Step(Run(config, before), op).0
    ensures SettledEvents(config, before + [op]) == SettledEvents(config, before) + SettledBy(Run(config, before), op)
  {
    assert (before + [op])[..|before|] == before;
  }

  /** The counters are those of the settled events. */
  lemma {:induction false} CountersMatch(config: Config, ops: seq<Op>)
    ensures var b, settled := Run(config, ops), SettledEvents(config, ops);
            && b.eventsProcessed == |settled|
            && b.totalSettled == Sat(SumBy(settled, Amount))
  {
    if ops != [] {
      var before, op := ops[..|ops| - 1], ops[|ops| - 1];
      assert ops == before + [op];
      CountersMatch(config, before);
      hide Run, SettledEvents, SettledBy, Step, SumBy, Sat;
      var settled, more := SettledEvents(config, before), SettledBy(Run(config, before), op);
      SettledPush(config, before, op);
      SatTwice(SumBy(settled, Amount), SumBy(more, Amount));
      CounterStep(Run(config, before), op);
      SumByAppend(settled, more, Amount);
    }
  }

  /** The records handed out by a batch are the settled events, one for one and in
      order, each carrying its event's parties and amount. */
  lemma BatchMatchesQueue(config: Config, ops: seq<Op>, height: Height, timestamp: nat)
    requires Run(config, ops).queue != []
    ensures var queue, reply := Run(config, ops).queue, Step(Run(config, ops), CreateBatch(height, timestamp)).1;
            && reply.Batch? && |reply.records| == |queue|
            && forall i :: 0 <= i < |queue| ==>
                 && reply.records[i].user == queue[i].user
                 && reply.records[i].provider == queue[i].provider
                 && reply.records[i].gross == queue[i].amount
                 && reply.records[i].service == queue[i].service
                 && reply.records[i].height == height && reply.records[i].timestamp == timestamp
                 && reply.records[i].fee == Settlement.Fee(queue[i].amount, Run(config, ops).config.feeBps)
                 && reply.records[i].id.index == i
  {
    BridgeConservation(config, ops);
    hide Run, AcceptedEvents, SettledEvents, FlushedEvents;
    AllValidSettle(Run(config, ops).queue);
  }

  lemma BatchRecord(b: Bridge, height: Height, timestamp: nat, i: nat)
    requires i < |b.queue| && QueueOk(b)
    ensures var reply := Step(b, CreateBatch(height, timestamp)).1;
            && reply.Batch? && i < |reply.records|
            && reply.records[i].id == Settlement.Digest(
                 b.queue[i].user, b.queue[i].provider, b.queue[i].amount, height, timestamp, i)
  {
    AllValidSettle(b.queue);
    hide Settling, Failing, Drain, QueueOk;
    assert RecordsFor(b.queue, b.config.feeBps, height, timestamp)[i]
        == Settlement.RecordFor(RequestOf(b.queue[i]), b.config.feeBps, height, timestamp, i);
  }

  /** Record ids are unique within a batch only: every batch counts from 0 again, so two
      batches of one run repeat an id exactly when they were made at one height and
      timestamp and hold the same parties and amount at the same position. */
  lemma IdsRepeatAcrossBatches(config: Config, ops: seq<Op>, between: seq<Op>,
                               h1: Height, t1: nat, h2: Height, t2: nat, i: nat, j: nat)
    requires i < |Run(config, ops).queue|
    requires j < |Run(config, ops + [CreateBatch(h1, t1)] + between).queue|
    ensures var before, later := Run(config, ops), Run(config, ops + [CreateBatch(h1, t1)] + between);
            var first, second := Step(before, CreateBatch(h1, t1)).1, Step(later, CreateBatch(h2, t2)).1;
            && first.Batch? && i < |first.records| && second.Batch? && j < |second.records|
            && (first.records[i].id == second.records[j].id
                <==> h1 == h2 && t1 == t2 && i == j
                     && before.queue[i].user == later.queue[j].user
                     && before.queue[i].provider == later.queue[j].provider
                     && before.queue[i].amount == later.queue[j].amount)
  {
    hide Run, Step;
    var later := ops + [CreateBatch(h1, t1)] + between;
    BridgeConservation(config, ops);
    BridgeConservation(config, later);
    hide QueueOk, AcceptedEvents, SettledEvents, FlushedEvents;
    BatchRecord(Run(config, ops), h1, t1, i);
    BatchRecord(Run(config, later), h2, t2, j);
  }

  lemma RunPush(config: Config, ops: seq<Op>, op: Op)
    ensures Run(config, ops + [op]) == Step(Run(config, ops), op).0
  {
    assert (ops + [op])[..|ops|] == ops;
  }

  lemma IngestValid(b: Bridge, e: Event)
    requires Valid(e) && e.id !in b.processed
    ensures Step(b, Ingest(e)) == (AcceptEvent(b, e), Accepted)
    ensures AcceptEvent(b, e).queue == b.queue + [e] && AcceptEvent(b, e).config == b.config
    ensures forall id :: id in AcceptEvent(b, e).processed ==> id in b.dedupOrder || id == e.id
  {
  }

  lemma BatchEmpties(b: Bridge, batch: Op)
    requires batch.CreateBatch? && b.queue != []
    ensures var b' := Step(b, batch).0;
            b'.queue == [] && b'.config == b.config && b'.processed == b.processed && b'.dedupOrder == b.dedupOrder
  {
    hide Settling, Failing, AddAll, RecordsFor;
  }

  lemma IngestBatchIngest(config: Config, e: Event, e': Event, batch: Op)
    requires Valid(e) && Valid(e') && e'.id != e.id && batch.CreateBatch?
    ensures var one := [Ingest(e)];
            && Run(config, one).queue == [e]
            && Step(Run(config, one + [batch]), Ingest(e')).1 == Accepted
            && Run(config, one + [batch] + [Ingest(e')]).queue == [e']
            && Run(config, one).config == config && Run(config, one + [batch] + [Ingest(e')]).config == config
  {
    assert [] + [Ingest(e)] == [Ingest(e)];
    assert Run(config, []) == NewBridge(config);
    hide Run, Step, AcceptEvent;
    RunPush(config, [], Ingest(e));
    RunPush(config, [Ingest(e)], batch);
    RunPush(config, [Ingest(e)] + [batch], Ingest(e'));
    IngestValid(NewBridge(config), e);
    BatchEmpties(Run(config, [Ingest(e)]), batch);
    IngestValid(Run(config, [Ingest(e)] + [batch]), e');
  }

  lemma BatchOfOne(b: Bridge, e: Event, height: Height, timestamp: nat)
    requires b.queue == [e] && Valid(e)
    ensures var reply := Step(b, CreateBatch(height, timestamp)).1;
            && reply.Batch? && |reply.records| == 1
            && reply.records[0].id == Settlement.Digest(e.user, e.provider, e.amount, height, timestamp, 0)
  {
    AllValidSettle([e]);
    hide Settling, Drain;
  }

  /** So it happens: two events that differ in their own id only, each settled in a batch of
      its own at one height and time, leave two records under one id. */
  lemma IdsDoRepeat(config: Config, e: Event, other: EventId, height: Height, timestamp: nat)
    requires Valid(e) && other != e.id
    ensures var batch := CreateBatch(height, timestamp);
            var one := [Ingest(e)];
            var two := one + [batch] + [Ingest(e.(id := other))];
            var first, second := Step(Run(config, one), batch).1, Step(Run(config, two), batch).1;
            && Step(Run(config, one + [batch]), Ingest(e.(id := other))).1 == Accepted
            && first.Batch? && |first.records| == 1 && second.Batch? && |second.records| == 1
            && first.records[0].id == second.records[0].id
  {
    var batch := CreateBatch(height, timestamp);
    var one, e' := [Ingest(e)], e.(id := other);
    IngestBatchIngest(config, e, e', batch);
    hide Run, Step;
    BatchOfOne(Run(config, one), e, height, timestamp);
    BatchOfOne(Run(config, one + [batch] + [Ingest(e')]), e', height, timestamp);
  }
}
