/** The imperative event core: gateway, ingest and worker (recovery/gateway.py, recovery/ingest.py,
    recovery/worker.py), each proved to be its thread run to the end without pause. */
module Worker {
  import opened Models
  import opened Stores
  import opened Guards
  import opened Protocol

  // ---------------------------------------------------------------- gateway --

  datatype GatewayState = GatewayState(entities: map<string, Snapshot>, fetchCount: nat, failNext: bool)
  {
    function Answer(payment: string): Option<Snapshot> {
      if failNext || payment !in entities then None else Some(entities[payment])
    }

    function Asked(): GatewayState {
      if failNext then this.(failNext := false) else this.(fetchCount := fetchCount + 1)
    }
  }

  /** The fields a `set_state` names. */
  datatype Fields = Fields(
    status: Option<PaymentStatus>,
    orderId: Option<Option<string>>,
    rail: Option<Option<string>>,
    orderExpiresAt: Option<Option<int>>)

  function Given<T>(field: Option<T>, otherwise: T): T {
    if field.Some? then field.value else otherwise
  }

  /** An unknown payment is registered first, with no field but its id; a field that is not named
      stays what it was. */
  function SetFields(entities: map<string, Snapshot>, payment: string, f: Fields): map<string, Snapshot>
    requires payment in entities || f.status.Some?
  {
    var known := if payment in entities then entities[payment] else Snapshot(f.status.value, None, None, None);
    entities[payment := Snapshot(Given(f.status, known.status), Given(f.orderId, known.orderId),
                                 Given(f.rail, known.rail), Given(f.orderExpiresAt, known.orderExpiresAt))]
  }

  class SimulatedGateway {
    var entities: map<string, Snapshot>
    var fetchCount: nat
    var failNext: bool

    function View(): GatewayState
      reads this
    {
      GatewayState(entities, fetchCount, failNext)
    }

    constructor ()
      ensures View() == GatewayState(map[], 0, false)
    {
      entities, fetchCount, failNext := map[], 0, false;
    }

    method SetState(payment: string, f: Fields)
      requires payment in entities || f.status.Some?
      modifies this`entities
      ensures View() == old(View()).(entities := SetFields(old(entities), payment, f))
      ensures entities.Keys == old(entities).Keys + {payment}
      ensures f.status.Some? ==> entities[payment].status == f.status.value
      ensures payment in old(entities) && f == Fields(f.status, None, None, None) ==>
                entities[payment] == old(entities)[payment].(status := entities[payment].status)
    {
      if payment !in entities {
        entities := entities[payment := Snapshot(f.status.value, None, None, None)];
      }
      var known := entities[payment];
      entities := entities[payment := known.(status := Given(f.status, known.status),
                                             orderId := Given(f.orderId, known.orderId),
                                             rail := Given(f.rail, known.rail),
                                             orderExpiresAt := Given(f.orderExpiresAt, known.orderExpiresAt))];
    }

    /** None stands for a StateRefreshError. */
    method FetchPayment(payment: string) returns (snapshot: Option<Snapshot>)
      modifies this`fetchCount, this`failNext
      ensures snapshot == old(View()).Answer(payment)
      ensures View() == old(View()).Asked()
      ensures snapshot.Some? <==> !old(failNext) && payment in entities
      ensures snapshot.Some? ==> snapshot.value == entities[payment]
      ensures !failNext && fetchCount == old(fetchCount) + if old(failNext) then 0 else 1
    {
      if failNext {
        failNext := false;
        return None;
      }
      fetchCount := fetchCount + 1;
      if payment !in entities {
        return None;
      }
      return Some(entities[payment]);
    }
  }

  // ------------------------------------------------------------------ stats --

  datatype Stats = Stats(
    processed: nat,
    decided: nat,
    duplicatesSuppressed: nat,
    guardBlocks: nat,
    staleIgnored: nat,
    closedResolved: nat,
    refreshFailures: nat,
    unmappedFailures: nat)

  const ZERO := Stats(0, 0, 0, 0, 0, 0, 0, 0)

  function CountUnmapped(notes: seq<Note>): nat {
    if notes == [] then 0 else CountUnmapped(notes[..|notes| - 1]) + if notes[|notes| - 1] == Unmapped then 1 else 0
  }

  function Tally(s: Stats, outcome: Outcome, notes: seq<Note>): Stats {
    var c := s.(unmappedFailures := s.unmappedFailures + CountUnmapped(notes));
    match outcome
    case RefreshFailed => s.(refreshFailures := s.refreshFailures + 1)
    case Raised => s.(refreshFailures := s.refreshFailures + 1)
    case Stale => s.(staleIgnored := s.staleIgnored + 1)
    case ClosedResolved => s.(closedResolved := s.closedResolved + 1)
    case Refused => c.(guardBlocks := c.guardBlocks + 1)
    case Suppressed => c.(duplicatesSuppressed := c.duplicatesSuppressed + 1)
    case DecidedOnce => c.(decided := c.decided + 1)
    case _ => s
  }

  // ----------------------------------------------------------------- ingest --

  method IngestDelivery(store: Store, cfg: Config, d: Delivery) returns (outcome: Outcome)
    modifies store
    ensures Result(store.View(), outcome) == Ingest(cfg, old(store.View()), d)
  {
    if d.eventIdHeader.None? || d.eventIdHeader.value == "" || d.event == "" || d.createdAt.None? {
      store.Append(AuditEvent(None, None, WebhookRejectedUnsupported));
      RunWrites1(cfg, old(store.View()), IngestThread(cfg, d), None, NO_ORACLE);
      return Malformed;
    }
    var id := d.eventIdHeader.value;
    if d.event !in cfg.acceptedEvents {
      store.Append(AuditEvent(None, Some(id), WebhookRejectedUnsupported));
      RunWrites1(cfg, old(store.View()), IngestThread(cfg, d), None, NO_ORACLE);
      return Unsupported;
    }
    if d.entity.nestedError {
      store.Append(AuditEvent(None, Some(id), PayloadShapeUnexpected));
      RunFirstWrite(cfg, old(store.View()), IngestThread(cfg, d), None, NO_ORACLE);
    }
    ghost var shaped := store.View();
    ghost var filtered := [Entry(None, id, WebhookFiltered)];
    if d.entity.errorReason in cfg.filteredReasons {
      assert Ingest(cfg, old(store.View()), d)
          == RunToEnd(cfg, shaped, Thread(filtered, Halt(Filtered)), None, NO_ORACLE) by {
        var shape := if d.entity.nestedError then [Entry(None, id, PayloadShapeUnexpected)] else [];
        assert IngestThread(cfg, d).writes == shape + filtered;
        assert d.entity.nestedError ==> IngestThread(cfg, d).writes[1..] == filtered;
      }
      store.Append(AuditEvent(None, Some(id), WebhookFiltered));
      RunWrites1(cfg, shaped, Thread(filtered, Halt(Filtered)), None, NO_ORACLE);
      return Filtered;
    }
    var raw := RawEvent(d.event, d.createdAt.value, d.entity);
    assert Ingest(cfg, old(store.View()), d) == RunToEnd(cfg, shaped, Thread([], RawInsert(id, raw)), None, NO_ORACLE);
    var isNew := store.RecordRaw(id, raw);
    ghost var stored := store.View();
    if !isNew {
      store.Append(AuditEvent(None, Some(id), WebhookDuplicateIgnored));
      RunWrites1(cfg, stored, AfterRaw(shaped, id), None, NO_ORACLE);
      return DuplicateDelivery;
    }
    store.Append(AuditEvent(None, Some(id), WebhookReceived));
    var _ := store.Enqueue(id);
    RunWrites2(cfg, stored, AfterRaw(shaped, id), None, NO_ORACLE);
    return Accepted;
  }

  /** The first write of a thread, then the rest of its run. */
  lemma RunFirstWrite(cfg: Config, db: Db, th: Thread, fetched: Option<Snapshot>, o: Oracle)
    requires th.writes != []
    ensures RunToEnd(cfg, db, th, fetched, o)
            == RunToEnd(cfg, Do(db, th.writes[0]), Thread(th.writes[1..], th.main), fetched, o)
  {
  }

  lemma RunWrites1(cfg: Config, db: Db, th: Thread, fetched: Option<Snapshot>, o: Oracle)
    requires |th.writes| == 1 && th.main.Halt?
    ensures RunToEnd(cfg, db, th, fetched, o) == Result(Do(db, th.writes[0]), th.main.outcome)
  {
    RunFirstWrite(cfg, db, th, fetched, o);
  }

  lemma RunWrites2(cfg: Config, db: Db, th: Thread, fetched: Option<Snapshot>, o: Oracle)
    requires |th.writes| == 2 && th.main.Halt?
    ensures RunToEnd(cfg, db, th, fetched, o) == Result(Do(Do(db, th.writes[0]), th.writes[1]), th.main.outcome)
  {
    RunFirstWrite(cfg, db, th, fetched, o);
    RunWrites1(cfg, Do(db, th.writes[0]), Thread(th.writes[1..], th.main), fetched, o);
  }

  lemma RunWrites3(cfg: Config, db: Db, th: Thread, fetched: Option<Snapshot>, o: Oracle)
    requires |th.writes| == 3 && th.main.Halt?
    ensures RunToEnd(cfg, db, th, fetched, o)
            == Result(Do(Do(Do(db, th.writes[0]), th.writes[1]), th.writes[2]), th.main.outcome)
  {
    RunFirstWrite(cfg, db, th, fetched, o);
    RunWrites2(cfg, Do(db, th.writes[0]), Thread(th.writes[1..], th.main), fetched, o);
  }

  lemma RunMain(cfg: Config, db: Db, th: Thread, fetched: Option<Snapshot>, o: Oracle)
    requires th.writes == [] && !th.main.Halt?
    ensures RunToEnd(cfg, db, th, fetched, o)
            == RunToEnd(cfg, NextDb(db, th), NextThread(cfg, db, th, fetched, o), fetched, o)
  {
  }

  // ----------------------------------------------------------------- worker --

  class WorkerStats {
    var processed: nat
    var decided: nat
    var duplicatesSuppressed: nat
    var guardBlocks: nat
    var staleIgnored: nat
    var closedResolved: nat
    var refreshFailures: nat
    var unmappedFailures: nat

    function View(): Stats
      reads this
    {
      Stats(processed, decided, duplicatesSuppressed, guardBlocks, staleIgnored, closedResolved, refreshFailures,
            unmappedFailures)
    }

    constructor ()
      ensures View() == ZERO
    {
      processed, decided, duplicatesSuppressed, guardBlocks := 0, 0, 0, 0;
      staleIgnored, closedResolved, refreshFailures, unmappedFailures := 0, 0, 0, 0;
    }

    method Add(outcome: Outcome, notes: seq<Note>)
      modifies this
      ensures View() == Tally(old(View()), outcome, notes)
    {
      match outcome {
        case RefreshFailed => refreshFailures := refreshFailures + 1;
        case Raised => refreshFailures := refreshFailures + 1;
        case Stale => staleIgnored := staleIgnored + 1;
        case ClosedResolved => closedResolved := closedResolved + 1;
        case Refused =>
          AddUnmapped(notes);
          guardBlocks := guardBlocks + 1;
        case Suppressed =>
          AddUnmapped(notes);
          duplicatesSuppressed := duplicatesSuppressed + 1;
        case DecidedOnce =>
          AddUnmapped(notes);
          decided := decided + 1;
        case _ =>
      }
    }

    method AddUnmapped(notes: seq<Note>)
      modifies this`unmappedFailures
      ensures unmappedFailures == old(unmappedFailures) + CountUnmapped(notes)
    {
      for i := 0 to |notes|
        invariant unmappedFailures == old(unmappedFailures) + CountUnmapped(notes[..i])
      {
        assert notes[..i + 1][..i] == notes[..i];
        if notes[i] == Unmapped {
          unmappedFailures := unmappedFailures + 1;
        }
      }
      assert notes[..|notes|] == notes;
    }
  }

  /** What the gateway would answer to the job of `row`. */
  function FetchedFor(g: GatewayState, row: Row): Option<Snapshot> {
    if row.entity.paymentId.None? || row.entity.paymentId.value == "" then None
    else g.Answer(row.entity.paymentId.value)
  }

  function GatewayAfter(g: GatewayState, row: Row): GatewayState {
    if row.entity.paymentId.None? || row.entity.paymentId.value == "" then g else g.Asked()
  }

  /** `_process_one`, line by line. It is the thread of its row run to the end. */
  method ProcessOne(store: Store, gateway: SimulatedGateway, cfg: Config, row: Row, o: Oracle)
    returns (outcome: Outcome)
    modifies store, gateway
    ensures Result(store.View(), outcome)
            == ProcessRow(cfg, old(store.View()), row, FetchedFor(old(gateway.View()), row), o)
    ensures gateway.View() == GatewayAfter(old(gateway.View()), row)
  {
    ghost var before := store.View();
    ghost var fetched := FetchedFor(gateway.View(), row);
    RunMain(cfg, before, Thread([], Fetch(row)), fetched, o);
    if row.entity.paymentId.None? || row.entity.paymentId.value == "" {
      store.Append(AuditEvent(None, Some(row.eventId), WebhookRejectedUnsupported));
      store.Finish(row.job, FailedJob);
      RunWrites2(cfg, before, AfterFetch(cfg, row, fetched), fetched, o);
      return Rejected;
    }
    var payment := row.entity.paymentId.value;

    // 1. Authoritative state, before any decision.
    var answer := gateway.FetchPayment(payment);
    if answer.None? {
      store.Append(AuditEvent(None, Some(row.eventId), StateRefreshFailed));
      if cfg.requireStateRefresh {
        store.Finish(row.job, Pending);
        RunWrites2(cfg, before, AfterFetch(cfg, row, fetched), fetched, o);
        return RefreshFailed;
      }
      RunWrites1(cfg, before, AfterFetch(cfg, row, fetched), fetched, o);
      return Raised;
    }
    var snap := answer.value;
    store.Append(AuditEvent(None, Some(row.eventId), StateRefreshed(payment, snap.status)));
    RunFirstWrite(cfg, before, AfterFetch(cfg, row, fetched), fetched, o);
    outcome := ProcessSnapshot(store, cfg, row, payment, snap, fetched, o);
  }

  /** Steps 2 to 4: resolve the chain, ignore stale events, stop when the money arrived. */
  method ProcessSnapshot(store: Store, cfg: Config, row: Row, payment: string, snap: Snapshot,
                         ghost fetched: Option<Snapshot>, o: Oracle) returns (outcome: Outcome)
    modifies store
    ensures Result(store.View(), outcome)
            == RunToEnd(cfg, old(store.View()), Thread([], OpenInsert(row, payment, snap)), fetched, o)
  {
    ghost var before := store.View();
    var chainKey, orderId := ChainKey(snap.orderId, payment), OrderOf(snap.orderId);
    var isNew := store.InsertCaseRow(chainKey, orderId, payment, row.createdAt);
    RunMain(cfg, before, Thread([], OpenInsert(row, payment, snap)), fetched, o);
    var caseId := store.ReadCase(chainKey);
    outcome := ApplyToCase(store, cfg, row, payment, snap, caseId, isNew, fetched, o);
  }

  method ApplyToCase(store: Store, cfg: Config, row: Row, payment: string, snap: Snapshot, caseId: nat, isNew: bool,
                     ghost fetched: Option<Snapshot>, o: Oracle) returns (outcome: Outcome)
    requires caseId == FindCase(store.cases, ChainKey(snap.orderId, payment))
    modifies store
    ensures Result(store.View(), outcome)
            == RunToEnd(cfg, old(store.View()), Thread([], OpenRead(row, payment, snap, isNew)), fetched, o)
  {
    ghost var before := store.View();
    RunMain(cfg, before, Thread([], OpenRead(row, payment, snap, isNew)), fetched, o);
    if caseId == |store.cases| {
      return Raised;
    }
    var last := store.cases[caseId].lastEventCreatedAt;
    store.Append(AuditEvent(Some(caseId), Some(row.eventId), if isNew then CaseOpened else CaseAttached));
    RunAttach(cfg, before, row, payment, snap, isNew, caseId, fetched, o);
    outcome := ApplyAttached(store, cfg, row, payment, snap, caseId, last, fetched, o);
  }

  /** What the event means for a case that last heard of one created at `last`. */
  method ApplyAttached(store: Store, cfg: Config, row: Row, payment: string, snap: Snapshot, caseId: nat, last: int,
                       ghost fetched: Option<Snapshot>, o: Oracle) returns (outcome: Outcome)
    modifies store
    ensures Result(store.View(), outcome)
            == RunToEnd(cfg, old(store.View()), Applying(row, payment, snap, caseId, last, o), fetched, o)
  {
    ghost var attached := store.View();
    ghost var th := Applying(row, payment, snap, caseId, last, o);
    if row.createdAt < last {
      store.Append(AuditEvent(Some(caseId), Some(row.eventId), EventStaleIgnored));
      store.Finish(row.job, Done);
      RunWrites2(cfg, attached, th, fetched, o);
      return Stale;
    }
    if snap.status.IsResolved() {
      store.Advance(caseId, ClosedPaymentResolved, row.createdAt);
      store.Append(AuditEvent(Some(caseId), Some(row.eventId), CaseClosedPaymentResolved));
      store.Finish(row.job, Done);
      RunWrites3(cfg, attached, th, fetched, o);
      return ClosedResolved;
    }
    outcome := ClassifyAndDecide(store, cfg, row, payment, snap, caseId, fetched, o);
  }

  /** What is left once a job is attached to its case. */
  function Applying(row: Row, payment: string, snap: Snapshot, caseId: nat, last: int, o: Oracle): Thread {
    if row.createdAt < last then
      Thread([Entry(Some(caseId), row.eventId, EventStaleIgnored), Finish(row.job, Done)], Halt(Stale))
    else if snap.status.IsResolved() then
      Thread([Advance(caseId, ClosedPaymentResolved, row.createdAt),
              Entry(Some(caseId), row.eventId, CaseClosedPaymentResolved), Finish(row.job, Done)],
             Halt(ClosedResolved))
    else Classifying(row, payment, snap, caseId, o.notes)
  }

  lemma RunAttach(cfg: Config, db: Db, row: Row, payment: string, snap: Snapshot, isNew: bool, caseId: nat,
                  fetched: Option<Snapshot>, o: Oracle)
    requires caseId == FindCase(db.cases, ChainKey(snap.orderId, payment)) && caseId < |db.cases|
    ensures var attached := AuditEvent(Some(caseId), Some(row.eventId), if isNew then CaseOpened else CaseAttached);
            RunToEnd(cfg, db, AfterOpen(db, row, payment, snap, isNew, o), fetched, o)
            == RunToEnd(cfg, AppendAudit(db, attached),
                        Applying(row, payment, snap, caseId, db.cases[caseId].lastEventCreatedAt, o), fetched, o)
  {
    var th := AfterOpen(db, row, payment, snap, isNew, o);
    RunFirstWrite(cfg, db, th, fetched, o);
    assert Thread(th.writes[1..], th.main) == Applying(row, payment, snap, caseId, db.cases[caseId].lastEventCreatedAt, o);
  }

  /** Step 5, first half: the notes of the classification reach the trail. */
  method ClassifyAndDecide(store: Store, cfg: Config, row: Row, payment: string, snap: Snapshot, caseId: nat,
                           ghost fetched: Option<Snapshot>, o: Oracle) returns (outcome: Outcome)
    modifies store
    ensures Result(store.View(), outcome)
            == RunToEnd(cfg, old(store.View()), Classifying(row, payment, snap, caseId, o.notes), fetched, o)
  {
    ghost var goal := RunToEnd(cfg, store.View(), Classifying(row, payment, snap, caseId, o.notes), fetched, o);
    assert o.notes[0..] == o.notes;
    for i := 0 to |o.notes|
      invariant RunToEnd(cfg, store.View(), Classifying(row, payment, snap, caseId, o.notes[i..]), fetched, o) == goal
    {
      RunFirstNote(cfg, store.View(), row, payment, snap, caseId, o.notes[i..], fetched, o);
      assert o.notes[i..][1..] == o.notes[i + 1..];
      store.Append(AuditEvent(Some(caseId), Some(row.eventId), FailureNote(o.notes[i])));
    }
    outcome := DecideOnce(store, cfg, row, payment, snap, caseId, fetched, o);
  }

  function Classifying(row: Row, payment: string, snap: Snapshot, caseId: nat, notes: seq<Note>): Thread {
    Thread(NoteWrites(notes, caseId, row.eventId), Assign(row, payment, snap, caseId))
  }

  lemma RunFirstNote(cfg: Config, db: Db, row: Row, payment: string, snap: Snapshot, caseId: nat, notes: seq<Note>,
                     fetched: Option<Snapshot>, o: Oracle)
    requires notes != []
    ensures RunToEnd(cfg, db, Classifying(row, payment, snap, caseId, notes), fetched, o)
            == RunToEnd(cfg, AppendAudit(db, AuditEvent(Some(caseId), Some(row.eventId), FailureNote(notes[0]))),
                        Classifying(row, payment, snap, caseId, notes[1..]), fetched, o)
  {
    var th := Classifying(row, payment, snap, caseId, notes);
    RunFirstWrite(cfg, db, th, fetched, o);
    assert th.writes[1..] == NoteWrites(notes[1..], caseId, row.eventId);
  }

  /** Steps 5 and 6: number the attempt, ask the guard, record the decision at most once. */
  method DecideOnce(store: Store, cfg: Config, row: Row, payment: string, snap: Snapshot, caseId: nat,
                    ghost fetched: Option<Snapshot>, o: Oracle) returns (outcome: Outcome)
    modifies store
    ensures Result(store.View(), outcome)
            == RunToEnd(cfg, old(store.View()), Thread([], Assign(row, payment, snap, caseId)), fetched, o)
  {
    ghost var before := store.View();
    var n := store.Assign(ChainKey(snap.orderId, payment), payment);
    RunMain(cfg, before, Thread([], Assign(row, payment, snap, caseId)), fetched, o);
    ghost var th := AfterAssign(cfg, row, payment, snap, caseId, n, o);
    ghost var numbered := store.View();
    var kind := ObligationKind(o.action);
    if cfg.guard.Some? && kind.Some? {
      var verdict := cfg.guard.value.Check(GuardRequest(kind.value, snap, n, o));
      if verdict.Some? {
        store.Append(AuditEvent(Some(caseId), Some(row.eventId), GuardBlocked(o.action, verdict.value)));
        store.Finish(row.job, Done);
        RunWrites2(cfg, numbered, th, fetched, o);
        return Refused;
      }
      store.Append(AuditEvent(Some(caseId), Some(row.eventId), GuardAllowed(o.action)));
      RunFirstWrite(cfg, numbered, th, fetched, o);
    }
    var decision := Decision(caseId, payment, cfg.policyVersion, n, o.action, o.reason);
    outcome := RecordOnce(store, cfg, row, decision, fetched, o);
  }

  /** The uniqueness of the idempotency key is what makes it once. */
  method RecordOnce(store: Store, cfg: Config, row: Row, decision: Decision,
                    ghost fetched: Option<Snapshot>, o: Oracle) returns (outcome: Outcome)
    modifies store
    ensures Result(store.View(), outcome)
            == RunToEnd(cfg, old(store.View()), Thread([], Record(row, decision)), fetched, o)
  {
    ghost var before := store.View();
    RunMain(cfg, before, Thread([], Record(row, decision)), fetched, o);
    var isNew := store.Record(decision);
    ghost var recorded := store.View();
    if isNew {
      store.Append(AuditEvent(Some(decision.caseId), Some(row.eventId), DecisionRecorded(decision.Key(), decision.action)));
      store.Advance(decision.caseId, Decided, row.createdAt);
      store.Finish(row.job, Done);
      RunWrites3(cfg, recorded, AfterRecord(before, row, decision), fetched, o);
      return DecidedOnce;
    }
    store.Append(AuditEvent(Some(decision.caseId), Some(row.eventId), DecisionDuplicateSuppressed(decision.Key())));
    store.Finish(row.job, Done);
    RunWrites2(cfg, recorded, AfterRecord(before, row, decision), fetched, o);
    return Suppressed;
  }

  // ------------------------------------------------------------ one pass --

  /** Everything a pass reads and writes. */
  datatype Core = Core(db: Db, gateway: GatewayState, stats: Stats)

  /** The claimed rows one after the other; a raised error abandons the rest of the batch. */
  function ProcessRows(cfg: Config, c: Core, rows: seq<Row>, os: nat -> Oracle, i: nat): Core
    requires i <= |rows|
    decreases |rows| - i, c
  {
    if i == |rows| then c else
    var next := AfterRow(cfg, c, rows[i], os(i));
    if OutcomeOf(cfg, c, rows[i], os(i)).Raised? then next else ProcessRows(cfg, next, rows, os, i + 1)
  }

  function OutcomeOf(cfg: Config, c: Core, row: Row, o: Oracle): Outcome {
    ProcessRow(cfg, c.db, row, FetchedFor(c.gateway, row), o).outcome
  }

  function AfterRow(cfg: Config, c: Core, row: Row, o: Oracle): Core {
    var r := ProcessRow(cfg, c.db, row, FetchedFor(c.gateway, row), o);
    Core(r.db, GatewayAfter(c.gateway, row),
         Tally(c.stats.(processed := c.stats.processed + 1), r.outcome, o.notes))
  }

  /** One `process_pending`: claim, then process what was claimed. */
  function ProcessPending(cfg: Config, db: Db, g: GatewayState, cutoff: int, stamps: nat -> int, os: nat -> Oracle): Core {
    ProcessRows(cfg,
                Core(ClaimJobs(db, cfg.batchSize, Some(cutoff), stamps, Some(cfg.maxAttempts)), g, ZERO),
                Handed(db, cfg.batchSize, Some(cutoff), Some(cfg.maxAttempts)), os, 0)
  }

  /** One turn of the loop: count the job, process it, count its outcome. */
  method ProcessNext(store: Store, gateway: SimulatedGateway, stats: WorkerStats, cfg: Config, row: Row, o: Oracle)
    returns (outcome: Outcome)
    modifies store, gateway, stats
    ensures outcome == OutcomeOf(cfg, old(Core(store.View(), gateway.View(), stats.View())), row, o)
    ensures Core(store.View(), gateway.View(), stats.View())
            == AfterRow(cfg, old(Core(store.View(), gateway.View(), stats.View())), row, o)
  {
    stats.processed := stats.processed + 1;
    outcome := ProcessOne(store, gateway, cfg, row, o);
    stats.Add(outcome, o.notes);
  }

  method ProcessPendingJobs(store: Store, gateway: SimulatedGateway, cfg: Config, cutoff: int, stamps: nat -> int,
                            os: nat -> Oracle)
    returns (stats: WorkerStats)
    modifies store, gateway
    ensures fresh(stats)
    ensures Core(store.View(), gateway.View(), stats.View())
            == ProcessPending(cfg, old(store.View()), old(gateway.View()), cutoff, stamps, os)
  {
    stats := new WorkerStats();
    ghost var goal := ProcessPending(cfg, store.View(), gateway.View(), cutoff, stamps, os);
    var rows := store.Claim(cfg.batchSize, Some(cutoff), stamps, Some(cfg.maxAttempts));
    for i := 0 to |rows|
      invariant fresh(stats)
      invariant ProcessRows(cfg, Core(store.View(), gateway.View(), stats.View()), rows, os, i) == goal
    {
      var outcome := ProcessNext(store, gateway, stats, cfg, rows[i], os(i));
      if outcome.Raised? {
        return;
      }
    }
  }
}
