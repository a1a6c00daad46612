/** The decision protocol (recovery/worker.py, recovery/ingest.py) as a sequence of commits. A
    thread is what is left of one `ingest_delivery` or `_process_one` call: plain writes still to be
    issued, then the next call whose answer matters. Every step is one autocommitted statement or
    one transaction, so a crash or another worker can come between any two of them. */
module Protocol {
  import opened Models
  import opened Stores
  import opened Guards

  /** Authoritative payment state. */
  datatype Snapshot = Snapshot(
    status: PaymentStatus,
    orderId: Option<string>,
    rail: Option<string>,
    orderExpiresAt: Option<int>)

  datatype Config = Config(
    acceptedEvents: set<string>,
    filteredReasons: set<string>,
    requireStateRefresh: bool,
    policyVersion: string,
    guard: Option<Guard>,
    batchSize: nat,
    maxAttempts: nat)

  /** What one job learns from outside: the notes and the choice of classifier and decider, the
      slot the decider names, and the guard's clock. All of it is arbitrary. */
  datatype Oracle = Oracle(
    notes: seq<Note>,
    action: DecisionAction,
    reason: string,
    slot: Option<int>,
    decidedAt: int)

  datatype Delivery = Delivery(
    eventIdHeader: Option<string>,
    event: string,
    createdAt: Option<int>,
    entity: Entity)

  datatype Write =
    | Audit(entry: AuditEvent)
    | Enqueue(eventId: string)
    | Advance(caseId: nat, state: CaseState, createdAt: int)
    | Finish(job: nat, jobState: JobState)

  datatype Outcome =
    | Malformed | Unsupported | Filtered | DuplicateDelivery | Accepted
    | Rejected | RefreshFailed | Raised | Stale | ClosedResolved | Refused | Suppressed | DecidedOnce

  datatype Main =
    | RawInsert(eventId: string, raw: RawEvent)
    | Fetch(row: Row)
    | OpenInsert(row: Row, payment: string, snap: Snapshot)
    | OpenRead(row: Row, payment: string, snap: Snapshot, isNew: bool)
    | Assign(row: Row, payment: string, snap: Snapshot, caseId: nat)
    | Record(row: Row, decision: Decision)
    | Halt(outcome: Outcome)

  datatype Thread = Thread(writes: seq<Write>, main: Main)
  {
    predicate Finished() {
      writes == [] && main.Halt?
    }
  }

  function Entry(caseId: Option<nat>, eventId: string, what: AuditType): Write {
    Audit(AuditEvent(caseId, Some(eventId), what))
  }

  /** The chain owns the case: the order when there is one. */
  function ChainKey(orderId: Option<string>, payment: string): string {
    if orderId.Some? && orderId.value != "" then orderId.value else "payment:" + payment
  }

  function OrderOf(orderId: Option<string>): Option<string> {
    if orderId.Some? && orderId.value != "" then orderId else None
  }

  function Do(db: Db, w: Write): Db {
    match w
    case Audit(entry) => AppendAudit(db, entry)
    case Enqueue(eventId) => EnqueueJob(db, eventId)
    case Advance(caseId, state, createdAt) => AdvanceCase(db, caseId, state, createdAt)
    case Finish(job, state) => FinishJob(db, job, state)
  }

  // ------------------------------------------------------------------ ingest --

  /** `ingest_delivery` up to its first insert. */
  function IngestThread(cfg: Config, d: Delivery): Thread {
    if d.eventIdHeader.None? || d.eventIdHeader.value == "" || d.event == "" || d.createdAt.None? then
      Thread([Audit(AuditEvent(None, None, WebhookRejectedUnsupported))], Halt(Malformed))
    else
      var id := d.eventIdHeader.value;
      if d.event !in cfg.acceptedEvents then
        Thread([Entry(None, id, WebhookRejectedUnsupported)], Halt(Unsupported))
      else
        var shape := if d.entity.nestedError then [Entry(None, id, PayloadShapeUnexpected)] else [];
        if d.entity.errorReason in cfg.filteredReasons then
          Thread(shape + [Entry(None, id, WebhookFiltered)], Halt(Filtered))
        else
          Thread(shape, RawInsert(id, RawEvent(d.event, d.createdAt.value, d.entity)))
  }

  // ----------------------------------------------------------------- worker --

  function AfterFetch(cfg: Config, row: Row, fetched: Option<Snapshot>): Thread {
    var id := row.entity.paymentId;
    if id.None? || id.value == "" then
      Thread([Entry(None, row.eventId, WebhookRejectedUnsupported), Finish(row.job, FailedJob)], Halt(Rejected))
    else if fetched.None? then
      var failed := Entry(None, row.eventId, StateRefreshFailed);
      if cfg.requireStateRefresh then Thread([failed, Finish(row.job, Pending)], Halt(RefreshFailed))
      else Thread([failed], Halt(Raised))
    else
      Thread([Entry(None, row.eventId, StateRefreshed(id.value, fetched.value.status))],
             OpenInsert(row, id.value, fetched.value))
  }

  function NoteWrites(notes: seq<Note>, caseId: nat, eventId: string): seq<Write> {
    seq(|notes|, i requires 0 <= i < |notes| => Entry(Some(caseId), eventId, FailureNote(notes[i])))
  }

  function AfterOpen(db: Db, row: Row, payment: string, snap: Snapshot, isNew: bool, o: Oracle): Thread {
    var caseId := FindCase(db.cases, ChainKey(snap.orderId, payment));
    if caseId == |db.cases| then Thread([], Halt(Raised)) else
    var attached := Entry(Some(caseId), row.eventId, if isNew then CaseOpened else CaseAttached);
    if row.createdAt < db.cases[caseId].lastEventCreatedAt then
      Thread([attached, Entry(Some(caseId), row.eventId, EventStaleIgnored), Finish(row.job, Done)], Halt(Stale))
    else if snap.status.IsResolved() then
      Thread([attached, Advance(caseId, ClosedPaymentResolved, row.createdAt),
              Entry(Some(caseId), row.eventId, CaseClosedPaymentResolved), Finish(row.job, Done)],
             Halt(ClosedResolved))
    else
      Thread([attached] + NoteWrites(o.notes, caseId, row.eventId), Assign(row, payment, snap, caseId))
  }

  function GuardRequest(kind: ProposalKind, snap: Snapshot, n: nat, o: Oracle): Request {
    Request(kind, o.decidedAt, if kind.Execution? then o.slot else None, n, 0, None, None, snap.status,
            snap.orderId, snap.orderExpiresAt, false, snap.rail, None, None)
  }

  /** None when no admission is needed, else what the guard says. */
  function Admission(cfg: Config, snap: Snapshot, n: nat, o: Oracle): Option<Verdict> {
    var kind := ObligationKind(o.action);
    if cfg.guard.None? || kind.None? then None
    else Some(cfg.guard.value.Check(GuardRequest(kind.value, snap, n, o)))
  }

  function AfterAssign(cfg: Config, row: Row, payment: string, snap: Snapshot, caseId: nat, n: nat, o: Oracle): Thread {
    var record := Record(row, Decision(caseId, payment, cfg.policyVersion, n, o.action, o.reason));
    match Admission(cfg, snap, n, o)
    case None => Thread([], record)
    case Some(None) => Thread([Entry(Some(caseId), row.eventId, GuardAllowed(o.action))], record)
    case Some(Some(why)) =>
      Thread([Entry(Some(caseId), row.eventId, GuardBlocked(o.action, why)), Finish(row.job, Done)], Halt(Refused))
  }

  function AfterRecord(db: Db, row: Row, d: Decision): Thread {
    if d.Key() in db.decisions then
      Thread([Entry(Some(d.caseId), row.eventId, DecisionDuplicateSuppressed(d.Key())), Finish(row.job, Done)],
             Halt(Suppressed))
    else
      Thread([Entry(Some(d.caseId), row.eventId, DecisionRecorded(d.Key(), d.action)),
              Advance(d.caseId, Decided, row.createdAt), Finish(row.job, Done)],
             Halt(DecidedOnce))
  }

  function AfterRaw(db: Db, eventId: string): Thread {
    if eventId in db.rawEvents then Thread([Entry(None, eventId, WebhookDuplicateIgnored)], Halt(DuplicateDelivery))
    else Thread([Entry(None, eventId, WebhookReceived), Enqueue(eventId)], Halt(Accepted))
  }

  // -------------------------------------------------------------- one commit --

  function NextDb(db: Db, th: Thread): Db {
    if th.writes != [] then Do(db, th.writes[0]) else
    match th.main
    case RawInsert(id, raw) => RecordRawEvent(db, id, raw)
    case Fetch(_) => db
    case OpenInsert(row, payment, snap) =>
      InsertCase(db, ChainKey(snap.orderId, payment), OrderOf(snap.orderId), payment, row.createdAt)
    case OpenRead(_, _, _, _) => db
    case Assign(_, payment, snap, _) => AssignAttempt(db, ChainKey(snap.orderId, payment), payment)
    case Record(_, d) => RecordDecision(db, d)
    case Halt(_) => db
  }

  function NextThread(cfg: Config, db: Db, th: Thread, fetched: Option<Snapshot>, o: Oracle): Thread {
    if th.writes != [] then Thread(th.writes[1..], th.main) else
    match th.main
    case RawInsert(id, _) => AfterRaw(db, id)
    case Fetch(row) => AfterFetch(cfg, row, fetched)
    case OpenInsert(row, payment, snap) =>
      Thread([], OpenRead(row, payment, snap, !HasCase(db, ChainKey(snap.orderId, payment))))
    case OpenRead(row, payment, snap, isNew) => AfterOpen(db, row, payment, snap, isNew, o)
    case Assign(row, payment, snap, caseId) =>
      AfterAssign(cfg, row, payment, snap, caseId, AttemptN(db, ChainKey(snap.orderId, payment), payment), o)
    case Record(row, d) => AfterRecord(db, row, d)
    case Halt(_) => th
  }

  // -------------------------------------------------------- run without pause --

  function Rank(m: Main): nat {
    match m
    case Fetch(_) => 5
    case OpenInsert(_, _, _) => 4
    case OpenRead(_, _, _, _) => 3
    case Assign(_, _, _, _) => 2
    case Record(_, _) => 1
    case RawInsert(_, _) => 1
    case Halt(_) => 0
  }

  lemma StepLowersRank(cfg: Config, db: Db, th: Thread, fetched: Option<Snapshot>, o: Oracle)
    requires !th.Finished()
    ensures var next := NextThread(cfg, db, th, fetched, o);
            if th.writes != [] then next.main == th.main && |next.writes| < |th.writes|
            else Rank(next.main) < Rank(th.main)
  {
  }

  datatype Result = Result(db: Db, outcome: Outcome)

  /** A thread run to its end with nothing in between. */
  function RunToEnd(cfg: Config, db: Db, th: Thread, fetched: Option<Snapshot>, o: Oracle): Result
    decreases Rank(th.main), |th.writes|, db
  {
    if th.Finished() then Result(db, th.main.outcome) else
    StepLowersRank(cfg, db, th, fetched, o);
    RunToEnd(cfg, NextDb(db, th), NextThread(cfg, db, th, fetched, o), fetched, o)
  }

  function ProcessRow(cfg: Config, db: Db, row: Row, fetched: Option<Snapshot>, o: Oracle): Result {
    RunToEnd(cfg, db, Thread([], Fetch(row)), fetched, o)
  }

  const NO_ORACLE := Oracle([], Hold, "", None, 0)

  function Ingest(cfg: Config, db: Db, d: Delivery): Result {
    RunToEnd(cfg, db, IngestThread(cfg, d), None, NO_ORACLE)
  }
}
