/** What a worker's guard is asked about, and so whom it admits: the refreshed snapshot, the attempt number,
    the slot and the moment of the decision, rule by rule. */
module Admissions {
  import opened Models
  import opened Calendar
  import opened Stores
  import opened Guards
  import opened Rules
  import opened Protocol
  import opened Worker
  import opened Safety
  import opened Redelivery
  import opened JobOutcome

  // ------------------------------------------------------------ one admission --

  /** The actions that ask the customer for something. */
  predicate AsksCustomer(action: DecisionAction) {
    action in {RecoveryLink, OfferRailMigration, ReorderRails, ExcludeInstrument}
  }

  predicate Obliges(action: DecisionAction) {
    action == ScheduleAt || AsksCustomer(action)
  }

  lemma ObligationKindIs(action: DecisionAction)
    ensures ObligationKind(action) == if action == ScheduleAt then Some(Execution)
                                      else if AsksCustomer(action) then Some(Contact) else None
  {
  }

  /** When the obligation would arise: an execution in its slot, anything else at once. */
  function Due(o: Oracle): int {
    if o.action == ScheduleAt && o.slot.Some? then o.slot.value else o.decidedAt
  }

  /** The executions that `n` attempts stand for, at least one where customer attempts are discounted. */
  predicate Exhausted(g: Guard, n: nat) {
    n >= g.calendar.attemptCap || (g.counter == DiscountCustomerAttempts && 1 >= g.calendar.attemptCap)
  }

  /** What speaks against the obligation that the oracle proposes for a payment found as `snap`. */
  predicate RefusedFor(g: Guard, snap: Snapshot, n: nat, o: Oracle, why: BlockReason) {
    var executes, cal := o.action == ScheduleAt, g.calendar;
    match why
    case PaymentAlreadySucceeded => snap.status == Authorized || snap.status == Captured || snap.status == Refunded
    case OrderInvalid => executes && (snap.orderId == None || snap.orderId == Some(""))
    case OrderExpired => snap.orderExpiresAt.Some? && snap.orderExpiresAt.value <= Due(o)
    case ExecutionCapExhausted => executes && Exhausted(g, n)
    case ContactBudgetExhausted => !executes && g.contactBudget <= 0
    case ExecuteAtNotInTheFuture => executes && (o.slot.None? || o.slot.value <= o.decidedAt)
    case PastUpiDeadlineBlocked => executes && o.slot.Some? && TooLateForUpi(cal, snap.rail, o.slot.value)
    case PeakHourBlocked => executes && o.slot.Some? && InPeak(cal, o.slot.value)
    case PdnLeadUnmet => executes && o.slot.Some? && !Notified(cal, snap.rail, o.slot.value, o.decidedAt)
    case AlreadyDecided => false
    case ConcurrentRequestInProgress => false
    case PriorAttemptUnresolved => false
    case ContactCooldownActive => false
  }

  lemma RequestIsBroken(g: Guard, snap: Snapshot, n: nat, o: Oracle, why: BlockReason)
    requires Obliges(o.action)
    ensures Broken(g, GuardRequest(ObligationKind(o.action).value, snap, n, o), why) <==> RefusedFor(g, snap, n, o, why)
  {
    ObligationKindIs(o.action);
    var r := GuardRequest(ObligationKind(o.action).value, snap, n, o);
    match why
    case OrderExpired =>
      if snap.orderExpiresAt.Some? {
        assert IsMoment(r, Due(o));
      }
    case ExecutionCapExhausted => CapIsBroken(g, r, n);
    case _ =>
  }

  lemma CapIsBroken(g: Guard, r: Request, n: nat)
    requires r.attemptsSeen == n && r.contactsSeen == 0 && r.authAttempts.None?
    ensures UsedAtLeast(g, r, g.calendar.attemptCap) <==> Exhausted(g, n)
  {
    UsedIs(g, r);
  }

  /** An obligation is refused for the first thing that speaks against it, and admitted if nothing does;
      what is no obligation needs no admission. */
  lemma AdmissionIs(cfg: Config, snap: Snapshot, n: nat, o: Oracle)
    requires cfg.guard.Some?
    ensures !Obliges(o.action) <==> Admission(cfg, snap, n, o).None?
    ensures Obliges(o.action) ==>
              var verdict := Admission(cfg, snap, n, o).value;
              && (verdict.None? <==> forall why :: !RefusedFor(cfg.guard.value, snap, n, o, why))
              && (verdict.Some? ==> RefusedFor(cfg.guard.value, snap, n, o, verdict.value))
              && (verdict.Some? ==> forall why :: RefusedFor(cfg.guard.value, snap, n, o, why) ==>
                                                    Place(verdict.value) <= Place(why))
  {
    ObligationKindIs(o.action);
    if Obliges(o.action) {
      var g := cfg.guard.value;
      FirstBrokenRule(g, GuardRequest(ObligationKind(o.action).value, snap, n, o));
      forall why
        ensures Broken(g, GuardRequest(ObligationKind(o.action).value, snap, n, o), why) <==> RefusedFor(g, snap, n, o, why)
      {
        RequestIsBroken(g, snap, n, o, why);
      }
    }
  }

  // ------------------------------------------------------------------- one job --

  /** The chain of a payment: its order, or itself when it has none. */
  function Chain(snap: Snapshot, payment: string): string {
    if snap.orderId == None || snap.orderId == Some("") then "payment:" + payment else snap.orderId.value
  }

  lemma ChainIs(snap: Snapshot, payment: string)
    ensures ChainKey(snap.orderId, payment) == Chain(snap, payment)
  {
    assert snap.orderId.Some? ==> (snap.orderId.value == "" <==> snap.orderId == Some(""));
  }

  /** The refresh found the payment unsettled, and its case has heard of nothing later. */
  ghost predicate Undecided(db: Db, row: Row, payment: string, snap: Snapshot) {
    && (snap.status == PaymentStatus.Failed || snap.status == Created)
    && forall i :: 0 <= i < |db.cases| && db.cases[i].chainKey == Chain(snap, payment) ==>
                     db.cases[i].lastEventCreatedAt <= row.createdAt
  }

  /** Trail entries at the head of a thread are written, and then the rest runs. */
  lemma {:induction false} RunAudits(cfg: Config, db: Db, th: Thread, fetched: Option<Snapshot>, o: Oracle) returns (mid: Db)
    requires forall i :: 0 <= i < |th.writes| ==> th.writes[i].Audit?
    ensures RunToEnd(cfg, db, th, fetched, o) == RunToEnd(cfg, mid, Thread([], th.main), fetched, o)
    ensures Tables(mid) == Tables(db)
    decreases |th.writes|
  {
    if th.writes == [] {
      mid := db;
      assert th == Thread([], th.main);
    } else {
      RunFirstWrite(cfg, db, th, fetched, o);
      mid := RunAudits(cfg, Do(db, th.writes[0]), Thread(th.writes[1..], th.main), fetched, o);
    }
  }

  lemma OpensItsCase(db: Db, row: Row, payment: string, snap: Snapshot)
    requires Undecided(db, row, payment, snap)
    ensures var b := InsertCase(db, ChainKey(snap.orderId, payment), OrderOf(snap.orderId), payment, row.createdAt);
            var caseId := FindCase(b.cases, ChainKey(snap.orderId, payment));
            caseId < |b.cases| && b.cases[caseId].lastEventCreatedAt <= row.createdAt
  {
    ChainIs(snap, payment);
    OpenedCaseIsFound(db, ChainKey(snap.orderId, payment), OrderOf(snap.orderId), payment, row.createdAt);
  }

  /** The job of an undecided payment comes to numbering its attempt, on the tables as they were but for
      its case. */
  lemma ReachesAssign(cfg: Config, db: Db, row: Row, snap: Snapshot, o: Oracle) returns (mid: Db, caseId: nat)
    requires row.entity.paymentId.Some? && row.entity.paymentId.value != ""
    requires Undecided(db, row, row.entity.paymentId.value, snap)
    ensures var payment := row.entity.paymentId.value;
            && ProcessRow(cfg, db, row, Some(snap), o)
               == RunToEnd(cfg, mid, Thread([], Assign(row, payment, snap, caseId)), Some(snap), o)
            && mid.chainAttempts == db.chainAttempts && mid.decisions == db.decisions
            && caseId < |mid.cases| && mid.cases[caseId].chainKey == Chain(snap, payment)
  {
    var payment, fetched := row.entity.paymentId.value, Some(snap);
    RunMain(cfg, db, Thread([], Fetch(row)), fetched, o);
    var refreshed := RunAudits(cfg, db, AfterFetch(cfg, row, fetched), fetched, o);
    RunMain(cfg, refreshed, Thread([], OpenInsert(row, payment, snap)), fetched, o);
    assert Undecided(refreshed, row, payment, snap);
    OpensItsCase(refreshed, row, payment, snap);
    var inserted := NextDb(refreshed, Thread([], OpenInsert(row, payment, snap)));
    var isNew := !HasCase(refreshed, ChainKey(snap.orderId, payment));
    mid, caseId := ReadsOn(cfg, inserted, row, payment, snap, isNew, o);
    ChainIs(snap, payment);
  }

  lemma ReadsOn(cfg: Config, db: Db, row: Row, payment: string, snap: Snapshot, isNew: bool, o: Oracle)
    returns (mid: Db, caseId: nat)
    requires var i := FindCase(db.cases, ChainKey(snap.orderId, payment));
             i < |db.cases| && db.cases[i].lastEventCreatedAt <= row.createdAt
    requires !snap.status.IsResolved()
    ensures RunToEnd(cfg, db, Thread([], OpenRead(row, payment, snap, isNew)), Some(snap), o)
            == RunToEnd(cfg, mid, Thread([], Assign(row, payment, snap, caseId)), Some(snap), o)
    ensures Tables(mid) == Tables(db) && caseId == FindCase(db.cases, ChainKey(snap.orderId, payment))
  {
    RunMain(cfg, db, Thread([], OpenRead(row, payment, snap, isNew)), Some(snap), o);
    caseId := FindCase(db.cases, ChainKey(snap.orderId, payment));
    mid := RunAudits(cfg, db, AfterOpen(db, row, payment, snap, isNew, o), Some(snap), o);
  }

  /** What the trail says of an admission. */
  ghost predicate SaysSo(audit: seq<AuditEvent>, row: Row, action: DecisionAction, verdict: Verdict, caseId: nat) {
    AuditEvent(Some(caseId), Some(row.eventId), if verdict.None? then GuardAllowed(action) else GuardBlocked(action, verdict.value))
    in audit
  }

  lemma {:induction false} RunGrowsTrail(cfg: Config, db: Db, th: Thread, fetched: Option<Snapshot>, o: Oracle, e: AuditEvent)
    requires e in db.audit
    ensures e in RunToEnd(cfg, db, th, fetched, o).db.audit
    decreases Rank(th.main), |th.writes|
  {
    if !th.Finished() {
      StepLowersRank(cfg, db, th, fetched, o);
      RunGrowsTrail(cfg, NextDb(db, th), NextThread(cfg, db, th, fetched, o), fetched, o, e);
    }
  }

  lemma AdmittedOrNot(cfg: Config, mid: Db, row: Row, payment: string, snap: Snapshot, caseId: nat, o: Oracle)
    requires cfg.guard.Some? && Obliges(o.action)
    ensures var n := AttemptN(mid, ChainKey(snap.orderId, payment), payment);
            var r := RunToEnd(cfg, mid, Thread([], Assign(row, payment, snap, caseId)), Some(snap), o);
            && Admission(cfg, snap, n, o).Some?
            && SaysSo(r.db.audit, row, o.action, Admission(cfg, snap, n, o).value, caseId)
            && (Admission(cfg, snap, n, o).value.Some? ==> r.outcome == Refused && r.db.decisions == mid.decisions)
            && (Admission(cfg, snap, n, o).value.None? ==> r.outcome == DecidedOnce || r.outcome == Suppressed)
  {
    var n := AttemptN(mid, ChainKey(snap.orderId, payment), payment);
    var fetched := Some(snap);
    AdmissionIs(cfg, snap, n, o);
    RunMain(cfg, mid, Thread([], Assign(row, payment, snap, caseId)), fetched, o);
    var numbered := AssignAttempt(mid, ChainKey(snap.orderId, payment), payment);
    var th := AfterAssign(cfg, row, payment, snap, caseId, n, o);
    RunFirstWrite(cfg, numbered, th, fetched, o);
    var said := Do(numbered, th.writes[0]);
    assert said.audit[|numbered.audit|] == th.writes[0].entry;
    RunGrowsTrail(cfg, said, Thread(th.writes[1..], th.main), fetched, o, th.writes[0].entry);
    if th.main.Halt? {
      RunWrites1(cfg, said, Thread(th.writes[1..], th.main), fetched, o);
    } else {
      RecordRefines(cfg, said, row, th.main.decision, fetched, o);
    }
  }

  /** Behind a guard, the job of an undecided payment whose obligation is spoken against is refused, for
      the first thing that is; the trail says so and nothing is decided. Otherwise it is admitted, the
      trail says so, and the decision is recorded unless its key already is. */
  lemma JobIsAdmitted(cfg: Config, db: Db, row: Row, snap: Snapshot, o: Oracle) returns (verdict: Verdict, caseId: nat)
    requires cfg.guard.Some? && Obliges(o.action)
    requires row.entity.paymentId.Some? && row.entity.paymentId.value != ""
    requires Undecided(db, row, row.entity.paymentId.value, snap)
    ensures var payment := row.entity.paymentId.value;
            var n, r := AttemptN(db, Chain(snap, payment), payment), ProcessRow(cfg, db, row, Some(snap), o);
            && SaysSo(r.db.audit, row, o.action, verdict, caseId)
            && (verdict.None? <==> forall why :: !RefusedFor(cfg.guard.value, snap, n, o, why))
            && (verdict.None? ==> r.outcome == DecidedOnce || r.outcome == Suppressed)
            && (verdict.Some? ==>
                  && RefusedFor(cfg.guard.value, snap, n, o, verdict.value)
                  && (forall why :: RefusedFor(cfg.guard.value, snap, n, o, why) ==> Place(verdict.value) <= Place(why))
                  && r.outcome == Refused && r.db.decisions == db.decisions)
  {
    var payment := row.entity.paymentId.value;
    var mid, id := ReachesAssign(cfg, db, row, snap, o);
    ChainIs(snap, payment);
    var n := AttemptN(db, Chain(snap, payment), payment);
    assert AttemptN(mid, ChainKey(snap.orderId, payment), payment) == n;
    AdmittedOrNot(cfg, mid, row, payment, snap, id, o);
    AdmissionIs(cfg, snap, n, o);
    verdict, caseId := Admission(cfg, snap, n, o).value, id;
  }

  /** So an obligation on an order that has expired by then is refused, and nothing is decided. */
  lemma ExpiredOrderIsRefused(cfg: Config, db: Db, row: Row, snap: Snapshot, o: Oracle)
    requires cfg.guard.Some? && Obliges(o.action)
    requires row.entity.paymentId.Some? && row.entity.paymentId.value != ""
    requires Undecided(db, row, row.entity.paymentId.value, snap)
    requires snap.orderExpiresAt.Some? && snap.orderExpiresAt.value <= Due(o)
    ensures var r := ProcessRow(cfg, db, row, Some(snap), o);
            r.outcome == Refused && r.db.decisions == db.decisions
  {
    var verdict, caseId := JobIsAdmitted(cfg, db, row, snap, o);
    var n := AttemptN(db, Chain(snap, row.entity.paymentId.value), row.entity.paymentId.value);
    assert RefusedFor(cfg.guard.value, snap, n, o, OrderExpired);
  }
}
