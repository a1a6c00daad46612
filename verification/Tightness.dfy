/** Why the search bounds the payments by the cap: with one payment more, some scenario does exceed
    the budget the check looks for. Delivering and processing the payments one after the other gives
    each of them its decision. */
module Tightness {
  import opened Models
  import opened Guards
  import opened Stores
  import opened Protocol
  import opened Safety
  import opened Worker
  import opened JobAtomic
  import opened JobOutcome
  import opened Adversary
  import opened NoViolation
  import Progress
  import Redelivery
  import Text

  // ------------------------------------------------------- names are different --

  /** The number a string of digits stands for. */
  function Value(s: string): nat {
    if s == [] then 0 else
    var last := s[|s| - 1];
    10 * Value(s[..|s| - 1]) + if '0' <= last <= '9' then (last - '0') as int else 0
  }

  lemma ValueAppend(s: string, c: char)
    requires '0' <= c <= '9'
    ensures Value(s + [c]) == 10 * Value(s) + (c - '0') as int
  {
    assert (s + [c])[..|s|] == s;
  }

  lemma {:induction false} ValueOfDecimal(n: nat)
    ensures Value(Text.Decimal(n)) == n
  {
    var digit := '0' + (n % 10) as char;
    if n < 10 {
      assert Text.Decimal(n) == [] + [digit];
      ValueAppend([], digit);
    } else {
      ValueOfDecimal(n / 10);
      assert Text.Decimal(n) == Text.Decimal(n / 10) + [digit];
      ValueAppend(Text.Decimal(n / 10), digit);
    }
  }

  lemma {:induction false} LeadingZero(s: string)
    ensures Value("0" + s) == Value(s)
  {
    if s == [] {
      assert "0" + s == "0" && "0"[..0] == [];
    } else {
      LeadingZero(s[..|s| - 1]);
      assert ("0" + s)[..|s|] == "0" + s[..|s| - 1];
    }
  }

  lemma {:induction false} PaddingKeepsValue(s: string)
    ensures Value(Padded(s)) == Value(s)
    decreases 4 - |s|
  {
    if |s| < 4 {
      PaddingKeepsValue("0" + s);
      LeadingZero(s);
    }
  }

  lemma PaymentIdsDiffer(i: nat, j: nat)
    requires PaymentId(i) == PaymentId(j)
    ensures i == j
  {
    var p := "pay_INV";
    assert PaymentId(i)[|p|..] == Padded(Text.Decimal(i)) && PaymentId(j)[|p|..] == Padded(Text.Decimal(j));
    PaddingKeepsValue(Text.Decimal(i));
    PaddingKeepsValue(Text.Decimal(j));
    ValueOfDecimal(i);
    ValueOfDecimal(j);
  }

  lemma EventIdsDiffer(s: nat, c: nat, t: nat, d: nat)
    requires EventId(s, c) == EventId(t, d)
    ensures c == d
  {
    Text.DecimalIsDigits(c);
    Text.DecimalIsDigits(d);
    Text.CutAtLast('_', "evt_" + Text.Decimal(s), Text.Decimal(c), "evt_" + Text.Decimal(t), Text.Decimal(d));
    ValueOfDecimal(c);
    ValueOfDecimal(d);
  }

  // ---------------------------------------------------------------- the script --

  /** Deliver and process the first `n` payments, one after the other. */
  function Script(n: nat): (actions: seq<Action>)
    ensures |actions| == 2 * n
  {
    if n == 0 then [] else Script(n - 1) + [Action(DeliverEvent, n - 1, 0), Action(RunWorker, 0, 0)]
  }

  lemma {:induction false} ScriptAt(n: nat, i: nat)
    requires i < n
    ensures Script(n)[2 * i] == Action(DeliverEvent, i, 0) && Script(n)[2 * i + 1] == Action(RunWorker, 0, 0)
  {
    if i < n - 1 {
      ScriptAt(n - 1, i);
    }
  }

  function Scripted(x: Setup): Setup {
    x.(scenario := x.scenario.(actions := Script(x.scenario.paymentCount)))
  }

  /** The search's own configuration: no guard inside the worker, and a batch that can hold a job. */
  ghost predicate Plain(x: Setup) {
    Searchable(x) && x.cfg.guard.None? && x.cfg.batchSize > 0
  }

  // ---------------------------------------------------- one payment after the other --

  ghost predicate EventsUpTo(raw: map<string, RawEvent>, n: nat) {
    forall e :: e in raw ==> exists s: nat, c: nat :: c <= n && e == EventId(s, c)
  }

  ghost predicate DecidedUpTo(decisions: map<string, Decision>, n: nat) {
    |decisions| == n && forall k :: k in decisions ==> exists j: nat :: j < n && decisions[k].paymentId == PaymentId(j)
  }

  ghost predicate Unhurried(cases: seq<Case>) {
    forall i :: 0 <= i < |cases| ==> cases[i].lastEventCreatedAt == 0
  }

  ghost predicate JobsAreStored(db: Db) {
    forall i :: 0 <= i < |db.jobs| ==> db.jobs[i].eventId in db.rawEvents
  }

  /** The tables after `n` payments were delivered and processed. */
  ghost predicate StagedDb(db: Db, n: nat) {
    && EventsUpTo(db.rawEvents, n) && JobsAreStored(db)
    && |db.jobs| == n && (forall i :: 0 <= i < n ==> db.jobs[i].state == Done)
    && Unhurried(db.cases) && DecidedUpTo(db.decisions, n)
  }

  /** The tables after one more delivery, before its processing. */
  ghost predicate WaitingDb(db: Db, n: nat) {
    && EventsUpTo(db.rawEvents, n + 1) && JobsAreStored(db)
    && |db.jobs| == n + 1 && (forall i :: 0 <= i < n ==> db.jobs[i].state == Done)
    && db.jobs[n].state == Pending
    && db.rawEvents[db.jobs[n].eventId].createdAt == 0
    && db.rawEvents[db.jobs[n].eventId].entity == Entity(Some(PaymentId(n)), "insufficient_funds", false)
    && Unhurried(db.cases) && DecidedUpTo(db.decisions, n)
  }

  predicate NothingPaid(x: Setup, g: GatewayState) {
    !g.failNext && g.entities == InitialGateway(x.scenario, x.scenario.paymentCount)
  }

  ghost predicate Staged(x: Setup, r: Run, n: nat) {
    r.counter == n && NothingPaid(x, r.gateway) && StagedDb(r.db, n)
  }

  ghost predicate Waiting(x: Setup, r: Run, n: nat) {
    r.counter == n + 1 && NothingPaid(x, r.gateway) && WaitingDb(r.db, n)
  }

  /** Admissions and notes only touch the trace. */
  lemma StepTables(x: Setup, turn: Turn, r: Run, step: nat, a: Action)
    requires x.scenario.paymentCount > 0
    ensures var t, p := OneStep(x, turn, r, step, a), Perform(x, turn, r, step, a);
            t.db == p.db && t.gateway == p.gateway && t.counter == p.counter
  {
  }

  lemma NextEventIsNew(raw: map<string, RawEvent>, n: nat, step: nat)
    requires EventsUpTo(raw, n)
    ensures EventId(step, n + 1) !in raw
  {
    var id := EventId(step, n + 1);
    if id in raw {
      var s: nat, c: nat :| c <= n && id == EventId(s, c);
      EventIdsDiffer(step, n + 1, s, c);
    }
  }

  /** The tables after the delivery of a new event. */
  lemma DeliveryStores(x: Setup, db: Db, id: string, payment: string)
    requires Plain(x) && id != "" && id !in db.rawEvents && JobsAreStored(db)
    ensures var after := Ingest(x.cfg, db, DeliveryOf(id, payment, 0)).db;
            && after.jobs == db.jobs + [Job(id, Pending, 0, None)]
            && after.rawEvents
               == db.rawEvents[id := RawEvent("payment.failed", 0, Entity(Some(payment), "insufficient_funds", false))]
            && after.cases == db.cases && after.decisions == db.decisions
  {
    Redelivery.IngestStores(x.cfg, db, DeliveryOf(id, payment, 0));
    assert !HasJob(db.jobs, id);
  }

  lemma OneMoreEvent(raw: map<string, RawEvent>, event: RawEvent, n: nat, step: nat)
    requires EventsUpTo(raw, n)
    ensures EventsUpTo(raw[EventId(step, n + 1) := event], n + 1)
  {
    forall e | e in raw
      ensures exists s: nat, c: nat :: c <= n + 1 && e == EventId(s, c)
    {
      var s: nat, c: nat :| c <= n && e == EventId(s, c);
    }
  }

  lemma DeliveredDbWaits(x: Setup, db: Db, n: nat, step: nat)
    requires Plain(x) && StagedDb(db, n)
    ensures WaitingDb(Ingest(x.cfg, db, DeliveryOf(EventId(step, n + 1), PaymentId(n), 0)).db, n)
  {
    var id := EventId(step, n + 1);
    NextEventIsNew(db.rawEvents, n, step);
    DeliveryStores(x, db, id, PaymentId(n));
    StoredWaits(db, Ingest(x.cfg, db, DeliveryOf(id, PaymentId(n), 0)).db, n, step);
  }

  lemma StoredWaits(db: Db, after: Db, n: nat, step: nat)
    requires StagedDb(db, n)
    requires var id := EventId(step, n + 1);
             && after.jobs == db.jobs + [Job(id, Pending, 0, None)]
             && after.rawEvents == db.rawEvents[id := RawEvent("payment.failed", 0,
                                                               Entity(Some(PaymentId(n)), "insufficient_funds", false))]
    requires after.cases == db.cases && after.decisions == db.decisions
    ensures WaitingDb(after, n)
  {
    OneMoreEvent(db.rawEvents, after.rawEvents[EventId(step, n + 1)], n, step);
  }

  lemma IndexIsItself(x: Setup, n: nat)
    requires n < x.scenario.paymentCount
    ensures x.Index(Action(DeliverEvent, n, 0)) == n
  {
  }

  lemma Delivers(x: Setup, turn: Turn, r: Run, n: nat, step: nat)
    requires n < x.scenario.paymentCount
    ensures var p := Perform(x, turn, r, step, Action(DeliverEvent, n, 0));
            && p.db == Ingest(x.cfg, r.db, DeliveryOf(EventId(step, r.counter + 1), PaymentId(n), 0)).db
            && p.gateway == r.gateway && p.counter == r.counter + 1
  {
    IndexIsItself(x, n);
  }

  /** The next payment's event was delivered. */
  ghost predicate Handover(x: Setup, r: Run, t: Run, n: nat, step: nat) {
    && t.db == Ingest(x.cfg, r.db, DeliveryOf(EventId(step, r.counter + 1), PaymentId(n), 0)).db
    && t.gateway == r.gateway && t.counter == r.counter + 1
  }

  lemma DeliveryWaits(x: Setup, turn: Turn, r: Run, n: nat, step: nat)
    requires Plain(x) && Staged(x, r, n) && n < x.scenario.paymentCount
    ensures Waiting(x, OneStep(x, turn, r, step, Action(DeliverEvent, n, 0)), n)
  {
    var t := OneStep(x, turn, r, step, Action(DeliverEvent, n, 0));
    assert Handover(x, r, t, n, step) by {
      StepTables(x, turn, r, step, Action(DeliverEvent, n, 0));
      Delivers(x, turn, r, n, step);
    }
    WaitsOnce(x, r, t, n, step);
  }

  lemma WaitsOnce(x: Setup, r: Run, t: Run, n: nat, step: nat)
    requires Plain(x) && Staged(x, r, n) && Handover(x, r, t, n, step)
    ensures Waiting(x, t, n)
  {
    DeliveredDbWaits(x, r.db, n, step);
  }

  // ------------------------------------------------------------- one pass, one job --

  lemma {:induction false} NothingClaimable(jobs: seq<Job>, cutoff: Option<int>, n: nat)
    requires n <= |jobs| && forall i :: 0 <= i < n ==> jobs[i].state == Done
    ensures ClaimableRows(jobs, cutoff, n) == []
  {
    if n > 0 {
      NothingClaimable(jobs, cutoff, n - 1);
    }
  }

  /** A pass over finished jobs and one pending one takes that one. */
  lemma LastJobIsTaken(cfg: Config, db: Db, n: nat, cutoff: int, stamps: nat -> int)
    requires cfg.batchSize > 0 && |db.jobs| == n + 1 && db.jobs[n].state == Pending
    requires forall i :: 0 <= i < n ==> db.jobs[i].state == Done
    ensures Handed(db, cfg.batchSize, Some(cutoff), Some(cfg.maxAttempts)) == [RowOf(db, n)]
    ensures ClaimJobs(db, cfg.batchSize, Some(cutoff), stamps, Some(cfg.maxAttempts))
            == db.(jobs := MarkClaimed(db.jobs, n, stamps(0)))
  {
    assert AfterFailing(db, Some(cfg.maxAttempts)) == db;
    LastRow(db, n, Some(cutoff), cfg.batchSize);
    Progress.MarkOne(db.jobs, n, stamps);
  }

  lemma LastRow(db: Db, n: nat, cutoff: Option<int>, limit: nat)
    requires limit > 0 && |db.jobs| == n + 1 && db.jobs[n].state == Pending
    requires forall i :: 0 <= i < n ==> db.jobs[i].state == Done
    ensures ClaimedRows(db, cutoff, limit) == [n]
  {
    NothingClaimable(db.jobs, cutoff, n);
    assert ClaimableRows(db.jobs, cutoff, n + 1) == [n];
    Progress.SingleRow(db, n, limit);
  }

  lemma OpeningStaysUnhurried(db: Db, chain: string, orderId: Option<string>, payment: string)
    requires Unhurried(db.cases)
    ensures Unhurried(InsertCase(db, chain, orderId, payment, 0).cases)
  {
  }

  lemma OpenPaymentIsDecided(cfg: Config, db: Db, row: Row, payment: string, snap: Snapshot, o: Oracle)
    requires cfg.guard.None? && Unhurried(db.cases) && row.createdAt == 0 && !snap.status.IsResolved()
    requires HasCase(db, ChainKey(snap.orderId, payment))
    requires Text.IdempotencyKey(payment, cfg.policyVersion, AttemptN(db, ChainKey(snap.orderId, payment), payment))
             !in db.decisions
    ensures OpenEffect(cfg, db, row, payment, snap, o).outcome == DecidedOnce
    ensures Unhurried(OpenEffect(cfg, db, row, payment, snap, o).db.cases)
  {
    var chain := ChainKey(snap.orderId, payment);
    var caseId, n := FindCase(db.cases, chain), AttemptN(db, chain, payment);
    var numbered := AssignAttempt(db, chain, payment);
    assert db.cases[caseId].lastEventCreatedAt == 0;
    assert numbered.decisions == db.decisions && numbered.cases == db.cases;
    assert OpenEffect(cfg, db, row, payment, snap, o)
        == DecisionEffect(cfg, numbered, row, payment, snap, caseId, n, o);
    FreshKeyIsDecided(cfg, numbered, row, payment, snap, caseId, n, o);
  }

  /** A fresh payment of an unhurried order is decided. */
  lemma FreshPaymentIsDecided(cfg: Config, db: Db, row: Row, payment: string, snap: Snapshot, o: Oracle)
    requires cfg.guard.None? && Unhurried(db.cases) && row.createdAt == 0 && !snap.status.IsResolved()
    requires Text.IdempotencyKey(payment, cfg.policyVersion, AttemptN(db, ChainKey(snap.orderId, payment), payment))
             !in db.decisions
    ensures ChainEffect(cfg, db, row, payment, snap, o).outcome == DecidedOnce
    ensures Unhurried(ChainEffect(cfg, db, row, payment, snap, o).db.cases)
  {
    var chain := ChainKey(snap.orderId, payment);
    var open := InsertCase(db, chain, OrderOf(snap.orderId), payment, 0);
    OpenedCaseIsFound(db, chain, OrderOf(snap.orderId), payment, 0);
    OpeningStaysUnhurried(db, chain, OrderOf(snap.orderId), payment);
    assert open.decisions == db.decisions && open.chainAttempts == db.chainAttempts;
    OpenPaymentIsDecided(cfg, open, row, payment, snap, o);
  }

  lemma FreshKeyIsDecided(cfg: Config, db: Db, row: Row, payment: string, snap: Snapshot, caseId: nat, n: nat, o: Oracle)
    requires cfg.guard.None? && Unhurried(db.cases) && row.createdAt == 0
    requires Text.IdempotencyKey(payment, cfg.policyVersion, n) !in db.decisions
    ensures DecisionEffect(cfg, db, row, payment, snap, caseId, n, o).outcome == DecidedOnce
    ensures Unhurried(DecisionEffect(cfg, db, row, payment, snap, caseId, n, o).db.cases)
  {
  }

  lemma KeyIsNew(x: Setup, r: Run, m: nat, n: nat, k: nat)
    requires Sane(x, r, m) && DecidedUpTo(r.db.decisions, n)
    ensures Text.IdempotencyKey(PaymentId(n), x.cfg.policyVersion, k) !in r.db.decisions
  {
    var key := Text.IdempotencyKey(PaymentId(n), x.cfg.policyVersion, k);
    if key in r.db.decisions {
      var d := r.db.decisions[key];
      var j: nat :| j < n && d.paymentId == PaymentId(j);
      Text.OneVersionNeverCollides(x.cfg.policyVersion);
      Text.KeyInjective(d.paymentId, d.policyVersion, d.attemptN, PaymentId(n), x.cfg.policyVersion, k);
      PaymentIdsDiffer(j, n);
    }
  }

  lemma {:induction false} PaymentStartsUnpaid(scenario: Scenario, n: nat, i: nat)
    requires i < n
    ensures PaymentId(i) in InitialGateway(scenario, n) && InitialGateway(scenario, n)[PaymentId(i)] == Unpaid(scenario)
  {
    if i < n - 1 {
      PaymentStartsUnpaid(scenario, n - 1, i);
    }
  }

  /** The pass after the delivery decides its payment and ends its job. */
  lemma PassDecides(x: Setup, r: Run, m: nat, n: nat, cutoff: int, stamps: nat -> int, os: nat -> Oracle)
    requires Plain(x) && Sane(x, r, m) && Waiting(x, r, n) && n < x.scenario.paymentCount
    ensures Staged(x, OnePass(x.cfg, r, cutoff, stamps, os), n + 1)
  {
    var db, row := r.db, RowOf(r.db, n);
    LastJobIsTaken(x.cfg, db, n, cutoff, stamps);
    var claimed := db.(jobs := MarkClaimed(db.jobs, n, stamps(0)));
    var c := Core(claimed, r.gateway, ZERO);
    Progress.OneRowBatch(x.cfg, c, row, os);
    PaymentStartsUnpaid(x.scenario, x.scenario.paymentCount, n);
    var snap := Unpaid(x.scenario);
    assert FetchedFor(r.gateway, row) == Some(snap);
    RowDecides(x, r, m, n, claimed, row, snap, os(0));
    assert OnePass(x.cfg, r, cutoff, stamps, os).db == ProcessRow(x.cfg, claimed, row, Some(snap), os(0)).db;
  }

  /** The waiting job has been claimed and its row handed out. */
  ghost predicate InHand(db: Db, claimed: Db, row: Row, n: nat) {
    && WaitingDb(db, n) && claimed == db.(jobs := claimed.jobs) && |claimed.jobs| == n + 1 && row == RowOf(db, n)
    && (forall i :: 0 <= i < n ==> claimed.jobs[i] == db.jobs[i])
    && claimed.jobs[n].eventId == db.jobs[n].eventId
  }

  lemma RowDecides(x: Setup, r: Run, m: nat, n: nat, claimed: Db, row: Row, snap: Snapshot, o: Oracle)
    requires Plain(x) && Sane(x, r, m) && InHand(r.db, claimed, row, n) && snap == Unpaid(x.scenario)
    ensures StagedDb(ProcessRow(x.cfg, claimed, row, Some(snap), o).db, n + 1)
  {
    var after := ProcessRow(x.cfg, claimed, row, Some(snap), o);
    assert after.outcome == DecidedOnce && Unhurried(after.db.cases) by {
      RowIsDecided(x, r, m, n, claimed, row, snap, o);
    }
    assert DecidedUpTo(after.db.decisions, n + 1) by {
      OneMoreDecided(x.cfg, claimed, row, n, snap, o);
    }
    RefreshedJobEnds(x.cfg, claimed, row, Some(snap), o);
    OneMoreDone(r.db, claimed, row, n, after);
  }

  lemma RowIsDecided(x: Setup, r: Run, m: nat, n: nat, claimed: Db, row: Row, snap: Snapshot, o: Oracle)
    requires Plain(x) && Sane(x, r, m) && InHand(r.db, claimed, row, n) && snap == Unpaid(x.scenario)
    ensures var after := ProcessRow(x.cfg, claimed, row, Some(snap), o);
            after.outcome == DecidedOnce && Unhurried(after.db.cases)
  {
    var payment := PaymentId(n);
    KeyIsNew(x, r, m, n, AttemptN(claimed, ChainKey(snap.orderId, payment), payment));
    FreshPaymentIsDecided(x.cfg, claimed, row, payment, snap, o);
    JobRefines(x.cfg, claimed, row, Some(snap), o);
  }

  lemma OneMoreDone(db: Db, claimed: Db, row: Row, n: nat, after: Result)
    requires InHand(db, claimed, row, n) && Ends(claimed, row, after) && after.outcome == DecidedOnce
    ensures EventsUpTo(after.db.rawEvents, n + 1) && JobsAreStored(after.db) && |after.db.jobs| == n + 1
    ensures forall i :: 0 <= i < n + 1 ==> after.db.jobs[i].state == Done
  {
  }

  lemma OneMoreDecided(cfg: Config, db: Db, row: Row, n: nat, snap: Snapshot, o: Oracle)
    requires DecidedUpTo(db.decisions, n) && row.entity.paymentId == Some(PaymentId(n))
    requires ProcessRow(cfg, db, row, Some(snap), o).outcome == DecidedOnce
    ensures DecidedUpTo(ProcessRow(cfg, db, row, Some(snap), o).db.decisions, n + 1)
  {
    var after := ProcessRow(cfg, db, row, Some(snap), o);
    DecisionsCount(cfg, db, row, Some(snap), o);
    assert AddsOnlyFor(PaymentId(n), db, after.db) by {
      JobRefines(cfg, db, row, Some(snap), o);
      ChainAddsOnlyFor(cfg, db, row, PaymentId(n), snap, o);
    }
  }

  lemma Processes(x: Setup, turn: Turn, r: Run, step: nat)
    requires x.scenario.paymentCount > 0
    ensures var p := Perform(x, turn, r, step, Action(RunWorker, 0, 0));
            var o := OnePass(x.cfg, r, turn.cutoff, turn.stamps, turn.oracles);
            p.db == o.db && p.gateway == o.gateway && p.counter == r.counter
  {
  }

  lemma PassStages(x: Setup, turn: Turn, r: Run, m: nat, n: nat, step: nat)
    requires Plain(x) && Sane(x, r, m) && Waiting(x, r, n) && n < x.scenario.paymentCount
    ensures Staged(x, OneStep(x, turn, r, step, Action(RunWorker, 0, 0)), n + 1)
  {
    StepTables(x, turn, r, step, Action(RunWorker, 0, 0));
    Processes(x, turn, r, step);
    StagedOnce(x, r, OneStep(x, turn, r, step, Action(RunWorker, 0, 0)), m, n, turn.cutoff, turn.stamps, turn.oracles);
  }

  lemma StagedOnce(x: Setup, r: Run, t: Run, m: nat, n: nat, cutoff: int, stamps: nat -> int, os: nat -> Oracle)
    requires Plain(x) && Sane(x, r, m) && Waiting(x, r, n) && n < x.scenario.paymentCount
    requires var o := OnePass(x.cfg, r, cutoff, stamps, os);
             t.db == o.db && t.gateway == o.gateway && t.counter == r.counter
    ensures Staged(x, t, n + 1)
  {
    PassDecides(x, r, m, n, cutoff, stamps, os);
  }

  predicate IsScripted(y: Setup) {
    y.scenario.actions == Script(y.scenario.paymentCount)
  }

  lemma ScriptBegins(y: Setup, turns: nat -> Turn)
    requires y.scenario.paymentCount > 0
    ensures Staged(y, After(y, turns, 0), 0)
  {
  }

  lemma ScriptStages(y: Setup, turns: nat -> Turn, n: nat)
    requires Plain(y) && IsScripted(y) && n <= y.scenario.paymentCount
    ensures Staged(y, After(y, turns, 2 * n), n)
  {
    var inv := (k: nat) => k <= n && Staged(y, After(y, turns, 2 * k), k);
    ScriptBegins(y, turns);
    forall k: nat | k < n && inv(k)
      ensures inv(k + 1)
    {
      NextStage(y, turns, k);
    }
    StepByStep(inv, 0, n);
  }

  lemma NextStage(y: Setup, turns: nat -> Turn, n: nat)
    requires Plain(y) && IsScripted(y) && n < y.scenario.paymentCount
    requires Staged(y, After(y, turns, 2 * n), n)
    ensures Staged(y, After(y, turns, 2 * n + 2), n + 1)
  {
    Delivered(y, turns, n, After(y, turns, 2 * n));
    Processed(y, turns, n, After(y, turns, 2 * n + 1));
  }

  /** The two steps of the script for payment `n`. */
  lemma ScriptedSteps(y: Setup, turns: nat -> Turn, n: nat)
    requires y.scenario.paymentCount > n && IsScripted(y)
    ensures After(y, turns, 2 * n + 1)
            == OneStep(y, turns(2 * n), After(y, turns, 2 * n), 2 * n, Action(DeliverEvent, n, 0))
    ensures After(y, turns, 2 * n + 2)
            == OneStep(y, turns(2 * n + 1), After(y, turns, 2 * n + 1), 2 * n + 1, Action(RunWorker, 0, 0))
  {
    ScriptAt(y.scenario.paymentCount, n);
  }

  lemma Delivered(y: Setup, turns: nat -> Turn, n: nat, r: Run)
    requires Plain(y) && IsScripted(y) && n < y.scenario.paymentCount
    requires r == After(y, turns, 2 * n) && Staged(y, r, n)
    ensures Waiting(y, After(y, turns, 2 * n + 1), n)
  {
    ScriptedSteps(y, turns, n);
    DeliveryWaits(y, turns(2 * n), r, n, 2 * n);
  }

  lemma Processed(y: Setup, turns: nat -> Turn, n: nat, r: Run)
    requires Plain(y) && IsScripted(y) && n < y.scenario.paymentCount
    requires r == After(y, turns, 2 * n + 1) && Waiting(y, r, n)
    ensures Staged(y, After(y, turns, 2 * n + 2), n + 1)
  {
    ScriptedSteps(y, turns, n);
    assert Sane(y, r, 2 * n + 1) by {
      EveryRunIsSane(y, turns, 2 * n + 1);
    }
    PassStages(y, turns(2 * n + 1), r, 2 * n + 1, n, 2 * n + 1);
  }

  // --------------------------------------------------------------- the theorem --

  /** A scenario that decides every one of its payments. */
  lemma EveryPaymentCanBeDecided(x: Setup, turns: nat -> Turn)
    requires Plain(x)
    ensures |After(Scripted(x), turns, 2 * x.scenario.paymentCount).db.decisions| == x.scenario.paymentCount
  {
    ScriptStages(Scripted(x), turns, x.scenario.paymentCount);
  }

  /** For a given number of payments on a real order, every scenario passes every check if and only if
      there are no more payments than the cap. */
  lemma CleanIffWithinCap(x: Setup, turns: nat -> Turn)
    requires Plain(x) && x.scenario.orderId != ""
    ensures x.scenario.paymentCount <= x.guard.calendar.attemptCap <==>
            forall actions: seq<Action>, n: nat, v: Adversary.Violation :: n <= |actions| ==>
              var r := After(x.(scenario := x.scenario.(actions := actions)), turns, n);
              !Breaks(v, x.scenario.orderId, r.db, r.facts, x.guard.calendar)
  {
    if x.scenario.paymentCount <= x.guard.calendar.attemptCap {
      forall actions: seq<Action>, n: nat, v: Adversary.Violation | n <= |actions|
        ensures var r := After(x.(scenario := x.scenario.(actions := actions)), turns, n);
                !Breaks(v, x.scenario.orderId, r.db, r.facts, x.guard.calendar)
      {
        NoViolationEver(x.(scenario := x.scenario.(actions := actions)), turns, n, v);
      }
    } else {
      var n := 2 * x.scenario.paymentCount;
      EveryPaymentCanBeDecided(x, turns);
      var r := After(Scripted(x), turns, n);
      assert n <= |Script(x.scenario.paymentCount)|;
      assert Breaks(ExecutionBudgetExceeded, x.scenario.orderId, r.db, r.facts, x.guard.calendar);
    }
  }
}
