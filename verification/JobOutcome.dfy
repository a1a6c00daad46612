/** What one undisturbed job does to the tables, in one expression. The thread of commits refines
    it, and the later results about whole runs are read off it. */
module JobOutcome {
  import opened Models
  import opened Stores
  import opened Guards
  import opened Protocol
  import opened Worker
  import opened Redelivery
  import opened Safety
  import Text

  function Finished(db: Db, row: Row, outcome: Outcome): Result {
    Result(FinishJob(db, row.job, Done), outcome)
  }

  /** The tables after the job of `row`, when the refresh answers `fetched`. */
  function JobEffect(cfg: Config, db: Db, row: Row, fetched: Option<Snapshot>, o: Oracle): Result {
    if row.entity.paymentId.None? || row.entity.paymentId.value == "" then
      Result(FinishJob(db, row.job, FailedJob), Rejected)
    else if fetched.None? then
      if cfg.requireStateRefresh then Result(FinishJob(db, row.job, Pending), RefreshFailed) else Result(db, Raised)
    else
      ChainEffect(cfg, db, row, row.entity.paymentId.value, fetched.value, o)
  }

  function ChainEffect(cfg: Config, db: Db, row: Row, payment: string, snap: Snapshot, o: Oracle): Result {
    OpenEffect(cfg, InsertCase(db, ChainKey(snap.orderId, payment), OrderOf(snap.orderId), payment, row.createdAt),
               row, payment, snap, o)
  }

  function OpenEffect(cfg: Config, db: Db, row: Row, payment: string, snap: Snapshot, o: Oracle): Result {
    var chain := ChainKey(snap.orderId, payment);
    var caseId := FindCase(db.cases, chain);
    if caseId == |db.cases| then Result(db, Raised)
    else if row.createdAt < db.cases[caseId].lastEventCreatedAt then Finished(db, row, Stale)
    else if snap.status.IsResolved() then
      Finished(AdvanceCase(db, caseId, ClosedPaymentResolved, row.createdAt), row, ClosedResolved)
    else DecisionEffect(cfg, AssignAttempt(db, chain, payment), row, payment, snap, caseId,
                        AttemptN(db, chain, payment), o)
  }

  function DecisionEffect(cfg: Config, db: Db, row: Row, payment: string, snap: Snapshot, caseId: nat, n: nat,
                          o: Oracle): Result
  {
    var d := Decision(caseId, payment, cfg.policyVersion, n, o.action, o.reason);
    var admission := Admission(cfg, snap, n, o);
    if admission.Some? && admission.value.Some? then Finished(db, row, Refused)
    else if d.Key() in db.decisions then Finished(db, row, Suppressed)
    else Finished(AdvanceCase(RecordDecision(db, d), caseId, Decided, row.createdAt), row, DecidedOnce)
  }

  /** The same tables and the same outcome; only the trail is left out. */
  ghost predicate SameEffect(r: Result, q: Result) {
    Tables(r.db) == Tables(q.db) && r.outcome == q.outcome
  }

  lemma RecordRefines(cfg: Config, db: Db, row: Row, d: Decision, fetched: Option<Snapshot>, o: Oracle)
    ensures SameEffect(RunToEnd(cfg, db, Thread([], Record(row, d)), fetched, o),
                       if d.Key() in db.decisions then Finished(db, row, Suppressed)
                       else Finished(AdvanceCase(RecordDecision(db, d), d.caseId, Decided, row.createdAt), row,
                                     DecidedOnce))
  {
    RunMain(cfg, db, Thread([], Record(row, d)), fetched, o);
    if d.Key() in db.decisions {
      RunWrites2(cfg, db, AfterRecord(db, row, d), fetched, o);
    } else {
      RunWrites3(cfg, RecordDecision(db, d), AfterRecord(db, row, d), fetched, o);
    }
  }

  lemma AssignRefines(cfg: Config, db: Db, row: Row, payment: string, snap: Snapshot, caseId: nat,
                      fetched: Option<Snapshot>, o: Oracle)
    ensures var chain := ChainKey(snap.orderId, payment);
            SameEffect(RunToEnd(cfg, db, Thread([], Assign(row, payment, snap, caseId)), fetched, o),
                       DecisionEffect(cfg, AssignAttempt(db, chain, payment), row, payment, snap, caseId,
                                      AttemptN(db, chain, payment), o))
  {
    var chain := ChainKey(snap.orderId, payment);
    var numbered, n := AssignAttempt(db, chain, payment), AttemptN(db, chain, payment);
    RunMain(cfg, db, Thread([], Assign(row, payment, snap, caseId)), fetched, o);
    AdmissionRefines(cfg, numbered, row, payment, snap, caseId, n, fetched, o);
  }

  /** From the attempt number on: refused, or on to the decision. */
  lemma AdmissionRefines(cfg: Config, db: Db, row: Row, payment: string, snap: Snapshot, caseId: nat, n: nat,
                         fetched: Option<Snapshot>, o: Oracle)
    ensures SameEffect(RunToEnd(cfg, db, AfterAssign(cfg, row, payment, snap, caseId, n, o), fetched, o),
                       DecisionEffect(cfg, db, row, payment, snap, caseId, n, o))
  {
    var th := AfterAssign(cfg, row, payment, snap, caseId, n, o);
    if th.main.Halt? {
      RunWrites2(cfg, db, th, fetched, o);
    } else {
      AuditsOnly(cfg, db, th, fetched, o);
      RecordRefines(cfg, db, row, th.main.decision, fetched, o);
    }
  }

  lemma OpenHalts(cfg: Config, db: Db, row: Row, payment: string, snap: Snapshot, isNew: bool,
                  fetched: Option<Snapshot>, o: Oracle)
    requires AfterOpen(db, row, payment, snap, isNew, o).main.Halt?
    ensures SameEffect(RunToEnd(cfg, db, AfterOpen(db, row, payment, snap, isNew, o), fetched, o),
                       OpenEffect(cfg, db, row, payment, snap, o))
  {
    var th := AfterOpen(db, row, payment, snap, isNew, o);
    if |th.writes| == 3 {
      RunWrites3(cfg, db, th, fetched, o);
    } else if |th.writes| == 4 {
      RunFirstWrite(cfg, db, th, fetched, o);
      RunWrites3(cfg, Do(db, th.writes[0]), Thread(th.writes[1..], th.main), fetched, o);
    }
  }

  lemma OpenGoesOn(cfg: Config, db: Db, row: Row, payment: string, snap: Snapshot, isNew: bool,
                   fetched: Option<Snapshot>, o: Oracle)
    requires AfterOpen(db, row, payment, snap, isNew, o).main.Assign?
    ensures SameEffect(RunToEnd(cfg, db, AfterOpen(db, row, payment, snap, isNew, o), fetched, o),
                       OpenEffect(cfg, db, row, payment, snap, o))
  {
    AuditsOnly(cfg, db, AfterOpen(db, row, payment, snap, isNew, o), fetched, o);
    AssignRefines(cfg, db, row, payment, snap, FindCase(db.cases, ChainKey(snap.orderId, payment)), fetched, o);
  }

  lemma OpenRefines(cfg: Config, db: Db, row: Row, payment: string, snap: Snapshot, isNew: bool,
                    fetched: Option<Snapshot>, o: Oracle)
    ensures SameEffect(RunToEnd(cfg, db, Thread([], OpenRead(row, payment, snap, isNew)), fetched, o),
                       OpenEffect(cfg, db, row, payment, snap, o))
  {
    RunMain(cfg, db, Thread([], OpenRead(row, payment, snap, isNew)), fetched, o);
    if AfterOpen(db, row, payment, snap, isNew, o).main.Halt? {
      OpenHalts(cfg, db, row, payment, snap, isNew, fetched, o);
    } else {
      OpenGoesOn(cfg, db, row, payment, snap, isNew, fetched, o);
    }
  }

  lemma CaseRefines(cfg: Config, db: Db, row: Row, payment: string, snap: Snapshot, fetched: Option<Snapshot>, o: Oracle)
    ensures SameEffect(RunToEnd(cfg, db, Thread([], OpenInsert(row, payment, snap)), fetched, o),
                       ChainEffect(cfg, db, row, payment, snap, o))
  {
    var chain := ChainKey(snap.orderId, payment);
    RunMain(cfg, db, Thread([], OpenInsert(row, payment, snap)), fetched, o);
    OpenRefines(cfg, InsertCase(db, chain, OrderOf(snap.orderId), payment, row.createdAt), row, payment, snap,
                !HasCase(db, chain), fetched, o);
  }

  /** The whole job, commit after commit, has exactly this effect. */
  lemma JobRefines(cfg: Config, db: Db, row: Row, fetched: Option<Snapshot>, o: Oracle)
    ensures SameEffect(ProcessRow(cfg, db, row, fetched, o), JobEffect(cfg, db, row, fetched, o))
  {
    RunMain(cfg, db, Thread([], Fetch(row)), fetched, o);
    var th := AfterFetch(cfg, row, fetched);
    if th.main.OpenInsert? {
      AuditsOnly(cfg, db, th, fetched, o);
      CaseRefines(cfg, db, row, th.main.payment, th.main.snap, fetched, o);
    } else if |th.writes| == 1 {
      RunWrites1(cfg, db, th, fetched, o);
    } else {
      RunWrites2(cfg, db, th, fetched, o);
    }
  }

  // ------------------------------------------------------- what follows from it --

  lemma {:induction false} FindsCase(cases: seq<Case>, i: nat)
    requires i < |cases|
    ensures FindCase(cases, cases[i].chainKey) <= i
  {
  }

  lemma OpenedCaseIsFound(db: Db, chain: string, orderId: Option<string>, payment: string, createdAt: int)
    ensures HasCase(InsertCase(db, chain, orderId, payment, createdAt), chain)
  {
    var after := InsertCase(db, chain, orderId, payment, createdAt);
    if !HasCase(db, chain) {
      FindsCase(after.cases, |db.cases|);
    }
  }

  /** The row's job is ended, and no other job is touched. */
  ghost predicate Ends(db: Db, row: Row, r: Result) {
    && !r.outcome.Raised?
    && r.db.rawEvents == db.rawEvents
    && r.db.jobs == FinishJob(db, row.job, if r.outcome.Rejected? then FailedJob else Done).jobs
  }

  lemma DecisionEnds(cfg: Config, db: Db, row: Row, payment: string, snap: Snapshot, caseId: nat, n: nat, o: Oracle)
    ensures Ends(db, row, DecisionEffect(cfg, db, row, payment, snap, caseId, n, o))
  {
  }

  lemma OpenEnds(cfg: Config, db: Db, row: Row, payment: string, snap: Snapshot, o: Oracle)
    requires HasCase(db, ChainKey(snap.orderId, payment))
    ensures Ends(db, row, OpenEffect(cfg, db, row, payment, snap, o))
  {
    var chain := ChainKey(snap.orderId, payment);
    var caseId, n, numbered := FindCase(db.cases, chain), AttemptN(db, chain, payment), AssignAttempt(db, chain, payment);
    if db.cases[caseId].lastEventCreatedAt <= row.createdAt && !snap.status.IsResolved() {
      assert OpenEffect(cfg, db, row, payment, snap, o)
          == DecisionEffect(cfg, numbered, row, payment, snap, caseId, n, o);
      assert numbered.rawEvents == db.rawEvents && numbered.jobs == db.jobs;
      DecisionEnds(cfg, numbered, row, payment, snap, caseId, n, o);
    }
  }

  lemma ChainEnds(cfg: Config, db: Db, row: Row, payment: string, snap: Snapshot, o: Oracle)
    ensures Ends(db, row, ChainEffect(cfg, db, row, payment, snap, o))
  {
    var chain := ChainKey(snap.orderId, payment);
    OpenedCaseIsFound(db, chain, OrderOf(snap.orderId), payment, row.createdAt);
    OpenEnds(cfg, InsertCase(db, chain, OrderOf(snap.orderId), payment, row.createdAt), row, payment, snap, o);
  }

  /** A refreshed job always ends, and ends only its own row of the job table. */
  lemma RefreshedJobEnds(cfg: Config, db: Db, row: Row, fetched: Option<Snapshot>, o: Oracle)
    requires row.entity.paymentId.None? || row.entity.paymentId.value == "" || fetched.Some?
    ensures Ends(db, row, ProcessRow(cfg, db, row, fetched, o))
  {
    assert Ends(db, row, JobEffect(cfg, db, row, fetched, o)) by {
      if row.entity.paymentId.Some? && row.entity.paymentId.value != "" {
        ChainEnds(cfg, db, row, row.entity.paymentId.value, fetched.value, o);
      }
    }
    JobRefines(cfg, db, row, fetched, o);
  }

  /** Whether a job reaches the point of recording a decision that is not there yet. */
  predicate Decides(cfg: Config, db: Db, row: Row, payment: string, snap: Snapshot, o: Oracle) {
    var chain := ChainKey(snap.orderId, payment);
    var n := AttemptN(db, chain, payment);
    var admission := Admission(cfg, snap, n, o);
    && (HasCase(db, chain) ==> db.cases[FindCase(db.cases, chain)].lastEventCreatedAt <= row.createdAt)
    && !snap.status.IsResolved()
    && (admission.Some? ==> admission.value.None?)
    && Text.IdempotencyKey(payment, cfg.policyVersion, n) !in db.decisions
  }

  lemma DecidedIff(cfg: Config, db: Db, row: Row, payment: string, snap: Snapshot, caseId: nat, n: nat, o: Oracle)
    requires caseId < |db.cases| && db.cases[caseId].state == ClosedPaymentResolved
    ensures var after := DecisionEffect(cfg, db, row, payment, snap, caseId, n, o).db;
            var admission := Admission(cfg, snap, n, o);
            && |after.cases| == |db.cases|
            && (after.cases[caseId].state == Decided <==>
                && (admission.Some? ==> admission.value.None?)
                && Text.IdempotencyKey(payment, cfg.policyVersion, n) !in db.decisions)
  {
  }

  lemma OpenReopensIff(cfg: Config, db: Db, row: Row, payment: string, snap: Snapshot, o: Oracle)
    requires var chain := ChainKey(snap.orderId, payment);
             HasCase(db, chain) && db.cases[FindCase(db.cases, chain)].state == ClosedPaymentResolved
    ensures var caseId := FindCase(db.cases, ChainKey(snap.orderId, payment));
            var after := OpenEffect(cfg, db, row, payment, snap, o).db;
            && caseId < |after.cases|
            && (after.cases[caseId].state == Decided <==> Decides(cfg, db, row, payment, snap, o))
  {
    var chain := ChainKey(snap.orderId, payment);
    var caseId, n := FindCase(db.cases, chain), AttemptN(db, chain, payment);
    var numbered := AssignAttempt(db, chain, payment);
    assert numbered.cases == db.cases && numbered.decisions == db.decisions;
    if db.cases[caseId].lastEventCreatedAt <= row.createdAt && !snap.status.IsResolved() {
      assert OpenEffect(cfg, db, row, payment, snap, o)
          == DecisionEffect(cfg, numbered, row, payment, snap, caseId, n, o);
      DecidedIff(cfg, numbered, row, payment, snap, caseId, n, o);
    } else {
      assert OpenEffect(cfg, db, row, payment, snap, o).db.cases[caseId].state == ClosedPaymentResolved;
    }
  }

  /** "Closed" is not final, contrary to its name: a closed case becomes DECIDED again exactly when a
      job on its order, for this or another payment, is fresh, unresolved, admitted and undecided. */
  lemma ClosedCaseReopensIff(cfg: Config, db: Db, row: Row, snap: Snapshot, o: Oracle)
    requires row.entity.paymentId.Some? && row.entity.paymentId.value != ""
    requires var chain := ChainKey(snap.orderId, row.entity.paymentId.value);
             HasCase(db, chain) && db.cases[FindCase(db.cases, chain)].state == ClosedPaymentResolved
    ensures var payment := row.entity.paymentId.value;
            var caseId := FindCase(db.cases, ChainKey(snap.orderId, payment));
            var after := ProcessRow(cfg, db, row, Some(snap), o).db;
            && caseId < |after.cases|
            && (after.cases[caseId].state == Decided <==> Decides(cfg, db, row, payment, snap, o))
  {
    OpenReopensIff(cfg, db, row, row.entity.paymentId.value, snap, o);
    JobRefines(cfg, db, row, Some(snap), o);
  }

  /** No event is stored, no decision changes, and every new decision belongs to `payment`. */
  ghost predicate AddsOnlyFor(payment: string, a: Db, b: Db) {
    && b.rawEvents == a.rawEvents && DecisionsGrow(a.decisions, b.decisions)
    && forall k :: k in b.decisions && k !in a.decisions ==> b.decisions[k].paymentId == payment
  }

  lemma OpenAddsOnlyFor(cfg: Config, db: Db, row: Row, payment: string, snap: Snapshot, o: Oracle)
    ensures AddsOnlyFor(payment, db, OpenEffect(cfg, db, row, payment, snap, o).db)
    ensures snap.status.IsResolved() ==> OpenEffect(cfg, db, row, payment, snap, o).db.decisions == db.decisions
  {
    var chain := ChainKey(snap.orderId, payment);
    var caseId, n := FindCase(db.cases, chain), AttemptN(db, chain, payment);
    var numbered := AssignAttempt(db, chain, payment);
    assert numbered.decisions == db.decisions && numbered.rawEvents == db.rawEvents;
    if caseId < |db.cases| && db.cases[caseId].lastEventCreatedAt <= row.createdAt && !snap.status.IsResolved() {
      assert OpenEffect(cfg, db, row, payment, snap, o)
          == DecisionEffect(cfg, numbered, row, payment, snap, caseId, n, o);
      DecisionAddsOnlyFor(cfg, numbered, row, payment, snap, caseId, n, o);
    } else {
      assert OpenEffect(cfg, db, row, payment, snap, o).db.decisions == db.decisions;
    }
  }

  lemma ChainAddsOnlyFor(cfg: Config, db: Db, row: Row, payment: string, snap: Snapshot, o: Oracle)
    ensures AddsOnlyFor(payment, db, ChainEffect(cfg, db, row, payment, snap, o).db)
    ensures snap.status.IsResolved() ==> ChainEffect(cfg, db, row, payment, snap, o).db.decisions == db.decisions
  {
    OpenAddsOnlyFor(cfg, InsertCase(db, ChainKey(snap.orderId, payment), OrderOf(snap.orderId), payment, row.createdAt),
                    row, payment, snap, o);
  }

  lemma DecisionAddsOnlyFor(cfg: Config, db: Db, row: Row, payment: string, snap: Snapshot, caseId: nat, n: nat, o: Oracle)
    ensures AddsOnlyFor(payment, db, DecisionEffect(cfg, db, row, payment, snap, caseId, n, o).db)
  {
  }

  /** A new decision in `b` is for a payment the gateway knows and does not call resolved. */
  ghost predicate AddsOnlyUnresolved(g: GatewayState, a: Db, b: Db) {
    && b.rawEvents == a.rawEvents && DecisionsGrow(a.decisions, b.decisions)
    && forall k :: k in b.decisions && k !in a.decisions ==>
                     var p := b.decisions[k].paymentId;
                     p in g.entities && !g.entities[p].status.IsResolved()
  }

  /** A job adds a decision for a payment only if its refresh found that payment unresolved. */
  lemma RowAddsOnlyUnresolved(cfg: Config, db: Db, g: GatewayState, row: Row, o: Oracle)
    ensures AddsOnlyUnresolved(g, db, ProcessRow(cfg, db, row, FetchedFor(g, row), o).db)
  {
    JobRefines(cfg, db, row, FetchedFor(g, row), o);
    if FetchedFor(g, row).Some? {
      ChainAddsOnlyFor(cfg, db, row, row.entity.paymentId.value, FetchedFor(g, row).value, o);
    }
  }

  lemma {:induction false} RowsAddOnlyUnresolved(cfg: Config, c: Core, rows: seq<Row>, os: nat -> Oracle, i: nat)
    requires i <= |rows|
    ensures AddsOnlyUnresolved(c.gateway, c.db, ProcessRows(cfg, c, rows, os, i).db)
    decreases |rows| - i
  {
    if i < |rows| {
      var next := AfterRow(cfg, c, rows[i], os(i));
      RowAddsOnlyUnresolved(cfg, c.db, c.gateway, rows[i], os(i));
      if !OutcomeOf(cfg, c, rows[i], os(i)).Raised? {
        RowsAddOnlyUnresolved(cfg, next, rows, os, i + 1);
        Accumulates(c.gateway, next.gateway, c.db, next.db, ProcessRows(cfg, next, rows, os, i + 1).db);
      }
    }
  }

  lemma Accumulates(g: GatewayState, h: GatewayState, a: Db, b: Db, c: Db)
    requires AddsOnlyUnresolved(g, a, b) && AddsOnlyUnresolved(h, b, c) && g.entities == h.entities
    ensures AddsOnlyUnresolved(g, a, c)
  {
  }

  // ------------------------------------------------------------------ accounting --

  /** A job adds exactly one decision when it says so, and none otherwise. */
  lemma DecisionsCount(cfg: Config, db: Db, row: Row, fetched: Option<Snapshot>, o: Oracle)
    ensures var r := ProcessRow(cfg, db, row, fetched, o);
            |r.db.decisions| == |db.decisions| + if r.outcome.DecidedOnce? then 1 else 0
  {
    JobRefines(cfg, db, row, fetched, o);
    if row.entity.paymentId.Some? && row.entity.paymentId.value != "" && fetched.Some? {
      ChainCounts(cfg, db, row, row.entity.paymentId.value, fetched.value, o);
    }
  }

  lemma ChainCounts(cfg: Config, db: Db, row: Row, payment: string, snap: Snapshot, o: Oracle)
    ensures var r := ChainEffect(cfg, db, row, payment, snap, o);
            |r.db.decisions| == |db.decisions| + if r.outcome.DecidedOnce? then 1 else 0
  {
    var chain := ChainKey(snap.orderId, payment);
    var open := InsertCase(db, chain, OrderOf(snap.orderId), payment, row.createdAt);
    var caseId, n := FindCase(open.cases, chain), AttemptN(open, chain, payment);
    var numbered := AssignAttempt(open, chain, payment);
    assert numbered.decisions == db.decisions;
    if caseId < |open.cases| && open.cases[caseId].lastEventCreatedAt <= row.createdAt && !snap.status.IsResolved() {
      assert OpenEffect(cfg, open, row, payment, snap, o)
          == DecisionEffect(cfg, numbered, row, payment, snap, caseId, n, o);
      DecisionCounts(cfg, numbered, row, payment, snap, caseId, n, o);
    } else {
      assert OpenEffect(cfg, open, row, payment, snap, o).db.decisions == db.decisions;
    }
  }

  lemma DecisionCounts(cfg: Config, db: Db, row: Row, payment: string, snap: Snapshot, caseId: nat, n: nat, o: Oracle)
    ensures var r := DecisionEffect(cfg, db, row, payment, snap, caseId, n, o);
            |r.db.decisions| == |db.decisions| + if r.outcome.DecidedOnce? then 1 else 0
  {
    var d := Stores.Decision(caseId, payment, cfg.policyVersion, n, o.action, o.reason);
    if d.Key() !in db.decisions {
      assert db.decisions[d.Key() := d].Keys == db.decisions.Keys + {d.Key()};
    }
  }

  /** How many of the counted outcomes a worker reports, apart from decisions. */
  function OtherOutcomes(s: Stats): nat {
    s.duplicatesSuppressed + s.guardBlocks + s.staleIgnored + s.closedResolved + s.refreshFailures
  }

  /** The statistics of a batch tell the truth: `decided` is the number of decisions added, and no job is
      counted under two outcomes. */
  lemma {:induction false} StatsAreTrue(cfg: Config, c: Core, rows: seq<Row>, os: nat -> Oracle, i: nat)
    requires i <= |rows|
    ensures var after := ProcessRows(cfg, c, rows, os, i);
            && after.stats.decided - c.stats.decided == |after.db.decisions| - |c.db.decisions|
            && after.stats.decided + OtherOutcomes(after.stats) - after.stats.processed
               <= c.stats.decided + OtherOutcomes(c.stats) - c.stats.processed
            && after.stats.processed - c.stats.processed <= |rows| - i
    decreases |rows| - i
  {
    if i < |rows| {
      var next := AfterRow(cfg, c, rows[i], os(i));
      RowIsCounted(cfg, c, rows[i], os(i));
      if !OutcomeOf(cfg, c, rows[i], os(i)).Raised? {
        StatsAreTrue(cfg, next, rows, os, i + 1);
      }
    }
  }

  lemma RowIsCounted(cfg: Config, c: Core, row: Row, o: Oracle)
    ensures var next := AfterRow(cfg, c, row, o);
            && next.stats.decided - c.stats.decided == |next.db.decisions| - |c.db.decisions|
            && next.stats.decided + OtherOutcomes(next.stats) <= c.stats.decided + OtherOutcomes(c.stats) + 1
            && next.stats.processed == c.stats.processed + 1
  {
    DecisionsCount(cfg, c.db, row, FetchedFor(c.gateway, row), o);
  }

  /** So a whole pass reports exactly the decisions it added. */
  lemma PassReportsItsDecisions(cfg: Config, db: Db, g: GatewayState, cutoff: int, stamps: nat -> int, os: nat -> Oracle)
    ensures var after := ProcessPending(cfg, db, g, cutoff, stamps, os);
            && |after.db.decisions| == |db.decisions| + after.stats.decided
            && after.stats.decided + OtherOutcomes(after.stats) <= after.stats.processed
               <= |Handed(db, cfg.batchSize, Some(cutoff), Some(cfg.maxAttempts))|
  {
    StatsAreTrue(cfg, Core(ClaimJobs(db, cfg.batchSize, Some(cutoff), stamps, Some(cfg.maxAttempts)), g, ZERO),
                 Handed(db, cfg.batchSize, Some(cutoff), Some(cfg.maxAttempts)), os, 0);
  }
}
