/** What an undisturbed job leaves behind, row by row and entry by entry: the job, the case, the attempt, the
    decision and the trail, for each of the ways in which it can end. */
module Effects {
  import opened Models
  import opened Stores
  import opened Guards
  import opened Protocol
  import opened Worker
  import opened Safety
  import opened Admissions
  import Text

  // -------------------------------------------------------------- rows of tables --

  /** The job is in `state`; event, attempts and stamp stay, and so does every other job. */
  function Left(jobs: seq<Job>, job: nat, state: JobState): seq<Job> {
    seq(|jobs|, i requires 0 <= i < |jobs| =>
      if i == job then Job(jobs[i].eventId, state, jobs[i].attempts, jobs[i].claimedAt) else jobs[i])
  }

  lemma JobIsLeft(db: Db, job: nat, state: JobState)
    ensures FinishJob(db, job, state) == db.(jobs := Left(db.jobs, job, state))
  {
    assert FinishJob(db, job, state).jobs == Left(db.jobs, job, state);
  }

  /** `i` is where the case of a chain stands, or would be put. */
  ghost predicate CaseAt(cases: seq<Case>, chain: string, i: nat) {
    && i <= |cases| && (i < |cases| ==> cases[i].chainKey == chain)
    && forall j :: 0 <= j < i ==> cases[j].chainKey != chain
  }

  lemma {:induction false} FindCaseIs(cases: seq<Case>, chain: string, i: nat)
    requires CaseAt(cases, chain, i)
    ensures FindCase(cases, chain) == i
  {
    if cases != [] && cases[0].chainKey != chain {
      FindCaseIs(cases[1..], chain, i - 1);
    }
  }

  /** The case at `i`, opened for `payment` if it is not there yet, in a state that the event of `row` leads to;
      whose order and payment a case has is settled when it is opened. */
  function CasesWith(cases: seq<Case>, i: nat, row: Row, payment: string, snap: Snapshot, state: CaseState): seq<Case>
    requires i <= |cases|
  {
    if i < |cases| then cases[i := Case(cases[i].chainKey, cases[i].orderId, cases[i].paymentId, state, row.createdAt)]
    else cases + [Case(Chain(snap, payment), if snap.orderId == Some("") then None else snap.orderId, payment, state,
                       row.createdAt)]
  }

  function CasesOpened(cases: seq<Case>, i: nat, row: Row, payment: string, snap: Snapshot): seq<Case>
    requires i <= |cases|
  {
    if i < |cases| then cases else CasesWith(cases, i, row, payment, snap, Open)
  }

  lemma CaseIsOpened(db: Db, row: Row, payment: string, snap: Snapshot, i: nat)
    requires CaseAt(db.cases, Chain(snap, payment), i)
    ensures HasCase(db, Chain(snap, payment)) <==> i < |db.cases|
    ensures InsertCase(db, ChainKey(snap.orderId, payment), OrderOf(snap.orderId), payment, row.createdAt)
            == db.(cases := CasesOpened(db.cases, i, row, payment, snap))
    ensures CaseAt(CasesOpened(db.cases, i, row, payment, snap), Chain(snap, payment), i)
  {
    ChainIs(snap, payment);
    FindCaseIs(db.cases, Chain(snap, payment), i);
    assert OrderOf(snap.orderId) == if snap.orderId == Some("") then None else snap.orderId;
  }

  lemma CaseIsAdvanced(db: Db, row: Row, payment: string, snap: Snapshot, i: nat, state: CaseState)
    requires i <= |db.cases|
    ensures var withCase := db.(cases := CasesOpened(db.cases, i, row, payment, snap));
            AdvanceCase(withCase, i, state, row.createdAt)
            == db.(cases := CasesWith(db.cases, i, row, payment, snap, state))
  {
  }

  // -------------------------------------------------------------------- the trail --

  function Said(caseId: Option<nat>, row: Row, what: AuditType): AuditEvent {
    AuditEvent(caseId, Some(row.eventId), what)
  }

  /** Every job that gets as far starts its trail with the refresh and the case. */
  function Arrived(row: Row, payment: string, snap: Snapshot, isNew: bool, i: nat): seq<AuditEvent> {
    [Said(None, row, StateRefreshed(payment, snap.status)), Said(Some(i), row, if isNew then CaseOpened else CaseAttached)]
  }

  function Noted(row: Row, notes: seq<Note>, i: nat): seq<AuditEvent> {
    seq(|notes|, k requires 0 <= k < |notes| => Said(Some(i), row, FailureNote(notes[k])))
  }

  function Entries(ws: seq<Write>): seq<AuditEvent>
    requires forall i :: 0 <= i < |ws| ==> ws[i].Audit?
  {
    seq(|ws|, i requires 0 <= i < |ws| => ws[i].entry)
  }

  lemma {:induction false} RunEntries(cfg: Config, db: Db, th: Thread, fetched: Option<Snapshot>, o: Oracle)
    requires forall i :: 0 <= i < |th.writes| ==> th.writes[i].Audit?
    ensures RunToEnd(cfg, db, th, fetched, o)
            == RunToEnd(cfg, db.(audit := db.audit + Entries(th.writes)), Thread([], th.main), fetched, o)
    decreases |th.writes|
  {
    if th.writes == [] {
      assert db.audit + Entries(th.writes) == db.audit && th == Thread([], th.main);
    } else {
      var first, rest := th.writes[0].entry, Thread(th.writes[1..], th.main);
      RunFirstWrite(cfg, db, th, fetched, o);
      RunEntries(cfg, AppendAudit(db, first), rest, fetched, o);
      assert db.audit + [first] + Entries(rest.writes) == db.audit + Entries(th.writes);
    }
  }

  // ------------------------------------------------------------- how a job can end --

  predicate Nameless(row: Row) {
    row.entity.paymentId == None || row.entity.paymentId == Some("")
  }

  lemma NamelessIff(row: Row)
    ensures Nameless(row) <==> row.entity.paymentId.None? || row.entity.paymentId.value == ""
  {
    assert row.entity.paymentId.Some? ==> (row.entity.paymentId.value == "" <==> row.entity.paymentId == Some(""));
  }

  /** Without a payment the job fails, whatever the gateway would say; without a refresh it goes back to the
      queue, or, if a refresh is not required, stays claimed while an error is raised. */
  lemma UnrefreshedJob(cfg: Config, db: Db, row: Row, fetched: Option<Snapshot>, o: Oracle)
    requires Nameless(row) || fetched.None?
    ensures ProcessRow(cfg, db, row, fetched, o) ==
            if Nameless(row) then
              Result(db.(jobs := Left(db.jobs, row.job, FailedJob),
                         audit := db.audit + [Said(None, row, WebhookRejectedUnsupported)]), Rejected)
            else
              Result(db.(jobs := if cfg.requireStateRefresh then Left(db.jobs, row.job, JobState.Pending) else db.jobs,
                         audit := db.audit + [Said(None, row, StateRefreshFailed)]),
                     if cfg.requireStateRefresh then RefreshFailed else Raised)
  {
    NamelessIff(row);
    RunMain(cfg, db, Thread([], Fetch(row)), fetched, o);
    var th := AfterFetch(cfg, row, fetched);
    JobIsLeft(AppendAudit(db, th.writes[0].entry), row.job, if Nameless(row) then FailedJob else JobState.Pending);
    if |th.writes| == 1 {
      RunWrites1(cfg, db, th, fetched, o);
    } else {
      RunWrites2(cfg, db, th, fetched, o);
    }
  }

  /** The tables and the trail when a refreshed job has come to its case. */
  function AtCase(db: Db, row: Row, payment: string, snap: Snapshot, i: nat): Db
    requires i <= |db.cases|
  {
    db.(cases := CasesOpened(db.cases, i, row, payment, snap),
        audit := db.audit + Arrived(row, payment, snap, i == |db.cases|, i))
  }

  lemma ReachesCase(cfg: Config, db: Db, row: Row, payment: string, snap: Snapshot, o: Oracle, i: nat)
    requires row.entity.paymentId == Some(payment) && payment != ""
    requires CaseAt(db.cases, Chain(snap, payment), i)
    ensures var at := AtCase(db, row, payment, snap, i);
            ProcessRow(cfg, db, row, Some(snap), o)
            == RunToEnd(cfg, at, Applying(row, payment, snap, i, at.cases[i].lastEventCreatedAt, o), Some(snap), o)
  {
    var fetched, isNew := Some(snap), i == |db.cases|;
    RunMain(cfg, db, Thread([], Fetch(row)), fetched, o);
    RunFirstWrite(cfg, db, AfterFetch(cfg, row, fetched), fetched, o);
    var refreshed := AppendAudit(db, Said(None, row, StateRefreshed(payment, snap.status)));
    RunMain(cfg, refreshed, Thread([], OpenInsert(row, payment, snap)), fetched, o);
    CaseIsOpened(refreshed, row, payment, snap, i);
    ChainIs(snap, payment);
    var inserted := refreshed.(cases := CasesOpened(db.cases, i, row, payment, snap));
    FindCaseIs(inserted.cases, Chain(snap, payment), i);
    RunMain(cfg, inserted, Thread([], OpenRead(row, payment, snap, isNew)), fetched, o);
    RunAttach(cfg, inserted, row, payment, snap, isNew, i, fetched, o);
    assert AppendAudit(inserted, Said(Some(i), row, if isNew then CaseOpened else CaseAttached))
        == AtCase(db, row, payment, snap, i) by {
      assert db.audit + [Said(None, row, StateRefreshed(payment, snap.status))]
             + [Said(Some(i), row, if isNew then CaseOpened else CaseAttached)]
          == db.audit + Arrived(row, payment, snap, isNew, i);
    }
  }

  /** An event older than the last one of its case changes nothing but job and trail. */
  lemma StaleJob(cfg: Config, db: Db, row: Row, payment: string, snap: Snapshot, o: Oracle, i: nat)
    requires row.entity.paymentId == Some(payment) && payment != ""
    requires CaseAt(db.cases, Chain(snap, payment), i) && i < |db.cases|
    requires row.createdAt < db.cases[i].lastEventCreatedAt
    ensures ProcessRow(cfg, db, row, Some(snap), o) ==
            Result(db.(jobs := Left(db.jobs, row.job, Done),
                       audit := db.audit + Arrived(row, payment, snap, false, i) + [Said(Some(i), row, EventStaleIgnored)]),
                   Stale)
  {
    var at := AtCase(db, row, payment, snap, i);
    var th := Applying(row, payment, snap, i, at.cases[i].lastEventCreatedAt, o);
    ReachesCase(cfg, db, row, payment, snap, o, i);
    RunWrites2(cfg, at, th, Some(snap), o);
    JobIsLeft(AppendAudit(at, Said(Some(i), row, EventStaleIgnored)), row.job, Done);
  }

  /** The event is not older than the last one of its case. */
  predicate Fresh(db: Db, row: Row, i: nat) {
    i < |db.cases| ==> db.cases[i].lastEventCreatedAt <= row.createdAt
  }

  /** A payment that came good closes its case. */
  lemma SettledJob(cfg: Config, db: Db, row: Row, payment: string, snap: Snapshot, o: Oracle, i: nat)
    requires row.entity.paymentId == Some(payment) && payment != ""
    requires CaseAt(db.cases, Chain(snap, payment), i) && Fresh(db, row, i)
    requires snap.status in {Authorized, Captured, Refunded}
    ensures ProcessRow(cfg, db, row, Some(snap), o) ==
            Result(db.(jobs := Left(db.jobs, row.job, Done),
                       cases := CasesWith(db.cases, i, row, payment, snap, ClosedPaymentResolved),
                       audit := db.audit + Arrived(row, payment, snap, i == |db.cases|, i)
                                + [Said(Some(i), row, CaseClosedPaymentResolved)]),
                   ClosedResolved)
  {
    var at := AtCase(db, row, payment, snap, i);
    var th := Applying(row, payment, snap, i, at.cases[i].lastEventCreatedAt, o);
    ReachesCase(cfg, db, row, payment, snap, o, i);
    RunWrites3(cfg, at, th, Some(snap), o);
    CaseIsAdvanced(db.(audit := at.audit), row, payment, snap, i, ClosedPaymentResolved);
    JobIsLeft(AppendAudit(AdvanceCase(at, i, ClosedPaymentResolved, row.createdAt),
                          Said(Some(i), row, CaseClosedPaymentResolved)), row.job, Done);
  }

  /** The attempts of a chain with that of a payment among them: a number it has already, or the next after
      the largest of the chain. */
  ghost predicate Numbers(rows: seq<ChainAttempt>, after: seq<ChainAttempt>, chain: string, payment: string, n: nat) {
    if exists r :: r in rows && r.chainKey == chain && r.paymentId == payment then
      after == rows && ChainAttempt(chain, payment, n) in rows
    else
      && after == rows + [ChainAttempt(chain, payment, n)]
      && n > 0 && (forall r :: r in rows && r.chainKey == chain ==> r.attemptN < n)
      && (n > 1 ==> exists r :: r in rows && r.chainKey == chain && r.attemptN == n - 1)
  }

  lemma {:induction false} MaxIsLargest(rows: seq<ChainAttempt>, chain: string)
    ensures forall r :: r in rows && r.chainKey == chain ==> r.attemptN <= MaxAttempt(rows, chain)
    ensures MaxAttempt(rows, chain) > 0 ==> exists r :: r in rows && r.chainKey == chain && r.attemptN == MaxAttempt(rows, chain)
  {
    if rows != [] {
      var less, last := rows[..|rows| - 1], rows[|rows| - 1];
      MaxIsLargest(less, chain);
      assert rows == less + [last];
    }
  }

  lemma AttemptIsNumbered(db: Db, snap: Snapshot, payment: string)
    ensures var chain := Chain(snap, payment);
            var after := AssignAttempt(db, ChainKey(snap.orderId, payment), payment);
            && after == db.(chainAttempts := after.chainAttempts)
            && Numbers(db.chainAttempts, after.chainAttempts, chain, payment, AttemptN(db, chain, payment))
  {
    ChainIs(snap, payment);
    var chain, rows := Chain(snap, payment), db.chainAttempts;
    var i := FindAttempt(rows, chain, payment);
    if i < |rows| {
      assert rows[i] == ChainAttempt(chain, payment, AttemptN(db, chain, payment));
    } else {
      MaxIsLargest(rows, chain);
      FindAttemptIsLast(rows, ChainAttempt(chain, payment, MaxAttempt(rows, chain) + 1));
    }
  }

  lemma {:induction false} FindAttemptIsLast(rows: seq<ChainAttempt>, r: ChainAttempt)
    requires FindAttempt(rows, r.chainKey, r.paymentId) == |rows|
    ensures FindAttempt(rows + [r], r.chainKey, r.paymentId) == |rows|
  {
    if rows != [] {
      FindAttemptIsLast(rows[1..], r);
      assert (rows + [r])[1..] == rows[1..] + [r];
    }
  }

  /** What a guard that was asked leaves in the trail. */
  function Asked(row: Row, o: Oracle, i: nat, admission: Option<Verdict>): seq<AuditEvent> {
    match admission
    case None => []
    case Some(None) => [Said(Some(i), row, GuardAllowed(o.action))]
    case Some(Some(why)) => [Said(Some(i), row, GuardBlocked(o.action, why))]
  }

  function KeyOf(cfg: Config, payment: string, n: nat): string {
    Text.IdempotencyKey(payment, cfg.policyVersion, n)
  }

  /** How the job of an unsettled payment with attempt number `n` ends: refused, suppressed, or with the one new
      decision and the case DECIDED. */
  function Concluded(cfg: Config, db: Db, row: Row, payment: string, snap: Snapshot, o: Oracle, i: nat, n: nat,
                     attempts: seq<ChainAttempt>): Result
    requires i <= |db.cases|
  {
    var key, admission := KeyOf(cfg, payment, n), Admission(cfg, snap, n, o);
    var told := db.audit + Arrived(row, payment, snap, i == |db.cases|, i) + Noted(row, o.notes, i)
                + Asked(row, o, i, admission);
    var done := db.(jobs := Left(db.jobs, row.job, Done), cases := CasesOpened(db.cases, i, row, payment, snap),
                    chainAttempts := attempts);
    if admission.Some? && admission.value.Some? then Result(done.(audit := told), Refused)
    else if key in db.decisions then
      Result(done.(audit := told + [Said(Some(i), row, DecisionDuplicateSuppressed(key))]), Suppressed)
    else
      Result(done.(cases := CasesWith(db.cases, i, row, payment, snap, Decided),
                   decisions := db.decisions[key := Decision(i, payment, cfg.policyVersion, n, o.action, o.reason)],
                   audit := told + [Said(Some(i), row, DecisionRecorded(key, o.action))]), DecidedOnce)
  }

  lemma RefusedEnds(cfg: Config, db: Db, row: Row, snap: Snapshot, o: Oracle, told: AuditEvent)
    ensures RunToEnd(cfg, db, Thread([Audit(told), Finish(row.job, Done)], Halt(Refused)), Some(snap), o)
            == Result(db.(jobs := Left(db.jobs, row.job, Done), audit := db.audit + [told]), Refused)
  {
    RunWrites2(cfg, db, Thread([Audit(told), Finish(row.job, Done)], Halt(Refused)), Some(snap), o);
    JobIsLeft(AppendAudit(db, told), row.job, Done);
  }

  lemma RecordEnds(cfg: Config, db: Db, row: Row, snap: Snapshot, o: Oracle, d: Decision)
    ensures RunToEnd(cfg, db, Thread([], Record(row, d)), Some(snap), o) ==
            if d.Key() in db.decisions then
              Result(db.(jobs := Left(db.jobs, row.job, Done),
                         audit := db.audit + [Said(Some(d.caseId), row, DecisionDuplicateSuppressed(d.Key()))]), Suppressed)
            else
              Result(AdvanceCase(db, d.caseId, Decided, row.createdAt).(
                       jobs := Left(db.jobs, row.job, Done), decisions := db.decisions[d.Key() := d],
                       audit := db.audit + [Said(Some(d.caseId), row, DecisionRecorded(d.Key(), d.action))]), DecidedOnce)
  {
    var fetched := Some(snap);
    RunMain(cfg, db, Thread([], Record(row, d)), fetched, o);
    if d.Key() in db.decisions {
      RunWrites2(cfg, db, AfterRecord(db, row, d), fetched, o);
      JobIsLeft(AppendAudit(db, AfterRecord(db, row, d).writes[0].entry), row.job, Done);
    } else {
      var recorded := db.(decisions := db.decisions[d.Key() := d]);
      RunWrites3(cfg, recorded, AfterRecord(db, row, d), fetched, o);
      JobIsLeft(AdvanceCase(AppendAudit(recorded, AfterRecord(db, row, d).writes[0].entry), d.caseId, Decided, row.createdAt),
                row.job, Done);
    }
  }

  /** Number and verdict given, the rest of the job. */
  lemma AdmissionEnds(cfg: Config, db: Db, at: Db, row: Row, payment: string, snap: Snapshot, o: Oracle, i: nat, n: nat)
    requires i <= |db.cases|
    requires at == AtCase(db, row, payment, snap, i).(audit := at.audit, chainAttempts := at.chainAttempts)
    requires at.audit == db.audit + Arrived(row, payment, snap, i == |db.cases|, i) + Noted(row, o.notes, i)
    ensures RunToEnd(cfg, at, AfterAssign(cfg, row, payment, snap, i, n, o), Some(snap), o)
            == Concluded(cfg, db, row, payment, snap, o, i, n, at.chainAttempts)
  {
    var th := AfterAssign(cfg, row, payment, snap, i, n, o);
    var admission, d := Admission(cfg, snap, n, o), Decision(i, payment, cfg.policyVersion, n, o.action, o.reason);
    if admission.Some? && admission.value.Some? {
      RefusedEnds(cfg, at, row, snap, o, Said(Some(i), row, GuardBlocked(o.action, admission.value.value)));
    } else {
      RunEntries(cfg, at, th, Some(snap), o);
      assert Entries(th.writes) == Asked(row, o, i, admission);
      RecordEnds(cfg, at.(audit := at.audit + Asked(row, o, i, admission)), row, snap, o, d);
      CaseIsAdvanced(db, row, payment, snap, i, Decided);
    }
  }

  lemma AssignEnds(cfg: Config, db: Db, at: Db, row: Row, payment: string, snap: Snapshot, o: Oracle, i: nat)
    returns (attempts: seq<ChainAttempt>)
    requires i <= |db.cases|
    requires at == AtCase(db, row, payment, snap, i).(audit := at.audit)
    requires at.audit == db.audit + Arrived(row, payment, snap, i == |db.cases|, i) + Noted(row, o.notes, i)
    ensures var n := AttemptN(db, Chain(snap, payment), payment);
            && Numbers(db.chainAttempts, attempts, Chain(snap, payment), payment, n)
            && RunToEnd(cfg, at, Thread([], Assign(row, payment, snap, i)), Some(snap), o)
               == Concluded(cfg, db, row, payment, snap, o, i, n, attempts)
  {
    var chain := Chain(snap, payment);
    var n := AttemptN(db, chain, payment);
    ChainIs(snap, payment);
    AttemptIsNumbered(db, snap, payment);
    RunMain(cfg, at, Thread([], Assign(row, payment, snap, i)), Some(snap), o);
    attempts := AssignAttempt(db, chain, payment).chainAttempts;
    assert AssignAttempt(at, chain, payment) == at.(chainAttempts := attempts) && AttemptN(at, chain, payment) == n;
    AdmissionEnds(cfg, db, at.(chainAttempts := attempts), row, payment, snap, o, i, n);
  }

  /** The job of an unsettled payment. */
  lemma UnsettledJob(cfg: Config, db: Db, row: Row, payment: string, snap: Snapshot, o: Oracle, i: nat)
    returns (attempts: seq<ChainAttempt>)
    requires row.entity.paymentId == Some(payment) && payment != ""
    requires CaseAt(db.cases, Chain(snap, payment), i) && Fresh(db, row, i)
    requires snap.status !in {Authorized, Captured, Refunded}
    ensures var n := AttemptN(db, Chain(snap, payment), payment);
            && Numbers(db.chainAttempts, attempts, Chain(snap, payment), payment, n)
            && ProcessRow(cfg, db, row, Some(snap), o) == Concluded(cfg, db, row, payment, snap, o, i, n, attempts)
  {
    var at := AtCase(db, row, payment, snap, i);
    var th := Applying(row, payment, snap, i, at.cases[i].lastEventCreatedAt, o);
    ReachesCase(cfg, db, row, payment, snap, o, i);
    RunEntries(cfg, at, th, Some(snap), o);
    assert Entries(th.writes) == Noted(row, o.notes, i);
    attempts := AssignEnds(cfg, db, at.(audit := at.audit + Noted(row, o.notes, i)), row, payment, snap, o, i);
  }
}
