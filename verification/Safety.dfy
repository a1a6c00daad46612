/** What every commit keeps: the invariants of the event core, one thread at a time. They are about
    the database and what is left of a thread, so they hold whatever runs in between. */
module Safety {
  import opened Models
  import opened Stores
  import opened Guards
  import opened Protocol
  import Text

  /** What stays fixed over a run: the order of every payment, and the cap of the guard if every
      worker runs behind one. */
  datatype Setting = Setting(orders: string -> Option<string>, cap: Option<nat>)
  {
    function Chain(payment: string): string {
      ChainKey(orders(payment), payment)
    }
  }

  // -------------------------------------------------------- the database alone --

  ghost predicate OneCasePerChain(cases: seq<Case>) {
    forall i, j :: 0 <= i < j < |cases| ==> cases[i].chainKey != cases[j].chainKey
  }

  /** A case carries the chain of the payment that opened it. */
  ghost predicate CasesInChain(s: Setting, cases: seq<Case>) {
    forall i :: 0 <= i < |cases| ==> cases[i].chainKey == s.Chain(cases[i].paymentId)
  }

  function ChainLength(rows: seq<ChainAttempt>, chainKey: string): nat {
    if rows == [] then 0
    else ChainLength(rows[..|rows| - 1], chainKey) + if rows[|rows| - 1].chainKey == chainKey then 1 else 0
  }

  /** Each payment appears once in its chain, numbered by how many came before it. */
  ghost predicate Numbered(rows: seq<ChainAttempt>) {
    rows == [] ||
    var front, last := rows[..|rows| - 1], rows[|rows| - 1];
    && Numbered(front)
    && last.attemptN == ChainLength(front, last.chainKey) + 1
    && FindAttempt(front, last.chainKey, last.paymentId) == |front|
  }

  ghost predicate CaseOf(s: Setting, cases: seq<Case>, caseId: nat, payment: string) {
    caseId < |cases| && cases[caseId].chainKey == s.Chain(payment)
  }

  ghost predicate Attempted(s: Setting, rows: seq<ChainAttempt>, payment: string, n: nat) {
    ChainAttempt(s.Chain(payment), payment, n) in rows
  }

  ghost predicate UnderCap(s: Setting, d: Decision) {
    s.cap.Some? && d.action == ScheduleAt ==> d.attemptN < s.cap.value
  }

  /** A decision sits in its payment's chain, under its payment's number, within the cap. */
  ghost predicate DecisionOk(s: Setting, db: Db, d: Decision) {
    && CaseOf(s, db.cases, d.caseId, d.paymentId)
    && Attempted(s, db.chainAttempts, d.paymentId, d.attemptN)
    && UnderCap(s, d)
  }

  ghost predicate DecisionsOk(s: Setting, db: Db) {
    forall k :: k in db.decisions ==> k == db.decisions[k].Key() && DecisionOk(s, db, db.decisions[k])
  }

  // ------------------------------------------------------------------ the trail --

  ghost predicate Before(audit: seq<AuditEvent>, i: nat, e: AuditEvent) {
    exists j :: 0 <= j < i && j < |audit| && audit[j] == e
  }

  /** The event was refreshed and the payment was not yet resolved then. */
  ghost predicate RefreshedUnresolved(audit: seq<AuditEvent>, i: nat, eventId: Option<string>, payment: string) {
    || Before(audit, i, AuditEvent(None, eventId, StateRefreshed(payment, PaymentStatus.Failed)))
    || Before(audit, i, AuditEvent(None, eventId, StateRefreshed(payment, Created)))
  }

  /** Admission was asked for and granted, where it is due. */
  ghost predicate AdmissionGranted(s: Setting, audit: seq<AuditEvent>, i: nat, eventId: Option<string>, d: Decision) {
    s.cap.Some? && ObligationKind(d.action).Some? ==>
      Before(audit, i, AuditEvent(Some(d.caseId), eventId, GuardAllowed(d.action)))
  }

  ghost predicate Justified(s: Setting, audit: seq<AuditEvent>, i: nat, eventId: Option<string>, d: Decision) {
    RefreshedUnresolved(audit, i, eventId, d.paymentId) && AdmissionGranted(s, audit, i, eventId, d)
  }

  /** Entry `i` of the trail announces a decision that exists and was justified before it. */
  ghost predicate Explained(s: Setting, db: Db, i: nat)
    requires i < |db.audit| && db.audit[i].what.DecisionRecorded?
  {
    var e := db.audit[i];
    && e.what.key in db.decisions
    && e.caseId == Some(db.decisions[e.what.key].caseId)
    && e.what.action == db.decisions[e.what.key].action
    && Justified(s, db.audit, i, e.eventId, db.decisions[e.what.key])
  }

  ghost predicate TrailOk(s: Setting, db: Db) {
    forall i :: 0 <= i < |db.audit| && db.audit[i].what.DecisionRecorded? ==> Explained(s, db, i)
  }

  ghost predicate AnnouncedOnce(audit: seq<AuditEvent>) {
    forall i, j :: 0 <= i < j < |audit| && audit[i].what.DecisionRecorded? && audit[j].what.DecisionRecorded? ==>
                     audit[i].what.key != audit[j].what.key
  }

  ghost predicate Announced(audit: seq<AuditEvent>, key: string) {
    exists i :: 0 <= i < |audit| && audit[i].what.DecisionRecorded? && audit[i].what.key == key
  }

  ghost predicate DbOk(s: Setting, db: Db) {
    && OneCasePerChain(db.cases)
    && CasesInChain(s, db.cases)
    && Numbered(db.chainAttempts)
    && DecisionsOk(s, db)
    && TrailOk(s, db)
    && AnnouncedOnce(db.audit)
  }

  // ----------------------------------------------------------- what is in flight --

  predicate Announces(w: Write) {
    w.Audit? && w.entry.what.DecisionRecorded?
  }

  /** The decision a thread has stored and is about to announce. */
  predicate HasPending(th: Thread) {
    th.writes != [] && Announces(th.writes[0])
  }

  ghost predicate Known(db: Db, th: Thread, e: AuditEvent) {
    e in db.audit || Audit(e) in th.writes
  }

  /** The payment of a thread was refreshed as `snap` says, and belongs to its order. */
  ghost predicate Refreshed(s: Setting, db: Db, th: Thread, row: Row, payment: string, snap: Snapshot) {
    && snap.orderId == s.orders(payment)
    && Known(db, th, AuditEvent(None, Some(row.eventId), StateRefreshed(payment, snap.status)))
  }

  ghost predicate ReadyToRecord(s: Setting, db: Db, th: Thread, row: Row, d: Decision) {
    && DecisionOk(s, db, d)
    && RefreshedUnresolved(db.audit, |db.audit|, Some(row.eventId), d.paymentId)
    && (s.cap.Some? && ObligationKind(d.action).Some? ==>
          Known(db, th, AuditEvent(Some(d.caseId), Some(row.eventId), GuardAllowed(d.action))))
  }

  ghost predicate MainOk(s: Setting, db: Db, th: Thread) {
    match th.main
    case RawInsert(_, _) => true
    case Fetch(_) => true
    case OpenInsert(row, payment, snap) => Refreshed(s, db, th, row, payment, snap)
    case OpenRead(row, payment, snap, _) => Refreshed(s, db, th, row, payment, snap) && th.writes == []
    case Assign(row, payment, snap, caseId) =>
      && Refreshed(s, db, th, row, payment, snap)
      && !snap.status.IsResolved()
      && CaseOf(s, db.cases, caseId, payment)
    case Record(row, d) => ReadyToRecord(s, db, th, row, d)
    case Halt(_) => true
  }

  ghost predicate PendingOk(s: Setting, db: Db, th: Thread) {
    HasPending(th) ==>
      var e := th.writes[0].entry;
      && e.what.key in db.decisions
      && e.caseId == Some(db.decisions[e.what.key].caseId)
      && e.what.action == db.decisions[e.what.key].action
      && Justified(s, db.audit, |db.audit|, e.eventId, db.decisions[e.what.key])
      && !Announced(db.audit, e.what.key)
  }

  ghost predicate ThreadOk(s: Setting, db: Db, th: Thread) {
    && MainOk(s, db, th)
    && PendingOk(s, db, th)
    && forall i :: 1 <= i < |th.writes| ==> !Announces(th.writes[i])
  }

  // ---------------------------------------------------------- what never shrinks --

  ghost predicate CasesGrow(a: seq<Case>, b: seq<Case>) {
    |a| <= |b| && forall i :: 0 <= i < |a| ==> a[i].chainKey == b[i].chainKey
  }

  ghost predicate DecisionsGrow(a: map<string, Decision>, b: map<string, Decision>) {
    forall k :: k in a ==> k in b && a[k] == b[k]
  }

  /** Cases keep their chains, attempts their numbers, decisions and trail entries their content. */
  ghost predicate Grows(a: Db, b: Db) {
    && CasesGrow(a.cases, b.cases)
    && a.chainAttempts <= b.chainAttempts
    && DecisionsGrow(a.decisions, b.decisions)
    && a.audit <= b.audit
  }

  lemma GrowsTransitive(a: Db, b: Db, c: Db)
    requires Grows(a, b) && Grows(b, c)
    ensures Grows(a, c)
  {
  }

  lemma BeforeGrows(a: seq<AuditEvent>, b: seq<AuditEvent>, i: nat, e: AuditEvent)
    requires a <= b && Before(a, i, e)
    ensures Before(b, i, e) && Before(b, |b|, e)
  {
    var j :| 0 <= j < i && j < |a| && a[j] == e;
    assert b[j] == e;
  }

  lemma JustifiedGrows(s: Setting, a: seq<AuditEvent>, b: seq<AuditEvent>, i: nat, eventId: Option<string>, d: Decision)
    requires a <= b && Justified(s, a, i, eventId, d)
    ensures Justified(s, b, i, eventId, d) && Justified(s, b, |b|, eventId, d)
  {
    var failed := AuditEvent(None, eventId, StateRefreshed(d.paymentId, PaymentStatus.Failed));
    var created := AuditEvent(None, eventId, StateRefreshed(d.paymentId, Created));
    if Before(a, i, failed) {
      BeforeGrows(a, b, i, failed);
    } else {
      BeforeGrows(a, b, i, created);
    }
    if s.cap.Some? && ObligationKind(d.action).Some? {
      BeforeGrows(a, b, i, AuditEvent(Some(d.caseId), eventId, GuardAllowed(d.action)));
    }
  }

  lemma DecisionOkGrows(s: Setting, a: Db, b: Db, d: Decision)
    requires Grows(a, b) && DecisionOk(s, a, d)
    ensures DecisionOk(s, b, d)
  {
    var row := ChainAttempt(s.Chain(d.paymentId), d.paymentId, d.attemptN);
    var i :| 0 <= i < |a.chainAttempts| && a.chainAttempts[i] == row;
    assert b.chainAttempts[i] == row;
  }

  /** A thread survives anything others do, as long as nobody announces its decision for it. */
  lemma ThreadSurvives(s: Setting, a: Db, b: Db, th: Thread)
    requires Grows(a, b) && ThreadOk(s, a, th)
    requires HasPending(th) ==> !Announced(b.audit, th.writes[0].entry.what.key)
    ensures ThreadOk(s, b, th)
  {
    if HasPending(th) {
      var e := th.writes[0].entry;
      JustifiedGrows(s, a.audit, b.audit, |a.audit|, e.eventId, a.decisions[e.what.key]);
    }
    MainSurvives(s, a, b, th);
  }

  lemma MainSurvives(s: Setting, a: Db, b: Db, th: Thread)
    requires Grows(a, b) && MainOk(s, a, th)
    ensures MainOk(s, b, th)
  {
    assert forall e :: e in a.audit ==> e in b.audit;
    match th.main
    case Record(row, d) =>
      DecisionOkGrows(s, a, b, d);
      RefreshedGrows(a.audit, b.audit, Some(row.eventId), d.paymentId);
    case _ =>
  }

  lemma RefreshedGrows(a: seq<AuditEvent>, b: seq<AuditEvent>, eventId: Option<string>, payment: string)
    requires a <= b && RefreshedUnresolved(a, |a|, eventId, payment)
    ensures RefreshedUnresolved(b, |b|, eventId, payment)
  {
    var failed := AuditEvent(None, eventId, StateRefreshed(payment, PaymentStatus.Failed));
    if Before(a, |a|, failed) {
      BeforeGrows(a, b, |a|, failed);
    } else {
      BeforeGrows(a, b, |a|, AuditEvent(None, eventId, StateRefreshed(payment, Created)));
    }
  }

  // ------------------------------------------------- numbering, and the other tables --

  /** In a numbered table the largest number of a chain is its length. */
  lemma {:induction false} MaxIsLength(rows: seq<ChainAttempt>, chainKey: string)
    requires Numbered(rows)
    ensures MaxAttempt(rows, chainKey) == ChainLength(rows, chainKey)
  {
    if rows != [] {
      MaxIsLength(rows[..|rows| - 1], chainKey);
    }
  }

  lemma AssignKeepsNumbers(db: Db, chainKey: string, payment: string)
    requires Numbered(db.chainAttempts)
    ensures Numbered(AssignAttempt(db, chainKey, payment).chainAttempts)
    ensures ChainAttempt(chainKey, payment, AttemptN(db, chainKey, payment))
            in AssignAttempt(db, chainKey, payment).chainAttempts
  {
    var rows := db.chainAttempts;
    var after := AssignAttempt(db, chainKey, payment).chainAttempts;
    if FindAttempt(rows, chainKey, payment) == |rows| {
      MaxIsLength(rows, chainKey);
      assert after[..|after| - 1] == rows;
    }
    FindsAny(after, if after == rows then FindAttempt(rows, chainKey, payment) else |rows|);
  }

  lemma {:induction false} FindsAny(rows: seq<ChainAttempt>, i: nat)
    requires i < |rows|
    ensures FindAttempt(rows, rows[i].chainKey, rows[i].paymentId) <= i
  {
  }

  lemma InsertCaseKeeps(s: Setting, db: Db, chainKey: string, orderId: Option<string>, payment: string, createdAt: int)
    requires OneCasePerChain(db.cases) && CasesInChain(s, db.cases) && chainKey == s.Chain(payment)
    ensures OneCasePerChain(InsertCase(db, chainKey, orderId, payment, createdAt).cases)
    ensures CasesInChain(s, InsertCase(db, chainKey, orderId, payment, createdAt).cases)
    ensures CasesGrow(db.cases, InsertCase(db, chainKey, orderId, payment, createdAt).cases)
  {
  }

  lemma DecisionsOkGrows(s: Setting, a: Db, b: Db)
    requires Grows(a, b) && DecisionsOk(s, a) && a.decisions == b.decisions
    ensures DecisionsOk(s, b)
  {
    forall k | k in b.decisions
      ensures k == b.decisions[k].Key() && DecisionOk(s, b, b.decisions[k])
    {
      DecisionOkGrows(s, a, b, a.decisions[k]);
    }
  }

  lemma TrailOkGrows(s: Setting, a: Db, b: Db)
    requires Grows(a, b) && TrailOk(s, a) && a.audit == b.audit
    ensures TrailOk(s, b)
  {
    forall i | 0 <= i < |b.audit| && b.audit[i].what.DecisionRecorded?
      ensures Explained(s, b, i)
    {
      assert Explained(s, a, i);
    }
  }

  /** A change to cases or numbers alone keeps the database good. */
  lemma TablesKeep(s: Setting, a: Db, b: Db)
    requires DbOk(s, a) && Grows(a, b) && a.decisions == b.decisions && a.audit == b.audit
    requires OneCasePerChain(b.cases) && CasesInChain(s, b.cases) && Numbered(b.chainAttempts)
    ensures DbOk(s, b)
  {
    DecisionsOkGrows(s, a, b);
    TrailOkGrows(s, a, b);
  }

  lemma JobsKeep(s: Setting, a: Db, jobs: seq<Job>)
    requires DbOk(s, a)
    ensures DbOk(s, a.(jobs := jobs)) && Grows(a, a.(jobs := jobs))
  {
    TablesKeep(s, a, a.(jobs := jobs));
  }

  // ----------------------------------------------------------------- one commit --

  ghost predicate GoodAnswer(s: Setting, th: Thread, fetched: Option<Snapshot>) {
    th.main.Fetch? && fetched.Some? && th.main.row.entity.paymentId.Some? ==>
      fetched.value.orderId == s.orders(th.main.row.entity.paymentId.value)
  }

  ghost predicate GoodConfig(s: Setting, cfg: Config) {
    s.cap.Some? ==> cfg.guard.Some? && cfg.guard.value.calendar.attemptCap <= s.cap.value
  }

  /** Only the decision a thread has in hand can become announced, and a thread takes a decision in
      hand only by storing a new one. */
  ghost predicate HandsOff(a: Db, th: Thread, b: Db, next: Thread) {
    && (forall k :: Announced(b.audit, k) ==> Announced(a.audit, k) || (HasPending(th) && k == th.writes[0].entry.what.key))
    && (HasPending(next) ==> next.writes[0].entry.what.key !in a.decisions)
  }

  /** The effect of one commit, as a relation: it keeps the database and the thread good, never
      takes anything back, and announces no one else's decision. */
  ghost predicate Kept(s: Setting, a: Db, th: Thread, b: Db, next: Thread) {
    DbOk(s, b) && ThreadOk(s, b, next) && Grows(a, b) && HandsOff(a, th, b, next)
  }

  lemma AppendKeepsTrail(s: Setting, a: Db, e: AuditEvent)
    requires TrailOk(s, a) && AnnouncedOnce(a.audit)
    requires e.what.DecisionRecorded? ==>
               && e.what.key in a.decisions
               && e.caseId == Some(a.decisions[e.what.key].caseId)
               && e.what.action == a.decisions[e.what.key].action
               && Justified(s, a.audit, |a.audit|, e.eventId, a.decisions[e.what.key])
               && !Announced(a.audit, e.what.key)
    ensures TrailOk(s, AppendAudit(a, e)) && AnnouncedOnce(AppendAudit(a, e).audit)
  {
    var b := AppendAudit(a, e);
    forall i | 0 <= i < |b.audit| && b.audit[i].what.DecisionRecorded?
      ensures Explained(s, b, i)
    {
      if i < |a.audit| {
        assert Explained(s, a, i);
      }
      var d := a.decisions[b.audit[i].what.key];
      JustifiedGrows(s, a.audit, b.audit, i, b.audit[i].eventId, d);
    }
  }

  lemma AppendAnnounces(a: seq<AuditEvent>, e: AuditEvent, key: string)
    requires Announced(a + [e], key)
    ensures Announced(a, key) || (e.what.DecisionRecorded? && e.what.key == key)
  {
    var i :| 0 <= i < |a + [e]| && (a + [e])[i].what.DecisionRecorded? && (a + [e])[i].what.key == key;
    if i < |a| {
      assert a[i].what.DecisionRecorded? && a[i].what.key == key;
    }
  }

  lemma AnnouncedGrows(a: seq<AuditEvent>, b: seq<AuditEvent>, key: string)
    requires Announced(a, key) && a <= b
    ensures Announced(b, key)
  {
    var i :| 0 <= i < |a| && a[i].what.DecisionRecorded? && a[i].what.key == key;
    assert b[i] == a[i];
  }

  lemma WriteKeeps(s: Setting, a: Db, th: Thread)
    requires DbOk(s, a) && ThreadOk(s, a, th) && th.writes != []
    ensures Kept(s, a, th, Do(a, th.writes[0]), Thread(th.writes[1..], th.main))
  {
    var w, next := th.writes[0], Thread(th.writes[1..], th.main);
    var b := Do(a, w);
    assert ThreadOk(s, b, next) by {
      WriteKeepsMain(s, a, th);
      QuietAfterWrite(s, a, th);
    }
    assert DbOk(s, b) by {
      WriteKeepsDb(s, a, th);
    }
    assert Grows(a, b) by {
      WriteGrows(s, a, w);
    }
    assert HandsOff(a, th, b, next) by {
      WriteAnnounces(a, th);
      QuietAfterWrite(s, a, th);
    }
  }

  lemma QuietAfterWrite(s: Setting, a: Db, th: Thread)
    requires ThreadOk(s, a, th) && th.writes != []
    ensures forall i :: 0 <= i < |th.writes[1..]| ==> !Announces(th.writes[1..][i])
    ensures !HasPending(Thread(th.writes[1..], th.main))
  {
  }

  lemma WriteAnnounces(a: Db, th: Thread)
    requires th.writes != []
    ensures forall k :: Announced(Do(a, th.writes[0]).audit, k) ==>
                          Announced(a.audit, k) || (HasPending(th) && k == th.writes[0].entry.what.key)
  {
    var w := th.writes[0];
    if w.Audit? {
      forall k | Announced(Do(a, w).audit, k)
        ensures Announced(a.audit, k) || (HasPending(th) && k == w.entry.what.key)
      {
        AppendAnnounces(a.audit, w.entry, k);
      }
    }
  }

  lemma WriteKeepsDb(s: Setting, a: Db, th: Thread)
    requires DbOk(s, a) && PendingOk(s, a, th) && th.writes != []
    ensures DbOk(s, Do(a, th.writes[0]))
  {
    var w := th.writes[0];
    var b := Do(a, w);
    WriteGrows(s, a, w);
    DecisionsOkGrows(s, a, b);
    if w.Audit? {
      AppendKeepsTrail(s, a, w.entry);
    } else {
      TrailOkGrows(s, a, b);
    }
  }

  lemma WriteGrows(s: Setting, a: Db, w: Write)
    ensures Grows(a, Do(a, w))
    ensures OneCasePerChain(a.cases) ==> OneCasePerChain(Do(a, w).cases)
    ensures CasesInChain(s, a.cases) ==> CasesInChain(s, Do(a, w).cases)
    ensures Do(a, w).chainAttempts == a.chainAttempts && Do(a, w).decisions == a.decisions
    ensures !w.Audit? ==> Do(a, w).audit == a.audit
  {
    var b := Do(a, w);
    assert |a.cases| <= |b.cases| && a.audit <= b.audit;
    forall i | 0 <= i < |a.cases|
      ensures b.cases[i].chainKey == a.cases[i].chainKey && b.cases[i].paymentId == a.cases[i].paymentId
    {
    }
    assert |b.cases| == |a.cases|;
  }

  lemma WriteKeepsMain(s: Setting, a: Db, th: Thread)
    requires DbOk(s, a) && MainOk(s, a, th) && th.writes != []
    ensures MainOk(s, Do(a, th.writes[0]), Thread(th.writes[1..], th.main))
  {
    var w, next := th.writes[0], Thread(th.writes[1..], th.main);
    var b := Do(a, w);
    WriteGrows(s, a, w);
    MainSurvives(s, a, b, th);
    forall e | Known(b, th, e)
      ensures Known(b, next, e)
    {
      if Audit(e) in th.writes && Audit(e) !in next.writes {
        assert w == Audit(e);
        assert b.audit[|a.audit|] == e;
      }
    }
    assert th.main.OpenRead? ==> th.writes == [];
  }

  lemma FetchKeeps(s: Setting, cfg: Config, a: Db, th: Thread, fetched: Option<Snapshot>, o: Oracle)
    requires DbOk(s, a) && ThreadOk(s, a, th) && th.writes == [] && th.main.Fetch?
    requires GoodAnswer(s, th, fetched)
    ensures Kept(s, a, th, NextDb(a, th), NextThread(cfg, a, th, fetched, o))
  {
    var next := NextThread(cfg, a, th, fetched, o);
    if next.main.OpenInsert? {
      assert next.writes[0] == Audit(AuditEvent(None, Some(next.main.row.eventId),
                                                StateRefreshed(next.main.payment, next.main.snap.status)));
    }
  }

  lemma OpenInsertKeeps(s: Setting, cfg: Config, a: Db, th: Thread, fetched: Option<Snapshot>, o: Oracle)
    requires DbOk(s, a) && ThreadOk(s, a, th) && th.writes == [] && th.main.OpenInsert?
    ensures Kept(s, a, th, NextDb(a, th), NextThread(cfg, a, th, fetched, o))
  {
    var b, next := NextDb(a, th), NextThread(cfg, a, th, fetched, o);
    assert DbOk(s, b) && Grows(a, b) by {
      OpenInsertKeepsTables(s, a, th);
    }
    assert ThreadOk(s, b, next) && !HasPending(next) by {
      InsertedIsRead(s, cfg, a, th, fetched, o);
    }
    assert b.audit == a.audit;
  }

  lemma OpenInsertKeepsTables(s: Setting, a: Db, th: Thread)
    requires DbOk(s, a) && MainOk(s, a, th) && th.writes == [] && th.main.OpenInsert?
    ensures DbOk(s, NextDb(a, th)) && Grows(a, NextDb(a, th))
  {
    var OpenInsert(row, payment, snap) := th.main;
    InsertCaseKeeps(s, a, ChainKey(snap.orderId, payment), OrderOf(snap.orderId), payment, row.createdAt);
    TablesKeep(s, a, NextDb(a, th));
  }

  lemma InsertedIsRead(s: Setting, cfg: Config, a: Db, th: Thread, fetched: Option<Snapshot>, o: Oracle)
    requires MainOk(s, a, th) && th.writes == [] && th.main.OpenInsert?
    ensures var next := NextThread(cfg, a, th, fetched, o);
            ThreadOk(s, NextDb(a, th), next) && !HasPending(next)
  {
  }

  lemma OpenReadKeeps(s: Setting, cfg: Config, a: Db, th: Thread, fetched: Option<Snapshot>, o: Oracle)
    requires DbOk(s, a) && ThreadOk(s, a, th) && th.writes == [] && th.main.OpenRead?
    ensures Kept(s, a, th, NextDb(a, th), NextThread(cfg, a, th, fetched, o))
  {
    ReadIsApplied(s, cfg, a, th, fetched, o);
    QuietlyKept(s, a, th, NextThread(cfg, a, th, fetched, o));
  }

  lemma QuietlyKept(s: Setting, a: Db, th: Thread, next: Thread)
    requires DbOk(s, a) && ThreadOk(s, a, next) && !HasPending(next)
    ensures Kept(s, a, th, a, next)
  {
  }

  lemma ReadIsApplied(s: Setting, cfg: Config, a: Db, th: Thread, fetched: Option<Snapshot>, o: Oracle)
    requires MainOk(s, a, th) && th.writes == [] && th.main.OpenRead?
    ensures var next := NextThread(cfg, a, th, fetched, o);
            ThreadOk(s, a, next) && !HasPending(next)
  {
  }

  lemma AssignKeeps(s: Setting, cfg: Config, a: Db, th: Thread, fetched: Option<Snapshot>, o: Oracle)
    requires DbOk(s, a) && ThreadOk(s, a, th) && th.writes == [] && th.main.Assign?
    requires GoodConfig(s, cfg)
    ensures Kept(s, a, th, NextDb(a, th), NextThread(cfg, a, th, fetched, o))
  {
    var b, next := NextDb(a, th), NextThread(cfg, a, th, fetched, o);
    AssignTablesKeep(s, a, th.main.payment, th.main.snap);
    assert ThreadOk(s, b, next) && !HasPending(next) by {
      AssignedIsReady(s, cfg, a, th, fetched, o);
    }
    assert HandsOff(a, th, b, next);
  }

  lemma AssignTablesKeep(s: Setting, a: Db, payment: string, snap: Snapshot)
    requires DbOk(s, a)
    ensures var b := AssignAttempt(a, ChainKey(snap.orderId, payment), payment);
            DbOk(s, b) && Grows(a, b) && b.audit == a.audit
  {
    AssignKeepsNumbers(a, ChainKey(snap.orderId, payment), payment);
    TablesKeep(s, a, AssignAttempt(a, ChainKey(snap.orderId, payment), payment));
  }

  /** After numbering, either the guard refused or the decision is ready to be recorded. */
  lemma AssignedIsReady(s: Setting, cfg: Config, a: Db, th: Thread, fetched: Option<Snapshot>, o: Oracle)
    requires MainOk(s, a, th) && th.writes == [] && th.main.Assign? && GoodConfig(s, cfg)
    requires Numbered(a.chainAttempts)
    ensures var next := NextThread(cfg, a, th, fetched, o);
            ThreadOk(s, NextDb(a, th), next) && !HasPending(next)
  {
    var Assign(row, payment, snap, caseId) := th.main;
    var n := AttemptN(a, ChainKey(snap.orderId, payment), payment);
    AssignKeepsNumbers(a, ChainKey(snap.orderId, payment), payment);
    UnresolvedEvidence(a.audit, Some(row.eventId), payment, snap.status);
    var next := NextThread(cfg, a, th, fetched, o);
    if next.main.Record? {
      if s.cap.Some? && o.action == ScheduleAt {
        AdmittedIsUnderCap(s, cfg, snap, n, o);
      }
      assert s.cap.Some? && ObligationKind(o.action).Some? ==>
          next.writes[0] == Audit(AuditEvent(Some(caseId), Some(row.eventId), GuardAllowed(o.action)));
    }
  }

  lemma UnresolvedEvidence(audit: seq<AuditEvent>, eventId: Option<string>, payment: string, status: PaymentStatus)
    requires AuditEvent(None, eventId, StateRefreshed(payment, status)) in audit && !status.IsResolved()
    ensures RefreshedUnresolved(audit, |audit|, eventId, payment)
  {
    assert Before(audit, |audit|, AuditEvent(None, eventId, StateRefreshed(payment, status)));
  }

  /** Behind a guard, an execution that needs no refusal is under the cap. */
  lemma AdmittedIsUnderCap(s: Setting, cfg: Config, snap: Snapshot, n: nat, o: Oracle)
    requires GoodConfig(s, cfg)
    requires s.cap.Some? && o.action == ScheduleAt
    requires Admission(cfg, snap, n, o).Some? ==> Admission(cfg, snap, n, o).value.None?
    ensures n < s.cap.value
  {
    var r := GuardRequest(Execution, snap, n, o);
    AllowedIff(cfg.guard.value, r);
  }

  lemma RecordGrows(a: Db, d: Decision)
    ensures Grows(a, RecordDecision(a, d))
  {
  }

  lemma RecordStores(s: Setting, a: Db, d: Decision)
    requires DecisionsOk(s, a) && DecisionOk(s, a, d)
    ensures DecisionsOk(s, RecordDecision(a, d))
  {
    var b := RecordDecision(a, d);
    forall k | k in b.decisions
      ensures k == b.decisions[k].Key() && DecisionOk(s, b, b.decisions[k])
    {
      if k in a.decisions {
        assert b.decisions[k] == a.decisions[k];
      } else {
        assert b.decisions[k] == d;
      }
    }
  }

  lemma RecordKeeps(s: Setting, cfg: Config, a: Db, th: Thread, fetched: Option<Snapshot>, o: Oracle)
    requires DbOk(s, a) && ThreadOk(s, a, th) && th.writes == [] && th.main.Record?
    ensures Kept(s, a, th, NextDb(a, th), NextThread(cfg, a, th, fetched, o))
  {
    var Record(row, d) := th.main;
    var b, next := NextDb(a, th), NextThread(cfg, a, th, fetched, o);
    RecordStores(s, a, d);
    RecordGrows(a, d);
    assert TrailOk(s, b) by {
      TrailOkGrows(s, a, b);
    }
    assert ThreadOk(s, b, next) && HandsOff(a, th, b, next) by {
      RecordedIsPending(s, cfg, a, th, o);
    }
  }

  lemma RecordedIsPending(s: Setting, cfg: Config, a: Db, th: Thread, o: Oracle)
    requires TrailOk(s, a) && MainOk(s, a, th) && th.writes == [] && th.main.Record?
    ensures ThreadOk(s, NextDb(a, th), NextThread(cfg, a, th, None, o))
    ensures HandsOff(a, th, NextDb(a, th), NextThread(cfg, a, th, None, o))
  {
    var Record(row, d) := th.main;
    assert d.Key() !in a.decisions ==> !Announced(a.audit, d.Key());
    assert Justified(s, a.audit, |a.audit|, Some(row.eventId), d) by {
      if s.cap.Some? && ObligationKind(d.action).Some? {
        assert Before(a.audit, |a.audit|, AuditEvent(Some(d.caseId), Some(row.eventId), GuardAllowed(d.action)));
      }
    }
  }

  lemma RawInsertKeeps(s: Setting, cfg: Config, a: Db, th: Thread, fetched: Option<Snapshot>, o: Oracle)
    requires DbOk(s, a) && ThreadOk(s, a, th) && th.writes == [] && th.main.RawInsert?
    ensures Kept(s, a, th, NextDb(a, th), NextThread(cfg, a, th, fetched, o))
  {
    TablesKeep(s, a, NextDb(a, th));
  }

  /** One commit of one thread, at any point of its life and in any good database. */
  lemma CommitKeeps(s: Setting, cfg: Config, a: Db, th: Thread, fetched: Option<Snapshot>, o: Oracle)
    requires DbOk(s, a) && ThreadOk(s, a, th) && !th.Finished()
    requires GoodAnswer(s, th, fetched) && GoodConfig(s, cfg)
    ensures Kept(s, a, th, NextDb(a, th), NextThread(cfg, a, th, fetched, o))
  {
    if th.writes != [] {
      WriteKeeps(s, a, th);
    } else {
      match th.main
      case RawInsert(_, _) => RawInsertKeeps(s, cfg, a, th, fetched, o);
      case Fetch(_) => FetchKeeps(s, cfg, a, th, fetched, o);
      case OpenInsert(_, _, _) => OpenInsertKeeps(s, cfg, a, th, fetched, o);
      case OpenRead(_, _, _, _) => OpenReadKeeps(s, cfg, a, th, fetched, o);
      case Assign(_, _, _, _) => AssignKeeps(s, cfg, a, th, fetched, o);
      case Record(_, _) => RecordKeeps(s, cfg, a, th, fetched, o);
    }
  }

  // ---------------------------------------------------- what a good database means --

  ghost predicate CarriesNumber(rows: seq<ChainAttempt>, chainKey: string, n: nat) {
    exists i :: 0 <= i < |rows| && rows[i].chainKey == chainKey && rows[i].attemptN == n
  }

  /** The numbers on a chain are exactly 1..k. */
  lemma {:induction false} NumbersAreOneToK(rows: seq<ChainAttempt>, chainKey: string, n: nat)
    requires Numbered(rows)
    ensures 1 <= n <= ChainLength(rows, chainKey) <==> CarriesNumber(rows, chainKey, n)
  {
    if rows != [] {
      var front, last := rows[..|rows| - 1], rows[|rows| - 1];
      NumbersAreOneToK(front, chainKey, n);
      assert rows[|front|] == last;
      if CarriesNumber(front, chainKey, n) {
        var i :| 0 <= i < |front| && front[i].chainKey == chainKey && front[i].attemptN == n;
        assert rows[i] == front[i];
      }
      if CarriesNumber(rows, chainKey, n) && !(last.chainKey == chainKey && last.attemptN == n) {
        var i :| 0 <= i < |rows| && rows[i].chainKey == chainKey && rows[i].attemptN == n;
        assert front[i] == rows[i];
      }
    }
  }

  /** They are given out in order, each to another payment. */
  lemma {:induction false} NumbersInOrder(rows: seq<ChainAttempt>, i: nat, j: nat)
    requires Numbered(rows) && i < j < |rows| && rows[i].chainKey == rows[j].chainKey
    ensures rows[i].attemptN < rows[j].attemptN && rows[i].paymentId != rows[j].paymentId
  {
    var front := rows[..|rows| - 1];
    assert front[i] == rows[i];
    if j < |front| {
      assert front[j] == rows[j];
      NumbersInOrder(front, i, j);
    } else {
      NumbersBounded(front, i);
    }
  }

  lemma {:induction false} NumbersBounded(rows: seq<ChainAttempt>, i: nat)
    requires Numbered(rows) && i < |rows|
    ensures 1 <= rows[i].attemptN <= ChainLength(rows, rows[i].chainKey)
  {
    if i < |rows| - 1 {
      NumbersBounded(rows[..|rows| - 1], i);
    }
  }

  /** A payment has one number in its chain. */
  lemma OneNumberPerPayment(s: Setting, rows: seq<ChainAttempt>, payment: string, n: nat, m: nat)
    requires Numbered(rows) && Attempted(s, rows, payment, n) && Attempted(s, rows, payment, m)
    ensures n == m
  {
    var i :| 0 <= i < |rows| && rows[i] == ChainAttempt(s.Chain(payment), payment, n);
    var j :| 0 <= j < |rows| && rows[j] == ChainAttempt(s.Chain(payment), payment, m);
    if i < j {
      NumbersInOrder(rows, i, j);
    } else if j < i {
      NumbersInOrder(rows, j, i);
    }
  }

  /** A number names one payment of its chain. */
  lemma OnePaymentPerNumber(s: Setting, rows: seq<ChainAttempt>, p: string, q: string, n: nat)
    requires Numbered(rows) && s.Chain(p) == s.Chain(q) && Attempted(s, rows, p, n) && Attempted(s, rows, q, n)
    ensures p == q
  {
    var i :| 0 <= i < |rows| && rows[i] == ChainAttempt(s.Chain(p), p, n);
    var j :| 0 <= j < |rows| && rows[j] == ChainAttempt(s.Chain(q), q, n);
    if i < j {
      NumbersInOrder(rows, i, j);
    } else if j < i {
      NumbersInOrder(rows, j, i);
    }
  }

  /** Exactly once: a payment has at most one decision under each policy version. */
  lemma OneDecisionPerPayment(s: Setting, db: Db, k: string, l: string)
    requires DbOk(s, db) && k in db.decisions && l in db.decisions
    requires db.decisions[k].paymentId == db.decisions[l].paymentId
    requires db.decisions[k].policyVersion == db.decisions[l].policyVersion
    ensures k == l
  {
    var d, e := db.decisions[k], db.decisions[l];
    OneNumberPerPayment(s, db.chainAttempts, d.paymentId, d.attemptN, e.attemptN);
  }

  /** The keys of the executions scheduled on one chain under one version. */
  function Executions(s: Setting, db: Db, chainKey: string, version: string): set<string> {
    set k | k in db.decisions && db.decisions[k].action == ScheduleAt && db.decisions[k].policyVersion == version
            && s.Chain(db.decisions[k].paymentId) == chainKey
  }

  /** The chain cap: whatever the decider wanted, no chain holds more scheduled executions under
      one version than the cap leaves after the original one. */
  lemma ChainCap(s: Setting, db: Db, chainKey: string, version: string)
    requires DbOk(s, db) && s.cap.Some? && s.cap.value > 0
    ensures |Executions(s, db, chainKey, version)| <= s.cap.value - 1
  {
    var keys := Executions(s, db, chainKey, version);
    var numbers := NumbersBelow(s.cap.value);
    CountBelow(s.cap.value);
    forall k | k in keys
      ensures db.decisions[k].attemptN in numbers
    {
      var d := db.decisions[k];
      var i :| 0 <= i < |db.chainAttempts|
               && db.chainAttempts[i] == ChainAttempt(s.Chain(d.paymentId), d.paymentId, d.attemptN);
      NumbersBounded(db.chainAttempts, i);
    }
    forall k, l | k in keys && l in keys && db.decisions[k].attemptN == db.decisions[l].attemptN
      ensures k == l
    {
      var d, e := db.decisions[k], db.decisions[l];
      OnePaymentPerNumber(s, db.chainAttempts, d.paymentId, e.paymentId, d.attemptN);
    }
    Pigeonhole(keys, numbers, k requires k in keys => db.decisions[k].attemptN);
  }

  /** The numbers 1..n-1. */
  function NumbersBelow(n: nat): set<nat> {
    if n <= 1 then {} else NumbersBelow(n - 1) + {n - 1}
  }

  lemma {:induction false} CountBelow(n: nat)
    requires n > 0
    ensures |NumbersBelow(n)| == n - 1
    ensures forall i: nat :: i in NumbersBelow(n) <==> 1 <= i < n
  {
    if n > 1 {
      CountBelow(n - 1);
    }
  }

  /** An injection cannot map a set into a smaller one. */
  lemma {:induction false} Pigeonhole<T(!new), U(!new)>(a: set<T>, b: set<U>, f: T --> U)
    requires forall x :: x in a ==> f.requires(x) && f(x) in b
    requires forall x, y :: x in a && y in a && f(x) == f(y) ==> x == y
    ensures |a| <= |b|
    decreases a
  {
    if a != {} {
      var x :| x in a;
      Pigeonhole(a - {x}, b - {f(x)}, f);
    }
  }
}
