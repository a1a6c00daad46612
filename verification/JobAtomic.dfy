/** Runs in which every delivery and every job is one uninterrupted step: what the event core
    promises beyond the commit-by-commit invariants when nothing comes in between. A worker may
    still die between claiming its jobs and starting them. */
module JobAtomic {
  import opened Models
  import opened Stores
  import opened Protocol
  import opened Safety
  import opened Worker

  // ---------------------------------------------------- one thread, undisturbed --

  /** Every stored decision is announced, or about to be. */
  ghost predicate Spoken(db: Db, th: Thread) {
    forall k :: k in db.decisions ==> Announced(db.audit, k) || (HasPending(th) && th.writes[0].entry.what.key == k)
  }

  ghost predicate OwnedBy(version: string, payments: set<string>, decisions: map<string, Decision>) {
    forall k :: k in decisions ==> decisions[k].policyVersion == version && decisions[k].paymentId in payments
  }

  /** Decisions carry the version in force and belong to payments the gateway knows. */
  ghost predicate Owned(version: string, payments: set<string>, db: Db, th: Thread) {
    && OwnedBy(version, payments, db.decisions)
    && match th.main
       case OpenInsert(_, p, _) => p in payments
       case OpenRead(_, p, _, _) => p in payments
       case Assign(_, p, _, _) => p in payments
       case Record(_, d) => d.paymentId in payments && d.policyVersion == version
       case _ => true
  }

  predicate NotAhead(cases: seq<Case>, caseId: nat, t: int) {
    caseId < |cases| ==> cases[caseId].lastEventCreatedAt <= t
  }

  /** Whatever a thread still means to write to a case is stamped with its own event, created at
      `t`, and the case has seen nothing later. */
  ghost predicate Timely(db: Db, th: Thread, t: int) {
    && (forall i :: 0 <= i < |th.writes| && th.writes[i].Advance? ==>
                      th.writes[i].createdAt == t && NotAhead(db.cases, th.writes[i].caseId, t))
    && match th.main
       case Fetch(row) => row.createdAt == t
       case OpenInsert(row, _, _) => row.createdAt == t
       case OpenRead(row, _, _, _) => row.createdAt == t
       case Assign(row, _, _, caseId) => row.createdAt == t && NotAhead(db.cases, caseId, t)
       case Record(row, d) => row.createdAt == t && NotAhead(db.cases, d.caseId, t)
       case _ => true
  }

  /** No case goes back in time. */
  ghost predicate Forward(a: seq<Case>, b: seq<Case>) {
    |a| <= |b| && forall i :: 0 <= i < |a| ==> a[i].lastEventCreatedAt <= b[i].lastEventCreatedAt
  }

  ghost predicate Answers(payments: set<string>, th: Thread, fetched: Option<Snapshot>) {
    th.main.Fetch? && fetched.Some? && th.main.row.entity.paymentId.Some? ==> th.main.row.entity.paymentId.value in payments
  }

  lemma StepSpoken(cfg: Config, db: Db, th: Thread, fetched: Option<Snapshot>, o: Oracle)
    requires Spoken(db, th) && !th.Finished()
    ensures Spoken(NextDb(db, th), NextThread(cfg, db, th, fetched, o))
  {
    var b, next := NextDb(db, th), NextThread(cfg, db, th, fetched, o);
    forall k | k in b.decisions
      ensures Announced(b.audit, k) || (HasPending(next) && next.writes[0].entry.what.key == k)
    {
      if k in db.decisions && Announced(db.audit, k) {
        AnnouncedGrows(db.audit, b.audit, k);
      } else if k in db.decisions {
        assert b.audit[|db.audit|] == th.writes[0].entry;
      }
    }
  }

  lemma StepOwned(cfg: Config, payments: set<string>, db: Db, th: Thread, fetched: Option<Snapshot>, o: Oracle)
    requires Owned(cfg.policyVersion, payments, db, th) && !th.Finished() && Answers(payments, th, fetched)
    ensures Owned(cfg.policyVersion, payments, NextDb(db, th), NextThread(cfg, db, th, fetched, o))
  {
  }

  lemma StepTimely(cfg: Config, db: Db, th: Thread, fetched: Option<Snapshot>, o: Oracle, t: int)
    requires Timely(db, th, t) && !th.Finished()
    ensures Timely(NextDb(db, th), NextThread(cfg, db, th, fetched, o), t)
    ensures Forward(db.cases, NextDb(db, th).cases)
  {
    if th.writes != [] {
      WriteTimely(db, th, t);
    } else if th.main.OpenRead? {
      OpenReadTimely(cfg, db, th, o, t);
    } else if th.main.Assign? {
      AssignTimely(cfg, db, th, o, t);
    }
  }

  lemma WriteTimely(db: Db, th: Thread, t: int)
    requires Timely(db, th, t) && th.writes != []
    ensures Timely(Do(db, th.writes[0]), Thread(th.writes[1..], th.main), t)
    ensures Forward(db.cases, Do(db, th.writes[0]).cases)
  {
    var rest := th.writes[1..];
    assert forall i :: 0 <= i < |rest| ==> rest[i] == th.writes[i + 1];
  }

  lemma OpenReadTimely(cfg: Config, db: Db, th: Thread, o: Oracle, t: int)
    requires Timely(db, th, t) && th.main.OpenRead?
    ensures Timely(db, AfterOpen(db, th.main.row, th.main.payment, th.main.snap, th.main.isNew, o), t)
  {
  }

  lemma AssignTimely(cfg: Config, db: Db, th: Thread, o: Oracle, t: int)
    requires Timely(db, th, t) && th.main.Assign?
    ensures forall n :: Timely(db, AfterAssign(cfg, th.main.row, th.main.payment, th.main.snap, th.main.caseId, n, o), t)
  {
  }

  /** What one undisturbed call makes of a good database. */
  ghost predicate Whole(s: Setting, version: string, payments: set<string>, db: Db) {
    && DbOk(s, db)
    && OwnedBy(version, payments, db.decisions)
    && forall k :: k in db.decisions ==> Announced(db.audit, k)
  }

  ghost predicate Moved(a: Db, b: Db) {
    Grows(a, b) && Forward(a.cases, b.cases)
  }

  /** All of the above, for a thread that runs undisturbed for an event created at `t`. */
  ghost predicate Sound(s: Setting, cfg: Config, payments: set<string>, db: Db, th: Thread, t: int) {
    && DbOk(s, db) && ThreadOk(s, db, th)
    && Spoken(db, th)
    && Owned(cfg.policyVersion, payments, db, th)
    && Timely(db, th, t)
  }

  ghost predicate GoodFetch(s: Setting, payments: set<string>, th: Thread, fetched: Option<Snapshot>) {
    GoodAnswer(s, th, fetched) && Answers(payments, th, fetched)
  }

  lemma StepSound(s: Setting, cfg: Config, payments: set<string>, db: Db, th: Thread,
                  fetched: Option<Snapshot>, o: Oracle, t: int)
    requires Sound(s, cfg, payments, db, th, t) && !th.Finished()
    requires GoodConfig(s, cfg) && GoodFetch(s, payments, th, fetched)
    ensures Sound(s, cfg, payments, NextDb(db, th), NextThread(cfg, db, th, fetched, o), t)
    ensures Moved(db, NextDb(db, th))
    ensures GoodFetch(s, payments, NextThread(cfg, db, th, fetched, o), fetched)
  {
    var b, next := NextDb(db, th), NextThread(cfg, db, th, fetched, o);
    assert Spoken(b, next) by { StepSpoken(cfg, db, th, fetched, o); }
    assert Owned(cfg.policyVersion, payments, b, next) by { StepOwned(cfg, payments, db, th, fetched, o); }
    assert Timely(b, next, t) && Forward(db.cases, b.cases) by { StepTimely(cfg, db, th, fetched, o, t); }
    assert Kept(s, db, th, b, next) by { CommitKeeps(s, cfg, db, th, fetched, o); }
    FetchIsFirst(cfg, db, th, fetched, o);
  }

  lemma FetchIsFirst(cfg: Config, db: Db, th: Thread, fetched: Option<Snapshot>, o: Oracle)
    ensures NextThread(cfg, db, th, fetched, o).main.Fetch? ==> NextThread(cfg, db, th, fetched, o).main == th.main
  {
  }

  lemma {:induction false} RunKeepsWhole(s: Setting, cfg: Config, payments: set<string>, db: Db, th: Thread,
                                         fetched: Option<Snapshot>, o: Oracle, t: int)
    requires Sound(s, cfg, payments, db, th, t)
    requires GoodConfig(s, cfg) && GoodFetch(s, payments, th, fetched)
    ensures Whole(s, cfg.policyVersion, payments, RunToEnd(cfg, db, th, fetched, o).db)
    ensures Moved(db, RunToEnd(cfg, db, th, fetched, o).db)
    decreases Rank(th.main), |th.writes|
  {
    if !th.Finished() {
      var b, next := NextDb(db, th), NextThread(cfg, db, th, fetched, o);
      StepLowersRank(cfg, db, th, fetched, o);
      StepSound(s, cfg, payments, db, th, fetched, o, t);
      RunKeepsWhole(s, cfg, payments, b, next, fetched, o, t);
      MovedTransitive(db, b, RunToEnd(cfg, b, next, fetched, o).db);
    }
  }

  lemma MovedTransitive(a: Db, b: Db, c: Db)
    requires Moved(a, b) && Moved(b, c)
    ensures Moved(a, c)
  {
    GrowsTransitive(a, b, c);
  }

  // ------------------------------------------------------------ whole calls --

  lemma IngestKeepsWhole(s: Setting, cfg: Config, payments: set<string>, db: Db, d: Delivery)
    requires Whole(s, cfg.policyVersion, payments, db) && GoodConfig(s, cfg)
    ensures Whole(s, cfg.policyVersion, payments, Ingest(cfg, db, d).db) && Moved(db, Ingest(cfg, db, d).db)
  {
    RunKeepsWhole(s, cfg, payments, db, IngestThread(cfg, d), None, NO_ORACLE, 0);
  }

  ghost predicate GatewayFits(s: Setting, payments: set<string>, entities: map<string, Snapshot>) {
    forall p :: p in entities ==> entities[p].orderId == s.orders(p) && p in payments
  }

  lemma RowKeepsWhole(s: Setting, cfg: Config, payments: set<string>, db: Db, g: GatewayState, row: Row, o: Oracle)
    requires Whole(s, cfg.policyVersion, payments, db) && GoodConfig(s, cfg) && GatewayFits(s, payments, g.entities)
    ensures var after := ProcessRow(cfg, db, row, FetchedFor(g, row), o).db;
            Whole(s, cfg.policyVersion, payments, after) && Moved(db, after)
  {
    RunKeepsWhole(s, cfg, payments, db, Thread([], Fetch(row)), FetchedFor(g, row), o, row.createdAt);
  }

  lemma {:induction false} RowsKeepWhole(s: Setting, cfg: Config, payments: set<string>, c: Core,
                                         rows: seq<Row>, os: nat -> Oracle, i: nat)
    requires Whole(s, cfg.policyVersion, payments, c.db) && GoodConfig(s, cfg)
    requires GatewayFits(s, payments, c.gateway.entities) && i <= |rows|
    ensures var after := ProcessRows(cfg, c, rows, os, i);
            && Whole(s, cfg.policyVersion, payments, after.db) && Moved(c.db, after.db)
            && after.gateway.entities == c.gateway.entities
    decreases |rows| - i
  {
    if i < |rows| {
      var next := AfterRow(cfg, c, rows[i], os(i));
      RowKeepsWhole(s, cfg, payments, c.db, c.gateway, rows[i], os(i));
      if !OutcomeOf(cfg, c, rows[i], os(i)).Raised? {
        RowsKeepWhole(s, cfg, payments, next, rows, os, i + 1);
        MovedTransitive(c.db, next.db, ProcessRows(cfg, next, rows, os, i + 1).db);
      }
    }
  }

  lemma ClaimKeepsWhole(s: Setting, version: string, payments: set<string>, db: Db,
                        limit: nat, cutoff: Option<int>, stamps: nat -> int, maxAttempts: Option<nat>)
    requires Whole(s, version, payments, db)
    ensures var after := ClaimJobs(db, limit, cutoff, stamps, maxAttempts);
            Whole(s, version, payments, after) && Moved(db, after)
  {
    JobsKeep(s, db, ClaimJobs(db, limit, cutoff, stamps, maxAttempts).jobs);
  }

  lemma PassKeepsWhole(s: Setting, cfg: Config, payments: set<string>, db: Db, g: GatewayState,
                       cutoff: int, stamps: nat -> int, os: nat -> Oracle)
    requires Whole(s, cfg.policyVersion, payments, db) && GoodConfig(s, cfg) && GatewayFits(s, payments, g.entities)
    ensures var after := ProcessPending(cfg, db, g, cutoff, stamps, os);
            && Whole(s, cfg.policyVersion, payments, after.db) && Moved(db, after.db)
            && after.gateway.entities == g.entities
  {
    var claimed := ClaimJobs(db, cfg.batchSize, Some(cutoff), stamps, Some(cfg.maxAttempts));
    var rows := Handed(db, cfg.batchSize, Some(cutoff), Some(cfg.maxAttempts));
    ClaimKeepsWhole(s, cfg.policyVersion, payments, db, cfg.batchSize, Some(cutoff), stamps, Some(cfg.maxAttempts));
    RowsKeepWhole(s, cfg, payments, Core(claimed, g, ZERO), rows, os, 0);
    MovedTransitive(db, claimed, ProcessRows(cfg, Core(claimed, g, ZERO), rows, os, 0).db);
  }

  // ------------------------------------------------------------------- runs --

  datatype World = World(db: Db, gateway: GatewayState)

  /** A delivery, a whole pass of a worker, a worker that claims and dies, or a change of mind of the
      gateway. */
  datatype Move =
    | Deliver(delivery: Delivery)
    | Pass(cutoff: int, stamps: nat -> int, oracles: nat -> Oracle)
    | Abandon(limit: nat, staleBefore: Option<int>, stamps: nat -> int, maxAttempts: Option<nat>)
    | Change(gateway: GatewayState)

  function Act(cfg: Config, w: World, m: Move): World {
    match m
    case Deliver(delivery) => World(Ingest(cfg, w.db, delivery).db, w.gateway)
    case Pass(cutoff, stamps, oracles) =>
      var after := ProcessPending(cfg, w.db, w.gateway, cutoff, stamps, oracles);
      World(after.db, after.gateway)
    case Abandon(limit, staleBefore, stamps, maxAttempts) =>
      World(ClaimJobs(w.db, limit, staleBefore, stamps, maxAttempts), w.gateway)
    case Change(gateway) => World(w.db, gateway)
  }

  function Moves(cfg: Config, w: World, ms: seq<Move>): World
    decreases ms
  {
    if ms == [] then w else Moves(cfg, Act(cfg, w, ms[0]), ms[1..])
  }

  ghost predicate FitMove(s: Setting, payments: set<string>, m: Move) {
    m.Change? ==> GatewayFits(s, payments, m.gateway.entities)
  }

  ghost predicate FitMoves(s: Setting, payments: set<string>, ms: seq<Move>) {
    forall i :: 0 <= i < |ms| ==> FitMove(s, payments, ms[i])
  }

  ghost predicate WorldOk(s: Setting, cfg: Config, payments: set<string>, w: World) {
    Whole(s, cfg.policyVersion, payments, w.db) && GatewayFits(s, payments, w.gateway.entities)
  }

  lemma MoveKeeps(s: Setting, cfg: Config, payments: set<string>, w: World, m: Move)
    requires WorldOk(s, cfg, payments, w) && GoodConfig(s, cfg) && FitMove(s, payments, m)
    ensures WorldOk(s, cfg, payments, Act(cfg, w, m)) && Moved(w.db, Act(cfg, w, m).db)
  {
    match m
    case Deliver(delivery) => IngestKeepsWhole(s, cfg, payments, w.db, delivery);
    case Pass(cutoff, stamps, oracles) => PassKeepsWhole(s, cfg, payments, w.db, w.gateway, cutoff, stamps, oracles);
    case Abandon(limit, staleBefore, stamps, maxAttempts) =>
      ClaimKeepsWhole(s, cfg.policyVersion, payments, w.db, limit, staleBefore, stamps, maxAttempts);
    case Change(gateway) =>
  }

  lemma {:induction false} MovesKeep(s: Setting, cfg: Config, payments: set<string>, w: World, ms: seq<Move>)
    requires WorldOk(s, cfg, payments, w) && GoodConfig(s, cfg) && FitMoves(s, payments, ms)
    ensures WorldOk(s, cfg, payments, Moves(cfg, w, ms)) && Moved(w.db, Moves(cfg, w, ms).db)
    decreases ms
  {
    if ms != [] {
      MoveKeeps(s, cfg, payments, w, ms[0]);
      MovesKeep(s, cfg, payments, Act(cfg, w, ms[0]), ms[1..]);
      MovedTransitive(w.db, Act(cfg, w, ms[0]).db, Moves(cfg, w, ms).db);
    }
  }

  // --------------------------------------------------------------- theorems --

  /** No regression: a case's last event never moves back, at whatever two moments one looks. */
  lemma CasesNeverRegress(s: Setting, cfg: Config, payments: set<string>, g: GatewayState,
                          ms: seq<Move>, more: seq<Move>)
    requires GoodConfig(s, cfg) && GatewayFits(s, payments, g.entities)
    requires FitMoves(s, payments, ms) && FitMoves(s, payments, more)
    ensures var early := Moves(cfg, World(EMPTY_DB, g), ms);
            Forward(early.db.cases, Moves(cfg, early, more).db.cases)
  {
    MovesKeep(s, cfg, payments, World(EMPTY_DB, g), ms);
    MovesKeep(s, cfg, payments, Moves(cfg, World(EMPTY_DB, g), ms), more);
  }

  function Announcements(audit: seq<AuditEvent>): nat {
    if audit == [] then 0 else
    Announcements(audit[..|audit| - 1]) + if audit[|audit| - 1].what.DecisionRecorded? then 1 else 0
  }

  function AnnouncedKeys(audit: seq<AuditEvent>): set<string> {
    set i | 0 <= i < |audit| && audit[i].what.DecisionRecorded? :: audit[i].what.key
  }

  lemma KeysAppend(audit: seq<AuditEvent>, e: AuditEvent)
    ensures AnnouncedKeys(audit + [e]) == AnnouncedKeys(audit) + if e.what.DecisionRecorded? then {e.what.key} else {}
  {
    var longer := audit + [e];
    forall k | k in AnnouncedKeys(audit)
      ensures k in AnnouncedKeys(longer)
    {
      var i :| 0 <= i < |audit| && audit[i].what.DecisionRecorded? && audit[i].what.key == k;
      assert longer[i] == audit[i];
    }
    if e.what.DecisionRecorded? {
      assert longer[|audit|] == e;
    }
  }

  lemma {:induction false} AnnouncementsCountKeys(audit: seq<AuditEvent>)
    requires AnnouncedOnce(audit)
    ensures Announcements(audit) == |AnnouncedKeys(audit)|
  {
    if audit != [] {
      var front, last := audit[..|audit| - 1], audit[|audit| - 1];
      AnnouncementsCountKeys(front);
      assert audit == front + [last];
      KeysAppend(front, last);
    }
  }

  lemma WholeIsAudited(s: Setting, version: string, payments: set<string>, db: Db)
    requires Whole(s, version, payments, db)
    ensures AnnouncedKeys(db.audit) == db.decisions.Keys
    ensures Announcements(db.audit) == |db.decisions|
  {
    AnnouncementsCountKeys(db.audit);
    forall k | k in AnnouncedKeys(db.audit)
      ensures k in db.decisions
    {
      var i :| 0 <= i < |db.audit| && db.audit[i].what.DecisionRecorded? && db.audit[i].what.key == k;
      assert Explained(s, db, i);
    }
    forall k | k in db.decisions
      ensures k in AnnouncedKeys(db.audit)
    {
      var i :| 0 <= i < |db.audit| && db.audit[i].what.DecisionRecorded? && db.audit[i].what.key == k;
    }
    assert AnnouncedKeys(db.audit) == db.decisions.Keys;
  }

  /** In every run the announcements are one to one with the decisions, and each is explained by
      earlier entries of its event. */
  lemma TrailMatchesDecisions(s: Setting, cfg: Config, payments: set<string>, g: GatewayState, ms: seq<Move>)
    requires GoodConfig(s, cfg) && GatewayFits(s, payments, g.entities) && FitMoves(s, payments, ms)
    ensures var db := Moves(cfg, World(EMPTY_DB, g), ms).db;
            && Announcements(db.audit) == |db.decisions|
            && AnnouncedKeys(db.audit) == db.decisions.Keys
            && TrailOk(s, db) && AnnouncedOnce(db.audit)
  {
    MovesKeep(s, cfg, payments, World(EMPTY_DB, g), ms);
    WholeIsAudited(s, cfg.policyVersion, payments, Moves(cfg, World(EMPTY_DB, g), ms).db);
  }
}
