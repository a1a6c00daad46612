/** Redelivery erasure: at-least-once delivery leaves no mark outside the audit trail. */
module Redelivery {
  import opened Models
  import opened Stores
  import opened Protocol
  import opened Worker
  import opened JobAtomic

  /** Everything but the audit trail. */
  function Tables(db: Db): Db {
    db.(audit := [])
  }

  // ------------------------------------------------- nothing reads the trail --

  lemma {:induction false} SameInsertByAge(a: Db, b: Db, rows: seq<nat>, row: nat)
    requires Tables(a) == Tables(b)
    ensures InsertByAge(a, rows, row) == InsertByAge(b, rows, row)
  {
    assert CreatedAt(a, row) == CreatedAt(b, row);
    if rows != [] {
      assert CreatedAt(a, rows[|rows| - 1]) == CreatedAt(b, rows[|rows| - 1]);
      SameInsertByAge(a, b, rows[..|rows| - 1], row);
    }
  }

  lemma {:induction false} SameByAge(a: Db, b: Db, rows: seq<nat>)
    requires Tables(a) == Tables(b)
    ensures ByAge(a, rows) == ByAge(b, rows)
  {
    if rows != [] {
      SameByAge(a, b, rows[..|rows| - 1]);
      SameInsertByAge(a, b, ByAge(a, rows[..|rows| - 1]), rows[|rows| - 1]);
    }
  }

  lemma SameClaim(a: Db, b: Db, limit: nat, cutoff: Option<int>, stamps: nat -> int, maxAttempts: Option<nat>)
    requires Tables(a) == Tables(b)
    ensures Tables(ClaimJobs(a, limit, cutoff, stamps, maxAttempts))
            == Tables(ClaimJobs(b, limit, cutoff, stamps, maxAttempts))
    ensures Handed(a, limit, cutoff, maxAttempts) == Handed(b, limit, cutoff, maxAttempts)
  {
    var x, y := AfterFailing(a, maxAttempts), AfterFailing(b, maxAttempts);
    SameByAge(x, y, ClaimableRows(x.jobs, cutoff, |x.jobs|));
    var rows := ClaimedRows(x, cutoff, limit);
    assert forall i :: 0 <= i < |rows| ==> RowOf(x, rows[i]) == RowOf(y, rows[i]);
  }

  /** The tables after a commit are those of the same commit without the trail. */
  lemma TablesAfterWrite(db: Db, w: Write)
    ensures Tables(Do(db, w)) == Tables(Do(Tables(db), w))
  {
  }

  lemma TablesAfterMain(db: Db, th: Thread)
    requires th.writes == []
    ensures Tables(NextDb(db, th)) == Tables(NextDb(Tables(db), th))
  {
    match th.main
    case OpenInsert(row, payment, snap) =>
      TablesAfterInsert(db, ChainKey(snap.orderId, payment), OrderOf(snap.orderId), payment, row.createdAt);
    case Assign(_, payment, snap, _) => TablesAfterAssign(db, ChainKey(snap.orderId, payment), payment);
    case _ =>
  }

  lemma TablesAfterInsert(db: Db, chain: string, orderId: Option<string>, payment: string, createdAt: int)
    ensures Tables(InsertCase(db, chain, orderId, payment, createdAt))
            == Tables(InsertCase(Tables(db), chain, orderId, payment, createdAt))
  {
  }

  lemma TablesAfterAssign(db: Db, chain: string, payment: string)
    ensures Tables(AssignAttempt(db, chain, payment)) == Tables(AssignAttempt(Tables(db), chain, payment))
  {
  }

  lemma SameNextDb(a: Db, b: Db, th: Thread)
    requires Tables(a) == Tables(b)
    ensures Tables(NextDb(a, th)) == Tables(NextDb(b, th))
  {
    if th.writes != [] {
      TablesAfterWrite(a, th.writes[0]);
      TablesAfterWrite(b, th.writes[0]);
    } else {
      TablesAfterMain(a, th);
      TablesAfterMain(b, th);
    }
  }

  lemma SameNextThread(cfg: Config, a: Db, b: Db, th: Thread, fetched: Option<Snapshot>, o: Oracle)
    requires Tables(a) == Tables(b)
    ensures NextThread(cfg, a, th, fetched, o) == NextThread(cfg, b, th, fetched, o)
  {
    if th.writes == [] {
      match th.main
      case OpenRead(row, payment, snap, isNew) =>
        assert AfterOpen(a, row, payment, snap, isNew, o) == AfterOpen(b, row, payment, snap, isNew, o);
      case Assign(_, payment, snap, _) =>
        var chain := ChainKey(snap.orderId, payment);
        assert AttemptN(a, chain, payment) == AttemptN(b, chain, payment);
      case _ =>
    }
  }

  lemma {:induction false} SameRun(cfg: Config, a: Db, b: Db, th: Thread, fetched: Option<Snapshot>, o: Oracle)
    requires Tables(a) == Tables(b)
    ensures Tables(RunToEnd(cfg, a, th, fetched, o).db) == Tables(RunToEnd(cfg, b, th, fetched, o).db)
    ensures RunToEnd(cfg, a, th, fetched, o).outcome == RunToEnd(cfg, b, th, fetched, o).outcome
    decreases Rank(th.main), |th.writes|
  {
    if !th.Finished() {
      StepLowersRank(cfg, a, th, fetched, o);
      SameNextDb(a, b, th);
      SameNextThread(cfg, a, b, th, fetched, o);
      SameRun(cfg, NextDb(a, th), NextDb(b, th), NextThread(cfg, a, th, fetched, o), fetched, o);
    }
  }

  lemma {:induction false} SameRows(cfg: Config, c: Core, d: Core, rows: seq<Row>, os: nat -> Oracle, i: nat)
    requires Tables(c.db) == Tables(d.db) && c.gateway == d.gateway && i <= |rows|
    ensures var x, y := ProcessRows(cfg, c, rows, os, i), ProcessRows(cfg, d, rows, os, i);
            Tables(x.db) == Tables(y.db) && x.gateway == y.gateway
    decreases |rows| - i
  {
    if i < |rows| {
      SameRun(cfg, c.db, d.db, Thread([], Fetch(rows[i])), FetchedFor(c.gateway, rows[i]), os(i));
      if !OutcomeOf(cfg, c, rows[i], os(i)).Raised? {
        SameRows(cfg, AfterRow(cfg, c, rows[i], os(i)), AfterRow(cfg, d, rows[i], os(i)), rows, os, i + 1);
      }
    }
  }

  lemma SamePass(cfg: Config, a: Db, b: Db, g: GatewayState, cutoff: int, stamps: nat -> int, os: nat -> Oracle)
    requires Tables(a) == Tables(b)
    ensures var x, y := ProcessPending(cfg, a, g, cutoff, stamps, os), ProcessPending(cfg, b, g, cutoff, stamps, os);
            Tables(x.db) == Tables(y.db) && x.gateway == y.gateway
  {
    SameClaim(a, b, cfg.batchSize, Some(cutoff), stamps, Some(cfg.maxAttempts));
    SameRows(cfg, Core(ClaimJobs(a, cfg.batchSize, Some(cutoff), stamps, Some(cfg.maxAttempts)), g, ZERO),
             Core(ClaimJobs(b, cfg.batchSize, Some(cutoff), stamps, Some(cfg.maxAttempts)), g, ZERO),
             Handed(a, cfg.batchSize, Some(cutoff), Some(cfg.maxAttempts)), os, 0);
  }

  ghost predicate Alike(w: World, v: World) {
    Tables(w.db) == Tables(v.db) && w.gateway == v.gateway
  }

  lemma SameMove(cfg: Config, w: World, v: World, m: Move)
    requires Alike(w, v)
    ensures Alike(Act(cfg, w, m), Act(cfg, v, m))
  {
    match m
    case Deliver(delivery) => SameRun(cfg, w.db, v.db, IngestThread(cfg, delivery), None, NO_ORACLE);
    case Pass(cutoff, stamps, oracles) => SamePass(cfg, w.db, v.db, w.gateway, cutoff, stamps, oracles);
    case Abandon(limit, staleBefore, stamps, maxAttempts) => SameClaim(w.db, v.db, limit, staleBefore, stamps, maxAttempts);
    case Change(gateway) =>
  }

  // -------------------------------------------------------- what ingest stores --

  predicate WellFormed(cfg: Config, d: Delivery) {
    && d.eventIdHeader.Some? && d.eventIdHeader.value != "" && d.event != "" && d.createdAt.Some?
    && d.event in cfg.acceptedEvents && d.entity.errorReason !in cfg.filteredReasons
  }

  predicate FirstOfItsId(db: Db, d: Delivery) {
    d.eventIdHeader.Some? && d.eventIdHeader.value !in db.rawEvents
  }

  /** Ingest stores a raw event and a job for the first well-formed delivery of an event id, and
      otherwise nothing but trail entries. */
  lemma IngestStores(cfg: Config, db: Db, d: Delivery)
    ensures Tables(Ingest(cfg, db, d).db) ==
            if WellFormed(cfg, d) && FirstOfItsId(db, d)
            then var id := d.eventIdHeader.value;
                 Tables(EnqueueJob(RecordRawEvent(db, id, RawEvent(d.event, d.createdAt.value, d.entity)), id))
            else Tables(db)
    ensures Ingest(cfg, db, d).outcome == Accepted <==> WellFormed(cfg, d) && FirstOfItsId(db, d)
  {
    var th := IngestThread(cfg, d);
    if th.main.RawInsert? {
      if d.entity.nestedError {
        RunFirstWrite(cfg, db, th, None, NO_ORACLE);
      }
      var shaped := if d.entity.nestedError then Do(db, th.writes[0]) else db;
      StoreRaw(cfg, shaped, th.main.eventId, th.main.raw);
    } else {
      AuditsOnly(cfg, db, th, None, NO_ORACLE);
    }
  }

  lemma StoreRaw(cfg: Config, db: Db, id: string, raw: RawEvent)
    ensures var r := RunToEnd(cfg, db, Thread([], RawInsert(id, raw)), None, NO_ORACLE);
            && Tables(r.db) == (if id in db.rawEvents then Tables(db)
                                else Tables(EnqueueJob(RecordRawEvent(db, id, raw), id)))
            && (r.outcome == Accepted <==> id !in db.rawEvents)
  {
    RunMain(cfg, db, Thread([], RawInsert(id, raw)), None, NO_ORACLE);
    if id in db.rawEvents {
      RunWrites1(cfg, db, AfterRaw(db, id), None, NO_ORACLE);
    } else {
      RunWrites2(cfg, RecordRawEvent(db, id, raw), AfterRaw(db, id), None, NO_ORACLE);
    }
  }

  /** Trail entries at the head of a thread leave no other mark. */
  lemma {:induction false} AuditsOnly(cfg: Config, db: Db, th: Thread, fetched: Option<Snapshot>, o: Oracle)
    requires forall i :: 0 <= i < |th.writes| ==> th.writes[i].Audit?
    ensures var r, quiet := RunToEnd(cfg, db, th, fetched, o), RunToEnd(cfg, db, Thread([], th.main), fetched, o);
            Tables(r.db) == Tables(quiet.db) && r.outcome == quiet.outcome
    decreases |th.writes|
  {
    if th.writes == [] {
      assert th == Thread([], th.main);
    } else {
      RunFirstWrite(cfg, db, th, fetched, o);
      AuditsOnly(cfg, Do(db, th.writes[0]), Thread(th.writes[1..], th.main), fetched, o);
      SameRun(cfg, db, Do(db, th.writes[0]), Thread([], th.main), fetched, o);
    }
  }

  // ------------------------------------------------------------------ the theorem --

  predicate IsRedelivery(w: World, m: Move) {
    m.Deliver? && m.delivery.eventIdHeader.Some? && m.delivery.eventIdHeader.value in w.db.rawEvents
  }

  /** `ns` is `ms` with some deliveries of already stored event ids taken out. */
  ghost predicate Thinned(cfg: Config, w: World, ms: seq<Move>, ns: seq<Move>)
    decreases ms
  {
    if ms == [] then ns == [] else
    || (IsRedelivery(w, ms[0]) && Thinned(cfg, Act(cfg, w, ms[0]), ms[1..], ns))
    || (ns != [] && ns[0] == ms[0] && Thinned(cfg, Act(cfg, w, ms[0]), ms[1..], ns[1..]))
  }

  /** Redeliveries can be erased from any run, from any database: every table but the trail, and the
      gateway, end up the same. A redelivery may even carry another payload or another event name. */
  lemma {:induction false} RedeliveriesLeaveNoMark(cfg: Config, w: World, v: World, ms: seq<Move>, ns: seq<Move>)
    requires Alike(w, v) && Thinned(cfg, w, ms, ns)
    ensures Alike(Moves(cfg, w, ms), Moves(cfg, v, ns))
    decreases ms
  {
    if ms != [] {
      var next := Act(cfg, w, ms[0]);
      if IsRedelivery(w, ms[0]) && Thinned(cfg, next, ms[1..], ns) {
        IngestStores(cfg, w.db, ms[0].delivery);
        RedeliveriesLeaveNoMark(cfg, next, v, ms[1..], ns);
      } else {
        SameMove(cfg, w, v, ms[0]);
        RedeliveriesLeaveNoMark(cfg, next, Act(cfg, v, ms[0]), ms[1..], ns[1..]);
      }
    }
  }
}
