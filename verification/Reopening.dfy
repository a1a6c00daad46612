/** A run that reopens a closed case: two payments of one order, the first of which was captured. */
module Reopening {
  import opened Models
  import opened Stores
  import opened Protocol
  import opened Worker
  import opened JobAtomic
  import opened Redelivery
  import opened JobOutcome

  const PLAIN := Config({"payment.failed"}, {}, true, "v1", None, 10, 3)
  const ORDER := Some("order_1")
  const FIRST := Entity(Some("pay_1"), "", false)
  const SECOND := Entity(Some("pay_2"), "", false)
  const ANSWERS := GatewayState(
    map["pay_1" := Snapshot(Captured, ORDER, None, None), "pay_2" := Snapshot(PaymentStatus.Failed, ORDER, None, None)],
    0, false)

  function Failure(id: string, createdAt: int, entity: Entity): Move {
    Move.Deliver(Delivery(Some(id), "payment.failed", Some(createdAt), entity))
  }

  function Raw(createdAt: int, entity: Entity): RawEvent {
    RawEvent("payment.failed", createdAt, entity)
  }

  const HOLDS := Oracle([], Hold, "", None, 0)
  const A_PASS := Pass(0, k => 1, k => HOLDS)

  /** The event of the first payment is processed, then that of the second. */
  const CLOSING := [Failure("evt_1", 5, FIRST), A_PASS]
  const REOPENING := [Failure("evt_2", 6, SECOND), A_PASS]

  const CLOSED := Case("order_1", ORDER, "pay_1", ClosedPaymentResolved, 5)

  lemma Delivering(w: World, id: string, createdAt: int, entity: Entity)
    requires id != "" && entity.errorReason == "" && id !in w.db.rawEvents && !HasJob(w.db.jobs, id)
    ensures var after := Act(PLAIN, w, Failure(id, createdAt, entity));
            && Tables(after.db) == Tables(w.db).(rawEvents := w.db.rawEvents[id := Raw(createdAt, entity)],
                                                 jobs := w.db.jobs + [Job(id, Pending, 0, None)])
            && after.gateway == w.gateway
  {
    IngestStores(PLAIN, w.db, Failure(id, createdAt, entity).delivery);
  }

  /** A pass that claims one row does what the job of that row does. */
  lemma PassOfOne(w: World, row: Row)
    requires Handed(w.db, 10, Some(0), Some(3)) == [row]
    ensures var after := Act(PLAIN, w, A_PASS);
            && Tables(after.db) == Tables(JobEffect(PLAIN, ClaimJobs(w.db, 10, Some(0), A_PASS.stamps, Some(3)), row,
                                                    FetchedFor(w.gateway, row), HOLDS).db)
            && after.gateway == GatewayAfter(w.gateway, row)
  {
    var claimed := ClaimJobs(w.db, 10, Some(0), A_PASS.stamps, Some(3));
    var c := Core(claimed, w.gateway, ZERO);
    JobRefines(PLAIN, claimed, row, FetchedFor(w.gateway, row), HOLDS);
    var next := AfterRow(PLAIN, c, row, HOLDS);
    assert ProcessRows(PLAIN, next, [row], A_PASS.oracles, 1) == next;
    assert ProcessRows(PLAIN, c, [row], A_PASS.oracles, 0) == next;
  }

  lemma MovesTwo(cfg: Config, w: World, a: Move, b: Move)
    ensures Moves(cfg, w, [a, b]) == Act(cfg, Act(cfg, w, a), b)
  {
    assert [a, b][1..] == [b] && [b][1..] == [];
    assert Moves(cfg, Act(cfg, w, a), [b]) == Moves(cfg, Act(cfg, Act(cfg, w, a), b), []);
  }

  const ROW_1 := Row(0, "evt_1", 5, FIRST)
  const ROW_2 := Row(1, "evt_2", 6, SECOND)

  lemma ClaimsFirst(db: Db)
    requires db.jobs == [Job("evt_1", Pending, 0, None)] && db.rawEvents == map["evt_1" := Raw(5, FIRST)]
    ensures Handed(db, 10, Some(0), Some(3)) == [ROW_1]
    ensures ClaimJobs(db, 10, Some(0), A_PASS.stamps, Some(3)) == db.(jobs := [Job("evt_1", Claimed, 1, Some(1))])
  {
    assert AfterFailing(db, Some(3)) == db;
    assert ClaimableRows(db.jobs, Some(0), 1) == [0];
    assert ByAge(db, [0]) == [0];
    assert ClaimedRows(db, Some(0), 10) == [0];
    assert [0][..0] == [];
    assert MarkAllClaimed(db.jobs, [0], A_PASS.stamps) == MarkClaimed(MarkAllClaimed(db.jobs, [], A_PASS.stamps), 0, 1);
  }

  lemma ClaimsSecond(db: Db)
    requires db.jobs == [Job("evt_1", Done, 1, Some(1)), Job("evt_2", Pending, 0, None)]
    requires "evt_2" in db.rawEvents && db.rawEvents["evt_2"] == Raw(6, SECOND)
    ensures Handed(db, 10, Some(0), Some(3)) == [ROW_2]
  {
    assert AfterFailing(db, Some(3)) == db;
    assert ClaimableRows(db.jobs, Some(0), 1) == [];
    assert ClaimableRows(db.jobs, Some(0), 2) == [1];
    assert ByAge(db, [1]) == [1];
    assert ClaimedRows(db, Some(0), 10) == [1];
  }

  lemma JobCloses(db: Db)
    requires db.cases == [] && |db.jobs| == 1
    ensures JobEffect(PLAIN, db, ROW_1, Some(ANSWERS.entities["pay_1"]), HOLDS).db
            == db.(cases := [CLOSED], jobs := [db.jobs[0].(state := Done)])
  {
    assert InsertCase(db, "order_1", ORDER, "pay_1", 5).cases == [CLOSED.(state := Open)];
  }

  lemma JobReopens(db: Db)
    requires db.cases == [CLOSED] && db.chainAttempts == [] && db.decisions == map[]
    ensures JobEffect(PLAIN, db, ROW_2, Some(ANSWERS.entities["pay_2"]), HOLDS).db.cases
            == [CLOSED.(state := Decided, lastEventCreatedAt := 6)]
  {
    assert InsertCase(db, "order_1", ORDER, "pay_2", 6) == db;
  }

  lemma ClosingCloses() returns (w: World)
    ensures w == Moves(PLAIN, World(EMPTY_DB, ANSWERS), CLOSING)
    ensures w.db.cases == [CLOSED] && w.db.chainAttempts == [] && w.db.decisions == map[]
    ensures w.db.rawEvents == map["evt_1" := Raw(5, FIRST)] && w.db.jobs == [Job("evt_1", Done, 1, Some(1))]
    ensures w.gateway == ANSWERS.(fetchCount := 1)
  {
    var start := World(EMPTY_DB, ANSWERS);
    Delivering(start, "evt_1", 5, FIRST);
    var given := Act(PLAIN, start, CLOSING[0]);
    ClaimsFirst(given.db);
    PassOfOne(given, ROW_1);
    JobCloses(given.db.(jobs := [Job("evt_1", Claimed, 1, Some(1))]));
    MovesTwo(PLAIN, start, CLOSING[0], CLOSING[1]);
    w := Act(PLAIN, given, CLOSING[1]);
  }

  /** The first payment closes the case of the order, and the second makes it DECIDED again. */
  lemma ReopeningReopens()
    ensures var closed := Moves(PLAIN, World(EMPTY_DB, ANSWERS), CLOSING);
            var reopened := Moves(PLAIN, closed, REOPENING);
            && closed.db.cases == [CLOSED]
            && reopened.db.cases == [CLOSED.(state := Decided, lastEventCreatedAt := 6)]
  {
    var w := ClosingCloses();
    Delivering(w, "evt_2", 6, SECOND);
    var given := Act(PLAIN, w, REOPENING[0]);
    ClaimsSecond(given.db);
    PassOfOne(given, ROW_2);
    JobReopens(ClaimJobs(given.db, 10, Some(0), A_PASS.stamps, Some(3)));
    MovesTwo(PLAIN, w, REOPENING[0], REOPENING[1]);
  }
}
