/** Fragments of runs, to show states that an interleaving does reach: one payment on no order, workers
    without a guard, and a decider that always holds. */
module Schedules {
  import opened Models
  import opened Stores
  import opened Guards
  import opened Protocol
  import opened Safety
  import opened Interleaving
  import Progress

  const ONE_PAYMENT := Setting(payment => None, None)
  const UNGUARDED := Config({"payment.failed"}, {}, true, "v1", None, 10, 3)
  const BODY := Entity(Some("pay_1"), "", false)
  const HOLDING := Oracle([], Hold, "", None, 0)
  const SEVEN: nat -> int := k => 7

  function Paid(status: PaymentStatus): Snapshot {
    Snapshot(status, None, None, None)
  }

  function Commits(p: nat, n: nat): seq<Choice> {
    if n == 0 then [] else Commits(p, n - 1) + [Commit(p, false, HOLDING)]
  }

  /** An event of the payment is delivered, in three commits. */
  function Arrival(p: nat, id: string, createdAt: int): seq<Choice> {
    [Deliver(p, UNGUARDED, Delivery(Some(id), "payment.failed", Some(createdAt), BODY))] + Commits(p, 3)
  }

  /** A worker claims what is pending and starts on the first row. */
  function PickUp(p: nat): seq<Choice> {
    [Claim(p, UNGUARDED, None, SEVEN, Some(3)), StartRow(p)]
  }

  lemma {:induction false} RunFromJoins(s: Setting, sys: System, a: seq<Choice>, b: seq<Choice>)
    ensures RunFrom(s, sys, a + b) == RunFrom(s, RunFrom(s, sys, a), b)
  {
    if b == [] {
      assert a + b == a;
    } else {
      var n := |b| - 1;
      RunFromJoins(s, sys, a, b[..n]);
      assert (a + b)[..|a + b| - 1] == a + b[..n];
    }
  }

  lemma RunFromOne(s: Setting, sys: System, a: Choice)
    ensures RunFrom(s, sys, [a]) == Step(s, sys, a)
  {
    assert [a][..0] == [];
    assert RunFrom(s, sys, []) == sys;
  }

  lemma RunFromTwo(s: Setting, sys: System, a: Choice, b: Choice)
    ensures RunFrom(s, sys, [a, b]) == Step(s, Step(s, sys, a), b)
  {
    RunFromOne(s, sys, a);
    assert [a, b][..1] == [a];
  }

  // -------------------------------------------------------- commits of one process --

  /** Where one process stands: the tables, what is left of its call, what the gateway answers. */
  datatype Standing = Standing(db: Db, th: Thread, snap: Snapshot)
  {
    function Next(): Standing {
      Standing(NextDb(db, th), NextThread(UNGUARDED, db, th, Some(snap), HOLDING), snap)
    }

    function After(n: nat): Standing {
      if n == 0 then this else After(n - 1).Next()
    }
  }

  ghost predicate At(sys: System, p: nat, at: Standing) {
    && sys.db == at.db && sys.gateway == map["pay_1" := at.snap] && p in sys.processes
    && sys.processes[p].cfg == UNGUARDED && sys.processes[p].current == Some(at.th)
  }

  ghost predicate AsksFor(th: Thread) {
    !th.Finished() && (th.main.Fetch? ==> Asked(th) == "pay_1")
  }

  /** The other processes are as they were. */
  ghost predicate OnlySet(sys: System, before: System, p: nat) {
    p in sys.processes && sys.processes == before.processes[p := sys.processes[p]]
  }

  ghost predicate Reached(sys: System, before: System, p: nat, at: Standing) {
    At(sys, p, at) && OnlySet(sys, before, p)
  }

  lemma {:induction false} CommitsAdvance(sys: System, p: nat, at: Standing, n: nat)
    requires At(sys, p, at) && forall k: nat :: k < n ==> AsksFor(at.After(k).th)
    ensures Reached(RunFrom(ONE_PAYMENT, sys, Commits(p, n)), sys, p, at.After(n))
  {
    if n > 0 {
      CommitsAdvance(sys, p, at, n - 1);
      OneMoreCommit(sys, p, n);
      CommitAdvances(RunFrom(ONE_PAYMENT, sys, Commits(p, n - 1)), sys, p, at.After(n - 1));
    }
  }

  lemma OneMoreCommit(sys: System, p: nat, n: nat)
    requires n > 0
    ensures RunFrom(ONE_PAYMENT, sys, Commits(p, n))
            == Step(ONE_PAYMENT, RunFrom(ONE_PAYMENT, sys, Commits(p, n - 1)), Commit(p, false, HOLDING))
  {
    assert Commits(p, n)[..|Commits(p, n)| - 1] == Commits(p, n - 1);
  }

  lemma CommitAdvances(sys: System, before: System, p: nat, at: Standing)
    requires Reached(sys, before, p, at) && AsksFor(at.th)
    ensures Reached(Step(ONE_PAYMENT, sys, Commit(p, false, HOLDING)), before, p, at.Next())
  {
  }

  // ---------------------------------------------------------------- an arrival --

  function Raw(createdAt: int): RawEvent {
    RawEvent("payment.failed", createdAt, BODY)
  }

  /** The tables after a new event arrived. */
  function Stored(db: Db, id: string, createdAt: int): Db {
    db.(rawEvents := db.rawEvents[id := Raw(createdAt)], jobs := db.jobs + [Job(id, JobState.Pending, 0, None)],
        audit := db.audit + [AuditEvent(None, Some(id), WebhookReceived)])
  }

  lemma DeliveryCommits(at: Standing, id: string, createdAt: int)
    requires at.th == Thread([], RawInsert(id, Raw(createdAt))) && id !in at.db.rawEvents && !HasJob(at.db.jobs, id)
    ensures forall k: nat :: k < 3 ==> AsksFor(at.After(k).th)
    ensures at.After(3) == Standing(Stored(at.db, id, createdAt), Thread([], Halt(Accepted)), at.snap)
  {
    var received := Entry(None, id, WebhookReceived);
    assert at.After(1) == Standing(at.db.(rawEvents := at.db.rawEvents[id := Raw(createdAt)]),
                                   Thread([received, Enqueue(id)], Halt(Accepted)), at.snap);
    assert at.After(2).th == Thread([Enqueue(id)], Halt(Accepted));
    assert at.After(2).db == at.After(1).db.(audit := at.db.audit + [received.entry]);
  }

  lemma Arrives(sys: System, p: nat, id: string, createdAt: int, snap: Snapshot) returns (t: System)
    requires id != "" && id !in sys.db.rawEvents && !HasJob(sys.db.jobs, id)
    requires p !in sys.processes && sys.gateway == map["pay_1" := snap]
    ensures t == RunFrom(ONE_PAYMENT, sys, Arrival(p, id, createdAt))
    ensures t.db == Stored(sys.db, id, createdAt) && t.gateway == sys.gateway && OnlySet(t, sys, p)
  {
    var deliver := Deliver(p, UNGUARDED, Delivery(Some(id), "payment.failed", Some(createdAt), BODY));
    var arrived := Step(ONE_PAYMENT, sys, deliver);
    RunFromOne(ONE_PAYMENT, sys, deliver);
    RunFromJoins(ONE_PAYMENT, sys, [deliver], Commits(p, 3));
    var at := Standing(sys.db, Thread([], RawInsert(id, Raw(createdAt))), snap);
    DeliveryCommits(at, id, createdAt);
    CommitsAdvance(arrived, p, at, 3);
    t := RunFrom(ONE_PAYMENT, arrived, Commits(p, 3));
  }

  // ---------------------------------------------------------------- a pick-up --

  /** Only the last job is waiting, and no claim is used up. */
  predicate LastWaits(jobs: seq<Job>) {
    && jobs != [] && jobs[|jobs| - 1].state == JobState.Pending
    && forall i :: 0 <= i < |jobs| ==> jobs[i].attempts < 3 && (i < |jobs| - 1 ==> jobs[i].state != JobState.Pending)
  }

  lemma {:induction false} NothingWaits(jobs: seq<Job>, n: nat)
    requires n <= |jobs| && forall i :: 0 <= i < n ==> jobs[i].state != JobState.Pending
    ensures ClaimableRows(jobs, None, n) == []
  {
    if n > 0 {
      NothingWaits(jobs, n - 1);
    }
  }

  function Last(db: Db): nat {
    if db.jobs == [] then 0 else |db.jobs| - 1
  }

  function Marking(db: Db): Db {
    if db.jobs == [] then db else db.(jobs := db.jobs[Last(db) := Marked(db.jobs[Last(db)], 7)])
  }

  lemma LastIsTaken(db: Db)
    requires LastWaits(db.jobs)
    ensures ClaimedRows(db, None, 10) == [Last(db)]
  {
    NothingWaits(db.jobs, Last(db));
    assert ClaimableRows(db.jobs, None, |db.jobs|) == [Last(db)];
    Progress.SingleRow(db, Last(db), 10);
  }

  lemma NothingFails(db: Db)
    requires forall i :: 0 <= i < |db.jobs| ==> db.jobs[i].attempts < 3
    ensures AfterFailing(db, Some(3)) == db
  {
  }

  lemma LastIsClaimed(db: Db)
    requires LastWaits(db.jobs)
    ensures Handed(db, 10, None, Some(3)) == [RowOf(db, Last(db))]
    ensures ClaimJobs(db, 10, None, SEVEN, Some(3)) == Marking(db)
  {
    NothingFails(db);
    LastIsTaken(db);
    assert RowsOf(db, [Last(db)]) == [RowOf(db, Last(db))];
    Progress.MarkOne(db.jobs, Last(db), SEVEN);
  }

  lemma Claims(sys: System, p: nat)
    requires LastWaits(sys.db.jobs) && p !in sys.processes
    ensures Step(ONE_PAYMENT, sys, PickUp(p)[0]) == Claimed(sys, p)
  {
    LastIsClaimed(sys.db);
  }

  /** The last job is claimed, and its row in hand. */
  function Claimed(sys: System, p: nat): System {
    SetProcess(sys.(db := Marking(sys.db)), p, Process(UNGUARDED, [RowOf(sys.db, Last(sys.db))], None))
  }

  lemma ClaimsAndStarts(sys: System, p: nat)
    requires LastWaits(sys.db.jobs) && p !in sys.processes
    ensures RunFrom(ONE_PAYMENT, sys, PickUp(p)) == Step(ONE_PAYMENT, Claimed(sys, p), StartRow(p))
  {
    RunFromTwo(ONE_PAYMENT, sys, PickUp(p)[0], StartRow(p));
    Claims(sys, p);
  }

  lemma PicksUp(sys: System, p: nat) returns (t: System)
    requires LastWaits(sys.db.jobs) && p !in sys.processes
    ensures t == RunFrom(ONE_PAYMENT, sys, PickUp(p))
    ensures t.db == Marking(sys.db) && t.gateway == sys.gateway
    ensures var row := RowOf(sys.db, Last(sys.db));
            t.processes == sys.processes[p := Process(UNGUARDED, [], Some(Thread([], Fetch(row))))]
  {
    t := Step(ONE_PAYMENT, Claimed(sys, p), StartRow(p));
    assert [RowOf(sys.db, Last(sys.db))][1..] == [];
    ClaimsAndStarts(sys, p);
  }

  /** The state of the payment is made known, before anything else. */
  lemma Begins(status: PaymentStatus) returns (sys: System)
    ensures sys == Run(ONE_PAYMENT, [SetPayment("pay_1", status, None, None)])
    ensures sys == System(EMPTY_DB, map["pay_1" := Paid(status)], map[])
  {
    RunFromOne(ONE_PAYMENT, START, SetPayment("pay_1", status, None, None));
    sys := Step(ONE_PAYMENT, START, SetPayment("pay_1", status, None, None));
  }
}
