/** When a case goes back to an older event. A worker compares its event with the case in one commit and
    writes the case in a later one, so "out-of-order delivery must not regress state" is false of runs in
    which another worker writes the case in between, and true of all others. */
module Regressions {
  import opened Models
  import opened Stores
  import opened Guards
  import opened Protocol
  import opened Safety
  import opened Interleaving
  import opened Schedules
  import JobAtomic

  /** The choice commits an update of case `i` with an event older than the case's last. */
  predicate WritesBack(sys: System, c: Choice, i: nat) {
    && c.Commit? && c.p in sys.processes && sys.processes[c.p].current.Some?
    && sys.processes[c.p].current.value.writes != []
    && var w := sys.processes[c.p].current.value.writes[0];
       w.Advance? && w.caseId == i && i < |sys.db.cases| && w.createdAt < sys.db.cases[i].lastEventCreatedAt
  }

  lemma CommitCases(sys: System, th: Thread, i: nat)
    requires i < |sys.db.cases|
    ensures var b := NextDb(sys.db, th);
            && i < |b.cases|
            && (if th.writes != [] && th.writes[0].Advance? && th.writes[0].caseId == i
                then b.cases[i].lastEventCreatedAt == th.writes[0].createdAt
                else b.cases[i].lastEventCreatedAt == sys.db.cases[i].lastEventCreatedAt)
  {
  }

  /** Exactly which steps take a case back. */
  lemma StepRegressesIff(s: Setting, sys: System, c: Choice, i: nat)
    requires i < |sys.db.cases|
    ensures i < |Step(s, sys, c).db.cases|
    ensures Step(s, sys, c).db.cases[i].lastEventCreatedAt < sys.db.cases[i].lastEventCreatedAt <==> WritesBack(sys, c, i)
  {
    if c.Commit? && c.p in sys.processes && sys.processes[c.p].current.Some? {
      CommitCases(sys, sys.processes[c.p].current.value, i);
    }
  }

  // --------------------------------------------------- what a writer was told --

  /** Whatever the thread still means to write to a case is no older than what the case has seen. */
  ghost predicate OnTime(db: Db, th: Thread) {
    exists t :: JobAtomic.Timely(db, th, t)
  }

  /** A live process that another one has overtaken: it means to write an event the case is past. */
  ghost predicate Overtaken(sys: System, p: nat) {
    p in sys.processes && sys.processes[p].current.Some? && !OnTime(sys.db, sys.processes[p].current.value)
  }

  lemma WritesBackIsOvertaken(sys: System, c: Choice, i: nat)
    requires WritesBack(sys, c, i)
    ensures Overtaken(sys, c.p)
  {
    var th := sys.processes[c.p].current.value;
    forall t
      ensures !JobAtomic.Timely(sys.db, th, t)
    {
      assert th.writes[0].Advance?;
    }
  }

  lemma OwnCommitStaysOnTime(cfg: Config, db: Db, th: Thread, fetched: Option<Snapshot>, o: Oracle)
    requires OnTime(db, th) && !th.Finished()
    ensures OnTime(NextDb(db, th), NextThread(cfg, db, th, fetched, o))
  {
    var t :| JobAtomic.Timely(db, th, t);
    JobAtomic.StepTimely(cfg, db, th, fetched, o, t);
  }

  lemma NewThreadIsOnTime(db: Db, cfg: Config, d: Delivery, row: Row)
    ensures OnTime(db, IngestThread(cfg, d)) && OnTime(db, Thread([], Fetch(row)))
  {
    assert JobAtomic.Timely(db, IngestThread(cfg, d), 0);
    assert JobAtomic.Timely(db, Thread([], Fetch(row)), row.createdAt);
  }

  /** The choice lets another process write a case past what `p` means to write to it. */
  ghost predicate Overtakes(s: Setting, sys: System, c: Choice, p: nat) {
    && c.Commit? && c.p != p && c.p in sys.processes && sys.processes[c.p].current.Some?
    && sys.processes[c.p].current.value.writes != [] && sys.processes[c.p].current.value.writes[0].Advance?
    && p in sys.processes && !Overtaken(sys, p) && Overtaken(Step(s, sys, c), p)
  }

  /** The cases a thread means to write exist. */
  ghost predicate Grounded(db: Db, th: Thread) {
    && (forall i :: 0 <= i < |th.writes| && th.writes[i].Advance? ==> th.writes[i].caseId < |db.cases|)
    && (th.main.Assign? ==> th.main.caseId < |db.cases|)
    && (th.main.Record? ==> th.main.decision.caseId < |db.cases|)
  }

  ghost predicate AllGrounded(sys: System) {
    forall p :: p in sys.processes && sys.processes[p].current.Some? ==> Grounded(sys.db, sys.processes[p].current.value)
  }

  lemma CommitGrounds(cfg: Config, db: Db, th: Thread, fetched: Option<Snapshot>, o: Oracle)
    requires Grounded(db, th)
    ensures Grounded(NextDb(db, th), NextThread(cfg, db, th, fetched, o))
    ensures |db.cases| <= |NextDb(db, th).cases|
  {
    if th.writes != [] {
      var rest := th.writes[1..];
      assert forall i :: 0 <= i < |rest| ==> rest[i] == th.writes[i + 1];
    } else if th.main.OpenRead? {
      AfterOpenGrounds(db, th.main.row, th.main.payment, th.main.snap, th.main.isNew, o);
    } else if th.main.Assign? {
      assert forall n :: Grounded(db, AfterAssign(cfg, th.main.row, th.main.payment, th.main.snap, th.main.caseId, n, o));
    }
  }

  lemma AfterOpenGrounds(db: Db, row: Row, payment: string, snap: Snapshot, isNew: bool, o: Oracle)
    ensures Grounded(db, AfterOpen(db, row, payment, snap, isNew, o))
  {
  }

  lemma SetGrounds(sys: System, b: Db, p: nat, process: Process)
    requires AllGrounded(sys) && |sys.db.cases| <= |b.cases|
    requires process.current.Some? ==> Grounded(b, process.current.value)
    ensures AllGrounded(SetProcess(sys.(db := b), p, process))
  {
    forall q | q in sys.processes && q != p && sys.processes[q].current.Some?
      ensures Grounded(b, sys.processes[q].current.value)
    {
      assert Grounded(sys.db, sys.processes[q].current.value);
    }
  }

  /** A delivery, a claim or a row begun sets one process, and writes no case. */
  lemma StartShape(s: Setting, sys: System, c: Choice) returns (b: Db, process: Process)
    requires (c.Deliver? || c.Claim? || c.StartRow?) && Step(s, sys, c) != sys
    ensures Step(s, sys, c) == SetProcess(sys.(db := b), c.p, process) && b.cases == sys.db.cases
    ensures process.current.Some? ==> OnTime(b, process.current.value) && Grounded(b, process.current.value)
  {
    b, process := Step(s, sys, c).db, Step(s, sys, c).processes[c.p];
    if c.Deliver? {
      NewThreadIsOnTime(b, c.cfg, c.delivery, Row(0, "", 0, Entity(None, "", false)));
    } else if c.StartRow? {
      NewThreadIsOnTime(b, process.cfg, Delivery(None, "", None, Entity(None, "", false)), sys.processes[c.p].queue[0]);
    }
  }

  lemma StepGrounds(s: Setting, sys: System, c: Choice)
    requires AllGrounded(sys)
    ensures AllGrounded(Step(s, sys, c))
  {
    if c.Commit? && c.p in sys.processes && sys.processes[c.p].current.Some? {
      var process := sys.processes[c.p];
      var th := process.current.value;
      if th.Finished() {
        SetGrounds(sys, sys.db, c.p, Retire(process, th));
      } else {
        var fetched := Answer(sys, th, c.refreshFails);
        CommitGrounds(process.cfg, sys.db, th, fetched, c.oracle);
        SetGrounds(sys, NextDb(sys.db, th), c.p,
                   process.(current := Some(NextThread(process.cfg, sys.db, th, fetched, c.oracle))));
      }
    } else if (c.Deliver? || c.Claim? || c.StartRow?) && Step(s, sys, c) != sys {
      var b, process := StartShape(s, sys, c);
      SetGrounds(sys, b, c.p, process);
    }
  }

  lemma {:induction false} RunGrounds(s: Setting, choices: seq<Choice>)
    ensures AllGrounded(Run(s, choices))
  {
    if choices != [] {
      RunGrounds(s, choices[..|choices| - 1]);
      StepGrounds(s, Run(s, choices[..|choices| - 1]), choices[|choices| - 1]);
    }
  }

  /** What writes none of the cases there are leaves a thread on time. */
  lemma SameCasesOnTime(a: Db, b: Db, th: Thread)
    requires OnTime(a, th) && Grounded(a, th) && |a.cases| <= |b.cases|
    requires forall i :: 0 <= i < |a.cases| ==> b.cases[i].lastEventCreatedAt == a.cases[i].lastEventCreatedAt
    ensures OnTime(b, th)
  {
    var t :| JobAtomic.Timely(a, th, t);
    assert JobAtomic.Timely(b, th, t);
  }

  lemma OwnStepOnTime(s: Setting, sys: System, c: Choice)
    requires c.Commit? && !Overtaken(sys, c.p)
    ensures !Overtaken(Step(s, sys, c), c.p)
  {
    if c.p in sys.processes && sys.processes[c.p].current.Some? {
      var process := sys.processes[c.p];
      if !process.current.value.Finished() {
        var th := process.current.value;
        OwnCommitStaysOnTime(process.cfg, sys.db, th, Answer(sys, th, c.refreshFails), c.oracle);
      }
    }
  }

  lemma OtherCommitOnTime(s: Setting, sys: System, c: Choice, p: nat)
    requires AllGrounded(sys) && c.Commit? && c.p != p && !Overtaken(sys, p) && !Overtakes(s, sys, c, p)
    ensures !Overtaken(Step(s, sys, c), p)
  {
    if c.p in sys.processes && sys.processes[c.p].current.Some? && p in sys.processes && sys.processes[p].current.Some? {
      var th, mine := sys.processes[c.p].current.value, sys.processes[p].current.value;
      if !th.Finished() && (th.writes == [] || !th.writes[0].Advance?) {
        forall i: nat | i < |sys.db.cases|
          ensures i < |NextDb(sys.db, th).cases|
          ensures NextDb(sys.db, th).cases[i].lastEventCreatedAt == sys.db.cases[i].lastEventCreatedAt
        {
          CommitCases(sys, th, i);
        }
        OtherWriteOnTime(s, sys, th, mine);
      }
    }
  }

  lemma OtherWriteOnTime(s: Setting, sys: System, th: Thread, mine: Thread)
    requires OnTime(sys.db, mine) && Grounded(sys.db, mine) && (th.writes == [] || !th.writes[0].Advance?)
    ensures OnTime(NextDb(sys.db, th), mine)
  {
    var b := NextDb(sys.db, th);
    assert |sys.db.cases| <= |b.cases|;
    SameCasesOnTime(sys.db, b, mine);
  }

  /** A process stays on time until another one overtakes it. */
  lemma StepOnTime(s: Setting, sys: System, c: Choice, p: nat)
    requires AllGrounded(sys) && !Overtaken(sys, p) && !Overtakes(s, sys, c, p)
    ensures !Overtaken(Step(s, sys, c), p)
  {
    if c.Commit? {
      if c.p == p {
        OwnStepOnTime(s, sys, c);
      } else {
        OtherCommitOnTime(s, sys, c, p);
      }
    } else if (c.Deliver? || c.Claim? || c.StartRow?) && Step(s, sys, c) != sys {
      var b, process := StartShape(s, sys, c);
      if p != c.p && p in sys.processes && sys.processes[p].current.Some? {
        SameCasesOnTime(sys.db, b, sys.processes[p].current.value);
      }
    }
  }

  // ------------------------------------------------------------------- theorems --

  /** No regression between any two moments of a run, exactly when no step writes a case back. */
  lemma NeverRegressesIff(s: Setting, choices: seq<Choice>)
    ensures (forall n: nat, m: nat :: n <= m <= |choices| ==>
                                        JobAtomic.Forward(Run(s, choices[..n]).db.cases, Run(s, choices[..m]).db.cases))
            <==> forall n: nat, i: nat :: n < |choices| ==> !WritesBack(Run(s, choices[..n]), choices[n], i)
  {
    if n: nat, i: nat :| n < |choices| && WritesBack(Run(s, choices[..n]), choices[n], i) {
      RunNext(s, choices, n);
      StepRegressesIff(s, Run(s, choices[..n]), choices[n], i);
    } else {
      forall n: nat, m: nat | n <= m <= |choices|
        ensures JobAtomic.Forward(Run(s, choices[..n]).db.cases, Run(s, choices[..m]).db.cases)
      {
        StaysForward(s, choices, n, m);
      }
    }
  }

  lemma RunNext(s: Setting, choices: seq<Choice>, n: nat)
    requires n < |choices|
    ensures Run(s, choices[..n + 1]) == Step(s, Run(s, choices[..n]), choices[n])
  {
    assert choices[..n + 1][..n] == choices[..n];
  }

  lemma {:induction false} StaysForward(s: Setting, choices: seq<Choice>, n: nat, m: nat)
    requires n <= m <= |choices|
    requires forall k: nat, i: nat :: k < |choices| ==> !WritesBack(Run(s, choices[..k]), choices[k], i)
    ensures JobAtomic.Forward(Run(s, choices[..n]).db.cases, Run(s, choices[..m]).db.cases)
  {
    if n < m {
      var before := Run(s, choices[..m - 1]);
      StaysForward(s, choices, n, m - 1);
      RunNext(s, choices, m - 1);
      forall i: nat | i < |before.db.cases|
        ensures i < |Run(s, choices[..m]).db.cases|
        ensures before.db.cases[i].lastEventCreatedAt <= Run(s, choices[..m]).db.cases[i].lastEventCreatedAt
      {
        StepRegressesIff(s, before, choices[m - 1], i);
      }
      StepKeepsLength(s, before, choices[m - 1]);
    }
  }

  lemma StepKeepsLength(s: Setting, sys: System, c: Choice)
    ensures |sys.db.cases| <= |Step(s, sys, c).db.cases|
  {
    if |sys.db.cases| > 0 {
      StepRegressesIff(s, sys, c, |sys.db.cases| - 1);
    }
  }

  ghost predicate OvertakenAt(s: Setting, choices: seq<Choice>, m: nat, p: nat) {
    m < |choices| && Overtakes(s, Run(s, choices[..m]), choices[m], p)
  }

  lemma {:induction false} OvertakenBySomeone(s: Setting, choices: seq<Choice>, p: nat)
    requires Overtaken(Run(s, choices), p)
    ensures exists m: nat :: OvertakenAt(s, choices, m, p)
  {
    if choices != [] {
      var n := |choices| - 1;
      if Overtaken(Run(s, choices[..n]), p) {
        OvertakenBySomeone(s, choices[..n], p);
        var m: nat :| OvertakenAt(s, choices[..n], m, p);
        assert choices[..n][..m] == choices[..m];
        assert OvertakenAt(s, choices, m, p);
      } else {
        RunGrounds(s, choices[..n]);
        if !Overtakes(s, Run(s, choices[..n]), choices[n], p) {
          StepOnTime(s, Run(s, choices[..n]), choices[n], p);
        }
        assert OvertakenAt(s, choices, n, p);
      }
    }
  }

  /** Behind every regression is a race: before it, another process wrote a case past what the writer
      still meant to write to it. So where no job runs into another, no case goes back. */
  lemma RegressionIsARace(s: Setting, choices: seq<Choice>, c: Choice, i: nat)
    requires WritesBack(Run(s, choices), c, i)
    ensures exists m: nat :: OvertakenAt(s, choices, m, c.p)
  {
    WritesBackIsOvertaken(Run(s, choices), c, i);
    OvertakenBySomeone(s, choices, c.p);
  }

  // -------------------------------------------------------- a run that regresses --

  const CAPTURED := Paid(Captured)

  function RowOn(job: nat, id: string, createdAt: int): Row {
    Row(job, id, createdAt, BODY)
  }

  /** The one case, as a worker left it. */
  function CaseAt(state: CaseState, createdAt: int): Case {
    Case(ChainKey(None, "pay_1"), None, "pay_1", state, createdAt)
  }

  const OLD_EVENT := [SetPayment("pay_1", Captured, None, None)] + Arrival(0, "evt_1", 5)
  const NEW_EVENT := Arrival(2, "evt_2", 6)

  /** The worker of an older event gets as far as the write that closes the case; the worker of a newer
      one overtakes it; and then the first one goes on. */
  const RACE := OLD_EVENT + PickUp(1) + Commits(1, 5) + NEW_EVENT + PickUp(3) + Commits(3, 6)

  /** Five commits of a worker whose payment is settled: it is about to close the case. */
  lemma ClosingCommits(at: Standing, row: Row, cases: seq<Case>)
    requires at.th == Thread([], Fetch(row)) && row.entity == BODY && at.snap == CAPTURED
    requires cases == if at.db.cases == [] then [CaseAt(Open, row.createdAt)] else at.db.cases
    requires |cases| == 1 && cases[0].chainKey == ChainKey(None, "pay_1") && cases[0].lastEventCreatedAt <= row.createdAt
    ensures forall k: nat :: k < 5 ==> AsksFor(at.After(k).th)
    ensures at.After(5).th.writes != [] && at.After(5).th.writes[0] == Advance(0, ClosedPaymentResolved, row.createdAt)
    ensures at.After(5).db.cases == cases && at.After(5).db.rawEvents == at.db.rawEvents
    ensures at.After(5).db.jobs == at.db.jobs && at.After(5).snap == CAPTURED
  {
    var refreshed := Entry(None, row.eventId, StateRefreshed("pay_1", Captured));
    assert at.After(1) == Standing(at.db, Thread([refreshed], OpenInsert(row, "pay_1", CAPTURED)), CAPTURED);
    var ready := at.After(2);
    assert ready == Standing(AppendAudit(at.db, refreshed.entry), Thread([], OpenInsert(row, "pay_1", CAPTURED)), CAPTURED);
    InsertOpens(ready.db, row, cases);
    var read := at.After(3);
    assert read == ready.Next();
    ReadingCloses(read.db, row, read.th.main.isNew);
    assert at.After(4) == read.Next() && at.After(5) == read.Next().Next();
  }

  lemma InsertOpens(db: Db, row: Row, cases: seq<Case>)
    requires cases == if db.cases == [] then [CaseAt(Open, row.createdAt)] else db.cases
    requires |cases| == 1 && cases[0].chainKey == ChainKey(None, "pay_1")
    ensures InsertCase(db, ChainKey(None, "pay_1"), None, "pay_1", row.createdAt) == db.(cases := cases)
  {
  }

  lemma ReadingCloses(db: Db, row: Row, isNew: bool)
    requires |db.cases| == 1 && db.cases[0].chainKey == ChainKey(None, "pay_1")
    requires db.cases[0].lastEventCreatedAt <= row.createdAt
    ensures var th := AfterOpen(db, row, "pay_1", CAPTURED, isNew, HOLDING);
            |th.writes| == 4 && th.writes[0].Audit? && th.writes[1] == Advance(0, ClosedPaymentResolved, row.createdAt)
  {
  }

  /** The first worker, up to the write that closes the case. */
  lemma OldEventRuns() returns (sys: System)
    ensures sys == Run(ONE_PAYMENT, OLD_EVENT + PickUp(1) + Commits(1, 5))
    ensures sys.gateway == map["pay_1" := CAPTURED] && sys.processes.Keys == {0, 1}
    ensures sys.processes[1].current.Some? && sys.processes[1].current.value.writes != []
    ensures sys.processes[1].current.value.writes[0] == Advance(0, ClosedPaymentResolved, 5)
    ensures sys.db.cases == [CaseAt(Open, 5)] && sys.db.rawEvents == map["evt_1" := Raw(5)]
    ensures sys.db.jobs == [Job("evt_1", JobState.Claimed, 1, Some(7))]
  {
    var known := [SetPayment("pay_1", Captured, None, None)];
    var begun := Begins(Captured);
    var arrived := Arrives(begun, 0, "evt_1", 5, CAPTURED);
    RunFromJoins(ONE_PAYMENT, START, known, Arrival(0, "evt_1", 5));
    var picked := PicksUp(arrived, 1);
    RunFromJoins(ONE_PAYMENT, START, OLD_EVENT, PickUp(1));
    var at := Standing(picked.db, Thread([], Fetch(RowOn(0, "evt_1", 5))), CAPTURED);
    ClosingCommits(at, RowOn(0, "evt_1", 5), [CaseAt(Open, 5)]);
    CommitsAdvance(picked, 1, at, 5);
    RunFromJoins(ONE_PAYMENT, START, OLD_EVENT + PickUp(1), Commits(1, 5));
    sys := RunFrom(ONE_PAYMENT, picked, Commits(1, 5));
  }

  lemma NewEventIsPickedUp(sys: System) returns (picked: System)
    requires sys.gateway == map["pay_1" := CAPTURED] && sys.processes.Keys == {0, 1}
    requires sys.db.rawEvents == map["evt_1" := Raw(5)] && sys.db.jobs == [Job("evt_1", JobState.Claimed, 1, Some(7))]
    ensures picked == RunFrom(ONE_PAYMENT, RunFrom(ONE_PAYMENT, sys, NEW_EVENT), PickUp(3))
    ensures picked.gateway == sys.gateway && picked.db.cases == sys.db.cases
    ensures 1 in picked.processes && picked.processes[1] == sys.processes[1]
    ensures 3 in picked.processes
    ensures picked.processes[3] == Process(UNGUARDED, [], Some(Thread([], Fetch(RowOn(1, "evt_2", 6)))))
  {
    var arrived := Arrives(sys, 2, "evt_2", 6, CAPTURED);
    picked := PicksUp(arrived, 3);
  }

  /** The second worker, up to and with that write of its own. */
  lemma NewEventRuns(sys: System) returns (t: System)
    requires 3 in sys.processes && sys.gateway == map["pay_1" := CAPTURED] && sys.db.cases == [CaseAt(Open, 5)]
    requires sys.processes[3] == Process(UNGUARDED, [], Some(Thread([], Fetch(RowOn(1, "evt_2", 6)))))
    ensures t == RunFrom(ONE_PAYMENT, sys, Commits(3, 6))
    ensures t.db.cases == [CaseAt(ClosedPaymentResolved, 6)]
    ensures 1 in sys.processes ==> 1 in t.processes && t.processes[1] == sys.processes[1]
  {
    var at := Standing(sys.db, Thread([], Fetch(RowOn(1, "evt_2", 6))), CAPTURED);
    ClosingCommits(at, RowOn(1, "evt_2", 6), sys.db.cases);
    assert at.After(6) == at.After(5).Next();
    CommitsAdvance(sys, 3, at, 6);
    t := RunFrom(ONE_PAYMENT, sys, Commits(3, 6));
  }

  lemma RaceRuns() returns (sys: System)
    ensures sys == Run(ONE_PAYMENT, RACE)
    ensures sys.db.cases == [CaseAt(ClosedPaymentResolved, 6)]
    ensures 1 in sys.processes && sys.processes[1].current.Some? && sys.processes[1].current.value.writes != []
    ensures sys.processes[1].current.value.writes[0] == Advance(0, ClosedPaymentResolved, 5)
  {
    var early := OldEventRuns();
    var picked := NewEventIsPickedUp(early);
    sys := NewEventRuns(picked);
    var prefix := OLD_EVENT + PickUp(1) + Commits(1, 5);
    RunFromJoins(ONE_PAYMENT, START, prefix, NEW_EVENT);
    RunFromJoins(ONE_PAYMENT, START, prefix + NEW_EVENT, PickUp(3));
    RunFromJoins(ONE_PAYMENT, START, prefix + NEW_EVENT + PickUp(3), Commits(3, 6));
  }

  const LAST_COMMIT := Commit(1, false, HOLDING)

  /** After that race the first worker's next commit takes the case from the newer event to the older. */
  lemma RaceRegresses()
    ensures Run(ONE_PAYMENT, RACE).db.cases == [CaseAt(ClosedPaymentResolved, 6)]
    ensures Run(ONE_PAYMENT, RACE + [LAST_COMMIT]).db.cases == [CaseAt(ClosedPaymentResolved, 5)]
    ensures AllAllowed(ONE_PAYMENT, RACE + [LAST_COMMIT])
  {
    var sys := RaceRuns();
    RunFromJoins(ONE_PAYMENT, START, RACE, [LAST_COMMIT]);
    RunFromOne(ONE_PAYMENT, sys, LAST_COMMIT);
    TakesBack(sys);
  }

  lemma TakesBack(sys: System)
    requires sys.db.cases == [CaseAt(ClosedPaymentResolved, 6)]
    requires 1 in sys.processes && sys.processes[1].current.Some? && sys.processes[1].current.value.writes != []
    requires sys.processes[1].current.value.writes[0] == Advance(0, ClosedPaymentResolved, 5)
    ensures Step(ONE_PAYMENT, sys, LAST_COMMIT).db.cases == [CaseAt(ClosedPaymentResolved, 5)]
  {
  }
}
