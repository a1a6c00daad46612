/** Liveness of the queue: a pass whose refreshes succeed finishes everything it claims, so repeated
    passes drain what is eligible. And the exception: a job whose refresh keeps failing is never
    given up. */
module Progress {
  import opened Models
  import opened Stores
  import opened Protocol
  import opened Worker
  import opened JobAtomic
  import opened JobOutcome
  import Safety

  predicate IsUnfinished(job: Job) {
    job.state == Pending || job.state == Claimed
  }

  /** The jobs that are neither done nor failed. */
  function Unfinished(jobs: seq<Job>): set<nat> {
    set i: nat | i < |jobs| && IsUnfinished(jobs[i])
  }

  predicate Answerable(g: GatewayState, entity: Entity) {
    entity.paymentId.None? || entity.paymentId.value == "" || entity.paymentId.value in g.entities
  }

  /** Every refresh the stored events can ask for succeeds. */
  ghost predicate RefreshesSucceed(db: Db, g: GatewayState) {
    !g.failNext && forall e :: e in db.rawEvents ==> Answerable(g, db.rawEvents[e].entity)
  }

  /** A pass would find work: something claimable remains once exhausted jobs are failed. */
  predicate Eligible(cfg: Config, db: Db, cutoff: int) {
    cfg.batchSize > 0 &&
    exists i :: 0 <= i < |FailExhausted(db.jobs, Some(cfg.maxAttempts))|
                && Claimable(FailExhausted(db.jobs, Some(cfg.maxAttempts))[i], Some(cutoff))
  }

  function JobsOf(rows: seq<Row>, i: nat): set<nat> {
    set j | i <= j < |rows| :: rows[j].job
  }

  // ------------------------------------------------------------ one claimed batch --

  lemma FinishClears(db: Db, job: nat, state: JobState)
    requires state == Done || state == FailedJob
    ensures Unfinished(FinishJob(db, job, state).jobs) == Unfinished(db.jobs) - {job}
  {
  }

  lemma RowClears(cfg: Config, c: Core, row: Row, o: Oracle)
    requires !c.gateway.failNext && Answerable(c.gateway, row.entity)
    ensures var next := AfterRow(cfg, c, row, o);
            && !OutcomeOf(cfg, c, row, o).Raised?
            && Unfinished(next.db.jobs) == Unfinished(c.db.jobs) - {row.job}
            && next.db.rawEvents == c.db.rawEvents
            && next.gateway.entities == c.gateway.entities && !next.gateway.failNext
  {
    RefreshedJobEnds(cfg, c.db, row, FetchedFor(c.gateway, row), o);
    var r := ProcessRow(cfg, c.db, row, FetchedFor(c.gateway, row), o);
    FinishClears(c.db, row.job, if r.outcome.Rejected? then FailedJob else Done);
  }

  lemma {:induction false} RowsClear(cfg: Config, c: Core, rows: seq<Row>, os: nat -> Oracle, i: nat)
    requires !c.gateway.failNext && i <= |rows|
    requires forall j :: 0 <= j < |rows| ==> Answerable(c.gateway, rows[j].entity)
    ensures var after := ProcessRows(cfg, c, rows, os, i);
            && Unfinished(after.db.jobs) == Unfinished(c.db.jobs) - JobsOf(rows, i)
            && after.db.rawEvents == c.db.rawEvents
            && after.gateway.entities == c.gateway.entities && !after.gateway.failNext
    decreases |rows| - i
  {
    if i < |rows| {
      RowClears(cfg, c, rows[i], os(i));
      RowsClear(cfg, AfterRow(cfg, c, rows[i], os(i)), rows, os, i + 1);
      assert JobsOf(rows, i) == JobsOf(rows, i + 1) + {rows[i].job};
    }
  }

  lemma ClaimingFinishesNothing(jobs: seq<Job>, rows: seq<nat>, stamps: nat -> int)
    requires Distinct(rows) && forall k :: k in rows ==> k in Unfinished(jobs)
    ensures Unfinished(MarkAllClaimed(jobs, rows, stamps)) == Unfinished(jobs)
  {
    assert forall k :: 0 <= k < |rows| ==> rows[k] in rows;
    MarkAllSpec(jobs, rows, stamps);
    var marked := MarkAllClaimed(jobs, rows, stamps);
    forall i: nat | i < |jobs|
      ensures IsUnfinished(marked[i]) == IsUnfinished(jobs[i])
    {
      if i in rows {
        var k :| 0 <= k < |rows| && rows[k] == i;
        assert i in Unfinished(jobs);
      }
    }
  }

  function Taken(cfg: Config, db: Db, cutoff: int): seq<nat> {
    ClaimedRows(AfterFailing(db, Some(cfg.maxAttempts)), Some(cutoff), cfg.batchSize)
  }

  function AsSet(rows: seq<nat>): set<nat> {
    set k | k in rows
  }

  lemma HandedJobs(cfg: Config, db: Db, cutoff: int)
    ensures JobsOf(Handed(db, cfg.batchSize, Some(cutoff), Some(cfg.maxAttempts)), 0) == AsSet(Taken(cfg, db, cutoff))
  {
    var rows := Handed(db, cfg.batchSize, Some(cutoff), Some(cfg.maxAttempts));
    var taken := Taken(cfg, db, cutoff);
    forall k | k in taken
      ensures k in JobsOf(rows, 0)
    {
      var j :| 0 <= j < |taken| && taken[j] == k;
      assert rows[j].job == k;
    }
  }

  /** What a pass leaves unfinished: everything but the exhausted jobs it failed and the jobs it took. */
  lemma PassClears(cfg: Config, db: Db, g: GatewayState, cutoff: int, stamps: nat -> int, os: nat -> Oracle)
    requires RefreshesSucceed(db, g)
    ensures var after := ProcessPending(cfg, db, g, cutoff, stamps, os);
            && Unfinished(after.db.jobs) ==
               Unfinished(FailExhausted(db.jobs, Some(cfg.maxAttempts))) - AsSet(Taken(cfg, db, cutoff))
            && RefreshesSucceed(after.db, after.gateway)
  {
    var failed := AfterFailing(db, Some(cfg.maxAttempts));
    var rows := Handed(db, cfg.batchSize, Some(cutoff), Some(cfg.maxAttempts));
    var claimed := ClaimJobs(db, cfg.batchSize, Some(cutoff), stamps, Some(cfg.maxAttempts));
    ClaimSpec(failed, Some(cutoff), cfg.batchSize);
    ClaimingFinishesNothing(failed.jobs, Taken(cfg, db, cutoff), stamps);
    RowsClear(cfg, Core(claimed, g, ZERO), rows, os, 0);
    HandedJobs(cfg, db, cutoff);
  }

  lemma TakesWhenEligible(cfg: Config, db: Db, cutoff: int)
    ensures Taken(cfg, db, cutoff) != [] <==> Eligible(cfg, db, cutoff)
    ensures forall k :: k in Taken(cfg, db, cutoff) ==> k in Unfinished(FailExhausted(db.jobs, Some(cfg.maxAttempts)))
  {
    var failed := AfterFailing(db, Some(cfg.maxAttempts));
    ClaimSpec(failed, Some(cutoff), cfg.batchSize);
    var taken := Taken(cfg, db, cutoff);
    if taken != [] {
      assert taken[0] in taken;
    }
  }

  lemma FailingOnlyFinishes(jobs: seq<Job>, maxAttempts: Option<nat>)
    ensures Unfinished(FailExhausted(jobs, maxAttempts)) <= Unfinished(jobs)
  {
  }

  lemma ProperSubsetIsSmaller(a: set<nat>, b: set<nat>, x: nat)
    requires a <= b && x in b && x !in a
    ensures |a| < |b|
  {
    Safety.Pigeonhole(a, b - {x}, y => y);
  }

  /** Progress: a pass whose refreshes succeed strictly lowers the number of unfinished jobs whenever
      eligible work exists, and never raises it. */
  lemma PassMakesProgress(cfg: Config, db: Db, g: GatewayState, cutoff: int, stamps: nat -> int, os: nat -> Oracle)
    requires RefreshesSucceed(db, g)
    ensures var after := ProcessPending(cfg, db, g, cutoff, stamps, os).db;
            && Unfinished(after.jobs) <= Unfinished(db.jobs) && |Unfinished(after.jobs)| <= |Unfinished(db.jobs)|
            && (Eligible(cfg, db, cutoff) ==> |Unfinished(after.jobs)| < |Unfinished(db.jobs)|)
  {
    PassClears(cfg, db, g, cutoff, stamps, os);
    TakesWhenEligible(cfg, db, cutoff);
    FailingOnlyFinishes(db.jobs, Some(cfg.maxAttempts));
    Safety.Pigeonhole(Unfinished(ProcessPending(cfg, db, g, cutoff, stamps, os).db.jobs), Unfinished(db.jobs), y => y);
    if Eligible(cfg, db, cutoff) {
      var x := Taken(cfg, db, cutoff)[0];
      assert x in Taken(cfg, db, cutoff);
      ProperSubsetIsSmaller(Unfinished(ProcessPending(cfg, db, g, cutoff, stamps, os).db.jobs), Unfinished(db.jobs), x);
    }
  }

  // ------------------------------------------------------------- repeated passes --

  /** Passes and nothing else, all judging staleness against the same moment. */
  predicate OnlyPasses(ms: seq<Move>, cutoff: int) {
    forall i :: 0 <= i < |ms| ==> ms[i].Pass? && ms[i].cutoff == cutoff
  }

  lemma IdlePass(cfg: Config, db: Db, g: GatewayState, cutoff: int, stamps: nat -> int, os: nat -> Oracle)
    requires !Eligible(cfg, db, cutoff)
    ensures !Eligible(cfg, ProcessPending(cfg, db, g, cutoff, stamps, os).db, cutoff)
  {
    TakesWhenEligible(cfg, db, cutoff);
    var failed := FailExhausted(db.jobs, Some(cfg.maxAttempts));
    assert Handed(db, cfg.batchSize, Some(cutoff), Some(cfg.maxAttempts)) == [];
    assert ProcessPending(cfg, db, g, cutoff, stamps, os).db.jobs == failed;
    assert FailExhausted(failed, Some(cfg.maxAttempts)) == failed;
  }

  lemma {:induction false} IdlePasses(cfg: Config, w: World, ms: seq<Move>, cutoff: int)
    requires !Eligible(cfg, w.db, cutoff) && OnlyPasses(ms, cutoff)
    ensures !Eligible(cfg, Moves(cfg, w, ms).db, cutoff)
    decreases ms
  {
    if ms != [] {
      IdlePass(cfg, w.db, w.gateway, cutoff, ms[0].stamps, ms[0].oracles);
      IdlePasses(cfg, Act(cfg, w, ms[0]), ms[1..], cutoff);
    }
  }

  /** As many passes as there are unfinished jobs drain the eligible queue, whatever the batch size. */
  lemma {:induction false} PassesDrainTheQueue(cfg: Config, w: World, ms: seq<Move>, cutoff: int)
    requires RefreshesSucceed(w.db, w.gateway) && OnlyPasses(ms, cutoff)
    requires |ms| >= |Unfinished(w.db.jobs)|
    ensures !Eligible(cfg, Moves(cfg, w, ms).db, cutoff)
    decreases ms
  {
    if !Eligible(cfg, w.db, cutoff) {
      IdlePasses(cfg, w, ms, cutoff);
    } else {
      EligibleMeansUnfinished(cfg, w.db, cutoff);
      PassMakesProgress(cfg, w.db, w.gateway, cutoff, ms[0].stamps, ms[0].oracles);
      PassClears(cfg, w.db, w.gateway, cutoff, ms[0].stamps, ms[0].oracles);
      PassesDrainTheQueue(cfg, Act(cfg, w, ms[0]), ms[1..], cutoff);
    }
  }

  lemma EligibleMeansUnfinished(cfg: Config, db: Db, cutoff: int)
    requires Eligible(cfg, db, cutoff)
    ensures |Unfinished(db.jobs)| > 0
  {
    TakesWhenEligible(cfg, db, cutoff);
    FailingOnlyFinishes(db.jobs, Some(cfg.maxAttempts));
    assert Taken(cfg, db, cutoff)[0] in Taken(cfg, db, cutoff);
    assert Taken(cfg, db, cutoff)[0] in Unfinished(db.jobs);
  }

  /** How many passes of a run find work. */
  function BusyPasses(cfg: Config, w: World, ms: seq<Move>): nat
    decreases ms
  {
    if ms == [] then 0 else
    (if ms[0].Pass? && Eligible(cfg, w.db, ms[0].cutoff) then 1 else 0) + BusyPasses(cfg, Act(cfg, w, ms[0]), ms[1..])
  }

  /** Among passes that judge staleness against any moments whatever, at most as many as there are
      unfinished jobs find work, and every one that does finishes some. */
  lemma {:induction false} BusyPassesAreFew(cfg: Config, w: World, ms: seq<Move>)
    requires RefreshesSucceed(w.db, w.gateway) && forall i :: 0 <= i < |ms| ==> ms[i].Pass?
    ensures BusyPasses(cfg, w, ms) + |Unfinished(Moves(cfg, w, ms).db.jobs)| <= |Unfinished(w.db.jobs)|
    decreases ms
  {
    if ms != [] {
      PassMakesProgress(cfg, w.db, w.gateway, ms[0].cutoff, ms[0].stamps, ms[0].oracles);
      PassClears(cfg, w.db, w.gateway, ms[0].cutoff, ms[0].stamps, ms[0].oracles);
      BusyPassesAreFew(cfg, Act(cfg, w, ms[0]), ms[1..]);
    }
  }

  // -------------------------------------------------------------- the exception --

  /** Processing a row changes at most the state of its own job. */
  ghost predicate TouchesOnly(a: seq<Job>, b: seq<Job>, job: nat) {
    && |a| == |b|
    && forall j :: 0 <= j < |a| ==> b[j] == if j == job then a[j].(state := b[j].state) else a[j]
  }

  lemma RowTouchesOnly(cfg: Config, db: Db, row: Row, fetched: Option<Snapshot>, o: Oracle)
    requires cfg.requireStateRefresh
    ensures var r := ProcessRow(cfg, db, row, fetched, o);
            TouchesOnly(db.jobs, r.db.jobs, row.job) && !r.outcome.Raised?
  {
    JobRefines(cfg, db, row, fetched, o);
    if row.entity.paymentId.Some? && row.entity.paymentId.value != "" && fetched.Some? {
      ChainEnds(cfg, db, row, row.entity.paymentId.value, fetched.value, o);
    }
  }

  predicate AsksUnknown(g: GatewayState, row: Row) {
    row.entity.paymentId.Some? && row.entity.paymentId.value != "" && row.entity.paymentId.value !in g.entities
  }

  lemma UnknownGoesBack(cfg: Config, db: Db, g: GatewayState, row: Row, o: Oracle)
    requires cfg.requireStateRefresh && AsksUnknown(g, row) && row.job < |db.jobs|
    ensures var after := ProcessRow(cfg, db, row, FetchedFor(g, row), o).db;
            |after.jobs| == |db.jobs| && after.jobs[row.job] == db.jobs[row.job].(state := Pending)
  {
    JobRefines(cfg, db, row, FetchedFor(g, row), o);
  }

  /** Over a batch: no job gains attempts, and a job whose payment is unknown ends up pending. */
  lemma {:induction false} RowsGoBack(cfg: Config, c: Core, rows: seq<Row>, os: nat -> Oracle, i: nat, job: nat)
    requires cfg.requireStateRefresh && i <= |rows| && job < |c.db.jobs|
    requires forall k :: i <= k < |rows| && rows[k].job == job ==> AsksUnknown(c.gateway, rows[k])
    ensures var after := ProcessRows(cfg, c, rows, os, i);
            && |after.db.jobs| == |c.db.jobs| && after.gateway.entities == c.gateway.entities
            && after.db.jobs[job] == c.db.jobs[job].(state := after.db.jobs[job].state)
            && after.db.jobs[job].state == (if job in JobsOf(rows, i) then Pending else c.db.jobs[job].state)
    decreases |rows| - i
  {
    if i < |rows| {
      var next := AfterRow(cfg, c, rows[i], os(i));
      RowTouchesOnly(cfg, c.db, rows[i], FetchedFor(c.gateway, rows[i]), os(i));
      if rows[i].job == job {
        UnknownGoesBack(cfg, c.db, c.gateway, rows[i], os(i));
      }
      RowsGoBack(cfg, next, rows, os, i + 1, job);
      assert JobsOf(rows, i) == JobsOf(rows, i + 1) + {rows[i].job};
    }
  }

  /** A waiting job of a payment the gateway cannot answer for. */
  ghost predicate Unanswerable(cfg: Config, w: World, job: nat) {
    && cfg.requireStateRefresh
    && job < |w.db.jobs| && w.db.jobs[job].state == Pending && w.db.jobs[job].eventId in w.db.rawEvents
    && AsksUnknown(w.gateway, RowOf(w.db, job))
  }

  lemma {:induction false} DistinctFit(rows: seq<nat>, room: set<nat>)
    requires Distinct(rows) && forall k :: k in rows ==> k in room
    ensures |rows| <= |room|
  {
    if rows != [] {
      var front, last := rows[..|rows| - 1], rows[|rows| - 1];
      assert rows == front + [last];
      forall k | k in front
        ensures k in room - {last}
      {
        var i :| 0 <= i < |front| && front[i] == k;
        assert rows[i] != rows[|rows| - 1];
      }
      DistinctFit(front, room - {last});
    }
  }

  /** A batch that can hold every job takes every waiting one, however often it was attempted. */
  lemma RoomyBatchTakes(cfg: Config, db: Db, cutoff: int, job: nat)
    requires |db.jobs| <= cfg.batchSize && job < |db.jobs| && db.jobs[job].state == Pending
    ensures job in Taken(cfg, db, cutoff)
  {
    var failed, taken := AfterFailing(db, Some(cfg.maxAttempts)), Taken(cfg, db, cutoff);
    ClaimSpec(failed, Some(cutoff), cfg.batchSize);
    var all := Safety.NumbersBelow(|db.jobs|) + {0};
    Safety.CountBelow(|db.jobs|);
    if job !in taken {
      DistinctFit(taken, all - {job});
    }
  }

  lemma FailingPass(cfg: Config, w: World, job: nat, cutoff: int, stamps: nat -> int, os: nat -> Oracle)
    requires Unanswerable(cfg, w, job)
    ensures var after := Act(cfg, w, Pass(cutoff, stamps, os));
            && Unanswerable(cfg, after, job) && |after.db.jobs| == |w.db.jobs|
            && after.db.jobs[job].attempts == w.db.jobs[job].attempts + if job in Taken(cfg, w.db, cutoff) then 1 else 0
  {
    var db := w.db;
    var claimed := ClaimJobs(db, cfg.batchSize, Some(cutoff), stamps, Some(cfg.maxAttempts));
    var rows := Handed(db, cfg.batchSize, Some(cutoff), Some(cfg.maxAttempts));
    ClaimOfOneJob(db, cfg.batchSize, Some(cutoff), stamps, Some(cfg.maxAttempts), job);
    HandedJobs(cfg, db, cutoff);
    assert forall k :: 0 <= k < |rows| && rows[k].job == job ==> rows[k] == RowOf(db, job);
    RowsGoBack(cfg, Core(claimed, w.gateway, ZERO), rows, os, 0, job);
    RowsAddOnlyUnresolved(cfg, Core(claimed, w.gateway, ZERO), rows, os, 0);
  }

  /** How many of the passes take the job. */
  function TimesTaken(cfg: Config, w: World, ms: seq<Move>, job: nat): nat
    decreases ms
  {
    if ms == [] then 0 else
    (if ms[0].Pass? && job in Taken(cfg, w.db, ms[0].cutoff) then 1 else 0)
    + TimesTaken(cfg, Act(cfg, w, ms[0]), ms[1..], job)
  }

  /** The attempt limit does not count refreshes that fail: in any table, a job whose payment the gateway
      cannot answer for is attempted once more by every pass that takes it, and never given up. */
  lemma {:induction false} AttemptsCountPasses(cfg: Config, w: World, ms: seq<Move>, job: nat)
    requires Unanswerable(cfg, w, job) && forall i :: 0 <= i < |ms| ==> ms[i].Pass?
    ensures var after := Moves(cfg, w, ms);
            && Unanswerable(cfg, after, job) && |after.db.jobs| == |w.db.jobs|
            && after.db.jobs[job].attempts == w.db.jobs[job].attempts + TimesTaken(cfg, w, ms, job)
    decreases ms
  {
    if ms != [] {
      FailingPass(cfg, w, job, ms[0].cutoff, ms[0].stamps, ms[0].oracles);
      AttemptsCountPasses(cfg, Act(cfg, w, ms[0]), ms[1..], job);
    }
  }

  lemma {:induction false} RoomyPassesTake(cfg: Config, w: World, ms: seq<Move>, job: nat)
    requires Unanswerable(cfg, w, job) && |w.db.jobs| <= cfg.batchSize && forall i :: 0 <= i < |ms| ==> ms[i].Pass?
    ensures TimesTaken(cfg, w, ms, job) == |ms|
    decreases ms
  {
    if ms != [] {
      RoomyBatchTakes(cfg, w.db, ms[0].cutoff, job);
      FailingPass(cfg, w, job, ms[0].cutoff, ms[0].stamps, ms[0].oracles);
      RoomyPassesTake(cfg, Act(cfg, w, ms[0]), ms[1..], job);
    }
  }

  /** So in a table no larger than one batch it is attempted by every pass, at whatever moments, and its
      attempts pass every limit. */
  lemma AttemptsAreUnbounded(cfg: Config, w: World, ms: seq<Move>, job: nat)
    requires Unanswerable(cfg, w, job) && |w.db.jobs| <= cfg.batchSize && forall i :: 0 <= i < |ms| ==> ms[i].Pass?
    ensures Unanswerable(cfg, Moves(cfg, w, ms), job)
    ensures Moves(cfg, w, ms).db.jobs[job].attempts == w.db.jobs[job].attempts + |ms|
  {
    AttemptsCountPasses(cfg, w, ms, job);
    RoomyPassesTake(cfg, w, ms, job);
  }

  // ------------------------------------------------------------------ one row --

  lemma OneRowBatch(cfg: Config, c: Core, row: Row, os: nat -> Oracle)
    ensures ProcessRows(cfg, c, [row], os, 0) == AfterRow(cfg, c, row, os(0))
  {
    assert ProcessRows(cfg, AfterRow(cfg, c, row, os(0)), [row], os, 1) == AfterRow(cfg, c, row, os(0));
  }

  lemma SingleRow(db: Db, row: nat, limit: nat)
    requires limit > 0
    ensures Take(ByAge(db, [row]), limit) == [row]
  {
    assert [row][..0] == [];
    assert InsertByAge(db, [], row) == [row];
  }

  lemma MarkOne(jobs: seq<Job>, row: nat, stamps: nat -> int)
    ensures MarkAllClaimed(jobs, [row], stamps) == MarkClaimed(jobs, row, stamps(0))
  {
    assert [row][..0] == [];
  }
}
