/** Whose work a claim hands out, on the fields of the jobs, and what that is worth over runs: as long as
    no claim goes past the stamp of a job a live worker holds, no job is ever in two hands. */
module Claims {
  import opened Models
  import opened Stores
  import opened Guards
  import opened Protocol
  import opened Safety
  import opened Interleaving
  import Orphans

  // -------------------------------------------------------------- one claim --

  /** A job that waits, or that was claimed before the cutoff and may be tried again. */
  predicate Due(job: Job, cutoff: Option<int>, maxAttempts: Option<nat>) {
    || job.state == JobState.Pending
    || (&& job.state == Claimed && cutoff.Some? && job.claimedAt.Some? && job.claimedAt.value < cutoff.value
        && (maxAttempts.Some? ==> job.attempts < maxAttempts.value))
  }

  ghost predicate HandedOut(rows: seq<Row>, i: nat) {
    exists k :: 0 <= k < |rows| && rows[k].job == i
  }

  /** Older events first, and of two as old the job stored earlier. */
  predicate ComesBefore(db: Db, a: nat, b: nat)
    requires a < |db.jobs| && b < |db.jobs|
    requires db.jobs[a].eventId in db.rawEvents && db.jobs[b].eventId in db.rawEvents
  {
    var s, t := db.rawEvents[db.jobs[a].eventId].createdAt, db.rawEvents[db.jobs[b].eventId].createdAt;
    s < t || (s == t && a < b)
  }

  /** Every job is of a stored event. */
  ghost predicate Stored(db: Db) {
    forall i :: 0 <= i < |db.jobs| ==> db.jobs[i].eventId in db.rawEvents
  }

  /** The row of a job carries the event of the job. */
  ghost predicate RowsCarryEvents(db: Db, rows: seq<Row>) {
    forall k :: 0 <= k < |rows| ==>
      && rows[k].job < |db.jobs| && rows[k].eventId == db.jobs[rows[k].job].eventId
      && rows[k].eventId in db.rawEvents && rows[k].createdAt == db.rawEvents[rows[k].eventId].createdAt
      && rows[k].entity == db.rawEvents[rows[k].eventId].entity
  }

  lemma HandedRow(db: Db, batch: nat, cutoff: Option<int>, maxAttempts: Option<nat>, i: nat)
    ensures HandedOut(Handed(db, batch, cutoff, maxAttempts), i) <==>
            i in ClaimedRows(AfterFailing(db, maxAttempts), cutoff, batch)
  {
    var taken := ClaimedRows(AfterFailing(db, maxAttempts), cutoff, batch);
    var rows := Handed(db, batch, cutoff, maxAttempts);
    if i in taken {
      var k :| 0 <= k < |taken| && taken[k] == i;
      assert rows[k].job == i;
    }
  }

  lemma DueIsClaimable(db: Db, cutoff: Option<int>, maxAttempts: Option<nat>, i: nat)
    requires i < |db.jobs|
    ensures Claimable(AfterFailing(db, maxAttempts).jobs[i], cutoff) <==> Due(db.jobs[i], cutoff, maxAttempts)
  {
  }

  lemma EarlierIsBefore(db: Db, maxAttempts: Option<nat>, a: nat, b: nat)
    requires Stored(db) && a < |db.jobs| && b < |db.jobs|
    ensures Earlier(AfterFailing(db, maxAttempts), a, b) <==> ComesBefore(db, a, b)
  {
    var failed := AfterFailing(db, maxAttempts);
    assert failed.jobs[a].eventId == db.jobs[a].eventId && failed.jobs[b].eventId == db.jobs[b].eventId;
  }

  /** A claim hands out due jobs only, and leaves a due one behind only when the batch is full of jobs that
      come before it. */
  lemma HandsOutDue(db: Db, batch: nat, cutoff: Option<int>, maxAttempts: Option<nat>, i: nat)
    requires Stored(db)
    ensures var rows := Handed(db, batch, cutoff, maxAttempts);
            && RowsCarryEvents(db, rows)
            && (HandedOut(rows, i) ==> i < |db.jobs| && Due(db.jobs[i], cutoff, maxAttempts))
            && (i < |db.jobs| && Due(db.jobs[i], cutoff, maxAttempts) && !HandedOut(rows, i) ==>
                  |rows| == batch && forall k :: 0 <= k < |rows| ==> ComesBefore(db, rows[k].job, i))
  {
    var failed, rows := AfterFailing(db, maxAttempts), Handed(db, batch, cutoff, maxAttempts);
    var taken := ClaimedRows(failed, cutoff, batch);
    ClaimSpec(failed, cutoff, batch);
    HandedRow(db, batch, cutoff, maxAttempts, i);
    assert forall k :: 0 <= k < |rows| ==> rows[k] == RowOf(failed, taken[k]) && taken[k] in taken;
    RowsOfFailed(db, maxAttempts, taken, rows);
    if i < |db.jobs| {
      DueIsClaimable(db, cutoff, maxAttempts, i);
      if Due(db.jobs[i], cutoff, maxAttempts) && !HandedOut(rows, i) {
        forall k | 0 <= k < |rows|
          ensures ComesBefore(db, rows[k].job, i)
        {
          EarlierIsBefore(db, maxAttempts, taken[k], i);
        }
      }
    }
  }

  lemma RowsOfFailed(db: Db, maxAttempts: Option<nat>, taken: seq<nat>, rows: seq<Row>)
    requires Stored(db) && |rows| == |taken| && forall k :: 0 <= k < |taken| ==> taken[k] < |db.jobs|
    requires forall k :: 0 <= k < |rows| ==> rows[k] == RowOf(AfterFailing(db, maxAttempts), taken[k])
    ensures RowsCarryEvents(db, rows)
  {
    var failed := AfterFailing(db, maxAttempts);
    assert forall i :: 0 <= i < |db.jobs| ==> failed.jobs[i].eventId == db.jobs[i].eventId;
  }

  /** The rows come in order, each once, and no more than a batch. */
  lemma HandsOutInOrder(db: Db, batch: nat, cutoff: Option<int>, maxAttempts: Option<nat>)
    requires Stored(db)
    ensures var rows := Handed(db, batch, cutoff, maxAttempts);
            && |rows| <= batch && RowsCarryEvents(db, rows)
            && forall a, b :: 0 <= a < b < |rows| ==> ComesBefore(db, rows[a].job, rows[b].job)
  {
    var failed, rows := AfterFailing(db, maxAttempts), Handed(db, batch, cutoff, maxAttempts);
    var taken := ClaimedRows(failed, cutoff, batch);
    HandsOutDue(db, batch, cutoff, maxAttempts, 0);
    ClaimSpec(failed, cutoff, batch);
    forall a, b | 0 <= a < b < |rows|
      ensures ComesBefore(db, rows[a].job, rows[b].job)
    {
      assert taken[a] in taken && taken[b] in taken;
      EarlierIsBefore(db, maxAttempts, taken[a], taken[b]);
    }
  }

  /** What a claim writes: the jobs handed out are claimed at a clock reading, with one more attempt; one
      whose attempts are used up is failed; the rest is as it was. */
  lemma ClaimWrites(db: Db, batch: nat, cutoff: Option<int>, stamps: nat -> int, maxAttempts: Option<nat>, i: nat)
    requires i < |db.jobs|
    ensures var job, jobs := db.jobs[i], ClaimJobs(db, batch, cutoff, stamps, maxAttempts).jobs;
            && |jobs| == |db.jobs|
            && jobs[i].eventId == job.eventId
            && if HandedOut(Handed(db, batch, cutoff, maxAttempts), i) then
                 && jobs[i].state == Claimed && jobs[i].attempts == job.attempts + 1
                 && exists k :: 0 <= k < |Handed(db, batch, cutoff, maxAttempts)|
                                && Handed(db, batch, cutoff, maxAttempts)[k].job == i && jobs[i].claimedAt == Some(stamps(k))
               else if job.state == Claimed && maxAttempts.Some? && job.attempts >= maxAttempts.value then
                 jobs[i].state == FailedJob && jobs[i].attempts == job.attempts
               else jobs[i] == job
  {
    ClaimOfOneJob(db, batch, cutoff, stamps, maxAttempts, i);
    HandedRow(db, batch, cutoff, maxAttempts, i);
    var taken := ClaimedRows(AfterFailing(db, maxAttempts), cutoff, batch);
    if i in taken {
      var k :| 0 <= k < |taken| && taken[k] == i
               && ClaimJobs(db, batch, cutoff, stamps, maxAttempts).jobs[i] == Marked(db.jobs[i], stamps(k));
      assert Handed(db, batch, cutoff, maxAttempts)[k].job == i;
    }
  }

  // ------------------------------------------------------------- held at a stamp --

  /** A job held since the cutoff or later is not handed out. */
  lemma LiveWorkStays(db: Db, batch: nat, cutoff: Option<int>, maxAttempts: Option<nat>, i: nat)
    requires Stored(db) && i < |db.jobs| && db.jobs[i].state == Claimed
    requires cutoff.None? || db.jobs[i].claimedAt.None? || cutoff.value <= db.jobs[i].claimedAt.value
    ensures !HandedOut(Handed(db, batch, cutoff, maxAttempts), i)
  {
    HandsOutDue(db, batch, cutoff, maxAttempts, i);
  }

  /** A job held since before the cutoff, by whoever, is attempted again or failed by any claim, but for one
      whose batch is full of jobs that come before it. */
  lemma DeadWorkIsRetaken(db: Db, batch: nat, cutoff: int, stamps: nat -> int, maxAttempts: Option<nat>, i: nat)
    requires Stored(db) && i < |db.jobs| && db.jobs[i].state == Claimed
    requires db.jobs[i].claimedAt.Some? && db.jobs[i].claimedAt.value < cutoff
    ensures var rows := Handed(db, batch, Some(cutoff), maxAttempts);
            var after := ClaimJobs(db, batch, Some(cutoff), stamps, maxAttempts).jobs;
            && i < |after|
            && (|| (HandedOut(rows, i) && after[i].state == Claimed && after[i].attempts == db.jobs[i].attempts + 1)
                || (after[i].state == FailedJob && maxAttempts.Some? && db.jobs[i].attempts >= maxAttempts.value)
                || (|rows| == batch && RowsCarryEvents(db, rows)
                    && forall k :: 0 <= k < |rows| ==> ComesBefore(db, rows[k].job, i)))
  {
    HandsOutDue(db, batch, Some(cutoff), maxAttempts, i);
    ClaimWrites(db, batch, Some(cutoff), stamps, maxAttempts, i);
  }

  // ------------------------------------------------------------- who holds a job --

  function RowJob(m: Main): Option<nat> {
    match m
    case Fetch(row) => Some(row.job)
    case OpenInsert(row, _, _) => Some(row.job)
    case OpenRead(row, _, _, _) => Some(row.job)
    case Assign(row, _, _, _) => Some(row.job)
    case Record(row, _) => Some(row.job)
    case RawInsert(_, _) => None
    case Halt(_) => None
  }

  /** The thread is at work on the job, or is still to end it. */
  ghost predicate Works(th: Thread, i: nat) {
    RowJob(th.main) == Some(i) || exists k :: 0 <= k < |th.writes| && th.writes[k].Finish? && th.writes[k].job == i
  }

  ghost predicate InQueue(queue: seq<Row>, i: nat) {
    exists k :: 0 <= k < |queue| && queue[k].job == i
  }

  ghost predicate Holds(process: Process, i: nat) {
    InQueue(process.queue, i) || (process.current.Some? && Works(process.current.value, i))
  }

  /** A thread ends its one job with its last write. */
  ghost predicate OneJob(th: Thread, j: nat) {
    && (RowJob(th.main).Some? ==> RowJob(th.main).value == j)
    && forall k :: 0 <= k < |th.writes| && th.writes[k].Finish? ==>
                     th.writes[k].job == j && k == |th.writes| - 1 && th.main.Halt?
  }

  /** A process has each of its jobs in hand once. */
  ghost predicate Tidy(process: Process) {
    && (forall a, b :: 0 <= a < b < |process.queue| ==> process.queue[a].job != process.queue[b].job)
    && (process.current.Some? ==>
          exists j: nat :: OneJob(process.current.value, j) && (Works(process.current.value, j) ==> !InQueue(process.queue, j)))
  }

  /** A held job is not up for claiming as a waiting one. */
  predicate NotWaiting(jobs: seq<Job>, i: nat) {
    i < |jobs| && (jobs[i].state == Claimed || jobs[i].state == FailedJob)
  }

  ghost predicate Exclusive(sys: System) {
    && (forall p :: p in sys.processes ==> Tidy(sys.processes[p]))
    && (forall p, i: nat :: p in sys.processes && Holds(sys.processes[p], i) ==> NotWaiting(sys.db.jobs, i))
    && forall p, q, i: nat :: p in sys.processes && q in sys.processes && p != q && Holds(sys.processes[p], i) ==>
                           !Holds(sys.processes[q], i)
  }

  /** The cutoff is past the stamp of the job. */
  predicate GoesPast(cutoff: Option<int>, job: Job) {
    cutoff.Some? && job.claimedAt.Some? && job.claimedAt.value < cutoff.value
  }

  /** The claim goes past the stamp of no job that a live process holds. */
  ghost predicate Spares(sys: System, c: Choice) {
    c.Claim? && c.p !in sys.processes ==>
      forall p, i: nat :: p in sys.processes && Holds(sys.processes[p], i) && i < |sys.db.jobs| ==>
                            (sys.db.jobs[i].state == Claimed ==> !GoesPast(c.cutoff, sys.db.jobs[i]))
  }

  lemma SetExclusive(sys: System, b: Db, p: nat, next: Process)
    requires Exclusive(sys) && Tidy(next)
    requires forall i: nat :: Holds(next, i) ==> NotWaiting(b.jobs, i)
    requires forall q, i: nat :: q in sys.processes && q != p && Holds(sys.processes[q], i) ==>
                              NotWaiting(b.jobs, i) && !Holds(next, i)
    ensures Exclusive(SetProcess(sys.(db := b), p, next))
  {
  }

  // ------------------------------------------------------------------- one step --

  lemma ThreadWorks(cfg: Config, a: Db, th: Thread, fetched: Option<Snapshot>, o: Oracle, j: nat)
    requires OneJob(th, j)
    ensures var next := NextThread(cfg, a, th, fetched, o);
            && OneJob(next, j)
            && (forall i: nat :: Works(next, i) ==> Works(th, i))
            && (th.writes != [] && th.writes[0].Finish? ==> forall i: nat :: !Works(next, i))
  {
    var next := NextThread(cfg, a, th, fetched, o);
    if th.writes != [] {
      assert forall k :: 0 <= k < |next.writes| ==> next.writes[k] == th.writes[k + 1];
    } else if th.main.Assign? {
      AssignWorks(cfg, th.main.row, th.main.payment, th.main.snap, th.main.caseId,
                  AttemptN(a, ChainKey(th.main.snap.orderId, th.main.payment), th.main.payment), o);
    } else if th.main.OpenRead? {
      OpenWorks(a, th.main.row, th.main.payment, th.main.snap, th.main.isNew, o);
    }
  }

  lemma AssignWorks(cfg: Config, row: Row, payment: string, snap: Snapshot, caseId: nat, n: nat, o: Oracle)
    ensures var next := AfterAssign(cfg, row, payment, snap, caseId, n, o);
            OneJob(next, row.job) && forall i: nat :: Works(next, i) ==> i == row.job
  {
  }

  lemma OpenWorks(a: Db, row: Row, payment: string, snap: Snapshot, isNew: bool, o: Oracle)
    ensures var next := AfterOpen(a, row, payment, snap, isNew, o);
            OneJob(next, row.job) && forall i: nat :: Works(next, i) ==> i == row.job
  {
  }

  /** A write leaves every job as it was for its holders, but the one it ends. */
  lemma WriteKeepsHeld(a: Db, w: Write, i: nat)
    requires NotWaiting(a.jobs, i) && !(w.Finish? && w.job == i)
    ensures NotWaiting(Do(a, w).jobs, i)
  {
  }

  lemma CommitKeepsHeld(a: Db, th: Thread, i: nat)
    requires NotWaiting(a.jobs, i) && !(th.writes != [] && th.writes[0].Finish? && th.writes[0].job == i)
    ensures NotWaiting(NextDb(a, th).jobs, i)
  {
    if th.writes != [] {
      WriteKeepsHeld(a, th.writes[0], i);
    }
  }

  lemma CommitTidy(sys: System, c: Choice, next: Thread)
    requires c.Commit? && c.p in sys.processes && sys.processes[c.p].current.Some? && Tidy(sys.processes[c.p])
    requires !sys.processes[c.p].current.value.Finished()
    requires next == NextThread(sys.processes[c.p].cfg, sys.db, sys.processes[c.p].current.value,
                                Answer(sys, sys.processes[c.p].current.value, c.refreshFails), c.oracle)
    ensures var process := sys.processes[c.p];
            var th, after := process.current.value, process.(current := Some(next));
            && Tidy(after)
            && (forall i: nat :: Holds(after, i) ==> Holds(process, i))
            && (th.writes != [] && th.writes[0].Finish? ==> Holds(process, th.writes[0].job) && !Holds(after, th.writes[0].job))
  {
    var process := sys.processes[c.p];
    var th, after := process.current.value, process.(current := Some(next));
    var j: nat :| OneJob(th, j) && (Works(th, j) ==> !InQueue(process.queue, j));
    ThreadWorks(process.cfg, sys.db, th, Answer(sys, th, c.refreshFails), c.oracle, j);
    assert OneJob(after.current.value, j);
  }

  lemma CommitExclusive(s: Setting, sys: System, c: Choice)
    requires Exclusive(sys) && c.Commit?
    ensures Exclusive(Step(s, sys, c))
  {
    if c.p in sys.processes && sys.processes[c.p].current.Some? {
      var process := sys.processes[c.p];
      var th := process.current.value;
      if th.Finished() {
        SetExclusive(sys, sys.db, c.p, Retire(process, th));
      } else {
        var next := NextThread(process.cfg, sys.db, th, Answer(sys, th, c.refreshFails), c.oracle);
        CommitTidy(sys, c, next);
        CommitSetExclusive(sys, c.p, next);
      }
    }
  }

  lemma CommitSetExclusive(sys: System, p: nat, next: Thread)
    requires Exclusive(sys) && p in sys.processes && sys.processes[p].current.Some?
    requires var process := sys.processes[p];
             var th, after := process.current.value, process.(current := Some(next));
             && Tidy(after)
             && (forall i: nat :: Holds(after, i) ==> Holds(process, i))
             && (th.writes != [] && th.writes[0].Finish? ==> Holds(process, th.writes[0].job) && !Holds(after, th.writes[0].job))
    ensures Exclusive(SetProcess(sys.(db := NextDb(sys.db, sys.processes[p].current.value)), p,
                                 sys.processes[p].(current := Some(next))))
  {
    var process := sys.processes[p];
    var th, after := process.current.value, process.(current := Some(next));
    var b := NextDb(sys.db, th);
    forall q, i: nat | q in sys.processes && Holds(if q == p then after else sys.processes[q], i)
      ensures NotWaiting(b.jobs, i) && (q != p ==> !Holds(after, i))
    {
      assert Holds(sys.processes[q], i);
      CommitKeepsHeld(sys.db, th, i);
    }
    forall i: nat | Holds(after, i)
      ensures NotWaiting(b.jobs, i)
    {
      CommitKeepsHeld(sys.db, th, i);
    }
    SetExclusive(sys, b, p, after);
  }

  lemma ClaimExclusive(s: Setting, sys: System, c: Choice)
    requires Exclusive(sys) && Stored(sys.db) && Spares(sys, c) && c.Claim? && c.p !in sys.processes
    ensures Exclusive(Step(s, sys, c))
  {
    var b := ClaimJobs(sys.db, c.cfg.batchSize, c.cutoff, c.stamps, c.maxAttempts);
    var rows := Handed(sys.db, c.cfg.batchSize, c.cutoff, c.maxAttempts);
    var next := Process(c.cfg, rows, None);
    HandsOutInOrder(sys.db, c.cfg.batchSize, c.cutoff, c.maxAttempts);
    forall i: nat | Holds(next, i)
      ensures NotWaiting(b.jobs, i)
    {
      assert HandedOut(rows, i);
      ClaimWrites(sys.db, c.cfg.batchSize, c.cutoff, c.stamps, c.maxAttempts, i);
    }
    forall q, i: nat | q in sys.processes && q != c.p && Holds(sys.processes[q], i)
      ensures NotWaiting(b.jobs, i) && !Holds(next, i)
    {
      HeldIsSpared(sys, c, q, i);
      assert Holds(next, i) ==> HandedOut(rows, i);
    }
    SetExclusive(sys, b, c.p, next);
  }

  lemma HeldIsSpared(sys: System, c: Choice, q: nat, i: nat)
    requires Exclusive(sys) && Stored(sys.db) && Spares(sys, c) && c.Claim? && c.p !in sys.processes
    requires q in sys.processes && Holds(sys.processes[q], i)
    ensures NotWaiting(ClaimJobs(sys.db, c.cfg.batchSize, c.cutoff, c.stamps, c.maxAttempts).jobs, i)
    ensures !HandedOut(Handed(sys.db, c.cfg.batchSize, c.cutoff, c.maxAttempts), i)
  {
    assert NotWaiting(sys.db.jobs, i);
    HandsOutDue(sys.db, c.cfg.batchSize, c.cutoff, c.maxAttempts, i);
    ClaimWrites(sys.db, c.cfg.batchSize, c.cutoff, c.stamps, c.maxAttempts, i);
  }

  lemma DeliverExclusive(s: Setting, sys: System, c: Choice)
    requires Exclusive(sys) && c.Deliver? && c.p !in sys.processes
    ensures Exclusive(Step(s, sys, c))
  {
    var next := Process(c.cfg, [], Some(IngestThread(c.cfg, c.delivery)));
    assert OneJob(IngestThread(c.cfg, c.delivery), 0);
    SetExclusive(sys, sys.db, c.p, next);
  }

  lemma StartExclusive(s: Setting, sys: System, p: nat)
    requires Exclusive(sys) && p in sys.processes && sys.processes[p].current.None? && sys.processes[p].queue != []
    ensures Exclusive(Step(s, sys, StartRow(p)))
  {
    var process := sys.processes[p];
    var row, rest := process.queue[0], process.queue[1..];
    var next := Process(process.cfg, rest, Some(Thread([], Fetch(row))));
    assert forall k :: 0 <= k < |rest| ==> rest[k] == process.queue[k + 1];
    assert OneJob(Thread([], Fetch(row)), row.job);
    forall i: nat | Holds(next, i)
      ensures Holds(process, i)
    {
      if i == row.job {
        assert process.queue[0].job == i;
      }
    }
    SetExclusive(sys, sys.db, p, next);
  }

  lemma StepExclusive(s: Setting, sys: System, c: Choice)
    requires Exclusive(sys) && Stored(sys.db) && Spares(sys, c)
    ensures Exclusive(Step(s, sys, c))
  {
    match c
    case Commit(_, _, _) => CommitExclusive(s, sys, c);
    case Claim(p, _, _, _, _) =>
      if p !in sys.processes {
        ClaimExclusive(s, sys, c);
      }
    case Deliver(p, _, _) =>
      if p !in sys.processes {
        DeliverExclusive(s, sys, c);
      }
    case StartRow(p) =>
      if p in sys.processes && sys.processes[p].current.None? && sys.processes[p].queue != [] {
        StartExclusive(s, sys, p);
      }
    case Crash(p) =>
    case SetPayment(_, _, _, _) =>
  }

  // ------------------------------------------------------------------- theorems --

  /** No claim of the run goes past the stamp of a job that a live process holds. */
  ghost predicate AllSpare(s: Setting, choices: seq<Choice>) {
    forall n: nat :: n < |choices| ==> Spares(Run(s, choices[..n]), choices[n])
  }

  lemma SpareBefore(s: Setting, choices: seq<Choice>)
    requires AllSpare(s, choices) && choices != []
    ensures var n := |choices| - 1;
            AllSpare(s, choices[..n]) && Spares(Run(s, choices[..n]), choices[n])
  {
    var n := |choices| - 1;
    forall k: nat | k < n
      ensures Spares(Run(s, choices[..n][..k]), choices[..n][k])
    {
      assert choices[..n][..k] == choices[..k];
    }
  }

  lemma RunStored(s: Setting, choices: seq<Choice>)
    ensures Stored(Run(s, choices).db)
  {
    Orphans.RunFlows(s, choices);
  }

  lemma {:induction false} RunExclusive(s: Setting, choices: seq<Choice>)
    requires AllSpare(s, choices)
    ensures Exclusive(Run(s, choices))
  {
    if choices != [] {
      var n := |choices| - 1;
      SpareBefore(s, choices);
      RunExclusive(s, choices[..n]);
      RunStored(s, choices[..n]);
      StepExclusive(s, Run(s, choices[..n]), choices[n]);
    }
  }

  /** A slow worker loses its job to another only by a claim that went past its stamp: where none did, no
      two live processes hold one job, in any state of the run. */
  lemma WorkIsExclusive(s: Setting, choices: seq<Choice>, p: nat, q: nat, i: nat)
    requires AllSpare(s, choices)
    requires p in Run(s, choices).processes && q in Run(s, choices).processes
    requires Holds(Run(s, choices).processes[p], i) && Holds(Run(s, choices).processes[q], i)
    ensures p == q
  {
    RunExclusive(s, choices);
  }

  /** Over any run: a claim hands out no job held since its cutoff or later, ... */
  lemma RunsLeaveLiveWork(s: Setting, choices: seq<Choice>, c: Choice, i: nat)
    requires c.Claim? && c.p !in Run(s, choices).processes && i < |Run(s, choices).db.jobs|
    requires Run(s, choices).db.jobs[i].state == Claimed && Run(s, choices).db.jobs[i].claimedAt.Some?
    requires c.cutoff.None? || c.cutoff.value <= Run(s, choices).db.jobs[i].claimedAt.value
    ensures !Holds(Step(s, Run(s, choices), c).processes[c.p], i)
  {
    var db := Run(s, choices).db;
    RunStored(s, choices);
    LiveWorkStays(db, c.cfg.batchSize, c.cutoff, c.maxAttempts, i);
    assert InQueue(Handed(db, c.cfg.batchSize, c.cutoff, c.maxAttempts), i) ==>
             HandedOut(Handed(db, c.cfg.batchSize, c.cutoff, c.maxAttempts), i);
  }

  /** ... and one with room hands out, or fails, every job held since before it. */
  lemma RunsRetakeDeadWork(s: Setting, choices: seq<Choice>, c: Choice, i: nat)
    requires c.Claim? && c.p !in Run(s, choices).processes && i < |Run(s, choices).db.jobs|
    requires Run(s, choices).db.jobs[i].state == Claimed && Run(s, choices).db.jobs[i].claimedAt.Some?
    requires c.cutoff.Some? && Run(s, choices).db.jobs[i].claimedAt.value < c.cutoff.value
    requires |Handed(Run(s, choices).db, c.cfg.batchSize, c.cutoff, c.maxAttempts)| < c.cfg.batchSize
    ensures var before, after := Run(s, choices), Step(s, Run(s, choices), c);
            && i < |after.db.jobs|
            && (|| (Holds(after.processes[c.p], i) && after.db.jobs[i].attempts == before.db.jobs[i].attempts + 1)
                || (after.db.jobs[i].state == FailedJob && c.maxAttempts.Some?
                    && before.db.jobs[i].attempts >= c.maxAttempts.value))
  {
    var db := Run(s, choices).db;
    RunStored(s, choices);
    DeadWorkIsRetaken(db, c.cfg.batchSize, c.cutoff.value, c.stamps, c.maxAttempts, i);
    assert HandedOut(Handed(db, c.cfg.batchSize, c.cutoff, c.maxAttempts), i) ==>
             InQueue(Handed(db, c.cfg.batchSize, c.cutoff, c.maxAttempts), i);
  }
}
