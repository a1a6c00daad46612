/** What the attempt limit of a job does hold: over every interleaving, a job is attempted no more often
    than its limit and its returns to the queue together allow. */
module Attempts {
  import opened Models
  import opened Stores
  import opened Protocol
  import opened Safety
  import opened Interleaving

  /** A claim meets a job whose attempts have reached the limit: it attempts the job once more exactly
      when the job was waiting and is taken; a job whose last claim died is failed instead. */
  lemma LimitReachedIff(db: Db, batch: nat, cutoff: Option<int>, stamps: nat -> int, limit: nat, i: nat)
    requires i < |db.jobs| && db.jobs[i].attempts >= limit
    ensures var before, after := db.jobs[i], ClaimJobs(db, batch, cutoff, stamps, Some(limit)).jobs;
            && |after| == |db.jobs|
            && (after[i].attempts > before.attempts <==>
                before.state == Pending && i in ClaimedRows(AfterFailing(db, Some(limit)), cutoff, batch))
            && (before.state == Claimed ==> after[i] == before.(state := FailedJob))
            && (before.state == Done || before.state == FailedJob ==> after[i] == before)
  {
    ClaimOfOneJob(db, batch, cutoff, stamps, Some(limit), i);
  }

  // -------------------------------------------------------------- over every run --

  /** Whether a choice commits the return of job `i` to the queue. */
  function Returned(sys: System, c: Choice, i: nat): nat {
    if && c.Commit? && c.p in sys.processes && sys.processes[c.p].current.Some?
       && sys.processes[c.p].current.value.writes != []
       && sys.processes[c.p].current.value.writes[0] == Finish(i, JobState.Pending)
    then 1 else 0
  }

  /** How often a run returns job `i` to the queue. */
  function Returns(s: Setting, sys: System, choices: seq<Choice>, i: nat): nat {
    if choices == [] then 0 else
    var front, last := choices[..|choices| - 1], choices[|choices| - 1];
    Returns(s, sys, front, i) + Returned(RunFrom(s, sys, front), last, i)
  }

  predicate LimitedClaim(c: Choice, limit: nat) {
    c.Claim? ==> c.maxAttempts == Some(limit)
  }

  function AtLeastOne(limit: nat): nat {
    if limit > 1 then limit else 1
  }

  /** The attempts made, and the one a waiting job still has coming. */
  predicate Within(job: Job, limit: nat, back: nat) {
    job.attempts + (if job.state == Pending then 1 else 0) <= AtLeastOne(limit) + back
  }

  ghost predicate WithinAt(jobs: seq<Job>, limit: nat, back: nat, i: nat) {
    i < |jobs| ==> Within(jobs[i], limit, back)
  }

  lemma ClaimWithin(sys: System, c: Choice, limit: nat, back: nat, i: nat)
    requires c.Claim? && c.maxAttempts == Some(limit) && WithinAt(sys.db.jobs, limit, back, i)
    ensures WithinAt(ClaimJobs(sys.db, c.cfg.batchSize, c.cutoff, c.stamps, c.maxAttempts).jobs, limit, back, i)
  {
    var db, after := sys.db, ClaimJobs(sys.db, c.cfg.batchSize, c.cutoff, c.stamps, c.maxAttempts);
    if i < |db.jobs| {
      ClaimOfOneJob(db, c.cfg.batchSize, c.cutoff, c.stamps, c.maxAttempts, i);
    } else if |db.jobs| > 0 {
      ClaimOfOneJob(db, c.cfg.batchSize, c.cutoff, c.stamps, c.maxAttempts, 0);
    } else {
      NoJobsNoClaim(db, c.cfg.batchSize, c.cutoff, c.stamps, c.maxAttempts);
    }
  }

  lemma NoJobsNoClaim(db: Db, batch: nat, cutoff: Option<int>, stamps: nat -> int, maxAttempts: Option<nat>)
    requires db.jobs == []
    ensures ClaimJobs(db, batch, cutoff, stamps, maxAttempts).jobs == []
  {
    assert FailExhausted([], maxAttempts) == [];
  }

  lemma WriteWithin(db: Db, w: Write, limit: nat, back: nat, i: nat)
    requires WithinAt(db.jobs, limit, back, i)
    ensures WithinAt(Do(db, w).jobs, limit, back + if w == Finish(i, JobState.Pending) then 1 else 0, i)
  {
  }

  lemma StepWithin(s: Setting, sys: System, c: Choice, limit: nat, back: nat, i: nat)
    requires LimitedClaim(c, limit) && WithinAt(sys.db.jobs, limit, back, i)
    ensures WithinAt(Step(s, sys, c).db.jobs, limit, back + Returned(sys, c, i), i)
  {
    if c.Claim? {
      ClaimWithin(sys, c, limit, back, i);
    } else if c.Commit? && c.p in sys.processes && sys.processes[c.p].current.Some? {
      var th := sys.processes[c.p].current.value;
      if th.writes != [] {
        WriteWithin(sys.db, th.writes[0], limit, back, i);
      }
    }
  }

  lemma {:induction false} RunWithin(s: Setting, choices: seq<Choice>, limit: nat, i: nat)
    requires forall k :: 0 <= k < |choices| ==> LimitedClaim(choices[k], limit)
    ensures WithinAt(Run(s, choices).db.jobs, limit, Returns(s, START, choices, i), i)
  {
    if choices != [] {
      var front, last := choices[..|choices| - 1], choices[|choices| - 1];
      RunWithin(s, front, limit, i);
      StepWithin(s, Run(s, front), last, limit, Returns(s, START, front, i), i);
    }
  }

  /** Whatever interleaves, crashes or is reclaimed: a job is attempted no more often than its limit (at
      least once) and its returns to the queue; so a job that only kills its workers is given up. */
  lemma AttemptsAreBounded(s: Setting, choices: seq<Choice>, limit: nat, i: nat)
    requires forall k :: 0 <= k < |choices| ==> LimitedClaim(choices[k], limit)
    requires i < |Run(s, choices).db.jobs|
    ensures Run(s, choices).db.jobs[i].attempts <= AtLeastOne(limit) + Returns(s, START, choices, i)
  {
    RunWithin(s, choices, limit, i);
  }
}
