/** Which stored events never get a job. Storing an event and enqueueing its job are two commits, and
    once the event is stored every redelivery of it is a duplicate. */
module Orphans {
  import opened Models
  import opened Stores
  import opened Guards
  import opened Protocol
  import opened Safety
  import opened Interleaving

  /** The event whose job a process is still to enqueue. */
  function DueKey(process: Process): Option<string> {
    if process.current.None? || process.current.value.writes == [] then None else
    var w := process.current.value.writes[|process.current.value.writes| - 1];
    if w.Enqueue? then Some(w.eventId) else None
  }

  /** The event is stored, has no job, and no one is about to give it one. */
  ghost predicate Orphan(sys: System, id: string) {
    && id in sys.db.rawEvents && !HasJob(sys.db.jobs, id)
    && forall p :: p in sys.processes ==> DueKey(sys.processes[p]) != Some(id)
  }

  // ------------------------------------------------------------------ invariant --

  ghost predicate JobsHaveEvents(db: Db) {
    forall i :: 0 <= i < |db.jobs| ==> db.jobs[i].eventId in db.rawEvents
  }

  /** A job is enqueued last, for an event that is stored and has none. */
  ghost predicate Enqueues(db: Db, process: Process) {
    && (process.current.Some? ==>
          var writes := process.current.value.writes;
          forall i :: 0 <= i < |writes| - 1 ==> !writes[i].Enqueue?)
    && (DueKey(process).Some? ==> DueKey(process).value in db.rawEvents && !HasJob(db.jobs, DueKey(process).value))
  }

  ghost predicate Flows(sys: System) {
    && JobsHaveEvents(sys.db)
    && (forall p :: p in sys.processes ==> Enqueues(sys.db, sys.processes[p]))
    && forall p, q :: p in sys.processes && q in sys.processes && p != q && DueKey(sys.processes[p]).Some? ==>
                        DueKey(sys.processes[p]) != DueKey(sys.processes[q])
  }

  /** The same jobs, for all that is asked here. */
  ghost predicate SameEvents(a: seq<Job>, b: seq<Job>) {
    |a| == |b| && forall i :: 0 <= i < |a| ==> a[i].eventId == b[i].eventId
  }

  lemma SameEventsSameJobs(a: seq<Job>, b: seq<Job>, id: string)
    requires SameEvents(a, b)
    ensures HasJob(a, id) <==> HasJob(b, id)
  {
    if HasJob(a, id) {
      var i :| 0 <= i < |a| && a[i].eventId == id;
      assert b[i].eventId == id;
    }
    if HasJob(b, id) {
      var i :| 0 <= i < |b| && b[i].eventId == id;
      assert a[i].eventId == id;
    }
  }

  lemma {:induction false} MarkingKeepsEvents(jobs: seq<Job>, rows: seq<nat>, stamps: nat -> int)
    ensures SameEvents(jobs, MarkAllClaimed(jobs, rows, stamps))
  {
    if rows != [] {
      MarkingKeepsEvents(jobs, rows[..|rows| - 1], stamps);
    }
  }

  lemma ClaimKeepsEvents(db: Db, limit: nat, cutoff: Option<int>, stamps: nat -> int, maxAttempts: Option<nat>)
    ensures var after := ClaimJobs(db, limit, cutoff, stamps, maxAttempts);
            SameEvents(db.jobs, after.jobs) && after.rawEvents == db.rawEvents
  {
    var failed := AfterFailing(db, maxAttempts);
    MarkingKeepsEvents(failed.jobs, ClaimedRows(failed, cutoff, limit), stamps);
  }

  // ------------------------------------------------------------------- one step --

  /** What a step may do to events and jobs: `stored` is the event it stores, `queued` the one it gives
      a job. */
  ghost predicate Effect(a: Db, b: Db, stored: Option<string>, queued: Option<string>) {
    && b.rawEvents.Keys == a.rawEvents.Keys + (if stored.Some? then {stored.value} else {})
    && forall id :: HasJob(b.jobs, id) <==> HasJob(a.jobs, id) || queued == Some(id)
  }

  lemma EffectKeepsJobs(a: Db, b: Db, stored: Option<string>, queued: Option<string>)
    requires JobsHaveEvents(a) && Effect(a, b, stored, queued) && (queued.Some? ==> queued.value in a.rawEvents)
    ensures JobsHaveEvents(b)
  {
    forall i | 0 <= i < |b.jobs|
      ensures b.jobs[i].eventId in b.rawEvents
    {
      var id := b.jobs[i].eventId;
      assert HasJob(b.jobs, id);
      if HasJob(a.jobs, id) {
        var j :| 0 <= j < |a.jobs| && a.jobs[j].eventId == id;
        assert id in a.rawEvents.Keys;
      }
      assert id in b.rawEvents.Keys;
    }
  }

  lemma SameJobsEffect(a: Db, b: Db)
    requires SameEvents(a.jobs, b.jobs) && b.rawEvents == a.rawEvents
    ensures Effect(a, b, None, None)
  {
    forall id
      ensures HasJob(b.jobs, id) <==> HasJob(a.jobs, id)
    {
      SameEventsSameJobs(a.jobs, b.jobs, id);
    }
  }

  lemma WriteEffect(a: Db, w: Write)
    ensures Effect(a, Do(a, w), None, if w.Enqueue? then Some(w.eventId) else None)
  {
    if w.Enqueue? {
      EnqueueEffect(a, w.eventId);
    } else {
      SameJobsEffect(a, Do(a, w));
    }
  }

  lemma EnqueueEffect(a: Db, eventId: string)
    ensures Effect(a, EnqueueJob(a, eventId), None, Some(eventId))
  {
    var b := EnqueueJob(a, eventId);
    if !HasJob(a.jobs, eventId) {
      forall id
        ensures HasJob(b.jobs, id) <==> HasJob(a.jobs, id) || id == eventId
      {
        if HasJob(a.jobs, id) {
          var i :| 0 <= i < |a.jobs| && a.jobs[i].eventId == id;
          assert b.jobs[i].eventId == id;
        }
        assert b.jobs[|a.jobs|].eventId == eventId;
      }
    }
  }

  /** What a commit makes of a thread that enqueues last: it goes on owing the job it owed, or enqueues
      it, or stores a new event and owes its job. */
  ghost predicate Moves(a: Db, process: Process, b: Db, next: Process) {
    exists stored, queued :: MovesBy(a, process, b, next, stored, queued)
  }

  ghost predicate MovesBy(a: Db, process: Process, b: Db, next: Process, stored: Option<string>, queued: Option<string>) {
    && Effect(a, b, stored, queued)
    && (stored.Some? ==> stored.value !in a.rawEvents && DueKey(process).None? && DueKey(next) == stored)
    && (queued.Some? ==> DueKey(process) == queued && DueKey(next).None?)
    && (stored.None? && queued.None? ==> DueKey(next) == DueKey(process))
  }

  ghost predicate LastOnly(process: Process) {
    process.current.Some? ==>
      var writes := process.current.value.writes;
      forall i :: 0 <= i < |writes| - 1 ==> !writes[i].Enqueue?
  }

  lemma ThreadMoves(cfg: Config, a: Db, th: Thread, fetched: Option<Snapshot>, o: Oracle, queue: seq<Row>)
    requires LastOnly(Process(cfg, queue, Some(th))) && !th.Finished()
    ensures var next := Process(cfg, queue, Some(NextThread(cfg, a, th, fetched, o)));
            LastOnly(next) && Moves(a, Process(cfg, queue, Some(th)), NextDb(a, th), next)
  {
    var now, next := Process(cfg, queue, Some(th)), Process(cfg, queue, Some(NextThread(cfg, a, th, fetched, o)));
    var b := NextDb(a, th);
    if th.writes != [] {
      WriteEffect(a, th.writes[0]);
      assert |th.writes| > 1 ==> th.writes[1..][|th.writes| - 2] == th.writes[|th.writes| - 1];
      assert MovesBy(a, now, b, next, None, if th.writes[0].Enqueue? then DueKey(now) else None);
    } else if th.main.RawInsert? {
      RawInsertMoves(cfg, a, th, fetched, o, queue);
    } else {
      SameJobsEffect(a, b);
      QuietMain(cfg, a, th, fetched, o);
      assert MovesBy(a, now, b, next, None, None);
    }
  }

  lemma RawInsertMoves(cfg: Config, a: Db, th: Thread, fetched: Option<Snapshot>, o: Oracle, queue: seq<Row>)
    requires th.writes == [] && th.main.RawInsert?
    ensures var next := Process(cfg, queue, Some(NextThread(cfg, a, th, fetched, o)));
            LastOnly(next) && Moves(a, Process(cfg, queue, Some(th)), NextDb(a, th), next)
  {
    var id, b := th.main.eventId, NextDb(a, th);
    var now, next := Process(cfg, queue, Some(th)), Process(cfg, queue, Some(NextThread(cfg, a, th, fetched, o)));
    if id in a.rawEvents {
      SameJobsEffect(a, b);
      assert MovesBy(a, now, b, next, None, None);
    } else {
      SameJobsEffect(a, a.(jobs := b.jobs));
      assert MovesBy(a, now, b, next, Some(id), None);
    }
  }

  predicate NeverEnqueues(writes: seq<Write>) {
    forall i :: 0 <= i < |writes| ==> !writes[i].Enqueue?
  }

  lemma QuietMain(cfg: Config, a: Db, th: Thread, fetched: Option<Snapshot>, o: Oracle)
    requires th.writes == [] && !th.main.RawInsert?
    ensures NeverEnqueues(NextThread(cfg, a, th, fetched, o).writes)
  {
    match th.main
    case OpenRead(row, payment, snap, isNew) => QuietAfterOpen(a, row, payment, snap, isNew, o);
    case Assign(row, payment, snap, caseId) =>
      assert forall n :: NeverEnqueues(AfterAssign(cfg, row, payment, snap, caseId, n, o).writes);
    case _ =>
  }

  lemma QuietAfterOpen(a: Db, row: Row, payment: string, snap: Snapshot, isNew: bool, o: Oracle)
    ensures NeverEnqueues(AfterOpen(a, row, payment, snap, isNew, o).writes)
  {
  }

  /** The process that a step is about to set: a new one owes nothing. */
  function Was(sys: System, p: nat, next: Process): Process {
    if p in sys.processes then sys.processes[p] else next.(current := None)
  }

  lemma SetFlows(sys: System, b: Db, p: nat, next: Process)
    requires Flows(sys) && LastOnly(next) && Moves(sys.db, Was(sys, p, next), b, next)
    ensures Flows(SetProcess(sys.(db := b), p, next))
  {
    var stored, queued :| MovesBy(sys.db, Was(sys, p, next), b, next, stored, queued);
    EffectKeepsJobs(sys.db, b, stored, queued);
    forall q | q in sys.processes && q != p
      ensures Enqueues(b, sys.processes[q])
      ensures DueKey(sys.processes[q]).Some? ==> DueKey(sys.processes[q]) != DueKey(next)
    {
      assert Enqueues(sys.db, sys.processes[q]);
      OtherFlows(sys, b, p, q, next, stored, queued);
    }
    NextFlows(sys, b, p, next, stored, queued);
  }

  lemma OtherFlows(sys: System, b: Db, p: nat, q: nat, next: Process, stored: Option<string>, queued: Option<string>)
    requires Flows(sys) && MovesBy(sys.db, Was(sys, p, next), b, next, stored, queued)
    requires q in sys.processes && q != p && Enqueues(sys.db, sys.processes[q])
    ensures Enqueues(b, sys.processes[q])
    ensures DueKey(sys.processes[q]).Some? ==> DueKey(sys.processes[q]) != DueKey(next)
  {
    var due := DueKey(sys.processes[q]);
    if due.Some? {
      assert due.value in b.rawEvents.Keys;
      assert p in sys.processes ==> due != DueKey(sys.processes[p]);
    }
  }

  lemma NextFlows(sys: System, b: Db, p: nat, next: Process, stored: Option<string>, queued: Option<string>)
    requires Flows(sys) && LastOnly(next) && MovesBy(sys.db, Was(sys, p, next), b, next, stored, queued)
    ensures Enqueues(b, next)
  {
    assert p in sys.processes ==> Enqueues(sys.db, sys.processes[p]);
    if DueKey(next).Some? {
      assert DueKey(next).value in b.rawEvents.Keys;
    }
  }

  /** No event is orphaned, or adopted, by setting a process. */
  lemma SetKeepsOrphans(sys: System, b: Db, p: nat, next: Process, id: string)
    requires Flows(sys) && Moves(sys.db, Was(sys, p, next), b, next)
    ensures Orphan(SetProcess(sys.(db := b), p, next), id) <==> Orphan(sys, id)
  {
    var t := SetProcess(sys.(db := b), p, next);
    var stored, queued :| MovesBy(sys.db, Was(sys, p, next), b, next, stored, queued);
    assert id in b.rawEvents <==> id in b.rawEvents.Keys;
    assert p in t.processes && t.processes[p] == next;
    assert forall q :: q in sys.processes && q != p ==> t.processes[q] == sys.processes[q];
    if Orphan(sys, id) {
      assert p in sys.processes ==> DueKey(sys.processes[p]) != Some(id);
      assert DueKey(next) != Some(id);
    }
  }

  /** The step sets one process, and moves it as a thread may. */
  ghost predicate SetsBy(sys: System, t: System, p: nat, next: Process) {
    && t == SetProcess(sys.(db := t.db), p, next)
    && LastOnly(next) && Moves(sys.db, Was(sys, p, next), t.db, next)
  }

  lemma CommitSets(s: Setting, sys: System, c: Choice)
    requires Flows(sys) && c.Commit? && c.p in sys.processes && sys.processes[c.p].current.Some?
    ensures SetsBy(sys, Step(s, sys, c), c.p, Step(s, sys, c).processes[c.p])
  {
    var process := sys.processes[c.p];
    var th := process.current.value;
    assert Enqueues(sys.db, process);
    if th.Finished() {
      SameJobsEffect(sys.db, sys.db);
      assert MovesBy(sys.db, process, sys.db, Retire(process, th), None, None);
    } else {
      ThreadMoves(process.cfg, sys.db, th, Answer(sys, th, c.refreshFails), c.oracle, process.queue);
    }
  }

  lemma StartSets(s: Setting, sys: System, c: Choice)
    requires c.Deliver? || c.Claim? || c.StartRow?
    requires Step(s, sys, c) != sys
    ensures SetsBy(sys, Step(s, sys, c), c.p, Step(s, sys, c).processes[c.p])
  {
    var t := Step(s, sys, c);
    if c.Claim? {
      ClaimKeepsEvents(sys.db, c.cfg.batchSize, c.cutoff, c.stamps, c.maxAttempts);
    }
    SameJobsEffect(sys.db, t.db);
    assert MovesBy(sys.db, Was(sys, c.p, t.processes[c.p]), t.db, t.processes[c.p], None, None);
  }

  /** The choice crashes a process that is still to enqueue the job of the event. */
  ghost predicate Hits(sys: System, c: Choice, id: string) {
    c.Crash? && c.p in sys.processes && DueKey(sys.processes[c.p]) == Some(id)
  }

  lemma StepFlows(s: Setting, sys: System, c: Choice)
    requires Flows(sys)
    ensures Flows(Step(s, sys, c))
  {
    if c.Commit? && c.p in sys.processes && sys.processes[c.p].current.Some? {
      CommitSets(s, sys, c);
      SetFlows(sys, Step(s, sys, c).db, c.p, Step(s, sys, c).processes[c.p]);
    } else if (c.Deliver? || c.Claim? || c.StartRow?) && Step(s, sys, c) != sys {
      StartSets(s, sys, c);
      SetFlows(sys, Step(s, sys, c).db, c.p, Step(s, sys, c).processes[c.p]);
    }
  }

  lemma CrashOrphans(s: Setting, sys: System, p: nat, id: string)
    requires Flows(sys)
    ensures Orphan(Step(s, sys, Crash(p)), id) <==> Orphan(sys, id) || Hits(sys, Crash(p), id)
  {
    var t := Step(s, sys, Crash(p));
    assert p in sys.processes ==> Enqueues(sys.db, sys.processes[p]);
    assert forall q :: q in sys.processes && q != p ==> q in t.processes && t.processes[q] == sys.processes[q];
    if Hits(sys, Crash(p), id) {
      assert forall q :: q in t.processes ==> DueKey(t.processes[q]) != Some(id);
    }
  }

  lemma StepOrphansIff(s: Setting, sys: System, c: Choice, id: string)
    requires Flows(sys)
    ensures Orphan(Step(s, sys, c), id) <==> Orphan(sys, id) || Hits(sys, c, id)
  {
    if c.Crash? {
      CrashOrphans(s, sys, c.p, id);
    } else if c.Commit? && c.p in sys.processes && sys.processes[c.p].current.Some? {
      CommitSets(s, sys, c);
      SetKeepsOrphans(sys, Step(s, sys, c).db, c.p, Step(s, sys, c).processes[c.p], id);
    } else if (c.Deliver? || c.Claim? || c.StartRow?) && Step(s, sys, c) != sys {
      StartSets(s, sys, c);
      SetKeepsOrphans(sys, Step(s, sys, c).db, c.p, Step(s, sys, c).processes[c.p], id);
    }
  }

  // ------------------------------------------------------------------- theorems --

  lemma {:induction false} RunFlows(s: Setting, choices: seq<Choice>)
    ensures Flows(Run(s, choices))
  {
    if choices != [] {
      RunFlows(s, choices[..|choices| - 1]);
      StepFlows(s, Run(s, choices[..|choices| - 1]), choices[|choices| - 1]);
    }
  }

  ghost predicate CrashHits(s: Setting, choices: seq<Choice>, i: nat, id: string) {
    i < |choices| && Hits(Run(s, choices[..i]), choices[i], id)
  }

  lemma HitsSoFar(s: Setting, choices: seq<Choice>, id: string)
    requires choices != []
    ensures var n := |choices| - 1;
            (exists i: nat :: CrashHits(s, choices, i, id)) <==>
            (exists i: nat :: CrashHits(s, choices[..n], i, id)) || Hits(Run(s, choices[..n]), choices[n], id)
  {
    var n := |choices| - 1;
    forall i: nat | i < n
      ensures CrashHits(s, choices[..n], i, id) <==> CrashHits(s, choices, i, id)
    {
      assert choices[..n][..i] == choices[..i];
    }
    assert CrashHits(s, choices, n, id) <==> Hits(Run(s, choices[..n]), choices[n], id);
  }

  /** An event is left stored with no job exactly when some crash of the run hit the ingest between
      storing it and enqueueing its job, however often it is delivered again. */
  lemma {:induction false} OrphanIff(s: Setting, choices: seq<Choice>, id: string)
    ensures Orphan(Run(s, choices), id) <==> exists i: nat :: CrashHits(s, choices, i, id)
  {
    if choices != [] {
      var n := |choices| - 1;
      OrphanIff(s, choices[..n], id);
      RunFlows(s, choices[..n]);
      StepOrphansIff(s, Run(s, choices[..n]), choices[n], id);
      HitsSoFar(s, choices, id);
    }
  }

  /** And then for ever: no later run, whatever is delivered in it, gives it a job. */
  lemma {:induction false} OrphanForEver(s: Setting, sys: System, more: seq<Choice>, id: string)
    requires Flows(sys) && Orphan(sys, id)
    ensures Flows(RunFrom(s, sys, more)) && Orphan(RunFrom(s, sys, more), id)
  {
    if more != [] {
      var before := RunFrom(s, sys, more[..|more| - 1]);
      OrphanForEver(s, sys, more[..|more| - 1], id);
      StepFlows(s, before, more[|more| - 1]);
      StepOrphansIff(s, before, more[|more| - 1], id);
    }
  }

  lemma RunAppend(s: Setting, choices: seq<Choice>, c: Choice)
    ensures Run(s, choices + [c]) == Step(s, Run(s, choices), c)
  {
    assert (choices + [c])[..|choices|] == choices;
  }

  /** The shortest such run: a delivery whose process dies after its first commit. */
  lemma OrphaningRun(s: Setting, cfg: Config, d: Delivery, o: Oracle)
    requires IngestThread(cfg, d).writes == [] && IngestThread(cfg, d).main.RawInsert?
    ensures Orphan(Run(s, [Deliver(0, cfg, d), Commit(0, false, o), Crash(0)]), d.eventIdHeader.value)
  {
    var id, choices := d.eventIdHeader.value, [Deliver(0, cfg, d), Commit(0, false, o), Crash(0)];
    RunAppend(s, [], choices[0]);
    RunAppend(s, [choices[0]], choices[1]);
    var delivered, stored := Run(s, [choices[0]]), Run(s, [choices[0], choices[1]]);
    assert [] + [choices[0]] == [choices[0]] && [choices[0]] + [choices[1]] == [choices[0], choices[1]];
    assert delivered.processes[0].current.value == IngestThread(cfg, d) && delivered.db == EMPTY_DB;
    assert stored.processes[0].current.value.writes == [Entry(None, id, WebhookReceived), Enqueue(id)];
    assert choices[..2] == [choices[0], choices[1]];
    assert CrashHits(s, choices, 2, id);
    OrphanIff(s, choices, id);
  }
}
