/** Whether every stored decision reaches the trail. Storing and announcing are two commits, so "as
    many announcements as decisions" is false in between, and after a crash there for good. Here is what
    holds instead in every state of every run: decisions are announcements, plus those about to be
    announced, plus those a crash lost. */
module Announcements {
  import opened Models
  import opened Stores
  import opened Guards
  import opened Protocol
  import opened Safety
  import opened Interleaving
  import opened Schedules
  import JobAtomic

  /** The decision is stored, the trail does not say so, and no one is about to say so. */
  ghost predicate Lost(sys: System, key: string) {
    && key in sys.db.decisions
    && !Announced(sys.db.audit, key)
    && forall p :: p in sys.processes ==> PendingKey(sys.processes[p]) != Some(key)
  }

  /** A crash between storing a decision and announcing it leaves the decision unannounced ... */
  lemma CrashLosesAnnouncement(s: Setting, sys: System, p: nat)
    requires Inv(s, sys) && p in sys.processes && PendingKey(sys.processes[p]).Some?
    ensures Lost(Step(s, sys, Crash(p)), PendingKey(sys.processes[p]).value)
  {
    assert ProcessOk(s, sys.db, sys.processes[p]);
  }

  lemma LostCommit(s: Setting, sys: System, c: Choice, key: string)
    requires Inv(s, sys) && Lost(sys, key) && Allowed(s, c) && c.Commit?
    ensures Lost(Step(s, sys, c), key)
  {
    if c.p in sys.processes && sys.processes[c.p].current.Some? {
      var process := sys.processes[c.p];
      var th := process.current.value;
      if !th.Finished() {
        var fetched := Answer(sys, th, c.refreshFails);
        var b, next := NextDb(sys.db, th), NextThread(process.cfg, sys.db, th, fetched, c.oracle);
        assert Kept(s, sys.db, th, b, next) by {
          assert ProcessOk(s, sys.db, process);
          CommitKeeps(s, process.cfg, sys.db, th, fetched, c.oracle);
        }
        StaysLost(s, sys, c.p, key, b, next);
      } else {
        StaysUnspoken(sys, sys.db, c.p, key, Retire(process, th));
      }
    }
  }

  lemma StaysLost(s: Setting, sys: System, p: nat, key: string, b: Db, next: Thread)
    requires Lost(sys, key) && p in sys.processes && sys.processes[p].current.Some?
    requires Kept(s, sys.db, sys.processes[p].current.value, b, next)
    ensures Lost(SetProcess(sys.(db := b), p, sys.processes[p].(current := Some(next))), key)
  {
    var th := sys.processes[p].current.value;
    assert PendingKey(sys.processes[p]) != Some(key);
    assert HasPending(th) ==> th.writes[0].entry.what.key != key;
    assert HasPending(next) ==> next.writes[0].entry.what.key != key;
    StaysUnspoken(sys, b, p, key, sys.processes[p].(current := Some(next)));
  }

  /** Replacing a process by one that does not speak of the decision keeps it lost. */
  lemma StaysUnspoken(sys: System, b: Db, p: nat, key: string, process: Process)
    requires Lost(sys, key) && key in b.decisions && !Announced(b.audit, key) && PendingKey(process) != Some(key)
    ensures Lost(SetProcess(sys.(db := b), p, process), key)
  {
  }

  lemma LostStep(s: Setting, sys: System, c: Choice, key: string)
    requires Inv(s, sys) && Lost(sys, key) && Allowed(s, c)
    ensures Lost(Step(s, sys, c), key)
  {
    if c.Commit? {
      LostCommit(s, sys, c, key);
    } else if IsStart(c) && Step(s, sys, c) != sys {
      var b, p, process := StartShape(s, sys, c);
      StaysUnspoken(sys, b, p, key, process);
    }
  }

  predicate IsStart(c: Choice) {
    c.Deliver? || c.Claim? || c.StartRow?
  }

  /** A delivery, a claim or a row begun sets one process, which has nothing to announce yet. */
  lemma StartShape(s: Setting, sys: System, c: Choice) returns (b: Db, p: nat, process: Process)
    requires IsStart(c) && Step(s, sys, c) != sys
    ensures Step(s, sys, c) == SetProcess(sys.(db := b), p, process)
    ensures b.decisions == sys.db.decisions && b.audit == sys.db.audit && PendingKey(process).None?
    ensures p in sys.processes ==> PendingKey(sys.processes[p]).None?
  {
    b, p, process := Step(s, sys, c).db, c.p, Step(s, sys, c).processes[c.p];
  }

  /** ... for ever: no later run announces it. */
  lemma {:induction false} LostForEver(s: Setting, sys: System, more: seq<Choice>, key: string)
    requires Inv(s, sys) && Lost(sys, key) && AllAllowed(s, more)
    ensures Lost(RunFrom(s, sys, more), key)
  {
    if more != [] {
      LostForEver(s, sys, more[..|more| - 1], key);
      RunFromKeeps(s, sys, more[..|more| - 1]);
      LostStep(s, RunFrom(s, sys, more[..|more| - 1]), more[|more| - 1], key);
    }
  }

  // ------------------------------------------------- exactly which are lost --

  /** Some live process is about to announce the decision. */
  ghost predicate PendingSomewhere(sys: System, key: string) {
    exists p :: p in sys.processes && PendingKey(sys.processes[p]) == Some(key)
  }

  /** The choice crashes a process that is about to announce the decision. */
  ghost predicate Hits(sys: System, c: Choice, key: string) {
    c.Crash? && c.p in sys.processes && PendingKey(sys.processes[c.p]) == Some(key)
  }

  ghost predicate CrashHits(s: Setting, choices: seq<Choice>, i: nat, key: string) {
    i < |choices| && Hits(Run(s, choices[..i]), choices[i], key)
  }

  /** Some crash of the run hit a process between storing a decision and announcing it. */
  ghost predicate AnyHit(s: Setting, choices: seq<Choice>) {
    exists i: nat, key :: CrashHits(s, choices, i, key)
  }

  /** A decision is lost exactly when some crash in the run hit the process about to announce it. */
  lemma {:induction false} LostIff(s: Setting, choices: seq<Choice>, key: string)
    requires AllAllowed(s, choices)
    ensures Lost(Run(s, choices), key) <==> exists i: nat :: CrashHits(s, choices, i, key)
  {
    if choices != [] {
      var n := |choices| - 1;
      LostIff(s, choices[..n], key);
      RunKeeps(s, choices[..n]);
      LostAfterStepIff(s, Run(s, choices[..n]), choices[n], key);
      HitsSoFar(s, choices, key);
    }
  }

  lemma HitsSoFar(s: Setting, choices: seq<Choice>, key: string)
    requires choices != []
    ensures var n := |choices| - 1;
            (exists i: nat :: CrashHits(s, choices, i, key)) <==>
            (exists i: nat :: CrashHits(s, choices[..n], i, key)) || Hits(Run(s, choices[..n]), choices[n], key)
  {
    var n := |choices| - 1;
    forall i: nat | i < n
      ensures CrashHits(s, choices[..n], i, key) <==> CrashHits(s, choices, i, key)
    {
      assert choices[..n][..i] == choices[..i];
    }
    assert CrashHits(s, choices, n, key) <==> Hits(Run(s, choices[..n]), choices[n], key);
  }

  lemma LostAfterStepIff(s: Setting, sys: System, c: Choice, key: string)
    requires Inv(s, sys) && Allowed(s, c)
    ensures Lost(Step(s, sys, c), key) <==> Lost(sys, key) || Hits(sys, c, key)
  {
    if Lost(sys, key) {
      LostStep(s, sys, c, key);
    } else if Hits(sys, c, key) {
      CrashLosesAnnouncement(s, sys, c.p);
    } else {
      NotLostStep(s, sys, c, key);
    }
  }

  /** A step loses nothing but by crashing the process about to announce it. */
  lemma NotLostStep(s: Setting, sys: System, c: Choice, key: string)
    requires Inv(s, sys) && Allowed(s, c) && !Lost(sys, key) && !Hits(sys, c, key)
    ensures !Lost(Step(s, sys, c), key)
  {
    if Announced(sys.db.audit, key) {
      assert Grows(sys.db, Step(s, sys, c).db) by { StepKeeps(s, sys, c); }
      AnnouncedGrows(sys.db.audit, Step(s, sys, c).db.audit, key);
    } else if key in sys.db.decisions {
      var p :| p in sys.processes && PendingKey(sys.processes[p]) == Some(key);
      PendingStep(s, sys, c, p, key);
    } else {
      StoredByStep(s, sys, c, key);
    }
  }

  lemma StoredByStep(s: Setting, sys: System, c: Choice, key: string)
    requires key !in sys.db.decisions
    ensures var next := Step(s, sys, c);
            key in next.db.decisions ==> PendingSomewhere(next, key)
  {
    var next := Step(s, sys, c);
    if key in next.db.decisions {
      assert c.Commit?;
      assert PendingKey(next.processes[c.p]) == Some(key);
    }
  }

  lemma PendingStep(s: Setting, sys: System, c: Choice, p: nat, key: string)
    requires p in sys.processes && PendingKey(sys.processes[p]) == Some(key)
    requires c != Crash(p)
    ensures var next := Step(s, sys, c);
            || Announced(next.db.audit, key)
            || (p in next.processes && PendingKey(next.processes[p]) == Some(key))
  {
    if c.Commit? && c.p == p {
      var audit := Step(s, sys, c).db.audit;
      assert audit[|sys.db.audit|] == sys.processes[p].current.value.writes[0].entry;
    }
  }

  /** Every stored decision is announced, or about to be. */
  ghost predicate AllAnnounced(sys: System) {
    forall key :: key in sys.db.decisions ==> Announced(sys.db.audit, key) || PendingSomewhere(sys, key)
  }

  /** That holds after a run exactly when no crash in it hit a process between storing a decision
      and announcing it. */
  lemma AllAnnouncedIff(s: Setting, choices: seq<Choice>)
    requires AllAllowed(s, choices)
    ensures AllAnnounced(Run(s, choices)) <==> !AnyHit(s, choices)
  {
    var sys := Run(s, choices);
    if i: nat, key :| CrashHits(s, choices, i, key) {
      LostIff(s, choices, key);
    } else {
      forall key | key in sys.db.decisions
        ensures Announced(sys.db.audit, key) || PendingSomewhere(sys, key)
      {
        LostIff(s, choices, key);
      }
    }
  }

  // ------------------------------------------------------------- the balance --

  /** The processes about to announce a decision. */
  function AboutToAnnounce(processes: map<nat, Process>): set<nat> {
    set p | p in processes && PendingKey(processes[p]).Some?
  }

  /** How many crashes of the run hit a process about to announce a decision. */
  function LossesOf(s: Setting, choices: seq<Choice>): nat {
    if choices == [] then 0 else
    var before, last := Run(s, choices[..|choices| - 1]), choices[|choices| - 1];
    LossesOf(s, choices[..|choices| - 1]) + if last.Crash? && last.p in AboutToAnnounce(before.processes) then 1 else 0
  }

  lemma PendingAfterSet(processes: map<nat, Process>, p: nat, process: Process)
    ensures AboutToAnnounce(processes[p := process])
            == AboutToAnnounce(processes) - {p} + if PendingKey(process).Some? then {p} else {}
    ensures p !in processes ==> p !in AboutToAnnounce(processes)
  {
  }

  /** What a commit adds to the decisions, it adds to the announcements or to what is about to be one. */
  lemma CommitBalances(s: Setting, cfg: Config, a: Db, th: Thread, fetched: Option<Snapshot>, o: Oracle)
    requires ThreadOk(s, a, th) && !th.Finished()
    ensures var b, next := NextDb(a, th), NextThread(cfg, a, th, fetched, o);
            |b.decisions| + JobAtomic.Announcements(a.audit) + (if HasPending(th) then 1 else 0)
            == |a.decisions| + JobAtomic.Announcements(b.audit) + (if HasPending(next) then 1 else 0)
  {
    if th.writes != [] {
      WriteBalances(s, a, th);
    } else if th.main.Record? {
      RecordBalances(a, th.main.row, th.main.decision);
    }
  }

  lemma RecordBalances(a: Db, row: Row, d: Decision)
    ensures |RecordDecision(a, d).decisions| == |a.decisions| + if HasPending(AfterRecord(a, row, d)) then 1 else 0
  {
    assert d.Key() !in a.decisions ==> a.decisions[d.Key() := d].Keys == a.decisions.Keys + {d.Key()};
  }

  lemma WriteBalances(s: Setting, a: Db, th: Thread)
    requires ThreadOk(s, a, th) && th.writes != []
    ensures Do(a, th.writes[0]).decisions == a.decisions
    ensures !HasPending(Thread(th.writes[1..], th.main))
    ensures JobAtomic.Announcements(Do(a, th.writes[0]).audit)
            == JobAtomic.Announcements(a.audit) + if HasPending(th) then 1 else 0
  {
    QuietAfterWrite(s, a, th);
    if th.writes[0].Audit? {
      assert (a.audit + [th.writes[0].entry])[..|a.audit|] == a.audit;
    }
  }

  /** Every stored decision is accounted for: announced, about to be, or lost to a crash. */
  ghost predicate Balanced(sys: System, losses: nat) {
    |sys.db.decisions| == JobAtomic.Announcements(sys.db.audit) + |AboutToAnnounce(sys.processes)| + losses
  }

  /** Replacing a process balances if what it had pending was announced or is pending still. */
  lemma SetBalances(sys: System, b: Db, p: nat, process: Process, losses: nat)
    requires Balanced(sys, losses)
    requires var had := if p in AboutToAnnounce(sys.processes) then 1 else 0;
             |b.decisions| + JobAtomic.Announcements(sys.db.audit) + had
             == |sys.db.decisions| + JobAtomic.Announcements(b.audit) + if PendingKey(process).Some? then 1 else 0
    ensures Balanced(SetProcess(sys.(db := b), p, process), losses)
  {
    PendingAfterSet(sys.processes, p, process);
  }

  lemma CommitStepBalances(s: Setting, sys: System, c: Choice, losses: nat)
    requires Inv(s, sys) && Balanced(sys, losses) && c.Commit?
    ensures Balanced(Step(s, sys, c), losses)
  {
    if c.p in sys.processes && sys.processes[c.p].current.Some? {
      var process := sys.processes[c.p];
      var th := process.current.value;
      if th.Finished() {
        SetBalances(sys, sys.db, c.p, Retire(process, th), losses);
      } else {
        var fetched := Answer(sys, th, c.refreshFails);
        var next := NextThread(process.cfg, sys.db, th, fetched, c.oracle);
        assert ProcessOk(s, sys.db, process);
        CommitBalances(s, process.cfg, sys.db, th, fetched, c.oracle);
        SetBalances(sys, NextDb(sys.db, th), c.p, process.(current := Some(next)), losses);
      }
    }
  }

  lemma CrashBalances(s: Setting, sys: System, p: nat, losses: nat)
    requires Balanced(sys, losses)
    ensures Balanced(Step(s, sys, Crash(p)), losses + if p in AboutToAnnounce(sys.processes) then 1 else 0)
  {
    assert AboutToAnnounce(sys.processes - {p}) == AboutToAnnounce(sys.processes) - {p};
  }

  lemma StepBalances(s: Setting, sys: System, c: Choice, losses: nat)
    requires Inv(s, sys) && Balanced(sys, losses)
    ensures Balanced(Step(s, sys, c), losses + if c.Crash? && c.p in AboutToAnnounce(sys.processes) then 1 else 0)
  {
    if c.Commit? {
      CommitStepBalances(s, sys, c, losses);
    } else if c.Crash? {
      CrashBalances(s, sys, c.p, losses);
    } else if IsStart(c) && Step(s, sys, c) != sys {
      var b, p, process := StartShape(s, sys, c);
      StartBalances(sys, b, p, process, losses);
    }
  }

  lemma StartBalances(sys: System, b: Db, p: nat, process: Process, losses: nat)
    requires Balanced(sys, losses) && p !in AboutToAnnounce(sys.processes) && PendingKey(process).None?
    requires b.decisions == sys.db.decisions && b.audit == sys.db.audit
    ensures Balanced(SetProcess(sys.(db := b), p, process), losses)
  {
    PendingAfterSet(sys.processes, p, process);
  }

  /** In every state of every run, the decisions stored are the announcements made, the announcements
      pending at live processes, and the crashes that hit a process with one pending. */
  lemma {:induction false} DecisionsBalance(s: Setting, choices: seq<Choice>)
    requires AllAllowed(s, choices)
    ensures var sys := Run(s, choices);
            |sys.db.decisions|
            == JobAtomic.Announcements(sys.db.audit) + |AboutToAnnounce(sys.processes)| + LossesOf(s, choices)
  {
    if choices != [] {
      var less := choices[..|choices| - 1];
      DecisionsBalance(s, less);
      RunKeeps(s, less);
      StepBalances(s, Run(s, less), choices[|choices| - 1], LossesOf(s, less));
    }
  }

  lemma {:induction false} NoLossesIff(s: Setting, choices: seq<Choice>)
    ensures LossesOf(s, choices) == 0 <==> !AnyHit(s, choices)
  {
    if choices != [] {
      var n := |choices| - 1;
      var sys, last := Run(s, choices[..n]), choices[n];
      NoLossesIff(s, choices[..n]);
      HitIsPending(sys, last);
      if i: nat, key :| CrashHits(s, choices[..n], i, key) {
        HitsSoFar(s, choices, key);
      } else if key :| Hits(sys, last, key) {
        HitsSoFar(s, choices, key);
      } else if i: nat, key :| CrashHits(s, choices, i, key) {
        HitsSoFar(s, choices, key);
      }
    }
  }

  lemma HitIsPending(sys: System, c: Choice)
    ensures (exists key :: Hits(sys, c, key)) <==> c.Crash? && c.p in AboutToAnnounce(sys.processes)
  {
    if c.Crash? && c.p in AboutToAnnounce(sys.processes) {
      assert Hits(sys, c, PendingKey(sys.processes[c.p]).value);
    }
  }

  /** So there are as many announcements as decisions exactly when nothing was lost to a crash and no
      process is between storing a decision and announcing it. */
  lemma AsManyIff(s: Setting, choices: seq<Choice>)
    requires AllAllowed(s, choices)
    ensures var sys := Run(s, choices);
            JobAtomic.Announcements(sys.db.audit) == |sys.db.decisions| <==>
            && !AnyHit(s, choices)
            && forall p :: p in sys.processes ==> PendingKey(sys.processes[p]).None?
  {
    var sys := Run(s, choices);
    DecisionsBalance(s, choices);
    NoLossesIff(s, choices);
    if p :| p in sys.processes && PendingKey(sys.processes[p]).Some? {
      assert p in AboutToAnnounce(sys.processes);
    } else {
      assert AboutToAnnounce(sys.processes) == {};
    }
  }

  // ------------------------------------------------------------ a run that loses --

  const FAILED := Paid(PaymentStatus.Failed)
  const HELD := Decision(0, "pay_1", "v1", 1, Hold, "")
  const JOB_ROW := Row(0, "evt_1", 5, BODY)

  /** A failed payment is delivered; its job is claimed and carried up to the stored decision, in seven
      commits; and there the worker dies. */
  const LOSING_RUN := [SetPayment("pay_1", PaymentStatus.Failed, None, None)] + Arrival(0, "evt_1", 5) + PickUp(1)
                      + Commits(1, 4) + Commits(1, 3) + [Crash(1)]

  const REFRESHED := Entry(None, "evt_1", StateRefreshed("pay_1", PaymentStatus.Failed))
  const OPENED := Entry(Some(0), "evt_1", CaseOpened)

  /** The first commits of the worker: refresh, its entry, the case in two statements, ... */
  lemma OpeningCommits(at: Standing)
    requires at.th == Thread([], Fetch(JOB_ROW)) && at.db.cases == [] && at.snap == FAILED
    ensures forall k: nat :: k < 4 ==> AsksFor(at.After(k).th)
    ensures at.After(4).th == Thread([OPENED], Assign(JOB_ROW, "pay_1", FAILED, 0)) && at.After(4).snap == FAILED
    ensures at.After(4).db.chainAttempts == at.db.chainAttempts && at.After(4).db.decisions == at.db.decisions
  {
    assert at.After(1) == Standing(at.db, Thread([REFRESHED], OpenInsert(JOB_ROW, "pay_1", FAILED)), FAILED);
    assert at.After(2).th == Thread([], OpenInsert(JOB_ROW, "pay_1", FAILED)) && at.After(2).db.cases == [];
    assert at.After(3).th == Thread([], OpenRead(JOB_ROW, "pay_1", FAILED, true));
    assert at.After(3).db.cases == [Case(ChainKey(None, "pay_1"), None, "pay_1", Open, 5)];
  }

  /** ... its entry, the attempt number, and the decision, whose announcement is then pending. */
  lemma DecidingCommits(at: Standing)
    requires at.th == Thread([OPENED], Assign(JOB_ROW, "pay_1", FAILED, 0))
    requires at.db.chainAttempts == [] && at.db.decisions == map[]
    ensures forall k: nat :: k < 3 ==> AsksFor(at.After(k).th)
    ensures at.After(3).th.writes != []
    ensures at.After(3).th.writes[0] == Entry(Some(0), "evt_1", DecisionRecorded(HELD.Key(), Hold))
  {
    assert at.After(1).th == Thread([], Assign(JOB_ROW, "pay_1", FAILED, 0));
    assert AttemptN(at.After(1).db, ChainKey(None, "pay_1"), "pay_1") == 1;
    assert at.After(2).th == Thread([], Record(JOB_ROW, HELD));
  }

  lemma DecisionIsPending(claimed: System, prefix: seq<Choice>, at: Standing) returns (stored: System)
    requires claimed == Run(ONE_PAYMENT, prefix) && At(claimed, 1, at)
    requires at.th == Thread([], Fetch(JOB_ROW)) && at.snap == FAILED
    requires at.db.cases == [] && at.db.chainAttempts == [] && at.db.decisions == map[]
    ensures stored == Run(ONE_PAYMENT, prefix + Commits(1, 4) + Commits(1, 3))
    ensures 1 in stored.processes && PendingKey(stored.processes[1]) == Some(HELD.Key())
  {
    OpeningCommits(at);
    CommitsAdvance(claimed, 1, at, 4);
    var midway := RunFrom(ONE_PAYMENT, claimed, Commits(1, 4));
    RunFromJoins(ONE_PAYMENT, START, prefix, Commits(1, 4));
    DecidingCommits(at.After(4));
    CommitsAdvance(midway, 1, at.After(4), 3);
    stored := RunFrom(ONE_PAYMENT, midway, Commits(1, 3));
    RunFromJoins(ONE_PAYMENT, START, prefix + Commits(1, 4), Commits(1, 3));
  }

  /** From an empty database, fifteen choices lose a decision. */
  lemma LosingRunLoses()
    ensures AllAllowed(ONE_PAYMENT, LOSING_RUN)
    ensures Lost(Run(ONE_PAYMENT, LOSING_RUN), HELD.Key())
  {
    var known := [SetPayment("pay_1", PaymentStatus.Failed, None, None)];
    var prefix := known + Arrival(0, "evt_1", 5) + PickUp(1);
    var begun := Begins(PaymentStatus.Failed);
    var arrived := Arrives(begun, 0, "evt_1", 5, FAILED);
    RunFromJoins(ONE_PAYMENT, START, known, Arrival(0, "evt_1", 5));
    var claimed := PicksUp(arrived, 1);
    RunFromJoins(ONE_PAYMENT, START, known + Arrival(0, "evt_1", 5), PickUp(1));
    var at := Standing(Marking(arrived.db), Thread([], Fetch(RowOf(arrived.db, 0))), FAILED);
    var stored := DecisionIsPending(claimed, prefix, at);
    RunKeeps(ONE_PAYMENT, prefix + Commits(1, 4) + Commits(1, 3));
    CrashLosesAnnouncement(ONE_PAYMENT, stored, 1);
    assert LOSING_RUN[..|LOSING_RUN| - 1] == prefix + Commits(1, 4) + Commits(1, 3);
  }
}
