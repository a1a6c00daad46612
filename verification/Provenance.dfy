/** Where a stored decision comes from, over every interleaving: one call refreshed the payment, and on
    that very snapshot asked for admission; so no obligation is stored that its own snapshot forbids. */
module Provenance {
  import opened Models
  import opened Stores
  import opened Guards
  import opened Protocol
  import opened Safety
  import opened Interleaving
  import opened Admissions

  /** The process that the choice commits for, on its way to `main` with nothing left to write. */
  ghost predicate CommitsAt(sys: System, c: Choice, p: nat, main: Main) {
    c.Commit? && c.p == p && p in sys.processes && sys.processes[p].current == Some(Thread([], main))
  }

  /** The `m`-th choice refreshes the payment for a job, and finds it as `snap`. */
  ghost predicate Refreshes(s: Setting, choices: seq<Choice>, m: nat, p: nat, row: Row, payment: string, snap: Snapshot) {
    && m < |choices| && CommitsAt(Run(s, choices[..m]), choices[m], p, Fetch(row))
    && row.entity.paymentId == Some(payment) && !choices[m].refreshFails
    && payment in Run(s, choices[..m]).gateway && Run(s, choices[..m]).gateway[payment] == snap
  }

  /** The `m`-th choice numbers the attempt and, on `snap`, finds nothing against the decision. */
  ghost predicate Admits(s: Setting, choices: seq<Choice>, m: nat, p: nat, row: Row, snap: Snapshot, d: Decision, o: Oracle) {
    && m < |choices| && CommitsAt(Run(s, choices[..m]), choices[m], p, Assign(row, d.paymentId, snap, d.caseId))
    && choices[m].oracle == o && d.action == o.action
    && var cfg := Run(s, choices[..m]).processes[p].cfg;
       && d.policyVersion == cfg.policyVersion
       && d.attemptN == AttemptN(Run(s, choices[..m]).db, Chain(snap, d.paymentId), d.paymentId)
       && (cfg.guard.Some? && Obliges(d.action) ==>
             forall why :: !RefusedFor(cfg.guard.value, snap, d.attemptN, o, why))
  }

  ghost predicate Refreshed(s: Setting, choices: seq<Choice>, p: nat, row: Row, payment: string, snap: Snapshot) {
    exists m: nat :: Refreshes(s, choices, m, p, row, payment, snap)
  }

  ghost predicate WarrantedBy(s: Setting, choices: seq<Choice>, m: nat, n: nat, p: nat, row: Row, snap: Snapshot,
                              d: Decision, o: Oracle)
  {
    m < n && Refreshes(s, choices, m, p, row, d.paymentId, snap) && Admits(s, choices, n, p, row, snap, d, o)
  }

  /** One process refreshed the payment and later, on what it found, admitted the decision. */
  ghost predicate Warranted(s: Setting, choices: seq<Choice>, d: Decision) {
    exists m: nat, n: nat, p: nat, row, snap, o :: WarrantedBy(s, choices, m, n, p, row, snap, d, o)
  }

  /** What a call in progress has behind it. */
  ghost predicate Behind(s: Setting, choices: seq<Choice>, p: nat, main: Main) {
    match main
    case OpenInsert(row, payment, snap) => Refreshed(s, choices, p, row, payment, snap)
    case OpenRead(row, payment, snap, _) => Refreshed(s, choices, p, row, payment, snap)
    case Assign(row, payment, snap, _) => Refreshed(s, choices, p, row, payment, snap)
    case Record(_, d) => Warranted(s, choices, d)
    case _ => true
  }

  ghost predicate AllBehind(s: Setting, choices: seq<Choice>) {
    var sys := Run(s, choices);
    forall p :: p in sys.processes && sys.processes[p].current.Some? ==> Behind(s, choices, p, sys.processes[p].current.value.main)
  }

  // -------------------------------------------------------------- longer runs --

  lemma RefreshedLonger(s: Setting, choices: seq<Choice>, c: Choice, p: nat, row: Row, payment: string, snap: Snapshot)
    requires Refreshed(s, choices, p, row, payment, snap)
    ensures Refreshed(s, choices + [c], p, row, payment, snap)
  {
    var m: nat :| Refreshes(s, choices, m, p, row, payment, snap);
    assert (choices + [c])[..m] == choices[..m];
    assert Refreshes(s, choices + [c], m, p, row, payment, snap);
  }

  lemma WarrantedLonger(s: Setting, choices: seq<Choice>, c: Choice, d: Decision)
    requires Warranted(s, choices, d)
    ensures Warranted(s, choices + [c], d)
  {
    var m: nat, n: nat, p: nat, row, snap, o :| WarrantedBy(s, choices, m, n, p, row, snap, d, o);
    assert (choices + [c])[..m] == choices[..m] && (choices + [c])[..n] == choices[..n];
    assert WarrantedBy(s, choices + [c], m, n, p, row, snap, d, o);
  }

  lemma BehindLonger(s: Setting, choices: seq<Choice>, c: Choice, p: nat, main: Main)
    requires Behind(s, choices, p, main)
    ensures Behind(s, choices + [c], p, main)
  {
    match main
    case OpenInsert(row, payment, snap) => RefreshedLonger(s, choices, c, p, row, payment, snap);
    case OpenRead(row, payment, snap, _) => RefreshedLonger(s, choices, c, p, row, payment, snap);
    case Assign(row, payment, snap, _) => RefreshedLonger(s, choices, c, p, row, payment, snap);
    case Record(_, d) => WarrantedLonger(s, choices, c, d);
    case _ =>
  }

  // ------------------------------------------------------------------ one commit --

  lemma FetchIsBehind(s: Setting, choices: seq<Choice>, c: Choice, row: Row)
    requires c.Commit? && CommitsAt(Run(s, choices), c, c.p, Fetch(row))
    ensures var sys := Run(s, choices);
            var next := NextThread(sys.processes[c.p].cfg, sys.db, Thread([], Fetch(row)),
                                   Answer(sys, Thread([], Fetch(row)), c.refreshFails), c.oracle);
            Behind(s, choices + [c], c.p, next.main)
  {
    var sys, th := Run(s, choices), Thread([], Fetch(row));
    var fetched := Answer(sys, th, c.refreshFails);
    var next := NextThread(sys.processes[c.p].cfg, sys.db, th, fetched, c.oracle);
    if next.main.OpenInsert? {
      assert (choices + [c])[..|choices|] == choices;
      assert Refreshes(s, choices + [c], |choices|, c.p, row, next.main.payment, next.main.snap);
    }
  }

  lemma AssignIsBehind(s: Setting, choices: seq<Choice>, c: Choice, row: Row, payment: string, snap: Snapshot, caseId: nat)
    requires c.Commit? && CommitsAt(Run(s, choices), c, c.p, Assign(row, payment, snap, caseId))
    requires Refreshed(s, choices, c.p, row, payment, snap)
    ensures var sys := Run(s, choices);
            var n := AttemptN(sys.db, ChainKey(snap.orderId, payment), payment);
            Behind(s, choices + [c], c.p, AfterAssign(sys.processes[c.p].cfg, row, payment, snap, caseId, n, c.oracle).main)
  {
    var sys := Run(s, choices);
    var cfg, n := sys.processes[c.p].cfg, AttemptN(sys.db, ChainKey(snap.orderId, payment), payment);
    var next := AfterAssign(cfg, row, payment, snap, caseId, n, c.oracle);
    if next.main.Record? {
      var d := next.main.decision;
      ChainIs(snap, payment);
      if cfg.guard.Some? {
        AdmissionIs(cfg, snap, n, c.oracle);
      }
      var m: nat :| Refreshes(s, choices, m, c.p, row, payment, snap);
      assert (choices + [c])[..m] == choices[..m] && (choices + [c])[..|choices|] == choices;
      assert Admits(s, choices + [c], |choices|, c.p, row, snap, d, c.oracle);
      assert WarrantedBy(s, choices + [c], m, |choices|, c.p, row, snap, d, c.oracle);
    }
  }

  lemma CommitIsBehind(s: Setting, choices: seq<Choice>, c: Choice)
    requires AllBehind(s, choices) && c.Commit? && c.p in Run(s, choices).processes
    requires Run(s, choices).processes[c.p].current.Some?
    ensures var sys := Run(s, choices);
            var th := sys.processes[c.p].current.value;
            var next := NextThread(sys.processes[c.p].cfg, sys.db, th, Answer(sys, th, c.refreshFails), c.oracle);
            Behind(s, choices + [c], c.p, next.main)
  {
    var sys := Run(s, choices);
    var th := sys.processes[c.p].current.value;
    assert Behind(s, choices, c.p, th.main);
    if th.writes != [] {
      BehindLonger(s, choices, c, c.p, th.main);
    } else {
      assert th == Thread([], th.main);
      match th.main
      case Fetch(row) => FetchIsBehind(s, choices, c, row);
      case OpenInsert(row, payment, snap) => RefreshedLonger(s, choices, c, c.p, row, payment, snap);
      case OpenRead(row, payment, snap, isNew) =>
        RefreshedLonger(s, choices, c, c.p, row, payment, snap);
        ReadIsBehind(s, choices + [c], c.p, sys.db, row, payment, snap, isNew, c.oracle);
      case Assign(row, payment, snap, caseId) => AssignIsBehind(s, choices, c, row, payment, snap, caseId);
      case _ =>
    }
  }

  lemma ReadIsBehind(s: Setting, choices: seq<Choice>, p: nat, db: Db, row: Row, payment: string, snap: Snapshot,
                     isNew: bool, o: Oracle)
    requires Refreshed(s, choices, p, row, payment, snap)
    ensures Behind(s, choices, p, AfterOpen(db, row, payment, snap, isNew, o).main)
  {
  }

  lemma StepIsBehind(s: Setting, choices: seq<Choice>, c: Choice)
    requires AllBehind(s, choices)
    ensures AllBehind(s, choices + [c])
  {
    var sys := Run(s, choices);
    assert (choices + [c])[..|choices|] == choices;
    var next := Step(s, sys, c);
    assert Run(s, choices + [c]) == next;
    forall p | p in next.processes && next.processes[p].current.Some?
      ensures Behind(s, choices + [c], p, next.processes[p].current.value.main)
    {
      if p in sys.processes && next.processes[p] == sys.processes[p] {
        BehindLonger(s, choices, c, p, sys.processes[p].current.value.main);
      } else if c.Commit? {
        CommitIsBehind(s, choices, c);
      }
    }
  }

  lemma StepIsWarranted(s: Setting, choices: seq<Choice>, c: Choice)
    requires AllBehind(s, choices)
    requires forall k :: k in Run(s, choices).db.decisions ==> Warranted(s, choices, Run(s, choices).db.decisions[k])
    ensures forall k :: k in Run(s, choices + [c]).db.decisions ==>
                          Warranted(s, choices + [c], Run(s, choices + [c]).db.decisions[k])
  {
    var sys := Run(s, choices);
    assert (choices + [c])[..|choices|] == choices;
    var next := Step(s, sys, c);
    assert Run(s, choices + [c]) == next;
    forall k | k in next.db.decisions
      ensures Warranted(s, choices + [c], next.db.decisions[k])
    {
      if k in sys.db.decisions {
        StepKeepsDecisions(s, sys, c);
        WarrantedLonger(s, choices, c, sys.db.decisions[k]);
      } else {
        NewDecisionIsRecorded(s, sys, c, k);
        var th := sys.processes[c.p].current.value;
        assert Behind(s, choices, c.p, th.main);
        WarrantedLonger(s, choices, c, th.main.decision);
      }
    }
  }

  lemma NewDecisionIsRecorded(s: Setting, sys: System, c: Choice, k: string)
    requires k in Step(s, sys, c).db.decisions && k !in sys.db.decisions
    ensures c.Commit? && c.p in sys.processes && sys.processes[c.p].current.Some?
    ensures var th := sys.processes[c.p].current.value;
            th.main.Record? && Step(s, sys, c).db.decisions[k] == th.main.decision
  {
  }

  // ------------------------------------------------------------------- theorems --

  /** Every decision ever stored was admitted on the very snapshot that its call had refreshed: in no
      interleaving does an obligation behind a guard get past anything that snapshot speaks against. */
  lemma {:induction false} EveryDecisionIsWarranted(s: Setting, choices: seq<Choice>)
    ensures AllBehind(s, choices)
    ensures forall k :: k in Run(s, choices).db.decisions ==> Warranted(s, choices, Run(s, choices).db.decisions[k])
  {
    if choices != [] {
      var less, last := choices[..|choices| - 1], choices[|choices| - 1];
      assert choices == less + [last];
      EveryDecisionIsWarranted(s, less);
      StepIsBehind(s, less, last);
      StepIsWarranted(s, less, last);
    }
  }

  /** The order had not expired, in the snapshot the job of the decision was refreshed with, at the moment
      the obligation would arise. */
  predicate LiveOrder(snap: Snapshot, o: Oracle) {
    snap.orderExpiresAt.Some? ==> Due(o) < snap.orderExpiresAt.value
  }

  ghost predicate LiveWhenAdmitted(s: Setting, choices: seq<Choice>, d: Decision) {
    exists m: nat, n: nat, p: nat, row, snap, o :: WarrantedBy(s, choices, m, n, p, row, snap, d, o) && LiveOrder(snap, o)
  }

  lemma WarrantIsLive(s: Setting, choices: seq<Choice>, d: Decision)
    requires AllAllowed(s, choices) && s.cap.Some? && Obliges(d.action) && Warranted(s, choices, d)
    ensures LiveWhenAdmitted(s, choices, d)
  {
    var m: nat, n: nat, p: nat, row, snap, o :| WarrantedBy(s, choices, m, n, p, row, snap, d, o);
    GuardIsThere(s, choices, n, p);
    UnrefusedIsLive(Run(s, choices[..n]).processes[p].cfg.guard.value, snap, d.attemptN, o);
    assert WarrantedBy(s, choices, m, n, p, row, snap, d, o) && LiveOrder(snap, o);
  }

  lemma UnrefusedIsLive(g: Guard, snap: Snapshot, n: nat, o: Oracle)
    requires forall why :: !RefusedFor(g, snap, n, o, why)
    ensures LiveOrder(snap, o)
  {
    assert !RefusedFor(g, snap, n, o, OrderExpired);
  }

  lemma GuardIsThere(s: Setting, choices: seq<Choice>, n: nat, p: nat)
    requires AllAllowed(s, choices) && s.cap.Some? && n <= |choices| && p in Run(s, choices[..n]).processes
    ensures Run(s, choices[..n]).processes[p].cfg.guard.Some?
  {
    RunKeeps(s, choices[..n]);
    var sys := Run(s, choices[..n]);
    assert ProcessOk(s, sys.db, sys.processes[p]);
  }

  /** Behind guards no announced obligation is on an order that had expired. */
  lemma NoExpiredObligation(s: Setting, choices: seq<Choice>, i: nat)
    requires AllAllowed(s, choices) && s.cap.Some?
    requires var audit := Run(s, choices).db.audit;
             i < |audit| && audit[i].what.DecisionRecorded? && Obliges(audit[i].what.action)
    ensures var db := Run(s, choices).db;
            var key := db.audit[i].what.key;
            key in db.decisions && LiveWhenAdmitted(s, choices, db.decisions[key])
  {
    var db := Run(s, choices).db;
    assert Explained(s, db, i) by {
      RunKeeps(s, choices);
    }
    EveryDecisionIsWarranted(s, choices);
    WarrantIsLive(s, choices, db.decisions[db.audit[i].what.key]);
  }
}
