/** Any number of workers and deliveries over one database, one commit at a time: threads interleave
    freely, a crash can come between any two commits, a claim believed abandoned can be claimed again
    while its first worker is only slow, and the gateway changes its mind at will. */
module Interleaving {
  import opened Models
  import opened Stores
  import opened Guards
  import opened Protocol
  import opened Safety
  import Text

  /** One process: its configuration, the claimed rows it has not started, and the call it is in. */
  datatype Process = Process(cfg: Config, queue: seq<Row>, current: Option<Thread>)

  datatype System = System(db: Db, gateway: map<string, Snapshot>, processes: map<nat, Process>)

  const START := System(EMPTY_DB, map[], map[])

  /** Every choice the environment and the scheduler can make. */
  datatype Choice =
    | Deliver(p: nat, cfg: Config, delivery: Delivery)
    | Claim(p: nat, cfg: Config, cutoff: Option<int>, stamps: nat -> int, maxAttempts: Option<nat>)
    | StartRow(p: nat)
    | Commit(p: nat, refreshFails: bool, oracle: Oracle)
    | Crash(p: nat)
    | SetPayment(payment: string, status: PaymentStatus, rail: Option<string>, expires: Option<int>)

  /** Who the next refresh asks about. */
  function Asked(th: Thread): string {
    if th.main.Fetch? && th.main.row.entity.paymentId.Some? then th.main.row.entity.paymentId.value else ""
  }

  function Answer(sys: System, th: Thread, refreshFails: bool): Option<Snapshot> {
    if refreshFails || Asked(th) !in sys.gateway then None else Some(sys.gateway[Asked(th)])
  }

  function SetProcess(sys: System, p: nat, process: Process): System {
    sys.(processes := sys.processes[p := process])
  }

  /** A process whose call is over; a raised error abandons the rest of its batch. */
  function Retire(process: Process, th: Thread): Process {
    Process(process.cfg, if th.main == Halt(Raised) then [] else process.queue, None)
  }

  function Step(s: Setting, sys: System, c: Choice): System {
    match c
    case Deliver(p, cfg, delivery) =>
      if p in sys.processes then sys
      else SetProcess(sys, p, Process(cfg, [], Some(IngestThread(cfg, delivery))))
    case Claim(p, cfg, cutoff, stamps, maxAttempts) =>
      if p in sys.processes then sys
      else
        SetProcess(sys.(db := ClaimJobs(sys.db, cfg.batchSize, cutoff, stamps, maxAttempts)),
                   p, Process(cfg, Handed(sys.db, cfg.batchSize, cutoff, maxAttempts), None))
    case StartRow(p) =>
      if p !in sys.processes || sys.processes[p].current.Some? || sys.processes[p].queue == [] then sys
      else
        var process := sys.processes[p];
        SetProcess(sys, p, Process(process.cfg, process.queue[1..], Some(Thread([], Fetch(process.queue[0])))))
    case Commit(p, refreshFails, oracle) =>
      if p !in sys.processes || sys.processes[p].current.None? then sys
      else
        var process := sys.processes[p];
        var th := process.current.value;
        if th.Finished() then SetProcess(sys, p, Retire(process, th))
        else
          SetProcess(sys.(db := NextDb(sys.db, th)), p,
                     process.(current := Some(NextThread(process.cfg, sys.db, th, Answer(sys, th, refreshFails), oracle))))
    case Crash(p) => sys.(processes := sys.processes - {p})
    case SetPayment(payment, status, rail, expires) =>
      sys.(gateway := sys.gateway[payment := Snapshot(status, s.orders(payment), rail, expires)])
  }

  function RunFrom(s: Setting, sys: System, choices: seq<Choice>): System {
    if choices == [] then sys else Step(s, RunFrom(s, sys, choices[..|choices| - 1]), choices[|choices| - 1])
  }

  function Run(s: Setting, choices: seq<Choice>): System {
    RunFrom(s, START, choices)
  }

  /** Behind a guard, every configuration that starts is a guarded one. */
  ghost predicate Allowed(s: Setting, c: Choice) {
    (c.Deliver? || c.Claim?) ==> GoodConfig(s, c.cfg)
  }

  ghost predicate AllAllowed(s: Setting, choices: seq<Choice>) {
    forall i :: 0 <= i < |choices| ==> Allowed(s, choices[i])
  }

  // ------------------------------------------------------------------ invariant --

  ghost predicate ProcessOk(s: Setting, db: Db, process: Process) {
    && GoodConfig(s, process.cfg)
    && (process.current.Some? ==> ThreadOk(s, db, process.current.value))
  }

  function PendingKey(process: Process): Option<string> {
    if process.current.Some? && HasPending(process.current.value)
    then Some(process.current.value.writes[0].entry.what.key) else None
  }

  ghost predicate ProcessesOk(s: Setting, sys: System) {
    forall p :: p in sys.processes ==> ProcessOk(s, sys.db, sys.processes[p])
  }

  /** No two processes are about to announce the same decision. */
  ghost predicate PendingApart(sys: System) {
    forall p, q :: p in sys.processes && q in sys.processes && p != q && PendingKey(sys.processes[p]).Some? ==>
                     PendingKey(sys.processes[p]) != PendingKey(sys.processes[q])
  }

  ghost predicate GatewayOk(s: Setting, gateway: map<string, Snapshot>) {
    forall p :: p in gateway ==> gateway[p].orderId == s.orders(p)
  }

  ghost predicate Inv(s: Setting, sys: System) {
    && DbOk(s, sys.db)
    && ProcessesOk(s, sys)
    && PendingApart(sys)
    && GatewayOk(s, sys.gateway)
  }

  lemma IngestThreadOk(s: Setting, cfg: Config, db: Db, d: Delivery)
    ensures ThreadOk(s, db, IngestThread(cfg, d)) && !HasPending(IngestThread(cfg, d))
  {
  }

  /** A process that starts something new, on a database whose tables only grew. */
  lemma StartKeeps(s: Setting, sys: System, db: Db, p: nat, process: Process)
    requires Inv(s, sys) && DbOk(s, db) && Grows(sys.db, db) && db.audit == sys.db.audit
    requires ProcessOk(s, db, process) && PendingKey(process).None?
    ensures Inv(s, SetProcess(sys.(db := db), p, process))
  {
    var next := SetProcess(sys.(db := db), p, process);
    forall q | q in next.processes
      ensures ProcessOk(s, db, next.processes[q])
    {
      if q != p && sys.processes[q].current.Some? {
        ThreadSurvives(s, sys.db, db, sys.processes[q].current.value);
      }
    }
  }

  lemma CommitStepKeeps(s: Setting, sys: System, p: nat, refreshFails: bool, oracle: Oracle)
    requires Inv(s, sys) && p in sys.processes && sys.processes[p].current.Some?
    requires !sys.processes[p].current.value.Finished()
    ensures Inv(s, Step(s, sys, Commit(p, refreshFails, oracle)))
    ensures Grows(sys.db, Step(s, sys, Commit(p, refreshFails, oracle)).db)
  {
    var process := sys.processes[p];
    var th := process.current.value;
    var fetched := Answer(sys, th, refreshFails);
    var db, next := NextDb(sys.db, th), NextThread(process.cfg, sys.db, th, fetched, oracle);
    assert Kept(s, sys.db, th, db, next) by {
      assert ProcessOk(s, sys.db, process);
      CommitKeeps(s, process.cfg, sys.db, th, fetched, oracle);
    }
    forall q | q in sys.processes && q != p
      ensures ProcessOk(s, db, sys.processes[q])
      ensures PendingKey(sys.processes[q]).Some? ==>
                PendingKey(sys.processes[q]) != PendingKey(process.(current := Some(next)))
    {
      OtherSurvives(s, sys, p, q, db, next);
    }
    ReplaceProcess(s, sys, p, db, process.(current := Some(next)));
  }

  lemma ReplaceProcess(s: Setting, sys: System, p: nat, db: Db, process: Process)
    requires DbOk(s, db) && ProcessOk(s, db, process) && PendingApart(sys) && GatewayOk(s, sys.gateway)
    requires forall q :: q in sys.processes && q != p ==> ProcessOk(s, db, sys.processes[q])
    requires forall q :: q in sys.processes && q != p && PendingKey(sys.processes[q]).Some? ==>
                           PendingKey(sys.processes[q]) != PendingKey(process)
    ensures Inv(s, SetProcess(sys.(db := db), p, process))
  {
  }

  lemma OtherSurvives(s: Setting, sys: System, p: nat, q: nat, db: Db, next: Thread)
    requires Inv(s, sys) && p in sys.processes && q in sys.processes && p != q && sys.processes[p].current.Some?
    requires Kept(s, sys.db, sys.processes[p].current.value, db, next)
    ensures ProcessOk(s, db, sys.processes[q])
    ensures PendingKey(sys.processes[q]).Some? ==>
              PendingKey(sys.processes[q]) != PendingKey(sys.processes[p].(current := Some(next)))
  {
    if sys.processes[q].current.Some? {
      var th := sys.processes[q].current.value;
      if HasPending(th) {
        assert th.writes[0].entry.what.key in sys.db.decisions;
        assert PendingKey(sys.processes[q]) != PendingKey(sys.processes[p]);
      }
      ThreadSurvives(s, sys.db, db, th);
    }
  }

  lemma ClaimStepKeeps(s: Setting, sys: System, c: Choice)
    requires Inv(s, sys) && Allowed(s, c) && c.Claim?
    ensures Inv(s, Step(s, sys, c)) && Grows(sys.db, Step(s, sys, c).db)
  {
    var claimed := ClaimJobs(sys.db, c.cfg.batchSize, c.cutoff, c.stamps, c.maxAttempts);
    JobsKeep(s, sys.db, claimed.jobs);
    if c.p !in sys.processes {
      StartKeeps(s, sys, claimed, c.p, Process(c.cfg, Handed(sys.db, c.cfg.batchSize, c.cutoff, c.maxAttempts), None));
    }
  }

  lemma DeliverStepKeeps(s: Setting, sys: System, c: Choice)
    requires Inv(s, sys) && Allowed(s, c) && c.Deliver?
    ensures Inv(s, Step(s, sys, c)) && Step(s, sys, c).db == sys.db
  {
    IngestThreadOk(s, c.cfg, sys.db, c.delivery);
    StartKeeps(s, sys, sys.db, c.p, Process(c.cfg, [], Some(IngestThread(c.cfg, c.delivery))));
  }

  lemma RetireKeeps(s: Setting, sys: System, c: Choice)
    requires Inv(s, sys) && c.Commit? && c.p in sys.processes
    requires sys.processes[c.p].current.Some? && sys.processes[c.p].current.value.Finished()
    ensures Inv(s, Step(s, sys, c)) && Step(s, sys, c).db == sys.db
  {
    StartKeeps(s, sys, sys.db, c.p, Retire(sys.processes[c.p], sys.processes[c.p].current.value));
  }

  lemma StartRowKeeps(s: Setting, sys: System, p: nat)
    requires Inv(s, sys) && p in sys.processes && sys.processes[p].current.None? && sys.processes[p].queue != []
    ensures Inv(s, Step(s, sys, StartRow(p))) && Step(s, sys, StartRow(p)).db == sys.db
  {
    var process := sys.processes[p];
    StartKeeps(s, sys, sys.db, p, Process(process.cfg, process.queue[1..], Some(Thread([], Fetch(process.queue[0])))));
  }

  lemma StepKeeps(s: Setting, sys: System, c: Choice)
    requires Inv(s, sys) && Allowed(s, c)
    ensures Inv(s, Step(s, sys, c)) && Grows(sys.db, Step(s, sys, c).db)
  {
    match c
    case Deliver(_, _, _) => DeliverStepKeeps(s, sys, c);
    case Claim(_, _, _, _, _) => ClaimStepKeeps(s, sys, c);
    case StartRow(p) =>
      if p in sys.processes && sys.processes[p].current.None? && sys.processes[p].queue != [] {
        StartRowKeeps(s, sys, p);
      }
    case Commit(p, refreshFails, oracle) =>
      if p in sys.processes && sys.processes[p].current.Some? {
        if sys.processes[p].current.value.Finished() {
          RetireKeeps(s, sys, c);
        } else {
          CommitStepKeeps(s, sys, p, refreshFails, oracle);
        }
      }
    case Crash(p) =>
    case SetPayment(payment, status, rail, expires) =>
  }

  /** Every run keeps a good system good, and takes nothing back: cases keep their chains, attempts
      their numbers, decisions and trail entries their content. */
  lemma {:induction false} RunFromKeeps(s: Setting, sys: System, more: seq<Choice>)
    requires Inv(s, sys) && AllAllowed(s, more)
    ensures Inv(s, RunFrom(s, sys, more)) && Grows(sys.db, RunFrom(s, sys, more).db)
  {
    if more != [] {
      var less, last := more[..|more| - 1], more[|more| - 1];
      RunFromKeeps(s, sys, less);
      StepKeeps(s, RunFrom(s, sys, less), last);
      GrowsTransitive(sys.db, RunFrom(s, sys, less).db, RunFrom(s, sys, more).db);
    }
  }

  /** Every reachable state of every interleaving is good. */
  lemma RunKeeps(s: Setting, choices: seq<Choice>)
    requires AllAllowed(s, choices)
    ensures Inv(s, Run(s, choices))
  {
    RunFromKeeps(s, START, choices);
  }

  // ------------------------------------------------------------------- theorems --

  /** One case per chain, in the chain of its payment, and attempt numbers that are exactly 1..k. */
  lemma ChainsAreWellFormed(s: Setting, choices: seq<Choice>, chainKey: string, n: nat)
    requires AllAllowed(s, choices)
    ensures OneCasePerChain(Run(s, choices).db.cases) && CasesInChain(s, Run(s, choices).db.cases)
    ensures var rows := Run(s, choices).db.chainAttempts;
            1 <= n <= ChainLength(rows, chainKey) <==> CarriesNumber(rows, chainKey, n)
  {
    RunKeeps(s, choices);
    NumbersAreOneToK(Run(s, choices).db.chainAttempts, chainKey, n);
  }

  /** No two attempts on a chain share a number or a payment, and none ever changes. */
  lemma AttemptsAreStable(s: Setting, choices: seq<Choice>, more: seq<Choice>, i: nat, j: nat)
    requires AllAllowed(s, choices) && AllAllowed(s, more)
    requires var rows := Run(s, choices).db.chainAttempts;
             i < j < |rows| && rows[i].chainKey == rows[j].chainKey
    ensures var early, late := Run(s, choices).db.chainAttempts, RunFrom(s, Run(s, choices), more).db.chainAttempts;
            && early[i].attemptN < early[j].attemptN && early[i].paymentId != early[j].paymentId
            && early <= late
  {
    RunKeeps(s, choices);
    RunFromKeeps(s, Run(s, choices), more);
    NumbersInOrder(Run(s, choices).db.chainAttempts, i, j);
  }

  /** Exactly once: whatever interleaves, crashes or is reclaimed, and at whatever two moments one
      looks, a payment has at most one decision under a policy version, and that one never changes. */
  lemma ExactlyOnce(s: Setting, choices: seq<Choice>, more: seq<Choice>, k: string, l: string)
    requires AllAllowed(s, choices) && AllAllowed(s, more)
    requires var early, late := Run(s, choices).db.decisions, RunFrom(s, Run(s, choices), more).db.decisions;
             && k in early && l in late
             && early[k].paymentId == late[l].paymentId && early[k].policyVersion == late[l].policyVersion
    ensures k == l && Run(s, choices).db.decisions[k] == RunFrom(s, Run(s, choices), more).db.decisions[k]
  {
    RunKeeps(s, choices);
    RunFromKeeps(s, Run(s, choices), more);
    OneDecisionPerPayment(s, RunFrom(s, Run(s, choices), more).db, k, l);
  }

  /** The chain cap holds in every state of every run behind guards. */
  lemma ChainCapAlways(s: Setting, choices: seq<Choice>, chainKey: string, version: string)
    requires AllAllowed(s, choices) && s.cap.Some? && s.cap.value > 0
    ensures |Executions(s, Run(s, choices).db, chainKey, version)| <= s.cap.value - 1
  {
    RunKeeps(s, choices);
    ChainCap(s, Run(s, choices).db, chainKey, version);
  }

  /** The trail explains every decision it announces: the key is a stored decision announced nowhere
      else, and earlier entries of the same event show an unresolved refresh and, for an obligation
      behind a guard, the admission. */
  lemma TrailExplains(s: Setting, choices: seq<Choice>, i: nat, j: nat)
    requires AllAllowed(s, choices)
    requires var audit := Run(s, choices).db.audit;
             i < |audit| && j < |audit| && audit[i].what.DecisionRecorded? && audit[j].what.DecisionRecorded?
    ensures Explained(s, Run(s, choices).db, i)
    ensures var audit := Run(s, choices).db.audit;
            audit[i].what.key == audit[j].what.key ==> i == j
  {
    RunKeeps(s, choices);
  }

  /** A decision is suppressed only in favour of one of the same payment, version and attempt. */
  lemma SuppressedOnlyForTheSame(s: Setting, choices: seq<Choice>, d: Decision)
    requires AllAllowed(s, choices)
    requires d.Key() in Run(s, choices).db.decisions
    requires !Text.VersionsCollide(Run(s, choices).db.decisions[d.Key()].policyVersion, d.policyVersion)
    ensures var e := Run(s, choices).db.decisions[d.Key()];
            e.paymentId == d.paymentId && e.policyVersion == d.policyVersion && e.attemptN == d.attemptN
  {
    RunKeeps(s, choices);
    var e := Run(s, choices).db.decisions[d.Key()];
    Text.KeyInjective(e.paymentId, e.policyVersion, e.attemptN, d.paymentId, d.policyVersion, d.attemptN);
  }

  // ------------------------------------------------- a resolved payment stays quiet --

  /** No call in progress is on its way to a decision for `payment` on a snapshot taken earlier. */
  ghost predicate NotInFlight(payment: string, process: Process) {
    process.current.Some? ==>
      match process.current.value.main
      case OpenInsert(_, p, snap) => p == payment ==> snap.status.IsResolved()
      case OpenRead(_, p, snap, _) => p == payment ==> snap.status.IsResolved()
      case Assign(_, p, _, _) => p != payment
      case Record(_, d) => d.paymentId != payment
      case _ => true
  }

  ghost predicate Quiet(sys: System, payment: string) {
    && (payment in sys.gateway ==> sys.gateway[payment].status.IsResolved())
    && forall p :: p in sys.processes ==> NotInFlight(payment, sys.processes[p])
  }

  /** The gateway does not take a resolution back. */
  ghost predicate StaysResolved(c: Choice, payment: string) {
    c.SetPayment? && c.payment == payment ==> c.status.IsResolved()
  }

  ghost predicate NoNewDecision(a: Db, b: Db, payment: string) {
    forall k :: k in b.decisions && b.decisions[k].paymentId == payment ==> k in a.decisions
  }

  /** One commit of a call that is not on its way to a decision for `payment`. */
  lemma QuietThread(cfg: Config, db: Db, th: Thread, fetched: Option<Snapshot>, o: Oracle, queue: seq<Row>, payment: string)
    requires NotInFlight(payment, Process(cfg, queue, Some(th)))
    requires th.main.Fetch? && Asked(th) == payment && fetched.Some? ==> fetched.value.status.IsResolved()
    ensures NotInFlight(payment, Process(cfg, queue, Some(NextThread(cfg, db, th, fetched, o))))
    ensures NoNewDecision(db, NextDb(db, th), payment)
  {
  }

  lemma QuietCommit(s: Setting, sys: System, c: Choice, payment: string)
    requires Quiet(sys, payment) && c.Commit?
    ensures Quiet(Step(s, sys, c), payment) && NoNewDecision(sys.db, Step(s, sys, c).db, payment)
  {
    if c.p in sys.processes && sys.processes[c.p].current.Some? {
      var process := sys.processes[c.p];
      var th := process.current.value;
      if th.Finished() {
        QuietSet(sys, sys.db, c.p, Retire(process, th), payment);
      } else {
        var fetched := Answer(sys, th, c.refreshFails);
        var next := NextThread(process.cfg, sys.db, th, fetched, c.oracle);
        assert NotInFlight(payment, process);
        QuietThread(process.cfg, sys.db, th, fetched, c.oracle, process.queue, payment);
        QuietSet(sys, NextDb(sys.db, th), c.p, process.(current := Some(next)), payment);
      }
    }
  }

  lemma QuietSet(sys: System, db: Db, p: nat, process: Process, payment: string)
    requires Quiet(sys, payment) && NotInFlight(payment, process)
    ensures Quiet(SetProcess(sys.(db := db), p, process), payment)
  {
  }

  lemma QuietStep(s: Setting, sys: System, c: Choice, payment: string)
    requires Quiet(sys, payment) && StaysResolved(c, payment)
    ensures Quiet(Step(s, sys, c), payment) && NoNewDecision(sys.db, Step(s, sys, c).db, payment)
  {
    if c.Commit? {
      QuietCommit(s, sys, c, payment);
    }
  }

  ghost predicate AllStayResolved(choices: seq<Choice>, payment: string) {
    forall i :: 0 <= i < |choices| ==> StaysResolved(choices[i], payment)
  }

  lemma NoNewTransitive(a: Db, b: Db, c: Db, payment: string)
    requires NoNewDecision(a, b, payment) && NoNewDecision(b, c, payment) && DecisionsGrow(b.decisions, c.decisions)
    ensures NoNewDecision(a, c, payment)
  {
  }

  /** Once a payment is resolved at the gateway and stays so, and no call that asked before is still
      on its way, no further run gives it another decision. */
  lemma {:induction false} ResolvedIsFinal(s: Setting, sys: System, more: seq<Choice>, payment: string)
    requires Quiet(sys, payment) && AllStayResolved(more, payment)
    ensures Quiet(RunFrom(s, sys, more), payment)
    ensures NoNewDecision(sys.db, RunFrom(s, sys, more).db, payment)
  {
    if more != [] {
      var before, last := RunFrom(s, sys, more[..|more| - 1]), more[|more| - 1];
      ResolvedIsFinal(s, sys, more[..|more| - 1], payment);
      QuietStep(s, before, last, payment);
      StepKeepsDecisions(s, before, last);
      NoNewTransitive(sys.db, before.db, Step(s, before, last).db, payment);
    }
  }

  lemma StepKeepsDecisions(s: Setting, sys: System, c: Choice)
    ensures DecisionsGrow(sys.db.decisions, Step(s, sys, c).db.decisions)
  {
  }
}
