/** The search can find nothing: no ordering of any length, with no more payments than the cap,
    violates any of the invariants it looks for. */
module NoViolation {
  import opened Models
  import opened Calendar
  import opened Guards
  import opened Stores
  import opened Protocol
  import opened Safety
  import opened Worker
  import opened JobAtomic
  import opened JobOutcome
  import opened Adversary
  import Redelivery

  /** All payments are on the one order of the scenario. */
  function OneOrder(orderId: string): Setting {
    Setting(_ => Some(orderId), None)
  }

  function Payments(n: nat): set<string> {
    if n == 0 then {} else Payments(n - 1) + {PaymentId(n - 1)}
  }

  // ------------------------------------------------------------------ invariant --

  ghost predicate ResolvedOk(f: Facts, g: GatewayState, n: nat) {
    forall p :: p in f.resolvedAtStep ==>
                  f.resolvedAtStep[p] < n && p in g.entities && g.entities[p].status.IsResolved()
  }

  /** Decisions noted so far came no later than the resolution of their payment. */
  ghost predicate NotedOk(f: Facts, n: nat) {
    forall e :: e in f.decisionsAtStep ==>
                  e.step < n && (e.payment in f.resolvedAtStep ==> e.step <= f.resolvedAtStep[e.payment])
  }

  ghost predicate AdmittedOk(f: Facts, cal: ComplianceCalendar, n: nat) {
    && (forall e :: e in f.admitted ==>
                      && e.step < n && !cal.IsPeak(e.executeAt)
                      && (e.payment in f.resolvedAtStep ==> e.step <= f.resolvedAtStep[e.payment])
                      && (f.orderExpiredAtStep.Some? ==> e.step < f.orderExpiredAtStep.value))
    && forall p :: CountFor(f.admitted, p) > 0 ==> CountFor(f.admitted, p) + 1 <= cal.attemptCap
  }

  ghost predicate ExpiryOk(r: Run, n: nat) {
    && r.facts.orderExpired == r.facts.orderExpiredAtStep.Some? == r.expiresAt.Some?
    && (r.expiresAt.Some? ==> r.expiresAt.value == CLOCK - HOUR && r.facts.orderExpiredAtStep.value < n)
  }

  ghost predicate FactsOk(f: Facts, g: GatewayState, cal: ComplianceCalendar, n: nat) {
    ResolvedOk(f, g, n) && NotedOk(f, n) && AdmittedOk(f, cal, n)
  }

  ghost predicate CoreOk(x: Setup, r: Run) {
    && WorldOk(OneOrder(x.scenario.orderId), x.cfg, Payments(x.scenario.paymentCount), World(r.db, r.gateway))
    && Payments(x.scenario.paymentCount) <= r.gateway.entities.Keys
    && r.db.rawEvents.Keys == r.facts.delivered
  }

  /** Decisions not noted yet are for payments that are not resolved. */
  ghost predicate NewUnresolved(r: Run) {
    && r.facts.seenKeys <= r.db.decisions.Keys
    && forall k :: k in r.db.decisions && k !in r.facts.seenKeys ==>
                     r.db.decisions[k].paymentId !in r.facts.resolvedAtStep
  }

  /** In the middle of step `n`. */
  ghost predicate Mid(x: Setup, r: Run, n: nat) {
    CoreOk(x, r) && FactsOk(r.facts, r.gateway, x.guard.calendar, n + 1) && ExpiryOk(r, n + 1) && NewUnresolved(r)
  }

  /** After `n` steps. */
  ghost predicate Sane(x: Setup, r: Run, n: nat) {
    && CoreOk(x, r) && FactsOk(r.facts, r.gateway, x.guard.calendar, n) && ExpiryOk(r, n)
    && r.facts.seenKeys == r.db.decisions.Keys
  }

  ghost predicate Searchable(x: Setup) {
    && "payment.failed" in x.cfg.acceptedEvents && "insufficient_funds" !in x.cfg.filteredReasons
    && x.PicksDelivered()
    && x.scenario.paymentCount > 0
  }

  // ------------------------------------------------------------------ the start --

  lemma {:induction false} GatewayStartsFit(scenario: Scenario, n: nat)
    ensures GatewayFits(OneOrder(scenario.orderId), Payments(n), InitialGateway(scenario, n))
    ensures InitialGateway(scenario, n).Keys == Payments(n)
  {
    if n > 0 {
      GatewayStartsFit(scenario, n - 1);
    }
  }

  lemma BeginsSane(x: Setup)
    ensures Sane(x, Begin(x.scenario), 0)
  {
    GatewayStartsFit(x.scenario, x.scenario.paymentCount);
  }

  // ------------------------------------------------------------------- one step --

  lemma DeliveryKeeps(x: Setup, r: Run, id: string, payment: string, createdAt: int)
    requires CoreOk(x, r) && Searchable(x)
    ensures var db := Ingest(x.cfg, r.db, DeliveryOf(id, payment, createdAt)).db;
            && WorldOk(OneOrder(x.scenario.orderId), x.cfg, Payments(x.scenario.paymentCount), World(db, r.gateway))
            && (id != "" ==> db.rawEvents.Keys == r.db.rawEvents.Keys + {id})
            && (id in r.db.rawEvents ==> db.rawEvents == r.db.rawEvents)
            && db.decisions == r.db.decisions
  {
    var d := DeliveryOf(id, payment, createdAt);
    var s, payments := OneOrder(x.scenario.orderId), Payments(x.scenario.paymentCount);
    assert Whole(s, x.cfg.policyVersion, payments, Ingest(x.cfg, r.db, d).db) by {
      IngestKeepsWhole(s, x.cfg, payments, r.db, d);
    }
    DeliveryTables(x.cfg, r.db, d);
  }

  lemma DeliveryTables(cfg: Config, db: Db, d: Delivery)
    requires d.eventIdHeader.Some? && d.createdAt.Some? && d.event != ""
    requires d.event in cfg.acceptedEvents && d.entity.errorReason !in cfg.filteredReasons
    ensures var id, after := d.eventIdHeader.value, Ingest(cfg, db, d).db;
            && (id != "" ==> after.rawEvents.Keys == db.rawEvents.Keys + {id})
            && (id in db.rawEvents ==> after.rawEvents == db.rawEvents)
            && after.decisions == db.decisions
  {
    Redelivery.IngestStores(cfg, db, d);
  }

  /** What passes of a worker leave of the facts, and that they keep the run good. */
  ghost predicate Worked(x: Setup, r: Run, done: Run, n: nat) {
    Mid(x, done, n) && done.facts == r.facts && done.expiresAt == r.expiresAt
  }

  lemma PassKeeps(x: Setup, r: Run, cutoff: int, stamps: nat -> int, os: nat -> Oracle, n: nat)
    requires Mid(x, r, n)
    ensures Worked(x, r, OnePass(x.cfg, r, cutoff, stamps, os), n)
  {
    var after := OnePass(x.cfg, r, cutoff, stamps, os);
    PassKeepsWhole(OneOrder(x.scenario.orderId), x.cfg, Payments(x.scenario.paymentCount), r.db, r.gateway,
                   cutoff, stamps, os);
    PassAddsOnlyUnresolved(x.cfg, r.db, r.gateway, cutoff, stamps, os);
  }

  lemma PassesWork(x: Setup, turn: Turn, r: Run, n: nat, twice: bool)
    requires Mid(x, r, n)
    ensures Worked(x, r, Passes(x.cfg, turn, r, twice), n)
  {
    var first := OnePass(x.cfg, r, turn.cutoff, turn.stamps, turn.oracles);
    PassKeeps(x, r, turn.cutoff, turn.stamps, turn.oracles, n);
    if twice {
      PassKeeps(x, first, turn.secondCutoff, turn.secondStamps, turn.secondOracles, n);
    }
  }

  lemma PassAddsOnlyUnresolved(cfg: Config, db: Db, g: GatewayState, cutoff: int, stamps: nat -> int, os: nat -> Oracle)
    ensures AddsOnlyUnresolved(g, db, ProcessPending(cfg, db, g, cutoff, stamps, os).db)
  {
    RowsAddOnlyUnresolved(cfg, Core(ClaimJobs(db, cfg.batchSize, Some(cutoff), stamps, Some(cfg.maxAttempts)), g, ZERO),
                          Handed(db, cfg.batchSize, Some(cutoff), Some(cfg.maxAttempts)), os, 0);
  }

  lemma {:induction false} PaymentIsKnown(n: nat, i: nat)
    requires i < n
    ensures PaymentId(i) in Payments(n)
  {
    if i < n - 1 {
      PaymentIsKnown(n - 1, i);
    }
  }

  lemma AuthorizeKeeps(x: Setup, r: Run, n: nat, turn: Turn, a: Action)
    requires Searchable(x) && Sane(x, r, n) && a.step.LateAuthorize?
    ensures Mid(x, Perform(x, turn, r, n, a), n)
  {
    var payment := PaymentId(x.Index(a));
    assert payment in r.gateway.entities by {
      PaymentIsKnown(x.scenario.paymentCount, x.Index(a));
    }
    SettledKeeps(x, r, Perform(x, turn, r, n, a), n, payment);
  }

  lemma SettledKeeps(x: Setup, r: Run, done: Run, n: nat, payment: string)
    requires Sane(x, r, n) && payment in r.gateway.entities
    requires var f := r.facts;
             done == r.(gateway := Authorize(r.gateway, payment),
                        facts := f.(resolvedAtStep := if payment in f.resolvedAtStep then f.resolvedAtStep
                                                      else f.resolvedAtStep[payment := n]))
    ensures Mid(x, done, n)
  {
    SettledKeepsCore(x, r, done, payment);
    SettledKeepsFacts(r, done, x.guard.calendar, n, payment);
  }

  lemma SettledKeepsCore(x: Setup, r: Run, done: Run, payment: string)
    requires CoreOk(x, r) && payment in r.gateway.entities
    requires done.gateway == Authorize(r.gateway, payment) && done.db == r.db
    requires done.facts.delivered == r.facts.delivered
    ensures CoreOk(x, done)
  {
    assert done.gateway.entities.Keys == r.gateway.entities.Keys;
    assert done.gateway.entities[payment] == r.gateway.entities[payment].(status := Authorized);
  }

  lemma SettledKeepsFacts(r: Run, done: Run, cal: ComplianceCalendar, n: nat, payment: string)
    requires FactsOk(r.facts, r.gateway, cal, n) && payment in r.gateway.entities
    requires done.gateway == Authorize(r.gateway, payment)
    requires var f := r.facts;
             done.facts == f.(resolvedAtStep := if payment in f.resolvedAtStep then f.resolvedAtStep
                                                else f.resolvedAtStep[payment := n])
    ensures FactsOk(done.facts, done.gateway, cal, n + 1)
  {
    assert done.gateway.entities[payment].status == Authorized;
  }

  lemma NewDeliveryKeeps(x: Setup, r: Run, n: nat, id: string, payment: string, createdAt: int)
    requires Searchable(x) && Sane(x, r, n) && id != ""
    ensures Mid(x, r.(db := Ingest(x.cfg, r.db, DeliveryOf(id, payment, createdAt)).db,
                      facts := r.facts.(delivered := r.facts.delivered + {id}), counter := r.counter + 1), n)
  {
    DeliveryKeeps(x, r, id, payment, createdAt);
  }

  lemma RedeliveryKeeps(x: Setup, r: Run, n: nat, id: string, payment: string, createdAt: int)
    requires Searchable(x) && Sane(x, r, n) && id in r.facts.delivered
    ensures Mid(x, r.(db := Ingest(x.cfg, r.db, DeliveryOf(id, payment, createdAt)).db), n)
  {
    DeliveryKeeps(x, r, id, payment, createdAt);
  }

  lemma DeliverKeeps(x: Setup, r: Run, n: nat, turn: Turn, a: Action)
    requires Searchable(x) && Sane(x, r, n) && a.step == DeliverEvent
    ensures Mid(x, Perform(x, turn, r, n, a), n)
  {
    NewDeliveryKeeps(x, r, n, EventId(n, r.counter + 1), PaymentId(x.Index(a)), a.createdAt);
  }

  lemma RedeliverKeeps(x: Setup, r: Run, n: nat, turn: Turn, a: Action)
    requires Searchable(x) && Sane(x, r, n) && a.step == Redeliver
    ensures Mid(x, Perform(x, turn, r, n, a), n)
  {
    if r.facts.delivered != {} {
      RedeliveryKeeps(x, r, n, x.pick(r.facts.delivered, x.Index(a)), PaymentId(x.Index(a)), a.createdAt);
    } else {
      SaneIsMid(x, r, n);
    }
  }

  lemma SaneIsMid(x: Setup, r: Run, n: nat)
    requires Sane(x, r, n)
    ensures Mid(x, r, n)
  {
  }

  lemma RunsOnce(x: Setup, turn: Turn, r: Run, n: nat, a: Action)
    requires x.scenario.paymentCount > 0 && a.step == RunWorker
    ensures Perform(x, turn, r, n, a) == Passes(x.cfg, turn, r, false)
  {
  }

  lemma RunsTwice(x: Setup, turn: Turn, r: Run, n: nat, a: Action)
    requires x.scenario.paymentCount > 0 && a.step == ConcurrentWorkers
    ensures Perform(x, turn, r, n, a) == Passes(x.cfg, turn, r, true)
  {
  }

  lemma PassesKeep(x: Setup, r: Run, n: nat, turn: Turn, a: Action)
    requires Sane(x, r, n) && x.scenario.paymentCount > 0 && (a.step.RunWorker? || a.step.ConcurrentWorkers?)
    ensures Worked(x, r, Perform(x, turn, r, n, a), n)
  {
    SaneIsMid(x, r, n);
    if a.step == RunWorker {
      PassesWork(x, turn, r, n, false);
      RunsOnce(x, turn, r, n, a);
    } else {
      PassesWork(x, turn, r, n, true);
      RunsTwice(x, turn, r, n, a);
    }
  }

  lemma PerformKeeps(x: Setup, turn: Turn, r: Run, n: nat, a: Action)
    requires Searchable(x) && Sane(x, r, n)
    ensures Mid(x, Perform(x, turn, r, n, a), n)
  {
    match a.step
    case DeliverEvent => DeliverKeeps(x, r, n, turn, a);
    case Redeliver => RedeliverKeeps(x, r, n, turn, a);
    case LateAuthorize => AuthorizeKeeps(x, r, n, turn, a);
    case RunWorker => PassesKeep(x, r, n, turn, a);
    case CrashWorker =>
      ClaimKeepsWhole(OneOrder(x.scenario.orderId), x.cfg.policyVersion, Payments(x.scenario.paymentCount), r.db,
                      x.cfg.batchSize, None, turn.stamps, None);
    case ConcurrentWorkers => PassesKeep(x, r, n, turn, a);
    case ExpireOrder =>
    case ShiftPdnWindow =>
  }

  lemma CountAppend(admitted: seq<Admitted>, e: Admitted, payment: string)
    ensures CountFor(admitted + [e], payment) == CountFor(admitted, payment) + if e.payment == payment then 1 else 0
  {
    assert (admitted + [e])[..|admitted|] == admitted;
  }

  /** The guard admits a case only if it is unresolved, unexpired, off peak and under the cap. */
  lemma AdmitOneKeeps(x: Setup, r: Run, f: Facts, n: nat, index: nat, payment: string)
    requires FactsOk(f, r.gateway, x.guard.calendar, n + 1) && ExpiryOk(r, n)
    requires f.orderExpiredAtStep == r.facts.orderExpiredAtStep
    ensures var after := AdmitOne(x, r.shiftHours, r.expiresAt, f, n, index, payment);
            && FactsOk(after, r.gateway, x.guard.calendar, n + 1)
            && after == f.(admitted := after.admitted, blocks := after.blocks)
  {
    var request := AdmissionRequest(x.scenario.orderId, r.shiftHours, r.expiresAt, f, payment, index);
    var after := AdmitOne(x, r.shiftHours, r.expiresAt, f, n, index, payment);
    AllowedIff(x.guard, request);
    if x.guard.Check(request).None? {
      var e := Admitted(n, payment, SlotOf(index));
      assert after.admitted == f.admitted + [e];
      forall p | CountFor(after.admitted, p) > 0
        ensures CountFor(after.admitted, p) + 1 <= x.guard.calendar.attemptCap
      {
        CountAppend(f.admitted, e, p);
      }
    }
  }

  lemma {:induction false} AdmitCasesKeeps(x: Setup, r: Run, n: nat, index: nat, cases: seq<Case>)
    requires FactsOk(r.facts, r.gateway, x.guard.calendar, n + 1) && ExpiryOk(r, n)
    ensures var after := AdmitCases(x, r.shiftHours, r.expiresAt, r.facts, n, index, cases);
            && FactsOk(after, r.gateway, x.guard.calendar, n + 1)
            && after == r.facts.(admitted := after.admitted, blocks := after.blocks)
  {
    if cases != [] {
      AdmitCasesKeeps(x, r, n, index, cases[..|cases| - 1]);
      AdmitOneKeeps(x, r, AdmitCases(x, r.shiftHours, r.expiresAt, r.facts, n, index, cases[..|cases| - 1]), n, index,
                    cases[|cases| - 1].paymentId);
    }
  }

  lemma NoteKeeps(x: Setup, r: Run, n: nat)
    requires Mid(x, r, n)
    ensures Sane(x, r.(facts := NoteDecisions(r.facts, r.db.decisions, n)), n + 1)
  {
  }

  lemma StepKeepsSane(x: Setup, turn: Turn, r: Run, n: nat, a: Action)
    requires Searchable(x) && Sane(x, r, n)
    ensures Sane(x, OneStep(x, turn, r, n, a), n + 1)
  {
    var done := Perform(x, turn, r, n, a);
    PerformKeeps(x, turn, r, n, a);
    if a.step.RunWorker? || a.step.ConcurrentWorkers? {
      PassesKeep(x, r, n, turn, a);
      AdmitCasesKeeps(x, done, n, x.Index(a), done.db.cases);
      var facts := AdmitCases(x, done.shiftHours, done.expiresAt, done.facts, n, x.Index(a), done.db.cases);
      NoteKeeps(x, done.(facts := facts), n);
    } else {
      NoteKeeps(x, done, n);
    }
  }

  /** What the start has and every step keeps holds after any number of steps. */
  lemma {:induction false} EachStep(x: Setup, turns: nat -> Turn, n: nat, inv: (Run, nat) -> bool)
    requires x.scenario.paymentCount > 0 && n <= |x.scenario.actions|
    requires inv(Begin(x.scenario), 0)
    requires forall r, k: nat {:trigger OneStep(x, turns(k), r, k, x.scenario.actions[k])} ::
               k < |x.scenario.actions| && inv(r, k) ==> inv(OneStep(x, turns(k), r, k, x.scenario.actions[k]), k + 1)
    ensures inv(After(x, turns, n), n)
  {
    if n > 0 {
      EachStep(x, turns, n - 1, inv);
    }
  }

  lemma {:induction false} StepByStep(inv: nat -> bool, n: nat, m: nat)
    requires n <= m && inv(n) && forall k: nat :: n <= k < m && inv(k) ==> inv(k + 1)
    ensures inv(m)
    decreases m - n
  {
    if n < m {
      StepByStep(inv, n, m - 1);
    }
  }

  lemma AfterNext(x: Setup, turns: nat -> Turn, k: nat)
    requires x.scenario.paymentCount > 0 && k < |x.scenario.actions|
    ensures After(x, turns, k + 1) == OneStep(x, turns(k), After(x, turns, k), k, x.scenario.actions[k])
  {
  }

  lemma EveryRunIsSane(x: Setup, turns: nat -> Turn, n: nat)
    requires Searchable(x) && n <= |x.scenario.actions|
    ensures Sane(x, After(x, turns, n), n)
  {
    var inv := (r: Run, k: nat) => Sane(x, r, k);
    BeginsSane(x);
    forall r, k: nat | k < |x.scenario.actions| && inv(r, k)
      ensures inv(OneStep(x, turns(k), r, k, x.scenario.actions[k]), k + 1)
    {
      StepKeepsSane(x, turns(k), r, k, x.scenario.actions[k]);
    }
    EachStep(x, turns, n, inv);
  }

  // -------------------------------------------------------------- sane is clean --

  lemma ChainsAreClean(x: Setup, r: Run, n: nat)
    requires Sane(x, r, n) && x.scenario.orderId != ""
    ensures forall i :: 0 <= i < |r.db.cases| ==> r.db.cases[i].chainKey == x.scenario.orderId
    ensures |r.db.cases| <= 1
  {
    assert CasesInChain(OneOrder(x.scenario.orderId), r.db.cases);
    assert |r.db.cases| > 1 ==> r.db.cases[0].chainKey != r.db.cases[1].chainKey;
  }

  lemma {:induction false} PaymentsAreFew(n: nat)
    ensures |Payments(n)| <= n
  {
    if n > 0 {
      PaymentsAreFew(n - 1);
    }
  }

  lemma OneDecisionEach(x: Setup, r: Run, n: nat)
    requires Sane(x, r, n)
    ensures forall k, l :: k in r.db.decisions && l in r.db.decisions && k != l ==>
                             r.db.decisions[k].paymentId != r.db.decisions[l].paymentId
    ensures DistinctKeys(r.db.decisions) == r.db.decisions.Keys
  {
    var decisions := r.db.decisions;
    forall k, l | k in decisions && l in decisions && decisions[k].paymentId == decisions[l].paymentId
      ensures k == l
    {
      OneDecisionPerPayment(OneOrder(x.scenario.orderId), r.db, k, l);
    }
    assert forall k :: k in decisions ==> k == decisions[k].Key();
  }

  lemma DecisionsAreFew(x: Setup, r: Run, n: nat)
    requires Sane(x, r, n)
    ensures |r.db.decisions| <= x.scenario.paymentCount
  {
    var decisions := r.db.decisions;
    OneDecisionEach(x, r, n);
    PaymentsAreFew(x.scenario.paymentCount);
    Pigeonhole(decisions.Keys, Payments(x.scenario.paymentCount), k requires k in decisions => decisions[k].paymentId);
  }

  /** The search as a theorem: after any number of steps of any scenario on a real order, with no
      more payments than the cap, no check finds a violation. */
  lemma NoViolationEver(x: Setup, turns: nat -> Turn, n: nat, v: Adversary.Violation)
    requires Searchable(x) && n <= |x.scenario.actions|
    requires x.scenario.orderId != "" && x.scenario.paymentCount <= x.guard.calendar.attemptCap
    ensures var r := After(x, turns, n);
            !Breaks(v, x.scenario.orderId, r.db, r.facts, x.guard.calendar)
  {
    var r := After(x, turns, n);
    EveryRunIsSane(x, turns, n);
    if v.ObligationOutsideChain? || v.ChainSplit? {
      ChainsAreClean(x, r, n);
    } else if v.ExecutionBudgetExceeded? {
      DecisionsAreFew(x, r, n);
    } else {
      OtherChecksHold(x, r, n, v);
    }
  }

  /** Every check but those on the chain and on the number of obligations holds without a bound on
      the payments and without an order. */
  lemma OtherChecksHold(x: Setup, r: Run, n: nat, v: Adversary.Violation)
    requires Sane(x, r, n) && !v.ObligationOutsideChain? && !v.ChainSplit? && !v.ExecutionBudgetExceeded?
    ensures !Breaks(v, x.scenario.orderId, r.db, r.facts, x.guard.calendar)
  {
    OneDecisionEach(x, r, n);
    match v
    case DedupFailure => assert |r.db.rawEvents| == |r.db.rawEvents.Keys|;
    case AdmittedExecutionsExceedCap =>
      forall e | e in r.facts.admitted
        ensures CountFor(r.facts.admitted, e.payment) + 1 <= x.guard.calendar.attemptCap
      {
        AdmittedCounts(r.facts.admitted, e);
      }
    case UnauditedObligation =>
      WholeIsAudited(OneOrder(x.scenario.orderId), x.cfg.policyVersion, Payments(x.scenario.paymentCount), r.db);
    case _ =>
  }

  /** Why a real order is asked for: without one, the headline check fails exactly when a case exists. */
  lemma WithoutOrderEveryCaseIsOutside(x: Setup, turns: nat -> Turn, n: nat)
    requires Searchable(x) && n <= |x.scenario.actions| && x.scenario.orderId == ""
    ensures var r := After(x, turns, n);
            Breaks(ObligationOutsideChain, "", r.db, r.facts, x.guard.calendar) <==> r.db.cases != []
  {
    EveryRunIsSane(x, turns, n);
    CaseOutsideIff(x, After(x, turns, n), n);
  }

  lemma CaseOutsideIff(x: Setup, r: Run, n: nat)
    requires Sane(x, r, n) && x.scenario.orderId == ""
    ensures Breaks(ObligationOutsideChain, "", r.db, r.facts, x.guard.calendar) <==> r.db.cases != []
  {
    assert CasesInChain(OneOrder(""), r.db.cases);
    if r.db.cases != [] {
      assert |r.db.cases[0].chainKey| > 0;
    }
  }

  lemma {:induction false} AdmittedCounts(admitted: seq<Admitted>, e: Admitted)
    requires e in admitted
    ensures CountFor(admitted, e.payment) > 0
  {
    if e in admitted[..|admitted| - 1] {
      AdmittedCounts(admitted[..|admitted| - 1], e);
    }
  }
}
