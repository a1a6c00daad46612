/** The executor and the checker of the adversarial search (recovery/invariants.py), step by step,
    over the imperative store, gateway and worker. */
module Search {
  import opened Models
  import opened Calendar
  import opened Guards
  import opened Stores
  import opened Protocol
  import opened Worker
  import opened JobAtomic
  import opened Adversary
  import NoViolation

  class Trace {
    var resolvedAtStep: map<string, nat>
    var orderExpired: bool
    var orderExpiredAtStep: Option<nat>
    var admitted: seq<Admitted>
    var blocks: seq<BlockReason>
    var decisionsAtStep: set<Noted>
    var seenKeys: set<string>
    var delivered: set<string>

    function View(): Facts
      reads this
    {
      Facts(resolvedAtStep, orderExpired, orderExpiredAtStep, admitted, blocks, decisionsAtStep, seenKeys, delivered)
    }

    constructor ()
      ensures View() == NO_FACTS
    {
      resolvedAtStep, orderExpired, orderExpiredAtStep := map[], false, None;
      admitted, blocks := [], [];
      decisionsAtStep, seenKeys, delivered := {}, {}, {};
    }

    /** The first step at which a payment was settled. */
    method Resolve(payment: string, step: nat)
      modifies this`resolvedAtStep
      ensures View() == old(View()).(resolvedAtStep := if payment in old(resolvedAtStep) then old(resolvedAtStep)
                                                       else old(resolvedAtStep)[payment := step])
    {
      if payment !in resolvedAtStep {
        resolvedAtStep := resolvedAtStep[payment := step];
      }
    }

    /** One execution asks for admission. */
    method Admit(x: Setup, shiftHours: nat, expiresAt: Option<int>, step: nat, index: nat, payment: string)
      modifies this`admitted, this`blocks
      ensures View() == AdmitOne(x, shiftHours, expiresAt, old(View()), step, index, payment)
    {
      var before := 0;
      for i := 0 to |admitted|
        invariant before == CountFor(admitted[..i], payment)
      {
        assert admitted[..i + 1][..i] == admitted[..i];
        if admitted[i].payment == payment {
          before := before + 1;
        }
      }
      assert admitted[..|admitted|] == admitted;
      var status := if payment in resolvedAtStep then Authorized else PaymentStatus.Failed;
      var verdict := x.guard.Check(Request(Execution, CLOCK + shiftHours * HOUR, Some(SlotOf(index)), 1 + before, 0,
                                           None, None, status, Some(x.scenario.orderId), expiresAt, false,
                                           None, None, None));
      if verdict.None? {
        admitted := admitted + [Admitted(step, payment, SlotOf(index))];
      } else {
        blocks := blocks + [verdict.value];
      }
    }

    method AdmitAll(x: Setup, shiftHours: nat, expiresAt: Option<int>, step: nat, index: nat, cases: seq<Case>)
      modifies this`admitted, this`blocks
      ensures View() == AdmitCases(x, shiftHours, expiresAt, old(View()), step, index, cases)
    {
      for i := 0 to |cases|
        invariant View() == AdmitCases(x, shiftHours, expiresAt, old(View()), step, index, cases[..i])
      {
        assert cases[..i + 1][..i] == cases[..i];
        Admit(x, shiftHours, expiresAt, step, index, cases[i].paymentId);
      }
      assert cases[..|cases|] == cases;
    }

    /** Newly appeared decisions are recorded with the step that produced them. */
    method NoteNew(decisions: map<string, Decision>, step: nat)
      modifies this`decisionsAtStep, this`seenKeys
      ensures View() == NoteDecisions(old(View()), decisions, step)
    {
      var rows := decisions.Keys;
      ghost var noted: set<string> := {};
      while rows != {}
        invariant noted !! rows && noted + rows == decisions.Keys
        invariant View() == NoteSome(old(View()), decisions, noted, step)
        decreases |rows|
      {
        var key :| key in rows;
        NoteOneMore(old(View()), decisions, noted, key, step);
        Note(step, decisions[key].paymentId, key);
        rows, noted := rows - {key}, noted + {key};
      }
    }

    method Note(step: nat, payment: string, key: string)
      modifies this`decisionsAtStep, this`seenKeys
      ensures View() == NoteOne(old(View()), step, payment, key)
    {
      if key !in seenKeys {
        seenKeys := seenKeys + {key};
        decisionsAtStep := decisionsAtStep + {Noted(step, payment, key)};
      }
    }
  }

  // ------------------------------------------------------------------- execute --

  method SetUpGateway(scenario: Scenario) returns (gateway: SimulatedGateway)
    ensures fresh(gateway) && gateway.View() == Begin(scenario).gateway
  {
    gateway := new SimulatedGateway();
    for index := 0 to scenario.paymentCount
      invariant fresh(gateway)
      invariant gateway.View() == GatewayState(InitialGateway(scenario, index), 0, false)
      invariant forall p :: p in gateway.entities ==> gateway.entities[p] == Unpaid(scenario)
    {
      gateway.SetState(PaymentId(index),
                       Fields(Some(PaymentStatus.Failed), Some(Some(scenario.orderId)), Some(Some("upi")), None));
    }
  }

  /** One connection processes what is pending, or two do. */
  method RunPasses(x: Setup, turn: Turn, store: Store, gateway: SimulatedGateway, twice: bool, ghost r: Run)
    requires r.db == store.View() && r.gateway == gateway.View()
    modifies store, gateway
    ensures var after := Passes(x.cfg, turn, r, twice);
            after == r.(db := store.View(), gateway := gateway.View())
  {
    var _ := ProcessPendingJobs(store, gateway, x.cfg, turn.cutoff, turn.stamps, turn.oracles);
    if twice {
      var _ := ProcessPendingJobs(store, gateway, x.cfg, turn.secondCutoff, turn.secondStamps, turn.secondOracles);
    }
  }

  method PerformAction(x: Setup, turn: Turn, store: Store, gateway: SimulatedGateway, trace: Trace,
                       counter: nat, shiftHours: nat, expiresAt: Option<int>, step: nat, a: Action)
    returns (counter': nat, shiftHours': nat, expiresAt': Option<int>)
    requires x.scenario.paymentCount > 0
    modifies store, gateway, trace
    ensures Run(store.View(), gateway.View(), trace.View(), counter', shiftHours', expiresAt')
            == Perform(x, turn, old(Run(store.View(), gateway.View(), trace.View(), counter, shiftHours, expiresAt)), step, a)
  {
    ghost var before := Run(store.View(), gateway.View(), trace.View(), counter, shiftHours, expiresAt);
    counter', shiftHours', expiresAt' := counter, shiftHours, expiresAt;
    var index := x.Index(a);
    var payment := PaymentId(index);
    match a.step {
      case DeliverEvent =>
        counter' := counter + 1;
        var id := EventId(step, counter');
        var _ := IngestDelivery(store, x.cfg, DeliveryOf(id, payment, a.createdAt));
        trace.delivered := trace.delivered + {id};
      case Redeliver =>
        if trace.delivered != {} {
          var _ := IngestDelivery(store, x.cfg, DeliveryOf(x.pick(trace.delivered, index), payment, a.createdAt));
        }
      case LateAuthorize =>
        gateway.SetState(payment, AUTHORIZED);
        trace.Resolve(payment, step);
      case RunWorker => RunPasses(x, turn, store, gateway, false, before);
      case CrashWorker =>
        var _ := store.Claim(x.cfg.batchSize, None, turn.stamps, None);
      case ConcurrentWorkers => RunPasses(x, turn, store, gateway, true, before);
      case ExpireOrder =>
        trace.orderExpired, trace.orderExpiredAtStep := true, Some(step);
        expiresAt' := Some(CLOCK - HOUR);
      case ShiftPdnWindow =>
        shiftHours' := shiftHours + 9;
    }
  }

  method TakeStep(x: Setup, turn: Turn, store: Store, gateway: SimulatedGateway, trace: Trace,
                  counter: nat, shiftHours: nat, expiresAt: Option<int>, step: nat, a: Action)
    returns (counter': nat, shiftHours': nat, expiresAt': Option<int>)
    requires x.scenario.paymentCount > 0
    modifies store, gateway, trace
    ensures Run(store.View(), gateway.View(), trace.View(), counter', shiftHours', expiresAt')
            == OneStep(x, turn, old(Run(store.View(), gateway.View(), trace.View(), counter, shiftHours, expiresAt)), step, a)
  {
    ghost var before := Run(store.View(), gateway.View(), trace.View(), counter, shiftHours, expiresAt);
    counter', shiftHours', expiresAt' :=
      PerformAction(x, turn, store, gateway, trace, counter, shiftHours, expiresAt, step, a);
    ghost var done := Perform(x, turn, before, step, a);
    assert done == Run(store.View(), gateway.View(), trace.View(), counter', shiftHours', expiresAt');
    if a.step.RunWorker? || a.step.ConcurrentWorkers? {
      trace.AdmitAll(x, shiftHours', expiresAt', step, x.Index(a), store.cases);
    }
    trace.NoteNew(store.decisions, step);
  }

  method Execute(x: Setup, turns: nat -> Turn) returns (store: Store, trace: Trace)
    requires x.scenario.paymentCount > 0
    ensures fresh(store) && fresh(trace)
    ensures store.View() == After(x, turns, |x.scenario.actions|).db
    ensures trace.View() == After(x, turns, |x.scenario.actions|).facts
  {
    store := new Store();
    trace := new Trace();
    var gateway := SetUpGateway(x.scenario);
    TakeSteps(x, turns, store, gateway, trace);
  }

  method TakeSteps(x: Setup, turns: nat -> Turn, store: Store, gateway: SimulatedGateway, trace: Trace)
    requires x.scenario.paymentCount > 0
    requires Run(store.View(), gateway.View(), trace.View(), 0, 0, None) == Begin(x.scenario)
    modifies store, gateway, trace
    ensures var after := After(x, turns, |x.scenario.actions|);
            store.View() == after.db && trace.View() == after.facts
  {
    var counter, shiftHours, expiresAt := 0, 0, None;
    for step := 0 to |x.scenario.actions|
      invariant Run(store.View(), gateway.View(), trace.View(), counter, shiftHours, expiresAt) == After(x, turns, step)
    {
      counter, shiftHours, expiresAt :=
        TakeStep(x, turns(step), store, gateway, trace, counter, shiftHours, expiresAt, step, x.scenario.actions[step]);
    }
  }

  // --------------------------------------------------------------------- check --

  /** Every case must be keyed on the order, and there must be at most one. */
  method CheckChains(orderId: string, cases: seq<Case>) returns (found: seq<Adversary.Violation>)
    ensures ObligationOutsideChain in found <==> exists i :: 0 <= i < |cases| && cases[i].chainKey != orderId
    ensures ChainSplit in found <==> |cases| > 1
    ensures forall v :: v in found ==> v.ObligationOutsideChain? || v.ChainSplit?
  {
    found := [];
    for i := 0 to |cases|
      invariant ObligationOutsideChain in found <==> exists j :: 0 <= j < i && cases[j].chainKey != orderId
      invariant forall v :: v in found ==> v.ObligationOutsideChain?
    {
      if cases[i].chainKey != orderId {
        found := found + [ObligationOutsideChain];
      }
    }
    if |cases| > 1 {
      found := found + [ChainSplit];
    }
  }

  /** The decisions noted for `payment` after it was resolved. */
  function Later(noted: set<Noted>, resolved: map<string, nat>, payment: string): set<Noted>
    requires payment in resolved
  {
    set e | e in noted && e.payment == payment && e.step > resolved[payment]
  }

  /** No decision may follow the resolution of its payment. */
  method CheckResolved(resolved: map<string, nat>, noted: set<Noted>) returns (found: seq<Adversary.Violation>)
    ensures ObligationAfterLateAuthorisation in found <==>
            exists e :: e in noted && e.payment in resolved && e.step > resolved[e.payment]
    ensures forall v :: v in found ==> v.ObligationAfterLateAuthorisation?
  {
    found := [];
    var payments := resolved.Keys;
    while payments != {}
      invariant payments <= resolved.Keys
      invariant ObligationAfterLateAuthorisation in found <==>
                exists p :: p in resolved && p !in payments && Later(noted, resolved, p) != {}
      invariant forall v :: v in found ==> v.ObligationAfterLateAuthorisation?
      decreases |payments|
    {
      var payment :| payment in payments;
      if Later(noted, resolved, payment) != {} {
        found := found + [ObligationAfterLateAuthorisation];
      }
      payments := payments - {payment};
    }
    LaterThanResolved(resolved, noted);
  }

  lemma LaterThanResolved(resolved: map<string, nat>, noted: set<Noted>)
    ensures (exists p :: p in resolved && Later(noted, resolved, p) != {}) <==>
            (exists e :: e in noted && e.payment in resolved && e.step > resolved[e.payment])
  {
    if e :| e in noted && e.payment in resolved && e.step > resolved[e.payment] {
      assert e in Later(noted, resolved, e.payment);
    }
    if p :| p in resolved && Later(noted, resolved, p) != {} {
      var e :| e in Later(noted, resolved, p);
    }
  }

  predicate HasTwin(decisions: map<string, Decision>, k: string) {
    k in decisions && exists l :: l in decisions && k != l && decisions[k].paymentId == decisions[l].paymentId
  }

  /** Exactly once, within the budget, and announced. */
  method CheckDecisions(decisions: map<string, Decision>, audit: seq<AuditEvent>, cap: nat)
    returns (found: seq<Adversary.Violation>)
    ensures DuplicateObligation in found <==> |decisions| != |DistinctKeys(decisions)|
    ensures MultipleObligationsPerPayment in found <==> exists k :: HasTwin(decisions, k)
    ensures ExecutionBudgetExceeded in found <==> |decisions| > cap
    ensures UnauditedObligation in found <==> Announcements(audit) != |decisions|
    ensures forall v :: v in found ==> v.DuplicateObligation? || v.MultipleObligationsPerPayment? ||
                                       v.ExecutionBudgetExceeded? || v.UnauditedObligation?
  {
    var duplicate := if |decisions| != |DistinctKeys(decisions)| then [DuplicateObligation] else [];
    var multiple := CheckTwins(decisions);
    var budget := if |decisions| > cap then [ExecutionBudgetExceeded] else [];
    var audited := if Announcements(audit) != |decisions| then [UnauditedObligation] else [];
    found := duplicate + multiple + budget + audited;
  }

  method CheckTwins(decisions: map<string, Decision>) returns (found: seq<Adversary.Violation>)
    ensures found == [MultipleObligationsPerPayment] || found == []
    ensures found != [] <==> exists k :: HasTwin(decisions, k)
  {
    var twins := set k | k in decisions && HasTwin(decisions, k);
    assert (exists k :: HasTwin(decisions, k)) ==> twins != {} by {
      if k :| HasTwin(decisions, k) {
        assert k in twins;
      }
    }
    found := if twins != {} then [MultipleObligationsPerPayment] else [];
  }

  /** Nothing may be admitted after the order expired, ... */
  method CheckExpiry(f: Facts) returns (found: seq<Adversary.Violation>)
    ensures AdmittedAfterOrderExpiry in found <==> f.orderExpired && exists e :: e in f.admitted && e.step > ExpiryStep(f)
    ensures forall v :: v in found ==> v.AdmittedAfterOrderExpiry?
  {
    var after := set e | e in f.admitted && e.step > ExpiryStep(f);
    assert (exists e :: e in f.admitted && e.step > ExpiryStep(f)) ==> after != {} by {
      if e :| e in f.admitted && e.step > ExpiryStep(f) {
        assert e in after;
      }
    }
    found := if f.orderExpired && after != {} then [AdmittedAfterOrderExpiry] else [];
  }

  /** ... into a peak window, ... */
  method CheckPeaks(admitted: seq<Admitted>, cal: ComplianceCalendar) returns (found: seq<Adversary.Violation>)
    ensures AdmittedInPeakWindow in found <==> exists e :: e in admitted && cal.IsPeak(e.executeAt)
    ensures forall v :: v in found ==> v.AdmittedInPeakWindow?
  {
    found := [];
    for i := 0 to |admitted|
      invariant AdmittedInPeakWindow in found <==> exists j :: 0 <= j < i && cal.IsPeak(admitted[j].executeAt)
      invariant forall v :: v in found ==> v.AdmittedInPeakWindow?
    {
      if cal.IsPeak(admitted[i].executeAt) {
        found := found + [AdmittedInPeakWindow];
      }
    }
  }

  /** How many executions each payment was admitted. */
  method CountAdmitted(admitted: seq<Admitted>) returns (counts: map<string, nat>)
    ensures forall p :: p in counts ==> exists e :: e in admitted && e.payment == p
    ensures forall e :: e in admitted ==> e.payment in counts
    ensures forall p :: p in counts ==> counts[p] == CountFor(admitted, p)
  {
    counts := map[];
    for i := 0 to |admitted|
      invariant forall p :: p in counts ==> exists j :: 0 <= j < i && admitted[j].payment == p
      invariant forall j :: 0 <= j < i ==> admitted[j].payment in counts
      invariant forall p :: CountFor(admitted[..i], p) == CountIn(counts, p)
    {
      var p := admitted[i].payment;
      CountNext(admitted, i);
      ghost var before := counts;
      counts := counts[p := CountIn(counts, p) + 1];
      forall q
        ensures CountFor(admitted[..i + 1], q) == CountIn(counts, q)
      {
        assert CountFor(admitted[..i], q) == CountIn(before, q);
      }
    }
    assert admitted[..|admitted|] == admitted;
    forall p | p in counts
      ensures exists e :: e in admitted && e.payment == p
    {
      var j :| 0 <= j < |admitted| && admitted[j].payment == p;
      assert admitted[j] in admitted;
    }
  }

  function CountIn(counts: map<string, nat>, p: string): nat {
    if p in counts then counts[p] else 0
  }

  lemma CountNext(admitted: seq<Admitted>, i: nat)
    requires i < |admitted|
    ensures forall p :: CountFor(admitted[..i + 1], p)
                        == CountFor(admitted[..i], p) + if admitted[i].payment == p then 1 else 0
  {
    assert admitted[..i + 1][..i] == admitted[..i];
  }

  /** ... beyond the cap, counting the execution that opened the case, ... */
  method CheckCaps(admitted: seq<Admitted>, cap: nat) returns (found: seq<Adversary.Violation>)
    ensures AdmittedExecutionsExceedCap in found <==> exists e :: e in admitted && CountFor(admitted, e.payment) + 1 > cap
    ensures forall v :: v in found ==> v.AdmittedExecutionsExceedCap?
  {
    found := [];
    var counts := CountAdmitted(admitted);
    var payments := counts.Keys;
    while payments != {}
      invariant payments <= counts.Keys
      invariant AdmittedExecutionsExceedCap in found <==> exists p :: p in counts && p !in payments && counts[p] + 1 > cap
      invariant forall v :: v in found ==> v.AdmittedExecutionsExceedCap?
      decreases |payments|
    {
      var payment :| payment in payments;
      if counts[payment] + 1 > cap {
        found := found + [AdmittedExecutionsExceedCap];
      }
      payments := payments - {payment};
    }
    assert forall e :: e in admitted ==> e.payment in counts;
  }

  /** ... or after its payment was settled. */
  method CheckSettled(admitted: seq<Admitted>, resolved: map<string, nat>) returns (found: seq<Adversary.Violation>)
    ensures AdmittedAfterLateAuthorisation in found <==>
            exists e :: e in admitted && e.payment in resolved && e.step > resolved[e.payment]
    ensures forall v :: v in found ==> v.AdmittedAfterLateAuthorisation?
  {
    found := [];
    for i := 0 to |admitted|
      invariant AdmittedAfterLateAuthorisation in found <==>
                exists j :: 0 <= j < i && admitted[j].payment in resolved &&
                            admitted[j].step > resolved[admitted[j].payment]
      invariant forall v :: v in found ==> v.AdmittedAfterLateAuthorisation?
    {
      if admitted[i].payment in resolved && admitted[i].step > resolved[admitted[i].payment] {
        found := found + [AdmittedAfterLateAuthorisation];
      }
    }
  }

  method CheckAdmitted(f: Facts, cal: ComplianceCalendar) returns (found: seq<Adversary.Violation>)
    ensures forall v, orderId, db :: v in found <==> AboutAdmissions(v) && Breaks(v, orderId, db, f, cal)
  {
    var expiry := CheckExpiry(f);
    var peaks := CheckPeaks(f.admitted, cal);
    var caps := CheckCaps(f.admitted, cal.attemptCap);
    var settled := CheckSettled(f.admitted, f.resolvedAtStep);
    found := expiry + peaks + caps + settled;
    forall v, orderId, db
      ensures v in found <==> AboutAdmissions(v) && Breaks(v, orderId, db, f, cal)
    {
      assert v in found <==> v in expiry || v in peaks || v in caps || v in settled;
    }
  }

  predicate AboutAdmissions(v: Adversary.Violation) {
    || v.AdmittedAfterOrderExpiry? || v.AdmittedInPeakWindow?
    || v.AdmittedExecutionsExceedCap? || v.AdmittedAfterLateAuthorisation?
  }

  predicate AboutDecisions(v: Adversary.Violation) {
    v.DuplicateObligation? || v.MultipleObligationsPerPayment? || v.ExecutionBudgetExceeded? || v.UnauditedObligation?
  }

  method CheckObligations(orderId: string, db: Db, f: Facts, cal: ComplianceCalendar)
    returns (found: seq<Adversary.Violation>)
    ensures forall v :: v in found <==> AboutDecisions(v) && Breaks(v, orderId, db, f, cal)
  {
    found := CheckDecisions(db.decisions, db.audit, cal.attemptCap);
    TwinsBreak(orderId, db, f, cal);
  }

  method CheckTables(orderId: string, db: Db, f: Facts, cal: ComplianceCalendar) returns (found: seq<Adversary.Violation>)
    ensures forall v :: v in found <==> !AboutAdmissions(v) && !AboutDecisions(v) && Breaks(v, orderId, db, f, cal)
  {
    var chains := CheckChains(orderId, db.cases);
    var resolved := CheckResolved(f.resolvedAtStep, f.decisionsAtStep);
    var dedup := if |db.rawEvents| != |f.delivered| then [DedupFailure] else [];
    found := chains + resolved + dedup;
    forall v
      ensures v in found <==> !AboutAdmissions(v) && !AboutDecisions(v) && Breaks(v, orderId, db, f, cal)
    {
      assert v in found <==> v in chains || v in resolved || v in dedup;
    }
  }

  lemma TwinsBreak(orderId: string, db: Db, f: Facts, cal: ComplianceCalendar)
    ensures Breaks(MultipleObligationsPerPayment, orderId, db, f, cal) <==> exists k :: HasTwin(db.decisions, k)
  {
    if k :| HasTwin(db.decisions, k) {
      var l :| l in db.decisions && k != l && db.decisions[k].paymentId == db.decisions[l].paymentId;
    }
    if k, l :| k in db.decisions && l in db.decisions && k != l && db.decisions[k].paymentId == db.decisions[l].paymentId {
      assert HasTwin(db.decisions, k);
    }
  }

  /** The check reports exactly what is broken. */
  method Check(orderId: string, db: Db, f: Facts, cal: ComplianceCalendar) returns (violations: seq<Adversary.Violation>)
    ensures forall v :: v in violations <==> Breaks(v, orderId, db, f, cal)
  {
    var tables := CheckTables(orderId, db, f, cal);
    var obligations := CheckObligations(orderId, db, f, cal);
    var admissions := CheckAdmitted(f, cal);
    violations := tables + obligations + admissions;
    forall v
      ensures v in violations <==> Breaks(v, orderId, db, f, cal)
    {
      assert v in violations <==> v in tables || v in obligations || v in admissions;
    }
  }

  /** So the search never stops: executing any scenario and checking it yields no violation. */
  method ExecuteAndCheck(x: Setup, turns: nat -> Turn) returns (violations: seq<Adversary.Violation>)
    requires NoViolation.Searchable(x)
    requires x.scenario.orderId != "" && x.scenario.paymentCount <= x.guard.calendar.attemptCap
    ensures violations == []
  {
    var store, trace := Execute(x, turns);
    violations := Check(x.scenario.orderId, store.View(), trace.View(), x.guard.calendar);
    forall v
      ensures v !in violations
    {
      NoViolation.NoViolationEver(x, turns, |x.scenario.actions|, v);
    }
    FirstIsIn(violations);
  }

  lemma FirstIsIn<T>(s: seq<T>)
    ensures s == [] || s[0] in s
  {
  }
}
