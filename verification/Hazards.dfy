/** What each step of the search does to tables, gateway and trace, so that a search that left a hazard
    out would be another one. */
module Hazards {
  import opened Models
  import opened Calendar
  import opened Guards
  import opened Rules
  import opened Stores
  import opened Protocol
  import opened Worker
  import opened JobAtomic
  import opened JobOutcome
  import opened Redelivery
  import opened Adversary
  import opened NoViolation
  import Reception
  import Claims
  import Text

  // ------------------------------------------------------------------ a crash --

  /** A waiting job that was left for a batch full of jobs that come before it, all of them waiting before
      and claimed now. */
  ghost predicate CrowdedOut(before: Db, after: Db, batch: nat, i: nat)
    requires Claims.Stored(before) && i < |before.jobs| == |after.jobs|
  {
    exists taken: seq<nat> ::
      && |taken| == batch && Distinct(taken)
      && forall j :: j in taken ==>
           j < |before.jobs| && before.jobs[j].state == JobState.Pending && after.jobs[j].state == Claimed
           && Claims.ComesBefore(before, j, i)
  }

  /** What dying after the claim makes of one job: a waiting one is claimed, stamped and one attempt up,
      unless the batch was full of earlier ones; any other stays as it was. */
  ghost predicate CrashedOver(before: Db, after: Db, batch: nat, stamps: nat -> int, i: nat)
    requires Claims.Stored(before) && i < |before.jobs| == |after.jobs|
  {
    var job, now := before.jobs[i], after.jobs[i];
    if job.state != JobState.Pending then now == job
    else
      || (now.state == Claimed && now.attempts == job.attempts + 1 && now.eventId == job.eventId
          && exists k :: 0 <= k < batch && now.claimedAt == Some(stamps(k)))
      || (now == job && CrowdedOut(before, after, batch, i))
  }

  lemma ClaimAndDie(db: Db, batch: nat, stamps: nat -> int, i: nat)
    requires Claims.Stored(db) && i < |db.jobs|
    ensures var after := ClaimJobs(db, batch, None, stamps, None);
            |after.jobs| == |db.jobs| && CrashedOver(db, after, batch, stamps, i)
  {
    var rows, after := Handed(db, batch, None, None), ClaimJobs(db, batch, None, stamps, None);
    Claims.HandsOutDue(db, batch, None, None, i);
    Claims.HandsOutInOrder(db, batch, None, None);
    Claims.ClaimWrites(db, batch, None, stamps, None, i);
    if db.jobs[i].state == JobState.Pending && !Claims.HandedOut(rows, i) {
      var taken := seq(|rows|, k requires 0 <= k < |rows| => rows[k].job);
      forall j | j in taken
        ensures j < |db.jobs| && db.jobs[j].state == JobState.Pending && after.jobs[j].state == Claimed
        ensures Claims.ComesBefore(db, j, i)
      {
        var k :| 0 <= k < |rows| && rows[k].job == j;
        assert Claims.HandedOut(rows, j);
        Claims.HandsOutDue(db, batch, None, None, j);
        Claims.ClaimWrites(db, batch, None, stamps, None, j);
      }
      OrderedIsDistinct(db, rows, taken);
    }
  }

  lemma OrderedIsDistinct(db: Db, rows: seq<Row>, taken: seq<nat>)
    requires Claims.Stored(db) && Claims.RowsCarryEvents(db, rows)
    requires |taken| == |rows| && forall k :: 0 <= k < |rows| ==> taken[k] == rows[k].job
    requires forall a, b :: 0 <= a < b < |rows| ==> Claims.ComesBefore(db, rows[a].job, rows[b].job)
    ensures Distinct(taken)
  {
    forall a, b | 0 <= a < b < |taken|
      ensures taken[a] != taken[b]
    {
      assert Claims.ComesBefore(db, rows[a].job, rows[b].job);
    }
  }

  /** A crash claims a batch and nothing more: no case, attempt, decision or entry of the trail changes, nor
      anything at the gateway. */
  lemma CrashWorkerClaims(x: Setup, turn: Turn, r: Run, n: nat, a: Action, i: nat)
    requires x.scenario.paymentCount > 0 && a.step == CrashWorker && Claims.Stored(r.db) && i < |r.db.jobs|
    ensures var t := OneStep(x, turn, r, n, a);
            && t.db == r.db.(jobs := t.db.jobs) && t.gateway == r.gateway && |t.db.jobs| == |r.db.jobs|
            && CrashedOver(r.db, t.db, x.cfg.batchSize, turn.stamps, i)
  {
    ClaimAndDie(r.db, x.cfg.batchSize, turn.stamps, i);
  }

  /** A row touches its own job and decides for its own payment. */
  lemma RowTouchesItsOwn(cfg: Config, db: Db, row: Row, fetched: Option<Snapshot>, o: Oracle)
    ensures var after := ProcessRow(cfg, db, row, fetched, o).db;
            && |after.jobs| == |db.jobs|
            && (forall j :: 0 <= j < |db.jobs| && j != row.job ==> after.jobs[j] == db.jobs[j])
            && DecidesOnlyFor(row, db, after)
  {
    JobRefines(cfg, db, row, fetched, o);
    if row.entity.paymentId.Some? && row.entity.paymentId.value != "" && fetched.Some? {
      ChainEnds(cfg, db, row, row.entity.paymentId.value, fetched.value, o);
      ChainAddsOnlyFor(cfg, db, row, row.entity.paymentId.value, fetched.value, o);
    }
  }

  ghost predicate DecidesOnlyFor(row: Row, a: Db, b: Db) {
    && (forall k :: k in a.decisions ==> k in b.decisions && b.decisions[k] == a.decisions[k])
    && forall k :: k in b.decisions && k !in a.decisions ==> row.entity.paymentId == Some(b.decisions[k].paymentId)
  }

  /** Every new decision is for the payment of a row handed out, not of job `i`. */
  ghost predicate DecidesWithout(rows: seq<Row>, i: nat, a: Db, b: Db) {
    && (forall k :: k in a.decisions ==> k in b.decisions && b.decisions[k] == a.decisions[k])
    && forall k :: k in b.decisions && k !in a.decisions ==>
         exists j :: 0 <= j < |rows| && rows[j].job != i && rows[j].entity.paymentId == Some(b.decisions[k].paymentId)
  }

  lemma {:induction false} RowsLeave(cfg: Config, c: Core, rows: seq<Row>, os: nat -> Oracle, n: nat, i: nat)
    requires n <= |rows| && i < |c.db.jobs| && forall k :: 0 <= k < |rows| ==> rows[k].job != i
    ensures var after := ProcessRows(cfg, c, rows, os, n).db;
            i < |after.jobs| && after.jobs[i] == c.db.jobs[i] && DecidesWithout(rows, i, c.db, after)
    decreases |rows| - n
  {
    if n < |rows| {
      var next := AfterRow(cfg, c, rows[n], os(n));
      RowTouchesItsOwn(cfg, c.db, rows[n], FetchedFor(c.gateway, rows[n]), os(n));
      assert DecidesOnlyFor(rows[n], c.db, next.db);
      if !OutcomeOf(cfg, c, rows[n], os(n)).Raised? {
        RowsLeave(cfg, next, rows, os, n + 1, i);
        DecidesOn(rows, n, i, c.db, next.db, ProcessRows(cfg, next, rows, os, n + 1).db);
      } else {
        assert rows[n].job != i;
      }
    }
  }

  lemma DecidesOn(rows: seq<Row>, n: nat, i: nat, a: Db, b: Db, c: Db)
    requires n < |rows| && rows[n].job != i && DecidesOnlyFor(rows[n], a, b) && DecidesWithout(rows, i, b, c)
    ensures DecidesWithout(rows, i, a, c)
  {
  }

  /** What a pass cannot see: a job claimed at its cutoff or later is not handed out, so it stays claimed,
      but for one whose attempts are used up, and nothing is decided on its account. */
  lemma PassSparesClaimed(cfg: Config, db: Db, g: GatewayState, cutoff: int, stamps: nat -> int, os: nat -> Oracle, i: nat)
    requires Claims.Stored(db) && i < |db.jobs| && db.jobs[i].state == Claimed
    requires db.jobs[i].claimedAt.Some? && cutoff <= db.jobs[i].claimedAt.value
    ensures var after := ProcessPending(cfg, db, g, cutoff, stamps, os).db;
            var rows := Handed(db, cfg.batchSize, Some(cutoff), Some(cfg.maxAttempts));
            && i < |after.jobs|
            && after.jobs[i] == (if db.jobs[i].attempts >= cfg.maxAttempts then db.jobs[i].(state := FailedJob) else db.jobs[i])
            && DecidesWithout(rows, i, db, after)
  {
    var rows := Handed(db, cfg.batchSize, Some(cutoff), Some(cfg.maxAttempts));
    var claimed := ClaimJobs(db, cfg.batchSize, Some(cutoff), stamps, Some(cfg.maxAttempts));
    Claims.LiveWorkStays(db, cfg.batchSize, Some(cutoff), Some(cfg.maxAttempts), i);
    Claims.HandedRow(db, cfg.batchSize, Some(cutoff), Some(cfg.maxAttempts), i);
    ClaimOfOneJob(db, cfg.batchSize, Some(cutoff), stamps, Some(cfg.maxAttempts), i);
    forall k | 0 <= k < |rows|
      ensures rows[k].job != i
    {
      assert !Claims.HandedOut(rows, i);
    }
    RowsLeave(cfg, Core(claimed, g, ZERO), rows, os, 0, i);
  }

  /** So what a crash claimed no pass decides whose cutoff is not past the stamp. */
  lemma CrashedWorkWaits(x: Setup, turn: Turn, r: Run, n: nat, a: Action, cutoff: int, stamps: nat -> int,
                         os: nat -> Oracle, i: nat)
    requires x.scenario.paymentCount > 0 && a.step == CrashWorker && Claims.Stored(r.db) && i < |r.db.jobs|
    requires r.db.jobs[i].state == JobState.Pending
    requires i < |OneStep(x, turn, r, n, a).db.jobs| && OneStep(x, turn, r, n, a).db.jobs[i].state == Claimed
    requires forall k: nat :: cutoff <= turn.stamps(k)
    ensures var t := OneStep(x, turn, r, n, a);
            var after := ProcessPending(x.cfg, t.db, t.gateway, cutoff, stamps, os).db;
            && i < |after.jobs| && (after.jobs[i] == t.db.jobs[i] || after.jobs[i].state == FailedJob)
            && DecidesWithout(Handed(t.db, x.cfg.batchSize, Some(cutoff), Some(x.cfg.maxAttempts)), i, t.db, after)
  {
    var t := OneStep(x, turn, r, n, a);
    CrashWorkerClaims(x, turn, r, n, a, i);
    forall j: nat | j < |t.db.jobs|
      ensures t.db.jobs[j].eventId in t.db.rawEvents
    {
      Claims.ClaimWrites(r.db, x.cfg.batchSize, None, turn.stamps, None, j);
    }
    PassSparesClaimed(x.cfg, t.db, t.gateway, cutoff, stamps, os, i);
  }

  // -------------------------------------------------------- late authorisation --

  /** The payment came good: its status changes at the gateway and nothing else there, the step is noted if
      it is the first, and the tables are untouched. */
  lemma LateAuthorizeSettles(x: Setup, turn: Turn, r: Run, n: nat, a: Action)
    requires x.scenario.paymentCount > 0 && a.step == LateAuthorize
    requires PaymentId(a.paymentIndex % x.scenario.paymentCount) in r.gateway.entities
    ensures var t, payment := OneStep(x, turn, r, n, a), PaymentId(a.paymentIndex % x.scenario.paymentCount);
            var g, h := r.gateway, t.gateway;
            && t.db == r.db && h.entities.Keys == g.entities.Keys
            && h.failNext == g.failNext && h.fetchCount == g.fetchCount
            && h.entities[payment].status == Authorized && h.entities[payment].orderId == g.entities[payment].orderId
            && h.entities[payment].rail == g.entities[payment].rail
            && h.entities[payment].orderExpiresAt == g.entities[payment].orderExpiresAt
            && (forall p :: p in g.entities && p != payment ==> h.entities[p] == g.entities[p])
            && payment in t.facts.resolvedAtStep
            && (payment !in r.facts.resolvedAtStep ==> t.facts.resolvedAtStep[payment] == n)
            && forall p :: p in r.facts.resolvedAtStep ==>
                             p in t.facts.resolvedAtStep && t.facts.resolvedAtStep[p] == r.facts.resolvedAtStep[p]
  {
  }

  // ---------------------------------------------------------------- deliveries --

  /** A delivery carries a new id: its event is stored, with a job that waits, and noted. */
  lemma DeliverStores(x: Setup, turn: Turn, r: Run, n: nat, a: Action)
    requires Searchable(x) && a.step == DeliverEvent
    requires EventId(n, r.counter + 1) !in r.db.rawEvents && !HasJob(r.db.jobs, EventId(n, r.counter + 1))
    ensures var t, id := OneStep(x, turn, r, n, a), EventId(n, r.counter + 1);
            var entity := Entity(Some(PaymentId(a.paymentIndex % x.scenario.paymentCount)), "insufficient_funds", false);
            && t.db == r.db.(rawEvents := r.db.rawEvents[id := RawEvent("payment.failed", a.createdAt, entity)],
                             jobs := r.db.jobs + [Job(id, JobState.Pending, 0, None)],
                             audit := r.db.audit + [AuditEvent(None, Some(id), WebhookReceived)])
            && t.gateway == r.gateway && t.counter == r.counter + 1 && t.facts.delivered == r.facts.delivered + {id}
  {
    var d := DeliveryOf(EventId(n, r.counter + 1), PaymentId(x.Index(a)), a.createdAt);
    Reception.NotMalformed(d);
    Reception.TakenIn(x.cfg, r.db, d);
    assert r.db.audit + [] == r.db.audit;
  }

  /** A redelivery carries an id that was delivered before, and leaves one entry in the trail. */
  lemma RedeliverRepeats(x: Setup, turn: Turn, r: Run, n: nat, a: Action) returns (id: string)
    requires Searchable(x) && a.step == Redeliver && r.facts.delivered != {}
    requires r.facts.delivered <= r.db.rawEvents.Keys && "" !in r.facts.delivered
    ensures var t := OneStep(x, turn, r, n, a);
            && id in r.facts.delivered && t.facts.delivered == r.facts.delivered
            && t.db == r.db.(audit := r.db.audit + [AuditEvent(None, Some(id), WebhookDuplicateIgnored)])
            && t.gateway == r.gateway && t.counter == r.counter
  {
    id := x.pick(r.facts.delivered, x.Index(a));
    assert id in r.facts.delivered && id in r.db.rawEvents.Keys;
    var d := DeliveryOf(id, PaymentId(x.Index(a)), a.createdAt);
    Reception.NotMalformed(d);
    Reception.TakenIn(x.cfg, r.db, d);
    assert r.db.audit + [] == r.db.audit;
  }

  /** The ids delivered in a run are never empty, so RedeliverRepeats applies to every step of it. */
  lemma NoEmptyId(x: Setup, turns: nat -> Turn, n: nat)
    requires Searchable(x) && n <= |x.scenario.actions|
    ensures "" !in After(x, turns, n).facts.delivered
  {
    var inv := (r: Run, k: nat) => "" !in r.facts.delivered;
    forall r, k: nat | k < |x.scenario.actions| && inv(r, k)
      ensures inv(OneStep(x, turns(k), r, k, x.scenario.actions[k]), k + 1)
    {
      DeliveredGrows(x, turns(k), r, k, x.scenario.actions[k]);
    }
    EachStep(x, turns, n, inv);
  }

  lemma DeliveredGrows(x: Setup, turn: Turn, r: Run, n: nat, a: Action)
    requires x.scenario.paymentCount > 0
    ensures OneStep(x, turn, r, n, a).facts.delivered
            == r.facts.delivered + if a.step == DeliverEvent then {EventId(n, r.counter + 1)} else {}
  {
    if a.step.RunWorker? || a.step.ConcurrentWorkers? {
      var done := Perform(x, turn, r, n, a);
      AdmissionsOnlyAsk(x, done.shiftHours, done.expiresAt, done.facts, n, x.Index(a), done.db.cases);
    }
  }

  // --------------------------------------------------------------- two workers --

  function Second(turn: Turn): Turn {
    turn.(cutoff := turn.secondCutoff, stamps := turn.secondStamps, oracles := turn.secondOracles)
  }

  /** Racing connections do what one worker and then another do. */
  lemma ConcurrentIsTwice(x: Setup, turn: Turn, r: Run, n: nat, a: Action)
    requires x.scenario.paymentCount > 0 && a.step == ConcurrentWorkers
    ensures var both := OneStep(x, turn, r, n, a);
            var one := OneStep(x, turn, r, n, a.(step := RunWorker));
            var two := OneStep(x, Second(turn), one, n, a.(step := RunWorker));
            both.db == two.db && both.gateway == two.gateway
  {
    StepOfWorker(x, turn, r, n, a.(step := RunWorker));
    StepOfWorker(x, Second(turn), OneStep(x, turn, r, n, a.(step := RunWorker)), n, a.(step := RunWorker));
  }

  lemma StepOfWorker(x: Setup, turn: Turn, r: Run, n: nat, a: Action)
    requires x.scenario.paymentCount > 0 && a.step == RunWorker
    ensures var t := OneStep(x, turn, r, n, a);
            var after := ProcessPending(x.cfg, r.db, r.gateway, turn.cutoff, turn.stamps, turn.oracles);
            t.db == after.db && t.gateway == after.gateway
  {
  }

  // ---------------------------------------------------------------- admissions --

  /** What speaks against the execution that a case asks for. */
  ghost predicate Against(x: Setup, shiftHours: nat, expiresAt: Option<int>, f: Facts, payment: string, index: nat,
                          why: BlockReason)
  {
    var slot, asked, cal := CLOCK + 26 * HOUR + index * (8 * HOUR), CLOCK + shiftHours * HOUR, x.guard.calendar;
    match why
    case PaymentAlreadySucceeded => payment in f.resolvedAtStep
    case OrderInvalid => x.scenario.orderId == ""
    case OrderExpired => expiresAt.Some? && expiresAt.value <= slot
    case ExecutionCapExhausted =>
      var used := 1 + CountFor(f.admitted, payment);
      used >= cal.attemptCap || (x.guard.counter == DiscountCustomerAttempts && 1 >= cal.attemptCap)
    case ExecuteAtNotInTheFuture => slot <= asked
    case PeakHourBlocked => InPeak(cal, slot)
    case PdnLeadUnmet => !Notified(cal, None, slot, asked)
    case _ => false
  }

  lemma RequestSpeaks(x: Setup, shiftHours: nat, expiresAt: Option<int>, f: Facts, payment: string, index: nat,
                      why: BlockReason)
    ensures Broken(x.guard, AdmissionRequest(x.scenario.orderId, shiftHours, expiresAt, f, payment, index), why) <==>
            Against(x, shiftHours, expiresAt, f, payment, index, why)
  {
    var r := AdmissionRequest(x.scenario.orderId, shiftHours, expiresAt, f, payment, index);
    assert SlotOf(index) == CLOCK + 26 * HOUR + index * (8 * HOUR);
    match why
    case OrderExpired => assert IsMoment(r, SlotOf(index));
    case ExecutionCapExhausted => UsedIs(x.guard, r);
    case OrderInvalid => assert r.orderId == Some("") <==> x.scenario.orderId == "";
    case _ =>
  }

  /** A request is admitted, and noted with its step and slot, exactly when nothing speaks against it. */
  lemma AdmitOneIs(x: Setup, shiftHours: nat, expiresAt: Option<int>, f: Facts, step: nat, index: nat, payment: string)
    ensures var t := AdmitOne(x, shiftHours, expiresAt, f, step, index, payment);
            if forall why :: !Against(x, shiftHours, expiresAt, f, payment, index, why)
            then t == f.(admitted := f.admitted + [Admitted(step, payment, CLOCK + (26 + 8 * index) * HOUR)])
            else t == f.(blocks := t.blocks) && |t.blocks| == |f.blocks| + 1
  {
    FirstBrokenRule(x.guard, AdmissionRequest(x.scenario.orderId, shiftHours, expiresAt, f, payment, index));
    forall why
      ensures Broken(x.guard, AdmissionRequest(x.scenario.orderId, shiftHours, expiresAt, f, payment, index), why) <==>
              Against(x, shiftHours, expiresAt, f, payment, index, why)
    {
      RequestSpeaks(x, shiftHours, expiresAt, f, payment, index, why);
    }
  }

  /** Every case asks once. */
  lemma {:induction false} AdmissionsOnlyAsk(x: Setup, shiftHours: nat, expiresAt: Option<int>, f: Facts, step: nat,
                                             index: nat, cases: seq<Case>)
    ensures var t := AdmitCases(x, shiftHours, expiresAt, f, step, index, cases);
            && t == f.(admitted := t.admitted, blocks := t.blocks) && f.admitted <= t.admitted
            && |t.admitted| + |t.blocks| == |f.admitted| + |f.blocks| + |cases|
  {
    if cases != [] {
      AdmissionsOnlyAsk(x, shiftHours, expiresAt, f, step, index, cases[..|cases| - 1]);
    }
  }

  /** Where something speaks against every case, none is admitted. */
  lemma {:induction false} NoneAdmitted(x: Setup, shiftHours: nat, expiresAt: Option<int>, f: Facts, step: nat,
                                        index: nat, cases: seq<Case>, why: BlockReason)
    requires forall e: Facts, p :: Against(x, shiftHours, expiresAt, e, p, index, why)
    ensures AdmitCases(x, shiftHours, expiresAt, f, step, index, cases).admitted == f.admitted
  {
    if cases != [] {
      NoneAdmitted(x, shiftHours, expiresAt, f, step, index, cases[..|cases| - 1], why);
      var before := AdmitCases(x, shiftHours, expiresAt, f, step, index, cases[..|cases| - 1]);
      AdmitOneIs(x, shiftHours, expiresAt, before, step, index, cases[|cases| - 1].paymentId);
      assert Against(x, shiftHours, expiresAt, before, cases[|cases| - 1].paymentId, index, why);
    }
  }

  // -------------------------------------------------------------------- expiry --

  /** An expired order carries an expiry before the clock of every request. */
  ghost predicate Expired(r: Run) {
    r.expiresAt.Some? && r.expiresAt.value < CLOCK
  }

  lemma ExpireOrderExpires(x: Setup, turn: Turn, r: Run, n: nat, a: Action)
    requires x.scenario.paymentCount > 0 && a.step == ExpireOrder
    ensures var t := OneStep(x, turn, r, n, a);
            && Expired(t) && t.facts.orderExpired && t.facts.orderExpiredAtStep == Some(n)
            && t.db == r.db && t.gateway == r.gateway && t.shiftHours == r.shiftHours
  {
  }

  /** What an action leaves of the trace and of the two hazards, before anyone asks for admission. */
  lemma ActionKeepsTrace(x: Setup, turn: Turn, r: Run, n: nat, a: Action)
    requires x.scenario.paymentCount > 0
    ensures var done := Perform(x, turn, r, n, a);
            && done.facts.admitted == r.facts.admitted
            && done.expiresAt == (if a.step == ExpireOrder then Some(CLOCK - HOUR) else r.expiresAt)
            && done.shiftHours == r.shiftHours + if a.step == ShiftPdnWindow then 9 else 0
  {
  }

  lemma StepAsksOf(x: Setup, turn: Turn, r: Run, n: nat, a: Action)
    requires x.scenario.paymentCount > 0
    ensures var t, done := OneStep(x, turn, r, n, a), Perform(x, turn, r, n, a);
            && t.expiresAt == done.expiresAt && t.shiftHours == done.shiftHours
            && t.facts.admitted ==
               if a.step == RunWorker || a.step == ConcurrentWorkers
               then AdmitCases(x, done.shiftHours, done.expiresAt, done.facts, n, x.Index(a), done.db.cases).admitted
               else done.facts.admitted
  {
  }

  /** From then on it stays expired, and no step admits anything. */
  lemma ExpiredStepAdmitsNothing(x: Setup, turn: Turn, r: Run, n: nat, a: Action)
    requires x.scenario.paymentCount > 0 && Expired(r)
    ensures Expired(OneStep(x, turn, r, n, a)) && OneStep(x, turn, r, n, a).facts.admitted == r.facts.admitted
  {
    var done := Perform(x, turn, r, n, a);
    ActionKeepsTrace(x, turn, r, n, a);
    StepAsksOf(x, turn, r, n, a);
    ExpiryAdmitsNone(x, done.shiftHours, done.expiresAt, done.facts, n, x.Index(a), done.db.cases);
  }

  lemma ExpiryAdmitsNone(x: Setup, shiftHours: nat, expiresAt: Option<int>, f: Facts, step: nat, index: nat,
                         cases: seq<Case>)
    requires expiresAt.Some? && expiresAt.value < CLOCK
    ensures AdmitCases(x, shiftHours, expiresAt, f, step, index, cases).admitted == f.admitted
  {
    forall e: Facts, p
      ensures Against(x, shiftHours, expiresAt, e, p, index, OrderExpired)
    {
    }
    NoneAdmitted(x, shiftHours, expiresAt, f, step, index, cases, OrderExpired);
  }

  lemma AfterExpiryNothingIsAdmitted(x: Setup, turns: nat -> Turn, n: nat, m: nat)
    requires x.scenario.paymentCount > 0 && n < m <= |x.scenario.actions| && x.scenario.actions[n].step == ExpireOrder
    ensures Expired(After(x, turns, m)) && After(x, turns, m).facts.admitted == After(x, turns, n + 1).facts.admitted
  {
    var inv := (r: Run, k: nat) => NothingSince(x, turns, n, r, k);
    forall r, k: nat | k < |x.scenario.actions| && inv(r, k)
      ensures inv(OneStep(x, turns(k), r, k, x.scenario.actions[k]), k + 1)
    {
      NothingSinceKept(x, turns, n, r, k);
    }
    EachStep(x, turns, m, inv);
  }

  /** The run itself up to the expiry, and after it nothing admitted. */
  ghost predicate NothingSince(x: Setup, turns: nat -> Turn, n: nat, r: Run, k: nat)
    requires x.scenario.paymentCount > 0 && n < |x.scenario.actions|
  {
    && (k <= n + 1 ==> r == After(x, turns, k))
    && (k > n ==> Expired(r) && r.facts.admitted == After(x, turns, n + 1).facts.admitted)
  }

  lemma NothingSinceKept(x: Setup, turns: nat -> Turn, n: nat, r: Run, k: nat)
    requires x.scenario.paymentCount > 0 && n < |x.scenario.actions| && k < |x.scenario.actions|
    requires x.scenario.actions[n].step == ExpireOrder && NothingSince(x, turns, n, r, k)
    ensures NothingSince(x, turns, n, OneStep(x, turns(k), r, k, x.scenario.actions[k]), k + 1)
  {
    if k <= n {
      AfterNext(x, turns, k);
      if k == n {
        ExpiresAfter(x, turns, n);
      }
    } else {
      ExpiredStepAdmitsNothing(x, turns(k), r, k, x.scenario.actions[k]);
    }
  }

  lemma ExpiresAfter(x: Setup, turns: nat -> Turn, n: nat)
    requires x.scenario.paymentCount > 0 && n < |x.scenario.actions| && x.scenario.actions[n].step == ExpireOrder
    ensures Expired(After(x, turns, n + 1))
  {
    ActionKeepsTrace(x, turns(n), After(x, turns, n), n, x.scenario.actions[n]);
    StepAsksOf(x, turns(n), After(x, turns, n), n, x.scenario.actions[n]);
  }

  // --------------------------------------------------------------------- shift --

  function Shifts(actions: seq<Action>): nat {
    if actions == [] then 0
    else Shifts(actions[..|actions| - 1]) + if actions[|actions| - 1].step == ShiftPdnWindow then 1 else 0
  }

  lemma StepShifts(x: Setup, turn: Turn, r: Run, n: nat, a: Action)
    requires x.scenario.paymentCount > 0
    ensures OneStep(x, turn, r, n, a).shiftHours == r.shiftHours + if a.step == ShiftPdnWindow then 9 else 0
  {
    ActionKeepsTrace(x, turn, r, n, a);
    StepAsksOf(x, turn, r, n, a);
  }

  lemma ShiftsAppend(actions: seq<Action>, n: nat)
    requires n < |actions|
    ensures Shifts(actions[..n + 1]) == Shifts(actions[..n]) + if actions[n].step == ShiftPdnWindow then 1 else 0
  {
    assert actions[..n + 1][..n] == actions[..n];
  }

  /** Each shift moves the decision of later requests by nine hours. */
  lemma ShiftsAddUp(x: Setup, turns: nat -> Turn, n: nat)
    requires x.scenario.paymentCount > 0 && n <= |x.scenario.actions|
    ensures After(x, turns, n).shiftHours == 9 * Shifts(x.scenario.actions[..n])
  {
    var inv := (r: Run, k: nat) => k <= |x.scenario.actions| && r.shiftHours == 9 * Shifts(x.scenario.actions[..k]);
    assert x.scenario.actions[..0] == [] && inv(Begin(x.scenario), 0);
    forall r, k: nat | k < |x.scenario.actions| && inv(r, k)
      ensures inv(OneStep(x, turns(k), r, k, x.scenario.actions[k]), k + 1)
    {
      StepShifts(x, turns(k), r, k, x.scenario.actions[k]);
      ShiftsAppend(x.scenario.actions, k);
    }
    EachStep(x, turns, n, inv);
  }

  /** Decisions as late as the last slot that a request can name. */
  predicate TooLate(x: Setup, shiftHours: nat) {
    shiftHours >= 26 + 8 * (x.scenario.paymentCount - 1)
  }

  lemma LateStepAdmitsNothing(x: Setup, turn: Turn, r: Run, n: nat, a: Action)
    requires x.scenario.paymentCount > 0 && TooLate(x, r.shiftHours)
    ensures TooLate(x, OneStep(x, turn, r, n, a).shiftHours)
    ensures OneStep(x, turn, r, n, a).facts.admitted == r.facts.admitted
  {
    var done := Perform(x, turn, r, n, a);
    ActionKeepsTrace(x, turn, r, n, a);
    StepAsksOf(x, turn, r, n, a);
    LateAdmitsNone(x, done.shiftHours, done.expiresAt, done.facts, n, x.Index(a), done.db.cases);
  }

  lemma LateAdmitsNone(x: Setup, shiftHours: nat, expiresAt: Option<int>, f: Facts, step: nat, index: nat, cases: seq<Case>)
    requires TooLate(x, shiftHours) && index < x.scenario.paymentCount
    ensures AdmitCases(x, shiftHours, expiresAt, f, step, index, cases).admitted == f.admitted
  {
    forall e: Facts, p
      ensures Against(x, shiftHours, expiresAt, e, p, index, ExecuteAtNotInTheFuture)
    {
    }
    NoneAdmitted(x, shiftHours, expiresAt, f, step, index, cases, ExecuteAtNotInTheFuture);
  }

  /** After enough shifts no step admits anything. */
  lemma AfterShiftsNothingIsAdmitted(x: Setup, turns: nat -> Turn, n: nat, m: nat)
    requires x.scenario.paymentCount > 0 && n <= m <= |x.scenario.actions|
    requires TooLate(x, 9 * Shifts(x.scenario.actions[..n]))
    ensures After(x, turns, m).facts.admitted == After(x, turns, n).facts.admitted
  {
    var inv := (r: Run, k: nat) => NoneSince(x, turns, n, r, k);
    ShiftsAddUp(x, turns, n);
    forall r, k: nat | k < |x.scenario.actions| && inv(r, k)
      ensures inv(OneStep(x, turns(k), r, k, x.scenario.actions[k]), k + 1)
    {
      NoneSinceKept(x, turns, n, r, k);
    }
    EachStep(x, turns, m, inv);
  }

  /** The run itself up to step `n`, and after it nothing admitted. */
  ghost predicate NoneSince(x: Setup, turns: nat -> Turn, n: nat, r: Run, k: nat)
    requires x.scenario.paymentCount > 0 && n <= |x.scenario.actions|
  {
    && (k <= n ==> r == After(x, turns, k))
    && (k >= n ==> TooLate(x, r.shiftHours) && r.facts.admitted == After(x, turns, n).facts.admitted)
  }

  lemma NoneSinceKept(x: Setup, turns: nat -> Turn, n: nat, r: Run, k: nat)
    requires x.scenario.paymentCount > 0 && n <= |x.scenario.actions| && k < |x.scenario.actions|
    requires TooLate(x, After(x, turns, n).shiftHours) && NoneSince(x, turns, n, r, k)
    ensures NoneSince(x, turns, n, OneStep(x, turns(k), r, k, x.scenario.actions[k]), k + 1)
  {
    if k < n {
      AfterNext(x, turns, k);
    } else {
      LateStepAdmitsNothing(x, turns(k), r, k, x.scenario.actions[k]);
    }
  }

  // ------------------------------------------------------------ the check on expiry --

  /** Step zero reads as "never", so an order that expired then makes every admission count as later. */
  lemma ExpiryCheckIff(x: Setup, db: Db, f: Facts, step: nat)
    requires f.orderExpired && f.orderExpiredAtStep == Some(step)
    ensures Breaks(AdmittedAfterOrderExpiry, x.scenario.orderId, db, f, x.guard.calendar) <==>
            exists e :: e in f.admitted && (step == 0 || e.step > step)
  {
  }
}
