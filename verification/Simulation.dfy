/** One arm over one batch (recovery/sim/run.py), against any arm and any draws: what every reachable
    state of the environment keeps, and how the books balance. */
module Simulation {
  import opened Models
  import opened Calendar
  import opened Guards
  import opened Metrics
  import opened Environments

  /** What an arm proposes for a case on a day. Each open case is asked once a day, so a function of
      the day stands for an arm with any memory. */
  type Arm = (nat, CaseView, int) -> seq<Proposal>

  datatype Arena = Arena(world: World, guard: Guard, draws: Draws, arm: Arm, start: int)
  {
    function Now(day: nat): int {
      start + day * DAY
    }

    ghost predicate DrawsAreUnit() {
      forall i: nat :: 0.0 <= draws(i) < 1.0
    }

    /** An arm that names a case outside the batch raises a KeyError. */
    ghost predicate NamesOnly(order: seq<string>) {
      forall day, view, now :: NamesIn(arm(day, view, now), order)
    }
  }

  predicate NamesIn(proposals: seq<Proposal>, order: seq<string>) {
    forall i :: 0 <= i < |proposals| ==> proposals[i].caseId in order
  }

  // ------------------------------------------------------------- the run as a fold --

  function SubmitAll(x: Arena, s: Sim, proposals: seq<Proposal>, now: int): Sim {
    if proposals == [] then s
    else Submit(x.world, x.guard, x.draws, SubmitAll(x, s, proposals[..|proposals| - 1], now),
                proposals[|proposals| - 1], now)
  }

  function Visit(x: Arena, s: Sim, id: string, day: nat): Sim {
    if id !in s.cases then s
    else SubmitAll(x, s, x.arm(day, View(s.cases[id], x.Now(day)), x.Now(day)), x.Now(day))
  }

  function VisitAll(x: Arena, s: Sim, ids: seq<string>, day: nat): Sim {
    if ids == [] then s else Visit(x, VisitAll(x, s, ids[..|ids| - 1], day), ids[|ids| - 1], day)
  }

  function OpenIds(order: seq<string>, cases: map<string, CaseRecord>): seq<string> {
    if order == [] then [] else
    var id := order[|order| - 1];
    OpenIds(order[..|order| - 1], cases) + if id in cases && cases[id].outcome == StillOpen then [id] else []
  }

  function Day(x: Arena, order: seq<string>, s: Sim, day: nat): Sim {
    VisitAll(x, s, OpenIds(order, s.cases), day)
  }

  function Days(x: Arena, order: seq<string>, s: Sim, n: nat): Sim {
    if n == 0 then s else Day(x, order, Days(x, order, s, n - 1), n - 1)
  }

  function Begin(failures: seq<Failure>): Sim {
    Sim(FreshCases(failures), BLANK, 0)
  }

  function Whole(x: Arena, failures: seq<Failure>): Sim {
    Finalised(CaseIds(failures), Days(x, CaseIds(failures), Begin(failures), x.world.horizonDays))
  }

  method SubmitEach(x: Arena, environment: Environment, metrics: ArmMetrics, proposals: seq<Proposal>, now: int)
    requires environment.world == x.world && environment.guard == x.guard && environment.draws == x.draws
    requires forall i :: 0 <= i < |proposals| ==> proposals[i].caseId in environment.cases
    modifies environment`cases, environment`drawn, metrics
    ensures environment.cases.Keys == old(environment.cases.Keys)
    ensures environment.Around(metrics.books) == SubmitAll(x, old(environment.Around(metrics.books)), proposals, now)
  {
    for i := 0 to |proposals|
      invariant environment.cases.Keys == old(environment.cases.Keys)
      invariant environment.Around(metrics.books)
                == SubmitAll(x, old(environment.Around(metrics.books)), proposals[..i], now)
    {
      assert proposals[..i + 1][..i] == proposals[..i];
      var _ := environment.SubmitProposal(proposals[i], now, metrics);
    }
    assert proposals[..|proposals|] == proposals;
  }

  method CollectOpen(environment: Environment) returns (ids: seq<string>)
    ensures ids == OpenIds(environment.order, environment.cases)
    ensures forall id :: id in ids ==> id in environment.cases
  {
    ids := [];
    for i := 0 to |environment.order|
      invariant ids == OpenIds(environment.order[..i], environment.cases)
      invariant forall id :: id in ids ==> id in environment.cases
    {
      assert environment.order[..i + 1][..i] == environment.order[..i];
      var id := environment.order[i];
      if id in environment.cases && environment.cases[id].outcome == StillOpen {
        ids := ids + [id];
      }
    }
    assert environment.order[..|environment.order|] == environment.order;
  }

  method RunDay(x: Arena, environment: Environment, metrics: ArmMetrics, day: nat)
    requires environment.world == x.world && environment.guard == x.guard && environment.draws == x.draws
    requires x.NamesOnly(environment.order) && forall id :: id in environment.order ==> id in environment.cases
    modifies environment`cases, environment`drawn, metrics
    ensures environment.cases.Keys == old(environment.cases.Keys)
    ensures environment.Around(metrics.books)
            == VisitAll(x, old(environment.Around(metrics.books)), OpenIds(environment.order, old(environment.cases)), day)
  {
    var ids := CollectOpen(environment);
    for k := 0 to |ids|
      invariant environment.cases.Keys == old(environment.cases.Keys)
      invariant environment.Around(metrics.books) == VisitAll(x, old(environment.Around(metrics.books)), ids[..k], day)
    {
      assert ids[..k + 1][..k] == ids[..k];
      var view := environment.ViewCase(ids[k], x.Now(day));
      var proposals := x.arm(day, view, x.Now(day));
      assert NamesIn(proposals, environment.order);
      SubmitEach(x, environment, metrics, proposals, x.Now(day));
    }
    assert ids[..|ids|] == ids;
  }

  method RunArm(x: Arena, failures: seq<Failure>) returns (metrics: ArmMetrics)
    requires x.NamesOnly(CaseIds(failures))
    ensures fresh(metrics) && metrics.books == Whole(x, failures).books
  {
    var environment := new Environment(x.world, x.guard, x.draws, failures);
    metrics := new ArmMetrics();
    IdsAreCases(failures);
    for day := 0 to x.world.horizonDays
      invariant fresh(environment) && fresh(metrics)
      invariant environment.cases.Keys == FreshCases(failures).Keys
      invariant environment.Around(metrics.books) == Days(x, environment.order, Begin(failures), day)
    {
      RunDay(x, environment, metrics, day);
    }
    environment.Finalise(metrics);
  }

  lemma {:induction false} IdsAreCases(failures: seq<Failure>)
    ensures forall id :: id in CaseIds(failures) <==> id in FreshCases(failures)
    ensures Distinct(CaseIds(failures))
  {
    if failures != [] {
      IdsAreCases(failures[..|failures| - 1]);
    }
  }

  ghost predicate Distinct(order: seq<string>) {
    forall i, j :: 0 <= i < j < |order| ==> order[i] != order[j]
  }

  // --------------------------------------------------------- what a case keeps --

  /** When the admitted executions of a case run, in order of admission. */
  function Executions(history: seq<Event>): seq<int> {
    if history == [] then [] else
    var before, e := Executions(history[..|history| - 1]), history[|history| - 1];
    if e.AttemptFailed? || (e.RecoveredVia? && e.kind.Execution?) then before + [e.at] else before
  }

  function Contacts(history: seq<Event>): seq<int> {
    if history == [] then [] else
    var before, e := Contacts(history[..|history| - 1]), history[|history| - 1];
    if e.ContactIgnored? || (e.RecoveredVia? && e.kind.Contact?) then before + [e.at] else before
  }

  /** Each moment at least `gap` after the one before. */
  predicate Spaced(times: seq<int>, gap: int) {
    forall i :: 0 < i < |times| ==> times[i - 1] + gap <= times[i]
  }

  /** Executions on emandate are a day apart; on the other rails only in order. */
  function Gap(c: CaseRecord): int {
    if c.failure.rail == "emandate" then 24 * HOUR else 0
  }

  ghost predicate Counted(g: Guard, c: CaseRecord) {
    && c.attemptsUsed == 1 + |Executions(c.history)|
    && c.contactsUsed == |Contacts(c.history)|
    && (c.attemptsUsed > 1 ==> g.counter.ExecutionsUsed(c.attemptsUsed, c.contactsUsed) <= g.calendar.attemptCap)
    && (c.contactsUsed > 0 ==> c.contactsUsed <= g.contactBudget)
  }

  ghost predicate ExecutionsSpaced(c: CaseRecord) {
    var times := Executions(c.history);
    && Spaced(times, Gap(c))
    && (c.outcome == StillOpen && times != [] ==>
          c.attemptPendingUntil.Some? && times[|times| - 1] + Gap(c) <= c.attemptPendingUntil.value)
  }

  ghost predicate ContactsSpaced(g: Guard, c: CaseRecord) {
    var times := Contacts(c.history);
    && Spaced(times, g.contactCooldownHours * HOUR)
    && (times != [] ==> c.lastContactAt == Some(times[|times| - 1]))
  }

  /** Nothing is recovered by an execution when its class's curve is capped at zero. */
  ghost predicate NoHopelessRecovery(w: World, c: CaseRecord) {
    forall at :: RecoveredVia(Execution, at) in c.history ==> w.recovery(c.failure.trueClass).cap > 0.0
  }

  ghost predicate CaseOk(w: World, g: Guard, c: CaseRecord) {
    && Counted(g, c) && ExecutionsSpaced(c) && ContactsSpaced(g, c) && NoHopelessRecovery(w, c)
    && (c.outcome == StillOpen || c.outcome == Recovered || c.outcome == Revoked || c.outcome == Halted)
  }

  lemma AppendEvent(history: seq<Event>, e: Event)
    ensures Executions(history + [e]) ==
            Executions(history) + if e.AttemptFailed? || (e.RecoveredVia? && e.kind.Execution?) then [e.at] else []
    ensures Contacts(history + [e]) ==
            Contacts(history) + if e.ContactIgnored? || (e.RecoveredVia? && e.kind.Contact?) then [e.at] else []
  {
    assert (history + [e])[..|history|] == history;
  }

  /** A notice changes no execution and no contact. */
  lemma NotifyKeeps(w: World, draws: Draws, c: CaseRecord, b: Books, drawn: nat, at: int)
    ensures var r := Notify(w, draws, c, b, drawn, at).record;
            && Executions(r.history) == Executions(c.history) && Contacts(r.history) == Contacts(c.history)
            && (forall t :: RecoveredVia(Execution, t) in r.history <==> RecoveredVia(Execution, t) in c.history)
  {
    AppendEvent(c.history, MandateRevoked(at));
  }

  lemma HopelessNeverSucceeds(curve: RecoveryCurve, days: int, draw: real)
    requires 0.0 <= draw < curve.Probability(days)
    ensures curve.cap > 0.0
  {
  }

  ghost predicate Settled(c: CaseRecord) {
    c.outcome == Recovered || c.outcome == Revoked
  }

  /** What an admitted execution does to a case, whatever the draws. */
  ghost predicate Attempted(w: World, c: CaseRecord, r: CaseRecord, at: int) {
    && r.failure == c.failure && r.attemptsUsed == c.attemptsUsed + 1 && r.contactsUsed == c.contactsUsed
    && r.lastContactAt == c.lastContactAt
    && Executions(r.history) == Executions(c.history) + [at] && Contacts(r.history) == Contacts(c.history)
    && (Settled(r) || r.outcome == c.outcome)
    && (r.outcome == StillOpen ==> r.attemptPendingUntil.Some? && at + Gap(c) <= r.attemptPendingUntil.value)
    && forall t :: RecoveredVia(Execution, t) in r.history ==>
                     RecoveredVia(Execution, t) in c.history || w.recovery(c.failure.trueClass).cap > 0.0
  }

  lemma AttemptShape(w: World, draws: Draws, c: CaseRecord, b: Books, drawn: nat, at: int)
    requires draws(drawn) >= 0.0 && draws(drawn + 2) >= 0.0
    ensures Attempted(w, c, PlayAttempt(w, draws, c, b, drawn, at).record, at)
  {
    var curve := w.recovery(c.failure.trueClass);
    if draws(drawn) < curve.Probability(DaysSince(c, at)) {
      HopelessNeverSucceeds(curve, DaysSince(c, at), draws(drawn));
      AppendEvent(c.history, RecoveredVia(Execution, at));
    } else {
      var failed := c.(attemptsUsed := c.attemptsUsed + 1, history := c.history + [AttemptFailed(at)]);
      AppendEvent(c.history, AttemptFailed(at));
      NotifyKeeps(w, draws, failed, RecordAttempt(b, c.failure.trueClass), drawn + 1, at);
      WaitIsADay(draws(drawn + 2));
    }
  }

  lemma AttemptKeeps(w: World, g: Guard, c: CaseRecord, r: CaseRecord, p: Proposal, decidedAt: int)
    requires CaseOk(w, g, c) && c.outcome == StillOpen && p.kind.Execution?
    requires g.Check(RequestFor(c, p, decidedAt)).None?
    requires Attempted(w, c, r, p.executeAt)
    ensures CaseOk(w, g, r)
  {
    AllowedIff(g, RequestFor(c, p, decidedAt));
    assert Counted(g, r);
    assert ExecutionsSpaced(r) by {
      var times := Executions(c.history);
      assert times != [] ==> times[|times| - 1] + Gap(c) <= p.executeAt;
    }
  }

  /** What an admitted contact does to a case, whatever the draws. */
  ghost predicate Contacted(c: CaseRecord, r: CaseRecord, at: int) {
    && r.failure == c.failure && r.attemptsUsed == c.attemptsUsed && r.contactsUsed == c.contactsUsed + 1
    && r.lastContactAt == Some(at) && r.attemptPendingUntil == c.attemptPendingUntil
    && Executions(r.history) == Executions(c.history) && Contacts(r.history) == Contacts(c.history) + [at]
    && (Settled(r) || r.outcome == c.outcome)
    && forall t :: RecoveredVia(Execution, t) in r.history ==> RecoveredVia(Execution, t) in c.history
  }

  lemma ContactShape(w: World, draws: Draws, c: CaseRecord, b: Books, drawn: nat, at: int)
    ensures Contacted(c, PlayContact(w, draws, c, b, drawn, at).record, at)
  {
    if draws(drawn) < w.linkConversion(c.failure.trueClass) {
      AppendEvent(c.history, RecoveredVia(Contact, at));
    } else {
      var sent := c.(lastContactAt := Some(at), contactsUsed := c.contactsUsed + 1);
      AppendEvent(c.history, ContactIgnored(at));
      NotifyKeeps(w, draws, sent.(history := c.history + [ContactIgnored(at)]),
                  RecordContact(b, c.failure.trueClass, w.contactCost(c.failure.trueClass)), drawn + 1, at);
    }
  }

  lemma ContactKeeps(w: World, g: Guard, c: CaseRecord, r: CaseRecord, p: Proposal, decidedAt: int)
    requires CaseOk(w, g, c) && c.outcome == StillOpen && p.kind.Contact?
    requires g.Check(RequestFor(c, p, decidedAt)).None?
    requires Contacted(c, r, p.executeAt)
    ensures CaseOk(w, g, r)
  {
    AllowedIff(g, RequestFor(c, p, decidedAt));
    assert Counted(g, r);
    assert ContactsSpaced(g, r);
  }

  lemma PlayKeeps(x: Arena, c: CaseRecord, b: Books, drawn: nat, p: Proposal, decidedAt: int)
    requires CaseOk(x.world, x.guard, c) && x.DrawsAreUnit()
    ensures CaseOk(x.world, x.guard, Play(x.world, x.guard, x.draws, c, b, drawn, p, decidedAt).record)
  {
    if c.outcome == StillOpen && x.guard.Check(RequestFor(c, p, decidedAt)).None? {
      var r := Play(x.world, x.guard, x.draws, c, b, drawn, p, decidedAt).record;
      if p.kind.Execution? {
        AttemptShape(x.world, x.draws, c, b, drawn, p.executeAt);
        AttemptKeeps(x.world, x.guard, c, r, p, decidedAt);
      } else {
        ContactShape(x.world, x.draws, c, b, drawn, p.executeAt);
        ContactKeeps(x.world, x.guard, c, r, p, decidedAt);
      }
    }
  }

  // --------------------------------------------------- what every submission keeps --

  ghost predicate AllCasesOk(x: Arena, s: Sim) {
    forall id :: id in s.cases ==> CaseOk(x.world, x.guard, s.cases[id])
  }

  lemma SubmitKeepsCases(x: Arena, s: Sim, p: Proposal, now: int)
    requires AllCasesOk(x, s) && x.DrawsAreUnit()
    ensures AllCasesOk(x, Submit(x.world, x.guard, x.draws, s, p, now))
  {
    if p.caseId in s.cases {
      PlayKeeps(x, s.cases[p.caseId], s.books, s.drawn, p, now);
    }
  }

  /** `inv` survives every submission. */
  ghost predicate Preserved(x: Arena, inv: Sim -> bool) {
    forall s, p, now :: inv(s) ==> inv(Submit(x.world, x.guard, x.draws, s, p, now))
  }

  lemma {:induction false} SubmitAllPreserves(x: Arena, inv: Sim -> bool, s: Sim, proposals: seq<Proposal>, now: int)
    requires Preserved(x, inv) && inv(s)
    ensures inv(SubmitAll(x, s, proposals, now))
  {
    if proposals != [] {
      SubmitAllPreserves(x, inv, s, proposals[..|proposals| - 1], now);
    }
  }

  lemma {:induction false} VisitAllPreserves(x: Arena, inv: Sim -> bool, s: Sim, ids: seq<string>, day: nat)
    requires Preserved(x, inv) && inv(s)
    ensures inv(VisitAll(x, s, ids, day))
  {
    if ids != [] {
      var before, id := VisitAll(x, s, ids[..|ids| - 1], day), ids[|ids| - 1];
      VisitAllPreserves(x, inv, s, ids[..|ids| - 1], day);
      if id in before.cases {
        SubmitAllPreserves(x, inv, before, x.arm(day, View(before.cases[id], x.Now(day)), x.Now(day)), x.Now(day));
      }
    }
  }

  /** What survives every submission holds on every day of every run. */
  lemma {:induction false} DaysPreserve(x: Arena, inv: Sim -> bool, order: seq<string>, s: Sim, n: nat)
    requires Preserved(x, inv) && inv(s)
    ensures inv(Days(x, order, s, n))
  {
    if n > 0 {
      var before := Days(x, order, s, n - 1);
      DaysPreserve(x, inv, order, s, n - 1);
      VisitAllPreserves(x, inv, before, OpenIds(order, before.cases), n - 1);
    }
  }

  /** What every day hands on to the next holds after any number of days. */
  lemma {:induction false} EachDay(x: Arena, inv: (Sim, nat) -> bool, order: seq<string>, s: Sim, n: nat)
    requires inv(s, 0)
    requires forall t, k: nat {:trigger Day(x, order, t, k)} :: inv(t, k) ==> inv(Day(x, order, t, k), k + 1)
    ensures inv(Days(x, order, s, n), n)
  {
    if n > 0 {
      EachDay(x, inv, order, s, n - 1);
    }
  }

  lemma DaysKeepCases(x: Arena, order: seq<string>, s: Sim, n: nat)
    requires AllCasesOk(x, s) && x.DrawsAreUnit()
    ensures AllCasesOk(x, Days(x, order, s, n))
  {
    var inv := t => AllCasesOk(x, t);
    forall t, p, now | inv(t)
      ensures inv(Submit(x.world, x.guard, x.draws, t, p, now))
    {
      SubmitKeepsCases(x, t, p, now);
    }
    DaysPreserve(x, inv, order, s, n);
  }

  lemma {:induction false} FreshCasesOk(x: Arena, failures: seq<Failure>)
    ensures AllCasesOk(x, Begin(failures))
  {
    if failures != [] {
      FreshCasesOk(x, failures[..|failures| - 1]);
    }
  }

  lemma {:induction false} SpacedPairs(times: seq<int>, gap: int, i: nat, j: nat)
    requires Spaced(times, gap) && gap >= 0 && i < j < |times|
    ensures times[i] + gap <= times[j]
  {
    if i < j - 1 {
      SpacedPairs(times, gap, i, j - 1);
    }
  }

  /** Budgets and spacing: after any number of days, whatever the arm proposes and whatever is drawn,
      every case is within its budgets, its executions run in order (a day apart on emandate), its
      contacts are a cooldown apart, and nothing hopeless was recovered by an execution. */
  lemma BudgetsAndSpacing(x: Arena, failures: seq<Failure>, n: nat, id: string, i: nat, j: nat)
    requires x.DrawsAreUnit() && x.guard.calendar.attemptCap > 0
    requires id in Days(x, CaseIds(failures), Begin(failures), n).cases
    ensures var c := Days(x, CaseIds(failures), Begin(failures), n).cases[id];
            && x.guard.counter.ExecutionsUsed(c.attemptsUsed, c.contactsUsed) <= x.guard.calendar.attemptCap
            && c.attemptsUsed == 1 + |Executions(c.history)|
            && (c.contactsUsed > 0 ==> c.contactsUsed == |Contacts(c.history)| <= x.guard.contactBudget)
            && (i < j < |Executions(c.history)| ==> Executions(c.history)[i] + Gap(c) <= Executions(c.history)[j])
            && (i < j < |Contacts(c.history)| && x.guard.contactCooldownHours >= 0 ==>
                  Contacts(c.history)[i] + x.guard.contactCooldownHours * HOUR <= Contacts(c.history)[j])
            && NoHopelessRecovery(x.world, c)
  {
    FreshCasesOk(x, failures);
    DaysKeepCases(x, CaseIds(failures), Begin(failures), n);
    var c := Days(x, CaseIds(failures), Begin(failures), n).cases[id];
    assert CaseOk(x.world, x.guard, c);
    if i < j < |Executions(c.history)| {
      SpacedPairs(Executions(c.history), Gap(c), i, j);
    }
    if i < j < |Contacts(c.history)| && x.guard.contactCooldownHours >= 0 {
      SpacedPairs(Contacts(c.history), x.guard.contactCooldownHours * HOUR, i, j);
    }
  }
}
