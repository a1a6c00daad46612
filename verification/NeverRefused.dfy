/** The allocator in the simulator is never refused and never late: over a whole run, for every batch,
    horizon and draws, the guard rejects none of its proposals and none is moot. */
module NeverRefused {
  import opened Models
  import opened Calendar
  import opened Guards
  import opened Scheduling
  import opened Metrics
  import opened Classifiers
  import opened Environments
  import opened Simulation
  import opened Allocator

  /** The arena of one arm: it proposes what it plans. */
  ghost predicate Plays(x: Arena, arm: ArmC) {
    forall day, view, now :: x.arm(day, view, now) == Decide(arm, view, now).proposals
  }

  /** How many contacts the allocator can send one case in so many days. */
  function MostContacts(arm: ArmC, days: nat): int {
    if ContactLimit(arm) < days then ContactLimit(arm) else days
  }

  /** The guard's budget covers the contacts that can come up, and its cooldown is at most a day if there
      can be two of them. */
  predicate TermsFit(arm: ArmC, g: Guard, days: nat) {
    var most := MostContacts(arm, days);
    (most >= 1 ==> most <= g.contactBudget) && (most >= 2 ==> g.contactCooldownHours <= 24)
  }

  /** The allocator plans by the calendar and the counter of the guard. */
  ghost predicate SameRules(g: Guard, arm: ArmC) {
    g.calendar == arm.calendar && g.counter == arm.counter && WellShaped(arm.calendar)
  }

  /** The configuration under which the claim holds. */
  ghost predicate Agrees(x: Arena, arm: ArmC) {
    SameRules(x.guard, arm) && TermsFit(arm, x.guard, x.world.horizonDays)
  }

  /** The environment's requests drop the rail, so the default lead must not exceed the rail's. */
  predicate Debitable(arm: ArmC, f: Failure) {
    && f.orderId != ""
    && 0 <= arm.calendar.PdnLeadFor(None) <= arm.calendar.PdnLeadFor(Some(f.rail))
  }

  // ---------------------------------------------------------------- one proposal --

  /** Nothing was sent to the case later than an hour past the decision time of the day before. */
  predicate Rested(x: Arena, c: CaseRecord, day: nat) {
    c.lastContactAt.Some? ==> c.lastContactAt.value <= x.Now(day) - DAY + HOUR
  }

  /** At most one contact a day so far, and the last one was counted. */
  predicate Paced(c: CaseRecord, day: nat) {
    c.contactsUsed <= day && (c.lastContactAt.Some? ==> c.contactsUsed > 0)
  }

  predicate Steady(x: Arena, c: CaseRecord, day: nat) {
    Rested(x, c, day) && Paced(c, day)
  }

  predicate Serviceable(arm: ArmC, id: string, c: CaseRecord) {
    c.failure.caseId == id && c.orderExpiresAt.None? && Debitable(arm, c.failure)
  }

  /** What a proposal of the allocator has to meet at the simulator's guard, beyond what the allocator
      sees to itself: the order, the lead of the rail the guard is not told, its budget and cooldown. */
  predicate Acceptable(x: Arena, arm: ArmC, c: CaseRecord, now: int, p: Proposal) {
    match p.kind
    case Execution => c.failure.orderId != "" && now <= arm.calendar.PdnDeadlineFor(p.executeAt, None)
    case Contact =>
      && c.contactsUsed < x.guard.contactBudget
      && (c.lastContactAt.Some? ==> c.lastContactAt.value + x.guard.contactCooldownHours * HOUR <= p.executeAt)
  }

  /** With one calendar and one counter, the guard admits what the allocator plans exactly then. */
  lemma PlanPassesIff(x: Arena, arm: ArmC, c: CaseRecord, now: int, p: Proposal)
    requires SameRules(x.guard, arm)
    requires arm.calendar.PdnLeadFor(Some(c.failure.rail)) >= 0 && c.orderExpiresAt.None?
    requires p in Decide(arm, View(c, now), now).proposals
    ensures x.guard.Check(RequestFor(c, p, now)).None? <==> Acceptable(x, arm, c, now, p)
  {
    var plan := Decide(arm, View(c, now), now);
    if p.kind.Execution? {
      PlannedExecution(arm, View(c, now), now, p);
      ExecutionPassesIff(x, arm, c, now, TargetDay(arm, now, plan.classification), p);
    } else {
      AllowedIff(x.guard, RequestFor(c, p, now));
    }
  }

  lemma PlannedExecution(arm: ArmC, view: CaseView, now: int, p: Proposal)
    requires p in Decide(arm, view, now).proposals && p.kind.Execution?
    ensures Used(arm, view) < arm.calendar.attemptCap && !view.attemptPending
    ensures var day := TargetDay(arm, now, Decide(arm, view, now).classification);
            Some(p.executeAt) == SlotFor(arm.calendar, now, day, Some(view.rail))
  {
  }

  lemma ExecutionPassesIff(x: Arena, arm: ArmC, c: CaseRecord, now: int, day: int, p: Proposal)
    requires SameRules(x.guard, arm)
    requires arm.calendar.PdnLeadFor(Some(c.failure.rail)) >= 0 && c.orderExpiresAt.None?
    requires arm.counter.ExecutionsUsed(c.attemptsUsed, c.contactsUsed) < arm.calendar.attemptCap
    requires c.attemptPendingUntil.None? || c.attemptPendingUntil.value <= now
    requires p.kind.Execution? && Some(p.executeAt) == SlotFor(arm.calendar, now, day, Some(c.failure.rail))
    ensures x.guard.Check(RequestFor(c, p, now)).None? <==> Acceptable(x, arm, c, now, p)
  {
    var rail := Some(c.failure.rail);
    CompliantSlotExists(arm.calendar, now, day, rail);
    LeadIsMet(arm.calendar, now, rail, Floor(arm.calendar, now, day, rail), p.executeAt);
    AllowedIff(x.guard, RequestFor(c, p, now));
  }

  lemma ExecutionIsAcceptable(x: Arena, arm: ArmC, c: CaseRecord, now: int, p: Proposal)
    requires Agrees(x, arm) && Debitable(arm, c.failure)
    requires p in Decide(arm, View(c, now), now).proposals && p.kind.Execution?
    ensures Acceptable(x, arm, c, now, p)
  {
    var rail, day := Some(c.failure.rail), TargetDay(arm, now, Decide(arm, View(c, now), now).classification);
    PlannedExecution(arm, View(c, now), now, p);
    CompliantSlotExists(arm.calendar, now, day, rail);
    LeadIsMet(arm.calendar, now, rail, Floor(arm.calendar, now, day, rail), p.executeAt);
    PdnAntitone(arm.calendar.PdnLeadFor(None), arm.calendar.PdnLeadFor(rail), arm.calendar.pdnCutoff, p.executeAt);
  }

  /** The failures that the allocator answers with a contact. */
  predicate AnsweredByContact(arm: ArmC, f: Failure) {
    var c := Classify(arm.table, arm.costs, f.observed);
    && !Lookup(c.failureClass, c.band).spendsExecution
    && !(arm.rails.EmandateHoldsTerminal? && f.rail == "emandate" && c.failureClass == Terminal)
  }

  ghost predicate AllPass(x: Arena, arm: ArmC, f: Failure, day: nat) {
    forall c: CaseRecord, p :: c.failure == f && c.outcome == StillOpen && c.orderExpiresAt.None? && Rested(x, c, day)
                               && p in Decide(arm, View(c, x.Now(day)), x.Now(day)).proposals ==>
                                 x.guard.Check(RequestFor(c, p, x.Now(day))).None?
  }

  lemma ContactIsPlanned(arm: ArmC, c: CaseRecord, now: int) returns (p: Proposal)
    requires AnsweredByContact(arm, c.failure) && c.outcome == StillOpen && c.contactsUsed < ContactLimit(arm)
    ensures p in Decide(arm, View(c, now), now).proposals && p.kind.Contact? && p.executeAt == now + HOUR
  {
    p := Decide(arm, View(c, now), now).proposals[0];
  }

  /** The terms on contacts are exact: on the rested cases of such a failure, every proposal passes if
      and only if the limit is within the guard's budget and the cooldown is at most a day. */
  lemma ContactTermsIff(x: Arena, arm: ArmC, f: Failure, day: nat)
    requires SameRules(x.guard, arm)
    requires arm.calendar.PdnLeadFor(Some(f.rail)) >= 0 && AnsweredByContact(arm, f) && 0 < ContactLimit(arm)
    ensures AllPass(x, arm, f, day) <==> ContactLimit(arm) <= x.guard.contactBudget && x.guard.contactCooldownHours <= 24
  {
    var now, budget := x.Now(day), x.guard.contactBudget;
    if budget < ContactLimit(arm) {
      var c := Fresh(f).(contactsUsed := if budget < 0 then 0 else budget);
      ContactIsRefused(x, arm, c, now);
    } else if x.guard.contactCooldownHours > 24 {
      ContactIsRefused(x, arm, Fresh(f).(lastContactAt := Some(now + HOUR - DAY)), now);
    } else {
      forall c: CaseRecord, p | c.failure == f && c.outcome == StillOpen && c.orderExpiresAt.None? && Rested(x, c, day)
                                && p in Decide(arm, View(c, now), now).proposals
        ensures x.guard.Check(RequestFor(c, p, now)).None?
      {
        PlanPassesIff(x, arm, c, now, p);
      }
    }
  }

  lemma ContactIsRefused(x: Arena, arm: ArmC, c: CaseRecord, now: int)
    requires SameRules(x.guard, arm)
    requires arm.calendar.PdnLeadFor(Some(c.failure.rail)) >= 0 && AnsweredByContact(arm, c.failure)
    requires c.outcome == StillOpen && c.orderExpiresAt.None? && c.contactsUsed < ContactLimit(arm)
    requires x.guard.contactBudget <= c.contactsUsed
             || (c.lastContactAt == Some(now + HOUR - DAY) && x.guard.contactCooldownHours > 24)
    ensures exists p :: p in Decide(arm, View(c, now), now).proposals && x.guard.Check(RequestFor(c, p, now)).Some?
  {
    var p := ContactIsPlanned(arm, c, now);
    PlanPassesIff(x, arm, c, now, p);
  }

  /** What the arm plans for an open, steady case is at most one proposal, for that case, and passes. */
  lemma PlanPasses(x: Arena, arm: ArmC, id: string, c: CaseRecord, day: nat)
    requires Agrees(x, arm) && Serviceable(arm, id, c) && c.outcome == StillOpen && Steady(x, c, day)
    requires day < x.world.horizonDays
    ensures var proposals := Decide(arm, View(c, x.Now(day)), x.Now(day)).proposals;
            && |proposals| <= 1
            && forall p :: p in proposals ==> p.caseId == id && x.guard.Check(RequestFor(c, p, x.Now(day))).None?
                                              && (p.kind.Contact? ==> p.executeAt == x.Now(day) + HOUR)
  {
    var now := x.Now(day);
    var plan := Decide(arm, View(c, now), now);
    if plan.proposals != [] {
      var p := plan.proposals[0];
      if p.kind.Execution? {
        ExecutionIsAcceptable(x, arm, c, now, p);
      }
      PlanPassesIff(x, arm, c, now, p);
    }
  }

  // --------------------------------------------------------------------- one visit --

  ghost predicate Unrefused(b: Books) {
    b.proposalsRejected == 0 && b.mootProposals == 0
  }

  lemma PlayedWell(w: World, g: Guard, draws: Draws, c: CaseRecord, b: Books, drawn: nat, p: Proposal, now: int)
    requires c.outcome == StillOpen && g.Check(RequestFor(c, p, now)).None?
    ensures var r := Play(w, g, draws, c, b, drawn, p, now);
            && r.books.proposalsRejected == b.proposalsRejected && r.books.mootProposals == b.mootProposals
            && r.record.failure == c.failure && r.record.orderExpiresAt == c.orderExpiresAt
            && r.record.lastContactAt == (if p.kind.Contact? then Some(p.executeAt) else c.lastContactAt)
            && r.record.contactsUsed == c.contactsUsed + if p.kind.Contact? then 1 else 0
  {
  }

  /** One visit changes one case, which stays serviceable and is steady again the next day. */
  ghost predicate Visited(x: Arena, arm: ArmC, s: Sim, t: Sim, id: string, day: nat) {
    && t.cases.Keys == s.cases.Keys && id in t.cases
    && (forall j :: j in s.cases && j != id ==> t.cases[j] == s.cases[j])
    && Serviceable(arm, id, t.cases[id]) && Steady(x, t.cases[id], day + 1)
    && t.books.proposalsRejected == s.books.proposalsRejected && t.books.mootProposals == s.books.mootProposals
  }

  lemma VisitGoesThrough(x: Arena, arm: ArmC, s: Sim, id: string, day: nat)
    requires Plays(x, arm) && Agrees(x, arm) && day < x.world.horizonDays && id in s.cases
    requires Serviceable(arm, id, s.cases[id]) && s.cases[id].outcome == StillOpen && Steady(x, s.cases[id], day)
    ensures Visited(x, arm, s, Visit(x, s, id, day), id, day)
  {
    var c, now := s.cases[id], x.Now(day);
    PlanPasses(x, arm, id, c, day);
    var proposals := Decide(arm, View(c, now), now).proposals;
    assert x.arm(day, View(c, now), now) == proposals;
    if proposals != [] {
      var p := proposals[0];
      assert proposals == [p] && p in proposals;
      assert SubmitAll(x, s, proposals[..0], now) == s;
      assert Visit(x, s, id, day) == Submit(x.world, x.guard, x.draws, s, p, now);
      PlayedWell(x.world, x.guard, x.draws, c, s.books, s.drawn, p, now);
    }
  }

  // ---------------------------------------------------------------------- one day --

  /** Before the visits of a day. */
  ghost predicate DayReady(x: Arena, arm: ArmC, s: Sim, day: nat) {
    && Unrefused(s.books)
    && forall id :: id in s.cases ==> Serviceable(arm, id, s.cases[id]) && Steady(x, s.cases[id], day)
  }

  /** After the visits to `ids`: they are steady again, the others are as they were. */
  ghost predicate DayDone(x: Arena, arm: ArmC, s: Sim, t: Sim, ids: seq<string>, day: nat) {
    && Unrefused(t.books) && t.cases.Keys == s.cases.Keys
    && (forall id :: id in t.cases && id !in ids ==> t.cases[id] == s.cases[id])
    && forall id :: id in t.cases && id in ids ==> Serviceable(arm, id, t.cases[id]) && Steady(x, t.cases[id], day + 1)
  }

  lemma {:induction false} DayGoesThrough(x: Arena, arm: ArmC, s: Sim, ids: seq<string>, day: nat)
    requires Plays(x, arm) && Agrees(x, arm) && day < x.world.horizonDays && DayReady(x, arm, s, day) && Distinct(ids)
    requires forall id :: id in ids ==> id in s.cases && s.cases[id].outcome == StillOpen
    ensures DayDone(x, arm, s, VisitAll(x, s, ids, day), ids, day)
  {
    if ids != [] {
      var front, id := ids[..|ids| - 1], ids[|ids| - 1];
      assert ids == front + [id];
      assert id !in front;
      DayGoesThrough(x, arm, s, front, day);
      NextVisit(x, arm, s, VisitAll(x, s, front, day), front, id, day);
    }
  }

  lemma NextVisit(x: Arena, arm: ArmC, s: Sim, t: Sim, front: seq<string>, id: string, day: nat)
    requires Plays(x, arm) && Agrees(x, arm) && day < x.world.horizonDays
    requires DayReady(x, arm, s, day) && DayDone(x, arm, s, t, front, day)
    requires id !in front && id in s.cases && s.cases[id].outcome == StillOpen
    ensures DayDone(x, arm, s, Visit(x, t, id, day), front + [id], day)
  {
    assert t.cases[id] == s.cases[id];
    VisitGoesThrough(x, arm, t, id, day);
  }

  lemma {:induction false} OpenIdsAreOpen(order: seq<string>, cases: map<string, CaseRecord>)
    requires Distinct(order)
    ensures forall id :: id in OpenIds(order, cases) ==> id in order && id in cases && cases[id].outcome == StillOpen
    ensures Distinct(OpenIds(order, cases))
  {
    if order != [] {
      OpenIdsAreOpen(order[..|order| - 1], cases);
    }
  }

  /** The day after is ready too: nobody was sent anything since. */
  lemma NextDayIsReady(x: Arena, arm: ArmC, s: Sim, t: Sim, ids: seq<string>, day: nat)
    requires DayReady(x, arm, s, day) && DayDone(x, arm, s, t, ids, day)
    ensures DayReady(x, arm, t, day + 1)
  {
    forall id | id in t.cases
      ensures Serviceable(arm, id, t.cases[id]) && Steady(x, t.cases[id], day + 1)
    {
      if id !in ids {
        assert t.cases[id] == s.cases[id];
      }
    }
  }

  lemma OneDay(x: Arena, arm: ArmC, order: seq<string>, s: Sim, day: nat)
    requires Plays(x, arm) && Agrees(x, arm) && day < x.world.horizonDays && DayReady(x, arm, s, day) && Distinct(order)
    ensures DayReady(x, arm, Day(x, order, s, day), day + 1)
  {
    var ids := OpenIds(order, s.cases);
    OpenIdsAreOpen(order, s.cases);
    DayGoesThrough(x, arm, s, ids, day);
    NextDayIsReady(x, arm, s, Day(x, order, s, day), ids, day);
  }

  lemma DaysGoThrough(x: Arena, arm: ArmC, order: seq<string>, s: Sim, n: nat)
    requires Plays(x, arm) && Agrees(x, arm) && DayReady(x, arm, s, 0) && Distinct(order) && n <= x.world.horizonDays
    ensures DayReady(x, arm, Days(x, order, s, n), n)
  {
    var inv := (t: Sim, k: nat) => k <= n ==> DayReady(x, arm, t, k);
    forall t, k: nat | inv(t, k)
      ensures inv(Day(x, order, t, k), k + 1)
    {
      if k < n {
        OneDay(x, arm, order, t, k);
      }
    }
    EachDay(x, inv, order, s, n);
  }

  lemma {:induction false} FreshIsReady(x: Arena, arm: ArmC, failures: seq<Failure>)
    requires forall f :: f in failures ==> Debitable(arm, f)
    ensures DayReady(x, arm, Begin(failures), 0)
  {
    if failures != [] {
      assert failures[|failures| - 1] in failures;
      FreshIsReady(x, arm, failures[..|failures| - 1]);
    }
  }

  lemma {:induction false} ClosingKeepsRejections(order: seq<string>, s: Sim)
    ensures Finalised(order, s).books.proposalsRejected == s.books.proposalsRejected
    ensures Finalised(order, s).books.mootProposals == s.books.mootProposals
  {
    if order != [] {
      ClosingKeepsRejections(order[..|order| - 1], s);
    }
  }

  /** The allocator is never refused, and never proposes for a case that is already closed. */
  lemma AllocatorIsNeverRefused(x: Arena, arm: ArmC, failures: seq<Failure>)
    requires Plays(x, arm) && Agrees(x, arm) && forall f :: f in failures ==> Debitable(arm, f)
    ensures Whole(x, failures).books.proposalsRejected == 0 && Whole(x, failures).books.mootProposals == 0
  {
    IdsAreCases(failures);
    FreshIsReady(x, arm, failures);
    DaysGoThrough(x, arm, CaseIds(failures), Begin(failures), x.world.horizonDays);
    ClosingKeepsRejections(CaseIds(failures), Days(x, CaseIds(failures), Begin(failures), x.world.horizonDays));
  }
}
