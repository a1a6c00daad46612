/** The terms on contacts under which the allocator is never refused over whole runs are exact: outside
    them, one world and one stream of draws make the guard refuse it. */
module RunTerms {
  import opened Models
  import opened Calendar
  import opened Guards
  import opened Scheduling
  import opened Metrics
  import opened Classifiers
  import opened Environments
  import opened Simulation
  import opened Allocator
  import opened NeverRefused
  import Ledger

  /** A world in which nothing is recovered and nobody revokes, so that every case stays open. */
  function Barren(days: nat): World {
    World(days, c => RecoveryCurve(0.0, 0.0, 0.0), c => 0.0, (c, n, rail) => 0.0, c => 0.0)
  }

  function Half(k: nat): real {
    0.5
  }

  function Trial(g: Guard, arm: ArmC, days: nat): Arena {
    Arena(Barren(days), g, Half, (day, view, now) => Decide(arm, view, now).proposals, 0)
  }

  ghost predicate Keyed(s: Sim) {
    forall j :: j in s.cases ==> s.cases[j].failure.caseId == j
  }

  /** After `k` days of contacts that went through. */
  predicate Counted(x: Arena, c: CaseRecord, f: Failure, k: nat) {
    && c.failure == f && c.outcome == StillOpen && c.orderExpiresAt.None? && c.contactsUsed == k
    && c.lastContactAt == (if k == 0 then None else Some(x.Now(k - 1) + HOUR))
    && (k >= 1 ==> k <= x.guard.contactBudget) && (k >= 2 ==> x.guard.contactCooldownHours <= 24)
  }

  /** Somebody was refused, or the case is counted. */
  ghost predicate Tracked(x: Arena, s: Sim, f: Failure, k: nat) {
    s.books.proposalsRejected > 0 || (f.caseId in s.cases && Counted(x, s.cases[f.caseId], f, k))
  }

  // ------------------------------------------------------------------- one visit --

  lemma PlansForItsCase(arm: ArmC, view: CaseView, now: int)
    ensures var proposals := Decide(arm, view, now).proposals;
            |proposals| <= 1 && forall p :: p in proposals ==> p.caseId == view.caseId
  {
  }

  lemma BarrenPlay(w: World, g: Guard, draws: Draws, c: CaseRecord, b: Books, drawn: nat, p: Proposal, now: int, days: nat)
    requires w == Barren(days) && draws == Half
    ensures var r := Play(w, g, draws, c, b, drawn, p, now);
            && r.record.failure == c.failure && r.record.orderExpiresAt == c.orderExpiresAt
            && r.record.outcome == c.outcome
            && r.books.proposalsRejected >= b.proposalsRejected
            && (c.outcome == StillOpen && g.Check(RequestFor(c, p, now)).Some? ==>
                  r.books.proposalsRejected > b.proposalsRejected)
            && (c.outcome == StillOpen && g.Check(RequestFor(c, p, now)).None? && p.kind.Contact? ==>
                  r.record.contactsUsed == c.contactsUsed + 1 && r.record.lastContactAt == Some(p.executeAt))
  {
  }

  /** A visit changes one case, and takes no rejection back. */
  ghost predicate Called(s: Sim, t: Sim, id: string) {
    && t.cases.Keys == s.cases.Keys && Keyed(t)
    && (forall j :: j in s.cases && j != id ==> t.cases[j] == s.cases[j])
    && t.books.proposalsRejected >= s.books.proposalsRejected
  }

  /** A visit submits the one proposal there is, if any. */
  lemma VisitSubmits(x: Arena, arm: ArmC, s: Sim, id: string, day: nat)
    requires x == Trial(x.guard, arm, x.world.horizonDays) && id in s.cases
    ensures var proposals := Decide(arm, View(s.cases[id], x.Now(day)), x.Now(day)).proposals;
            && |proposals| <= 1
            && Visit(x, s, id, day) == if proposals == [] then s
                                       else Submit(x.world, x.guard, x.draws, s, proposals[0], x.Now(day))
  {
    var now := x.Now(day);
    var proposals := Decide(arm, View(s.cases[id], now), now).proposals;
    PlansForItsCase(arm, View(s.cases[id], now), now);
    assert x.arm(day, View(s.cases[id], now), now) == proposals;
    if proposals != [] {
      assert SubmitAll(x, s, proposals[..0], now) == s;
    }
  }

  lemma VisitCalls(x: Arena, arm: ArmC, s: Sim, id: string, day: nat)
    requires x == Trial(x.guard, arm, x.world.horizonDays) && Keyed(s)
    ensures Called(s, Visit(x, s, id, day), id)
  {
    if id in s.cases {
      var now, c := x.Now(day), s.cases[id];
      var proposals := Decide(arm, View(c, now), now).proposals;
      VisitSubmits(x, arm, s, id, day);
      PlansForItsCase(arm, View(c, now), now);
      if proposals != [] {
        var p := proposals[0];
        assert p in proposals && p.caseId == id;
        BarrenPlay(x.world, x.guard, x.draws, c, s.books, s.drawn, p, now, x.world.horizonDays);
      }
    }
  }

  /** The contact of the day is refused, or it is one more within the terms. */
  lemma ContactCounts(x: Arena, arm: ArmC, c: CaseRecord, b: Books, drawn: nat, f: Failure, day: nat) returns (p: Proposal)
    requires x == Trial(x.guard, arm, x.world.horizonDays)
    requires SameRules(x.guard, arm) && arm.calendar.PdnLeadFor(Some(f.rail)) >= 0 && AnsweredByContact(arm, f)
    requires Counted(x, c, f, day) && day < ContactLimit(arm)
    ensures p in Decide(arm, View(c, x.Now(day)), x.Now(day)).proposals
    ensures var r := Play(x.world, x.guard, x.draws, c, b, drawn, p, x.Now(day));
            r.books.proposalsRejected > b.proposalsRejected || Counted(x, r.record, f, day + 1)
  {
    var now := x.Now(day);
    p := ContactIsPlanned(arm, c, now);
    PlanPassesIff(x, arm, c, now, p);
    BarrenPlay(x.world, x.guard, x.draws, c, b, drawn, p, now, x.world.horizonDays);
  }

  lemma VisitCounts(x: Arena, arm: ArmC, s: Sim, f: Failure, day: nat)
    requires x == Trial(x.guard, arm, x.world.horizonDays) && Keyed(s) && f.caseId in s.cases
    requires SameRules(x.guard, arm) && arm.calendar.PdnLeadFor(Some(f.rail)) >= 0 && AnsweredByContact(arm, f)
    requires Counted(x, s.cases[f.caseId], f, day) && day < ContactLimit(arm)
    ensures Tracked(x, Visit(x, s, f.caseId, day), f, day + 1)
  {
    var now, c := x.Now(day), s.cases[f.caseId];
    var p := ContactCounts(x, arm, c, s.books, s.drawn, f, day);
    var proposals := Decide(arm, View(c, now), now).proposals;
    assert proposals == [p] && p.caseId == f.caseId by {
      PlansForItsCase(arm, View(c, now), now);
    }
    assert Visit(x, s, f.caseId, day) == Submit(x.world, x.guard, x.draws, s, p, now) by {
      VisitSubmits(x, arm, s, f.caseId, day);
    }
    SubmitTracks(x, s, f, p, day);
  }

  lemma SubmitTracks(x: Arena, s: Sim, f: Failure, p: Proposal, day: nat)
    requires f.caseId in s.cases && p.caseId == f.caseId
    requires var r := Play(x.world, x.guard, x.draws, s.cases[f.caseId], s.books, s.drawn, p, x.Now(day));
             r.books.proposalsRejected > s.books.proposalsRejected || Counted(x, r.record, f, day + 1)
    ensures Tracked(x, Submit(x.world, x.guard, x.draws, s, p, x.Now(day)), f, day + 1)
  {
  }

  // -------------------------------------------------------------------- one day --

  /** Before its own visit the case is as the day before left it, afterwards it is one contact on. */
  ghost predicate Underway(x: Arena, t: Sim, f: Failure, ids: seq<string>, day: nat) {
    Keyed(t) && Tracked(x, t, f, if f.caseId in ids then day + 1 else day)
  }

  lemma {:induction false} VisitsCount(x: Arena, arm: ArmC, s: Sim, f: Failure, ids: seq<string>, day: nat)
    requires x == Trial(x.guard, arm, x.world.horizonDays) && Keyed(s) && Tracked(x, s, f, day) && Distinct(ids)
    requires SameRules(x.guard, arm) && arm.calendar.PdnLeadFor(Some(f.rail)) >= 0 && AnsweredByContact(arm, f)
    requires day < ContactLimit(arm)
    ensures Underway(x, VisitAll(x, s, ids, day), f, ids, day)
  {
    if ids != [] {
      var front, id := ids[..|ids| - 1], ids[|ids| - 1];
      assert ids == front + [id] && id !in front;
      var before := VisitAll(x, s, front, day);
      VisitsCount(x, arm, s, f, front, day);
      VisitCalls(x, arm, before, id, day);
      if id == f.caseId && before.books.proposalsRejected == 0 {
        VisitCounts(x, arm, before, f, day);
      }
    }
  }

  lemma {:induction false} OpenCaseIsVisited(order: seq<string>, cases: map<string, CaseRecord>, id: string)
    requires id in order && id in cases && cases[id].outcome == StillOpen
    ensures id in OpenIds(order, cases)
  {
    if order[|order| - 1] != id {
      assert id in order[..|order| - 1];
      OpenCaseIsVisited(order[..|order| - 1], cases, id);
    }
  }

  lemma DayCounts(x: Arena, arm: ArmC, order: seq<string>, s: Sim, f: Failure, day: nat)
    requires x == Trial(x.guard, arm, x.world.horizonDays) && Keyed(s) && Tracked(x, s, f, day)
    requires SameRules(x.guard, arm) && arm.calendar.PdnLeadFor(Some(f.rail)) >= 0 && AnsweredByContact(arm, f)
    requires day < ContactLimit(arm) && Distinct(order) && f.caseId in order
    ensures Keyed(Day(x, order, s, day)) && Tracked(x, Day(x, order, s, day), f, day + 1)
  {
    var ids := OpenIds(order, s.cases);
    OpenIdsAreOpen(order, s.cases);
    VisitsCount(x, arm, s, f, ids, day);
    if s.books.proposalsRejected == 0 {
      OpenCaseIsVisited(order, s.cases, f.caseId);
    } else {
      VisitsOnlyAdd(x, arm, s, ids, day);
    }
  }

  lemma {:induction false} VisitsOnlyAdd(x: Arena, arm: ArmC, s: Sim, ids: seq<string>, day: nat)
    requires x == Trial(x.guard, arm, x.world.horizonDays) && Keyed(s)
    ensures var t := VisitAll(x, s, ids, day);
            Keyed(t) && t.books.proposalsRejected >= s.books.proposalsRejected
  {
    if ids != [] {
      VisitsOnlyAdd(x, arm, s, ids[..|ids| - 1], day);
      VisitCalls(x, arm, VisitAll(x, s, ids[..|ids| - 1], day), ids[|ids| - 1], day);
    }
  }

  // ------------------------------------------------------------------- whole runs --

  /** Through the first `n` days the case is counted; then it has shown that the terms fit. */
  ghost predicate Shown(x: Arena, arm: ArmC, t: Sim, f: Failure, k: nat, n: nat) {
    && Keyed(t)
    && (k <= n ==> Tracked(x, t, f, k))
    && (k >= n ==> t.books.proposalsRejected > 0 || TermsFit(arm, x.guard, x.world.horizonDays))
  }

  lemma NextDayShows(x: Arena, arm: ArmC, order: seq<string>, t: Sim, f: Failure, k: nat, n: nat)
    requires x == Trial(x.guard, arm, x.world.horizonDays) && Shown(x, arm, t, f, k, n)
    requires SameRules(x.guard, arm) && arm.calendar.PdnLeadFor(Some(f.rail)) >= 0 && AnsweredByContact(arm, f)
    requires Distinct(order) && f.caseId in order
    requires n == if MostContacts(arm, x.world.horizonDays) > 0 then MostContacts(arm, x.world.horizonDays) else 0
    ensures Shown(x, arm, Day(x, order, t, k), f, k + 1, n)
  {
    VisitsOnlyAdd(x, arm, t, OpenIds(order, t.cases), k);
    if k < n {
      DayCounts(x, arm, order, t, f, k);
    }
  }

  lemma TrialShows(g: Guard, arm: ArmC, days: nat, failures: seq<Failure>, f: Failure)
    requires SameRules(g, arm) && arm.calendar.PdnLeadFor(Some(f.rail)) >= 0 && AnsweredByContact(arm, f)
    requires f.caseId in FreshCases(failures) && FreshCases(failures)[f.caseId].failure == f
    ensures Whole(Trial(g, arm, days), failures).books.proposalsRejected > 0 || TermsFit(arm, g, days)
  {
    var x, order := Trial(g, arm, days), CaseIds(failures);
    var n: nat := if MostContacts(arm, days) > 0 then MostContacts(arm, days) else 0;
    var inv := (t: Sim, k: nat) => Shown(x, arm, t, f, k, n);
    IdsAreCases(failures);
    forall j | j in FreshCases(failures)
      ensures var c := FreshCases(failures)[j];
              c.failure.caseId == j && c == Fresh(c.failure)
    {
      Ledger.FreshCasesAreFresh(failures, j);
      FreshCaseIsKeyed(failures, j);
    }
    forall t, k: nat | inv(t, k)
      ensures inv(Day(x, order, t, k), k + 1)
    {
      NextDayShows(x, arm, order, t, f, k, n);
    }
    EachDay(x, inv, order, Begin(failures), days);
    ClosingKeepsRejections(order, Days(x, order, Begin(failures), days));
  }

  lemma {:induction false} FreshCaseIsKeyed(failures: seq<Failure>, id: string)
    requires id in FreshCases(failures)
    ensures FreshCases(failures)[id].failure.caseId == id
  {
    if failures[|failures| - 1].caseId != id {
      FreshCaseIsKeyed(failures[..|failures| - 1], id);
    }
  }

  /** The terms are exact over whole runs: with one calendar and one counter and a batch that can be
      debited and holds a failure the allocator answers with contacts, it is refused in no world, under
      no draws and from no start, if and only if the budget covers the contacts that can come up and the
      cooldown is at most a day where there can be two. */
  lemma NeverRefusedIff(g: Guard, arm: ArmC, days: nat, failures: seq<Failure>, f: Failure)
    requires SameRules(g, arm) && AnsweredByContact(arm, f)
    requires forall e :: e in failures ==> Debitable(arm, e)
    requires f in failures && f.caseId in FreshCases(failures) && FreshCases(failures)[f.caseId].failure == f
    ensures (forall x: Arena :: x.guard == g && x.world.horizonDays == days && Plays(x, arm) ==>
                                  Whole(x, failures).books.proposalsRejected == 0)
            <==> TermsFit(arm, g, days)
  {
    if TermsFit(arm, g, days) {
      forall x: Arena | x.guard == g && x.world.horizonDays == days && Plays(x, arm)
        ensures Whole(x, failures).books.proposalsRejected == 0
      {
        AllocatorIsNeverRefused(x, arm, failures);
      }
    } else {
      TrialShows(g, arm, days, failures, f);
      assert Plays(Trial(g, arm, days), arm);
    }
  }
}
