/** How often an arm is asked: about every open case, on every day of the horizon, at the hour of the start. */
module Daily {
  import opened Models
  import opened Calendar
  import opened Guards
  import opened Metrics
  import opened Environments
  import opened Simulation

  /** On day `day`, at the hour of the start, the arm asks to contact whichever case it is shown. */
  ghost predicate AsksAt(x: Arena, day: nat) {
    forall view :: var proposals := x.arm(day, view, x.start + day * DAY);
                   |proposals| == 1 && proposals[0].caseId == view.caseId && proposals[0].kind == Contact
  }

  /** All cases are open and known by their names. */
  ghost predicate AllOpen(order: seq<string>, cases: map<string, CaseRecord>) {
    forall id :: id in order ==> id in cases && cases[id].outcome == StillOpen && cases[id].failure.caseId == id
  }

  /** Only refusals happened, `n` of them. */
  ghost predicate Refusals(s: Sim, t: Sim, n: int) {
    && t.cases == s.cases && t.drawn == s.drawn
    && t.books.proposalsRejected == s.books.proposalsRejected + n && t.books.mootProposals == s.books.mootProposals
  }

  lemma ContactIsRefused(x: Arena, s: Sim, p: Proposal, now: int)
    requires p.caseId in s.cases && s.cases[p.caseId].outcome == StillOpen && p.kind == Contact && x.guard.contactBudget <= 0
    ensures Refusals(s, Submit(x.world, x.guard, x.draws, s, p, now), 1)
  {
    assert s.cases[p.caseId := s.cases[p.caseId]] == s.cases;
    assert x.guard.Contact(RequestFor(s.cases[p.caseId], p, now)).Some?;
  }

  lemma VisitIsRefused(x: Arena, s: Sim, id: string, day: nat)
    requires AsksAt(x, day) && AllOpen([id], s.cases) && x.guard.contactBudget <= 0
    ensures Refusals(s, Visit(x, s, id, day), 1)
  {
    assert id in [id];
    var proposals := x.arm(day, View(s.cases[id], x.Now(day)), x.Now(day));
    assert proposals == [] + [proposals[0]] && proposals[..0] == [];
    ContactIsRefused(x, s, proposals[0], x.Now(day));
    assert SubmitAll(x, s, proposals[..0], x.Now(day)) == s;
  }

  lemma {:induction false} VisitsAreRefused(x: Arena, s: Sim, ids: seq<string>, day: nat)
    requires AsksAt(x, day) && AllOpen(ids, s.cases) && x.guard.contactBudget <= 0
    ensures Refusals(s, VisitAll(x, s, ids, day), |ids|)
  {
    if ids != [] {
      var front, last := ids[..|ids| - 1], ids[|ids| - 1];
      VisitsAreRefused(x, s, front, day);
      assert last in ids;
      VisitIsRefused(x, VisitAll(x, s, front, day), last, day);
    }
  }

  lemma {:induction false} AllAreAsked(order: seq<string>, cases: map<string, CaseRecord>)
    requires AllOpen(order, cases)
    ensures OpenIds(order, cases) == order
  {
    if order != [] {
      var front, last := order[..|order| - 1], order[|order| - 1];
      assert order == front + [last] && last in order;
      AllAreAsked(front, cases);
    }
  }

  lemma RefusalsAdd(s: Sim, t: Sim, u: Sim, days: int, each: int)
    requires Refusals(s, t, days * each) && Refusals(t, u, each)
    ensures Refusals(s, u, (days + 1) * each)
  {
  }

  lemma {:induction false} DaysAreRefused(x: Arena, order: seq<string>, s: Sim, n: nat)
    requires forall day: nat :: day < n ==> AsksAt(x, day)
    requires AllOpen(order, s.cases) && x.guard.contactBudget <= 0
    ensures Refusals(s, Days(x, order, s, n), n * |order|)
  {
    if n > 0 {
      var before := Days(x, order, s, n - 1);
      DaysAreRefused(x, order, s, n - 1);
      DayIsRefused(x, order, before, n - 1);
      RefusalsAdd(s, before, Day(x, order, before, n - 1), n - 1, |order|);
    }
  }

  lemma DayIsRefused(x: Arena, order: seq<string>, s: Sim, day: nat)
    requires AsksAt(x, day) && AllOpen(order, s.cases) && x.guard.contactBudget <= 0
    ensures Refusals(s, Day(x, order, s, day), |order|)
  {
    AllAreAsked(order, s.cases);
    VisitsAreRefused(x, s, order, day);
  }

  lemma {:induction false} FreshCasesAreOpen(failures: seq<Failure>, id: string)
    requires id in FreshCases(failures)
    ensures FreshCases(failures)[id].outcome == StillOpen && FreshCases(failures)[id].failure.caseId == id
  {
    if failures != [] {
      var front, last := failures[..|failures| - 1], failures[|failures| - 1];
      if id in FreshCases(front) {
        FreshCasesAreOpen(front, id);
      }
    }
  }

  /** An arm that always asks for a contact where none is allowed is refused once for every case and day of the
      horizon, and nothing else happens to any case. */
  lemma EveryCaseEveryDay(x: Arena, failures: seq<Failure>)
    requires forall day: nat :: day < x.world.horizonDays ==> AsksAt(x, day)
    requires x.guard.contactBudget <= 0
    ensures var order := CaseIds(failures);
            Refusals(Begin(failures), Days(x, order, Begin(failures), x.world.horizonDays), x.world.horizonDays * |order|)
    ensures Whole(x, failures).books.proposalsRejected == x.world.horizonDays * |CaseIds(failures)|
  {
    var order := CaseIds(failures);
    IdsAreCases(failures);
    forall id | id in order
      ensures id in FreshCases(failures) && FreshCases(failures)[id].outcome == StillOpen
      ensures FreshCases(failures)[id].failure.caseId == id
    {
      FreshCasesAreOpen(failures, id);
    }
    DaysAreRefused(x, order, Begin(failures), x.world.horizonDays);
    ClosingRefusesNone(order, Days(x, order, Begin(failures), x.world.horizonDays));
  }

  lemma {:induction false} ClosingRefusesNone(order: seq<string>, s: Sim)
    ensures Finalised(order, s).books.proposalsRejected == s.books.proposalsRejected
  {
    if order != [] {
      ClosingRefusesNone(order[..|order| - 1], s);
    }
  }
}
