/** The books of a simulated run balance: every counter is a sum over the cases it counts. */
module Ledger {
  import opened Models
  import opened Metrics
  import opened Environments
  import opened Simulation
  import Guards

  type Measure = CaseRecord -> int

  function Sum(order: seq<string>, cases: map<string, CaseRecord>, f: Measure): int {
    if order == [] then 0 else
    var id := order[|order| - 1];
    Sum(order[..|order| - 1], cases, f) + if id in cases then f(cases[id]) else 0
  }

  // ---------------------------------------------------------------- what is counted --

  function Retries(c: CaseRecord): int {
    c.attemptsUsed - 1
  }

  function RetriesIn(k: FailureClass): Measure {
    (c: CaseRecord) => if c.failure.trueClass == k then Retries(c) else 0
  }

  function ContactsOf(c: CaseRecord): int {
    c.contactsUsed
  }

  function ContactsIn(k: FailureClass): Measure {
    (c: CaseRecord) => if c.failure.trueClass == k then ContactsOf(c) else 0
  }

  function IsRecovered(c: CaseRecord): int {
    if c.outcome == Recovered then 1 else 0
  }

  function IsHalted(c: CaseRecord): int {
    if c.outcome == Halted then 1 else 0
  }

  function IsRevoked(c: CaseRecord): int {
    if c.outcome == Revoked then 1 else 0
  }

  function AmountRecovered(c: CaseRecord): int {
    if c.outcome == Recovered then c.failure.amount else 0
  }

  function Amount(c: CaseRecord): int {
    c.failure.amount
  }

  function One(c: CaseRecord): int {
    1
  }

  // ------------------------------------------------------------------------- sums --

  lemma {:induction false} SumUpdate(order: seq<string>, cases: map<string, CaseRecord>, id: string, r: CaseRecord,
                                     f: Measure)
    requires Distinct(order) && id in cases
    ensures Sum(order, cases[id := r], f) == Sum(order, cases, f) + if id in order then f(r) - f(cases[id]) else 0
  {
    if order != [] {
      var front, last := order[..|order| - 1], order[|order| - 1];
      assert order == front + [last];
      SumUpdate(front, cases, id, r, f);
      assert last !in front;
    }
  }

  /** A measure that splits into three sums as the three. */
  lemma {:induction false} SumOfThree(order: seq<string>, cases: map<string, CaseRecord>,
                                      f: Measure, g: Measure, h: Measure, whole: Measure)
    requires forall id :: id in order && id in cases ==> whole(cases[id]) == f(cases[id]) + g(cases[id]) + h(cases[id])
    ensures Sum(order, cases, whole) == Sum(order, cases, f) + Sum(order, cases, g) + Sum(order, cases, h)
  {
    if order != [] {
      SumOfThree(order[..|order| - 1], cases, f, g, h, whole);
      assert order[|order| - 1] in order;
    }
  }

  /** A measure split by true class sums as its four parts. */
  lemma {:induction false} SumByClass(order: seq<string>, cases: map<string, CaseRecord>, whole: Measure,
                                      part: FailureClass -> Measure)
    requires forall c :: whole(c) == part(Infrastructure)(c) + part(Liquidity)(c) + part(Attention)(c) + part(Terminal)(c)
    ensures Sum(order, cases, whole) == Sum(order, cases, part(Infrastructure)) + Sum(order, cases, part(Liquidity))
                                        + Sum(order, cases, part(Attention)) + Sum(order, cases, part(Terminal))
  {
    if order != [] {
      SumByClass(order[..|order| - 1], cases, whole, part);
    }
  }

  lemma {:induction false} SumAgrees(order: seq<string>, a: map<string, CaseRecord>, b: map<string, CaseRecord>, f: Measure)
    requires forall id :: id in order ==> id in a && id in b && f(a[id]) == f(b[id])
    ensures Sum(order, a, f) == Sum(order, b, f)
  {
    if order != [] {
      assert order[|order| - 1] in order;
      SumAgrees(order[..|order| - 1], a, b, f);
    }
  }

  lemma {:induction false} SumBelow(order: seq<string>, cases: map<string, CaseRecord>, f: Measure, g: Measure)
    requires forall id :: id in cases ==> f(cases[id]) <= g(cases[id])
    ensures Sum(order, cases, f) <= Sum(order, cases, g)
  {
    if order != [] {
      SumBelow(order[..|order| - 1], cases, f, g);
    }
  }

  lemma {:induction false} SumOfOnes(order: seq<string>, cases: map<string, CaseRecord>)
    requires forall id :: id in order ==> id in cases
    ensures Sum(order, cases, One) == |order|
  {
    if order != [] {
      SumOfOnes(order[..|order| - 1], cases);
    }
  }

  // ------------------------------------------------------- the books during the run --

  ghost predicate ClassesTally(order: seq<string>, cases: map<string, CaseRecord>, b: Books) {
    forall k :: && Get(b.attemptsByClass, k) == Sum(order, cases, RetriesIn(k))
                && Get(b.contactsByClass, k) == Sum(order, cases, ContactsIn(k))
  }

  ghost predicate Tally(order: seq<string>, cases: map<string, CaseRecord>, b: Books) {
    && b.attemptsSpent == Sum(order, cases, Retries)
    && b.contactsSent == Sum(order, cases, ContactsOf)
    && b.casesRecovered == Sum(order, cases, IsRecovered)
    && b.moneyRecovered == Sum(order, cases, AmountRecovered)
    && b.terminalAttemptsWasted == Get(b.attemptsByClass, Terminal)
    && b.terminalContactsSent == Get(b.contactsByClass, Terminal)
    && ClassesTally(order, cases, b)
  }

  ghost predicate NotClosed(b: Books) {
    b.cases == 0 && b.moneyAtRisk == 0 && b.mandatesPreserved == 0 && b.mandatesHalted == 0 && b.mandatesRevoked == 0
  }

  function AsKeys(order: seq<string>): set<string> {
    set id | id in order
  }

  ghost predicate Runs(order: seq<string>, cases: map<string, CaseRecord>) {
    && cases.Keys == AsKeys(order)
    && forall id :: id in cases ==>
                      var o := cases[id].outcome;
                      o == StillOpen || o == Recovered || o == Revoked || o == Halted
  }

  /** What one submission adds to the books is what it adds to its case. */
  ghost predicate Moves(c: CaseRecord, b: Books, r: Played) {
    var c', b' := r.record, r.books;
    && c'.failure == c.failure
    && b'.attemptsSpent - b.attemptsSpent == Retries(c') - Retries(c)
    && b'.contactsSent - b.contactsSent == ContactsOf(c') - ContactsOf(c)
    && b'.casesRecovered - b.casesRecovered == IsRecovered(c') - IsRecovered(c)
    && b'.moneyRecovered - b.moneyRecovered == AmountRecovered(c') - AmountRecovered(c)
    && b'.terminalAttemptsWasted - b.terminalAttemptsWasted == RetriesIn(Terminal)(c') - RetriesIn(Terminal)(c)
    && b'.terminalContactsSent - b.terminalContactsSent == ContactsIn(Terminal)(c') - ContactsIn(Terminal)(c)
    && (forall k :: && Get(b'.attemptsByClass, k) - Get(b.attemptsByClass, k) == RetriesIn(k)(c') - RetriesIn(k)(c)
                    && Get(b'.contactsByClass, k) - Get(b.contactsByClass, k) == ContactsIn(k)(c') - ContactsIn(k)(c))
    && (NotClosed(b) ==> NotClosed(b'))
    && (c'.outcome == c.outcome || c'.outcome == Recovered || c'.outcome == Revoked)
  }

  lemma PlayMoves(w: World, g: Guards.Guard, draws: Draws, c: CaseRecord, b: Books, drawn: nat, p: Proposal, decidedAt: int)
    ensures Moves(c, b, Play(w, g, draws, c, b, drawn, p, decidedAt))
  {
    if c.outcome == StillOpen && g.Check(RequestFor(c, p, decidedAt)).None? {
      if p.kind.Execution? {
        AttemptMoves(w, draws, c, b, drawn, p.executeAt);
      } else {
        ContactMoves(w, draws, c, b, drawn, p.executeAt);
      }
    }
  }

  lemma AttemptMoves(w: World, draws: Draws, c: CaseRecord, b: Books, drawn: nat, at: int)
    requires c.outcome == StillOpen
    ensures Moves(c, b, PlayAttempt(w, draws, c, b, drawn, at))
  {
    var spent := Played(c.(attemptsUsed := c.attemptsUsed + 1), RecordAttempt(b, c.failure.trueClass), drawn + 1);
    SpendingMoves(c, b, spent);
    if draws(drawn) < w.recovery(c.failure.trueClass).Probability(DaysSince(c, at)) {
      RecoveryMoves(c, b, spent, Execution, at);
    } else {
      var failed := spent.record.(history := spent.record.history + [AttemptFailed(at)]);
      NoticeMoves(c, b, spent, Resolve(draws, Notify(w, draws, failed, spent.books, drawn + 1, at), at));
    }
  }

  lemma ContactMoves(w: World, draws: Draws, c: CaseRecord, b: Books, drawn: nat, at: int)
    requires c.outcome == StillOpen
    ensures Moves(c, b, PlayContact(w, draws, c, b, drawn, at))
  {
    var sent := Played(c.(lastContactAt := Some(at), contactsUsed := c.contactsUsed + 1),
                       RecordContact(b, c.failure.trueClass, w.contactCost(c.failure.trueClass)), drawn + 1);
    SpendingMoves(c, b, sent);
    if draws(drawn) < w.linkConversion(c.failure.trueClass) {
      RecoveryMoves(c, b, sent, Contact, at);
    } else {
      var ignored := sent.record.(history := sent.record.history + [ContactIgnored(at)]);
      NoticeMoves(c, b, sent, Notify(w, draws, ignored, sent.books, drawn + 1, at));
    }
  }

  /** What is spent is counted: one attempt or one contact. */
  lemma SpendingMoves(c: CaseRecord, b: Books, r: Played)
    requires r.record.failure == c.failure && r.record.outcome == c.outcome
    requires || (r.record.attemptsUsed == c.attemptsUsed + 1 && r.record.contactsUsed == c.contactsUsed
                 && r.books == RecordAttempt(b, c.failure.trueClass))
             || (exists cost :: r.record.attemptsUsed == c.attemptsUsed && r.record.contactsUsed == c.contactsUsed + 1
                                && r.books == RecordContact(b, c.failure.trueClass, cost))
    ensures Moves(c, b, r)
  {
  }

  lemma RecoveryMoves(c: CaseRecord, b: Books, p: Played, kind: ProposalKind, at: int)
    requires Moves(c, b, p) && c.outcome == p.record.outcome == StillOpen
    ensures Moves(c, b, Recover(p.record, p.books, p.drawn, kind, at))
  {
  }

  /** A notice leaves the books alone and can only revoke. */
  lemma NoticeMoves(c: CaseRecord, b: Books, p: Played, r: Played)
    requires Moves(c, b, p) && c.outcome == p.record.outcome == StillOpen && r.books == p.books
    requires r.record.failure == c.failure && (r.record.outcome == StillOpen || r.record.outcome == Revoked)
    requires r.record.attemptsUsed == p.record.attemptsUsed && r.record.contactsUsed == p.record.contactsUsed
    ensures Moves(c, b, r)
  {
  }

  lemma SubmitTallies(x: Arena, order: seq<string>, s: Sim, p: Proposal, now: int)
    requires Distinct(order) && Runs(order, s.cases) && Tally(order, s.cases, s.books)
    ensures var t := Submit(x.world, x.guard, x.draws, s, p, now);
            && Runs(order, t.cases) && Tally(order, t.cases, t.books)
            && (NotClosed(s.books) ==> NotClosed(t.books))
  {
    if p.caseId in s.cases {
      var c := s.cases[p.caseId];
      var r := Play(x.world, x.guard, x.draws, c, s.books, s.drawn, p, now);
      PlayMoves(x.world, x.guard, x.draws, c, s.books, s.drawn, p, now);
      MoveTallies(order, s.cases, s.books, p.caseId, r);
    }
  }

  lemma MoveTallies(order: seq<string>, cases: map<string, CaseRecord>, b: Books, id: string, r: Played)
    requires Distinct(order) && id in order && id in cases && Tally(order, cases, b)
    requires Moves(cases[id], b, r)
    ensures Tally(order, cases[id := r.record], r.books)
  {
    SumUpdate(order, cases, id, r.record, Retries);
    SumUpdate(order, cases, id, r.record, ContactsOf);
    SumUpdate(order, cases, id, r.record, IsRecovered);
    SumUpdate(order, cases, id, r.record, AmountRecovered);
    forall k
      ensures Get(r.books.attemptsByClass, k) == Sum(order, cases[id := r.record], RetriesIn(k))
      ensures Get(r.books.contactsByClass, k) == Sum(order, cases[id := r.record], ContactsIn(k))
    {
      SumUpdate(order, cases, id, r.record, RetriesIn(k));
      SumUpdate(order, cases, id, r.record, ContactsIn(k));
    }
  }

  ghost predicate Kept(order: seq<string>, s: Sim) {
    Distinct(order) && Runs(order, s.cases) && Tally(order, s.cases, s.books) && NotClosed(s.books)
  }

  lemma DaysTally(x: Arena, order: seq<string>, s: Sim, n: nat)
    requires Kept(order, s)
    ensures Kept(order, Days(x, order, s, n))
  {
    var inv := t => Kept(order, t);
    forall t, p, now | inv(t)
      ensures inv(Submit(x.world, x.guard, x.draws, t, p, now))
    {
      SubmitTallies(x, order, t, p, now);
    }
    DaysPreserve(x, inv, order, s, n);
  }

  lemma {:induction false} SumOfFresh(order: seq<string>, cases: map<string, CaseRecord>, f: Measure)
    requires forall id :: id in cases ==> f(cases[id]) == 0
    ensures Sum(order, cases, f) == 0
  {
    if order != [] {
      SumOfFresh(order[..|order| - 1], cases, f);
    }
  }

  lemma {:induction false} FreshCasesAreFresh(failures: seq<Failure>, id: string)
    requires id in FreshCases(failures)
    ensures var c := FreshCases(failures)[id];
            c == Fresh(c.failure)
  {
    if failures[|failures| - 1].caseId != id {
      FreshCasesAreFresh(failures[..|failures| - 1], id);
    }
  }

  lemma BeginTallies(failures: seq<Failure>)
    ensures Kept(CaseIds(failures), Begin(failures))
  {
    var order, cases := CaseIds(failures), FreshCases(failures);
    IdsAreCases(failures);
    forall id | id in cases
      ensures cases[id] == Fresh(cases[id].failure)
    {
      FreshCasesAreFresh(failures, id);
    }
    SumOfFresh(order, cases, Retries);
    SumOfFresh(order, cases, ContactsOf);
    SumOfFresh(order, cases, IsRecovered);
    SumOfFresh(order, cases, AmountRecovered);
    forall k
      ensures Sum(order, cases, RetriesIn(k)) == 0 && Sum(order, cases, ContactsIn(k)) == 0
    {
      SumOfFresh(order, cases, RetriesIn(k));
      SumOfFresh(order, cases, ContactsIn(k));
    }
  }

  // -------------------------------------------------------------- closing the books --

  /** The first `n` cases are closed, and the closing counters are sums over them. */
  ghost predicate ClosedUpTo(order: seq<string>, s: Sim, t: Sim, n: nat) {
    n <= |order| && CasesUpTo(order, s.cases, t.cases, n) && BooksUpTo(order, s, t, n)
  }

  ghost predicate CasesUpTo(order: seq<string>, a: map<string, CaseRecord>, b: map<string, CaseRecord>, n: nat)
    requires n <= |order|
  {
    && b.Keys == a.Keys
    && (forall i :: 0 <= i < n && order[i] in a ==> b[order[i]] == Close(a[order[i]]))
    && (forall i :: n <= i < |order| && order[i] in a ==> b[order[i]] == a[order[i]])
  }

  ghost predicate BooksUpTo(order: seq<string>, s: Sim, t: Sim, n: nat)
    requires n <= |order|
  {
    && t.books == s.books.(cases := t.books.cases, moneyAtRisk := t.books.moneyAtRisk,
                           mandatesRevoked := t.books.mandatesRevoked, mandatesHalted := t.books.mandatesHalted,
                           mandatesPreserved := t.books.mandatesPreserved)
    && t.books.cases == n
    && t.books.moneyAtRisk == Sum(order[..n], t.cases, Amount)
    && t.books.mandatesRevoked == Sum(order[..n], t.cases, IsRevoked)
    && t.books.mandatesHalted == Sum(order[..n], t.cases, IsHalted)
    && t.books.mandatesPreserved == n - Sum(order[..n], t.cases, IsRevoked)
  }

  lemma {:induction false} FinalisedIsClosed(order: seq<string>, s: Sim, n: nat)
    requires Distinct(order) && NotClosed(s.books) && n <= |order|
    requires forall id :: id in order ==> id in s.cases
    ensures ClosedUpTo(order, s, Finalised(order[..n], s), n)
  {
    if n > 0 {
      FinalisedIsClosed(order, s, n - 1);
      var t := Finalised(order[..n - 1], s);
      CloseOne(order, s, t, n);
      assert order[..n][..n - 1] == order[..n - 1];
      var c := t.cases[order[n - 1]];
      assert Finalised(order[..n], s) == t.(cases := t.cases[order[n - 1] := Close(c)], books := CloseBooks(t.books, c));
    }
  }

  lemma CloseOne(order: seq<string>, s: Sim, t: Sim, n: nat)
    requires Distinct(order) && 0 < n <= |order| && ClosedUpTo(order, s, t, n - 1)
    requires forall id :: id in order ==> id in s.cases
    ensures order[n - 1] in t.cases
    ensures var id, c := order[n - 1], t.cases[order[n - 1]];
            ClosedUpTo(order, s, t.(cases := t.cases[id := Close(c)], books := CloseBooks(t.books, c)), n)
  {
    var id := order[n - 1];
    assert id in order;
    var c := t.cases[id];
    CloseOneCase(order, s.cases, t.cases, n);
    CloseOneBook(order, s, t, t.(cases := t.cases[id := Close(c)], books := CloseBooks(t.books, c)), n);
  }

  lemma CloseOneCase(order: seq<string>, a: map<string, CaseRecord>, b: map<string, CaseRecord>, n: nat)
    requires Distinct(order) && 0 < n <= |order| && CasesUpTo(order, a, b, n - 1) && order[n - 1] in a
    ensures CasesUpTo(order, a, b[order[n - 1] := Close(b[order[n - 1]])], n)
  {
  }

  lemma CloseOneBook(order: seq<string>, s: Sim, t: Sim, u: Sim, n: nat)
    requires Distinct(order) && 0 < n <= |order| && BooksUpTo(order, s, t, n - 1) && order[n - 1] in t.cases
    requires u.cases == t.cases[order[n - 1] := Close(t.cases[order[n - 1]])]
    requires u.books == CloseBooks(t.books, t.cases[order[n - 1]])
    requires forall i :: 0 <= i < n ==> order[i] in t.cases
    ensures BooksUpTo(order, s, u, n)
  {
    var id, front := order[n - 1], order[..n - 1];
    assert order[..n][..n - 1] == front && id !in front;
    SumUpdate(front, t.cases, id, Close(t.cases[id]), Amount);
    SumUpdate(front, t.cases, id, Close(t.cases[id]), IsRevoked);
    SumUpdate(front, t.cases, id, Close(t.cases[id]), IsHalted);
  }

  /** `t` is `s` with every case closed. */
  ghost predicate AllClosed(order: seq<string>, s: Sim, t: Sim) {
    Kept(order, s) && ClosedUpTo(order, s, t, |order|) && ClosedCases(order, s.cases, t.cases)
  }

  lemma EndOfRun(x: Arena, failures: seq<Failure>) returns (before: Sim)
    ensures AllClosed(CaseIds(failures), before, Whole(x, failures))
  {
    var order := CaseIds(failures);
    before := Days(x, order, Begin(failures), x.world.horizonDays);
    BeginTallies(failures);
    DaysTally(x, order, Begin(failures), x.world.horizonDays);
    assert order[..|order|] == order;
    ClosesAll(order, before);
  }

  lemma ClosesAll(order: seq<string>, s: Sim)
    requires Kept(order, s)
    ensures AllClosed(order, s, Finalised(order, s))
  {
    forall id | id in order
      ensures id in s.cases
    {
      assert id in AsKeys(order);
    }
    FinalisedIsClosed(order, s, |order|);
    assert order[..|order|] == order;
    forall id | id in order
      ensures Finalised(order, s).cases[id] == Close(s.cases[id])
    {
      var i :| 0 <= i < |order| && order[i] == id;
    }
  }

  ghost predicate OutcomesAdd(order: seq<string>, cases: map<string, CaseRecord>, b: Books) {
    && b.cases == |order| == b.casesRecovered + b.mandatesHalted + b.mandatesRevoked
    && b.mandatesPreserved - b.mandatesHalted == b.casesRecovered == Sum(order, cases, IsRecovered)
    && b.moneyRecovered == Sum(order, cases, AmountRecovered)
    && b.moneyAtRisk == Sum(order, cases, Amount)
    && b.moneyRecovered <= b.moneyAtRisk
  }

  ghost predicate ClosedCases(order: seq<string>, a: map<string, CaseRecord>, b: map<string, CaseRecord>) {
    forall id :: id in order ==> id in a && id in b && b[id] == Close(a[id])
  }

  lemma SumOfClosed(order: seq<string>, a: map<string, CaseRecord>, b: map<string, CaseRecord>, f: Measure)
    requires ClosedCases(order, a, b) && forall c :: f(Close(c)) == f(c)
    ensures Sum(order, a, f) == Sum(order, b, f)
  {
    SumAgrees(order, a, b, f);
  }

  lemma EveryCaseCounts(order: seq<string>, a: map<string, CaseRecord>, b: map<string, CaseRecord>)
    requires ClosedCases(order, a, b) && Runs(order, a)
    ensures |order| == Sum(order, b, IsRecovered) + Sum(order, b, IsHalted) + Sum(order, b, IsRevoked)
  {
    SumOfOnes(order, b);
    SumOfThree(order, b, IsRecovered, IsHalted, IsRevoked, One);
  }

  lemma ClosedOutcomesAdd(order: seq<string>, s: Sim, t: Sim)
    requires AllClosed(order, s, t)
    ensures OutcomesAdd(order, t.cases, t.books)
  {
    var recovered, money := Sum(order, t.cases, IsRecovered), Sum(order, t.cases, AmountRecovered);
    assert s.books.casesRecovered == recovered by {
      SumOfClosed(order, s.cases, t.cases, IsRecovered);
    }
    assert s.books.moneyRecovered == money by {
      SumOfClosed(order, s.cases, t.cases, AmountRecovered);
    }
    assert money <= Sum(order, t.cases, Amount) by {
      SumBelow(order, t.cases, AmountRecovered, Amount);
    }
    assert |order| == recovered + Sum(order, t.cases, IsHalted) + Sum(order, t.cases, IsRevoked) by {
      EveryCaseCounts(order, s.cases, t.cases);
    }
    ClosingCounters(order, s, t);
  }

  lemma ClosingCounters(order: seq<string>, s: Sim, t: Sim)
    requires ClosedUpTo(order, s, t, |order|)
    ensures t.books.cases == |order| && t.books.moneyAtRisk == Sum(order, t.cases, Amount)
    ensures t.books.mandatesRevoked == Sum(order, t.cases, IsRevoked)
    ensures t.books.mandatesHalted == Sum(order, t.cases, IsHalted)
    ensures t.books.mandatesPreserved == |order| - Sum(order, t.cases, IsRevoked)
    ensures t.books.casesRecovered == s.books.casesRecovered && t.books.moneyRecovered == s.books.moneyRecovered
  {
    assert order[..|order|] == order;
  }

  /** The books balance: every case ends recovered, halted or revoked; preserved mandates are the
      halted and the recovered ones; the money recovered is that of the recovered cases. */
  lemma OutcomesBalance(x: Arena, failures: seq<Failure>)
    ensures OutcomesAdd(CaseIds(failures), Whole(x, failures).cases, Whole(x, failures).books)
  {
    var before := EndOfRun(x, failures);
    ClosedOutcomesAdd(CaseIds(failures), before, Whole(x, failures));
  }

  ghost predicate SpendAdds(order: seq<string>, cases: map<string, CaseRecord>, b: Books) {
    && b.attemptsSpent == Sum(order, cases, Retries)
    && b.contactsSent == Sum(order, cases, ContactsOf)
    && ClassesTally(order, cases, b)
    && b.attemptsSpent == Get(b.attemptsByClass, Infrastructure) + Get(b.attemptsByClass, Liquidity)
                          + Get(b.attemptsByClass, Attention) + Get(b.attemptsByClass, Terminal)
    && b.terminalAttemptsWasted == Get(b.attemptsByClass, Terminal)
    && b.terminalContactsSent == Get(b.contactsByClass, Terminal)
  }

  lemma ClosedSpendAdds(order: seq<string>, s: Sim, t: Sim)
    requires AllClosed(order, s, t)
    ensures SpendAdds(order, t.cases, t.books)
  {
    SumOfClosed(order, s.cases, t.cases, Retries);
    SumOfClosed(order, s.cases, t.cases, ContactsOf);
    assert ClassesTally(order, t.cases, s.books) by {
      ClosedClassesTally(order, s.cases, t.cases, s.books);
    }
    SumByClass(order, t.cases, Retries, RetriesIn);
  }

  lemma ClosedClassesTally(order: seq<string>, a: map<string, CaseRecord>, b: map<string, CaseRecord>, books: Books)
    requires ClosedCases(order, a, b) && ClassesTally(order, a, books)
    ensures ClassesTally(order, b, books)
  {
    forall k
      ensures Sum(order, a, RetriesIn(k)) == Sum(order, b, RetriesIn(k))
      ensures Sum(order, a, ContactsIn(k)) == Sum(order, b, ContactsIn(k))
    {
      SumOfClosed(order, a, b, RetriesIn(k));
      SumOfClosed(order, a, b, ContactsIn(k));
    }
  }

  /** Attempts and contacts spent are those the cases carry, in total and class by class. */
  lemma SpendBalances(x: Arena, failures: seq<Failure>)
    ensures SpendAdds(CaseIds(failures), Whole(x, failures).cases, Whole(x, failures).books)
  {
    var before := EndOfRun(x, failures);
    ClosedSpendAdds(CaseIds(failures), before, Whole(x, failures));
  }
}
