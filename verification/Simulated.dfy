/** What the simulated world makes of an admitted proposal, from its curves, rates and draws, and what the
    guard is asked about it. */
module Simulated {
  import opened Models
  import opened Calendar
  import opened Guards
  import opened Rules
  import opened Metrics
  import opened Environments
  import opened Simulation

  // -------------------------------------------------------------------- chances --

  predicate Between(low: real, x: real, high: real) {
    low <= x && x <= high
  }

  /** On the first day a retry succeeds with the base chance, on each later one with the daily growth more,
      never with more than the cap nor less than none; before the first day not at all. */
  lemma ProbabilityIs(curve: RecoveryCurve, days: int)
    ensures var line := curve.base + curve.perDay * (days - 1) as real;
            && (days < 1 ==> curve.Probability(days) == 0.0)
            && (days >= 1 && Between(0.0, line, curve.cap) ==> curve.Probability(days) == line)
            && (days >= 1 && line > curve.cap && curve.cap >= 0.0 ==> curve.Probability(days) == curve.cap)
            && (days >= 1 && (line < 0.0 || curve.cap < 0.0) ==> curve.Probability(days) == 0.0)
  {
  }

  /** A curve that grows never has less chance later. */
  lemma ProbabilityGrows(curve: RecoveryCurve, early: int, late: int)
    requires curve.perDay >= 0.0 && curve.base >= 0.0 && early <= late
    ensures curve.Probability(early) <= curve.Probability(late)
  {
    if early >= 1 {
      assert curve.perDay * (early - 1) as real <= curve.perDay * (late - 1) as real;
    } else if late >= 1 {
      assert curve.perDay * (late - 1) as real >= 0.0;
    }
  }

  /** A failed debit on emandate resolves after one day, and before two and a half. */
  lemma WaitIs(draw: real)
    requires 0.0 <= draw < 1.0
    ensures 24 * HOUR <= Wait(draw) < 60 * HOUR
    ensures var hours := 24.0 + 36.0 * draw;
            Between(Wait(draw) as real, hours * HOUR as real, Wait(draw) as real + 1.0)
  {
    var micros := (24.0 + 36.0 * draw) * 3600000000.0;
    assert micros < 60.0 * 3600000000.0;
  }

  /** Days since the failure, one at least. */
  lemma DaysSinceIs(c: CaseRecord, at: int)
    ensures DaysSince(c, at) >= 1
    ensures at >= c.failure.failedAt + DAY ==>
              c.failure.failedAt + DaysSince(c, at) * DAY <= at < c.failure.failedAt + (DaysSince(c, at) + 1) * DAY
    ensures at < c.failure.failedAt + DAY ==> DaysSince(c, at) == 1
  {
  }

  // ------------------------------------------------------------------- outcomes --

  /** What a proposal leaves alone. */
  predicate SameCase(c: CaseRecord, t: CaseRecord) {
    t.failure == c.failure && t.orderExpiresAt == c.orderExpiresAt
  }

  /** The customer heard of a failure once more, and revokes when the draw is below the hazard of that. */
  predicate Heard(w: World, draw: real, c: CaseRecord, t: CaseRecord) {
    && t.notifications == c.notifications + 1
    && t.outcome == if draw < w.hazard(c.failure.trueClass, c.notifications + 1, c.failure.rail) then Revoked else c.outcome
  }

  /** An admitted execution is counted; it recovers the case when the draw is below the curve of the true
      class, and otherwise the customer hears of it and the debit is open until it is resolved. */
  lemma AttemptGoes(w: World, draws: Draws, c: CaseRecord, b: Books, drawn: nat, at: int)
    ensures var r := PlayAttempt(w, draws, c, b, drawn, at);
            var t, days := r.record, DaysSince(c, at);
            && SameCase(c, t) && t.attemptsUsed == c.attemptsUsed + 1 && t.contactsUsed == c.contactsUsed
            && t.lastContactAt == c.lastContactAt && r.books.attemptsSpent == b.attemptsSpent + 1
            && if draws(drawn) < w.recovery(c.failure.trueClass).Probability(days) then
                 && t.outcome == Recovered && t.notifications == c.notifications && r.drawn == drawn + 1
                 && t.attemptPendingUntil == c.attemptPendingUntil
                 && r.books.moneyRecovered == b.moneyRecovered + c.failure.amount
                 && r.books.casesRecovered == b.casesRecovered + 1
               else
                 var until := if c.failure.rail == "emandate" then at + Wait(draws(drawn + 2)) else at;
                 && Heard(w, draws(drawn + 1), c, t)
                 && t.attemptPendingUntil == Some(until) && t.lastAttemptResolvedAt == Some(until)
                 && r.drawn == drawn + (if c.failure.rail == "emandate" then 3 else 2)
                 && r.books.moneyRecovered == b.moneyRecovered && r.books.casesRecovered == b.casesRecovered
  {
  }

  /** An admitted contact is counted with its cost; it recovers the case when the draw is below the rate of
      the true class, and otherwise the customer hears of it. */
  lemma ContactGoes(w: World, draws: Draws, c: CaseRecord, b: Books, drawn: nat, at: int)
    ensures var r := PlayContact(w, draws, c, b, drawn, at);
            var t := r.record;
            && SameCase(c, t) && t.attemptsUsed == c.attemptsUsed && t.contactsUsed == c.contactsUsed + 1
            && t.lastContactAt == Some(at) && t.attemptPendingUntil == c.attemptPendingUntil
            && r.books.contactsSent == b.contactsSent + 1
            && r.books.contactCost == b.contactCost + w.contactCost(c.failure.trueClass)
            && if draws(drawn) < w.linkConversion(c.failure.trueClass) then
                 && t.outcome == Recovered && t.notifications == c.notifications && r.drawn == drawn + 1
                 && r.books.moneyRecovered == b.moneyRecovered + c.failure.amount
                 && r.books.casesRecovered == b.casesRecovered + 1
               else
                 && Heard(w, draws(drawn + 1), c, t) && r.drawn == drawn + 2
                 && r.books.moneyRecovered == b.moneyRecovered && r.books.casesRecovered == b.casesRecovered
  {
  }

  /** A proposal for a case that is over is moot, one that the guard refuses is counted under the reason, and
      neither touches the case or takes a draw. */
  lemma UnplayedGoes(w: World, g: Guard, draws: Draws, s: Sim, p: Proposal, decidedAt: int)
    requires p.caseId in s.cases
    requires var c := s.cases[p.caseId]; c.outcome != StillOpen || g.Check(RequestFor(c, p, decidedAt)).Some?
    ensures var t, c := Submit(w, g, draws, s, p, decidedAt), s.cases[p.caseId];
            && t.cases == s.cases && t.drawn == s.drawn
            && t.books.attemptsSpent == s.books.attemptsSpent && t.books.contactsSent == s.books.contactsSent
            && t.books.moneyRecovered == s.books.moneyRecovered && t.books.contactCost == s.books.contactCost
            && if c.outcome != StillOpen then
                 && t.books.mootProposals == s.books.mootProposals + 1
                 && t.books.proposalsRejected == s.books.proposalsRejected
                 && t.books.rejectionReasons == s.books.rejectionReasons
               else
                 var why := g.Check(RequestFor(c, p, decidedAt)).value;
                 && t.books.mootProposals == s.books.mootProposals
                 && t.books.proposalsRejected == s.books.proposalsRejected + 1
                 && forall k :: Get(t.books.rejectionReasons, k) == Get(s.books.rejectionReasons, k) + if k == why then 1 else 0
  {
    assert s.cases[p.caseId := s.cases[p.caseId]] == s.cases;
  }

  /** Any other proposal is played, and touches no case but its own. */
  lemma PlayedGoes(w: World, g: Guard, draws: Draws, s: Sim, p: Proposal, decidedAt: int)
    requires p.caseId in s.cases
    requires var c := s.cases[p.caseId]; c.outcome == StillOpen && g.Check(RequestFor(c, p, decidedAt)).None?
    ensures var t, c := Submit(w, g, draws, s, p, decidedAt), s.cases[p.caseId];
            var played := if p.kind.Execution? then PlayAttempt(w, draws, c, s.books, s.drawn, p.executeAt)
                          else PlayContact(w, draws, c, s.books, s.drawn, p.executeAt);
            && t.books == played.books && t.drawn == played.drawn
            && t.cases.Keys == s.cases.Keys
            && forall id :: id in s.cases ==> t.cases[id] == if id == p.caseId then played.record else s.cases[id]
  {
  }

  // ------------------------------------------------------------------------ the day --

  /** `ids` are what stands in `order` at the increasing places `at`. */
  ghost predicate Picks(ids: seq<string>, order: seq<string>, at: seq<nat>) {
    && |at| == |ids|
    && (forall k :: 0 <= k < |at| ==> at[k] < |order| && order[at[k]] == ids[k])
    && forall j, k :: 0 <= j < k < |at| ==> at[j] < at[k]
  }

  lemma PicksOneMore(ids: seq<string>, order: seq<string>, at: seq<nat>, id: string)
    requires Picks(ids, order, at)
    ensures Picks(ids, order + [id], at) && Picks(ids + [id], order + [id], at + [|order|])
  {
  }

  lemma {:induction false} OpenIdsAre(order: seq<string>, cases: map<string, CaseRecord>, id: string)
    ensures id in OpenIds(order, cases) <==> id in order && id in cases && cases[id].outcome == StillOpen
  {
    if order != [] {
      var front, last := order[..|order| - 1], order[|order| - 1];
      OpenIdsAre(front, cases, id);
      assert order == front + [last];
    }
  }

  /** Every day the arm is asked about the cases still open, all of them and in order. */
  lemma {:induction false} OpenCasesAreAsked(order: seq<string>, cases: map<string, CaseRecord>) returns (at: seq<nat>)
    ensures forall id :: id in OpenIds(order, cases) <==> id in order && id in cases && cases[id].outcome == StillOpen
    ensures Picks(OpenIds(order, cases), order, at)
  {
    forall id
      ensures id in OpenIds(order, cases) <==> id in order && id in cases && cases[id].outcome == StillOpen
    {
      OpenIdsAre(order, cases, id);
    }
    if order == [] {
      at := [];
    } else {
      var front, last := order[..|order| - 1], order[|order| - 1];
      at := OpenCasesAreAsked(front, cases);
      assert order == front + [last];
      PicksOneMore(OpenIds(front, cases), front, at, last);
      if last in cases && cases[last].outcome == StillOpen {
        at := at + [|front|];
      }
    }
  }

  // ------------------------------------------------------------------- admission --

  /** What speaks against a proposal at the simulator's guard, from the case alone. */
  ghost predicate Against(g: Guard, c: CaseRecord, p: Proposal, decidedAt: int, why: BlockReason) {
    var executes, cal := p.kind.Execution?, g.calendar;
    match why
    case OrderInvalid => executes && c.failure.orderId == ""
    case OrderExpired => c.orderExpiresAt.Some? && c.orderExpiresAt.value <= p.executeAt
    case ExecutionCapExhausted =>
      executes && if g.counter == SystemInitiatedOnly then c.attemptsUsed >= cal.attemptCap
                  else c.attemptsUsed - c.contactsUsed >= cal.attemptCap || 1 >= cal.attemptCap
    case ContactBudgetExhausted => !executes && c.contactsUsed >= g.contactBudget
    case ExecuteAtNotInTheFuture => p.executeAt <= decidedAt
    case PriorAttemptUnresolved =>
      executes && c.attemptPendingUntil.Some? && p.executeAt < c.attemptPendingUntil.value
    case PeakHourBlocked => executes && InPeak(cal, p.executeAt)
    case PdnLeadUnmet => executes && !Notified(cal, None, p.executeAt, decidedAt)
    case ContactCooldownActive =>
      !executes && c.lastContactAt.Some? && p.executeAt < c.lastContactAt.value + g.contactCooldownHours * HOUR
    case _ => false
  }

  lemma RequestSpeaks(g: Guard, c: CaseRecord, p: Proposal, decidedAt: int, why: BlockReason)
    ensures Broken(g, RequestFor(c, p, decidedAt), why) <==> Against(g, c, p, decidedAt, why)
  {
    var r := RequestFor(c, p, decidedAt);
    assert IsMoment(r, p.executeAt);
    match why
    case ExecutionCapExhausted => UsedIs(g, r);
    case OrderInvalid => assert r.orderId == Some("") <==> c.failure.orderId == "";
    case _ =>
  }

  /** The guard of the simulator admits a proposal exactly when nothing speaks against it, and otherwise
      gives the first thing that does. */
  lemma SimulatorAdmits(g: Guard, c: CaseRecord, p: Proposal, decidedAt: int)
    ensures var verdict := g.Check(RequestFor(c, p, decidedAt));
            && (verdict.None? <==> forall why :: !Against(g, c, p, decidedAt, why))
            && (verdict.Some? ==> Against(g, c, p, decidedAt, verdict.value))
            && (verdict.Some? ==> forall why :: Against(g, c, p, decidedAt, why) ==> Place(verdict.value) <= Place(why))
  {
    FirstBrokenRule(g, RequestFor(c, p, decidedAt));
    forall why
      ensures Broken(g, RequestFor(c, p, decidedAt), why) <==> Against(g, c, p, decidedAt, why)
    {
      RequestSpeaks(g, c, p, decidedAt, why);
    }
  }
}
