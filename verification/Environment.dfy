/** The simulated environment (recovery/sim/environment.py): it holds the truth, asks the guard, and
    resolves outcomes by draws. Draws are an arbitrary stream of numbers in [0, 1). */
module Environments {
  import opened Models
  import opened Calendar
  import opened Guards
  import opened Metrics
  import opened Classifiers

  datatype CaseOutcome = StillOpen | Recovered | Halted | Paused | Revoked | Expired

  /** What an arm asks for. The environment reads the case, the kind and the time only. */
  datatype Proposal = Proposal(
    caseId: string,
    kind: ProposalKind,
    executeAt: int,
    action: Option<DecisionAction>,
    channel: Option<string>,
    shaping: Option<DecisionAction>,
    note: Option<(FailureClass, ConfidenceBand)>)

  /** One failed mandate debit; the true class never reaches an arm. */
  datatype Failure = Failure(
    caseId: string,
    orderId: string,
    rail: string,
    amount: nat,
    failedAt: int,
    trueClass: FailureClass,
    observed: Key)

  datatype CaseView = CaseView(
    caseId: string,
    rail: string,
    amount: nat,
    failedAt: int,
    observed: Key,
    attemptsUsed: nat,
    contactsUsed: nat,
    outcome: CaseOutcome,
    attemptPending: bool,
    lastAttemptResolvedAt: Option<int>)

  datatype Event =
    | AttemptFailed(at: int)
    | RecoveredVia(kind: ProposalKind, at: int)
    | ContactIgnored(at: int)
    | MandateRevoked(at: int)
    | WasHalted

  datatype CaseRecord = CaseRecord(
    failure: Failure,
    attemptsUsed: nat,
    contactsUsed: nat,
    notifications: nat,
    outcome: CaseOutcome,
    attemptPendingUntil: Option<int>,
    lastAttemptResolvedAt: Option<int>,
    lastContactAt: Option<int>,
    orderExpiresAt: Option<int>,
    history: seq<Event>)

  /** The original execution already happened and failed. */
  function Fresh(f: Failure): CaseRecord {
    CaseRecord(f, 1, 0, 0, StillOpen, None, None, None, None, [])
  }

  datatype RecoveryCurve = RecoveryCurve(base: real, perDay: real, cap: real)
  {
    function Probability(days: int): real {
      if days < 1 then 0.0 else
      var raw := base + perDay * (days - 1) as real;
      var capped := if cap < raw then cap else raw;
      if capped > 0.0 then capped else 0.0
    }
  }

  datatype World = World(
    horizonDays: nat,
    recovery: FailureClass -> RecoveryCurve,
    linkConversion: FailureClass -> real,
    hazard: (FailureClass, nat, string) -> real,
    contactCost: FailureClass -> real)

  type Draws = nat -> real

  /** `uniform(24, 60)` hours. */
  function Wait(draw: real): int {
    ((24.0 + 36.0 * draw) * 3600000000.0).Floor
  }

  lemma WaitIsADay(draw: real)
    requires draw >= 0.0
    ensures Wait(draw) >= 24 * HOUR
  {
  }

  // --------------------------------------------------- one proposal as functions --

  function View(c: CaseRecord, now: int): CaseView {
    CaseView(c.failure.caseId, c.failure.rail, c.failure.amount, c.failure.failedAt, c.failure.observed,
             c.attemptsUsed, c.contactsUsed, c.outcome,
             c.attemptPendingUntil.Some? && now < c.attemptPendingUntil.value, c.lastAttemptResolvedAt)
  }

  /** A case without what the environment keeps to itself. */
  function Public(c: CaseRecord): CaseRecord {
    c.(failure := c.failure.(orderId := "", trueClass := Infrastructure),
       notifications := 0, lastContactAt := None, orderExpiresAt := None, history := [])
  }

  /** What an arm can tell apart: two cases show the same view at every moment exactly when they
      differ at most in the true class, the order and its expiry, the notices, the last contact and the
      history. */
  lemma ViewsTellIff(a: CaseRecord, b: CaseRecord)
    ensures (forall now :: View(a, now) == View(b, now)) <==> Public(a) == Public(b)
  {
    if Public(a) == Public(b) {
      forall now
        ensures View(a, now) == View(b, now)
      {
        assert View(a, now) == View(Public(a), now) && View(b, now) == View(Public(b), now);
      }
    } else {
      var t := if a.attemptPendingUntil.Some? then a.attemptPendingUntil.value
               else if b.attemptPendingUntil.Some? then b.attemptPendingUntil.value else 0;
      assert View(a, t) != View(b, t) || View(a, t - 1) != View(b, t - 1);
    }
  }

  /** The rail is not passed on. */
  function RequestFor(c: CaseRecord, p: Proposal, decidedAt: int): Request {
    Request(p.kind, decidedAt, Some(p.executeAt), c.attemptsUsed, c.contactsUsed, c.lastContactAt, c.attemptPendingUntil,
            PaymentStatus.Failed, Some(c.failure.orderId), c.orderExpiresAt, false, None, None, None)
  }

  /** A case, the books and the number of draws taken. */
  datatype Played = Played(record: CaseRecord, books: Books, drawn: nat)

  function DaysSince(c: CaseRecord, at: int): int {
    var days := (at - c.failure.failedAt) / DAY;
    if days > 1 then days else 1
  }

  function Recover(c: CaseRecord, b: Books, drawn: nat, kind: ProposalKind, at: int): Played {
    Played(c.(outcome := Recovered, history := c.history + [RecoveredVia(kind, at)]),
           RecordRecovery(b, c.failure.amount), drawn)
  }

  function Notify(w: World, draws: Draws, c: CaseRecord, b: Books, drawn: nat, at: int): Played {
    var told := c.(notifications := c.notifications + 1);
    var hazard := w.hazard(c.failure.trueClass, told.notifications, c.failure.rail);
    var revoked := told.(outcome := Revoked, history := told.history + [MandateRevoked(at)]);
    Played(if draws(drawn) < hazard then revoked else told, b, drawn + 1)
  }

  function Resolve(draws: Draws, p: Played, at: int): Played {
    var emandate := p.record.failure.rail == "emandate";
    var until := if emandate then at + Wait(draws(p.drawn)) else at;
    Played(p.record.(attemptPendingUntil := Some(until), lastAttemptResolvedAt := Some(until)), p.books,
           p.drawn + if emandate then 1 else 0)
  }

  /** An admitted execution. */
  function PlayAttempt(w: World, draws: Draws, c: CaseRecord, b: Books, drawn: nat, at: int): Played {
    var spent := c.(attemptsUsed := c.attemptsUsed + 1);
    var counted := RecordAttempt(b, c.failure.trueClass);
    if draws(drawn) < w.recovery(c.failure.trueClass).Probability(DaysSince(c, at)) then
      Recover(spent, counted, drawn + 1, Execution, at)
    else
      Resolve(draws, Notify(w, draws, spent.(history := spent.history + [AttemptFailed(at)]), counted, drawn + 1, at), at)
  }

  /** An admitted contact. */
  function PlayContact(w: World, draws: Draws, c: CaseRecord, b: Books, drawn: nat, at: int): Played {
    var sent := c.(lastContactAt := Some(at), contactsUsed := c.contactsUsed + 1);
    var counted := RecordContact(b, c.failure.trueClass, w.contactCost(c.failure.trueClass));
    if draws(drawn) < w.linkConversion(c.failure.trueClass) then
      Recover(sent, counted, drawn + 1, Contact, at)
    else
      Notify(w, draws, sent.(history := sent.history + [ContactIgnored(at)]), counted, drawn + 1, at)
  }

  function Play(w: World, g: Guard, draws: Draws, c: CaseRecord, b: Books, drawn: nat, p: Proposal, decidedAt: int): Played
  {
    if c.outcome != StillOpen then Played(c, RecordMoot(b), drawn) else
    var verdict := g.Check(RequestFor(c, p, decidedAt));
    if verdict.Some? then Played(c, RecordRejection(b, verdict.value), drawn)
    else if p.kind.Execution? then PlayAttempt(w, draws, c, b, drawn, p.executeAt)
    else PlayContact(w, draws, c, b, drawn, p.executeAt)
  }

  // ------------------------------------------------------------- the whole batch --

  datatype Sim = Sim(cases: map<string, CaseRecord>, books: Books, drawn: nat)

  function Submit(w: World, g: Guard, draws: Draws, s: Sim, p: Proposal, decidedAt: int): Sim {
    if p.caseId !in s.cases then s else
    var r := Play(w, g, draws, s.cases[p.caseId], s.books, s.drawn, p, decidedAt);
    Sim(s.cases[p.caseId := r.record], r.books, r.drawn)
  }

  function Close(c: CaseRecord): CaseRecord {
    if c.outcome == StillOpen then c.(outcome := Halted) else c
  }

  function CloseBooks(b: Books, c: CaseRecord): Books {
    var counted := b.(cases := b.cases + 1, moneyAtRisk := b.moneyAtRisk + c.failure.amount);
    match Close(c).outcome
    case Revoked => counted.(mandatesRevoked := counted.mandatesRevoked + 1)
    case Halted =>
      counted.(mandatesHalted := counted.mandatesHalted + 1, mandatesPreserved := counted.mandatesPreserved + 1)
    case _ => counted.(mandatesPreserved := counted.mandatesPreserved + 1)
  }

  /** The books closed over the cases of `order`, one after the other. */
  function Finalised(order: seq<string>, s: Sim): Sim {
    if order == [] then s else
    var before := Finalised(order[..|order| - 1], s);
    var id := order[|order| - 1];
    if id !in before.cases then before
    else before.(cases := before.cases[id := Close(before.cases[id])], books := CloseBooks(before.books, before.cases[id]))
  }

  function ExhaustBudget(c: CaseRecord): CaseRecord {
    if c.outcome == StillOpen then c.(outcome := Halted, history := c.history + [WasHalted]) else c
  }

  // ------------------------------------------------------------------- the class --

  class Environment {
    const world: World
    const guard: Guard
    const draws: Draws
    const order: seq<string>
    var cases: map<string, CaseRecord>
    var drawn: nat

    constructor (world: World, guard: Guard, draws: Draws, failures: seq<Failure>)
      ensures this.world == world && this.guard == guard && this.draws == draws
      ensures order == CaseIds(failures) && cases == FreshCases(failures) && drawn == 0
    {
      this.world, this.guard, this.draws := world, guard, draws;
      order, cases, drawn := CaseIds(failures), FreshCases(failures), 0;
    }

    function Around(books: Books): Sim
      reads this
    {
      Sim(cases, books, drawn)
    }

    method ViewCase(caseId: string, now: int) returns (view: CaseView)
      requires caseId in cases
      ensures view == View(cases[caseId], now)
    {
      var c := cases[caseId];
      var pending := c.attemptPendingUntil.Some? && now < c.attemptPendingUntil.value;
      view := CaseView(c.failure.caseId, c.failure.rail, c.failure.amount, c.failure.failedAt, c.failure.observed,
                       c.attemptsUsed, c.contactsUsed, c.outcome, pending, c.lastAttemptResolvedAt);
    }

    /** An unknown case is a KeyError in the source. */
    method SubmitProposal(p: Proposal, decidedAt: int, metrics: ArmMetrics) returns (through: bool)
      requires p.caseId in cases
      modifies this`cases, this`drawn, metrics
      ensures Around(metrics.books) == Submit(world, guard, draws, old(Around(metrics.books)), p, decidedAt)
      ensures through <==> old(cases[p.caseId].outcome) == StillOpen
                           && guard.Check(RequestFor(old(cases[p.caseId]), p, decidedAt)).None?
    {
      ghost var c := cases[p.caseId];
      if cases[p.caseId].outcome != StillOpen {
        metrics.Moot();
        assert cases[p.caseId := c] == cases;
        return false;
      }
      var verdict := guard.Check(RequestFor(cases[p.caseId], p, decidedAt));
      if verdict.Some? {
        metrics.Rejection(verdict.value);
        assert cases[p.caseId := c] == cases;
        return false;
      }
      if p.kind.Execution? {
        SubmitAttempt(p.caseId, p.executeAt, metrics);
      } else {
        SubmitContact(p.caseId, p.executeAt, metrics);
      }
      return true;
    }

    method NextDraw() returns (draw: real)
      modifies this`drawn
      ensures draw == draws(old(drawn)) && drawn == old(drawn) + 1
    {
      draw := draws(drawn);
      drawn := drawn + 1;
    }

    method SubmitAttempt(id: string, at: int, metrics: ArmMetrics)
      requires id in cases
      modifies this`cases, this`drawn, metrics
      ensures var r := PlayAttempt(world, draws, old(cases[id]), old(metrics.books), old(drawn), at);
              cases == old(cases)[id := r.record] && metrics.books == r.books && drawn == r.drawn
    {
      cases := cases[id := cases[id].(attemptsUsed := cases[id].attemptsUsed + 1)];
      metrics.Attempt(cases[id].failure.trueClass);
      var curve := world.recovery(cases[id].failure.trueClass);
      var draw := NextDraw();
      if draw < curve.Probability(DaysSince(cases[id], at)) {
        RecoverCase(id, Execution, at, metrics);
        return;
      }
      cases := cases[id := cases[id].(history := cases[id].history + [AttemptFailed(at)])];
      NotifyCase(id, at, metrics);
      ResolveCase(id, at, metrics);
    }

    /** When the outcome of a failed attempt is known: at once, except on emandate. */
    method ResolveCase(id: string, at: int, metrics: ArmMetrics)
      requires id in cases
      modifies this`cases, this`drawn
      ensures var r := Resolve(draws, Played(old(cases[id]), metrics.books, old(drawn)), at);
              cases == old(cases)[id := r.record] && drawn == r.drawn
    {
      var until := at;
      if cases[id].failure.rail == "emandate" {
        var draw := NextDraw();
        until := at + Wait(draw);
      }
      cases := cases[id := cases[id].(attemptPendingUntil := Some(until), lastAttemptResolvedAt := Some(until))];
    }

    method SubmitContact(id: string, at: int, metrics: ArmMetrics)
      requires id in cases
      modifies this`cases, this`drawn, metrics
      ensures var r := PlayContact(world, draws, old(cases[id]), old(metrics.books), old(drawn), at);
              cases == old(cases)[id := r.record] && metrics.books == r.books && drawn == r.drawn
    {
      cases := cases[id := cases[id].(lastContactAt := Some(at), contactsUsed := cases[id].contactsUsed + 1)];
      var trueClass := cases[id].failure.trueClass;
      metrics.Contact(trueClass, world.contactCost(trueClass));
      var draw := NextDraw();
      if draw < world.linkConversion(trueClass) {
        RecoverCase(id, Contact, at, metrics);
        return;
      }
      cases := cases[id := cases[id].(history := cases[id].history + [ContactIgnored(at)])];
      NotifyCase(id, at, metrics);
    }

    method RecoverCase(id: string, kind: ProposalKind, at: int, metrics: ArmMetrics)
      requires id in cases
      modifies this`cases, metrics
      ensures var r := Recover(old(cases[id]), old(metrics.books), drawn, kind, at);
              cases == old(cases)[id := r.record] && metrics.books == r.books
    {
      cases := cases[id := cases[id].(outcome := Recovered, history := cases[id].history + [RecoveredVia(kind, at)])];
      metrics.Recovery(cases[id].failure.amount);
    }

    method NotifyCase(id: string, at: int, metrics: ArmMetrics)
      requires id in cases
      modifies this`cases, this`drawn
      ensures var r := Notify(world, draws, old(cases[id]), metrics.books, old(drawn), at);
              cases == old(cases)[id := r.record] && drawn == r.drawn
    {
      cases := cases[id := cases[id].(notifications := cases[id].notifications + 1)];
      var c := cases[id];
      var draw := NextDraw();
      if draw < world.hazard(c.failure.trueClass, c.notifications, c.failure.rail) {
        cases := cases[id := c.(outcome := Revoked, history := c.history + [MandateRevoked(at)])];
      }
    }

    method Finalise(metrics: ArmMetrics)
      requires forall id :: id in order ==> id in cases
      modifies this`cases, metrics
      ensures Around(metrics.books) == Finalised(order, old(Around(metrics.books)))
    {
      for i := 0 to |order|
        invariant forall id :: id in order ==> id in cases
        invariant drawn == old(drawn)
        invariant Around(metrics.books) == Finalised(order[..i], old(Around(metrics.books)))
      {
        assert order[..i + 1][..i] == order[..i];
        var id := order[i];
        var c := cases[id];
        metrics.books := metrics.books.(cases := metrics.books.cases + 1,
                                        moneyAtRisk := metrics.books.moneyAtRisk + c.failure.amount);
        if c.outcome == StillOpen {
          cases := cases[id := c.(outcome := Halted)];
        } else {
          assert cases[id := c] == cases;
        }
        if cases[id].outcome == Revoked {
          metrics.books := metrics.books.(mandatesRevoked := metrics.books.mandatesRevoked + 1);
        } else if cases[id].outcome == Halted {
          metrics.books := metrics.books.(mandatesHalted := metrics.books.mandatesHalted + 1,
                                          mandatesPreserved := metrics.books.mandatesPreserved + 1);
        } else {
          metrics.books := metrics.books.(mandatesPreserved := metrics.books.mandatesPreserved + 1);
        }
      }
      assert order[..|order|] == order;
    }

    /** An arm-initiated stop. */
    method Exhaust(id: string)
      requires id in cases
      modifies this`cases
      ensures cases == old(cases)[id := ExhaustBudget(old(cases[id]))]
    {
      if cases[id].outcome == StillOpen {
        cases := cases[id := cases[id].(outcome := Halted, history := cases[id].history + [WasHalted])];
      } else {
        assert cases[id := cases[id]] == cases;
      }
    }
  }

  /** The keys of the case dictionary, in insertion order. */
  function CaseIds(failures: seq<Failure>): seq<string> {
    if failures == [] then [] else
    var before, id := CaseIds(failures[..|failures| - 1]), failures[|failures| - 1].caseId;
    if id in before then before else before + [id]
  }

  function FreshCases(failures: seq<Failure>): map<string, CaseRecord> {
    if failures == [] then map[]
    else FreshCases(failures[..|failures| - 1])[failures[|failures| - 1].caseId := Fresh(failures[|failures| - 1])]
  }
}
