/** The allocator (allocator/decisions.py, allocator/policies.py, allocator/arm_c.py): the decision
    table, the two open questions as policies, and the plan for one case. */
module Allocator {
  import opened Models
  import opened Calendar
  import opened Guards
  import opened Scheduling
  import opened Classifiers
  import opened Environments

  // ------------------------------------------------------------------ the table --

  datatype Rationale =
    | LikelyCleared
    | ProbablyTransient
    | NoFundsToday
    | ProbablyFundingGap
    | ReachedDidNotAct
    | ProbablyAttentionGap
    | RetryCannotSucceed
    | ProbablyUnrecoverable
    | ClassIsAGuess

  datatype ContactKind = GenericLink | CardChange | DifferentChannel

  datatype Cell = Cell(
    action: DecisionAction,
    spendsExecution: bool,
    rationale: Rationale,
    contactKind: Option<ContactKind>)

  function Lookup(c: FailureClass, band: ConfidenceBand): Cell {
    match (c, band)
    case (_, Low) => Cell(RecoveryLink, false, ClassIsAGuess, Some(GenericLink))
    case (Infrastructure, High) => Cell(ScheduleAt, true, LikelyCleared, None)
    case (Infrastructure, Moderate) => Cell(ScheduleAt, true, ProbablyTransient, None)
    case (Liquidity, High) => Cell(ScheduleAt, true, NoFundsToday, None)
    case (Liquidity, Moderate) => Cell(ScheduleAt, true, ProbablyFundingGap, None)
    case (Attention, High) => Cell(RecoveryLink, false, ReachedDidNotAct, Some(DifferentChannel))
    case (Attention, Moderate) => Cell(RecoveryLink, false, ProbablyAttentionGap, Some(GenericLink))
    case (Terminal, High) => Cell(OfferRailMigration, false, RetryCannotSucceed, Some(CardChange))
    case (Terminal, Moderate) => Cell(OfferRailMigration, false, ProbablyUnrecoverable, Some(CardChange))
  }

  // ---------------------------------------------------------------- the policies --

  datatype RailPolicy = RailAgnosticCells | EmandateHoldsTerminal
  {
    predicate MayAttempt(view: CaseView) {
      !view.attemptPending
    }

    predicate AdjustsCell(view: CaseView, c: FailureClass) {
      EmandateHoldsTerminal? && view.rail == "emandate" && c == Terminal
    }
  }

  // -------------------------------------------------------------------- the arm --

  /** The ordinal knobs of the configuration. */
  datatype Knobs = Knobs(
    infrastructureHighDays: int,
    infrastructureModerateDays: int,
    liquidityMinDays: int,
    fundingDays: set<int>,
    maxWaitDays: nat,
    maxPerCase: int,
    defaultChannel: string,
    attentionChannel: string)

  /** `dayOfMonth` stands for the civil calendar. */
  datatype ArmC = ArmC(
    calendar: ComplianceCalendar,
    table: Table,
    costs: CostModel,
    knobs: Option<Knobs>,
    rails: RailPolicy,
    counter: Counter,
    dayOfMonth: int -> int)

  datatype Reason =
    | CaseNotOpen
    | RailOverridesCell
    | ExecutionsExhausted(used: int)
    | PriorUnresolved
    | NoSlot
    | ContactAlreadyMade
    | Because(rationale: Rationale)

  datatype Plan = Plan(
    action: DecisionAction,
    cell: Cell,
    classification: Classification,
    proposals: seq<Proposal>,
    reason: Reason)

  function OffsetDay(now: int, days: int): int {
    Date(now + days * DAY)
  }

  function TargetDay(arm: ArmC, now: int, c: Classification): int {
    if c.failureClass == Liquidity then
      if arm.knobs.None? then OffsetDay(now, 2)
      else FundingDay(OffsetDay(now, arm.knobs.value.liquidityMinDays), arm.dayOfMonth,
                      arm.knobs.value.fundingDays, arm.knobs.value.maxWaitDays)
    else if arm.knobs.None? then OffsetDay(now, if c.band == High then 1 else 2)
    else OffsetDay(now, if c.band == High then arm.knobs.value.infrastructureHighDays
                        else arm.knobs.value.infrastructureModerateDays)
  }

  function Channel(arm: ArmC, c: Classification): string {
    if arm.knobs.None? then "sms"
    else if c.failureClass == Attention && c.band == High then arm.knobs.value.attentionChannel
    else arm.knobs.value.defaultChannel
  }

  /** Excluding an instrument is for the HIGH band only. */
  function Shaping(c: Classification): DecisionAction {
    if c.band == High then ExcludeInstrument else ReorderRails
  }

  function Used(arm: ArmC, view: CaseView): int {
    arm.counter.ExecutionsUsed(view.attemptsUsed, view.contactsUsed)
  }

  function PlanExecution(arm: ArmC, view: CaseView, now: int, cell: Cell, c: Classification): Plan {
    var used := Used(arm, view);
    if used >= arm.calendar.attemptCap then Plan(Surrender, cell, c, [], ExecutionsExhausted(used))
    else if !arm.rails.MayAttempt(view) then Plan(Hold, cell, c, [], PriorUnresolved)
    else
      var slot := SlotFor(arm.calendar, now, TargetDay(arm, now, c), Some(view.rail));
      if slot.None? then Plan(Hold, cell, c, [], NoSlot)
      else
        Plan(ScheduleAt, cell, c,
             [Proposal(view.caseId, Execution, slot.value, Some(ScheduleAt), None, None, Some((c.failureClass, c.band)))],
             Because(cell.rationale))
  }

  function ContactLimit(arm: ArmC): int {
    if arm.knobs.Some? then arm.knobs.value.maxPerCase else 1
  }

  function PlanContact(arm: ArmC, view: CaseView, now: int, cell: Cell, c: Classification): Plan {
    if view.contactsUsed >= ContactLimit(arm) then Plan(Surrender, cell, c, [], ContactAlreadyMade)
    else
      Plan(cell.action, cell, c,
           [Proposal(view.caseId, Contact, now + HOUR, Some(cell.action), Some(Channel(arm, c)), Some(Shaping(c)),
                     Some((c.failureClass, c.band)))],
           Because(cell.rationale))
  }

  function Decide(arm: ArmC, view: CaseView, now: int): Plan {
    DecideOn(arm, view, now, Classify(arm.table, arm.costs, view.observed))
  }

  function DecideOn(arm: ArmC, view: CaseView, now: int, c: Classification): Plan {
    var cell := Lookup(c.failureClass, c.band);
    if view.outcome != StillOpen then Plan(Hold, cell, c, [], CaseNotOpen)
    else if arm.rails.AdjustsCell(view, c.failureClass) then Plan(Surrender, cell, c, [], RailOverridesCell)
    else if cell.spendsExecution then PlanExecution(arm, view, now, cell, c)
    else PlanContact(arm, view, now, cell, c)
  }

  // ------------------------------------------------------------ what the table is for --

  /** The two principles of the table: at LOW every class gets the same contact, and an execution is
      spent exactly where a retry can work and the class is more than a guess. */
  lemma TablePrinciples(c: FailureClass, d: FailureClass, band: ConfidenceBand)
    ensures Lookup(c, Low) == Lookup(d, Low)
    ensures Lookup(c, band).spendsExecution <==> band != Low && (c == Infrastructure || c == Liquidity)
    ensures Lookup(c, band).spendsExecution <==> Lookup(c, band).contactKind.None?
    ensures Lookup(c, band).spendsExecution <==> ObligationKind(Lookup(c, band).action) == Some(Execution)
  {
  }

  /** A plan nobody need refuse: at most one proposal, for the case shown, in the future; a contact within
      the limit; an execution only for a recoverable class, with nothing pending and legal at the calendar. */
  ghost predicate Warranted(arm: ArmC, view: CaseView, now: int, plan: Plan) {
    && |plan.proposals| <= 1
    && forall p :: p in plan.proposals ==>
                     && p.caseId == view.caseId && now < p.executeAt
                     && (p.kind.Contact? ==> view.contactsUsed < ContactLimit(arm))
                     && (p.kind.Execution? ==>
                           && plan.classification.failureClass in {Infrastructure, Liquidity}
                           && plan.classification.band != Low
                           && !view.attemptPending
                           && arm.calendar.CheckAttempt(now, p.executeAt, Used(arm, view), Some(view.rail)).None?)
  }

  lemma ExecutionIsWarranted(arm: ArmC, view: CaseView, now: int, cell: Cell, c: Classification)
    requires WellShaped(arm.calendar) && arm.calendar.PdnLeadFor(Some(view.rail)) >= 0
    requires c.failureClass in {Infrastructure, Liquidity} && c.band != Low
    ensures Warranted(arm, view, now, PlanExecution(arm, view, now, cell, c))
  {
    if Used(arm, view) < arm.calendar.attemptCap {
      SlotIsLegal(arm, view, now, TargetDay(arm, now, c));
    }
  }

  lemma ContactIsWarranted(arm: ArmC, view: CaseView, now: int, cell: Cell, c: Classification)
    ensures Warranted(arm, view, now, PlanContact(arm, view, now, cell, c))
  {
  }

  /** Everything the arm proposes is warranted, and it proposes for open cases only. */
  lemma PlansAreWarranted(arm: ArmC, view: CaseView, now: int)
    requires WellShaped(arm.calendar) && arm.calendar.PdnLeadFor(Some(view.rail)) >= 0
    ensures Warranted(arm, view, now, Decide(arm, view, now))
    ensures Decide(arm, view, now).proposals != [] ==> view.outcome == StillOpen
  {
    var c := Classify(arm.table, arm.costs, view.observed);
    var cell := Lookup(c.failureClass, c.band);
    TablePrinciples(c.failureClass, c.failureClass, c.band);
    if cell.spendsExecution {
      ExecutionIsWarranted(arm, view, now, cell, c);
    } else {
      ContactIsWarranted(arm, view, now, cell, c);
    }
  }

  lemma SlotIsLegal(arm: ArmC, view: CaseView, now: int, day: int)
    requires WellShaped(arm.calendar) && arm.calendar.PdnLeadFor(Some(view.rail)) >= 0
    requires Used(arm, view) < arm.calendar.attemptCap
    ensures var slot := SlotFor(arm.calendar, now, day, Some(view.rail));
            slot.Some? && arm.calendar.CheckAttempt(now, slot.value, Used(arm, view), Some(view.rail)).None?
  {
    CompliantSlotExists(arm.calendar, now, day, Some(view.rail));
    GoodSlotPasses(arm.calendar, now, day, Some(view.rail), SlotFor(arm.calendar, now, day, Some(view.rail)).value);
  }

  // ---------------------------------------------------- cost-matrix non-interference --

  function WithoutNotes(proposals: seq<Proposal>): seq<Proposal> {
    seq(|proposals|, i requires 0 <= i < |proposals| => proposals[i].(note := None))
  }

  /** The same action, for the same reason, with the same proposals but for the text of their notes. */
  ghost predicate ActsAlike(p: Plan, q: Plan) {
    p.action == q.action && p.reason == q.reason && WithoutNotes(p.proposals) == WithoutNotes(q.proposals)
  }

  /** The band a key is classified in does not come from the costs. */
  function BandOf(t: Table, key: Key): ConfidenceBand {
    var rule := Chosen(t.rules, key);
    t.BandFor(if rule.Some? then rule.value.entry.confidence else t.fallbackConfidence)
  }

  predicate IsMapped(t: Table, key: Key) {
    Chosen(t.rules, key).Some?
  }

  lemma BandIgnoresCosts(t: Table, costs: CostModel, key: Key)
    ensures Classify(t, costs, key).band == BandOf(t, key)
    ensures Classify(t, costs, key).mapped == IsMapped(t, key)
    ensures BandOf(t, key) == Low || !IsMapped(t, key) ==> Classify(t, costs, key).failureClass == costs.SafestClass()
    ensures BandOf(t, key) != Low && IsMapped(t, key) ==>
              Classify(t, costs, key).failureClass == Chosen(t.rules, key).value.entry.failureClass
  {
  }

  /** Where the costs can reach an action: an unmapped key whose fallback is trusted, or a LOW band on
      emandate under the policy that singles out TERMINAL there. */
  predicate CostsMatter(arm: ArmC, view: CaseView) {
    || (!IsMapped(arm.table, view.observed) && BandOf(arm.table, view.observed) != Low)
    || (BandOf(arm.table, view.observed) == Low && arm.rails == EmandateHoldsTerminal && view.rail == "emandate")
  }

  /** At LOW, off the emandate override, the plan is the generic link whatever the class. */
  lemma LowActsAlike(arm: ArmC, costs: CostModel, view: CaseView, now: int, c: Classification, d: Classification)
    requires view.outcome == StillOpen && c.band == Low && d.band == Low
    requires arm.rails == RailAgnosticCells || view.rail != "emandate"
    ensures ActsAlike(DecideOn(arm, view, now, c), DecideOn(arm.(costs := costs), view, now, d))
  {
    var p, q := DecideOn(arm, view, now, c), DecideOn(arm.(costs := costs), view, now, d);
    if view.contactsUsed < ContactLimit(arm) {
      assert p.proposals[0].(note := None) == q.proposals[0].(note := None);
    }
  }

  /** Past the classification nothing reads the costs. */
  lemma PlanIgnoresCosts(arm: ArmC, costs: CostModel, view: CaseView, now: int, c: Classification)
    ensures DecideOn(arm.(costs := costs), view, now, c) == DecideOn(arm, view, now, c)
  {
  }

  lemma ClosedActsAlike(arm: ArmC, view: CaseView, now: int, c: Classification, d: Classification)
    requires view.outcome != StillOpen
    ensures ActsAlike(DecideOn(arm, view, now, c), DecideOn(arm, view, now, d))
  {
  }

  /** Above LOW the class of a mapped key is its rule's. */
  lemma SameClassAboveLow(t: Table, costs: CostModel, other: CostModel, key: Key)
    requires BandOf(t, key) != Low && IsMapped(t, key)
    ensures Classify(t, costs, key) == Classify(t, other, key)
  {
    BandIgnoresCosts(t, costs, key);
    BandIgnoresCosts(t, other, key);
  }

  /** The costs never reach an action where they do not matter. */
  lemma CostsDoNotReachActions(arm: ArmC, costs: CostModel, view: CaseView, now: int)
    requires view.outcome != StillOpen || !CostsMatter(arm, view)
    ensures ActsAlike(Decide(arm, view, now), Decide(arm.(costs := costs), view, now))
  {
    var c, d := Classify(arm.table, arm.costs, view.observed), Classify(arm.table, costs, view.observed);
    PlanIgnoresCosts(arm, costs, view, now, d);
    if view.outcome != StillOpen {
      ClosedActsAlike(arm, view, now, c, d);
    } else if BandOf(arm.table, view.observed) == Low {
      assert c.band == Low && d.band == Low by {
        BandIgnoresCosts(arm.table, arm.costs, view.observed);
        BandIgnoresCosts(arm.table, costs, view.observed);
      }
      LowActsAlike(arm, costs, view, now, c, d);
    } else {
      SameClassAboveLow(arm.table, arm.costs, costs, view.observed);
    }
  }

  /** A cost model whose safest class is `c`. */
  function Favouring(c: FailureClass): CostModel {
    CostModel(map truth: FailureClass, predicted: FailureClass | true ::
                (truth, predicted) := if truth == predicted then 0.0 else if predicted == c then 1.0 else 2.0, map[])
  }

  lemma FavouringCost(c: FailureClass, truth: FailureClass, predicted: FailureClass)
    ensures Favouring(c).Cost(truth, predicted) == if truth == predicted then 0.0 else if predicted == c then 1.0 else 2.0
  {
  }

  lemma FavouringWorstCase(c: FailureClass, predicted: FailureClass)
    ensures Favouring(c).WorstCase(predicted) == if predicted == c then 1.0 else 2.0
  {
    FavouringCost(c, Infrastructure, predicted);
    FavouringCost(c, Liquidity, predicted);
    FavouringCost(c, Attention, predicted);
    FavouringCost(c, Terminal, predicted);
  }

  lemma FavouringIsSafest(c: FailureClass)
    ensures Favouring(c).SafestClass() == c
  {
    var safest := Favouring(c).SafestClass();
    SafestIsMinimax(Favouring(c), c, c);
    FavouringWorstCase(c, c);
    FavouringWorstCase(c, safest);
  }

  predicate SpeaksOfAttention(r: Reason) {
    r == ContactAlreadyMade || (r.Because? && r.rationale in [ReachedDidNotAct, ProbablyAttentionGap, ClassIsAGuess])
  }

  lemma AttentionReason(arm: ArmC, view: CaseView, now: int, c: Classification)
    requires view.outcome == StillOpen && c.failureClass == Attention
    ensures SpeaksOfAttention(DecideOn(arm, view, now, c).reason)
  {
  }

  lemma RivalReason(arm: ArmC, view: CaseView, now: int, c: Classification)
    requires view.outcome == StillOpen
    requires (c.failureClass == Infrastructure && c.band != Low)
             || (c.failureClass == Terminal && arm.rails.AdjustsCell(view, Terminal))
    ensures !SpeaksOfAttention(DecideOn(arm, view, now, c).reason)
  {
  }

  lemma ClassifiedBy(t: Table, key: Key, c: FailureClass)
    requires BandOf(t, key) == Low || !IsMapped(t, key)
    ensures Classify(t, Favouring(c), key).failureClass == c && Classify(t, Favouring(c), key).band == BandOf(t, key)
  {
    BandIgnoresCosts(t, Favouring(c), key);
    FavouringIsSafest(c);
  }

  /** The class that a cost model can pick to change what is done. */
  function Rival(arm: ArmC, view: CaseView): FailureClass {
    if BandOf(arm.table, view.observed) == Low then Terminal else Infrastructure
  }

  /** Two models that tell the actions apart, where the costs matter. */
  lemma CostsTellActionsApart(arm: ArmC, view: CaseView, now: int)
    requires view.outcome == StillOpen && CostsMatter(arm, view)
    ensures SpeaksOfAttention(Decide(arm.(costs := Favouring(Attention)), view, now).reason)
    ensures !SpeaksOfAttention(Decide(arm.(costs := Favouring(Rival(arm, view))), view, now).reason)
  {
    var a, b := arm.(costs := Favouring(Attention)), arm.(costs := Favouring(Rival(arm, view)));
    var c, d := Classify(a.table, a.costs, view.observed), Classify(b.table, b.costs, view.observed);
    assert c.failureClass == Attention by {
      ClassifiedBy(arm.table, view.observed, Attention);
    }
    assert d.failureClass == Rival(arm, view) && d.band == BandOf(arm.table, view.observed) by {
      ClassifiedBy(arm.table, view.observed, Rival(arm, view));
    }
    AttentionReason(a, view, now, c);
    RivalReason(b, view, now, d);
  }

  lemma AlikeSameReason(p: Plan, q: Plan)
    ensures ActsAlike(p, q) ==> p.reason == q.reason
  {
  }

  /** Exactly when the cost matrix can change what is done for an open case. */
  lemma CostsMatterIff(arm: ArmC, view: CaseView, now: int)
    requires view.outcome == StillOpen
    ensures CostsMatter(arm, view) <==>
            exists costs :: !ActsAlike(Decide(arm, view, now), Decide(arm.(costs := costs), view, now))
  {
    if CostsMatter(arm, view) {
      CostsTellActionsApart(arm, view, now);
      var mine := Decide(arm, view, now);
      AlikeSameReason(mine, Decide(arm.(costs := Favouring(Attention)), view, now));
      AlikeSameReason(mine, Decide(arm.(costs := Favouring(Rival(arm, view))), view, now));
    } else {
      forall costs
        ensures ActsAlike(Decide(arm, view, now), Decide(arm.(costs := costs), view, now))
      {
        CostsDoNotReachActions(arm, costs, view, now);
      }
    }
  }

  /** With the fallback below the moderate threshold and the default rail policy, it never can. */
  lemma CostMatrixDoesNotInterfere(arm: ArmC, costs: CostModel, view: CaseView, now: int)
    requires arm.table.fallbackConfidence < arm.table.moderateThreshold <= arm.table.highThreshold
    requires arm.rails == RailAgnosticCells
    ensures ActsAlike(Decide(arm, view, now), Decide(arm.(costs := costs), view, now))
  {
    CostsDoNotReachActions(arm, costs, view, now);
  }
}
