/** What the classifier says of a failure and what the allocator plans for it, from rules, thresholds and
    knobs: which verdict, which action, which day, which words. */
module Plans {
  import opened Models
  import opened Calendar
  import opened Guards
  import opened Scheduling
  import opened Classifiers
  import opened Environments
  import opened Allocator

  // ---------------------------------------------------------------- the verdict --

  /** The three bands are the three stretches that the thresholds cut. */
  lemma BandIff(t: Table, confidence: real)
    ensures t.BandFor(confidence) == High <==> confidence >= t.highThreshold
    ensures t.BandFor(confidence) == Low <==> confidence < t.highThreshold && confidence < t.moderateThreshold
  {
  }

  function Grade(band: ConfidenceBand): nat {
    match band
    case Low => 0
    case Moderate => 1
    case High => 2
  }

  /** More confidence is never a lower band. */
  lemma BandsGrow(t: Table, a: real, b: real)
    requires a <= b
    ensures Grade(t.BandFor(a)) <= Grade(t.BandFor(b))
  {
  }

  predicate Fits(e: Entry, key: Key) {
    && (Reason in e.fields ==> key.reason == Some(e.fields[Reason]))
    && (StepField in e.fields ==> key.step == Some(e.fields[StepField]))
    && (Source in e.fields ==> key.source == Some(e.fields[Source]))
    && (Method in e.fields ==> key.rail == Some(e.fields[Method]))
  }

  lemma FitsIff(e: Entry, key: Key)
    ensures Fits(e, key) <==> e.Matches(key)
  {
    if Fits(e, key) {
      forall f | f in e.fields
        ensures key.At(f) == Some(e.fields[f])
      {
        assert f == Reason || f == StepField || f == Source || f == Method;
      }
    }
  }

  /** A rule outweighs another that names less, the reason counting for more than step, source and method
      together, and so on down. */
  function Weight(e: Entry): nat {
    (if Reason in e.fields then 8 else 0) + (if StepField in e.fields then 4 else 0)
    + (if Source in e.fields then 2 else 0) + (if Method in e.fields then 1 else 0)
  }

  /** Rule `i` is the one that speaks for the key. */
  ghost predicate Speaks(rules: seq<Entry>, key: Key, i: nat) {
    && i < |rules| && Fits(rules[i], key)
    && forall j :: 0 <= j < |rules| && Fits(rules[j], key) ==>
                     Weight(rules[j]) < Weight(rules[i]) || (Weight(rules[j]) == Weight(rules[i]) && i <= j)
  }

  lemma ChosenSpeaks(rules: seq<Entry>, key: Key)
    ensures var chosen := Chosen(rules, key);
            && (chosen.Some? ==> Speaks(rules, key, chosen.value.index) && chosen.value.entry == rules[chosen.value.index])
            && (forall i: nat :: Speaks(rules, key, i) ==> chosen == Some(Rule(i, rules[i])))
            && (chosen.None? ==> forall e :: e in rules ==> !Fits(e, key))
  {
    ChosenIsBest(rules, key);
    forall e: Entry
      ensures Fits(e, key) <==> e.Matches(key)
      ensures Weight(e) == Rank(e)
    {
      FitsIff(e, key);
    }
    var chosen := Chosen(rules, key);
    forall i: nat | Speaks(rules, key, i)
      ensures chosen == Some(Rule(i, rules[i]))
    {
      assert RankBefore(chosen.value, Rule(i, rules[i]));
    }
  }

  /** The verdict that a rule gives. */
  predicate SaysAs(t: Table, costs: CostModel, i: nat, c: Classification)
    requires i < |t.rules|
  {
    var e := t.rules[i];
    && c.mapped && c.ruleIndex == Some(i) && c.confidence == e.confidence && c.causeFamily == e.causeFamily
    && c.deliberatelyLow == e.deliberatelyLow
    && (c.band != Low ==> c.failureClass == e.failureClass && c.costResolvedFrom == None)
    && (c.band == Low ==> c.failureClass == costs.SafestClass() && c.costResolvedFrom == Some(e.failureClass))
  }

  /** A key takes class, confidence and family of the weightiest rule that fits it, the first of several;
      below the moderate threshold it takes the safest class instead, and so does a key that fits none. */
  lemma VerdictIs(t: Table, costs: CostModel, key: Key)
    ensures var c := Classify(t, costs, key);
            && c.band == t.BandFor(c.confidence) && c.sourceUndocumented == !key.sourceDocumented
            && (forall i: nat :: Speaks(t.rules, key, i) ==> SaysAs(t, costs, i, c))
            && (if c.mapped then exists i: nat :: Speaks(t.rules, key, i)
                else && (forall e :: e in t.rules ==> !Fits(e, key))
                     && c.ruleIndex == None && c.confidence == t.fallbackConfidence
                     && c.failureClass == costs.SafestClass())
  {
    ChosenSpeaks(t.rules, key);
  }

  /** The order of the names settles what cost and total leave open. */
  const BY_NAME := [Attention, Infrastructure, Liquidity, Terminal]

  /** The greatest cost of predicting `c`. */
  predicate IsWorst(m: CostModel, c: FailureClass, cost: real) {
    && (forall truth :: m.Cost(truth, c) <= cost) && exists truth :: m.Cost(truth, c) == cost
  }

  lemma WorstIs(m: CostModel, c: FailureClass)
    ensures IsWorst(m, c, m.WorstCase(c))
    ensures m.WorstCase(c) in [m.Cost(Infrastructure, c), m.Cost(Liquidity, c), m.Cost(Attention, c), m.Cost(Terminal, c)]
  {
    forall truth: FailureClass
      ensures m.Cost(truth, c) <= m.WorstCase(c)
    {
      match truth
      case Infrastructure =>
      case Liquidity =>
      case Attention =>
      case Terminal =>
    }
    if m.WorstCase(c) == m.Cost(Infrastructure, c) {
    } else if m.WorstCase(c) == m.Cost(Liquidity, c) {
    } else if m.WorstCase(c) == m.Cost(Attention, c) {
    } else {
      assert m.WorstCase(c) == m.Cost(Terminal, c);
    }
  }

  /** The safest class has the smallest worst cost; of several, the smallest total; of several, the first name. */
  lemma SafestIs(m: CostModel, a: nat, b: nat)
    requires a < 4 && b < 4 && BY_NAME[a] == m.SafestClass() && b != a
    ensures var s, c := BY_NAME[a], BY_NAME[b];
            var total := (x: FailureClass) =>
              m.Cost(Infrastructure, x) + m.Cost(Liquidity, x) + m.Cost(Attention, x) + m.Cost(Terminal, x);
            || m.WorstCase(s) < m.WorstCase(c)
            || (m.WorstCase(s) == m.WorstCase(c) && total(s) < total(c))
            || (m.WorstCase(s) == m.WorstCase(c) && total(s) == total(c) && a < b)
  {
    SafestIsMinimax(m, BY_NAME[b], Infrastructure);
  }

  // -------------------------------------------------------------------- the cell --

  /** What each class above LOW is answered with, and that LOW is answered alike. */
  lemma CellIs(c: FailureClass, band: ConfidenceBand)
    ensures var cell := Lookup(c, band);
            && cell.spendsExecution == (band != Low && (c == Infrastructure || c == Liquidity))
            && (cell.spendsExecution <==> cell.action == ScheduleAt)
            && (cell.action == OfferRailMigration <==> c == Terminal && band != Low)
            && (!cell.spendsExecution && !(c == Terminal && band != Low) ==> cell.action == RecoveryLink)
            && (cell.contactKind == None <==> cell.spendsExecution)
            && (cell.contactKind == Some(CardChange) <==> c == Terminal && band != Low)
            && (cell.contactKind == Some(DifferentChannel) <==> c == Attention && band == High)
            && (band == Low <==> cell.rationale == ClassIsAGuess)
  {
  }

  // --------------------------------------------------------------------- the day --

  /** How many days the allocator waits at the least. */
  function Patience(knobs: Option<Knobs>, c: FailureClass, band: ConfidenceBand): int {
    match c
    case Liquidity => if knobs.Some? then knobs.value.liquidityMinDays else 2
    case _ =>
      if band == High then (if knobs.Some? then knobs.value.infrastructureHighDays else 1)
      else (if knobs.Some? then knobs.value.infrastructureModerateDays else 2)
  }

  predicate IsFunding(arm: ArmC, knobs: Knobs, day: int) {
    arm.dayOfMonth(day) in knobs.fundingDays
  }

  lemma {:induction false} FundingDayIs(start: int, dayOfMonth: int -> int, allowed: set<int>, wait: nat, offset: nat)
    requires offset <= wait + 1 && forall d :: start <= d < start + offset ==> dayOfMonth(d) !in allowed
    ensures var day := FundingDayFrom(start, dayOfMonth, allowed, wait, offset);
            && start <= day <= start + wait
            && (dayOfMonth(day) in allowed ==> forall d :: start <= d < day ==> dayOfMonth(d) !in allowed)
            && (dayOfMonth(day) !in allowed ==>
                  day == start && forall d :: start <= d <= start + wait ==> dayOfMonth(d) !in allowed)
    decreases wait + 1 - offset
  {
    if offset <= wait && dayOfMonth(start + offset) !in allowed {
      FundingDayIs(start, dayOfMonth, allowed, wait, offset + 1);
    }
  }

  /** The target is so many days from today, on the calendar; for want of funds, the first funding day from
      then on that is not too far, if there is one. */
  lemma TargetDayIs(arm: ArmC, now: int, c: Classification)
    ensures var start, day := now / DAY + Patience(arm.knobs, c.failureClass, c.band), TargetDay(arm, now, c);
            if c.failureClass == Liquidity && arm.knobs.Some? then
              var knobs := arm.knobs.value;
              && start <= day <= start + knobs.maxWaitDays
              && (IsFunding(arm, knobs, day) ==> forall d :: start <= d < day ==> !IsFunding(arm, knobs, d))
              && (!IsFunding(arm, knobs, day) ==>
                    day == start && forall d :: start <= d <= start + knobs.maxWaitDays ==> !IsFunding(arm, knobs, d))
            else day == start
  {
    var days := Patience(arm.knobs, c.failureClass, c.band);
    DaysLater(now, days);
    if c.failureClass == Liquidity && arm.knobs.Some? {
      var knobs := arm.knobs.value;
      FundingDayIs(now / DAY + days, arm.dayOfMonth, knobs.fundingDays, knobs.maxWaitDays, 0);
    }
  }

  lemma DaysLater(now: int, days: int)
    ensures OffsetDay(now, days) == now / DAY + days
  {
  }

  /** The knobs of config/default.yaml: tomorrow at HIGH, the day after at MODERATE, and want of funds waits
      two days, then six more for a funding day. */
  const SHIPPED_KNOBS := Knobs(1, 2, 2, {1, 2, 3, 28, 29, 30, 31}, 6, 1, "sms", "whatsapp")

  lemma ShippedTargets(arm: ArmC, now: int, c: Classification)
    requires arm.knobs == Some(SHIPPED_KNOBS)
    ensures c.failureClass == Infrastructure && c.band == High ==> TargetDay(arm, now, c) == now / DAY + 1
    ensures c.failureClass == Infrastructure && c.band == Moderate ==> TargetDay(arm, now, c) == now / DAY + 2
    ensures c.failureClass == Liquidity ==> now / DAY + 2 <= TargetDay(arm, now, c) <= now / DAY + 8
  {
    TargetDayIs(arm, now, c);
  }

  // -------------------------------------------------------------------- the plan --

  /** An execution in the slot of its target day. */
  predicate IsExecution(arm: ArmC, view: CaseView, now: int, c: Classification, p: Proposal) {
    && p.caseId == view.caseId && p.kind.Execution? && p.action == Some(ScheduleAt)
    && Some(p.executeAt) == SlotFor(arm.calendar, now, TargetDay(arm, now, c), Some(view.rail))
    && p.channel == None && p.shaping == None
  }

  /** A contact an hour from now: what the cell says, by the channel that was not tried yet when the customer
      is known not to heed it, and leaving instruments out only when the band is HIGH. */
  predicate IsContact(arm: ArmC, view: CaseView, now: int, c: Classification, p: Proposal) {
    && p.caseId == view.caseId && p.kind.Contact? && p.executeAt == now + HOUR
    && p.action == Some(if c.failureClass == Terminal && c.band != Low then OfferRailMigration else RecoveryLink)
    && p.channel == Some(if arm.knobs.None? then "sms"
                         else if c.failureClass == Attention && c.band == High then arm.knobs.value.attentionChannel
                         else arm.knobs.value.defaultChannel)
    && p.shaping == Some(if c.band == High then ExcludeInstrument else ReorderRails)
  }

  predicate Exhausted(arm: ArmC, view: CaseView) {
    || (arm.counter == SystemInitiatedOnly && view.attemptsUsed >= arm.calendar.attemptCap)
    || (arm.counter == DiscountCustomerAttempts
        && (view.attemptsUsed - view.contactsUsed >= arm.calendar.attemptCap || 1 >= arm.calendar.attemptCap))
  }

  /** The plan for any case, clause by clause. */
  lemma PlanIs(arm: ArmC, view: CaseView, now: int)
    ensures var c, plan := Classify(arm.table, arm.costs, view.observed), Decide(arm, view, now);
            var slot := SlotFor(arm.calendar, now, TargetDay(arm, now, c), Some(view.rail));
            if view.outcome != StillOpen then plan.action == Hold && plan.proposals == []
            else if arm.rails == EmandateHoldsTerminal && view.rail == "emandate" && c.failureClass == Terminal then
              plan.action == Surrender && plan.proposals == []
            else if c.band != Low && (c.failureClass == Infrastructure || c.failureClass == Liquidity) then
              if Exhausted(arm, view) then plan.action == Surrender && plan.proposals == []
              else if view.attemptPending || slot.None? then plan.action == Hold && plan.proposals == []
              else plan.action == ScheduleAt && |plan.proposals| == 1 && IsExecution(arm, view, now, c, plan.proposals[0])
            else if view.contactsUsed >= (if arm.knobs.Some? then arm.knobs.value.maxPerCase else 1) then
              plan.action == Surrender && plan.proposals == []
            else |plan.proposals| == 1 && IsContact(arm, view, now, c, plan.proposals[0])
                 && Some(plan.action) == plan.proposals[0].action
  {
    var c := Classify(arm.table, arm.costs, view.observed);
    CellIs(c.failureClass, c.band);
    if c.band != Low && (c.failureClass == Infrastructure || c.failureClass == Liquidity) {
      assert Used(arm, view) >= arm.calendar.attemptCap <==> Exhausted(arm, view);
    }
  }
}
