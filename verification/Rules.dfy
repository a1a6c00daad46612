/** The rules of admission one by one, on the fields of calendar, guard and request, and in the order in
    which the first one broken is the reason given. */
module Rules {
  import opened Models
  import opened Calendar
  import opened Guards

  // --------------------------------------------------------------- the calendar --

  /** A rail has its own lead or the default one; no rail is looked up as the empty name. */
  lemma LeadOfRail(cal: ComplianceCalendar, name: string)
    ensures cal.PdnLeadFor(Some(name)) == if name in cal.pdnLeadByRail then cal.pdnLeadByRail[name] else cal.pdnLeadHours
    ensures cal.PdnLeadFor(None) == cal.PdnLeadFor(Some(""))
  {
  }

  lemma ShippedLeads()
    ensures SHIPPED.PdnLeadFor(Some("upi")) == 25 && SHIPPED.PdnLeadFor(Some("card")) == 36
    ensures SHIPPED.PdnLeadFor(Some("emandate")) == 25 && SHIPPED.PdnLeadFor(None) == 25
  {
  }

  /** A notification is in time when it leaves the lead, and, where the lead reaches no further back than
      the day before the debit, when it is a full minute before the cutoff of its day. */
  predicate InTime(lead: int, cutoff: int, debit: int, sent: int) {
    var latest := debit - lead * HOUR;
    && sent <= latest
    && (debit / DAY <= latest / DAY + 1 ==> sent <= latest / DAY * DAY + cutoff - MINUTE)
  }

  lemma DeadlineIff(lead: int, cutoff: int, debit: int, sent: int)
    ensures sent <= PdnDeadline(lead, cutoff, debit) <==> InTime(lead, cutoff, debit, sent)
  {
  }

  predicate InPeak(cal: ComplianceCalendar, t: int) {
    exists w :: w in cal.peakWindows && w.0 <= t % DAY < w.1
  }

  predicate TooLateForUpi(cal: ComplianceCalendar, rail: Option<string>, t: int) {
    rail == Some("upi") && cal.upiDeadline.Some? && t % DAY >= cal.upiDeadline.value
  }

  predicate Notified(cal: ComplianceCalendar, rail: Option<string>, debit: int, sent: int) {
    var name := if rail.Some? then rail.value else "";
    InTime(if name in cal.pdnLeadByRail then cal.pdnLeadByRail[name] else cal.pdnLeadHours, cal.pdnCutoff, debit, sent)
  }

  lemma TimeIsRemainder(t: int)
    ensures TimeOfDay(t) == t % DAY
  {
  }

  lemma PeakIff(cal: ComplianceCalendar, t: int)
    ensures cal.IsPeak(t) <==> InPeak(cal, t)
  {
    TimeIsRemainder(t);
    if cal.IsPeak(t) {
      var i :| 0 <= i < |cal.peakWindows| && cal.peakWindows[i].0 <= TimeOfDay(t) < cal.peakWindows[i].1;
      assert cal.peakWindows[i] in cal.peakWindows;
    }
    if InPeak(cal, t) {
      var w :| w in cal.peakWindows && w.0 <= t % DAY < w.1;
      var i :| 0 <= i < |cal.peakWindows| && cal.peakWindows[i] == w;
    }
  }

  /** The calendar's own check, rule by rule; the first one broken is named. */
  lemma CheckAttemptIs(cal: ComplianceCalendar, decidedAt: int, executeAt: int, used: int, rail: Option<string>)
    ensures cal.CheckAttempt(decidedAt, executeAt, used, rail) ==
            if used >= cal.attemptCap then Some(AttemptCapExhausted)
            else if executeAt <= decidedAt then Some(ExecuteAtNotInFuture)
            else if InPeak(cal, executeAt) then Some(PeakHourBarred)
            else if TooLateForUpi(cal, rail, executeAt) then Some(PastUpiCompletionDeadline)
            else if Notified(cal, rail, executeAt, decidedAt) then None else Some(PdnLeadTimeUnmet)
  {
    PeakIff(cal, executeAt);
    TimeIsRemainder(executeAt);
    DeadlineIff(cal.PdnLeadFor(rail), cal.pdnCutoff, executeAt, decidedAt);
  }

  // ------------------------------------------------------------------ the guard --

  /** `n` is what counts as executions used: the count on the payment if there is one, else the attempts
      seen, from which one counter takes the contacts off, though never below one. */
  predicate IsUsed(g: Guard, r: Request, n: int) {
    if r.authAttempts.Some? then n == r.authAttempts.value
    else match g.counter
      case SystemInitiatedOnly => n == r.attemptsSeen
      case DiscountCustomerAttempts =>
        n >= 1 && n >= r.attemptsSeen - r.contactsSeen && (n == 1 || n == r.attemptsSeen - r.contactsSeen)
  }

  lemma UsedIff(g: Guard, r: Request, n: int)
    ensures g.Used(r) == n <==> IsUsed(g, r, n)
  {
  }

  /** The slot of a request, or the moment it was decided when it names none. */
  predicate IsMoment(r: Request, t: int) {
    r.executeAt == Some(t) || (r.executeAt.None? && t == r.decidedAt)
  }

  ghost predicate UsedAtLeast(g: Guard, r: Request, cap: int) {
    exists n :: IsUsed(g, r, n) && n >= cap
  }

  ghost predicate MomentBefore(r: Request, t: int) {
    exists m :: IsMoment(r, m) && m < t
  }

  /** What each reason says is wrong with a request. */
  ghost predicate Broken(g: Guard, r: Request, why: BlockReason) {
    match why
    case PaymentAlreadySucceeded => r.paymentStatus in {Authorized, Captured, Refunded}
    case OrderInvalid => r.kind.Execution? && (r.orderId == None || r.orderId == Some(""))
    case OrderExpired => r.orderExpiresAt.Some? && !MomentBefore(r, r.orderExpiresAt.value)
    case AlreadyDecided => r.alreadyDecided
    case ConcurrentRequestInProgress => r.tokenBusyUntil.Some? && MomentBefore(r, r.tokenBusyUntil.value)
    case ExecutionCapExhausted => r.kind.Execution? && UsedAtLeast(g, r, g.calendar.attemptCap)
    case ContactBudgetExhausted => r.kind.Contact? && r.contactsSeen >= g.contactBudget
    case ExecuteAtNotInTheFuture =>
      if r.executeAt.Some? then r.executeAt.value <= r.decidedAt else r.kind.Execution?
    case PriorAttemptUnresolved =>
      && r.kind.Execution? && r.attemptPendingUntil.Some?
      && r.executeAt.Some? && r.executeAt.value < r.attemptPendingUntil.value
    case PastUpiDeadlineBlocked =>
      r.kind.Execution? && r.executeAt.Some? && TooLateForUpi(g.calendar, r.rail, r.executeAt.value)
    case PeakHourBlocked => r.kind.Execution? && r.executeAt.Some? && InPeak(g.calendar, r.executeAt.value)
    case PdnLeadUnmet =>
      r.kind.Execution? && r.executeAt.Some? && !Notified(g.calendar, r.rail, r.executeAt.value, r.decidedAt)
    case ContactCooldownActive =>
      && r.kind.Contact? && r.lastContactAt.Some?
      && MomentBefore(r, r.lastContactAt.value + g.contactCooldownHours * HOUR)
  }

  /** The order in which the rules are asked. */
  function Place(why: BlockReason): nat {
    match why
    case PaymentAlreadySucceeded => 0
    case OrderInvalid => 1
    case OrderExpired => 2
    case AlreadyDecided => 3
    case ConcurrentRequestInProgress => 4
    case ExecutionCapExhausted => 5
    case ContactBudgetExhausted => 6
    case ExecuteAtNotInTheFuture => 7
    case PriorAttemptUnresolved => 8
    case PastUpiDeadlineBlocked => 9
    case PeakHourBlocked => 10
    case PdnLeadUnmet => 11
    case ContactCooldownActive => 12
  }

  lemma MomentIs(r: Request, t: int)
    ensures MomentBefore(r, t) <==> r.Moment() < t
  {
    assert IsMoment(r, r.Moment());
  }

  lemma UsedIs(g: Guard, r: Request)
    ensures UsedAtLeast(g, r, g.calendar.attemptCap) <==> g.Used(r) >= g.calendar.attemptCap
  {
    UsedIff(g, r, g.Used(r));
    forall n | IsUsed(g, r, n)
      ensures n == g.Used(r)
    {
      UsedIff(g, r, n);
    }
  }

  lemma ExecutionRules(g: Guard, r: Request)
    requires r.kind.Execution? && r.executeAt.Some?
    ensures var t := r.executeAt.value;
            && (g.calendar.IsPeak(t) <==> InPeak(g.calendar, t))
            && (r.rail == Some("upi") && g.calendar.PastUpiDeadline(t) <==> TooLateForUpi(g.calendar, r.rail, t))
            && (r.decidedAt <= g.calendar.PdnDeadlineFor(t, r.rail) <==> Notified(g.calendar, r.rail, t, r.decidedAt))
  {
    var t := r.executeAt.value;
    PeakIff(g.calendar, t);
    TimeIsRemainder(t);
    DeadlineIff(g.calendar.PdnLeadFor(r.rail), g.calendar.pdnCutoff, t, r.decidedAt);
  }

  /** The same in the guard's own terms. */
  predicate Told(g: Guard, r: Request, why: BlockReason) {
    match why
    case PaymentAlreadySucceeded => r.paymentStatus.IsResolved()
    case OrderInvalid => r.kind.Execution? && (r.orderId.None? || r.orderId.value == "")
    case OrderExpired => r.orderExpiresAt.Some? && r.Moment() >= r.orderExpiresAt.value
    case AlreadyDecided => r.alreadyDecided
    case ConcurrentRequestInProgress => r.tokenBusyUntil.Some? && r.Moment() < r.tokenBusyUntil.value
    case ExecutionCapExhausted => r.kind.Execution? && g.Used(r) >= g.calendar.attemptCap
    case ContactBudgetExhausted => r.kind.Contact? && r.contactsSeen >= g.contactBudget
    case ExecuteAtNotInTheFuture =>
      if r.executeAt.Some? then r.executeAt.value <= r.decidedAt else r.kind.Execution?
    case PriorAttemptUnresolved =>
      && r.kind.Execution? && r.attemptPendingUntil.Some?
      && r.executeAt.Some? && r.executeAt.value < r.attemptPendingUntil.value
    case PastUpiDeadlineBlocked =>
      && r.kind.Execution? && r.executeAt.Some?
      && r.rail == Some("upi") && g.calendar.PastUpiDeadline(r.executeAt.value)
    case PeakHourBlocked => r.kind.Execution? && r.executeAt.Some? && g.calendar.IsPeak(r.executeAt.value)
    case PdnLeadUnmet =>
      && r.kind.Execution? && r.executeAt.Some?
      && r.decidedAt > g.calendar.PdnDeadlineFor(r.executeAt.value, r.rail)
    case ContactCooldownActive =>
      && r.kind.Contact? && r.lastContactAt.Some?
      && r.Moment() - r.lastContactAt.value < g.contactCooldownHours * HOUR
  }

  lemma BrokenIsTold(g: Guard, r: Request, why: BlockReason)
    ensures Broken(g, r, why) <==> Told(g, r, why)
  {
    match why
    case OrderExpired =>
      if r.orderExpiresAt.Some? {
        MomentIs(r, r.orderExpiresAt.value);
      }
    case ConcurrentRequestInProgress =>
      if r.tokenBusyUntil.Some? {
        MomentIs(r, r.tokenBusyUntil.value);
      }
    case ContactCooldownActive =>
      if r.lastContactAt.Some? {
        MomentIs(r, r.lastContactAt.value + g.contactCooldownHours * HOUR);
      }
    case ExecutionCapExhausted => UsedIs(g, r);
    case PastUpiDeadlineBlocked => SlotRuleIsTold(g, r, why);
    case PeakHourBlocked => SlotRuleIsTold(g, r, why);
    case PdnLeadUnmet => SlotRuleIsTold(g, r, why);
    case OrderInvalid => assert r.orderId.Some? ==> (r.orderId.value == "" <==> r.orderId == Some(""));
    case _ =>
  }

  lemma SlotRuleIsTold(g: Guard, r: Request, why: BlockReason)
    requires why.PastUpiDeadlineBlocked? || why.PeakHourBlocked? || why.PdnLeadUnmet?
    ensures Broken(g, r, why) <==> Told(g, r, why)
  {
    if r.kind.Execution? && r.executeAt.Some? {
      ExecutionRules(g, r);
    }
  }

  lemma FirstTold(g: Guard, r: Request)
    ensures g.Check(r).None? <==> forall why :: !Told(g, r, why)
    ensures g.Check(r).Some? ==> Told(g, r, g.Check(r).value)
    ensures g.Check(r).Some? ==> forall why :: Told(g, r, why) ==> Place(g.Check(r).value) <= Place(why)
  {
    if g.Check(r).Some? {
      assert Told(g, r, g.Check(r).value);
      forall why | Told(g, r, why)
        ensures Place(g.Check(r).value) <= Place(why)
      {
        ToldInOrder(g, r, why);
      }
    } else {
      forall why
        ensures !Told(g, r, why)
      {
        if Told(g, r, why) {
          ToldInOrder(g, r, why);
        }
      }
    }
  }

  lemma ToldInOrder(g: Guard, r: Request, why: BlockReason)
    requires Told(g, r, why)
    ensures g.Check(r).Some? && Place(g.Check(r).value) <= Place(why)
  {
    assert Place(why) >= 5 && r.kind.Execution? ==> g.Execution(r).Some?;
    assert Place(why) >= 5 && r.kind.Contact? ==> g.Contact(r).Some?;
  }

  /** The guard gives the first rule that is broken, and admits what breaks none. */
  lemma FirstBrokenRule(g: Guard, r: Request)
    ensures g.Check(r).None? <==> forall why :: !Broken(g, r, why)
    ensures g.Check(r).Some? ==> Broken(g, r, g.Check(r).value)
    ensures g.Check(r).Some? ==> forall why :: Broken(g, r, why) ==> Place(g.Check(r).value) <= Place(why)
  {
    FirstTold(g, r);
    forall why
      ensures Broken(g, r, why) <==> Told(g, r, why)
    {
      BrokenIsTold(g, r, why);
    }
  }
}
