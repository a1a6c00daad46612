/** Admission control between the allocator and execution (recovery/guard.py). */
module Guards {
  import opened Models
  import opened Calendar

  datatype BlockReason =
    | ExecutionCapExhausted
    | PeakHourBlocked
    | PdnLeadUnmet
    | ExecuteAtNotInTheFuture
    | PriorAttemptUnresolved
    | ContactBudgetExhausted
    | ContactCooldownActive
    | OrderExpired
    | OrderInvalid
    | PaymentAlreadySucceeded
    | AlreadyDecided
    | PastUpiDeadlineBlocked
    | ConcurrentRequestInProgress

  datatype Counter = SystemInitiatedOnly | DiscountCustomerAttempts
  {
    function ExecutionsUsed(attemptsSeen: int, contactsSeen: int): int {
      match this
      case SystemInitiatedOnly => attemptsSeen
      case DiscountCustomerAttempts => if attemptsSeen - contactsSeen > 1 then attemptsSeen - contactsSeen else 1
    }
  }

  datatype Request = Request(
    kind: ProposalKind,
    decidedAt: int,
    executeAt: Option<int>,
    attemptsSeen: int,
    contactsSeen: int,
    lastContactAt: Option<int>,
    attemptPendingUntil: Option<int>,
    paymentStatus: PaymentStatus,
    orderId: Option<string>,
    orderExpiresAt: Option<int>,
    alreadyDecided: bool,
    rail: Option<string>,
    authAttempts: Option<int>,
    tokenBusyUntil: Option<int>)
  {
    /** The moment the order and the token are judged at. */
    function Moment(): int {
      if executeAt.Some? then executeAt.value else decidedAt
    }
  }

  /** None is "allowed". */
  type Verdict = Option<BlockReason>

  datatype Guard = Guard(calendar: ComplianceCalendar, contactBudget: int, contactCooldownHours: int, counter: Counter)
  {
    function Check(r: Request): Verdict {
      var settled := PaymentSettled(r);
      if settled.Some? then settled else
      var order := Order(r);
      if order.Some? then order else
      var decided := Idempotency(r);
      if decided.Some? then decided else
      var busy := TokenBusy(r);
      if busy.Some? then busy else
      KindSpecific(r)
    }

    function PaymentSettled(r: Request): Verdict {
      if r.paymentStatus.IsResolved() then Some(PaymentAlreadySucceeded) else None
    }

    function Order(r: Request): Verdict {
      if r.kind.Execution? && (r.orderId.None? || r.orderId.value == "") then Some(OrderInvalid)
      else if r.orderExpiresAt.Some? && r.Moment() >= r.orderExpiresAt.value then Some(OrderExpired)
      else None
    }

    function Idempotency(r: Request): Verdict {
      if r.alreadyDecided then Some(AlreadyDecided) else None
    }

    function TokenBusy(r: Request): Verdict {
      if r.tokenBusyUntil.Some? && r.Moment() < r.tokenBusyUntil.value then Some(ConcurrentRequestInProgress) else None
    }

    function KindSpecific(r: Request): Verdict {
      if r.kind.Execution? then Execution(r) else Contact(r)
    }

    function Used(r: Request): int {
      if r.authAttempts.Some? then r.authAttempts.value else counter.ExecutionsUsed(r.attemptsSeen, r.contactsSeen)
    }

    function Execution(r: Request): Verdict {
      if Used(r) >= calendar.attemptCap then Some(ExecutionCapExhausted)
      else if r.executeAt.None? then Some(ExecuteAtNotInTheFuture)
      else if r.executeAt.value <= r.decidedAt then Some(ExecuteAtNotInTheFuture)
      else if r.attemptPendingUntil.Some? && r.executeAt.value < r.attemptPendingUntil.value then
        Some(PriorAttemptUnresolved)
      else if r.rail == Some("upi") && calendar.PastUpiDeadline(r.executeAt.value) then Some(PastUpiDeadlineBlocked)
      else if calendar.IsPeak(r.executeAt.value) then Some(PeakHourBlocked)
      else if r.decidedAt > calendar.PdnDeadlineFor(r.executeAt.value, r.rail) then Some(PdnLeadUnmet)
      else None
    }

    function Contact(r: Request): Verdict {
      if r.contactsSeen >= contactBudget then Some(ContactBudgetExhausted)
      else if r.executeAt.Some? && r.executeAt.value <= r.decidedAt then Some(ExecuteAtNotInTheFuture)
      else if r.lastContactAt.Some? && r.Moment() - r.lastContactAt.value < contactCooldownHours * HOUR then
        Some(ContactCooldownActive)
      else None
    }

    // -------------------------------------------------------------- what a verdict means --

    /** The facts an admitted proposal must meet, whatever its kind. */
    ghost predicate Liveness(r: Request) {
      && !r.paymentStatus.IsResolved()
      && (r.orderExpiresAt.Some? ==> r.Moment() < r.orderExpiresAt.value)
      && !r.alreadyDecided
      && (r.tokenBusyUntil.Some? ==> r.tokenBusyUntil.value <= r.Moment())
    }

    ghost predicate LegalExecution(r: Request) {
      && r.orderId.Some? && r.orderId.value != ""
      && r.executeAt.Some?
      && (r.attemptPendingUntil.Some? ==> r.attemptPendingUntil.value <= r.executeAt.value)
      && calendar.CheckAttempt(r.decidedAt, r.executeAt.value, Used(r), r.rail).None?
    }

    ghost predicate LegalContact(r: Request) {
      && r.contactsSeen < contactBudget
      && (r.executeAt.Some? ==> r.decidedAt < r.executeAt.value)
      && (r.lastContactAt.Some? ==> r.lastContactAt.value + contactCooldownHours * HOUR <= r.Moment())
    }
  }

  /** The guard admits exactly the live proposals that its own rules and the calendar's
      independently written `check_attempt` both permit. */
  lemma AllowedIff(g: Guard, r: Request)
    ensures g.Check(r).None? <==> g.Liveness(r) && (if r.kind.Execution? then g.LegalExecution(r) else g.LegalContact(r))
  {
  }

  /** The guard and the calendar name the same rule, except that the guard reports a slot that
      is both peak and past the UPI deadline as past the deadline. */
  lemma CheckersNameTheSameRule(g: Guard, r: Request)
    requires r.executeAt.Some?
    requires r.attemptPendingUntil.Some? ==> r.attemptPendingUntil.value <= r.executeAt.value
    ensures var at := r.executeAt.value;
            var upiLate := r.rail == Some("upi") && g.calendar.PastUpiDeadline(at);
            g.Execution(r) == match g.calendar.CheckAttempt(r.decidedAt, at, g.Used(r), r.rail)
                            case None => None
                            case Some(AttemptCapExhausted) => Some(ExecutionCapExhausted)
                            case Some(ExecuteAtNotInFuture) => Some(ExecuteAtNotInTheFuture)
                            case Some(PeakHourBarred) => Some(if upiLate then PastUpiDeadlineBlocked else PeakHourBlocked)
                            case Some(PastUpiCompletionDeadline) => Some(PastUpiDeadlineBlocked)
                            case Some(PdnLeadTimeUnmet) => Some(PdnLeadUnmet)
  {
  }
}
