/** The allocator as the worker's decider (allocator/wiring.py): the slot it names is judged by the
    guard at a later clock reading, and still passes. */
module Wiring {
  import opened Models
  import opened Calendar
  import opened Guards
  import opened Scheduling
  import opened Protocol
  import opened Environments
  import opened Allocator
  import Classifiers

  function RailOf(snap: Snapshot): string {
    if snap.rail.Some? then snap.rail.value else ""
  }

  /** The event core tracks neither contacts nor unresolved attempts. */
  function ViewFromSnapshot(caseId: string, openedAt: int, amount: nat, key: Classifiers.Key, snap: Snapshot,
                            n: nat): CaseView
  {
    CaseView(caseId, RailOf(snap), amount, openedAt, key, n, 0, StillOpen, false, None)
  }

  function FirstExecution(proposals: seq<Proposal>): Option<int> {
    if proposals == [] then None
    else if proposals[0].kind.Execution? then Some(proposals[0].executeAt)
    else FirstExecution(proposals[1..])
  }

  /** `execution_slot`: it plans again, at its own clock reading. */
  function ExecutionSlot(arm: ArmC, view: CaseView, now: int): Option<int> {
    FirstExecution(Decide(arm, view, now).proposals)
  }

  /** An unnamed rail and the empty name are scheduled alike. */
  lemma UnnamedRail(cal: ComplianceCalendar, now: int, day: int)
    ensures SlotFor(cal, now, day, Some("")) == SlotFor(cal, now, day, None)
  {
    assert cal.PdnLeadFor(Some("")) == cal.PdnLeadFor(None);
    assert forall slot: int :: cal.CheckAttempt(now, slot, 0, Some("")) == cal.CheckAttempt(now, slot, 0, None);
  }

  lemma SlotForRail(cal: ComplianceCalendar, now: int, day: int, snap: Snapshot)
    ensures SlotFor(cal, now, day, Some(RailOf(snap))) == SlotFor(cal, now, day, snap.rail)
    ensures cal.PdnLeadFor(Some(RailOf(snap))) == cal.PdnLeadFor(snap.rail)
  {
    if snap.rail.None? {
      UnnamedRail(cal, now, day);
    }
  }

  /** A plan to schedule says what it depends on: the class, the budget and the pending attempt. */
  predicate WouldSchedule(arm: ArmC, view: CaseView, c: Classifiers.Classification) {
    && view.outcome == StillOpen && !arm.rails.AdjustsCell(view, c.failureClass)
    && Lookup(c.failureClass, c.band).spendsExecution
    && arm.counter.ExecutionsUsed(view.attemptsUsed, view.contactsUsed) < arm.calendar.attemptCap
    && !view.attemptPending
  }

  lemma SchedulingMeans(arm: ArmC, view: CaseView, now: int)
    requires Decide(arm, view, now).action == ScheduleAt
    ensures WouldSchedule(arm, view, Classifiers.Classify(arm.table, arm.costs, view.observed))
  {
  }

  lemma SlotOfSchedule(arm: ArmC, view: CaseView, now: int, c: Classifiers.Classification)
    requires WouldSchedule(arm, view, c)
    ensures FirstExecution(DecideOn(arm, view, now, c).proposals)
            == SlotFor(arm.calendar, now, TargetDay(arm, now, c), Some(view.rail))
  {
  }

  /** Having decided to schedule at one moment, the arm names a slot at any other. */
  lemma SchedulingNamesASlot(arm: ArmC, view: CaseView, decided: int, asked: int)
    requires WellShaped(arm.calendar) && arm.calendar.PdnLeadFor(Some(view.rail)) >= 0
    requires Decide(arm, view, decided).action == ScheduleAt
    ensures arm.counter.ExecutionsUsed(view.attemptsUsed, view.contactsUsed) < arm.calendar.attemptCap
    ensures exists day :: ExecutionSlot(arm, view, asked) == SlotFor(arm.calendar, asked, day, Some(view.rail))
                          && ExecutionSlot(arm, view, asked).Some?
  {
    var c := Classifiers.Classify(arm.table, arm.costs, view.observed);
    var day := TargetDay(arm, asked, c);
    SchedulingMeans(arm, view, decided);
    SlotOfSchedule(arm, view, asked, c);
    assert SlotFor(arm.calendar, asked, day, Some(view.rail)).Some? by {
      CompliantSlotExists(arm.calendar, asked, day, Some(view.rail));
    }
  }

  /** The world in which the allocator decides for the worker: one calendar and one counter for arm and
      guard, a live order, an unresolved payment, and a guard that allows a contact at all. */
  ghost predicate Wired(arm: ArmC, g: Guard, snap: Snapshot, o: Oracle) {
    && arm.calendar == g.calendar && arm.counter == g.counter && WellShaped(arm.calendar)
    && arm.calendar.PdnLeadFor(snap.rail) >= 0
    && !snap.status.IsResolved()
    && snap.orderId.Some? && snap.orderId.value != ""
    && (snap.orderExpiresAt.Some? ==>
          o.decidedAt < snap.orderExpiresAt.value && (o.slot.Some? ==> o.slot.value < snap.orderExpiresAt.value))
    && g.contactBudget > 0
  }

  /** The guard's clock reads no more than four minutes later than the arm's when it named the slot, or
      fourteen when the rail's lead is 25 hours or more. */
  predicate SoonEnough(cal: ComplianceCalendar, rail: Option<string>, asked: int, decidedAt: int) {
    || decidedAt <= asked + 4 * MINUTE
    || (decidedAt <= asked + 14 * MINUTE && cal.PdnLeadFor(rail) >= 25 && cal.pdnCutoff < DAY)
  }

  /** The worker's guard never refuses the allocator: whatever it decides, and whenever it was asked for
      its slot, admission is either not needed or granted. */
  lemma WorkerGuardAdmitsAllocator(arm: ArmC, g: Guard, cfg: Config, snap: Snapshot, view: CaseView, n: nat,
                                   decided: int, asked: int, o: Oracle)
    requires Wired(arm, g, snap, o) && cfg.guard == Some(g)
    requires view == ViewFromSnapshot(view.caseId, view.failedAt, view.amount, view.observed, snap, n)
    requires o.action == Decide(arm, view, decided).action && o.slot == ExecutionSlot(arm, view, asked)
    requires SoonEnough(g.calendar, snap.rail, asked, o.decidedAt)
    ensures Admission(cfg, snap, n, o) == None || Admission(cfg, snap, n, o) == Some(None)
  {
    if ObligationKind(o.action) == Some(Execution) {
      SlotForRail(g.calendar, asked, 0, snap);
      SchedulingNamesASlot(arm, view, decided, asked);
      var day :| o.slot == SlotFor(arm.calendar, asked, day, Some(view.rail)) && o.slot.Some?;
      SlotForRail(g.calendar, asked, day, snap);
      var r := GuardRequest(Execution, snap, n, o);
      SlotPassesGuardLater(g, asked, day, r);
    }
  }
}
