/** Turning a target day into a compliant timestamp (allocator/scheduling.py). */
module Scheduling {
  import opened Models
  import opened Calendar
  import opened Guards

  const PDN_MARGIN_MINUTES := 15

  function EarliestPermitted(cal: ComplianceCalendar, now: int, rail: Option<string>): int {
    now + cal.PdnLeadFor(rail) * HOUR + PDN_MARGIN_MINUTES * MINUTE
  }

  /** Half past midnight on a day, where every search over a day begins. */
  function DayStart(day: int): int {
    Midnight(day) + 30 * MINUTE
  }

  function Floor(cal: ComplianceCalendar, now: int, targetDay: int, rail: Option<string>): int {
    var earliest := EarliestPermitted(cal, now, rail);
    if DayStart(targetDay) > earliest then DayStart(targetDay) else earliest
  }

  function FirstSlot(cal: ComplianceCalendar, now: int, targetDay: int, rail: Option<string>): Option<int> {
    cal.NextSlot(Floor(cal, now, targetDay, rail))
  }

  /** Where the search goes from a slot that is past the UPI completion deadline. */
  function Rollover(cal: ComplianceCalendar, slot: int): Option<int> {
    cal.NextSlot(DayStart(Date(slot) + 1))
  }

  predicate PastDeadline(cal: ComplianceCalendar, now: int, rail: Option<string>, slot: Option<int>) {
    slot.Some? && cal.CheckAttempt(now, slot.value, 0, rail) == Some(PastUpiCompletionDeadline)
  }

  /** The first slot of a morning is itself before the UPI deadline (or there is none). */
  predicate MorningIsInTime(cal: ComplianceCalendar) {
    var morning := cal.NextSlot(DayStart(0));
    morning.Some? ==> !cal.PastUpiDeadline(morning.value)
  }

  /** The answer once the first slot is known not to roll over for ever. */
  function Judge(cal: ComplianceCalendar, now: int, rail: Option<string>, slot: Option<int>): Option<int> {
    if slot.Some? && cal.CheckAttempt(now, slot.value, 0, rail).None? then slot else None
  }

  function SlotFor(cal: ComplianceCalendar, now: int, targetDay: int, rail: Option<string>): Option<int> {
    var first := FirstSlot(cal, now, targetDay, rail);
    Judge(cal, now, rail, if PastDeadline(cal, now, rail, first) then Rollover(cal, first.value) else first)
  }

  /** The search of the allocator. The precondition is exactly that its loop stops (see
      LoopStopsIff): a calendar whose mornings are already past the UPI deadline rolls over for ever. */
  method CompliantSlot(cal: ComplianceCalendar, now: int, targetDay: int, rail: Option<string>)
    returns (result: Option<int>)
    requires PastDeadline(cal, now, rail, FirstSlot(cal, now, targetDay, rail)) ==> MorningIsInTime(cal)
    ensures result == SlotFor(cal, now, targetDay, rail)
  {
    var floor := Floor(cal, now, targetDay, rail);
    var slot := cal.NextCompliantSlot(floor);
    ghost var first, rolled := slot, false;
    while slot.Some?
      invariant !rolled ==> slot == first
      invariant rolled ==> PastDeadline(cal, now, rail, first) && slot == Rollover(cal, first.value)
      invariant rolled ==> !PastDeadline(cal, now, rail, slot)
      decreases !rolled
    {
      var violation := cal.CheckAttempt(now, slot.value, 0, rail);
      if violation.None? {
        return slot;
      }
      if violation != Some(PastUpiCompletionDeadline) {
        return None;
      }
      OneRolloverSuffices(cal, now, rail, slot.value);
      slot := cal.NextCompliantSlot(DayStart(Date(slot.value) + 1));
      rolled := true;
    }
    return None;
  }

  // ------------------------------------------------------------ when the loop stops --

  lemma OneRolloverSuffices(cal: ComplianceCalendar, now: int, rail: Option<string>, slot: int)
    requires MorningIsInTime(cal)
    ensures !PastDeadline(cal, now, rail, Rollover(cal, slot))
  {
    MorningsAreAlike(cal, Date(slot) + 1);
    if cal.NextSlot(DayStart(0)).Some? {
      MorningTimeOfDay(cal, Date(slot) + 1);
    }
  }

  /** Every morning's search finds the same time of day. */
  lemma MorningsAreAlike(cal: ComplianceCalendar, day: int)
    ensures var morning := cal.NextSlot(DayStart(0));
            cal.NextSlot(DayStart(day)) == if morning.Some? then Some(morning.value + day * DAY) else None
  {
    ShiftedSearch(cal, DayStart(0), day, 0);
    assert DayStart(day) == DayStart(0) + day * DAY;
  }

  lemma MorningTimeOfDay(cal: ComplianceCalendar, day: int)
    requires cal.NextSlot(DayStart(0)).Some?
    ensures var morning := cal.NextSlot(DayStart(0)).value;
            cal.PastUpiDeadline(morning + day * DAY) == cal.PastUpiDeadline(morning)
  {
    SameTimeOfDay(cal.NextSlot(DayStart(0)).value, day);
  }

  lemma {:induction false} ShiftedSearch(cal: ComplianceCalendar, t: int, day: int, k: nat)
    requires k <= SEARCH_STEPS
    ensures var found := cal.NextSlotFrom(t, k);
            cal.NextSlotFrom(t + day * DAY, k) == if found.Some? then Some(found.value + day * DAY) else None
    decreases SEARCH_STEPS - k
  {
    if k < SEARCH_STEPS {
      assert Grid(t + day * DAY, k) == Grid(t, k) + day * DAY;
      SameTimeOfDay(Grid(t, k), day);
      ShiftedSearch(cal, t, day, k + 1);
    }
  }

  /** The slot in hand after `n` turns of the loop that found a slot past the deadline. */
  function AfterRollovers(cal: ComplianceCalendar, slot: Option<int>, n: nat): Option<int>
    decreases n
  {
    if n == 0 || slot.None? then slot else AfterRollovers(cal, Rollover(cal, slot.value), n - 1)
  }

  /** Once a first slot is past the deadline, some later turn of the loop meets a slot that is not
      past the deadline (and so stops) if and only if mornings are in time. */
  lemma LoopStopsIff(cal: ComplianceCalendar, now: int, rail: Option<string>, first: int)
    requires PastDeadline(cal, now, rail, Some(first))
    ensures MorningIsInTime(cal) <==>
            exists n: nat :: !PastDeadline(cal, now, rail, AfterRollovers(cal, Some(first), n))
  {
    if MorningIsInTime(cal) {
      OneRolloverSuffices(cal, now, rail, first);
      assert AfterRollovers(cal, Some(first), 1) == Rollover(cal, first);
      assert !PastDeadline(cal, now, rail, AfterRollovers(cal, Some(first), 1));
    } else {
      forall n: nat
        ensures PastDeadline(cal, now, rail, AfterRollovers(cal, Some(first), n))
      {
        RollsOverForEver(cal, now, rail, first, n);
      }
    }
  }

  lemma {:induction false} RollsOverForEver(cal: ComplianceCalendar, now: int, rail: Option<string>, slot: int, n: nat)
    requires PastDeadline(cal, now, rail, Some(slot)) && !MorningIsInTime(cal)
    ensures PastDeadline(cal, now, rail, AfterRollovers(cal, Some(slot), n))
    decreases n
  {
    if n > 0 {
      var next := NextMorningIsLateToo(cal, now, rail, slot);
      RollsOverForEver(cal, now, rail, next, n - 1);
    }
  }

  lemma NextMorningIsLateToo(cal: ComplianceCalendar, now: int, rail: Option<string>, slot: int) returns (next: int)
    requires PastDeadline(cal, now, rail, Some(slot)) && !MorningIsInTime(cal)
    ensures Rollover(cal, slot) == Some(next)
    ensures PastDeadline(cal, now, rail, Some(next))
  {
    var day := Date(slot) + 1;
    MorningsAreAlike(cal, day);
    MorningTimeOfDay(cal, day);
    next := cal.NextSlot(DayStart(0)).value + day * DAY;
    SlotIsAtOrAfterTheMinute(cal, DayStart(day));
    assert next > slot > now;
  }

  /** A calendar the configuration accepts, whose only free time is past the shipped UPI deadline. */
  const LATE_MORNINGS := SHIPPED.(peakWindows := [(0, 22 * HOUR)])

  /** Under it no search for a UPI slot ever stops: every turn finds one more slot past the deadline. */
  lemma LateMorningsNeverStop(now: int, targetDay: int, n: nat)
    ensures var rail := Some("upi");
            PastDeadline(LATE_MORNINGS, now, rail,
                         AfterRollovers(LATE_MORNINGS, FirstSlot(LATE_MORNINGS, now, targetDay, rail), n))
    ensures !MorningIsInTime(LATE_MORNINGS)
  {
    var rail := Some("upi");
    LateSlot(DayStart(0));
    var floor := Floor(LATE_MORNINGS, now, targetDay, rail);
    LateSlot(floor);
    RollsOverForEver(LATE_MORNINGS, now, rail, LATE_MORNINGS.NextSlot(floor).value, n);
  }

  lemma LateFreeTime(t: int)
    ensures LATE_MORNINGS.IsPeak(t) <==> TimeOfDay(t) < 22 * HOUR
  {
    assert LATE_MORNINGS.peakWindows[0] == (0, 22 * HOUR);
  }

  lemma LateGapsAreWide()
    ensures LATE_MORNINGS.GapsAreWide()
  {
    forall m: int, j: int | LATE_MORNINGS.GapStarts(m) && 0 <= j < 15
      ensures !LATE_MORNINGS.IsPeak(Plus(m, j))
    {
      LateFreeTime(Plus(m, -1));
      LateFreeTime(m);
      LateFreeTime(Plus(m, j));
      SameDayLater(Plus(m, -1), (j + 1) * MINUTE);
    }
  }

  lemma LateSlot(t: int)
    ensures LATE_MORNINGS.NextSlot(t).Some?
    ensures var slot := LATE_MORNINGS.NextSlot(t).value;
            t - MINUTE < slot && !LATE_MORNINGS.IsPeak(slot) && LATE_MORNINGS.PastUpiDeadline(slot)
  {
    LateGapsAreWide();
    WholeMinute(22 * 60);
    LateFreeTime(22 * HOUR);
    SlotExists(LATE_MORNINGS, t, 22 * HOUR);
    SlotIsAtOrAfterTheMinute(LATE_MORNINGS, t);
    LateFreeTime(LATE_MORNINGS.NextSlot(t).value);
  }

  lemma SlotIsAtOrAfterTheMinute(cal: ComplianceCalendar, t: int)
    requires cal.NextSlot(t).Some?
    ensures var slot := cal.NextSlot(t).value;
            t - MINUTE < TruncateToMinute(t) <= slot && slot % MINUTE == 0 && !cal.IsPeak(slot)
  {
    NextSlotFromSpec(cal, t, 0);
    var k: nat :| cal.NextSlot(t).value == Grid(t, k);
    GridIsWhole(t, k);
  }

  lemma GridIsWhole(t: int, k: nat)
    ensures Grid(t, k) % MINUTE == 0 && t - MINUTE < TruncateToMinute(t) <= Grid(t, k)
  {
    WholeMinute(t / MINUTE + 15 * k);
    assert Grid(t, k) == (t / MINUTE + 15 * k) * MINUTE;
  }

  // --------------------------------------------------------- total and sound --

  /** The shape of a calendar the shipped one has: wide gaps, mornings free and in time, and a
      cutoff no earlier than 23:50. */
  ghost predicate WellShaped(cal: ComplianceCalendar) {
    && cal.GapsAreWide()
    && !cal.IsPeak(DayStart(0))
    && !cal.PastUpiDeadline(DayStart(0))
    && 23 * HOUR + 50 * MINUTE <= cal.pdnCutoff
    && cal.attemptCap > 0
  }

  lemma ShippedIsWellShaped()
    ensures WellShaped(SHIPPED)
  {
    ShippedGapsAreWide();
    ShippedPeak();
  }

  lemma DayStartIsWhole(day: int)
    ensures DayStart(day) % MINUTE == 0 && TruncateToMinute(DayStart(day)) == DayStart(day)
  {
    WholeMinute(day * 1440 + 30);
    assert DayStart(day) == (day * 1440 + 30) * MINUTE;
  }

  lemma MorningIsFree(cal: ComplianceCalendar, day: int)
    ensures cal.IsPeak(DayStart(day)) == cal.IsPeak(DayStart(0))
    ensures cal.PastUpiDeadline(DayStart(day)) == cal.PastUpiDeadline(DayStart(0))
  {
    SameTimeOfDay(DayStart(0), day);
    assert DayStart(day) == DayStart(0) + day * DAY;
  }

  lemma MorningSlot(cal: ComplianceCalendar, day: int)
    requires !cal.IsPeak(DayStart(0))
    ensures cal.NextSlot(DayStart(day)) == Some(DayStart(day))
  {
    MorningIsFree(cal, day);
    DayStartIsWhole(day);
    assert Grid(DayStart(day), 0) == DayStart(day);
  }

  /** What makes a slot good for a target: on or after it, past the margin, and legal for the rail. */
  ghost predicate GoodSlot(cal: ComplianceCalendar, now: int, targetDay: int, rail: Option<string>, slot: int) {
    && Floor(cal, now, targetDay, rail) - MINUTE < slot
    && DayStart(targetDay) <= slot
    && slot % MINUTE == 0
    && !cal.IsPeak(slot)
  }

  lemma FirstSlotIsGood(cal: ComplianceCalendar, now: int, targetDay: int, rail: Option<string>)
    requires WellShaped(cal)
    ensures FirstSlot(cal, now, targetDay, rail).Some?
    ensures GoodSlot(cal, now, targetDay, rail, FirstSlot(cal, now, targetDay, rail).value)
  {
    var floor := Floor(cal, now, targetDay, rail);
    DayStartIsWhole(0);
    SlotExists(cal, floor, DayStart(0));
    SlotIsAtOrAfterTheMinute(cal, floor);
    DayStartIsWhole(targetDay);
    TruncationKeepsBound(DayStart(targetDay), floor);
  }

  lemma TruncationKeepsBound(bound: int, t: int)
    requires bound % MINUTE == 0 && bound <= t
    ensures bound <= TruncateToMinute(t)
  {
  }

  lemma RolloverIsGood(cal: ComplianceCalendar, now: int, targetDay: int, rail: Option<string>, first: int)
    requires WellShaped(cal) && GoodSlot(cal, now, targetDay, rail, first)
    ensures Rollover(cal, first).Some?
    ensures var second := Rollover(cal, first).value;
            GoodSlot(cal, now, targetDay, rail, second) && !cal.PastUpiDeadline(second)
  {
    var day := Date(first) + 1;
    MorningSlot(cal, day);
    NextMorningIsLater(first);
    DayStartIsWhole(day);
    MorningIsFree(cal, day);
  }

  lemma NextMorningIsLater(t: int)
    ensures t < DayStart(Date(t) + 1)
  {
  }

  /** Under a well-shaped calendar a slot always exists, after at most one rollover; it is on or
      after the target day, respects the margin over the lead, and is legal for its rail. */
  lemma CompliantSlotExists(cal: ComplianceCalendar, now: int, targetDay: int, rail: Option<string>)
    requires WellShaped(cal) && cal.PdnLeadFor(rail) >= 0
    ensures MorningIsInTime(cal)
    ensures SlotFor(cal, now, targetDay, rail).Some?
    ensures var slot := SlotFor(cal, now, targetDay, rail).value;
            && GoodSlot(cal, now, targetDay, rail, slot)
            && (rail == Some("upi") ==> !cal.PastUpiDeadline(slot))
  {
    MorningSlot(cal, 0);
    FirstSlotIsGood(cal, now, targetDay, rail);
    var first := FirstSlot(cal, now, targetDay, rail).value;
    GoodSlotPasses(cal, now, targetDay, rail, first);
    if PastDeadline(cal, now, rail, Some(first)) {
      RolloverIsGood(cal, now, targetDay, rail, first);
      GoodSlotPasses(cal, now, targetDay, rail, Rollover(cal, first).value);
    }
  }

  /** A good slot can only be refused for the UPI deadline. */
  lemma GoodSlotPasses(cal: ComplianceCalendar, now: int, targetDay: int, rail: Option<string>, slot: int)
    requires WellShaped(cal) && cal.PdnLeadFor(rail) >= 0 && GoodSlot(cal, now, targetDay, rail, slot)
    ensures cal.CheckAttempt(now, slot, 0, rail) ==
            if rail == Some("upi") && cal.PastUpiDeadline(slot) then Some(PastUpiCompletionDeadline) else None
  {
    LeadIsMet(cal, now, rail, Floor(cal, now, targetDay, rail), slot);
  }

  lemma LeadIsMet(cal: ComplianceCalendar, now: int, rail: Option<string>, floor: int, slot: int)
    requires cal.PdnLeadFor(rail) >= 0 && 23 * HOUR + 50 * MINUTE <= cal.pdnCutoff
    requires EarliestPermitted(cal, now, rail) <= floor && floor - MINUTE < slot && slot % MINUTE == 0
    ensures now + 4 * MINUTE < cal.PdnDeadlineFor(slot, rail)
    ensures cal.PdnLeadFor(rail) >= 25 && cal.pdnCutoff < DAY ==> now + 14 * MINUTE < cal.PdnDeadlineFor(slot, rail)
    ensures now + 14 * MINUTE < slot
  {
    CutoffCostsTenMinutes(cal.PdnLeadFor(rail), cal.pdnCutoff, slot);
    if cal.PdnLeadFor(rail) >= 25 && cal.pdnCutoff < DAY {
      CutoffNeverBindsIff(cal.PdnLeadFor(rail), cal.pdnCutoff);
    }
  }

  /** The slot keeps passing the guard while the request travels: for 14 minutes with a lead of 25
      hours or more, for 4 minutes with any lead. */
  lemma SlotPassesGuardLater(g: Guard, now: int, targetDay: int, r: Request)
    requires WellShaped(g.calendar) && g.calendar.PdnLeadFor(r.rail) >= 0
    requires r.executeAt.Some? && r.executeAt == SlotFor(g.calendar, now, targetDay, r.rail)
    requires r.attemptPendingUntil.None? || r.attemptPendingUntil.value <= now
    requires r.decidedAt <= now + 4 * MINUTE
             || (r.decidedAt <= now + 14 * MINUTE && g.calendar.PdnLeadFor(r.rail) >= 25 && g.calendar.pdnCutoff < DAY)
    requires g.Used(r) < g.calendar.attemptCap
    ensures g.Execution(r).None?
  {
    CompliantSlotExists(g.calendar, now, targetDay, r.rail);
    LeadIsMet(g.calendar, now, r.rail, Floor(g.calendar, now, targetDay, r.rail), r.executeAt.value);
  }

  // ------------------------------------------------------------------ jitter --

  /** The spread of the governor: forward by 0..jitterMinutes minutes, picked by a digest of the key. */
  function Jitter(executeAt: int, digest: nat, jitterMinutes: nat): int {
    Plus(executeAt, digest % (jitterMinutes + 1))
  }

  /** The times of day barred for a rail: the peak windows, and for UPI what follows its deadline. */
  function BarredWindows(cal: ComplianceCalendar, rail: Option<string>): seq<(int, int)> {
    cal.peakWindows + if rail == Some("upi") && cal.upiDeadline.Some? then [(cal.upiDeadline.value, DAY)] else []
  }

  predicate Within(t: int, window: (int, int)) {
    window.0 <= TimeOfDay(t) < window.1
  }

  /** Every barred window is a stretch of one day, a minute long at the least. */
  predicate WindowsLastAMinute(cal: ComplianceCalendar, rail: Option<string>) {
    forall w :: w in BarredWindows(cal, rail) ==> 0 <= w.0 && w.0 + MINUTE <= w.1 <= DAY
  }

  /** No barred window starts after the slot and within `minutes` of it. */
  ghost predicate NoWindowStarts(cal: ComplianceCalendar, rail: Option<string>, slot: int, minutes: nat) {
    forall t, w :: slot < t <= Plus(slot, minutes) && w in BarredWindows(cal, rail) ==> TimeOfDay(t) != w.0
  }

  /** Whether the notification lead of a slot outlives a move of up to `minutes`: the deadline leaps back
      only where it enters a day whose cutoff falls in the first minute. */
  predicate LeadSurvives(lead: int, cutoff: int, slot: int, decidedAt: int, minutes: nat) {
    var day := Date(slot - lead * HOUR);
    || lead >= 48
    || Date(Plus(slot, minutes) - lead * HOUR) == day
    || decidedAt <= Midnight(day + 1) + cutoff - MINUTE
  }

  /** Whatever the key, jitter keeps a compliant slot compliant exactly when no peak window starts, and
      no UPI deadline falls, between the slot and the furthest that jitter moves it, and the lead
      survives, as it does under every cutoff but those in the first minute of the day. */
  lemma JitterCompliantIff(cal: ComplianceCalendar, decidedAt: int, slot: int, used: int, rail: Option<string>,
                           jitterMinutes: nat)
    requires WindowsLastAMinute(cal, rail) && cal.CheckAttempt(decidedAt, slot, used, rail).None?
    ensures (forall digest: nat :: cal.CheckAttempt(decidedAt, Jitter(slot, digest, jitterMinutes), used, rail).None?)
            <==> NoWindowStarts(cal, rail, slot, jitterMinutes)
                 && LeadSurvives(cal.PdnLeadFor(rail), cal.pdnCutoff, slot, decidedAt, jitterMinutes)
    ensures cal.pdnCutoff >= MINUTE - 1 ==>
              LeadSurvives(cal.PdnLeadFor(rail), cal.pdnCutoff, slot, decidedAt, jitterMinutes)
  {
    JitterReaches(slot, jitterMinutes, at => cal.CheckAttempt(decidedAt, at, used, rail).None?);
    LeadSurvivesIff(cal.PdnLeadFor(rail), cal.pdnCutoff, slot, decidedAt, jitterMinutes);
    if !NoWindowStarts(cal, rail, slot, jitterMinutes) {
      var k := BarredInReach(cal, rail, slot, jitterMinutes);
      LaterIsCompliantIff(cal, decidedAt, slot, used, rail, k);
    } else {
      forall k: nat | k <= jitterMinutes
        ensures cal.CheckAttempt(decidedAt, Plus(slot, k), used, rail).None? <==>
                decidedAt <= cal.PdnDeadlineFor(Plus(slot, k), rail)
      {
        StaysUnbarred(cal, decidedAt, slot, used, rail, jitterMinutes, k);
        LaterIsCompliantIff(cal, decidedAt, slot, used, rail, k);
      }
    }
  }

  lemma LeadSurvivesIff(lead: int, cutoff: int, slot: int, decidedAt: int, minutes: nat)
    requires decidedAt <= PdnDeadline(lead, cutoff, slot)
    ensures (forall k: nat :: k <= minutes ==> decidedAt <= PdnDeadline(lead, cutoff, Plus(slot, k)))
            <==> LeadSurvives(lead, cutoff, slot, decidedAt, minutes)
    ensures cutoff >= MINUTE - 1 ==> LeadSurvives(lead, cutoff, slot, decidedAt, minutes)
  {
    if LeadSurvives(lead, cutoff, slot, decidedAt, minutes) {
      forall k: nat | k <= minutes
        ensures decidedAt <= PdnDeadline(lead, cutoff, Plus(slot, k))
      {
        DeadlineHolds(lead, cutoff, slot, decidedAt, minutes, k);
      }
    } else {
      var k := DeadlineLeapsBack(lead, cutoff, slot, decidedAt, minutes);
    }
  }

  lemma DeadlineHolds(lead: int, cutoff: int, slot: int, decidedAt: int, minutes: nat, k: nat)
    requires decidedAt <= PdnDeadline(lead, cutoff, slot) && k <= minutes
    requires LeadSurvives(lead, cutoff, slot, decidedAt, minutes)
    ensures decidedAt <= PdnDeadline(lead, cutoff, Plus(slot, k))
  {
    var x, y, z := slot - lead * HOUR, Plus(slot, k) - lead * HOUR, Plus(slot, minutes) - lead * HOUR;
    assert x <= y <= z && Date(x) <= Date(y) <= Date(z) && Date(slot) <= Date(Plus(slot, k));
    assert lead >= 48 ==> Date(Plus(slot, k)) - Date(y) >= 2;
  }

  lemma DeadlineLeapsBack(lead: int, cutoff: int, slot: int, decidedAt: int, minutes: nat) returns (k: nat)
    requires decidedAt <= PdnDeadline(lead, cutoff, slot)
    requires !LeadSurvives(lead, cutoff, slot, decidedAt, minutes)
    ensures k <= minutes && decidedAt > PdnDeadline(lead, cutoff, Plus(slot, k))
    ensures cutoff < MINUTE - 1
  {
    var x := slot - lead * HOUR;
    var midnight := Midnight(Date(x) + 1);
    k := (midnight - x + MINUTE - 1) / MINUTE;
    var y := Plus(slot, k) - lead * HOUR;
    assert midnight <= y < midnight + MINUTE && Date(y) == Date(x) + 1;
    assert y <= Plus(slot, minutes) - lead * HOUR by {
      assert midnight <= Plus(slot, minutes) - lead * HOUR;
    }
    assert Date(Plus(slot, k)) - Date(y) <= 1;
  }

  /** Some digest picks each whole number of minutes up to the limit, and none picks more. */
  lemma JitterReaches(slot: int, jitterMinutes: nat, good: int -> bool)
    ensures (forall digest: nat :: good(Jitter(slot, digest, jitterMinutes))) <==>
            (forall k: nat :: k <= jitterMinutes ==> good(Plus(slot, k)))
  {
    forall k: nat | k <= jitterMinutes
      ensures Jitter(slot, k, jitterMinutes) == Plus(slot, k)
    {
      assert k % (jitterMinutes + 1) == k;
    }
    forall digest: nat
      ensures exists k: nat :: k <= jitterMinutes && Jitter(slot, digest, jitterMinutes) == Plus(slot, k)
    {
      assert Jitter(slot, digest, jitterMinutes) == Plus(slot, digest % (jitterMinutes + 1));
    }
  }

  lemma StaysUnbarred(cal: ComplianceCalendar, decidedAt: int, slot: int, used: int, rail: Option<string>,
                      jitterMinutes: nat, k: nat)
    requires WindowsLastAMinute(cal, rail) && k <= jitterMinutes
    requires cal.CheckAttempt(decidedAt, slot, used, rail).None?
    requires NoWindowStarts(cal, rail, slot, jitterMinutes)
    ensures !Barred(cal, rail, Plus(slot, k))
  {
    BarredIff(cal, rail, slot);
    if Barred(cal, rail, Plus(slot, k)) {
      var w :| w in BarredWindows(cal, rail) && Within(Plus(slot, k), w);
      EntersOnlyAtStart(slot, Plus(slot, k), w);
    }
  }

  lemma BarredInReach(cal: ComplianceCalendar, rail: Option<string>, slot: int, jitterMinutes: nat) returns (k: nat)
    requires WindowsLastAMinute(cal, rail) && !NoWindowStarts(cal, rail, slot, jitterMinutes)
    ensures k <= jitterMinutes && Barred(cal, rail, Plus(slot, k))
  {
    var t, w :| slot < t <= Plus(slot, jitterMinutes) && w in BarredWindows(cal, rail) && TimeOfDay(t) == w.0;
    k := MinuteInWindow(slot, jitterMinutes, t, w);
  }

  /** After a forward move only the barred windows and the notification lead matter. */
  lemma LaterIsCompliantIff(cal: ComplianceCalendar, decidedAt: int, slot: int, used: int, rail: Option<string>, k: nat)
    requires cal.CheckAttempt(decidedAt, slot, used, rail).None?
    ensures cal.CheckAttempt(decidedAt, Plus(slot, k), used, rail).None? <==>
            !Barred(cal, rail, Plus(slot, k)) && decidedAt <= cal.PdnDeadlineFor(Plus(slot, k), rail)
  {
    BarredIff(cal, rail, Plus(slot, k));
  }

  ghost predicate Barred(cal: ComplianceCalendar, rail: Option<string>, t: int) {
    exists w :: w in BarredWindows(cal, rail) && Within(t, w)
  }

  lemma BarredIff(cal: ComplianceCalendar, rail: Option<string>, t: int)
    ensures Barred(cal, rail, t) <==> cal.IsPeak(t) || (rail == Some("upi") && cal.PastUpiDeadline(t))
  {
    var windows := BarredWindows(cal, rail);
    if cal.IsPeak(t) {
      var i :| 0 <= i < |cal.peakWindows| && cal.peakWindows[i].0 <= TimeOfDay(t) < cal.peakWindows[i].1;
      assert windows[i] == cal.peakWindows[i] && Within(t, windows[i]);
    }
    if rail == Some("upi") && cal.PastUpiDeadline(t) {
      assert windows[|cal.peakWindows|] == (cal.upiDeadline.value, DAY) && Within(t, windows[|cal.peakWindows|]);
    }
    if Barred(cal, rail, t) && !cal.IsPeak(t) {
      var w :| w in windows && Within(t, w);
      assert w !in cal.peakWindows;
    }
  }

  lemma EntersOnlyAtStart(slot: int, at: int, w: (int, int))
    requires slot <= at && !Within(slot, w) && 0 <= w.0
    requires forall t :: slot < t <= at ==> TimeOfDay(t) != w.0
    ensures !Within(at, w)
  {
    var start := Midnight(Date(at)) + w.0;
    assert Within(at, w) ==> TimeOfDay(start) == w.0 && start <= at;
    if w.0 <= TimeOfDay(at) && start <= slot {
      assert Date(slot) == Date(at);
    }
  }

  lemma MinuteInWindow(slot: int, minutes: nat, t: int, w: (int, int)) returns (k: nat)
    requires slot < t <= Plus(slot, minutes)
    requires 0 <= w.0 && w.0 + MINUTE <= w.1 <= DAY && TimeOfDay(t) == w.0
    ensures k <= minutes && Within(Plus(slot, k), w)
  {
    k := (t - slot + MINUTE - 1) / MINUTE;
    assert t <= Plus(slot, k) < t + MINUTE;
    SameDayLater(t, Plus(slot, k) - t);
  }

  /** The shipped 45 minutes of jitter do walk a compliant 16:30 slot into the evening peak. */
  lemma JitterCanReachPeak(day: int, decidedAt: int)
    requires decidedAt <= Midnight(day) - 2 * DAY
    ensures var slot := Midnight(day) + 16 * HOUR + 30 * MINUTE;
            && SHIPPED.CheckAttempt(decidedAt, slot, 1, Some("card")).None?
            && SHIPPED.CheckAttempt(decidedAt, Jitter(slot, 45, 45), 1, Some("card")) == Some(PeakHourBarred)
  {
    var slot := Midnight(day) + 16 * HOUR + 30 * MINUTE;
    ShippedPeak();
    assert Date(slot) == day && Date(Plus(slot, 45)) == day;
    CutoffNeverBindsIff(36, SHIPPED.pdnCutoff);
  }

  // ------------------------------------------------------------- funding days --

  /** The first day at or after `start` that satisfies `funding`, or `start` when none is within reach. */
  method NextFundingDay(start: int, dayOfMonth: int -> int, allowed: set<int>, maxWaitDays: nat) returns (day: int)
    ensures start <= day <= start + maxWaitDays
    ensures dayOfMonth(day) in allowed ==> forall d :: start <= d < day ==> dayOfMonth(d) !in allowed
    ensures dayOfMonth(day) !in allowed ==>
              day == start && forall d :: start <= d <= start + maxWaitDays ==> dayOfMonth(d) !in allowed
    ensures day == FundingDay(start, dayOfMonth, allowed, maxWaitDays)
  {
    for offset := 0 to maxWaitDays + 1
      invariant forall d :: start <= d < start + offset ==> dayOfMonth(d) !in allowed
      invariant FundingDay(start, dayOfMonth, allowed, maxWaitDays) ==
                FundingDayFrom(start, dayOfMonth, allowed, maxWaitDays, offset)
    {
      if dayOfMonth(start + offset) in allowed {
        return start + offset;
      }
    }
    return start;
  }

  function FundingDay(start: int, dayOfMonth: int -> int, allowed: set<int>, maxWaitDays: nat): int {
    FundingDayFrom(start, dayOfMonth, allowed, maxWaitDays, 0)
  }

  function FundingDayFrom(start: int, dayOfMonth: int -> int, allowed: set<int>, maxWaitDays: nat, offset: nat): int
    requires offset <= maxWaitDays + 1
    decreases maxWaitDays + 1 - offset
  {
    if offset == maxWaitDays + 1 then start
    else if dayOfMonth(start + offset) in allowed then start + offset
    else FundingDayFrom(start, dayOfMonth, allowed, maxWaitDays, offset + 1)
  }
}
