/** Which slot the allocator's search answers: not only a legal one, but the first that its grid offers,
    read off the calendar and the two moments it may start from. */
module Slots {
  import opened Models
  import opened Calendar
  import opened Scheduling

  function Larger(a: int, b: int): int {
    if a < b then b else a
  }

  /** Half past midnight of the target day, or the lead and a quarter of an hour from now if that is later. */
  function SearchStart(lead: int, now: int, targetDay: int): int {
    Larger(targetDay * DAY + 30 * MINUTE, now + lead * HOUR + 15 * MINUTE)
  }

  /** Point `k` of the grid is the first that is not peak. */
  ghost predicate FirstOffPeak(cal: ComplianceCalendar, start: int, k: nat) {
    !cal.IsPeak(Grid(start, k)) && forall j: nat :: j < k ==> cal.IsPeak(Grid(start, j))
  }

  predicate RollsOver(cal: ComplianceCalendar, rail: Option<string>, t: int) {
    rail == Some("upi") && cal.upiDeadline.Some? && cal.upiDeadline.value <= TimeOfDay(t)
  }

  lemma FloorIsStart(cal: ComplianceCalendar, now: int, targetDay: int, rail: Option<string>)
    ensures Floor(cal, now, targetDay, rail) == SearchStart(cal.PdnLeadFor(rail), now, targetDay)
  {
  }

  lemma OffPeakExists(cal: ComplianceCalendar, start: int) returns (k: nat)
    requires WellShaped(cal)
    ensures FirstOffPeak(cal, start, k) && cal.NextSlot(start) == Some(Grid(start, k))
  {
    DayStartIsWhole(0);
    SlotExists(cal, start, DayStart(0));
    NextSlotFromSpec(cal, start, 0);
    k :| cal.NextSlot(start) == Some(Grid(start, k)) && !cal.IsPeak(Grid(start, k))
         && forall j: nat :: j < k ==> cal.IsPeak(Grid(start, j));
  }

  /** The slot is the first point of the grid that is off peak; when that is past the UPI deadline, it is
      half past midnight of the day after. */
  lemma SlotIsFirst(cal: ComplianceCalendar, now: int, targetDay: int, rail: Option<string>) returns (k: nat)
    requires WellShaped(cal) && cal.PdnLeadFor(rail) >= 0
    ensures var start := SearchStart(cal.PdnLeadFor(rail), now, targetDay);
            && FirstOffPeak(cal, start, k)
            && SlotFor(cal, now, targetDay, rail)
               == Some(if RollsOver(cal, rail, Grid(start, k)) then (Date(Grid(start, k)) + 1) * DAY + 30 * MINUTE
                       else Grid(start, k))
  {
    var start := SearchStart(cal.PdnLeadFor(rail), now, targetDay);
    FloorIsStart(cal, now, targetDay, rail);
    k := OffPeakExists(cal, start);
    FirstSlotIsGood(cal, now, targetDay, rail);
    GoodSlotPasses(cal, now, targetDay, rail, Grid(start, k));
    if RollsOver(cal, rail, Grid(start, k)) {
      MorningSlot(cal, Date(Grid(start, k)) + 1);
      RolloverIsGood(cal, now, targetDay, rail, Grid(start, k));
      GoodSlotPasses(cal, now, targetDay, rail, DayStart(Date(Grid(start, k)) + 1));
    }
  }

  /** No point of the grid before the slot is compliant, but for the first half hour of a day rolled
      over to. */
  lemma EarlierPointsFail(cal: ComplianceCalendar, now: int, targetDay: int, rail: Option<string>, j: nat)
    requires WellShaped(cal) && cal.PdnLeadFor(rail) >= 0
    ensures var start, slot := SearchStart(cal.PdnLeadFor(rail), now, targetDay), SlotFor(cal, now, targetDay, rail);
            && slot.Some?
            && (Grid(start, j) < slot.value ==>
                  || cal.CheckAttempt(now, Grid(start, j), 0, rail).Some?
                  || (slot.value == Date(slot.value) * DAY + 30 * MINUTE && Date(Grid(start, j)) == Date(slot.value)))
  {
    var start := SearchStart(cal.PdnLeadFor(rail), now, targetDay);
    var k := SlotIsFirst(cal, now, targetDay, rail);
    var g, t := Grid(start, k), Grid(start, j);
    BarredFails(cal, now, rail, t);
    if k <= j {
      GridGrows(start, k, j);
      if RollsOver(cal, rail, g) {
        DayAndTime(Date(g) + 1, 30 * MINUTE);
        EarlierThatDayFails(cal, now, rail, g, t);
      }
    }
  }

  lemma BarredFails(cal: ComplianceCalendar, now: int, rail: Option<string>, t: int)
    ensures cal.IsPeak(t) || RollsOver(cal, rail, t) ==> cal.CheckAttempt(now, t, 0, rail).Some?
  {
  }

  lemma EarlierThatDayFails(cal: ComplianceCalendar, now: int, rail: Option<string>, g: int, t: int)
    requires RollsOver(cal, rail, g) && g <= t
    ensures t < (Date(g) + 1) * DAY + 30 * MINUTE ==>
              cal.CheckAttempt(now, t, 0, rail).Some? || Date(t) == Date(g) + 1
  {
    BarredFails(cal, now, rail, t);
    if t < (Date(g) + 1) * DAY + 30 * MINUTE {
      LaterThatDay(cal, rail, g, t);
    }
  }

  lemma GridGrows(start: int, k: nat, j: nat)
    requires k <= j
    ensures Grid(start, k) <= Grid(start, j)
  {
  }

  /** What follows a moment past the deadline is past it too, till midnight. */
  lemma LaterThatDay(cal: ComplianceCalendar, rail: Option<string>, g: int, t: int)
    requires RollsOver(cal, rail, g) && g <= t < (Date(g) + 1) * DAY + 30 * MINUTE
    ensures RollsOver(cal, rail, t) || Date(t) == Date(g) + 1
  {
  }

  lemma DayAndTime(day: int, t: int)
    requires 0 <= t < DAY
    ensures Date(day * DAY + t) == day && TimeOfDay(day * DAY + t) == t
    ensures t % MINUTE == 0 ==> TruncateToMinute(day * DAY + t) == day * DAY + t
  {
    assert day * DAY + t == (day * 1440) * MINUTE + t;
  }

  /** "First compliant slot" is what the search answers, on its grid. */
  ghost predicate FirstCompliant(cal: ComplianceCalendar, now: int, targetDay: int, rail: Option<string>) {
    var slot := SlotFor(cal, now, targetDay, rail);
    slot.Some? && forall j: nat :: Grid(SearchStart(cal.PdnLeadFor(rail), now, targetDay), j) < slot.value ==>
      cal.CheckAttempt(now, Grid(SearchStart(cal.PdnLeadFor(rail), now, targetDay), j), 0, rail).Some?
  }

  /** That holds exactly when the search does not roll over, or what it then skips, the first half hour
      of the next day, is peak wherever the grid meets it. */
  lemma FirstCompliantIff(cal: ComplianceCalendar, now: int, targetDay: int, rail: Option<string>, k: nat)
    requires WellShaped(cal) && cal.PdnLeadFor(rail) >= 0
    requires FirstOffPeak(cal, SearchStart(cal.PdnLeadFor(rail), now, targetDay), k)
    ensures var start := SearchStart(cal.PdnLeadFor(rail), now, targetDay);
            var midnight := (Date(Grid(start, k)) + 1) * DAY;
            FirstCompliant(cal, now, targetDay, rail) <==>
            RollsOver(cal, rail, Grid(start, k)) ==>
              forall j: nat :: midnight <= Grid(start, j) < midnight + 30 * MINUTE ==> cal.IsPeak(Grid(start, j))
  {
    var start, slot := SearchStart(cal.PdnLeadFor(rail), now, targetDay), SlotFor(cal, now, targetDay, rail);
    var first := SlotIsFirst(cal, now, targetDay, rail);
    assert first == k;
    var midnight := (Date(Grid(start, k)) + 1) * DAY;
    forall j: nat | Grid(start, j) < slot.value
      ensures cal.CheckAttempt(now, Grid(start, j), 0, rail).Some? <==>
              !(RollsOver(cal, rail, Grid(start, k)) && midnight <= Grid(start, j)) || cal.IsPeak(Grid(start, j))
    {
      EarlierPointsFail(cal, now, targetDay, rail, j);
      if RollsOver(cal, rail, Grid(start, k)) && midnight <= Grid(start, j) {
        SkippedPointPasses(cal, now, targetDay, rail, k, j);
      }
    }
  }

  /** A skipped point is legal unless it is peak. */
  lemma SkippedPointPasses(cal: ComplianceCalendar, now: int, targetDay: int, rail: Option<string>, k: nat, j: nat)
    requires WellShaped(cal) && cal.PdnLeadFor(rail) >= 0
    requires var start := SearchStart(cal.PdnLeadFor(rail), now, targetDay);
             var midnight := (Date(Grid(start, k)) + 1) * DAY;
             midnight <= Grid(start, j) < midnight + 30 * MINUTE
    ensures var t := Grid(SearchStart(cal.PdnLeadFor(rail), now, targetDay), j);
            cal.CheckAttempt(now, t, 0, rail).None? <==> !cal.IsPeak(t)
  {
    var start := SearchStart(cal.PdnLeadFor(rail), now, targetDay);
    var t := Grid(start, j);
    if !cal.IsPeak(t) {
      FloorIsStart(cal, now, targetDay, rail);
      GridIsWhole(start, j);
      DayStartIsWhole(targetDay);
      TruncationKeepsBound(DayStart(targetDay), start);
      GoodSlotPasses(cal, now, targetDay, rail, t);
      assert TimeOfDay(t) < TimeOfDay(DayStart(0));
    }
  }

  /** Without rollover the slot is less than a quarter of an hour past the first minute off peak. */
  lemma SlotIsPrompt(cal: ComplianceCalendar, now: int, targetDay: int, rail: Option<string>, n: nat)
    requires WellShaped(cal) && cal.PdnLeadFor(rail) >= 0
    requires FirstFree(cal, TruncateToMinute(SearchStart(cal.PdnLeadFor(rail), now, targetDay)), n)
    ensures var first := Plus(TruncateToMinute(SearchStart(cal.PdnLeadFor(rail), now, targetDay)), n);
            var slot := SlotFor(cal, now, targetDay, rail);
            && slot.Some? && first <= slot.value
            && (slot.value < first + 15 * MINUTE ||
                exists g :: first <= g < first + 15 * MINUTE && RollsOver(cal, rail, g)
                            && slot.value == (Date(g) + 1) * DAY + 30 * MINUTE)
  {
    var start := SearchStart(cal.PdnLeadFor(rail), now, targetDay);
    var k := SlotIsFirst(cal, now, targetDay, rail);
    NextSlotNearFirstMinute(cal, start, n, (n + 14) / 15);
    NextSlotAtFirst(cal, start, k);
    var g := Grid(start, k);
    assert Plus(TruncateToMinute(start), n) <= g < Plus(TruncateToMinute(start), n) + 15 * MINUTE;
    NextMorningIsLater(g);
  }

  /** The shipped calendar, asked at three in the morning for a UPI slot the next day: 04:15 of it. */
  lemma ShippedSlot(day: int)
    ensures SlotFor(SHIPPED, day * DAY + 3 * HOUR, day + 1, Some("upi")) == Some((day + 1) * DAY + 4 * HOUR + 15 * MINUTE)
  {
    var start := (day + 1) * DAY + (4 * HOUR + 15 * MINUTE);
    ShippedIsWellShaped();
    ShippedPeak();
    DayAndTime(day + 1, 4 * HOUR + 15 * MINUTE);
    assert SearchStart(25, day * DAY + 3 * HOUR, day + 1) == start && Grid(start, 0) == start;
    var k := SlotIsFirst(SHIPPED, day * DAY + 3 * HOUR, day + 1, Some("upi"));
    assert k == 0;
  }

  /** Asked so that the search starts at 21:40 it rolls over to 00:30, though 00:10 is on its grid and legal. */
  lemma ShippedSearchSkips(day: int)
    ensures var now, rail := day * DAY + 20 * HOUR + 25 * MINUTE, Some("upi");
            && SlotFor(SHIPPED, now, day + 1, rail) == Some((day + 2) * DAY + 30 * MINUTE)
            && SHIPPED.CheckAttempt(now, (day + 2) * DAY + 10 * MINUTE, 0, rail).None?
            && Grid(SearchStart(25, now, day + 1), 10) == (day + 2) * DAY + 10 * MINUTE
            && !FirstCompliant(SHIPPED, now, day + 1, rail)
  {
    var now, rail := day * DAY + 20 * HOUR + 25 * MINUTE, Some("upi");
    var start := (day + 1) * DAY + (21 * HOUR + 40 * MINUTE);
    ShippedIsWellShaped();
    ShippedPeak();
    DayAndTime(day + 1, 21 * HOUR + 40 * MINUTE);
    DayAndTime(day + 2, 10 * MINUTE);
    assert SearchStart(25, now, day + 1) == start && Grid(start, 0) == start;
    assert Grid(start, 10) == (day + 2) * DAY + 10 * MINUTE;
    var k := SlotIsFirst(SHIPPED, now, day + 1, rail);
    assert k == 0;
    SkippedPointPasses(SHIPPED, now, day + 1, rail, 0, 10);
    FirstCompliantIff(SHIPPED, now, day + 1, rail, 0);
  }
}
