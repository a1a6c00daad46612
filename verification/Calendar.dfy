/** The regulatory calendar (recovery/sim/calendar.py). An instant is a number of microseconds
    on the IST wall clock, so a day is a fixed length and the date is a quotient. */
module Calendar {
  import opened Models

  const MINUTE := 60_000_000
  const HOUR := 3_600_000_000
  const DAY := 86_400_000_000

  function Date(t: int): int {
    t / DAY
  }

  function Midnight(date: int): int {
    date * DAY
  }

  function TimeOfDay(t: int): int {
    t - Midnight(Date(t))
  }

  function TruncateToMinute(t: int): int {
    t / MINUTE * MINUTE
  }

  function Plus(t: int, minutes: int): int {
    t + minutes * MINUTE
  }

  datatype Violation =
    | AttemptCapExhausted
    | ExecuteAtNotInFuture
    | PeakHourBarred
    | PastUpiCompletionDeadline
    | PdnLeadTimeUnmet

  /** `debit` less the lead, tightened to one minute before the cutoff when the debit falls on
      the same or the next calendar day. */
  function PdnDeadline(leadHours: int, cutoff: int, debit: int): int {
    var deadline := debit - leadHours * HOUR;
    var cutoffDay := Date(deadline);
    var latest := Midnight(cutoffDay) + cutoff - MINUTE;
    if Date(debit) - cutoffDay <= 1 && latest < deadline then latest else deadline
  }

  /** The k-th quarter hour from `notBefore` cut to the minute. */
  function Grid(notBefore: int, k: nat): int {
    TruncateToMinute(notBefore) + k * 15 * MINUTE
  }

  const SEARCH_STEPS: nat := 2880

  datatype ComplianceCalendar = ComplianceCalendar(
    peakWindows: seq<(int, int)>,
    pdnLeadHours: nat,
    pdnCutoff: int,
    attemptCap: nat,
    pdnLeadByRail: map<string, int>,
    upiDeadline: Option<int>)
  {
    function PdnLeadFor(rail: Option<string>): int {
      var name := if rail.Some? then rail.value else "";
      if name in pdnLeadByRail then pdnLeadByRail[name] else pdnLeadHours
    }

    predicate PastUpiDeadline(t: int) {
      upiDeadline.Some? && upiDeadline.value <= TimeOfDay(t)
    }

    predicate IsPeak(t: int) {
      exists i :: 0 <= i < |peakWindows| && peakWindows[i].0 <= TimeOfDay(t) < peakWindows[i].1
    }

    function PdnDeadlineFor(debit: int, rail: Option<string>): int {
      PdnDeadline(PdnLeadFor(rail), pdnCutoff, debit)
    }

    function CheckAttempt(decidedAt: int, executeAt: int, attemptsUsed: int, rail: Option<string>): Option<Violation> {
      if attemptsUsed >= attemptCap then Some(AttemptCapExhausted)
      else if executeAt <= decidedAt then Some(ExecuteAtNotInFuture)
      else if IsPeak(executeAt) then Some(PeakHourBarred)
      else if rail == Some("upi") && PastUpiDeadline(executeAt) then Some(PastUpiCompletionDeadline)
      else if decidedAt > PdnDeadlineFor(executeAt, rail) then Some(PdnLeadTimeUnmet)
      else None
    }

    /** What the search returns once its first `k` grid points turned out to be peak. */
    function NextSlotFrom(notBefore: int, k: nat): Option<int>
      requires k <= SEARCH_STEPS
      decreases SEARCH_STEPS - k, notBefore, this
    {
      if k == SEARCH_STEPS then None
      else if !IsPeak(Grid(notBefore, k)) then Some(Grid(notBefore, k))
      else NextSlotFrom(notBefore, k + 1)
    }

    function NextSlot(notBefore: int): Option<int> {
      NextSlotFrom(notBefore, 0)
    }

    method NextCompliantSlot(notBefore: int) returns (slot: Option<int>)
      ensures slot == NextSlot(notBefore)
    {
      var moment := TruncateToMinute(notBefore);
      for k := 0 to SEARCH_STEPS
        invariant moment == Grid(notBefore, k)
        invariant NextSlot(notBefore) == NextSlotFrom(notBefore, k)
      {
        if !IsPeak(moment) {
          return Some(moment);
        }
        moment := moment + 15 * MINUTE;
      }
      return None;
    }

    ghost predicate GapStarts(t: int) {
      IsPeak(Plus(t, -1)) && !IsPeak(t)
    }

    /** Every stretch of non-peak time lasts at least a quarter of an hour. */
    ghost predicate GapsAreWide() {
      forall t: int, j: int :: GapStarts(t) && 0 <= j < 15 ==> !IsPeak(Plus(t, j))
    }
  }

  /** The calendar of config/default.yaml. */
  const SHIPPED := ComplianceCalendar(
    [(10 * HOUR, 13 * HOUR), (17 * HOUR, 21 * HOUR + 30 * MINUTE)],
    25,
    23 * HOUR + 50 * MINUTE,
    4,
    map["upi" := 25, "card" := 36, "emandate" := 25],
    Some(21 * HOUR))

  // ------------------------------------------------------------ the search --

  /** A found slot is the first non-peak point of the grid; an exhausted search saw only peak. */
  lemma {:induction false} NextSlotFromSpec(cal: ComplianceCalendar, t: int, k: nat)
    requires k <= SEARCH_STEPS
    ensures match cal.NextSlotFrom(t, k)
            case Some(s) => exists n: nat :: k <= n < SEARCH_STEPS && s == Grid(t, n) && !cal.IsPeak(s)
                                             && forall j: nat :: k <= j < n ==> cal.IsPeak(Grid(t, j))
            case None => forall j: nat :: k <= j < SEARCH_STEPS ==> cal.IsPeak(Grid(t, j))
    decreases SEARCH_STEPS - k
  {
    if k < SEARCH_STEPS {
      if cal.IsPeak(Grid(t, k)) {
        NextSlotFromSpec(cal, t, k + 1);
      } else {
        assert cal.NextSlotFrom(t, k) == Some(Grid(t, k));
      }
    }
  }

  lemma SameTimeOfDay(t: int, days: int)
    ensures TimeOfDay(t + days * DAY) == TimeOfDay(t)
  {
  }

  /** A grid repeats every 96 quarter hours. */
  lemma GridRepeats(cal: ComplianceCalendar, t: int, k: nat)
    ensures cal.IsPeak(Grid(t, k)) == cal.IsPeak(Grid(t, k % 96))
  {
    assert Grid(t, k) == Grid(t, k % 96) + (k / 96) * DAY;
    SameTimeOfDay(Grid(t, k % 96), k / 96);
  }

  /** The two-day search fails exactly when no point of the grid is ever non-peak. */
  lemma NextSlotNoneIff(cal: ComplianceCalendar, t: int)
    ensures cal.NextSlot(t).None? <==> forall k: nat :: cal.IsPeak(Grid(t, k))
  {
    NextSlotFromSpec(cal, t, 0);
    if cal.NextSlot(t).None? {
      forall k: nat
        ensures cal.IsPeak(Grid(t, k))
      {
        GridRepeats(cal, t, k);
        assert k % 96 < SEARCH_STEPS;
      }
    }
  }

  /** `first` is the number of minutes from `base` to the first non-peak one. */
  ghost predicate FirstFree(cal: ComplianceCalendar, base: int, first: nat) {
    !cal.IsPeak(Plus(base, first)) && forall m :: 0 <= m < first ==> cal.IsPeak(Plus(base, m))
  }

  /** With wide gaps the slot is less than a quarter of an hour past the first non-peak minute:
      it is the first grid point at or after it. */
  lemma NextSlotNearFirstMinute(cal: ComplianceCalendar, t: int, n: nat, k: nat)
    requires cal.GapsAreWide() && FirstFree(cal, TruncateToMinute(t), n)
    requires n <= 15 * k < n + 15
    ensures cal.NextSlot(t) == Some(Plus(TruncateToMinute(t), 15 * k))
  {
    var base := TruncateToMinute(t);
    QuarterHourInGap(cal, base, n, k);
    forall i: nat | i < k
      ensures cal.IsPeak(Grid(t, i))
    {
      assert Grid(t, i) == Plus(base, 15 * i);
    }
    assert Grid(t, k) == Plus(base, 15 * k);
    NextSlotAtFirst(cal, t, k);
  }

  lemma QuarterHourInGap(cal: ComplianceCalendar, base: int, n: nat, k: nat)
    requires cal.GapsAreWide() && FirstFree(cal, base, n)
    requires n <= 15 * k < n + 15
    ensures !cal.IsPeak(Plus(base, 15 * k))
  {
    var m := Plus(base, n);
    if n > 0 {
      assert Plus(m, -1) == Plus(base, n - 1);
      assert cal.GapStarts(m);
    }
    assert Plus(base, 15 * k) == Plus(m, 15 * k - n);
  }

  lemma NextSlotAtFirst(cal: ComplianceCalendar, t: int, k: nat)
    requires !cal.IsPeak(Grid(t, k)) && forall i: nat :: i < k ==> cal.IsPeak(Grid(t, i))
    ensures cal.NextSlot(t) == Some(Grid(t, k))
  {
    NextSlotNoneIff(cal, t);
    NextSlotFromSpec(cal, t, 0);
    var found: nat :| found < SEARCH_STEPS && cal.NextSlot(t) == Some(Grid(t, found))
                      && !cal.IsPeak(Grid(t, found)) && forall i: nat :: i < found ==> cal.IsPeak(Grid(t, i));
    assert found == k;
  }

  /** From some non-peak minute and wide gaps: a slot exists from anywhere. */
  lemma SlotExists(cal: ComplianceCalendar, t: int, free: int)
    requires cal.GapsAreWide()
    requires free % MINUTE == 0 && !cal.IsPeak(free)
    ensures cal.NextSlot(t).Some?
  {
    var base := TruncateToMinute(t);
    var n, days := SplitMinutes(base, free);
    SameTimeOfDay(Plus(base, n), days);
    var first := FirstFreeMinute(cal, base, n);
    NextSlotNearFirstMinute(cal, t, first, (first + 14) / 15);
  }

  lemma SplitMinutes(base: int, free: int) returns (n: nat, days: int)
    requires base % MINUTE == 0 && free % MINUTE == 0
    ensures free == Plus(base, n) + days * DAY
  {
    var minutes := free / MINUTE - base / MINUTE;
    n, days := minutes % 1440, minutes / 1440;
  }

  lemma FirstFreeMinute(cal: ComplianceCalendar, base: int, n: nat) returns (first: nat)
    requires !cal.IsPeak(Plus(base, n))
    ensures FirstFree(cal, base, first)
    decreases n
  {
    if m: nat :| m < n && !cal.IsPeak(Plus(base, m)) {
      first := FirstFreeMinute(cal, base, m);
    } else {
      first := n;
    }
  }

  /** `s` is the first non-peak whole minute at or after `t`. */
  ghost predicate FirstMinute(cal: ComplianceCalendar, t: int, s: int) {
    && t <= s && s % MINUTE == 0 && !cal.IsPeak(s)
    && forall n: int :: t <= n * MINUTE < s ==> cal.IsPeak(n * MINUTE)
  }

  /** What the search is documented to return: the first non-peak minute at or after `t`, or nothing
      when every minute is peak. */
  ghost predicate AsDocumented(cal: ComplianceCalendar, t: int) {
    match cal.NextSlot(t)
    case Some(s) => FirstMinute(cal, t, s)
    case None => forall n: int :: t <= n * MINUTE ==> cal.IsPeak(n * MINUTE)
  }

  /** The search steps by quarter hours from the minute `t` falls in, so it answers as documented
      exactly when the first non-peak minute from there is a whole number of quarter hours away, and
      is not that very minute, already under way. */
  lemma AsDocumentedIff(cal: ComplianceCalendar, t: int)
    ensures AsDocumented(cal, t) <==>
            forall n: nat :: FirstFree(cal, TruncateToMinute(t), n) ==> n % 15 == 0 && (n > 0 || t % MINUTE == 0)
  {
    var base := TruncateToMinute(t);
    if n: nat :| FirstFree(cal, base, n) {
      OnlyFirstFree(cal, base, n);
      SlotAtFirstMinuteIff(cal, t, n);
      if n > 0 || t % MINUTE == 0 {
        FirstMinuteIsFirstFree(cal, t, n);
        assert !cal.IsPeak((t / MINUTE + n) * MINUTE);
      }
    } else {
      NextSlotNoneIff(cal, t);
      forall n: int | t <= n * MINUTE
        ensures cal.IsPeak(n * MINUTE)
      {
        AllPeakWithoutFirst(cal, t, n);
      }
      forall k: nat
        ensures cal.IsPeak(Grid(t, k))
      {
        assert Grid(t, k) == (base / MINUTE + 15 * k) * MINUTE;
        AllPeakWithoutFirst(cal, t, base / MINUTE + 15 * k);
      }
    }
  }

  lemma OnlyFirstFree(cal: ComplianceCalendar, base: int, n: nat)
    requires FirstFree(cal, base, n)
    ensures forall m: nat :: FirstFree(cal, base, m) ==> m == n
  {
  }

  /** The slot is the first non-peak minute from the truncated start exactly when that minute is on
      the grid; and it is before the asked moment exactly when the minute under way is free. */
  lemma SlotAtFirstMinuteIff(cal: ComplianceCalendar, t: int, n: nat)
    requires FirstFree(cal, TruncateToMinute(t), n)
    ensures cal.NextSlot(t) == Some(Plus(TruncateToMinute(t), n)) <==> n % 15 == 0
    ensures cal.NextSlot(t).Some? ==> Plus(TruncateToMinute(t), n) <= cal.NextSlot(t).value
    ensures cal.NextSlot(t).Some? ==> (cal.NextSlot(t).value >= t <==> n > 0 || t % MINUTE == 0)
  {
    var base := TruncateToMinute(t);
    if n % 15 == 0 {
      forall i: nat | i < n / 15
        ensures cal.IsPeak(Grid(t, i))
      {
        assert Grid(t, i) == Plus(base, 15 * i);
      }
      assert Grid(t, n / 15) == Plus(base, n);
      NextSlotAtFirst(cal, t, n / 15);
    }
    NextSlotFromSpec(cal, t, 0);
    if cal.NextSlot(t).Some? {
      var k: nat :| cal.NextSlot(t).value == Grid(t, k) && !cal.IsPeak(Grid(t, k));
      assert Grid(t, k) == Plus(base, 15 * k);
    }
  }

  lemma FirstMinuteIsFirstFree(cal: ComplianceCalendar, t: int, n: nat)
    requires FirstFree(cal, TruncateToMinute(t), n) && (n > 0 || t % MINUTE == 0)
    ensures Plus(TruncateToMinute(t), n) == (t / MINUTE + n) * MINUTE
    ensures forall s :: FirstMinute(cal, t, s) <==> s == Plus(TruncateToMinute(t), n)
  {
    var minute := t / MINUTE;
    var first := Plus(TruncateToMinute(t), n);
    assert first == (minute + n) * MINUTE;
    forall m: int | t <= m * MINUTE < first
      ensures cal.IsPeak(m * MINUTE)
    {
      assert m * MINUTE == Plus(TruncateToMinute(t), m - minute);
    }
    WholeMinute(minute + n);
    assert FirstMinute(cal, t, first);
    forall s | FirstMinute(cal, t, s)
      ensures s == first
    {
      var m := s / MINUTE;
      assert s == m * MINUTE && (s < first ==> cal.IsPeak(m * MINUTE));
      assert first < s ==> cal.IsPeak((minute + n) * MINUTE);
    }
  }

  lemma WholeMinute(n: int)
    ensures (n * MINUTE) % MINUTE == 0
  {
  }

  lemma AllPeakWithoutFirst(cal: ComplianceCalendar, t: int, minute: int)
    requires forall n: nat :: !FirstFree(cal, TruncateToMinute(t), n)
    requires t / MINUTE <= minute
    ensures cal.IsPeak(minute * MINUTE)
  {
    var base := TruncateToMinute(t);
    assert minute * MINUTE == Plus(base, minute - t / MINUTE);
    if !cal.IsPeak(Plus(base, minute - t / MINUTE)) {
      var _ := FirstFreeMinute(cal, base, minute - t / MINUTE);
    }
  }

  /** One answer of the search is no later than another; no slot at all counts as latest. */
  predicate NoLater(a: Option<int>, b: Option<int>) {
    b.None? || (a.Some? && a.value <= b.value)
  }

  /** The search is monotone exactly when no stretch of free time starts at a whole minute, so that the
      whole minutes are all peak or all free. */
  lemma SearchMonotoneIff(cal: ComplianceCalendar)
    ensures (forall t: int, u: int :: t <= u ==> NoLater(cal.NextSlot(t), cal.NextSlot(u))) <==>
            forall m: int :: !cal.GapStarts(m * MINUTE)
  {
    if m: int :| cal.GapStarts(m * MINUTE) {
      GapStartTurnsBack(cal, m);
    } else {
      forall t: int, u: int | t <= u
        ensures NoLater(cal.NextSlot(t), cal.NextSlot(u))
      {
        WithoutGapStarts(cal, t, u);
      }
    }
  }

  /** Asked a minute before free time starts, the search misses its first quarter of an hour. */
  lemma GapStartTurnsBack(cal: ComplianceCalendar, m: int)
    requires cal.GapStarts(m * MINUTE)
    ensures !NoLater(cal.NextSlot((m - 1) * MINUTE), cal.NextSlot(m * MINUTE))
  {
    var early, late := (m - 1) * MINUTE, m * MINUTE;
    assert Plus(late, -1) == early;
    GridFromMinute(m, 0);
    NextSlotAtFirst(cal, late, 0);
    if cal.NextSlot(early).Some? {
      var k := SlotOnGrid(cal, early);
      GridFromMinute(m - 1, 0);
      GridFromMinute(m - 1, k);
      assert k > 0;
    }
  }

  lemma GridFromMinute(m: int, k: nat)
    ensures Grid(m * MINUTE, k) == (m + 15 * k) * MINUTE
  {
  }

  lemma SlotOnGrid(cal: ComplianceCalendar, t: int) returns (k: nat)
    requires cal.NextSlot(t).Some?
    ensures cal.NextSlot(t).value == Grid(t, k) && !cal.IsPeak(Grid(t, k))
  {
    NextSlotFromSpec(cal, t, 0);
    k :| cal.NextSlot(t).value == Grid(t, k) && !cal.IsPeak(Grid(t, k));
  }

  lemma {:induction false} PeakGoesOn(cal: ComplianceCalendar, m: int, n: nat)
    requires forall i: int :: !cal.GapStarts(i * MINUTE)
    requires cal.IsPeak(m * MINUTE)
    ensures cal.IsPeak((m + n) * MINUTE)
  {
    if n > 0 {
      PeakGoesOn(cal, m, n - 1);
      assert Plus((m + n) * MINUTE, -1) == (m + n - 1) * MINUTE;
      assert !cal.GapStarts((m + n) * MINUTE);
    }
  }

  /** Peak at one whole minute is then peak at all of them, the earlier ones by the next day's. */
  lemma PeakEverywhere(cal: ComplianceCalendar, m: int, i: int)
    requires forall j: int :: !cal.GapStarts(j * MINUTE)
    requires cal.IsPeak(m * MINUTE)
    ensures cal.IsPeak(i * MINUTE)
  {
    var days := if i < m then m - i else 0;
    PeakGoesOn(cal, m, i + 1440 * days - m);
    assert (i + 1440 * days) * MINUTE == i * MINUTE + days * DAY;
    SameTimeOfDay(i * MINUTE, days);
  }

  lemma WithoutGapStarts(cal: ComplianceCalendar, t: int, u: int)
    requires forall i: int :: !cal.GapStarts(i * MINUTE)
    requires t <= u
    ensures NoLater(cal.NextSlot(t), cal.NextSlot(u))
  {
    var m := t / MINUTE;
    assert Grid(t, 0) == m * MINUTE;
    if cal.IsPeak(m * MINUTE) {
      forall k: nat
        ensures cal.IsPeak(Grid(u, k))
      {
        assert Grid(u, k) == (u / MINUTE + 15 * k) * MINUTE;
        PeakEverywhere(cal, m, u / MINUTE + 15 * k);
      }
      NextSlotNoneIff(cal, u);
    } else {
      NextSlotAtFirst(cal, t, 0);
      NextSlotFromSpec(cal, u, 0);
    }
  }

  /** On the shipped calendar, asked `n` minutes before the morning peak ends, the slot is the next
      multiple of 15 minutes from then: 10:14 gives 13:14 though 13:00 is free, and 10:15 gives
      13:00. */
  lemma SlotInMorningPeak(n: nat, k: nat)
    requires n <= 180 && n <= 15 * k < n + 15
    ensures SHIPPED.NextSlot(13 * HOUR - n * MINUTE) == Some(13 * HOUR + (15 * k - n) * MINUTE)
  {
    ShippedGapsAreWide();
    MorningPeakIsPeak(n);
    NextSlotNearFirstMinute(SHIPPED, 13 * HOUR - n * MINUTE, n, k);
  }

  lemma MorningPeakIsPeak(n: nat)
    requires n <= 180
    ensures TruncateToMinute(13 * HOUR - n * MINUTE) == 13 * HOUR - n * MINUTE
    ensures FirstFree(SHIPPED, 13 * HOUR - n * MINUTE, n)
  {
    ShippedPeak();
    var base := 13 * HOUR - n * MINUTE;
    forall m | 0 <= m <= n
      ensures SHIPPED.IsPeak(Plus(base, m)) == (m < n)
    {
      assert TimeOfDay(Plus(base, m)) == 13 * HOUR - (n - m) * MINUTE;
    }
  }

  lemma ShippedPeak()
    ensures forall t :: SHIPPED.IsPeak(t) <==>
                        10 * HOUR <= TimeOfDay(t) < 13 * HOUR || 17 * HOUR <= TimeOfDay(t) < 21 * HOUR + 30 * MINUTE
  {
    assert SHIPPED.peakWindows[0] == (10 * HOUR, 13 * HOUR);
    assert SHIPPED.peakWindows[1] == (17 * HOUR, 21 * HOUR + 30 * MINUTE);
  }

  lemma ShippedGapsAreWide()
    ensures SHIPPED.GapsAreWide()
  {
    ShippedPeak();
    forall m: int, j: int | SHIPPED.GapStarts(m) && 0 <= j < 15
      ensures !SHIPPED.IsPeak(Plus(m, j))
    {
      SameDayLater(Plus(m, -1), MINUTE);
      SameDayLater(Plus(m, -1), (j + 1) * MINUTE);
    }
  }

  lemma SameDayLater(t: int, delta: nat)
    requires TimeOfDay(t) + delta < DAY
    ensures TimeOfDay(t + delta) == TimeOfDay(t) + delta
  {
  }

  // ------------------------------------------------- the notification deadline --

  /** The deadline never moves back as the debit moves forward, for every lead and debit,
      exactly when the cutoff is a full minute (less a microsecond) into the day. */
  lemma PdnMonotoneIff(cutoff: int)
    ensures (forall lead: int, d: int, e: int :: d <= e ==> PdnDeadline(lead, cutoff, d) <= PdnDeadline(lead, cutoff, e))
            <==> cutoff >= MINUTE - 1
  {
    if cutoff >= MINUTE - 1 {
      forall lead: int, d: int, e: int | d <= e
        ensures PdnDeadline(lead, cutoff, d) <= PdnDeadline(lead, cutoff, e)
      {
        PdnMonotone(lead, cutoff, d, e);
      }
    } else {
      // 47 hours before 23:00 is midnight, one calendar day earlier; a microsecond less is two.
      assert PdnDeadline(47, cutoff, 23 * HOUR - 1) == -DAY - 1;
      assert PdnDeadline(47, cutoff, 23 * HOUR) == -DAY + cutoff - MINUTE;
    }
  }

  lemma PdnMonotone(lead: int, cutoff: int, d: int, e: int)
    requires cutoff >= MINUTE - 1 && d <= e
    ensures PdnDeadline(lead, cutoff, d) <= PdnDeadline(lead, cutoff, e)
  {
    var x, y := d - lead * HOUR, e - lead * HOUR;
    assert x <= y && Date(x) <= Date(y) && Date(d) <= Date(e);
  }

  /** A longer lead never gives a later deadline, for every debit, under the same condition. */
  lemma PdnAntitoneIff(cutoff: int)
    ensures (forall short: int, long: int, d: int :: short <= long ==>
               PdnDeadline(long, cutoff, d) <= PdnDeadline(short, cutoff, d))
            <==> cutoff >= MINUTE - 1
  {
    if cutoff >= MINUTE - 1 {
      forall short: int, long: int, d: int | short <= long
        ensures PdnDeadline(long, cutoff, d) <= PdnDeadline(short, cutoff, d)
      {
        PdnAntitone(short, long, cutoff, d);
      }
    } else {
      // 25 hours before this debit is a day earlier than 24 hours before it.
      var debit := DAY + HOUR - 1;
      assert PdnDeadline(25, cutoff, debit) == -1;
      assert PdnDeadline(24, cutoff, debit) == cutoff - MINUTE;
    }
  }

  lemma PdnAntitone(short: int, long: int, cutoff: int, debit: int)
    requires cutoff >= MINUTE - 1 && short <= long
    ensures PdnDeadline(long, cutoff, debit) <= PdnDeadline(short, cutoff, debit)
  {
    var x, y := debit - long * HOUR, debit - short * HOUR;
    assert x <= y && Date(x) <= Date(y);
  }

  /** The last moment of a day that the cutoff leaves alone, or the moment before the day begins. */
  function LastBeforeCutoff(cutoff: int): int {
    if cutoff < MINUTE then -1 else cutoff - MINUTE
  }

  /** The cutoff rule changes no deadline exactly when the lead is long enough that a deadline
      one calendar day before its debit always falls before the cutoff. */
  lemma CutoffNeverBindsIff(lead: nat, cutoff: int)
    requires 0 <= cutoff < DAY
    ensures (forall d: int :: PdnDeadline(lead, cutoff, d) == d - lead * HOUR)
            <==> lead * HOUR >= 2 * DAY - 1 - LastBeforeCutoff(cutoff)
  {
    if lead * HOUR >= 2 * DAY - 1 - LastBeforeCutoff(cutoff) {
      forall d: int
        ensures PdnDeadline(lead, cutoff, d) == d - lead * HOUR
      {
        var x := d - lead * HOUR;
        assert d == Midnight(Date(d)) + TimeOfDay(d) && x == Midnight(Date(x)) + TimeOfDay(x);
      }
    } else if lead <= 24 {
      var d := DAY - 1 + lead * HOUR;
      assert Date(d) <= 1 && Date(DAY - 1) == 0;
      assert PdnDeadline(lead, cutoff, d) != d - lead * HOUR;
    } else {
      var d := 2 * DAY - 1;
      var x := d - lead * HOUR;
      assert Date(d) == 1 && Date(x) == 0;
      assert PdnDeadline(lead, cutoff, d) != x;
    }
  }

  /** The shipped 23:50 cutoff: it binds for some debit exactly when the lead is under 25 hours. */
  lemma ShippedCutoffNeverBindsIff(lead: nat)
    ensures (forall d: int :: PdnDeadline(lead, SHIPPED.pdnCutoff, d) == d - lead * HOUR) <==> lead >= 25
  {
    CutoffNeverBindsIff(lead, SHIPPED.pdnCutoff);
  }

  /** With a cutoff no earlier than 23:50, a deadline of whole minutes loses at most ten. */
  lemma CutoffCostsTenMinutes(lead: int, cutoff: int, debit: int)
    requires cutoff >= 23 * HOUR + 50 * MINUTE && debit % MINUTE == 0
    ensures PdnDeadline(lead, cutoff, debit) >= debit - lead * HOUR - 10 * MINUTE
  {
    var minutes := debit / MINUTE - lead * 60;
    assert debit - lead * HOUR == minutes * MINUTE;
    WholeMinuteOfDay(minutes);
  }

  lemma WholeMinuteOfDay(minutes: int)
    ensures TimeOfDay(minutes * MINUTE) <= DAY - MINUTE
  {
    var day, rest := minutes / 1440, minutes % 1440;
    assert minutes * MINUTE == Midnight(day) + rest * MINUTE;
  }
}
