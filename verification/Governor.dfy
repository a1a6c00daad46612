/** The storm governor (recovery/governor.py): a per-issuer sliding-window limiter whose ceiling
    depends on what was observed of the issuer inside the window. */
module Governor {
  import opened Models

  datatype IssuerState = Healthy | Strained | Degraded

  datatype Stamped<+T> = Stamped(at: int, value: T)

  /** An observation carries whether the attempt failed; an admission carries nothing. */
  datatype IssuerWindow = IssuerWindow(observations: seq<Stamped<bool>>, admitted: seq<Stamped<()>>)

  const EMPTY_WINDOW := IssuerWindow([], [])

  datatype DowntimeNotice = DowntimeNotice(rail: string, instrument: string, severity: string, status: string)
  {
    predicate IsActive() {
      status == "started" || status == "scheduled"
    }

    function Key(): string {
      if instrument != "" then instrument else rail
    }
  }

  datatype Limits = Limits(
    window: nat,
    baseCeiling: int,
    strainedCeiling: int,
    degradedCeiling: int,
    minObservations: nat,
    strainedShare: real,
    degradedShare: real)
  {
    function Ceiling(state: IssuerState): int {
      match state
      case Healthy => baseCeiling
      case Strained => strainedCeiling
      case Degraded => degradedCeiling
    }

    /** What the configuration validator enforces. */
    predicate Tightening() {
      degradedCeiling <= strainedCeiling <= baseCeiling
    }
  }

  datatype Verdict = Verdict(admitted: bool, state: IssuerState, ceiling: int, admittedInWindow: int)

  datatype State = State(issuers: map<string, IssuerWindow>, downtime: map<string, DowntimeNotice>)
  {
    function Window(issuer: string): IssuerWindow {
      if issuer in issuers then issuers[issuer] else EMPTY_WINDOW
    }

    function DowntimeState(issuer: string): Option<IssuerState> {
      if issuer !in downtime then None
      else Some(if downtime[issuer].severity == "high" then Degraded else Strained)
    }
  }

  const INITIAL := State(map[], map[])

  // -------------------------------------------------- the calls as functions --

  /** Drop entries from the front while they are older than the cutoff. */
  function Trim<T>(s: seq<Stamped<T>>, cutoff: int): seq<Stamped<T>> {
    if s != [] && s[0].at < cutoff then Trim(s[1..], cutoff) else s
  }

  function TrimWindow(w: IssuerWindow, cutoff: int): IssuerWindow {
    IssuerWindow(Trim(w.observations, cutoff), Trim(w.admitted, cutoff))
  }

  function Failures(s: seq<Stamped<bool>>): nat {
    if s == [] then 0 else Failures(s[..|s| - 1]) + if s[|s| - 1].value then 1 else 0
  }

  /** The share of failures among the observations of a window, or None below the threshold. */
  function Share(l: Limits, observations: seq<Stamped<bool>>): Option<real>
    requires l.minObservations > 0
  {
    if |observations| < l.minObservations then None
    else Some(Failures(observations) as real / |observations| as real)
  }

  function Judge(l: Limits, declared: Option<IssuerState>, share: Option<real>): IssuerState {
    if declared.Some? then declared.value
    else if share.None? then Healthy
    else if share.value >= l.degradedShare then Degraded
    else if share.value >= l.strainedShare then Strained
    else Healthy
  }

  function FailureShare(l: Limits, s: State, issuer: string, now: int): Option<real>
    requires l.minObservations > 0
  {
    Share(l, Trim(s.Window(issuer).observations, now - l.window))
  }

  function StateOf(l: Limits, s: State, issuer: string, now: int): IssuerState
    requires l.minObservations > 0
  {
    Judge(l, s.DowntimeState(issuer), FailureShare(l, s, issuer, now))
  }

  function Observed(l: Limits, s: State, issuer: string, at: int, failed: bool): State {
    var w := s.Window(issuer);
    var grown := w.(observations := w.observations + [Stamped(at, failed)]);
    s.(issuers := s.issuers[issuer := TrimWindow(grown, at - l.window)])
  }

  function DowntimeObserved(s: State, notice: DowntimeNotice): State {
    if notice.Key() == "" then s
    else if notice.IsActive() then s.(downtime := s.downtime[notice.Key() := notice])
    else s.(downtime := s.downtime - {notice.Key()})
  }

  /** Reading a share trims the window it reads. */
  function ShareRead(l: Limits, s: State, issuer: string, now: int): State {
    if issuer in s.issuers then s.(issuers := s.issuers[issuer := TrimWindow(s.issuers[issuer], now - l.window)]) else s
  }

  /** Asking for the state of an issuer trims only when no downtime notice answers first. */
  function StateRead(l: Limits, s: State, issuer: string, now: int): State {
    if s.DowntimeState(issuer).Some? then s else ShareRead(l, s, issuer, now)
  }

  function Decide(l: Limits, s: State, issuer: string, now: int): Verdict
    requires l.minObservations > 0
  {
    var state := StateOf(l, s, issuer, now);
    var used := |Trim(s.Window(issuer).admitted, now - l.window)|;
    if used >= l.Ceiling(state) then Verdict(false, state, l.Ceiling(state), used)
    else Verdict(true, state, l.Ceiling(state), used + 1)
  }

  function Admitted(l: Limits, s: State, issuer: string, now: int, record: bool): State
    requires l.minObservations > 0
  {
    var w := TrimWindow(s.Window(issuer), now - l.window);
    var entry := if record && Decide(l, s, issuer, now).admitted then [Stamped(now, ())] else [];
    s.(issuers := s.issuers[issuer := w.(admitted := w.admitted + entry)])
  }

  // ------------------------------------------------------------- the class --

  class StormGovernor {
    const limits: Limits
    var issuers: map<string, IssuerWindow>
    var downtime: map<string, DowntimeNotice>

    function View(): State
      reads this
    {
      State(issuers, downtime)
    }

    constructor (limits: Limits)
      ensures this.limits == limits && View() == INITIAL
    {
      this.limits := limits;
      issuers, downtime := map[], map[];
    }

    method TrimIssuer(issuer: string, cutoff: int)
      requires issuer in issuers
      modifies this`issuers
      ensures issuers == old(issuers)[issuer := TrimWindow(old(issuers)[issuer], cutoff)]
    {
      var observations, admitted := issuers[issuer].observations, issuers[issuer].admitted;
      while observations != [] && observations[0].at < cutoff
        invariant Trim(observations, cutoff) == Trim(issuers[issuer].observations, cutoff)
        decreases |observations|
      {
        observations := observations[1..];
      }
      while admitted != [] && admitted[0].at < cutoff
        invariant Trim(admitted, cutoff) == Trim(issuers[issuer].admitted, cutoff)
        decreases |admitted|
      {
        admitted := admitted[1..];
      }
      issuers := issuers[issuer := IssuerWindow(observations, admitted)];
    }

    method Observe(issuer: string, at: int, failed: bool)
      modifies this`issuers
      ensures View() == Observed(limits, old(View()), issuer, at, failed)
    {
      var w := if issuer in issuers then issuers[issuer] else EMPTY_WINDOW;
      issuers := issuers[issuer := w.(observations := w.observations + [Stamped(at, failed)])];
      TrimIssuer(issuer, at - limits.window);
    }

    method ObserveDowntime(notice: DowntimeNotice)
      modifies this`downtime
      ensures View() == DowntimeObserved(old(View()), notice)
    {
      var key := notice.Key();
      if key == "" {
        return;
      }
      if notice.IsActive() {
        downtime := downtime[key := notice];
      } else {
        downtime := downtime - {key};
      }
    }

    method ReadFailureShare(issuer: string, now: int) returns (share: Option<real>)
      requires limits.minObservations > 0
      modifies this`issuers
      ensures share == FailureShare(limits, old(View()), issuer, now)
      ensures View() == ShareRead(limits, old(View()), issuer, now)
    {
      if issuer !in issuers {
        return None;
      }
      TrimIssuer(issuer, now - limits.window);
      var observations := issuers[issuer].observations;
      if |observations| < limits.minObservations {
        return None;
      }
      var failures := 0;
      for i := 0 to |observations|
        invariant failures == Failures(observations[..i])
      {
        assert observations[..i + 1][..i] == observations[..i];
        if observations[i].value {
          failures := failures + 1;
        }
      }
      assert observations[..|observations|] == observations;
      return Some(failures as real / |observations| as real);
    }

    method ReadState(issuer: string, now: int) returns (state: IssuerState)
      requires limits.minObservations > 0
      modifies this`issuers
      ensures state == StateOf(limits, old(View()), issuer, now)
      ensures View() == StateRead(limits, old(View()), issuer, now)
    {
      var declared := View().DowntimeState(issuer);
      if declared.Some? {
        return declared.value;
      }
      var share := ReadFailureShare(issuer, now);
      return Judge(limits, None, share);
    }

    method CeilingFor(issuer: string, now: int) returns (ceiling: int)
      requires limits.minObservations > 0
      modifies this`issuers
      ensures ceiling == limits.Ceiling(StateOf(limits, old(View()), issuer, now))
      ensures View() == StateRead(limits, old(View()), issuer, now)
    {
      var state := ReadState(issuer, now);
      ceiling := limits.Ceiling(state);
    }

    method Admit(issuer: string, now: int, record: bool) returns (verdict: Verdict)
      requires limits.minObservations > 0
      modifies this`issuers
      ensures verdict == Decide(limits, old(View()), issuer, now)
      ensures View() == Admitted(limits, old(View()), issuer, now, record)
    {
      ghost var before := View();
      if issuer !in issuers {
        issuers := issuers[issuer := EMPTY_WINDOW];
      }
      TrimIssuer(issuer, now - limits.window);
      assert View() == Swept(limits, before, issuer, now);
      SweptAnswersAlike(limits, before, issuer, now);
      var state := ReadState(issuer, now);
      var ceiling := CeilingFor(issuer, now);
      var w := issuers[issuer];
      var used := |w.admitted|;
      if used >= ceiling {
        assert w.(admitted := w.admitted + []) == w;
        return Verdict(false, state, ceiling, used);
      }
      if record {
        issuers := issuers[issuer := w.(admitted := w.admitted + [Stamped(now, ())])];
      } else {
        assert w.(admitted := w.admitted + []) == w;
      }
      return Verdict(true, state, ceiling, used + 1);
    }
  }

  /** The state once the window of an issuer exists and has been trimmed at `now`. */
  function Swept(l: Limits, s: State, issuer: string, now: int): State {
    s.(issuers := s.issuers[issuer := TrimWindow(s.Window(issuer), now - l.window)])
  }

  lemma SweptAnswersAlike(l: Limits, s: State, issuer: string, now: int)
    requires l.minObservations > 0
    ensures StateOf(l, Swept(l, s, issuer, now), issuer, now) == StateOf(l, s, issuer, now)
    ensures StateRead(l, Swept(l, s, issuer, now), issuer, now) == Swept(l, s, issuer, now)
  {
    var w := s.Window(issuer);
    TrimTwice(w.observations, now - l.window, now - l.window);
    TrimTwice(w.admitted, now - l.window, now - l.window);
    var swept := Swept(l, s, issuer, now);
    assert swept.issuers[issuer := swept.issuers[issuer]] == swept.issuers;
  }

  lemma {:induction false} TrimTwice<T>(s: seq<Stamped<T>>, c: int, d: int)
    requires c <= d
    ensures Trim(Trim(s, c), d) == Trim(s, d)
  {
    if s != [] && s[0].at < c {
      TrimTwice(s[1..], c, d);
    }
  }

  // ------------------------------------------------- runs and their histories --

  datatype Call =
    | Observe(issuer: string, at: int, failed: bool)
    | Downtime(notice: DowntimeNotice)
    | Admit(issuer: string, at: int, record: bool)
    | Read(issuer: string, at: int)

  function Apply(l: Limits, s: State, c: Call): State
    requires l.minObservations > 0
  {
    match c
    case Observe(issuer, at, failed) => Observed(l, s, issuer, at, failed)
    case Downtime(notice) => DowntimeObserved(s, notice)
    case Admit(issuer, at, record) => Admitted(l, s, issuer, at, record)
    case Read(issuer, at) => StateRead(l, s, issuer, at)
  }

  function Run(l: Limits, calls: seq<Call>): State
    requires l.minObservations > 0
  {
    if calls == [] then INITIAL else Apply(l, Run(l, calls[..|calls| - 1]), calls[|calls| - 1])
  }

  /** The clock readings never go back, and none is later than `now`. */
  ghost predicate Clocked(calls: seq<Call>, now: int) {
    calls == [] ||
    var last := calls[|calls| - 1];
    if last.Downtime? then Clocked(calls[..|calls| - 1], now)
    else last.at <= now && Clocked(calls[..|calls| - 1], last.at)
  }

  function NewObservation(c: Call, issuer: string): seq<Stamped<bool>> {
    if c.Observe? && c.issuer == issuer then [Stamped(c.at, c.failed)] else []
  }

  function NewAdmission(l: Limits, s: State, c: Call, issuer: string): seq<Stamped<()>>
    requires l.minObservations > 0
  {
    if c.Admit? && c.issuer == issuer && c.record && Decide(l, s, issuer, c.at).admitted
    then [Stamped(c.at, ())] else []
  }

  /** Everything ever observed of an issuer. */
  function Observations(calls: seq<Call>, issuer: string): seq<Stamped<bool>> {
    if calls == [] then []
    else Observations(calls[..|calls| - 1], issuer) + NewObservation(calls[|calls| - 1], issuer)
  }

  /** Every admission ever recorded for an issuer. */
  function Admissions(l: Limits, calls: seq<Call>, issuer: string): seq<Stamped<()>>
    requires l.minObservations > 0
  {
    if calls == [] then [] else
    var prefix, last := calls[..|calls| - 1], calls[|calls| - 1];
    Admissions(l, prefix, issuer) + NewAdmission(l, Run(l, prefix), last, issuer)
  }

  /** The entries of a history from `cutoff` on, wherever they stand in it. */
  function Since<T>(s: seq<Stamped<T>>, cutoff: int): seq<Stamped<T>> {
    if s == [] then [] else
    Since(s[..|s| - 1], cutoff) + if s[|s| - 1].at >= cutoff then [s[|s| - 1]] else []
  }

  /** The entries are in time order and none is later than `now`. */
  predicate SortedUpTo<T>(s: seq<Stamped<T>>, now: int) {
    s == [] || (s[|s| - 1].at <= now && SortedUpTo(s[..|s| - 1], s[|s| - 1].at))
  }

  // -------------------------------------------------- trimming is filtering --

  lemma {:induction false} TrimAppend<T>(s: seq<Stamped<T>>, x: Stamped<T>, c: int)
    ensures Trim(s + [x], c) == if Trim(s, c) == [] && x.at < c then [] else Trim(s, c) + [x]
  {
    if s == [] {
      assert s + [x] == [x];
    } else if s[0].at < c {
      assert (s + [x])[1..] == s[1..] + [x];
      TrimAppend(s[1..], x, c);
    }
  }

  lemma {:induction false} NothingSince<T>(s: seq<Stamped<T>>, now: int, c: int)
    requires SortedUpTo(s, now) && now < c
    ensures Since(s, c) == []
  {
    if s != [] {
      NothingSince(s[..|s| - 1], s[|s| - 1].at, c);
    }
  }

  lemma {:induction false} TrimIsSince<T>(s: seq<Stamped<T>>, now: int, c: int)
    requires SortedUpTo(s, now)
    ensures Trim(s, c) == Since(s, c)
  {
    if s != [] {
      var front, x := s[..|s| - 1], s[|s| - 1];
      assert s == front + [x];
      TrimIsSince(front, x.at, c);
      TrimAppend(front, x, c);
      if x.at < c {
        NothingSince(front, x.at, c);
      }
    }
  }

  /** Histories are sorted and not later than the clock. */
  lemma {:induction false} HistoriesSorted(l: Limits, calls: seq<Call>, issuer: string, now: int)
    requires l.minObservations > 0 && Clocked(calls, now)
    ensures SortedUpTo(Observations(calls, issuer), now)
    ensures SortedUpTo(Admissions(l, calls, issuer), now)
  {
    if calls != [] {
      var prefix, last := calls[..|calls| - 1], calls[|calls| - 1];
      HistoriesSorted(l, prefix, issuer, if last.Downtime? then now else last.at);
      SortedAppend(Observations(prefix, issuer), NewObservation(last, issuer), last, now);
      SortedAppend(Admissions(l, prefix, issuer), NewAdmission(l, Run(l, prefix), last, issuer), last, now);
    }
  }

  lemma SortedAppend<T>(s: seq<Stamped<T>>, more: seq<Stamped<T>>, last: Call, now: int)
    requires SortedUpTo(s, if last.Downtime? then now else last.at)
    requires more == [] || (!last.Downtime? && |more| == 1 && more[0].at == last.at)
    requires last.Downtime? || last.at <= now
    ensures SortedUpTo(s + more, now)
  {
    if more == [] {
      assert s + more == s;
    } else {
      assert (s + more)[..|s|] == s;
    }
  }

  /** The window of an issuer in `s` is the whole history `h`, `a` trimmed at `cutoff`. */
  ghost predicate Trimmed(s: State, issuer: string, h: seq<Stamped<bool>>, a: seq<Stamped<()>>, cutoff: int) {
    s.Window(issuer).observations == Trim(h, cutoff) && s.Window(issuer).admitted == Trim(a, cutoff)
  }

  lemma ObserveKeepsTrimmed<T>(h: seq<Stamped<T>>, x: Stamped<T>, cutoff: int, next: int)
    requires cutoff <= next <= x.at
    ensures Trim(Trim(h, cutoff) + [x], next) == Trim(h + [x], next) == Trim(h, next) + [x]
  {
    TrimAppend(h, x, next);
    TrimTwice(h, cutoff, next);
    TrimAppend(Trim(h, cutoff), x, next);
  }

  lemma ObservedKeepsTrimmed(l: Limits, s: State, issuer: string, at: int, failed: bool,
                             h: seq<Stamped<bool>>, a: seq<Stamped<()>>, cutoff: int)
    requires Trimmed(s, issuer, h, a, cutoff) && cutoff <= at - l.window
    ensures Trimmed(Observed(l, s, issuer, at, failed), issuer, h + [Stamped(at, failed)], a, at - l.window)
  {
    ObserveKeepsTrimmed(h, Stamped(at, failed), cutoff, at - l.window);
    TrimTwice(a, cutoff, at - l.window);
  }

  lemma AdmittedKeepsTrimmed(l: Limits, s: State, issuer: string, at: int, record: bool,
                             h: seq<Stamped<bool>>, a: seq<Stamped<()>>, cutoff: int)
    requires l.minObservations > 0 && Trimmed(s, issuer, h, a, cutoff) && cutoff <= at - l.window
    ensures Trimmed(Admitted(l, s, issuer, at, record), issuer, h,
                    a + NewAdmission(l, s, Admit(issuer, at, record), issuer), at - l.window)
  {
    TrimTwice(h, cutoff, at - l.window);
    TrimTwice(a, cutoff, at - l.window);
    ObserveKeepsTrimmed(a, Stamped(at, ()), cutoff, at - l.window);
    assert a + [] == a;
    assert Trim(a, at - l.window) + [] == Trim(a, at - l.window);
  }

  lemma StepKeepsTrimmed(l: Limits, s: State, c: Call, issuer: string,
                         h: seq<Stamped<bool>>, a: seq<Stamped<()>>, cutoff: int) returns (next: int)
    requires l.minObservations > 0 && Trimmed(s, issuer, h, a, cutoff)
    requires c.Downtime? || cutoff <= c.at - l.window
    ensures next == cutoff || (!c.Downtime? && next == c.at - l.window)
    ensures Trimmed(Apply(l, s, c), issuer, h + NewObservation(c, issuer), a + NewAdmission(l, s, c, issuer), next)
  {
    next := cutoff;
    if c.Observe? && c.issuer == issuer {
      next := c.at - l.window;
      assert a + [] == a;
      ObservedKeepsTrimmed(l, s, issuer, c.at, c.failed, h, a, cutoff);
    } else if c.Admit? && c.issuer == issuer {
      next := c.at - l.window;
      assert h + [] == h;
      AdmittedKeepsTrimmed(l, s, issuer, c.at, c.record, h, a, cutoff);
    } else {
      assert h + [] == h && a + [] == a;
      if c.Read? && c.issuer == issuer {
        next := ReadKeepsTrimmed(l, s, issuer, c.at, h, a, cutoff);
      } else {
        OtherCallKeepsWindow(l, s, c, issuer);
      }
    }
  }

  lemma ReadKeepsTrimmed(l: Limits, s: State, issuer: string, at: int,
                         h: seq<Stamped<bool>>, a: seq<Stamped<()>>, cutoff: int) returns (next: int)
    requires Trimmed(s, issuer, h, a, cutoff) && cutoff <= at - l.window
    ensures next == cutoff || next == at - l.window
    ensures Trimmed(StateRead(l, s, issuer, at), issuer, h, a, next)
  {
    next := cutoff;
    if issuer in s.issuers && s.DowntimeState(issuer).None? {
      next := at - l.window;
      TrimTwice(h, cutoff, next);
      TrimTwice(a, cutoff, next);
    }
  }

  lemma OtherCallKeepsWindow(l: Limits, s: State, c: Call, issuer: string)
    requires l.minObservations > 0 && (c.Downtime? || c.issuer != issuer)
    ensures Apply(l, s, c).Window(issuer) == s.Window(issuer)
    ensures !c.Downtime? ==> Apply(l, s, c).downtime == s.downtime
  {
  }

  /** A window is always its issuer's whole history, trimmed at some cutoff the clock has passed. */
  lemma {:induction false} WindowIsTrimmedHistory(l: Limits, calls: seq<Call>, issuer: string, now: int)
    returns (cutoff: int)
    requires l.minObservations > 0 && Clocked(calls, now)
    ensures cutoff <= now - l.window
    ensures Trimmed(Run(l, calls), issuer, Observations(calls, issuer), Admissions(l, calls, issuer), cutoff)
  {
    if calls == [] {
      cutoff := now - l.window;
    } else {
      var prefix, last := calls[..|calls| - 1], calls[|calls| - 1];
      var before := WindowIsTrimmedHistory(l, prefix, issuer, if last.Downtime? then now else last.at);
      cutoff := StepKeepsTrimmed(l, Run(l, prefix), last, issuer, Observations(prefix, issuer),
                                 Admissions(l, prefix, issuer), before);
    }
  }

  // -------------------------------------------------------- refinement --

  /** The notice in force for a key: the last one that named it, if it was an active one. */
  function NoticeInForce(calls: seq<Call>, key: string): Option<DowntimeNotice> {
    if calls == [] then None else
    var last := calls[|calls| - 1];
    if last.Downtime? && last.notice.Key() == key && key != "" then
      (if last.notice.IsActive() then Some(last.notice) else None)
    else NoticeInForce(calls[..|calls| - 1], key)
  }

  lemma {:induction false} DowntimeIsNoticeInForce(l: Limits, calls: seq<Call>, key: string)
    requires l.minObservations > 0
    ensures var d := Run(l, calls).downtime;
            NoticeInForce(calls, key) == if key in d then Some(d[key]) else None
  {
    if calls != [] {
      DowntimeIsNoticeInForce(l, calls[..|calls| - 1], key);
    }
  }

  /** The verdict of a governor that keeps every call for ever and filters on demand. */
  function NaiveState(l: Limits, calls: seq<Call>, issuer: string, now: int): IssuerState
    requires l.minObservations > 0
  {
    var notice := NoticeInForce(calls, issuer);
    var declared := if notice.None? then None
                    else Some(if notice.value.severity == "high" then Degraded else Strained);
    Judge(l, declared, Share(l, Since(Observations(calls, issuer), now - l.window)))
  }

  lemma TrimmedIsFilter<T>(s: seq<Stamped<T>>, now: int, cutoff: int, later: int)
    requires SortedUpTo(s, now) && cutoff <= later
    ensures Trim(Trim(s, cutoff), later) == Since(s, later)
  {
    TrimTwice(s, cutoff, later);
    TrimIsSince(s, now, later);
  }

  function DecideFrom(l: Limits, state: IssuerState, used: nat): Verdict {
    if used >= l.Ceiling(state) then Verdict(false, state, l.Ceiling(state), used)
    else Verdict(true, state, l.Ceiling(state), used + 1)
  }

  lemma TrimmedAnswersLikeFilter(l: Limits, s: State, issuer: string, now: int,
                                 h: seq<Stamped<bool>>, a: seq<Stamped<()>>, cutoff: int)
    requires l.minObservations > 0 && Trimmed(s, issuer, h, a, cutoff) && cutoff <= now - l.window
    requires SortedUpTo(h, now) && SortedUpTo(a, now)
    ensures FailureShare(l, s, issuer, now) == Share(l, Since(h, now - l.window))
    ensures Decide(l, s, issuer, now) == DecideFrom(l, StateOf(l, s, issuer, now), |Since(a, now - l.window)|)
  {
    var later := now - l.window;
    var observed, granted := s.Window(issuer).observations, s.Window(issuer).admitted;
    assert Trim(observed, later) == Since(h, later) by {
      TrimmedIsFilter(h, now, cutoff, later);
    }
    assert |Trim(granted, later)| == |Since(a, later)| by {
      TrimmedIsFilter(a, now, cutoff, later);
    }
    DecideReadsTheWindow(l, s, issuer, now);
  }

  lemma DecideReadsTheWindow(l: Limits, s: State, issuer: string, now: int)
    requires l.minObservations > 0
    ensures Decide(l, s, issuer, now)
            == DecideFrom(l, StateOf(l, s, issuer, now), |Trim(s.Window(issuer).admitted, now - l.window)|)
  {
  }

  /** Under a clock that never goes back, the trimmed deques answer every question exactly as
      the full history filtered by time would. */
  lemma GovernorRefinesHistory(l: Limits, calls: seq<Call>, issuer: string, now: int)
    requires l.minObservations > 0 && Clocked(calls, now)
    ensures FailureShare(l, Run(l, calls), issuer, now) == Share(l, Since(Observations(calls, issuer), now - l.window))
    ensures StateOf(l, Run(l, calls), issuer, now) == NaiveState(l, calls, issuer, now)
    ensures Decide(l, Run(l, calls), issuer, now)
            == DecideFrom(l, NaiveState(l, calls, issuer, now), |Since(Admissions(l, calls, issuer), now - l.window)|)
  {
    HistoriesSorted(l, calls, issuer, now);
    var cutoff := WindowIsTrimmedHistory(l, calls, issuer, now);
    TrimmedAnswersLikeFilter(l, Run(l, calls), issuer, now, Observations(calls, issuer),
                             Admissions(l, calls, issuer), cutoff);
    DowntimeIsNoticeInForce(l, calls, issuer);
  }

  // --------------------------------------------------------- the rate bound --

  function Between<T>(s: seq<Stamped<T>>, from: int, to: int): seq<Stamped<T>> {
    if s == [] then [] else
    Between(s[..|s| - 1], from, to) + if from <= s[|s| - 1].at <= to then [s[|s| - 1]] else []
  }

  lemma {:induction false} BetweenIsSince<T>(s: seq<Stamped<T>>, from: int, to: int, cutoff: int)
    requires cutoff <= from
    ensures |Between(s, from, to)| <= |Since(s, cutoff)|
  {
    if s != [] {
      BetweenIsSince(s[..|s| - 1], from, to, cutoff);
    }
  }

  function LargestCeiling(l: Limits): int {
    var a := if l.baseCeiling > l.strainedCeiling then l.baseCeiling else l.strainedCeiling;
    if a > l.degradedCeiling then a else l.degradedCeiling
  }

  lemma BetweenAppend<T>(s: seq<Stamped<T>>, x: Stamped<T>, from: int, to: int)
    ensures Between(s + [x], from, to) == Between(s, from, to) + if from <= x.at <= to then [x] else []
  {
    assert (s + [x])[..|s + [x]| - 1] == s;
  }

  ghost predicate WithinBound(l: Limits, a: seq<Stamped<()>>, from: int) {
    var n := |Between(a, from, from + l.window)|;
    n == 0 || n <= LargestCeiling(l)
  }

  /** Whatever is observed, declared or asked, no closed interval as long as the window holds more
      recorded admissions of one issuer than its largest ceiling, which is the base ceiling of every
      configuration that passes validation. */
  lemma {:induction false} SlidingWindowRateBound(l: Limits, calls: seq<Call>, issuer: string, now: int, from: int)
    requires l.minObservations > 0 && Clocked(calls, now)
    ensures WithinBound(l, Admissions(l, calls, issuer), from)
    ensures l.Tightening() ==> LargestCeiling(l) == l.baseCeiling
  {
    if calls != [] {
      var prefix, last := calls[..|calls| - 1], calls[|calls| - 1];
      SlidingWindowRateBound(l, prefix, issuer, if last.Downtime? then now else last.at, from);
      var before := Admissions(l, prefix, issuer);
      if NewAdmission(l, Run(l, prefix), last, issuer) == [] {
        assert before + [] == before;
      } else {
        AdmissionIsBelowCeiling(l, prefix, issuer, last.at);
        OneMoreAdmission(l, before, last.at, from);
      }
    }
  }

  lemma OneMoreAdmission(l: Limits, before: seq<Stamped<()>>, at: int, from: int)
    requires WithinBound(l, before, from)
    requires |Since(before, at - l.window)| < LargestCeiling(l)
    ensures WithinBound(l, before + [Stamped(at, ())], from)
  {
    BetweenAppend(before, Stamped(at, ()), from, from + l.window);
    if at <= from + l.window {
      BetweenIsSince(before, from, from + l.window, at - l.window);
    }
  }

  /** An admission is granted only while fewer than a ceiling were granted in the window before it. */
  lemma AdmissionIsBelowCeiling(l: Limits, calls: seq<Call>, issuer: string, now: int)
    requires l.minObservations > 0 && Clocked(calls, now)
    requires Decide(l, Run(l, calls), issuer, now).admitted
    ensures |Since(Admissions(l, calls, issuer), now - l.window)| < l.Ceiling(NaiveState(l, calls, issuer, now))
    ensures |Since(Admissions(l, calls, issuer), now - l.window)| < LargestCeiling(l)
  {
    GovernorRefinesHistory(l, calls, issuer, now);
  }

  // --------------------------------------------------------- no interference --

  /** The calls that concern an issuer: its own, and every downtime notice. */
  function Only(calls: seq<Call>, issuer: string): seq<Call> {
    if calls == [] then [] else
    var last := calls[|calls| - 1];
    Only(calls[..|calls| - 1], issuer) + if last.Downtime? || last.issuer == issuer then [last] else []
  }

  /** Erasing every call made for other issuers changes nothing an issuer can see. */
  lemma {:induction false} IssuersDoNotInterfere(l: Limits, calls: seq<Call>, issuer: string)
    requires l.minObservations > 0
    ensures Run(l, calls).downtime == Run(l, Only(calls, issuer)).downtime
    ensures Run(l, calls).Window(issuer) == Run(l, Only(calls, issuer)).Window(issuer)
  {
    if calls != [] {
      var prefix, last := calls[..|calls| - 1], calls[|calls| - 1];
      IssuersDoNotInterfere(l, prefix, issuer);
      var kept := Only(prefix, issuer);
      if last.Downtime? || last.issuer == issuer {
        RunAppend(l, kept, last);
        SameWindowSameEffect(l, Run(l, prefix), Run(l, kept), issuer, last);
      } else {
        assert Only(calls, issuer) == kept;
        OtherCallKeepsWindow(l, Run(l, prefix), last, issuer);
      }
    }
  }

  lemma RunAppend(l: Limits, calls: seq<Call>, c: Call)
    requires l.minObservations > 0
    ensures Run(l, calls + [c]) == Apply(l, Run(l, calls), c)
  {
    assert (calls + [c])[..|calls|] == calls;
  }

  lemma SameWindowSameEffect(l: Limits, s: State, t: State, issuer: string, c: Call)
    requires l.minObservations > 0
    requires s.downtime == t.downtime && s.Window(issuer) == t.Window(issuer)
    requires c.Downtime? || c.issuer == issuer
    ensures Apply(l, s, c).downtime == Apply(l, t, c).downtime
    ensures Apply(l, s, c).Window(issuer) == Apply(l, t, c).Window(issuer)
  {
    if c.Admit? {
      assert Decide(l, s, issuer, c.at) == Decide(l, t, issuer, c.at);
    }
  }

  /** So no call on one issuer can change the verdict on another. */
  lemma VerdictsDoNotInterfere(l: Limits, calls: seq<Call>, issuer: string, now: int)
    requires l.minObservations > 0
    ensures Decide(l, Run(l, calls), issuer, now) == Decide(l, Run(l, Only(calls, issuer)), issuer, now)
  {
    IssuersDoNotInterfere(l, calls, issuer);
  }
}
