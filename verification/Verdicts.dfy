/** What the governor answers, from counts over everything it was ever told: which condition an issuer is
    in, which ceiling that is, and who is admitted under it. */
module Verdicts {
  import opened Models
  import opened Governor

  // ------------------------------------------------------------------ the counts --

  /** How many attempts of the issuer were observed from a moment on. */
  function Seen(calls: seq<Call>, issuer: string, from: int): nat {
    if calls == [] then 0 else
    var c := calls[|calls| - 1];
    Seen(calls[..|calls| - 1], issuer, from) + if c.Observe? && c.issuer == issuer && c.at >= from then 1 else 0
  }

  /** And how many of them failed. */
  function Failed(calls: seq<Call>, issuer: string, from: int): nat {
    if calls == [] then 0 else
    var c := calls[|calls| - 1];
    Failed(calls[..|calls| - 1], issuer, from)
    + if c.Observe? && c.issuer == issuer && c.at >= from && c.failed then 1 else 0
  }

  /** How many admissions of the issuer were granted and recorded from a moment on. */
  function Granted(l: Limits, calls: seq<Call>, issuer: string, from: int): nat
    requires l.minObservations > 0
  {
    if calls == [] then 0 else
    var prefix, c := calls[..|calls| - 1], calls[|calls| - 1];
    Granted(l, prefix, issuer, from)
    + if c.Admit? && c.issuer == issuer && c.at >= from && c.record && Decide(l, Run(l, prefix), issuer, c.at).admitted
      then 1 else 0
  }

  /** The last notice that named the issuer, by instrument or else by rail. */
  function LastNotice(calls: seq<Call>, issuer: string): Option<DowntimeNotice> {
    if calls == [] then None else
    var c := calls[|calls| - 1];
    if c.Downtime? && issuer != "" && (c.notice.instrument == issuer || (c.notice.instrument == "" && c.notice.rail == issuer))
    then Some(c.notice) else LastNotice(calls[..|calls| - 1], issuer)
  }

  /** A downtime is announced or under way. */
  predicate Down(calls: seq<Call>, issuer: string) {
    var notice := LastNotice(calls, issuer);
    notice.Some? && notice.value.status in {"started", "scheduled"}
  }

  // -------------------------------------------------------- the counts are the windows --

  lemma {:induction false} CountsAreWindows(calls: seq<Call>, issuer: string, from: int)
    ensures |Since(Observations(calls, issuer), from)| == Seen(calls, issuer, from)
    ensures Failures(Since(Observations(calls, issuer), from)) == Failed(calls, issuer, from)
  {
    if calls != [] {
      var prefix, c := calls[..|calls| - 1], calls[|calls| - 1];
      CountsAreWindows(prefix, issuer, from);
      var h := Observations(prefix, issuer);
      if c.Observe? && c.issuer == issuer {
        SinceAppend(h, Stamped(c.at, c.failed), from);
        FailuresAppend(Since(h, from), Stamped(c.at, c.failed));
        assert Since(h, from) + [] == Since(h, from);
      } else {
        assert h + [] == h;
      }
    }
  }

  lemma FailuresAppend(s: seq<Stamped<bool>>, x: Stamped<bool>)
    ensures Failures(s + [x]) == Failures(s) + if x.value then 1 else 0
  {
    assert (s + [x])[..|s|] == s;
  }

  lemma SinceAppend<T>(s: seq<Stamped<T>>, x: Stamped<T>, from: int)
    ensures Since(s + [x], from) == Since(s, from) + if x.at >= from then [x] else []
  {
    assert (s + [x])[..|s|] == s;
  }

  lemma {:induction false} GrantsAreWindows(l: Limits, calls: seq<Call>, issuer: string, from: int)
    requires l.minObservations > 0
    ensures |Since(Admissions(l, calls, issuer), from)| == Granted(l, calls, issuer, from)
  {
    if calls != [] {
      var prefix, c := calls[..|calls| - 1], calls[|calls| - 1];
      GrantsAreWindows(l, prefix, issuer, from);
      var a := Admissions(l, prefix, issuer);
      if NewAdmission(l, Run(l, prefix), c, issuer) == [] {
        assert a + [] == a;
      } else {
        SinceAppend(a, Stamped(c.at, ()), from);
      }
    }
  }

  lemma {:induction false} NoticeIsLast(calls: seq<Call>, issuer: string)
    ensures NoticeInForce(calls, issuer) == if Down(calls, issuer) then LastNotice(calls, issuer) else None
  {
    if calls != [] {
      NoticeIsLast(calls[..|calls| - 1], issuer);
    }
  }

  // ------------------------------------------------------------------ the answers --

  /** At least this share of the observations failed. */
  predicate ShareFailed(failed: nat, seen: nat, share: real)
    requires seen > 0
  {
    failed as real / seen as real >= share
  }

  lemma ShareIff(failed: nat, seen: nat, share: real)
    requires seen > 0
    ensures ShareFailed(failed, seen, share) <==> failed as real >= share * seen as real
  {
    var q := failed as real / seen as real;
    assert q * seen as real == failed as real;
    if q >= share {
      assert (q - share) * seen as real >= 0.0;
    } else {
      assert (share - q) * seen as real > 0.0;
    }
  }

  lemma ShareGrows(failed: nat, more: nat, seen: nat, share: real)
    requires seen > 0 && failed <= more && ShareFailed(failed, seen, share)
    ensures ShareFailed(more, seen, share)
  {
    ShareIff(failed, seen, share);
    ShareIff(more, seen, share);
  }

  /** A notice in force decides by its severity; without one, too few observations are no evidence, and
      enough of them are judged by the failures among them. */
  predicate Judged(l: Limits, down: bool, high: bool, seen: nat, failed: nat, state: IssuerState)
    requires l.minObservations > 0
  {
    if down then state == if high then Degraded else Strained
    else if seen < l.minObservations then state == Healthy
    else if ShareFailed(failed, seen, l.degradedShare) then state == Degraded
    else if ShareFailed(failed, seen, l.strainedShare) then state == Strained
    else state == Healthy
  }

  lemma JudgeIs(l: Limits, notice: Option<DowntimeNotice>, observations: seq<Stamped<bool>>,
                down: bool, high: bool, seen: nat, failed: nat, state: IssuerState)
    requires l.minObservations > 0 && seen == |observations| && failed == Failures(observations)
    requires down == notice.Some? && high == (notice.Some? && notice.value.severity == "high")
    requires var declared := if notice.None? then None
                             else Some(if notice.value.severity == "high" then Degraded else Strained);
             state == Governor.Judge(l, declared, Share(l, observations))
    ensures Judged(l, down, high, seen, failed, state)
  {
  }

  /** Which condition the governor takes an issuer to be in. */
  lemma StateIs(l: Limits, calls: seq<Call>, issuer: string, now: int)
    requires l.minObservations > 0 && Clocked(calls, now)
    ensures var from, down := now - l.window, Down(calls, issuer);
            Judged(l, down, down && LastNotice(calls, issuer).value.severity == "high", Seen(calls, issuer, from),
                   Failed(calls, issuer, from), StateOf(l, Run(l, calls), issuer, now))
  {
    assert StateOf(l, Run(l, calls), issuer, now) == NaiveState(l, calls, issuer, now) by {
      GovernorRefinesHistory(l, calls, issuer, now);
    }
    NaiveStateIs(l, calls, issuer, now);
  }

  lemma NaiveStateIs(l: Limits, calls: seq<Call>, issuer: string, now: int)
    requires l.minObservations > 0
    ensures var from, down := now - l.window, Down(calls, issuer);
            Judged(l, down, down && LastNotice(calls, issuer).value.severity == "high", Seen(calls, issuer, from),
                   Failed(calls, issuer, from), NaiveState(l, calls, issuer, now))
  {
    var from := now - l.window;
    var notice, observed := NoticeInForce(calls, issuer), Since(Observations(calls, issuer), from);
    assert Down(calls, issuer) == notice.Some? && (notice.Some? ==> LastNotice(calls, issuer) == notice) by {
      NoticeIsLast(calls, issuer);
    }
    assert |observed| == Seen(calls, issuer, from) && Failures(observed) == Failed(calls, issuer, from) by {
      CountsAreWindows(calls, issuer, from);
    }
    JudgeIs(l, notice, observed, notice.Some?, notice.Some? && notice.value.severity == "high", |observed|,
            Failures(observed), NaiveState(l, calls, issuer, now));
  }

  /** The ceiling of each condition is the limit of that name, and an admission is granted exactly while
      fewer than that were granted in the window. */
  predicate Granting(l: Limits, state: IssuerState, used: nat, v: Verdict) {
    && v.state == state
    && (state == Healthy ==> v.ceiling == l.baseCeiling)
    && (state == Strained ==> v.ceiling == l.strainedCeiling)
    && (state == Degraded ==> v.ceiling == l.degradedCeiling)
    && (v.admitted <==> used < v.ceiling)
    && v.admittedInWindow == used + if v.admitted then 1 else 0
  }

  lemma DecideGrants(l: Limits, state: IssuerState, used: nat)
    ensures Granting(l, state, used, DecideFrom(l, state, used))
  {
  }

  /** Which ceiling an issuer is under, and who is admitted under it. */
  lemma VerdictIs(l: Limits, calls: seq<Call>, issuer: string, now: int)
    requires l.minObservations > 0 && Clocked(calls, now)
    ensures Granting(l, StateOf(l, Run(l, calls), issuer, now), Granted(l, calls, issuer, now - l.window),
                     Decide(l, Run(l, calls), issuer, now))
  {
    var used := |Since(Admissions(l, calls, issuer), now - l.window)|;
    var state := NaiveState(l, calls, issuer, now);
    assert StateOf(l, Run(l, calls), issuer, now) == state
           && Decide(l, Run(l, calls), issuer, now) == DecideFrom(l, state, used) by {
      GovernorRefinesHistory(l, calls, issuer, now);
    }
    assert used == Granted(l, calls, issuer, now - l.window) by {
      GrantsAreWindows(l, calls, issuer, now - l.window);
    }
    DecideGrants(l, state, used);
  }

  /** Under limits that tighten, more failures among as many observations never raise the ceiling. */
  lemma FailuresNeverRaiseCeiling(l: Limits, calls: seq<Call>, worse: seq<Call>, issuer: string, now: int)
    requires l.minObservations > 0 && Clocked(calls, now) && Clocked(worse, now)
    requires l.Tightening() && l.strainedShare <= l.degradedShare
    requires !Down(calls, issuer) && !Down(worse, issuer)
    requires Seen(calls, issuer, now - l.window) == Seen(worse, issuer, now - l.window)
    requires Failed(calls, issuer, now - l.window) <= Failed(worse, issuer, now - l.window)
    ensures Decide(l, Run(l, worse), issuer, now).ceiling <= Decide(l, Run(l, calls), issuer, now).ceiling
  {
    StateIs(l, calls, issuer, now);
    StateIs(l, worse, issuer, now);
    VerdictIs(l, calls, issuer, now);
    VerdictIs(l, worse, issuer, now);
    var seen, failed, more := Seen(calls, issuer, now - l.window), Failed(calls, issuer, now - l.window),
                              Failed(worse, issuer, now - l.window);
    if seen >= l.minObservations {
      if ShareFailed(failed, seen, l.degradedShare) {
        ShareGrows(failed, more, seen, l.degradedShare);
      }
      if ShareFailed(failed, seen, l.strainedShare) {
        ShareGrows(failed, more, seen, l.strainedShare);
      }
    }
  }

  /** The limits of config/default.yaml. */
  const SHIPPED_LIMITS := Limits(86_400_000_000, 50, 20, 5, 10, 0.156, 0.530)

  /** Under them, of ten observations: six failures are DEGRADED, ceiling 5; two to five are STRAINED,
      ceiling 20; one or none are HEALTHY, ceiling 50. */
  lemma ShippedVerdicts(calls: seq<Call>, issuer: string, now: int)
    requires Clocked(calls, now) && !Down(calls, issuer)
    requires Seen(calls, issuer, now - SHIPPED_LIMITS.window) == 10
    ensures var v, failed := Decide(SHIPPED_LIMITS, Run(SHIPPED_LIMITS, calls), issuer, now),
                             Failed(calls, issuer, now - SHIPPED_LIMITS.window);
            && (failed >= 6 ==> v.state == Degraded && v.ceiling == 5)
            && (2 <= failed <= 5 ==> v.state == Strained && v.ceiling == 20)
            && (failed <= 1 ==> v.state == Healthy && v.ceiling == 50)
  {
    StateIs(SHIPPED_LIMITS, calls, issuer, now);
    VerdictIs(SHIPPED_LIMITS, calls, issuer, now);
  }
}
