/** What the statistics of a pass count: one by one, how its jobs ended. */
module Tallies {
  import opened Models
  import opened Stores
  import opened Protocol
  import opened Worker

  /** How the rows from `i` on end, up to the first that raises. */
  function Endings(cfg: Config, c: Core, rows: seq<Row>, os: nat -> Oracle, i: nat): seq<Outcome>
    requires i <= |rows|
    decreases |rows| - i
  {
    if i == |rows| then [] else
    var ending := ProcessRow(cfg, c.db, rows[i], FetchedFor(c.gateway, rows[i]), os(i)).outcome;
    [ending] + if ending == Raised then [] else Endings(cfg, AfterRow(cfg, c, rows[i], os(i)), rows, os, i + 1)
  }

  /** The notes "unmapped" of a job, if it came to be classified. */
  function UnclearOf(ending: Outcome, o: Oracle): nat {
    if ending in {Refused, Suppressed, DecidedOnce} then multiset(o.notes)[Unmapped] else 0
  }

  function Unclear(endings: seq<Outcome>, os: nat -> Oracle, i: nat): nat {
    if endings == [] then 0 else UnclearOf(endings[0], os(i)) + Unclear(endings[1..], os, i + 1)
  }

  lemma {:induction false} UnmappedAreCounted(notes: seq<Note>)
    ensures CountUnmapped(notes) == multiset(notes)[Unmapped]
  {
    if notes != [] {
      var less, last := notes[..|notes| - 1], notes[|notes| - 1];
      UnmappedAreCounted(less);
      assert notes == less + [last];
    }
  }

  /** Each counter is the number of jobs that ended its way. */
  ghost predicate Tallied(s: Stats, t: Stats, endings: multiset<Outcome>, unclear: nat) {
    && t.processed == s.processed + |endings|
    && t.decided == s.decided + endings[DecidedOnce]
    && t.duplicatesSuppressed == s.duplicatesSuppressed + endings[Suppressed]
    && t.guardBlocks == s.guardBlocks + endings[Refused]
    && t.staleIgnored == s.staleIgnored + endings[Stale]
    && t.closedResolved == s.closedResolved + endings[ClosedResolved]
    && t.refreshFailures == s.refreshFailures + endings[RefreshFailed] + endings[Raised]
    && t.unmappedFailures == s.unmappedFailures + unclear
  }

  lemma RowIsTallied(cfg: Config, c: Core, row: Row, o: Oracle)
    ensures var ending := OutcomeOf(cfg, c, row, o);
            Tallied(c.stats, AfterRow(cfg, c, row, o).stats, multiset{ending}, UnclearOf(ending, o))
  {
    UnmappedAreCounted(o.notes);
  }

  lemma TalliesAdd(s: Stats, t: Stats, u: Stats, ending: Outcome, endings: seq<Outcome>, os: nat -> Oracle, i: nat)
    requires Tallied(s, t, multiset{ending}, UnclearOf(ending, os(i)))
    requires Tallied(t, u, multiset(endings), Unclear(endings, os, i + 1))
    ensures Tallied(s, u, multiset([ending] + endings), Unclear([ending] + endings, os, i))
  {
    assert ([ending] + endings)[1..] == endings;
  }

  lemma {:induction false} RowsAreTallied(cfg: Config, c: Core, rows: seq<Row>, os: nat -> Oracle, i: nat)
    requires i <= |rows|
    ensures var endings := Endings(cfg, c, rows, os, i);
            Tallied(c.stats, ProcessRows(cfg, c, rows, os, i).stats, multiset(endings), Unclear(endings, os, i))
    decreases |rows| - i
  {
    if i < |rows| {
      var next, ending := AfterRow(cfg, c, rows[i], os(i)), OutcomeOf(cfg, c, rows[i], os(i));
      RowIsTallied(cfg, c, rows[i], os(i));
      if ending == Raised {
        NothingMore(next.stats, os, i + 1);
        TalliesAdd(c.stats, next.stats, next.stats, ending, [], os, i);
      } else {
        RowsAreTallied(cfg, next, rows, os, i + 1);
        TalliesAdd(c.stats, next.stats, ProcessRows(cfg, next, rows, os, i + 1).stats, ending,
                   Endings(cfg, next, rows, os, i + 1), os, i);
      }
    }
  }

  lemma NothingMore(s: Stats, os: nat -> Oracle, i: nat)
    ensures Tallied(s, s, multiset([]), Unclear([], os, i))
  {
  }

  /** A pass works on all its rows, or up to the first one that raises. */
  lemma {:induction false} EndsWithTheRows(cfg: Config, c: Core, rows: seq<Row>, os: nat -> Oracle, i: nat)
    requires i <= |rows|
    ensures var endings := Endings(cfg, c, rows, os, i);
            && |endings| <= |rows| - i
            && (forall k :: 0 <= k < |endings| - 1 ==> endings[k] != Raised)
            && (|endings| < |rows| - i ==> endings != [] && endings[|endings| - 1] == Raised)
    decreases |rows| - i
  {
    if i < |rows| {
      EndsWithTheRows(cfg, AfterRow(cfg, c, rows[i], os(i)), rows, os, i + 1);
    }
  }

  /** The statistics of a whole pass: each counter is the number of claimed jobs that ended its way, of all
      the claimed jobs unless one raised, and then of those up to it. */
  lemma PassIsTallied(cfg: Config, db: Db, g: GatewayState, cutoff: int, stamps: nat -> int, os: nat -> Oracle)
    ensures var claimed := ClaimJobs(db, cfg.batchSize, Some(cutoff), stamps, Some(cfg.maxAttempts));
            var rows := Handed(db, cfg.batchSize, Some(cutoff), Some(cfg.maxAttempts));
            var endings := Endings(cfg, Core(claimed, g, ZERO), rows, os, 0);
            && Tallied(ZERO, ProcessPending(cfg, db, g, cutoff, stamps, os).stats, multiset(endings), Unclear(endings, os, 0))
            && (|endings| == |rows| || (0 < |endings| < |rows| && endings[|endings| - 1] == Raised))
            && forall k :: 0 <= k < |endings| - 1 ==> endings[k] != Raised
  {
    var rows := Handed(db, cfg.batchSize, Some(cutoff), Some(cfg.maxAttempts));
    var c := Core(ClaimJobs(db, cfg.batchSize, Some(cutoff), stamps, Some(cfg.maxAttempts)), g, ZERO);
    RowsAreTallied(cfg, c, rows, os, 0);
    EndsWithTheRows(cfg, c, rows, os, 0);
  }
}
