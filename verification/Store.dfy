/** The persisted tables (recovery/store.py). `Db` is the content of the database; each function on
    it is one SQL statement or transaction, and `Store` is the object that executes them. A row of
    `jobs` or `cases` is named by its position: rows are never deleted, so a position is as good a
    unique identifier as the random one of the source. */
module Stores {
  import opened Models
  import opened Guards
  import Text

  /** The payment entity of a webhook body, as far as ingest and worker read it. */
  datatype Entity = Entity(paymentId: Option<string>, errorReason: string, nestedError: bool)

  datatype RawEvent = RawEvent(event: string, createdAt: int, entity: Entity)

  datatype JobState = Pending | Claimed | Done | FailedJob

  datatype Job = Job(eventId: string, state: JobState, attempts: nat, claimedAt: Option<int>)

  datatype Case = Case(
    chainKey: string,
    orderId: Option<string>,
    paymentId: string,
    state: CaseState,
    lastEventCreatedAt: int)

  datatype ChainAttempt = ChainAttempt(chainKey: string, paymentId: string, attemptN: nat)

  datatype Decision = Decision(
    caseId: nat,
    paymentId: string,
    policyVersion: string,
    attemptN: nat,
    action: DecisionAction,
    reason: string)
  {
    function Key(): string {
      Text.IdempotencyKey(paymentId, policyVersion, attemptN)
    }
  }

  /** What classification writes to the trail before its result. */
  datatype Note = Normalized | SourceUndocumented | Unmapped | CostResolved | Enriched | Classified

  datatype AuditType =
    | WebhookReceived
    | WebhookDuplicateIgnored
    | WebhookRejectedUnsupported
    | WebhookFiltered
    | PayloadShapeUnexpected
    | EventStaleIgnored
    | CaseOpened
    | CaseAttached
    | CaseClosedPaymentResolved
    | StateRefreshed(payment: string, status: PaymentStatus)
    | StateRefreshFailed
    | DecisionRecorded(key: string, action: DecisionAction)
    | DecisionDuplicateSuppressed(suppressed: string)
    | FailureNote(note: Note)
    | GuardBlocked(blocked: DecisionAction, reason: BlockReason)
    | GuardAllowed(allowed: DecisionAction)

  datatype AuditEvent = AuditEvent(caseId: Option<nat>, eventId: Option<string>, what: AuditType)

  datatype Db = Db(
    rawEvents: map<string, RawEvent>,
    jobs: seq<Job>,
    cases: seq<Case>,
    chainAttempts: seq<ChainAttempt>,
    decisions: map<string, Decision>,
    audit: seq<AuditEvent>)

  const EMPTY_DB := Db(map[], [], [], [], map[], [])

  // ------------------------------------------------------------ raw events --

  function RecordRawEvent(db: Db, eventId: string, raw: RawEvent): Db {
    if eventId in db.rawEvents then db else db.(rawEvents := db.rawEvents[eventId := raw])
  }

  // ------------------------------------------------------------------ jobs --

  predicate HasJob(jobs: seq<Job>, eventId: string) {
    exists i :: 0 <= i < |jobs| && jobs[i].eventId == eventId
  }

  function EnqueueJob(db: Db, eventId: string): Db {
    if HasJob(db.jobs, eventId) then db else db.(jobs := db.jobs + [Job(eventId, Pending, 0, None)])
  }

  /** Jobs that keep killing their worker are failed, visibly, before anything is claimed. */
  function FailExhausted(jobs: seq<Job>, maxAttempts: Option<nat>): seq<Job> {
    seq(|jobs|, i requires 0 <= i < |jobs| =>
      if maxAttempts.Some? && jobs[i].state == Claimed && jobs[i].attempts >= maxAttempts.value
      then jobs[i].(state := FailedJob) else jobs[i])
  }

  /** Pending, or claimed before the cutoff by a worker presumed dead. */
  predicate Claimable(job: Job, cutoff: Option<int>) {
    || job.state == Pending
    || (job.state == Claimed && cutoff.Some? && job.claimedAt.Some? && job.claimedAt.value < cutoff.value)
  }

  /** The claimable rows among the first `n`, in row order. */
  function ClaimableRows(jobs: seq<Job>, cutoff: Option<int>, n: nat): seq<nat>
    requires n <= |jobs|
  {
    if n == 0 then [] else
    ClaimableRows(jobs, cutoff, n - 1) + if Claimable(jobs[n - 1], cutoff) then [n - 1] else []
  }

  function CreatedAt(db: Db, job: nat): int {
    if job < |db.jobs| && db.jobs[job].eventId in db.rawEvents
    then db.rawEvents[db.jobs[job].eventId].createdAt else 0
  }

  /** `rows` with `row` put after every row that was created no later. */
  function InsertByAge(db: Db, rows: seq<nat>, row: nat): seq<nat> {
    if rows == [] || CreatedAt(db, rows[|rows| - 1]) <= CreatedAt(db, row) then rows + [row]
    else InsertByAge(db, rows[..|rows| - 1], row) + [rows[|rows| - 1]]
  }

  /** ORDER BY created_at, rowid. */
  function ByAge(db: Db, rows: seq<nat>): seq<nat> {
    if rows == [] then []
    else InsertByAge(db, ByAge(db, rows[..|rows| - 1]), rows[|rows| - 1])
  }

  function Take<T>(s: seq<T>, limit: nat): seq<T> {
    if |s| <= limit then s else s[..limit]
  }

  /** The rows one claim takes. */
  function ClaimedRows(db: Db, cutoff: Option<int>, limit: nat): seq<nat> {
    Take(ByAge(db, ClaimableRows(db.jobs, cutoff, |db.jobs|)), limit)
  }

  function Marked(job: Job, stamp: int): Job {
    job.(state := Claimed, claimedAt := Some(stamp), attempts := job.attempts + 1)
  }

  function MarkClaimed(jobs: seq<Job>, row: nat, stamp: int): seq<Job> {
    if row < |jobs| then jobs[row := Marked(jobs[row], stamp)] else jobs
  }

  /** Each row is marked at its own clock reading. */
  function MarkAllClaimed(jobs: seq<Job>, rows: seq<nat>, stamps: nat -> int): seq<Job> {
    if rows == [] then jobs
    else MarkClaimed(MarkAllClaimed(jobs, rows[..|rows| - 1], stamps), rows[|rows| - 1], stamps(|rows| - 1))
  }

  function AfterFailing(db: Db, maxAttempts: Option<nat>): Db {
    db.(jobs := FailExhausted(db.jobs, maxAttempts))
  }

  function ClaimJobs(db: Db, limit: nat, cutoff: Option<int>, stamps: nat -> int, maxAttempts: Option<nat>): Db {
    var failed := AfterFailing(db, maxAttempts);
    failed.(jobs := MarkAllClaimed(failed.jobs, ClaimedRows(failed, cutoff, limit), stamps))
  }

  function FinishJob(db: Db, job: nat, state: JobState): Db {
    if job < |db.jobs| then db.(jobs := db.jobs[job := db.jobs[job].(state := state)]) else db
  }

  // ----------------------------------------------------------------- cases --

  /** The position of the case of a chain, or the number of cases when there is none. */
  function FindCase(cases: seq<Case>, chainKey: string): nat
    ensures FindCase(cases, chainKey) <= |cases|
    ensures FindCase(cases, chainKey) < |cases| ==> cases[FindCase(cases, chainKey)].chainKey == chainKey
    ensures forall i :: 0 <= i < FindCase(cases, chainKey) ==> cases[i].chainKey != chainKey
  {
    if cases == [] then 0
    else if cases[0].chainKey == chainKey then 0
    else 1 + FindCase(cases[1..], chainKey)
  }

  predicate HasCase(db: Db, chainKey: string) {
    FindCase(db.cases, chainKey) < |db.cases|
  }

  /** INSERT ... ON CONFLICT (chain_key) DO NOTHING. */
  function InsertCase(db: Db, chainKey: string, orderId: Option<string>, payment: string, createdAt: int): Db {
    if HasCase(db, chainKey) then db
    else db.(cases := db.cases + [Case(chainKey, orderId, payment, Open, createdAt)])
  }

  function AdvanceCase(db: Db, caseId: nat, state: CaseState, createdAt: int): Db {
    if caseId < |db.cases|
    then db.(cases := db.cases[caseId := db.cases[caseId].(state := state, lastEventCreatedAt := createdAt)])
    else db
  }

  // -------------------------------------------------------- chain attempts --

  /** COALESCE(MAX(attempt_n), 0) over one chain. */
  function MaxAttempt(rows: seq<ChainAttempt>, chainKey: string): nat {
    if rows == [] then 0 else
    var rest, last := MaxAttempt(rows[..|rows| - 1], chainKey), rows[|rows| - 1];
    if last.chainKey == chainKey && last.attemptN > rest then last.attemptN else rest
  }

  function FindAttempt(rows: seq<ChainAttempt>, chainKey: string, payment: string): nat
    ensures FindAttempt(rows, chainKey, payment) <= |rows|
    ensures var i := FindAttempt(rows, chainKey, payment);
            i < |rows| ==> rows[i].chainKey == chainKey && rows[i].paymentId == payment
    ensures forall j :: 0 <= j < FindAttempt(rows, chainKey, payment) ==>
                          rows[j].chainKey != chainKey || rows[j].paymentId != payment
  {
    if rows == [] then 0
    else if rows[0].chainKey == chainKey && rows[0].paymentId == payment then 0
    else 1 + FindAttempt(rows[1..], chainKey, payment)
  }

  function AssignAttempt(db: Db, chainKey: string, payment: string): Db {
    if FindAttempt(db.chainAttempts, chainKey, payment) < |db.chainAttempts| then db
    else db.(chainAttempts :=
               db.chainAttempts + [ChainAttempt(chainKey, payment, MaxAttempt(db.chainAttempts, chainKey) + 1)])
  }

  /** The number `assign_attempt_n` answers. */
  function AttemptN(db: Db, chainKey: string, payment: string): nat {
    var rows := AssignAttempt(db, chainKey, payment).chainAttempts;
    var i := FindAttempt(rows, chainKey, payment);
    if i < |rows| then rows[i].attemptN else 0
  }

  // ------------------------------------------------------------- decisions --

  function RecordDecision(db: Db, d: Decision): Db {
    if d.Key() in db.decisions then db else db.(decisions := db.decisions[d.Key() := d])
  }

  // ----------------------------------------------------------------- audit --

  function AppendAudit(db: Db, entry: AuditEvent): Db {
    db.(audit := db.audit + [entry])
  }

  // -------------------------------------------------------------- the class --

  /** What a claim hands to its worker. */
  datatype Row = Row(job: nat, eventId: string, createdAt: int, entity: Entity)

  function RowOf(db: Db, job: nat): Row {
    var e := if job < |db.jobs| then db.jobs[job].eventId else "";
    Row(job, e, CreatedAt(db, job), if e in db.rawEvents then db.rawEvents[e].entity else Entity(None, "", false))
  }

  function RowsOf(db: Db, jobs: seq<nat>): seq<Row> {
    seq(|jobs|, i requires 0 <= i < |jobs| => RowOf(db, jobs[i]))
  }

  /** The rows handed out by a claim on `db`. */
  function Handed(db: Db, limit: nat, cutoff: Option<int>, maxAttempts: Option<nat>): seq<Row> {
    var failed := AfterFailing(db, maxAttempts);
    RowsOf(failed, ClaimedRows(failed, cutoff, limit))
  }

  class Store {
    var rawEvents: map<string, RawEvent>
    var jobs: seq<Job>
    var cases: seq<Case>
    var chainAttempts: seq<ChainAttempt>
    var decisions: map<string, Decision>
    var audit: seq<AuditEvent>

    function View(): Db
      reads this
    {
      Db(rawEvents, jobs, cases, chainAttempts, decisions, audit)
    }

    constructor ()
      ensures View() == EMPTY_DB
    {
      rawEvents, jobs, cases, chainAttempts, decisions, audit := map[], [], [], [], map[], [];
    }

    method RecordRaw(eventId: string, raw: RawEvent) returns (isNew: bool)
      modifies this`rawEvents
      ensures isNew == (eventId !in old(rawEvents))
      ensures View() == RecordRawEvent(old(View()), eventId, raw)
    {
      isNew := eventId !in rawEvents;
      if isNew {
        rawEvents := rawEvents[eventId := raw];
      }
    }

    method Enqueue(eventId: string) returns (added: bool)
      modifies this`jobs
      ensures added == !HasJob(old(jobs), eventId)
      ensures View() == EnqueueJob(old(View()), eventId)
    {
      added := !HasJob(jobs, eventId);
      if added {
        jobs := jobs + [Job(eventId, Pending, 0, None)];
      }
    }

    method Claim(limit: nat, cutoff: Option<int>, stamps: nat -> int, maxAttempts: Option<nat>) returns (rows: seq<Row>)
      modifies this`jobs
      ensures View() == ClaimJobs(old(View()), limit, cutoff, stamps, maxAttempts)
      ensures rows == Handed(old(View()), limit, cutoff, maxAttempts)
    {
      jobs := FailExhausted(jobs, maxAttempts);
      var claimed := ClaimedRows(View(), cutoff, limit);
      rows := RowsOf(View(), claimed);
      ghost var unmarked := jobs;
      for i := 0 to |claimed|
        invariant jobs == MarkAllClaimed(unmarked, claimed[..i], stamps)
      {
        assert claimed[..i + 1][..i] == claimed[..i];
        jobs := MarkClaimed(jobs, claimed[i], stamps(i));
      }
      assert claimed[..|claimed|] == claimed;
    }

    method Finish(job: nat, state: JobState)
      modifies this`jobs
      ensures View() == FinishJob(old(View()), job, state)
    {
      if job < |jobs| {
        jobs := jobs[job := jobs[job].(state := state)];
      }
    }

    method InsertCaseRow(chainKey: string, orderId: Option<string>, payment: string, createdAt: int)
      returns (isNew: bool)
      modifies this`cases
      ensures isNew == !HasCase(old(View()), chainKey)
      ensures View() == InsertCase(old(View()), chainKey, orderId, payment, createdAt)
    {
      isNew := FindCase(cases, chainKey) == |cases|;
      if isNew {
        cases := cases + [Case(chainKey, orderId, payment, Open, createdAt)];
      }
    }

    /** The read-back of `open_case`: the first case of the chain, or none. */
    method ReadCase(chainKey: string) returns (caseId: nat)
      ensures caseId < |cases| ==> cases[caseId].chainKey == chainKey
      ensures caseId >= |cases| ==> caseId == |cases|
      ensures forall i :: 0 <= i < caseId ==> cases[i].chainKey != chainKey
    {
      caseId := FindCase(cases, chainKey);
    }

    method Advance(caseId: nat, state: CaseState, createdAt: int)
      modifies this`cases
      ensures View() == AdvanceCase(old(View()), caseId, state, createdAt)
    {
      if caseId < |cases| {
        cases := cases[caseId := cases[caseId].(state := state, lastEventCreatedAt := createdAt)];
      }
    }

    method Assign(chainKey: string, payment: string) returns (n: nat)
      modifies this`chainAttempts
      ensures View() == AssignAttempt(old(View()), chainKey, payment)
      ensures n == AttemptN(old(View()), chainKey, payment)
    {
      if FindAttempt(chainAttempts, chainKey, payment) == |chainAttempts| {
        chainAttempts := chainAttempts + [ChainAttempt(chainKey, payment, MaxAttempt(chainAttempts, chainKey) + 1)];
      }
      var i := FindAttempt(chainAttempts, chainKey, payment);
      n := if i < |chainAttempts| then chainAttempts[i].attemptN else 0;
    }

    method Record(d: Decision) returns (isNew: bool)
      modifies this`decisions
      ensures isNew == (d.Key() !in old(decisions))
      ensures View() == RecordDecision(old(View()), d)
    {
      isNew := d.Key() !in decisions;
      if isNew {
        decisions := decisions[d.Key() := d];
      }
    }

    method Append(entry: AuditEvent)
      modifies this`audit
      ensures View() == AppendAudit(old(View()), entry)
    {
      audit := audit + [entry];
    }
  }

  // ------------------------------------------------------ what a claim takes --

  ghost predicate Distinct<T(!new)>(s: seq<T>) {
    forall i, j :: 0 <= i < j < |s| ==> s[i] != s[j]
  }

  /** Job `a` is handed out before job `b`: its event is older, or as old and stored earlier. */
  predicate Earlier(db: Db, a: nat, b: nat) {
    CreatedAt(db, a) < CreatedAt(db, b) || (CreatedAt(db, a) == CreatedAt(db, b) && a < b)
  }

  ghost predicate SortedByAge(db: Db, s: seq<nat>) {
    forall i, j :: 0 <= i < j < |s| ==> Earlier(db, s[i], s[j])
  }

  predicate AllBelow(rows: seq<nat>, n: nat) {
    forall i :: 0 <= i < |rows| ==> rows[i] < n
  }

  ghost predicate Ascending(rows: seq<nat>) {
    forall i, j :: 0 <= i < j < |rows| ==> rows[i] < rows[j]
  }

  lemma {:induction false} ClaimableRowsSpec(jobs: seq<Job>, cutoff: Option<int>, n: nat)
    requires n <= |jobs|
    ensures forall id: nat :: id in ClaimableRows(jobs, cutoff, n) <==> id < n && Claimable(jobs[id], cutoff)
    ensures Ascending(ClaimableRows(jobs, cutoff, n))
  {
    if n > 0 {
      var before := ClaimableRows(jobs, cutoff, n - 1);
      ClaimableRowsSpec(jobs, cutoff, n - 1);
      assert forall i :: 0 <= i < |before| ==> before[i] in before;
    }
  }

  /** Insertion of a later row adds that row and keeps the order. */
  lemma {:induction false} InsertByAgeSpec(db: Db, rows: seq<nat>, row: nat)
    requires SortedByAge(db, rows) && AllBelow(rows, row)
    ensures var s := InsertByAge(db, rows, row);
            SortedByAge(db, s) && forall id :: id in s <==> id == row || id in rows
  {
    if rows != [] {
      var front, last := rows[..|rows| - 1], rows[|rows| - 1];
      assert rows == front + [last];
      if CreatedAt(db, last) > CreatedAt(db, row) {
        InsertByAgeSpec(db, front, row);
        var inner := InsertByAge(db, front, row);
        forall i | 0 <= i < |inner|
          ensures Earlier(db, inner[i], last)
        {
          assert inner[i] in inner;
        }
      } else {
        forall i | 0 <= i < |rows|
          ensures Earlier(db, rows[i], row)
        {
          assert rows[i] in rows;
          assert i < |rows| - 1 ==> Earlier(db, rows[i], last);
        }
      }
    }
  }

  lemma {:induction false} ByAgeSpec(db: Db, rows: seq<nat>)
    requires Ascending(rows)
    ensures var s := ByAge(db, rows);
            SortedByAge(db, s) && forall id :: id in s <==> id in rows
  {
    if rows != [] {
      var front, last := rows[..|rows| - 1], rows[|rows| - 1];
      assert rows == front + [last];
      ByAgeSpec(db, front);
      BelowLast(ByAge(db, front), front, last);
      InsertByAgeSpec(db, ByAge(db, front), last);
    }
  }

  lemma BelowLast(s: seq<nat>, rows: seq<nat>, last: nat)
    requires AllBelow(rows, last) && forall id :: id in s ==> id in rows
    ensures AllBelow(s, last)
  {
    forall i | 0 <= i < |s|
      ensures s[i] < last
    {
      assert s[i] in s;
    }
  }

  /** A claim takes claimable jobs, oldest event first and earliest stored among equals, and leaves a
      claimable job behind only when the batch is full of jobs that come earlier. */
  lemma ClaimSpec(db: Db, cutoff: Option<int>, limit: nat)
    ensures var taken := ClaimedRows(db, cutoff, limit);
            && Distinct(taken) && SortedByAge(db, taken) && |taken| <= limit
            && (forall id :: id in taken ==> id < |db.jobs| && Claimable(db.jobs[id], cutoff))
            && forall id: nat :: id < |db.jobs| && Claimable(db.jobs[id], cutoff) && id !in taken ==>
                                   |taken| == limit && forall k :: k in taken ==> Earlier(db, k, id)
  {
    ClaimableRowsSpec(db.jobs, cutoff, |db.jobs|);
    ByAgeSpec(db, ClaimableRows(db.jobs, cutoff, |db.jobs|));
    TakeSpec(db, ByAge(db, ClaimableRows(db.jobs, cutoff, |db.jobs|)), limit);
  }

  lemma TakeSpec(db: Db, s: seq<nat>, limit: nat)
    requires SortedByAge(db, s)
    ensures var taken := Take(s, limit);
            && Distinct(taken) && SortedByAge(db, taken) && |taken| <= limit
            && (forall id :: id in taken ==> id in s)
            && forall id :: id in s && id !in taken ==>
                              |taken| == limit && forall k :: k in taken ==> Earlier(db, k, id)
  {
    var taken := Take(s, limit);
    forall i, j | 0 <= i < j < |taken|
      ensures taken[i] != taken[j]
    {
      assert Earlier(db, taken[i], taken[j]);
    }
    forall id, k | id in s && id !in taken && k in taken
      ensures Earlier(db, k, id)
    {
      var at :| 0 <= at < |s| && s[at] == id;
      var kt :| 0 <= kt < |taken| && taken[kt] == k;
      assert taken[kt] == s[kt];
      assert forall i :: 0 <= i < |taken| ==> s[i] == taken[i];
    }
  }

  /** The k-th row taken is marked once, at the k-th clock reading; the others are left alone. */
  lemma {:induction false} MarkAllSpec(jobs: seq<Job>, rows: seq<nat>, stamps: nat -> int)
    requires Distinct(rows) && AllBelow(rows, |jobs|)
    ensures var marked := MarkAllClaimed(jobs, rows, stamps);
            && |marked| == |jobs|
            && (forall i :: 0 <= i < |jobs| && i !in rows ==> marked[i] == jobs[i])
            && forall k :: 0 <= k < |rows| ==> marked[rows[k]] == Marked(jobs[rows[k]], stamps(k))
  {
    if rows != [] {
      var front := rows[..|rows| - 1];
      assert rows == front + [rows[|rows| - 1]];
      MarkAllSpec(jobs, front, stamps);
    }
  }

  /** What a claim does to any one job of any table. A job is taken or left. A job left is failed if its
      last claim died and its attempts are used up, and else untouched; the k-th job taken is claimed at
      the k-th clock reading, with one more attempt. */
  lemma ClaimOfOneJob(db: Db, limit: nat, cutoff: Option<int>, stamps: nat -> int, maxAttempts: Option<nat>, i: nat)
    requires i < |db.jobs|
    ensures var before, taken := db.jobs[i], ClaimedRows(AfterFailing(db, maxAttempts), cutoff, limit);
            var after := ClaimJobs(db, limit, cutoff, stamps, maxAttempts).jobs;
            var exhausted := maxAttempts.Some? && before.state == Claimed && before.attempts >= maxAttempts.value;
            && |after| == |db.jobs|
            && (i in taken ==> !exhausted && Claimable(before, cutoff) &&
                               exists k :: 0 <= k < |taken| && taken[k] == i && after[i] == Marked(before, stamps(k)))
            && (i !in taken ==> after[i] == if exhausted then before.(state := FailedJob) else before)
  {
    var failed := AfterFailing(db, maxAttempts);
    var taken := ClaimedRows(failed, cutoff, limit);
    assert Distinct(taken) && AllBelow(taken, |failed.jobs|) && (i in taken ==> Claimable(failed.jobs[i], cutoff)) by {
      ClaimSpec(failed, cutoff, limit);
      assert forall k :: 0 <= k < |taken| ==> taken[k] in taken;
    }
    MarkAllSpec(failed.jobs, taken, stamps);
    if i in taken {
      var k :| 0 <= k < |taken| && taken[k] == i;
    }
  }
}
