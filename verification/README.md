# Payment recovery: a verified model

This project models the event core, the compliance arithmetic, the storm governor, the classifier,
the allocator and the simulator of the payment-recovery system, and proves what its documentation
promises of them, or, where the code does something else, exactly what it does.

`dafny verify dfyconfig.toml` checks everything.

## How it is laid out

| files | what they model |
|---|---|
| `Models`, `Text` | shared enumerations; the idempotency key as a string |
| `Calendar`, `Guard`, `Scheduling` | peak windows, notification deadlines, admission control, the search for a slot |
| `Rules`, `Slots` | which broken rule is the reason given; which slot is found |
| `Governor`, `Verdicts` | the per-issuer sliding-window limiter; state, ceiling and verdict from counts over the whole history |
| `Store`, `Protocol`, `Worker` | the tables, ingest and worker as sequences of commits, and the imperative code |
| `Reception`, `Effects`, `Admissions`, `Tallies` | what a delivery, a job and a pass leave in tables, trail and statistics, field by field; whom the worker's guard admits |
| `Safety`, `Interleaving` | what each commit keeps; any number of processes, one commit at a time |
| `Claims`, `Provenance` | over every interleaving: whose work a claim hands out, and on which refreshed snapshot each decision was admitted |
| `Announcements`, `Orphans`, `Regressions`, `Attempts` | over every interleaving: which decisions never reach the trail, which events never get a job, which cases go back in time, how often a job is attempted |
| `Schedules` | fragments of concrete runs |
| `JobAtomic`, `JobOutcome`, `Redelivery`, `Progress`, `Reopening` | runs in which a delivery or a job is one step |
| `Adversary`, `Hazards`, `NoViolation`, `Tightness`, `Search` | the adversarial search: its steps and what each does, its checks, why it finds nothing, and why it bounds the payments |
| `Classifier`, `Allocator`, `Plans`, `Wiring` | rule table and cost fallback, decision table and plan, both clause by clause, the allocator behind the worker |
| `Metrics`, `Environment`, `Simulation`, `Simulated`, `Daily`, `Ledger`, `NeverRefused`, `RunTerms` | the simulator, what it makes of each proposal, its books, and the allocator inside it |

Conventions. An instant is a number of microseconds on the IST wall clock. A database is a value `Db`
with one field per table; each function on it is one SQL statement or transaction, and the class
`Store` executes those functions. A `Thread` is what is left of one `ingest_delivery` or
`_process_one` call: pending writes and the next call whose answer matters, so a crash or another
worker can come between any two commits. The imperative methods of `Worker` are each proved to be
their thread run to its end, so a result about threads is a result about them. What classifier,
decider, gateway and clocks say is arbitrary everywhere (`Oracle`, `Choice`, `Move`, `Turn`, `Draws`).
In the adversarial search this makes the decider arbitrary where the source uses a placeholder that
always holds, and the redelivered event any delivered one where the source takes the index-th in
sorted order; and decisions noted in one step form a set, since no check reads their order. A
governor's `min_observations` is positive, as its configuration demands.

## Main results

- **Every interleaving is safe.** With any number of workers, crashes between any two commits, a slow
  worker and its replacement sharing a job, and a gateway that changes its mind, each chain has one
  case and attempt numbers 1..k that never change, a payment gets at most one decision per policy
  version, the guard's cap bounds the executions of a chain whatever the decider wants, and the trail
  explains every decision it announces.
- **Work is exclusive, and obligations are warranted.** No job is in two hands unless a claim went past a
  stamp, and dead work is taken up by the next claim with room. Every decision was admitted on the very
  snapshot its call refreshed, so no announced obligation is on an order that had expired by then.
- **Every answer is settled.** Slot, reason, condition, ceiling, verdict, plan, tables, trail and statistics
  are each given by a condition on the inputs, apart from the functions that compute them.
- **The adversarial search as a theorem.** Executing and checking any scenario, of any length, yields
  no violation; and for a given number of payments that is so if and only if they are within the cap.
- **Every decision is accounted for** in every state: announced, about to be, or lost to a crash that hit
  in between; and behind every case that goes back in time there is a race between two workers.
- **The allocator is never refused**, neither by the simulator's guard over whole runs, with exact terms
  on contacts, nor by the worker's guard at a later clock reading.
- **The governor refines the full history** and bounds every interval as long as its window.
- **The books balance and budgets hold** against any arm and any draws.
- **Costs do not reach actions, and the order of rules does not reach verdicts**, with exact conditions.

## Where the code and its own description differ

- `next_compliant_slot` (recovery/sim/calendar.py:75-87) is described as the first non-peak minute at or
  after the moment asked. It steps by quarter hours from the truncated minute, so it answers as described
  if and only if the first non-peak minute from there is a whole number of quarter hours away and is not
  the very minute under way (`Calendar.AsDocumentedIff`); on the shipped calendar 10:14 gives 13:14
  (`Calendar.SlotInMorningPeak`). The search is monotone if and only if no free time starts at a whole
  minute (`Calendar.SearchMonotoneIff`), so on no calendar with both free and peak whole minutes.
- `compliant_slot` never returns when a first slot is past the UPI deadline under a calendar whose
  mornings are past it too (`Scheduling.LoopStopsIff`). The configuration accepts such calendars
  (`Scheduling.LateMorningsNeverStop`); the shipped one is not among them.
- `compliant_slot` is described as the first compliant slot. It answers the first point of its grid that is
  off peak; when that is past the UPI deadline it rolls over to half past midnight of the next day, and
  skips what is legal before. So it answers as described, on its grid, if and only if it does not roll over
  or all it skips is peak (`Slots.FirstCompliantIff`): on the shipped calendar a search from 21:40 answers
  00:30, though 00:10 is on its grid and legal (`Slots.ShippedSearchSkips`).
- `jitter` is described as never making a proposal non-compliant. For every key at once that holds if
  and only if no peak window starts, and no UPI deadline falls, within its reach of the slot (and the
  notification lead survives, as under any cutoff past the first minute of a day it does:
  `Scheduling.JitterCompliantIff`); the shipped calendar has slots where one does
  (`Scheduling.JitterCanReachPeak`).
- A case closed because a payment resolved becomes DECIDED again exactly when a job on its order, for
  any payment, is fresh, unresolved, admitted and undecided (`JobOutcome.ClosedCaseReopensIff`), as in
  the run of `Reopening.ReopeningReopens`.
- The attempt limit of a job counts claims that died, not refreshes that failed. A claim exceeds it if
  and only if it takes a waiting job that has reached it (`Attempts.LimitReachedIff`). So attempts are
  bounded by the limit plus the returns to the queue (`Attempts.AttemptsAreBounded`), and grow without
  end while refreshes fail (`Progress.AttemptsAreUnbounded`).
- "As many announcements as decisions" holds when jobs are one step. Commit by commit the decisions are
  the announcements, plus those pending at live processes, plus the crashes that hit a process with one
  pending (`Announcements.DecisionsBalance`). So it holds if and only if no crash hit one and no process
  is between storing a decision and announcing it (`Announcements.AsManyIff`).
  `Announcements.LosingRunLoses` is a run in which a crash does, and what is lost stays lost
  (`Announcements.LostForEver`).
- "Out-of-order delivery must not regress state" (recovery/worker.py:353) holds when jobs are one step.
  Commit by commit a case goes back exactly when a worker writes it with an event older than the case's
  last (`Regressions.NeverRegressesIff`), which takes another worker that wrote it since
  (`Regressions.RegressionIsARace`) and does happen (`Regressions.RaceRegresses`).
- A delivery is stored and enqueued in two commits, and a stored event is a duplicate from then on. An
  event is left without a job for ever if and only if a crash hit its ingest in between
  (`Orphans.OrphanIff`, `Orphans.OrphanForEver`).
- The loader checks that conflicting rules agree on class and confidence, not on the cause family. That
  is independent of the order of the file if and only if conflicting rules agree on it too
  (`Classifiers.CauseFamilyIffOrderIrrelevant`, with pairs that do not in
  `Classifiers.CauseFamilyDependsOnOrder`).

## Model

| member | source | states |
|---|---|---|
| Text.KeyInjective | recovery/worker.py:48-49 | two equal idempotency keys under versions that do not collide name the same payment, version and attempt |
| Text.KeysAmbiguousIff | recovery/worker.py:48-49 | some two different triples share a key if and only if one version is the other's tail after a colon |
| Text.ColonFreeVersionsNeverCollide | recovery/worker.py:48-49 | versions without a colon never collide |
| Calendar.ComplianceCalendar.NextCompliantSlot | recovery/sim/calendar.py:75-87 | the loop returns the result of the search function the next rows specify |
| Calendar.NextSlotFromSpec | recovery/sim/calendar.py:75-87 | a found slot is the first non-peak point of the quarter-hour grid from the truncated start; an exhausted search saw only peak |
| Calendar.NextSlotNoneIff | recovery/sim/calendar.py:75-87 | the bounded search fails exactly when no grid point is ever non-peak |
| Calendar.NextSlotNearFirstMinute | recovery/sim/calendar.py:75-87 | with gaps of at least a quarter hour, the slot is the first grid point at or after the true first non-peak minute |
| Calendar.SlotExists | recovery/sim/calendar.py:75-87 | with wide gaps and some non-peak minute, the search never comes back empty |
| Calendar.AsDocumentedIff | recovery/sim/calendar.py:75-87 | for every calendar and moment: the search answers as documented if and only if the first non-peak minute is a whole number of quarter hours away and is not the minute under way |
| Calendar.SlotAtFirstMinuteIff | recovery/sim/calendar.py:82-86 | the slot is the first non-peak minute exactly when that is a multiple of 15 minutes away, and is before the moment asked exactly when the minute under way is free |
| Calendar.SlotInMorningPeak | recovery/sim/calendar.py:78-86 | where the shipped search lands for every start in the morning peak, up to 14 minutes late |
| Calendar.SearchMonotoneIff | recovery/sim/calendar.py:75-87 | a later start never gets an earlier slot, with no slot counting as latest, if and only if no stretch of free time starts at a whole minute |
| Calendar.ShippedGapsAreWide | config/default.yaml:143-145 | every stretch of non-peak time of the shipped calendar lasts at least a quarter hour |
| Calendar.PdnMonotoneIff | recovery/sim/calendar.py:89-103 | the notification deadline is monotone in the debit for every lead if and only if the cutoff is at least a minute (less a microsecond) into the day |
| Calendar.PdnAntitoneIff | recovery/sim/calendar.py:89-103 | a longer lead never gives a later deadline, for every debit, if and only if the cutoff is that far into the day |
| Calendar.CutoffNeverBindsIff | recovery/sim/calendar.py:98-103 | for every time of day as cutoff: it changes no deadline if and only if the lead is long enough, as an exact inequality |
| Calendar.ShippedCutoffNeverBindsIff | config/default.yaml:136-141 | the 23:50 cutoff never binds if and only if the lead is at least 25 hours |
| Calendar.CutoffCostsTenMinutes | recovery/sim/calendar.py:98-103 | with a cutoff no earlier than 23:50, a whole-minute deadline loses at most ten minutes |
| Guards.AllowedIff | recovery/guard.py:214-391 | the guard admits exactly the live proposals that its own rules and the calendar's independent check both permit |
| Rules.LeadOfRail | recovery/sim/calendar.py:58-59 | a rail has its own lead or the default one |
| Rules.DeadlineIff | recovery/sim/calendar.py:89-103 | a notification is in time when it leaves the lead and, where the lead ends on the day before the debit or later, comes a full minute before the cutoff |
| Rules.CheckAttemptIs | recovery/sim/calendar.py:105-134 | the calendar's check names the first broken of five rules, each written on the fields of calendar and attempt |
| Rules.FirstBrokenRule | recovery/guard.py:214-391 | the guard names the first of thirteen rules that a request breaks, each written on the fields of guard and request, and admits what breaks none |
| Guards.CheckersNameTheSameRule | recovery/guard.py:302-364 | guard and calendar report the same rule, except that the UPI deadline outranks the peak window in the guard |
| Scheduling.CompliantSlot | allocator/scheduling.py:41-77 | the rollover loop terminates under the exact condition of LoopStopsIff and returns the slot after at most one rollover; which slot that is, Slots.SlotIsFirst says |
| Slots.SlotIsFirst | allocator/scheduling.py:41-77 | the slot is the first off-peak point of the quarter-hour grid from half past midnight of the target day, or from lead and a quarter of an hour after now if later; past the UPI deadline it is 00:30 of the next day |
| Slots.EarlierPointsFail | allocator/scheduling.py:41-77 | every earlier point of the grid fails the calendar's check, but for the first half hour of a day rolled over to |
| Slots.FirstCompliantIff | allocator/scheduling.py:48-77 | the slot is the first compliant point of its grid if and only if it did not roll over or all it skipped is peak |
| Slots.SlotIsPrompt | allocator/scheduling.py:41-77 | without rollover the slot is less than a quarter of an hour past the first minute off peak |
| Slots.ShippedSlot | config/default.yaml:128-150 | asked at three in the morning for a UPI slot the next day: 04:15 |
| Slots.ShippedSearchSkips | allocator/scheduling.py:68-76 | a search from 21:40 skips the legal 00:10 |
| Scheduling.LoopStopsIff | allocator/scheduling.py:58-77 | from a slot past the deadline, some turn of the loop stops if and only if mornings are in time |
| Scheduling.LateMorningsNeverStop | allocator/scheduling.py:58-77 | under a calendar the configuration accepts, no search for a UPI slot ever stops, from any moment for any day |
| Scheduling.OneRolloverSuffices | allocator/scheduling.py:68-76 | after one rollover no slot is past the deadline when mornings are in time |
| Scheduling.CompliantSlotExists | allocator/scheduling.py:41-77 | under a well-shaped calendar a slot always exists, on or after the target day, past the margin, off peak and legal for its rail |
| Scheduling.ShippedIsWellShaped | config/default.yaml:128-150 | the shipped calendar is well-shaped |
| Scheduling.SlotPassesGuardLater | allocator/wiring.py:95-109 | the slot passes the guard's timing rules up to 14 minutes later for leads of 25 hours or more, 4 minutes for any lead |
| Scheduling.JitterCompliantIff | recovery/governor.py:299-312 | jitter keeps a compliant slot compliant for every key if and only if no peak window starts and no UPI deadline falls within its reach, and the lead survives, which it does unless the cutoff is in the first minute of the day |
| Scheduling.JitterCanReachPeak | recovery/governor.py:299-312 | the shipped jitter moves a compliant 16:30 slot into the evening peak |
| Scheduling.NextFundingDay | allocator/scheduling.py:84-99 | the first funding day within reach, or the start when there is none |
| Governor.StormGovernor.TrimIssuer | recovery/governor.py:155-159 | the front of both deques is dropped while older than the cutoff |
| Governor.StormGovernor.Observe | recovery/governor.py:197-201 | the new state after an observation |
| Governor.StormGovernor.ObserveDowntime | recovery/governor.py:203-216 | the new state after a downtime notice |
| Governor.StormGovernor.ReadFailureShare | recovery/governor.py:224-238 | the share of failures in the window or none below the threshold, and the trimming it does |
| Governor.StormGovernor.ReadState | recovery/governor.py:240-255 | the state, a downtime notice first, and when it trims; which state that is, Verdicts.StateIs says |
| Verdicts.StateIs | recovery/governor.py:203-255 | by counts over all calls: DEGRADED or STRAINED by the severity of the last notice while it is in force; else HEALTHY below the threshold of observations; else by the share of failures in the window |
| Verdicts.ShareIff | recovery/governor.py:224-238 | the share of failures reaches a limit exactly when the failures reach that part of the observations |
| Verdicts.VerdictIs | recovery/governor.py:257-295 | each state has the ceiling of its name, and an admission is granted exactly while fewer were granted in the window |
| Verdicts.FailuresNeverRaiseCeiling | recovery/governor.py:240-264 | under tightening limits more failures among as many observations never raise the ceiling |
| Verdicts.ShippedVerdicts | config/default.yaml:106-117 | of ten observations six failures mean ceiling 5, two to five 20, fewer 50 |
| Governor.StormGovernor.CeilingFor | recovery/governor.py:257-264 | the ceiling of the state at that moment |
| Governor.StormGovernor.Admit | recovery/governor.py:266-295 | verdict and new state of an admission |
| Governor.WindowIsTrimmedHistory | recovery/governor.py:155-159 | under any sequence of clocked calls a window is its issuer's whole history trimmed at a cutoff the clock has passed |
| Governor.DowntimeIsNoticeInForce | recovery/governor.py:203-222 | the stored notice is the last one for its key, if that was active |
| Governor.GovernorRefinesHistory | recovery/governor.py:224-295 | failure share, state and verdict equal those computed by filtering the full history by time |
| Governor.AdmissionIsBelowCeiling | recovery/governor.py:266-295 | an admission is granted only below the ceiling of the state at that moment |
| Governor.SlidingWindowRateBound | recovery/governor.py:266-295 | no closed interval as long as the window holds more recorded admissions of an issuer than the largest ceiling, the base one in every valid configuration |
| Governor.VerdictsDoNotInterfere | recovery/governor.py:197-295 | erasing every call on other issuers changes no verdict |
| Stores.Store.RecordRaw | recovery/store.py:165-187 | new exactly when the event id is new; an existing row is untouched |
| Stores.Store.Enqueue | recovery/store.py:194-200 | one job per event id |
| Stores.Store.Claim | recovery/store.py:202-251 | exhausted claims are failed, then the claimed rows are marked one by one, each at its own clock reading, and handed out; whose they are, Claims.HandsOutDue says |
| Claims.HandsOutDue | recovery/store.py:227-246 | every job handed out waited, or was claimed strictly before the cutoff below its limit; every such job is handed out unless the batch is full of jobs whose events come before its own |
| Claims.HandsOutInOrder | recovery/store.py:235-251 | the rows come in order of event time and then of storing, each once, no more than a batch |
| Claims.ClaimWrites | recovery/store.py:225-251 | what the claim writes to each job, field by field |
| Claims.DeadWorkIsRetaken | recovery/store.py:235-251 | a job held since before the cutoff is attempted again or failed, unless the batch is full of earlier ones |
| Claims.WorkIsExclusive | recovery/store.py:202-251 | in every run in which no claim went past the stamp of a job a live process holds, no two live processes hold one job |
| Claims.RunsLeaveLiveWork | recovery/store.py:235-251 | over any run, no claim hands out a job held since its cutoff or later |
| Claims.RunsRetakeDeadWork | recovery/worker.py:129-143 | over any run, a claim with room hands out, or fails, every job held since before its cutoff |
| Stores.ClaimSpec | recovery/store.py:235-251 | a claim takes distinct claimable jobs, oldest event first and in row order among equals, and leaves one behind only when the batch is full of earlier ones |
| Stores.ClaimOfOneJob | recovery/store.py:225-251 | what a claim does to each job of any table: taken, failed as exhausted, or untouched |
| Stores.Store.InsertCaseRow | recovery/store.py:275-292 | a case is inserted only when its chain has none |
| Stores.Store.ReadCase | recovery/store.py:269-295 | the position answered holds a case of the chain, no earlier one does, and past the end means there is none |
| Stores.Store.Assign | recovery/store.py:319-339 | the number of a payment in its chain, assigned on first sight |
| Stores.Store.Record | recovery/store.py:341-358 | stored exactly when its key is new |
| Stores.Store.Advance | recovery/store.py:297-302 | state and time of one case change |
| Stores.Store.Finish | recovery/store.py:253-254 | the state of one job changes |
| Stores.Store.Append | recovery/store.py:370-388 | one trail entry is appended |
| Worker.SimulatedGateway.FetchPayment | recovery/gateway.py:81-89 | the stored state, or an error for an unknown payment or an armed failure, and what it counts |
| Worker.SimulatedGateway.SetState | recovery/gateway.py:77-79 | the named fields of one payment change and no others, and an unknown payment is registered |
| Reception.TurnedAway | recovery/ingest.py:51-103 | outcome and database of every delivery that is malformed, unsupported or filtered |
| Reception.TakenIn | recovery/ingest.py:88-128 | outcome and database of every other one: stored with a job that waits the first time, noted later |
| Worker.IngestDelivery | recovery/ingest.py:51-128 | outcome and database are those of the ingest thread run to its end |
| Worker.ProcessOne | recovery/worker.py:284-469 | outcome, database and gateway are those of the job's thread run to its end |
| Worker.ProcessSnapshot | recovery/worker.py:335-352 | resolving the chain, from the refreshed snapshot on |
| Worker.ApplyToCase | recovery/worker.py:343-352 | a job is attached to its case, and goes on as ApplyAttached says |
| Worker.ApplyAttached | recovery/worker.py:354-382 | stale events, resolved payments, and what goes on to be decided |
| Worker.ClassifyAndDecide | recovery/worker.py:384-389 | the notes of the classification reach the trail in order |
| Worker.DecideOnce | recovery/worker.py:387-446 | the attempt number, the admission and what is recorded; whom the guard admits, Admissions.JobIsAdmitted says |
| Admissions.AdmissionIs | recovery/worker.py:391-413 | the worker's guard refuses an obligation for the first thing that status, order, expiry, rail, attempt number, slot and moment speak against, and nothing but an obligation needs it |
| Admissions.JobIsAdmitted | recovery/worker.py:384-446 | the job of an unsettled payment: refused for that reason, with the trail saying so and nothing decided, or admitted and recorded unless its key is taken |
| Admissions.ExpiredOrderIsRefused | recovery/worker.py:408-433 | an obligation due when its order has expired is refused and nothing is decided |
| Provenance.EveryDecisionIsWarranted | recovery/worker.py:306-446 | in every interleaving, each stored decision was admitted on the very snapshot its call had refreshed the payment with |
| Provenance.NoExpiredObligation | recovery/worker.py:391-446 | behind guards, no announced obligation is on an order expired in that snapshot when it was due |
| Effects.UnrefreshedJob | recovery/worker.py:296-322 | tables, trail and outcome of a job without payment or refresh |
| Effects.StaleJob | recovery/worker.py:353-367 | of a job whose event is older than the last one of its case |
| Effects.SettledJob | recovery/worker.py:369-382 | of a job whose payment came good |
| Effects.UnsettledJob | recovery/worker.py:384-469 | of any other job: refused, suppressed, or the one new decision, with case, number, notes and announcement |
| Worker.RecordOnce | recovery/worker.py:437-469 | one decision per key, announced, or suppressed |
| Worker.WorkerStats.Add | recovery/worker.py:216-461 | the increments of each outcome add up to the tally that PassReportsItsDecisions is about |
| Tallies.PassIsTallied | recovery/worker.py:129-166 | each counter of a pass is the number of its jobs that ended that way, of all claimed jobs or of those up to the one that raised |
| Worker.ProcessPendingJobs | recovery/worker.py:129-166 | a pass claims, then processes the claimed rows in order until one raises |
| Safety.AssignKeepsNumbers | recovery/store.py:319-339 | a numbered table stays numbered, and the number answered is the payment's |
| Safety.NumbersAreOneToK | recovery/store.py:319-339 | the numbers on a chain are exactly 1..k |
| Safety.NumbersInOrder | recovery/store.py:319-339 | two rows of a chain have different payments and increasing numbers |
| Safety.CommitKeeps | recovery/worker.py:284-469 | one commit of one thread keeps every invariant of database and thread, takes nothing back and announces no one else's decision |
| Safety.OneDecisionPerPayment | recovery/worker.py:423-446 | a payment has at most one decision under a version |
| Safety.ChainCap | recovery/worker.py:391-446 | behind a guard no chain holds more than cap - 1 scheduled executions under a version |
| Interleaving.RunKeeps | recovery/store.py:154-358 | every state of every interleaving is good |
| Interleaving.ChainsAreWellFormed | recovery/store.py:275-339 | one case per chain, in its payment's chain, and numbers exactly 1..k, in every interleaving |
| Interleaving.AttemptsAreStable | recovery/store.py:319-339 | attempts on a chain share neither number nor payment, and never change later |
| Interleaving.ExactlyOnce | recovery/worker.py:423-446 | at any two moments of any run, a payment's decision under a version is one and the same |
| Interleaving.ChainCapAlways | recovery/worker.py:391-446 | the chain cap in every state of every run, for any decider |
| Interleaving.TrailExplains | recovery/worker.py:306-453 | each announced decision is stored, announced once, and preceded by an unresolved refresh and, for guarded obligations, an admission of the same event |
| Interleaving.SuppressedOnlyForTheSame | recovery/worker.py:460-467 | a decision is suppressed only in favour of one of the same payment, version and attempt |
| Interleaving.ResolvedIsFinal | recovery/worker.py:366-382 | once a payment stays resolved and no earlier call is in flight, no run gives it another decision |
| Announcements.LostIff | recovery/worker.py:446-453 | a decision is stored, unannounced and pending nowhere if and only if some crash of the run hit the process about to announce it |
| Announcements.DecisionsBalance | recovery/worker.py:446-453 | in every state of every run: decisions stored = announcements made + announcements pending at live processes + crashes that hit one pending |
| Announcements.AsManyIff | recovery/invariants.py:426-439 | there are as many announcements as decisions if and only if no crash of the run hit between storing and announcing one and no process is there now |
| Announcements.AllAnnouncedIff | recovery/worker.py:446-453 | after a run every stored decision is announced or about to be, if and only if no crash hit a process between storing and announcing one |
| Announcements.LostForEver | recovery/worker.py:446-453 | no later run announces a lost decision |
| Announcements.LosingRunLoses | recovery/worker.py:284-453 | a run of fifteen choices from the empty database that loses a decision |
| Orphans.OrphanIff | recovery/ingest.py:110-127 | a stored event has no job, and none coming, if and only if some crash of the run hit its ingest between storing it and enqueueing the job |
| Orphans.OrphanForEver | recovery/ingest.py:110-127 | no later run, whatever is delivered again, gives it a job |
| Orphans.OrphaningRun | recovery/ingest.py:110-127 | three choices from the empty database that orphan an event |
| Regressions.StepRegressesIff | recovery/store.py:297-302 | a step takes a case back exactly when it commits an update with an event older than the case's last |
| Regressions.NeverRegressesIff | recovery/worker.py:353-382 | no case goes back between any two moments of a run if and only if no step of it is such an update |
| Regressions.RegressionIsARace | recovery/worker.py:353-382 | before such an update, another process wrote a case past what the writer still meant to write |
| Regressions.RaceRegresses | recovery/worker.py:353-382 | a run of two workers from the empty database after which a case goes back from a newer event to an older |
| JobAtomic.CasesNeverRegress | recovery/worker.py:354-367 | a case's last event time never decreases, between any two moments of any run |
| JobAtomic.TrailMatchesDecisions | recovery/worker.py:446-459 | announcements are one to one with decisions, each explained, in every run |
| JobOutcome.JobRefines | recovery/worker.py:284-469 | the commits of a job have exactly the effect of one reference expression |
| JobOutcome.RefreshedJobEnds | recovery/worker.py:284-469 | a refreshed job ends its own row of the job table and no other |
| JobOutcome.ClosedCaseReopensIff | recovery/worker.py:369-459 | a closed case becomes DECIDED exactly when a job on its order is fresh, unresolved, admitted and undecided |
| Reopening.ReopeningReopens | recovery/worker.py:369-459 | a run from the empty database that closes a case by one payment and reopens it by another |
| JobOutcome.RowAddsOnlyUnresolved | recovery/worker.py:366-446 | a job adds a decision only for a payment its refresh found unresolved |
| JobOutcome.PassReportsItsDecisions | recovery/worker.py:107-166 | a pass reports exactly the decisions it added, and counts no job twice |
| Redelivery.IngestStores | recovery/ingest.py:51-128 | ingest stores an event and its job exactly for the first well-formed delivery of an id, and otherwise only trail entries |
| Redelivery.RedeliveriesLeaveNoMark | recovery/ingest.py:104-117 | deleting any redeliveries from any run leaves every table but the trail the same |
| Progress.PassClears | recovery/worker.py:129-166 | what a pass leaves unfinished: all but the exhausted and the taken jobs |
| Progress.PassMakesProgress | recovery/worker.py:129-166 | with successful refreshes a pass strictly lowers the number of unfinished jobs whenever work is eligible |
| Progress.PassesDrainTheQueue | recovery/worker.py:129-166 | as many passes of one cutoff as unfinished jobs drain the queue eligible by it; BusyPassesAreFew is the claim for any cutoffs |
| Progress.BusyPassesAreFew | recovery/worker.py:129-166 | passes with any cutoffs: no more of them find work than there are unfinished jobs, and each that does finishes some |
| Attempts.LimitReachedIff | recovery/store.py:225-251 | for any table and job at its limit: a claim attempts it once more exactly when it was waiting and is taken, and fails it when its last claim died |
| Attempts.AttemptsAreBounded | recovery/store.py:202-251 | over every interleaving a job is attempted at most its limit (at least once) plus its returns to the queue |
| Progress.AttemptsCountPasses | recovery/store.py:227-232 | in any table a job whose payment cannot be refreshed is attempted once by every pass that takes it, whatever its limit, and stays pending |
| Progress.AttemptsAreUnbounded | recovery/store.py:227-232 | in a table no larger than one batch that is every pass, at whatever moments |
| NoViolation.EveryRunIsSane | recovery/invariants.py:122-269 | the invariant of every step of every scenario |
| NoViolation.NoViolationEver | recovery/invariants.py:272-439 | no check is ever violated, for every scenario with 1 <= payments <= cap on a real order |
| NoViolation.OtherChecksHold | recovery/invariants.py:299-439 | all but the chain and total checks hold without those two bounds |
| NoViolation.WithoutOrderEveryCaseIsOutside | recovery/invariants.py:277-297 | without an order id the headline check fails exactly when a case exists |
| Tightness.EveryPaymentCanBeDecided | recovery/invariants.py:156-267 | delivering and processing the payments in turn records one decision for each |
| Tightness.CleanIffWithinCap | recovery/invariants.py:338-351 | for a given number of payments on a real order, every scenario passes every check if and only if they are no more than the cap |
| Search.Trace.Admit | recovery/invariants.py:226-257 | one admission request and what it leaves in the trace |
| Search.Trace.AdmitAll | recovery/invariants.py:222-257 | every case asks for one execution, in order |
| Search.Trace.NoteNew | recovery/invariants.py:259-267 | newly appeared decisions are noted with their step, once |
| Search.PerformAction | recovery/invariants.py:156-219 | the method does what Perform says; what that is, the rows on Hazards say |
| Hazards.DeliverStores | recovery/invariants.py:160-170 | a delivery stores its event with a job that waits, and counts it |
| Hazards.RedeliverRepeats | recovery/invariants.py:172-184 | a redelivery carries an id delivered before and leaves one trail entry |
| Hazards.LateAuthorizeSettles | recovery/invariants.py:186-190 | the payment is authorized at the gateway, nothing else changes there, and its first such step is noted |
| Hazards.CrashWorkerClaims | recovery/invariants.py:195-197 | every waiting job ends claimed with one more attempt and a stamp, unless the batch was full of earlier ones; no decision, case or trail entry changes |
| Hazards.CrashedWorkWaits | recovery/worker.py:129-143 | a pass whose cutoff is not past those stamps decides none of these jobs |
| Hazards.ConcurrentIsTwice | recovery/invariants.py:199-206 | two racing passes leave tables and gateway as one worker after another does |
| Hazards.AdmitOneIs | recovery/invariants.py:222-257 | a case's request is admitted, and noted with step and slot, exactly when nothing speaks against it, and otherwise blocked |
| Hazards.AdmissionsOnlyAsk | recovery/invariants.py:222-257 | every case asks once |
| Hazards.AfterExpiryNothingIsAdmitted | recovery/invariants.py:208-257 | once the order has expired, every later request carries an expiry before the clock, and none is admitted to the end of the run |
| Hazards.AfterShiftsNothingIsAdmitted | recovery/invariants.py:215-257 | after enough shifts no request is admitted to the end of the run |
| Hazards.ExpiryCheckIff | recovery/invariants.py:362-377 | the check on expiry counts every admission when the order expired in step zero |
| Search.Execute | recovery/invariants.py:122-269 | the executor computes the run the theorem is about |
| Search.Check | recovery/invariants.py:272-439 | the checker reports a violation of a kind exactly when its condition holds |
| Search.ExecuteAndCheck | recovery/invariants.py:500-562 | executing and checking any scenario finds nothing |
| Classifiers.PrecedenceIsRank | recovery/classifier.py:89-98 | comparing precedence tuples position by position |
| Classifiers.ConflictsIff | recovery/classifier.py:107-119 | two rules conflict exactly when some key matches both at one precedence, which is exactly when they ask for the same |
| Classifiers.RejectAmbiguous | recovery/classifier.py:376-386 | the load-time check: no clash reported if and only if conflicting rules agree; otherwise a clashing pair |
| Classifiers.SafestIsMinimax | recovery/classifier.py:147-166 | no class has a smaller worst case, and ties are broken independently of the order tried |
| Classifiers.ChosenIsBest | recovery/classifier.py:197-229 | the chosen rule matches, and no matching rule has higher precedence or an earlier place at the same one |
| Classifiers.ClassifyKey | recovery/classifier.py:213-229 | the lookup loop, and that a LOW band takes the safest class |
| Classifiers.DeclarationOrderIsIrrelevant | recovery/classifier.py:376-386 | any reordering of an accepted table gives every key the same class, confidence and band |
| Classifiers.UnambiguousIffOrderIrrelevant | recovery/classifier.py:376-386 | the load-time check accepts exactly the tables whose verdicts do not depend on rule order |
| Plans.BandsGrow | recovery/classifier.py:206-211 | more confidence is never a lower band |
| Plans.VerdictIs | recovery/classifier.py:197-252 | class, confidence and family are those of the weightiest rule that fits, the first of several; a LOW band and a key without rule take the safest class |
| Plans.SafestIs | recovery/classifier.py:147-166 | the safest class has the smallest worst cost, then the smallest total, then the first name |
| Classifiers.CauseFamilyIffOrderIrrelevant | recovery/classifier.py:231-252 | the cause family of every key is independent of rule order if and only if conflicting rules agree on it |
| Classifiers.CauseFamilyDependsOnOrder | recovery/classifier.py:231-252 | the cause family of accepted rules may depend on rule order |
| Allocator.TablePrinciples | allocator/decisions.py:51-113 | the LOW row is uniform; executions are spent exactly on INFRASTRUCTURE and LIQUIDITY above it |
| Plans.PlanIs | allocator/arm_c.py:102-276 | the plan of every case, clause by clause: action, proposals, slot, channel and shaping |
| Plans.TargetDayIs | allocator/arm_c.py:179-210 | the target is so many days from today, and for want of funds the first funding day from then within reach |
| Plans.ShippedTargets | config/default.yaml:50-70 | tomorrow at HIGH, the day after at MODERATE, two to eight days for want of funds |
| Allocator.PlansAreWarranted | allocator/arm_c.py:102-248 | at most one proposal, for an open case, the one shown, in the future; a contact within the limit; an execution for a recoverable class, with nothing pending and legal at the calendar |
| Allocator.CostsMatterIff | allocator/arm_c.py:102-124 | exactly when the cost matrix can change action, reason or proposals of an open case, for both rail policies |
| Allocator.CostMatrixDoesNotInterfere | allocator/decisions.py:108-117 | with a distrusted fallback and the default rail policy, two cost models give the same plan but for note texts |
| Wiring.WorkerGuardAdmitsAllocator | allocator/wiring.py:80-147 | the worker's guard admits whatever the allocator decides, at the later clock reading |
| Metrics.ArmMetrics.Moot | recovery/sim/metrics.py:77-79 | one moot proposal is counted |
| Metrics.ArmMetrics.Rejection | recovery/sim/metrics.py:81-84 | one rejection is counted under its reason |
| Metrics.ArmMetrics.Attempt | recovery/sim/metrics.py:86-91 | one attempt is counted under its class, and as waste when TERMINAL |
| Metrics.ArmMetrics.Contact | recovery/sim/metrics.py:93-99 | one contact and its cost are counted |
| Metrics.ArmMetrics.Recovery | recovery/sim/environment.py:289-295 | one recovery and its money are counted |
| Environments.ViewsTellIff | recovery/sim/environment.py:156-170 | two cases show an arm the same view at every moment if and only if they differ at most in true class, order, notices, last contact, order expiry and history |
| Environments.Environment.SubmitProposal | recovery/sim/environment.py:177-197 | the effect of a proposal, and that it goes through exactly when the case is open and the guard admits it |
| Simulated.SimulatorAdmits | recovery/sim/environment.py:199-217 | the simulator's guard gives the first thing that speaks against a proposal, on the fields of the case |
| Simulated.UnplayedGoes | recovery/sim/environment.py:177-197 | a moot or refused proposal is counted, a refused one under its reason, and touches no case and no draw |
| Simulated.AttemptGoes | recovery/sim/environment.py:219-257 | case, books and draws after an execution, from the curve of the true class, the hazard and the draws |
| Simulated.ContactGoes | recovery/sim/environment.py:259-310 | the same after a contact, with its cost |
| Simulated.ProbabilityIs | recovery/sim/world.py:70-82 | nothing before the first day, then base and daily growth between nothing and the cap |
| Environments.Environment.SubmitAttempt | recovery/sim/environment.py:219-257 | the effect of an admitted execution |
| Environments.Environment.SubmitContact | recovery/sim/environment.py:259-285 | the effect of an admitted contact |
| Environments.Environment.RecoverCase | recovery/sim/environment.py:289-295 | the effect of a recovery |
| Environments.Environment.NotifyCase | recovery/sim/environment.py:297-310 | the effect of a notice, and when it revokes |
| Environments.Environment.Finalise | recovery/sim/environment.py:312-331 | the loop closes every case and counts it |
| Environments.Environment.Exhaust | recovery/sim/environment.py:333-338 | an open case is halted |
| Simulation.RunArm | recovery/sim/run.py:44-75 | the loops compute the run the next rows are about |
| Simulated.OpenCasesAreAsked | recovery/sim/environment.py:172-175 | the cases asked about on a day are those open, all of them and in order |
| Daily.EveryCaseEveryDay | recovery/sim/run.py:67-74 | an arm that always asks in vain is refused once for every case and day of the horizon, at the hour of the start |
| Simulation.BudgetsAndSpacing | recovery/sim/environment.py:177-285 | against any arm and draws: execution and contact budgets, executions in order and a day apart on emandate, contacts a cooldown apart, nothing hopeless recovered by an execution |
| Ledger.OutcomesBalance | recovery/sim/environment.py:289-331 | cases = recovered + halted + revoked, preserved - halted = recovered, money recovered is that of the recovered cases and at most the money at risk |
| Ledger.SpendBalances | recovery/sim/metrics.py:86-99 | attempts and contacts spent are those the cases carry, in total and class by class |
| NeverRefused.PlanPasses | recovery/sim/environment.py:199-257 | what the allocator plans for an open case it contacted at most once a day is one proposal at most, for that case, and passes the guard |
| NeverRefused.PlanPassesIff | recovery/sim/environment.py:199-257 | exactly when the simulator's guard admits what the allocator plans: a real order and the default lead for an execution, budget and cooldown for a contact |
| NeverRefused.ContactTermsIff | recovery/sim/environment.py:199-285 | every contact planned for the rested cases of a failure passes if and only if the allocator's limit is within the budget and the cooldown is at most a day |
| NeverRefused.AllocatorIsNeverRefused | recovery/sim/run.py:67-75 | over a whole run no proposal of the allocator is rejected and none is moot |
| RunTerms.NeverRefusedIff | recovery/sim/run.py:67-75 | for a batch that can be debited and holds a failure answered by contacts: no proposal is rejected in any world, under any draws, from any start, if and only if the budget covers the contacts that can come up and the cooldown is at most a day where there can be two |

## Left out

- Time below a microsecond, time zones other than IST and daylight saving: an instant is an integer.
- Row identifiers: jobs and cases are named by their position, not by random ids; rows are never deleted.
- SQLite itself: triggers, WAL, busy errors and JSON columns; `open_case` is two commits, as its two statements are.
- JSON, YAML and pydantic validation, header names, signatures and body hashes; a delivery carries the fields ingest reads.
- Normalisation of keys and enrichment texts: a key is given, and which notes a classification writes is arbitrary.
- Decision timestamps and the human-readable detail of verdicts and trail entries.
- The rail and expiry of a snapshot may change at any time in `Interleaving`; only the order of a payment is fixed.
- Scheduling.CompliantSlot: requires exactly that its loop stops; under any other calendar the source never returns a slot (it gives up only where dates end, with an OverflowError).
- Scheduling.JitterCompliantIff: peak windows shorter than a minute, and a UPI deadline in the last minute of the day, are excluded, since steps of a minute can jump over them.
- Worker.SimulatedGateway.SetState: a payment registered without a status, which the next refresh answers with a KeyError, is excluded.
- Environments.Environment.SubmitProposal: an unknown case id, a KeyError in the source, is excluded, as is an arm that names one in Simulation.RunArm.
- RunTerms.NeverRefusedIff: over whole runs the terms on contacts are exact; that orders and leads (`Debitable`) must be as asked is shown exact proposal by proposal only (NeverRefused.PlanPassesIff).
- Floating point: shares, confidences, curves and draws are reals; the 24 to 60 hour wait is rounded down to a microsecond.
- SHA-256 in `jitter`: the digest is any number.
- Bank-holiday shifting, the civil calendar behind days of the month, and order-expiry fallbacks.
- World sampling, calibration, batch generation, the hazard formula and the breaking-point sweeps: curves, hazards and conversion rates are arbitrary functions.
- Loading of the classifier file beyond the ambiguity check: unknown fields, step spaces, cost matrix shape and the stub gate.
- Rates and report rows derived from the counters, and the reason texts of the allocator.
- HTTP gateways and executors, command lines, reports, messages, rail-action payloads, holdout and horizon comparisons.
