/** The adversarial search (recovery/invariants.py): what one generated ordering does to the real
    event core, and the list of invariants it is checked against. Clock readings, what classifier
    and decider say, and which delivered event comes again are free choices of the environment. */
module Adversary {
  import opened Models
  import opened Calendar
  import opened Guards
  import opened Stores
  import opened Protocol
  import opened Worker
  import opened JobAtomic
  import Text

  datatype Step =
    | DeliverEvent | Redeliver | LateAuthorize | RunWorker | CrashWorker | ConcurrentWorkers | ExpireOrder | ShiftPdnWindow

  datatype Action = Action(step: Step, paymentIndex: int, createdAt: int)

  datatype Scenario = Scenario(orderId: string, paymentCount: nat, actions: seq<Action>)

  /** "pay_INV" and the index in at least four digits. */
  function PaymentId(index: nat): string {
    "pay_INV" + Padded(Text.Decimal(index))
  }

  function Padded(digits: string): string
    decreases 4 - |digits|
  {
    if |digits| >= 4 then digits else Padded("0" + digits)
  }

  function EventId(step: nat, counter: nat): string {
    "evt_" + Text.Decimal(step) + "_" + Text.Decimal(counter)
  }

  /** One in the morning of 2 March 2026. */
  const CLOCK := Midnight(20514) + HOUR

  /** What the environment chooses during one step. */
  datatype Turn = Turn(cutoff: int, stamps: nat -> int, oracles: nat -> Oracle,
                       secondCutoff: int, secondStamps: nat -> int, secondOracles: nat -> Oracle)

  datatype Setup = Setup(cfg: Config, guard: Guard, scenario: Scenario, pick: (set<string>, int) -> string)
  {
    /** `pick` stands for "the index-th of the delivered ids in order": some delivered id. */
    ghost predicate PicksDelivered() {
      forall ids, i :: ids != {} ==> pick(ids, i) in ids
    }

    function Index(a: Action): nat
      requires scenario.paymentCount > 0
    {
      a.paymentIndex % scenario.paymentCount
    }
  }

  // ------------------------------------------------------------------- the trace --

  datatype Admitted = Admitted(step: nat, payment: string, executeAt: int)

  datatype Noted = Noted(step: nat, payment: string, key: string)

  datatype Facts = Facts(
    resolvedAtStep: map<string, nat>,
    orderExpired: bool,
    orderExpiredAtStep: Option<nat>,
    admitted: seq<Admitted>,
    blocks: seq<BlockReason>,
    decisionsAtStep: set<Noted>,
    seenKeys: set<string>,
    delivered: set<string>)

  const NO_FACTS := Facts(map[], false, None, [], [], {}, {}, {})

  /** Everything an execution changes. */
  datatype Run = Run(db: Db, gateway: GatewayState, facts: Facts, counter: nat, shiftHours: nat, expiresAt: Option<int>)

  // ----------------------------------------------------- an execution as a function --

  /** How every payment of a scenario starts. */
  function Unpaid(scenario: Scenario): Snapshot {
    Snapshot(PaymentStatus.Failed, Some(scenario.orderId), Some("upi"), None)
  }

  function InitialGateway(scenario: Scenario, n: nat): map<string, Snapshot> {
    if n == 0 then map[]
    else InitialGateway(scenario, n - 1)[PaymentId(n - 1) := Unpaid(scenario)]
  }

  function Begin(scenario: Scenario): Run {
    Run(EMPTY_DB, GatewayState(InitialGateway(scenario, scenario.paymentCount), 0, false), NO_FACTS, 0, 0, None)
  }

  function DeliveryOf(eventId: string, payment: string, createdAt: int): Delivery {
    Delivery(Some(eventId), "payment.failed", Some(createdAt), Entity(Some(payment), "insufficient_funds", false))
  }

  function Perform(x: Setup, turn: Turn, r: Run, step: nat, a: Action): Run
    requires x.scenario.paymentCount > 0
  {
    var index := x.Index(a);
    var payment := PaymentId(index);
    match a.step
    case DeliverEvent =>
      var id := EventId(step, r.counter + 1);
      r.(db := Ingest(x.cfg, r.db, DeliveryOf(id, payment, a.createdAt)).db,
         facts := r.facts.(delivered := r.facts.delivered + {id}), counter := r.counter + 1)
    case Redeliver =>
      if r.facts.delivered == {} then r
      else r.(db := Ingest(x.cfg, r.db, DeliveryOf(x.pick(r.facts.delivered, index), payment, a.createdAt)).db)
    case LateAuthorize =>
      r.(gateway := Authorize(r.gateway, payment),
         facts := r.facts.(resolvedAtStep := if payment in r.facts.resolvedAtStep then r.facts.resolvedAtStep
                                             else r.facts.resolvedAtStep[payment := step]))
    case RunWorker => Passes(x.cfg, turn, r, false)
    case CrashWorker => r.(db := ClaimJobs(r.db, x.cfg.batchSize, None, turn.stamps, None))
    case ConcurrentWorkers => Passes(x.cfg, turn, r, true)
    case ExpireOrder =>
      r.(facts := r.facts.(orderExpired := true, orderExpiredAtStep := Some(step)), expiresAt := Some(CLOCK - HOUR))
    case ShiftPdnWindow => r.(shiftHours := r.shiftHours + 9)
  }

  const AUTHORIZED := Fields(Some(Authorized), None, None, None)

  /** The payment came good; the other fields stay. */
  function Authorize(g: GatewayState, payment: string): GatewayState {
    g.(entities := SetFields(g.entities, payment, AUTHORIZED))
  }

  function OnePass(cfg: Config, r: Run, cutoff: int, stamps: nat -> int, os: nat -> Oracle): Run {
    var after := ProcessPending(cfg, r.db, r.gateway, cutoff, stamps, os);
    r.(db := after.db, gateway := after.gateway)
  }

  /** One pass, or two by connections that race. */
  function Passes(cfg: Config, turn: Turn, r: Run, twice: bool): Run {
    var first := OnePass(cfg, r, turn.cutoff, turn.stamps, turn.oracles);
    if twice then OnePass(cfg, first, turn.secondCutoff, turn.secondStamps, turn.secondOracles) else first
  }

  /** How many executions were admitted for a payment. */
  function CountFor(admitted: seq<Admitted>, payment: string): nat {
    if admitted == [] then 0
    else CountFor(admitted[..|admitted| - 1], payment) + if admitted[|admitted| - 1].payment == payment then 1 else 0
  }

  function SlotOf(index: nat): int {
    CLOCK + (26 + 8 * index) * HOUR
  }

  function AdmissionRequest(orderId: string, shiftHours: nat, expiresAt: Option<int>, f: Facts,
                            payment: string, index: nat): Request
  {
    Request(Execution, CLOCK + shiftHours * HOUR, Some(SlotOf(index)), 1 + CountFor(f.admitted, payment), 0, None, None,
            if payment in f.resolvedAtStep then Authorized else PaymentStatus.Failed,
            Some(orderId), expiresAt, false, None, None, None)
  }

  function AdmitOne(x: Setup, shiftHours: nat, expiresAt: Option<int>, f: Facts,
                    step: nat, index: nat, payment: string): Facts
  {
    var verdict := x.guard.Check(AdmissionRequest(x.scenario.orderId, shiftHours, expiresAt, f, payment, index));
    if verdict.None? then f.(admitted := f.admitted + [Admitted(step, payment, SlotOf(index))])
    else f.(blocks := f.blocks + [verdict.value])
  }

  /** Every case, in order, asks for an execution. */
  function AdmitCases(x: Setup, shiftHours: nat, expiresAt: Option<int>, f: Facts,
                      step: nat, index: nat, cases: seq<Case>): Facts
  {
    if cases == [] then f
    else AdmitOne(x, shiftHours, expiresAt, AdmitCases(x, shiftHours, expiresAt, f, step, index, cases[..|cases| - 1]),
                  step, index, cases[|cases| - 1].paymentId)
  }

  /** The notes on those decisions among `keys` that were not seen before. */
  function NewNotes(decisions: map<string, Decision>, keys: set<string>, seen: set<string>, step: nat): set<Noted> {
    set k | k in keys && k in decisions && k !in seen :: Noted(step, decisions[k].paymentId, k)
  }

  function NoteSome(f: Facts, decisions: map<string, Decision>, keys: set<string>, step: nat): Facts {
    f.(decisionsAtStep := f.decisionsAtStep + NewNotes(decisions, keys, f.seenKeys, step), seenKeys := f.seenKeys + keys)
  }

  function NoteDecisions(f: Facts, decisions: map<string, Decision>, step: nat): Facts {
    NoteSome(f, decisions, decisions.Keys, step)
  }

  function NoteOne(f: Facts, step: nat, payment: string, key: string): Facts {
    if key in f.seenKeys then f
    else f.(decisionsAtStep := f.decisionsAtStep + {Noted(step, payment, key)}, seenKeys := f.seenKeys + {key})
  }

  lemma NewNotesAdd(decisions: map<string, Decision>, keys: set<string>, key: string, seen: set<string>, step: nat)
    requires key in decisions
    ensures NewNotes(decisions, keys + {key}, seen, step)
            == NewNotes(decisions, keys, seen, step)
               + if key in seen then {} else {Noted(step, decisions[key].paymentId, key)}
  {
  }

  lemma NoteOneMore(f: Facts, decisions: map<string, Decision>, keys: set<string>, key: string, step: nat)
    requires key in decisions && key !in keys
    ensures NoteOne(NoteSome(f, decisions, keys, step), step, decisions[key].paymentId, key)
            == NoteSome(f, decisions, keys + {key}, step)
  {
    NewNotesAdd(decisions, keys, key, f.seenKeys, step);
    assert f.seenKeys + (keys + {key}) == f.seenKeys + keys + {key};
    if key in f.seenKeys {
      assert f.seenKeys + keys + {key} == f.seenKeys + keys;
    }
  }

  function OneStep(x: Setup, turn: Turn, r: Run, step: nat, a: Action): Run
    requires x.scenario.paymentCount > 0
  {
    var done := Perform(x, turn, r, step, a);
    var asked := if a.step.RunWorker? || a.step.ConcurrentWorkers?
                 then done.(facts := AdmitCases(x, done.shiftHours, done.expiresAt, done.facts, step, x.Index(a),
                                                done.db.cases))
                 else done;
    asked.(facts := NoteDecisions(asked.facts, asked.db.decisions, step))
  }

  /** The first `n` actions. */
  function After(x: Setup, turns: nat -> Turn, n: nat): Run
    requires x.scenario.paymentCount > 0 && n <= |x.scenario.actions|
  {
    if n == 0 then Begin(x.scenario)
    else OneStep(x, turns(n - 1), After(x, turns, n - 1), n - 1, x.scenario.actions[n - 1])
  }

  // ------------------------------------------------------------------- the checks --

  datatype Violation =
    | ObligationOutsideChain
    | ChainSplit
    | ObligationAfterLateAuthorisation
    | DuplicateObligation
    | MultipleObligationsPerPayment
    | ExecutionBudgetExceeded
    | DedupFailure
    | AdmittedAfterOrderExpiry
    | AdmittedInPeakWindow
    | AdmittedExecutionsExceedCap
    | AdmittedAfterLateAuthorisation
    | UnauditedObligation

  function DistinctKeys(decisions: map<string, Decision>): set<string> {
    set k | k in decisions :: decisions[k].Key()
  }

  /** `order_expired_at_step or -1`: step zero reads as "never". */
  function ExpiryStep(f: Facts): int {
    if f.orderExpiredAtStep.Some? && f.orderExpiredAtStep.value != 0 then f.orderExpiredAtStep.value else -1
  }

  /** What each violation means, whatever produced the run. */
  ghost predicate Breaks(v: Violation, orderId: string, db: Db, f: Facts, cal: ComplianceCalendar) {
    match v
    case ObligationOutsideChain => exists i :: 0 <= i < |db.cases| && db.cases[i].chainKey != orderId
    case ChainSplit => |db.cases| > 1
    case ObligationAfterLateAuthorisation =>
      exists e :: e in f.decisionsAtStep && e.payment in f.resolvedAtStep && e.step > f.resolvedAtStep[e.payment]
    case DuplicateObligation => |db.decisions| != |DistinctKeys(db.decisions)|
    case MultipleObligationsPerPayment =>
      exists k, l :: k in db.decisions && l in db.decisions && k != l &&
                     db.decisions[k].paymentId == db.decisions[l].paymentId
    case ExecutionBudgetExceeded => |db.decisions| > cal.attemptCap
    case DedupFailure => |db.rawEvents| != |f.delivered|
    case AdmittedAfterOrderExpiry => f.orderExpired && exists e :: e in f.admitted && e.step > ExpiryStep(f)
    case AdmittedInPeakWindow => exists e :: e in f.admitted && cal.IsPeak(e.executeAt)
    case AdmittedExecutionsExceedCap => exists e :: e in f.admitted && CountFor(f.admitted, e.payment) + 1 > cal.attemptCap
    case AdmittedAfterLateAuthorisation =>
      exists e :: e in f.admitted && e.payment in f.resolvedAtStep && e.step > f.resolvedAtStep[e.payment]
    case UnauditedObligation => Announcements(db.audit) != |db.decisions|
  }
}
