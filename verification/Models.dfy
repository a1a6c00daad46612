/** The enumerations and small records shared by every component (recovery/models.py). */
module Models {

  datatype Option<+T> = None | Some(value: T)

  datatype PaymentStatus = Created | Authorized | Captured | Refunded | Failed
  {
    /** The money question is settled: no recovery should be attempted. */
    predicate IsResolved() {
      Authorized? || Captured? || Refunded?
    }
  }

  datatype FailureClass = Infrastructure | Liquidity | Attention | Terminal

  datatype ConfidenceBand = High | Moderate | Low

  datatype CaseState = Open | Decided | ClosedPaymentResolved

  datatype DecisionAction =
    | ScheduleAt
    | RecoveryLink
    | OfferRailMigration
    | ReorderRails
    | ExcludeInstrument
    | Hold
    | Surrender

  datatype ProposalKind = Execution | Contact

  /** The actions that create a payment obligation, and how the guard sees them. */
  function ObligationKind(action: DecisionAction): Option<ProposalKind> {
    match action
    case ScheduleAt => Some(Execution)
    case RecoveryLink => Some(Contact)
    case OfferRailMigration => Some(Contact)
    case ReorderRails => Some(Contact)
    case ExcludeInstrument => Some(Contact)
    case Hold => None
    case Surrender => None
  }
}
