/** State machines and pure rules of the domain layer. */
module Domain {
  import opened Errors

  // ---------- parties ----------

  datatype PartyState =
    | Draft
    | PermitReserved
    | Confirmed
    | OnTrail
    | Completed
    | Cancelled
    | Aborted

  /** Where a party may go from each state; a state with no way out is terminal. */
  function PartyTransitions(s: PartyState): set<PartyState> {
    match s
    case Draft => {PermitReserved, Cancelled}
    case PermitReserved => {Confirmed, Cancelled}
    case Confirmed => {OnTrail, Cancelled, Aborted}
    case OnTrail => {Completed, Aborted}
    case _ => {}
  }

  predicate Terminal(s: PartyState) {
    PartyTransitions(s) == {}
  }

  predicate HoldsPermit(s: PartyState) {
    s == PermitReserved || s == Confirmed || s == OnTrail
  }

  function ValidatePartyTransition(from: PartyState, to: PartyState): Result<()> {
    if to in PartyTransitions(from) then Ok(()) else Err(StateInvalid)
  }

  // ---------- incidents ----------

  datatype Severity = Minor | Major | Critical

  function MaxEscalations(s: Severity): nat {
    match s
    case Critical => 4
    case Major => 3
    case Minor => 1
  }

  /** Seconds before the next escalation attempt. */
  function EscalationDelay(s: Severity): nat {
    match s
    case Critical => 120
    case Major => 600
    case Minor => 1800
  }

  predicate ForcesPartyAbort(s: Severity) {
    s == Critical
  }

  datatype IncidentState = Open | Escalated | Resolved | Closed

  function IncidentTransitions(s: IncidentState): set<IncidentState> {
    match s
    case Open => {Escalated, Resolved}
    case Escalated => {Escalated, Resolved}
    case Resolved => {Closed}
    case Closed => {}
  }

  predicate Unresolved(s: IncidentState) {
    s == Open || s == Escalated
  }

  // ---------- settlements ----------

  datatype SettlementState = Pending | Settled | Waived | Parked

  function SettlementTransitions(s: SettlementState): set<SettlementState> {
    match s
    case Pending => {Settled, Waived, Parked}
    case Parked => {Settled, Waived}
    case _ => {}
  }

  predicate Final(s: SettlementState) {
    s == Settled || s == Waived
  }

  // ---------- jobs ----------

  datatype JobKind = NotifyDispatch | SettleParty | EscalateIncident | Recurring

  datatype JobState = Queued | Running | Done | Failed
}
