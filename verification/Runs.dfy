/** The platform as a small-step system. Any number of clients and workers read
    rows whenever they like and later commit one transaction; an action carries
    the rows its client read, and may only be taken when every such row really
    was in the database at some earlier point of the run. */
module Runs {
  import opened Errors
  import opened Domain
  import opened Tables
  import opened Repositories
  import opened Transactions
  import opened Backoff

  // ---------- workers ----------

  /** One lease of one job. `claim` is the value of `attempts` that this lease wrote. */
  datatype Ticket = Ticket(job: nat, claim: nat)

  datatype Outcome = Finished | Failure(code: Code, canceled: bool)

  /** What a worker has done with its lease so far. A worker that crashes simply
      stays in its phase for ever. `attempts` is what it read back after leasing,
      which another worker may have raised in between. */
  datatype Phase =
    | Leased
    | Working(attempts: nat)
    | Returned(attempts: nat, outcome: Outcome)
    | Hooked

  /** The history of one job: the leases that put it back for a retry, how often
      an expired lease was taken away, and whether a handler working on it
      committed an escalation. */
  datatype Tally = Tally(retried: set<nat>, reclaims: nat, credited: bool)

  datatype World = World(db: Db, workers: map<Ticket, Phase>, tallies: map<nat, Tally>)

  const GENESIS: World := World(EMPTY, map[], map[])

  function TallyOf(w: World, j: nat): Tally {
    if j in w.tallies then w.tallies[j] else Tally({}, 0, false)
  }

  function AttemptsOf(w: World, t: Ticket): nat {
    if t in w.workers && w.workers[t].Working? then w.workers[t].attempts
    else if t in w.workers && w.workers[t].Returned? then w.workers[t].attempts
    else 0
  }

  function Drop(workers: map<Ticket, Phase>, t: Ticket): map<Ticket, Phase> {
    map u | u in workers && u != t :: workers[u]
  }

  const SECOND := 1_000_000_000

  /** Nanoseconds to stored seconds. */
  function Unix(nanos: int): int {
    nanos / SECOND
  }

  /** Errors that make a retry with the same input pointless. */
  predicate TerminalFailure(o: Outcome) {
    o.Failure? && (o.code == NotFound || o.code == InvalidArgument || o.code == PermissionDenied
                   || o.code == StateInvalid || o.canceled)
  }

  predicate Permanent(attempts: nat, maxAttempts: int, o: Outcome) {
    attempts >= maxAttempts || TerminalFailure(o)
  }

  // ---------- actions ----------

  /** The rows on which a handler that returns without writing relies. */
  datatype Basis =
    | NoBasis
    | FeeBasis(party: Party, settlement: Settlement)
    | IncidentBasis(incident: Incident)

  datatype Action =
    | CreateParty(row: Party, leaderRef: string)
    | RegisterMember(p: nat, party: Party, member: string, waiver: bool)
    | EnsureWindow(trail: nat, day: int, quota: int)
    | CloseWindow(w: nat, now: int)
    | RequestPermit(request: PermitRequest, roster: Roster, inTime: bool)
    | Advance(p: nat, party: Party, next: PartyState, now: int)
    | Report(p: nat, party: Party, checkpoint: int, progress: Progress)
    | Complete(p: nat, party: Party, mandatory: set<int>, reported: set<int>, maxAttempts: int, now: int)
    | Stop(p: nat, party: Party, next: PartyState, note: string, now: int)
    | Waive(p: nat, settlement: Settlement, note: string)
    | OpenIncident(party: Party, incident: Incident, maxAttempts: int, now: int)
    | Resolve(i: nat, incident: Incident, text: string, now: int)
    | Archive(i: nat, incident: Incident)
    | Schedule(maxAttempts: int, now: int)
    | Purge(now: int)
    | Claim(j: nat, worker: string, until: int, now: int)
    | ReadBack(t: Ticket)
    | Reclaim(now: int)
    | ChargeFee(t: Ticket, p: nat, party: Party, settlement: Settlement, reference: string, now: int, outcome: Outcome)
    | Escalate(t: Ticket, i: nat, incident: Incident, maxAttempts: int, now: int, outcome: Outcome)
    | ReturnFrom(t: Ticket, ref: nat, basis: Basis, outcome: Outcome)
    | ReportDone(t: Ticket)
    | ReportFailure(t: Ticket, base: int, cap: int, nanos: int)
    | ParkFee(t: Ticket, p: nat, settlement: Settlement, note: string)

  /** The rows an action's client read before committing. */
  datatype Snapshot =
    | PartyRow(p: nat, party: Party)
    | RosterRead(p: nat, roster: Roster)
    | WindowRow(w: nat, window: Window)
    | SettlementRow(p: nat, settlement: Settlement)
    | IncidentRow(i: nat, incident: Incident)
    | ReportsRead(p: nat, reported: set<int>)

  predicate Holds(db: Db, s: Snapshot) {
    match s
    case PartyRow(p, row) => p < |db.parties| && db.parties[p] == row
    case RosterRead(p, roster) => RosterOf(db, p) == roster
    case WindowRow(w, row) => w < |db.windows| && db.windows[w] == row
    case SettlementRow(p, row) => p in db.settlements && db.settlements[p] == row
    case IncidentRow(i, row) => i < |db.incidents| && db.incidents[i] == row
    case ReportsRead(p, reported) => ReportedBy(db, p) == reported
  }

  function Reads(a: Action): set<Snapshot> {
    match a
    case RegisterMember(p, party, _, _) => {PartyRow(p, party)}
    case RequestPermit(r, roster, _) => {PartyRow(r.p, r.party), RosterRead(r.p, roster), WindowRow(r.w, r.window)}
    case Advance(p, party, _, _) => {PartyRow(p, party)}
    case Report(p, party, _, _) => {PartyRow(p, party)}
    case Complete(p, party, _, reported, _, _) => {PartyRow(p, party), ReportsRead(p, reported)}
    case Stop(p, party, _, _, _) => {PartyRow(p, party)}
    case Waive(p, settlement, _) => {SettlementRow(p, settlement)}
    case OpenIncident(party, incident, _, _) => {PartyRow(incident.party, party)}
    case Resolve(i, incident, _, _) => {IncidentRow(i, incident)}
    case Archive(i, incident) => {IncidentRow(i, incident)}
    case ChargeFee(_, p, party, settlement, _, _, _) => {PartyRow(p, party), SettlementRow(p, settlement)}
    case Escalate(_, i, incident, _, _, _) => {IncidentRow(i, incident)}
    case ReturnFrom(_, ref, basis, _) =>
      (match basis
       case NoBasis => {}
       case FeeBasis(party, settlement) => {PartyRow(ref, party), SettlementRow(ref, settlement)}
       case IncidentBasis(incident) => {IncidentRow(ref, incident)})
    case ParkFee(_, p, settlement, _) => {SettlementRow(p, settlement)}
    case _ => {}
  }

  predicate InPhase(w: World, t: Ticket) {
    t in w.workers && t.job < |w.db.jobs|
  }

  predicate Handles(w: World, t: Ticket, kind: JobKind, ref: nat) {
    InPhase(w, t) && w.workers[t].Working? && w.db.jobs[t.job].kind == kind && w.db.jobs[t.job].ref == ref
  }

  /** When a handler may report success without having written anything. */
  predicate NothingToDo(kind: JobKind, basis: Basis) {
    match kind
    case SettleParty => basis.FeeBasis? && DecideSettle(Some(basis.party), Some(basis.settlement)) == AlreadyFinal
    case EscalateIncident => basis.IncidentBasis? && DecideEscalate(basis.incident) != HandOff
    case _ => true
  }

  /** The checks a client makes on the rows it read, and the phase its worker is in. */
  predicate Enabled(w: World, a: Action) {
    match a
    case RegisterMember(_, party, _, _) => party.state == Draft
    case RequestPermit(r, roster, inTime) =>
      && PermitPrecheck(r.party, roster, inTime).Ok?
      && r.window.trail == r.party.trail && r.window.day == r.party.day
      && CanReserve(r.window, r.party.size).Ok?
      && r.key.actor == r.party.leader
    case Advance(_, party, next, _) => Advances(party.state, next)
    case Report(_, party, _, _) => party.state == OnTrail
    case Complete(_, party, mandatory, reported, _, _) =>
      ValidatePartyTransition(party.state, Completed).Ok? && mandatory <= reported
    case Stop(_, party, next, _, _) =>
      (next == Cancelled || next == Aborted) && ValidatePartyTransition(party.state, next).Ok?
    case Waive(_, settlement, _) => Waived in SettlementTransitions(settlement.state)
    case Resolve(_, incident, _, _) => Resolved in IncidentTransitions(incident.state)
    case Archive(_, incident) => Closed in IncidentTransitions(incident.state)
    case ReadBack(t) => InPhase(w, t) && w.workers[t].Leased?
    case ChargeFee(t, p, party, settlement, _, _, _) =>
      Handles(w, t, SettleParty, p) && DecideSettle(Some(party), Some(settlement)) == Charge
    case Escalate(t, i, incident, _, _, _) =>
      Handles(w, t, EscalateIncident, i) && DecideEscalate(incident) == HandOff
    case ReturnFrom(t, ref, basis, outcome) =>
      && InPhase(w, t) && Handles(w, t, w.db.jobs[t.job].kind, ref)
      && (outcome.Finished? ==> NothingToDo(w.db.jobs[t.job].kind, basis))
    case ReportDone(t) => InPhase(w, t) && w.workers[t].Returned? && w.workers[t].outcome.Finished?
    case ReportFailure(t, _, _, _) => InPhase(w, t) && w.workers[t].Returned? && w.workers[t].outcome.Failure?
    case ParkFee(t, p, settlement, _) =>
      InPhase(w, t) && w.workers[t].Hooked? && w.db.jobs[t.job].ref == p && settlement.state == Pending
    case _ => true
  }

  function WithDb(w: World, r: Result<Db>): World {
    w.(db := Commit(w.db, r))
  }

  /** A handler's transaction: the handler returns the given outcome after a
      commit, and the error of a refused one. */
  function Handled(w: World, t: Ticket, r: Result<Db>, outcome: Outcome): World {
    WithDb(w, r).(workers := w.workers[t := Returned(AttemptsOf(w, t),
                                                     if r.Ok? then outcome else Failure(r.code, false))])
  }

  /** The transaction behind an action that only writes the database. */
  function Write(db: Db, a: Action): Result<Db> {
    match a
    case CreateParty(row, leaderRef) => CreatePartyTx(db, row, leaderRef)
    case RegisterMember(p, party, member, waiver) => RegisterMemberTx(db, p, party.size, member, waiver)
    case EnsureWindow(trail, day, quota) => WindowsTx(db, InsertWindow(db.windows, trail, day, quota))
    case CloseWindow(id, now) => WindowsTx(db, Repositories.CloseWindow(db.windows, id, now))
    case RequestPermit(r, _, _) => PermitTx(db, r)
    case Advance(p, party, next, now) => AdvanceTx(db, p, party, next, now)
    case Report(p, _, checkpoint, progress) => ReportTx(db, p, checkpoint, progress)
    case Complete(p, party, _, _, maxAttempts, now) => CompleteTx(db, p, party, maxAttempts, now)
    case Stop(p, party, next, note, now) => StopTx(db, p, party, next, note, now)
    case Waive(p, s, note) => SettlementTx(db, p, SettlementChange(s.version, Waived, "", note, None))
    case OpenIncident(_, incident, maxAttempts, now) => OpenIncidentTx(db, incident, maxAttempts, now)
    case Resolve(i, incident, text, now) =>
      IncidentTx(db, i, IncidentChange(incident.version, Resolved, incident.count, text, Some(now)))
    case Archive(i, incident) =>
      IncidentTx(db, i, IncidentChange(incident.version, Closed, incident.count, incident.resolution,
                                       incident.resolvedAt))
    case Schedule(maxAttempts, now) => EnqueueTx(db, NewJob(Recurring, 0, maxAttempts, now))
    case Purge(now) => Ok(db.(records := DeleteExpired(db.records, now)))
    case _ => Err(Internal)
  }

  predicate ByService(a: Action) {
    !(a.Claim? || a.ReadBack? || a.Reclaim? || a.ChargeFee? || a.Escalate? || a.ReturnFrom?
      || a.ReportDone? || a.ReportFailure? || a.ParkFee?)
  }

  /** What a worker does with its lease. */
  function WorkerStep(w: World, a: Action): World {
    match a
    case Claim(j, worker, until, now) => Claimed(w, j, worker, until, now)
    case ReadBack(t) =>
      if t.job < |w.db.jobs| then w.(workers := w.workers[t := Working(w.db.jobs[t.job].attempts)]) else w
    case Reclaim(now) => LeasesExpired(w, now)
    case ChargeFee(t, p, _, s, reference, now, outcome) => Charged(w, t, p, s, reference, now, outcome)
    case Escalate(t, i, incident, maxAttempts, now, outcome) => HandedOff(w, t, i, incident, maxAttempts, now, outcome)
    case ReturnFrom(t, _, _, outcome) => w.(workers := w.workers[t := Returned(AttemptsOf(w, t), outcome)])
    case ReportDone(t) => ReportedDone(w, t)
    case ReportFailure(t, base, cap, nanos) => ReportedFailure(w, t, base, cap, nanos)
    case ParkFee(t, p, s, note) => FeeParked(w, t, p, s, note)
    case _ => w
  }

  function Perform(w: World, a: Action): World {
    if ByService(a) then WithDb(w, Write(w.db, a)) else WorkerStep(w, a)
  }

  function Claimed(w: World, j: nat, worker: string, until: int, now: int): World {
    var r := Lease(w.db.jobs, j, worker, until, now);
    if r.Err? then w
    else w.(db := w.db.(jobs := r.value), workers := w.workers[Ticket(j, r.value[j].attempts) := Leased])
  }

  function LeasesExpired(w: World, now: int): World {
    w.(db := w.db.(jobs := ReclaimExpired(w.db.jobs, now)),
       tallies := w.tallies + map j: nat | j < |w.db.jobs| && Expired(w.db.jobs[j], now) ::
                    TallyOf(w, j).(reclaims := TallyOf(w, j).reclaims + 1))
  }

  function Charged(w: World, t: Ticket, p: nat, s: Settlement, reference: string, now: int, outcome: Outcome): World {
    Handled(w, t, SettlementTx(w.db, p, SettlementChange(s.version, Settled, reference, "", Some(now))), outcome)
  }

  function HandedOff(w: World, t: Ticket, i: nat, incident: Incident, maxAttempts: int, now: int,
                     outcome: Outcome): World {
    var r := EscalateTx(w.db, i, incident, maxAttempts, now);
    var next := Handled(w, t, r, outcome);
    if r.Ok? then next.(tallies := w.tallies[t.job := TallyOf(w, t.job).(credited := true)]) else next
  }

  function ReportedDone(w: World, t: Ticket): World {
    WithDb(w, JobsTx(w.db, MarkDone(w.db.jobs, t.job))).(workers := Drop(w.workers, t))
  }

  function FeeParked(w: World, t: Ticket, p: nat, s: Settlement, note: string): World {
    WithDb(w, SettlementTx(w.db, p, SettlementChange(s.version, Parked, "", note, None))).(workers := Drop(w.workers,
                                                                                                           t))
  }

  /** A failed attempt: parked for good, or queued again after the back-off. The
      failure hook of a settlement job runs only when its job was parked here. */
  function ReportedFailure(w: World, t: Ticket, base: int, cap: int, nanos: int): World {
    if t !in w.workers || !w.workers[t].Returned? || t.job >= |w.db.jobs| then w
    else if w.db.jobs[t.job].state != Running then w.(workers := Drop(w.workers, t))
    else if Permanent(w.workers[t].attempts, w.db.jobs[t.job].maxAttempts, w.workers[t].outcome) then
      JobParked(w, t, nanos)
    else
      Retried(w, t, nanos + Delay(w.workers[t].attempts, base, cap))
  }

  function JobParked(w: World, t: Ticket, nanos: int): World
    requires t.job < |w.db.jobs|
  {
    WithDb(w, JobsTx(w.db, MarkFailure(w.db.jobs, t.job, true, Unix(nanos))))
      .(workers := if w.db.jobs[t.job].kind == SettleParty then w.workers[t := Hooked] else Drop(w.workers, t))
  }

  function Retried(w: World, t: Ticket, nanos: int): World {
    WithDb(w, JobsTx(w.db, MarkFailure(w.db.jobs, t.job, false, Unix(nanos))))
      .(workers := Drop(w.workers, t),
        tallies := w.tallies[t.job := TallyOf(w, t.job).(retried := TallyOf(w, t.job).retried + {t.claim})])
  }

  // ---------- runs ----------

  datatype Run = Start | Then(past: Run, act: Action)

  function Last(run: Run): World {
    match run
    case Start => GENESIS
    case Then(past, act) => Perform(Last(past), act)
  }

  /** `db` was the database at some point of the run. */
  ghost predicate Saw(run: Run, db: Db) {
    Last(run).db == db || (run.Then? && Saw(run.past, db))
  }

  ghost predicate Seen(run: Run, s: Snapshot) {
    exists db :: Saw(run, db) && Holds(db, s)
  }

  ghost predicate Allowed(run: Run, a: Action) {
    Enabled(Last(run), a) && forall s :: s in Reads(a) ==> Seen(run, s)
  }

  ghost predicate Sound(run: Run) {
    match run
    case Start => true
    case Then(past, act) => Sound(past) && Allowed(past, act)
  }

  /** `later` continues `run`. */
  ghost predicate Continues(later: Run, run: Run) {
    later == run || (later.Then? && Continues(later.past, run))
  }
}
