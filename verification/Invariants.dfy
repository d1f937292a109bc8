/** What holds of the database in every reachable state, table by table. */
module Invariants {
  import opened Errors
  import opened Domain
  import opened Tables
  import opened Repositories
  import opened Transactions
  import opened Runs

  // ---------- windows and the seats parties hold on them ----------

  function Share(row: Party, w: nat): int {
    if row.window == Some(w) && HoldsPermit(row.state) then row.size else 0
  }

  /** The seats held on one window by all parties together. */
  function SeatsHeld(ps: seq<Party>, w: nat): int {
    if ps == [] then 0 else SeatsHeld(ps[..|ps| - 1], w) + Share(ps[|ps| - 1], w)
  }

  ghost predicate WindowsOk(ws: seq<Window>, ps: seq<Party>) {
    && (forall w :: 0 <= w < |ws| ==> 0 <= ws[w].reserved <= ws[w].total && ws[w].reserved == SeatsHeld(ps, w))
    && (forall v, w :: 0 <= v < w < |ws| ==> ws[v].trail != ws[w].trail || ws[v].day != ws[w].day)
  }

  // ---------- parties ----------

  /** The version of a party is fixed by its state along the main path, and a
      party is bound to a window exactly from its reservation on. */
  predicate VersionFits(row: Party) {
    match row.state
    case Draft => row.version == 1 && row.window.None?
    case PermitReserved => row.version == 2 && row.window.Some?
    case Confirmed => row.version == 3 && row.window.Some?
    case OnTrail => row.version == 4 && row.window.Some?
    case Completed => row.version == 5 && row.window.Some?
    case Cancelled => if row.window.None? then row.version == 2 else row.version == 3 || row.version == 4
    case Aborted => (row.version == 4 || row.version == 5) && row.window.Some?
  }

  predicate PartyOk(row: Party, ws: seq<Window>) {
    && row.size > 0
    && VersionFits(row)
    && (row.window.Some? ==>
          && row.window.value < |ws|
          && ws[row.window.value].trail == row.trail
          && ws[row.window.value].day == row.day)
  }

  ghost predicate PartiesOk(ps: seq<Party>, ws: seq<Window>) {
    forall p :: 0 <= p < |ps| ==> PartyOk(ps[p], ws)
  }

  // ---------- members ----------

  predicate RosterFits(roster: Roster, row: Party) {
    |roster| <= row.size && (row.window.Some? ==> Ready(row.size, roster))
  }

  ghost predicate RostersOk(rosters: map<nat, Roster>, ps: seq<Party>) {
    && (forall p :: p in rosters ==> p < |ps|)
    && (forall p :: 0 <= p < |ps| ==> RosterFits(RosterIn(rosters, p), ps[p]))
  }

  // ---------- fees and the jobs of a party ----------

  predicate FeeFits(s: PartyState, fee: SettlementState) {
    match s
    case Draft => false
    case PermitReserved | Confirmed | OnTrail => fee == Pending || fee == Waived
    case Completed => true
    case Cancelled | Aborted => fee == Waived
  }

  predicate FeeOk(p: nat, row: Party, ss: map<nat, Settlement>) {
    && (p in ss <==> row.window.Some?)
    && (p in ss ==>
          && ss[p].seats == row.size
          && FeeFits(row.state, ss[p].state)
          && (ss[p].state == Settled <==> ss[p].settledAt.Some?))
  }

  ghost predicate FeesOk(ps: seq<Party>, ss: map<nat, Settlement>) {
    && (forall p :: p in ss ==> p < |ps|)
    && (forall p :: 0 <= p < |ps| ==> FeeOk(p, ps[p], ss))
  }

  ghost predicate PartyJobsFit(p: nat, row: Party, js: seq<Job>) {
    && |JobsFor(js, NotifyDispatch, p)| == (if row.window.Some? then 1 else 0)
    && |JobsFor(js, SettleParty, p)| == (if row.state == Completed then 1 else 0)
  }

  ghost predicate PartyJobsOk(ps: seq<Party>, js: seq<Job>) {
    forall p :: 0 <= p < |ps| ==> PartyJobsFit(p, ps[p], js)
  }

  predicate RefOk(job: Job, parties: nat, incidents: nat) {
    && job.maxAttempts > 0
    && (job.kind == NotifyDispatch || job.kind == SettleParty ==> job.ref < parties)
    && (job.kind == EscalateIncident ==> job.ref < incidents)
  }

  ghost predicate RefsOk(js: seq<Job>, parties: nat, incidents: nat) {
    forall j :: 0 <= j < |js| ==> RefOk(js[j], parties, incidents)
  }

  // ---------- incidents ----------

  function Smaller(a: nat, b: nat): nat {
    if a <= b then a else b
  }

  ghost predicate IncidentOk(i: nat, row: Incident, js: seq<Job>) {
    && row.count <= MaxEscalations(row.severity)
    && (Unresolved(row.state) ==> (row.state == Open <==> row.count == 0))
    && |JobsFor(js, EscalateIncident, i)| == Smaller(row.count + 1, MaxEscalations(row.severity))
  }

  ghost predicate UniqueTopics(rows: seq<Incident>) {
    forall i, j :: 0 <= i < j < |rows| && Unresolved(rows[i].state) && Unresolved(rows[j].state) ==>
      !SameTopic(rows[i], rows[j].party, rows[j].kind, rows[j].checkpoint)
  }

  ghost predicate IncidentsOk(rows: seq<Incident>, js: seq<Job>) {
    forall i :: 0 <= i < |rows| ==> IncidentOk(i, rows[i], js)
  }

  // ---------- idempotency records ----------

  predicate RecordOk(k: Key, r: Record, ps: seq<Party>) {
    && !Blank(k.text)
    && r.party < |ps|
    && ps[r.party].window.Some?
    && ps[r.party].size == r.size
    && ps[r.party].leader == k.actor
    && r.body.party == r.party
    && r.body.row.state == PermitReserved
    && r.body.row.window == ps[r.party].window
    && Ready(r.size, r.body.roster)
  }

  ghost predicate RecordsOk(rs: map<Key, Record>, ps: seq<Party>) {
    forall k :: k in rs ==> RecordOk(k, rs[k], ps)
  }

  // ---------- the whole database ----------

  ghost predicate DbOk(db: Db) {
    && WindowsOk(db.windows, db.parties)
    && PartiesOk(db.parties, db.windows)
    && RostersOk(db.rosters, db.parties)
    && FeesOk(db.parties, db.settlements)
    && PartyJobsOk(db.parties, db.jobs)
    && RefsOk(db.jobs, |db.parties|, |db.incidents|)
    && UniqueTopics(db.incidents)
    && IncidentsOk(db.incidents, db.jobs)
    && RecordsOk(db.records, db.parties)
  }

  // ---------- the queue and its workers ----------

  /** What a finished job has achieved: a settlement job a final fee, an
      escalation job the end of its chain or a committed hand-off of its own. */
  ghost predicate Achieved(w: World, j: nat)
    requires j < |w.db.jobs|
  {
    var job := w.db.jobs[j];
    match job.kind
    case SettleParty => job.ref in w.db.settlements && Final(w.db.settlements[job.ref].state)
    case EscalateIncident =>
      && job.ref < |w.db.incidents|
      && (DecideEscalate(w.db.incidents[job.ref]) == HandOff ==> TallyOf(w, j).credited)
    case _ => true
  }

  ghost predicate TallyFits(job: Job, t: Tally) {
    && job.attempts + (if job.state == Queued then 1 else 0) == 1 + |t.retried| + t.reclaims
    && (forall c :: c in t.retried ==> 1 <= c < job.maxAttempts && c <= job.attempts)
    && (job.state == Running <==> job.lockedUntil.Some?)
    && (t.credited ==> job.kind == EscalateIncident)
  }

  ghost predicate PhaseFits(w: World, t: Ticket)
    requires t in w.workers
  {
    && t.job < |w.db.jobs|
    && 1 <= t.claim <= w.db.jobs[t.job].attempts
    && t.claim !in TallyOf(w, t.job).retried
    && (match w.workers[t]
        case Leased => true
        case Working(k) => t.claim <= k <= w.db.jobs[t.job].attempts
        case Returned(k, outcome) =>
          t.claim <= k <= w.db.jobs[t.job].attempts && (outcome.Finished? ==> Achieved(w, t.job))
        case Hooked => w.db.jobs[t.job].kind == SettleParty)
  }

  /** The escalation jobs of an incident that committed a hand-off. */
  ghost function Credited(w: World, i: nat): set<nat> {
    set j | j in JobsFor(w.db.jobs, EscalateIncident, i) && TallyOf(w, j).credited
  }

  ghost predicate TalliesOk(w: World) {
    && (forall j :: j in w.tallies ==> j < |w.db.jobs|)
    && (forall j :: 0 <= j < |w.db.jobs| ==> TallyFits(w.db.jobs[j], TallyOf(w, j)))
  }

  ghost predicate DoneOk(w: World) {
    forall j :: 0 <= j < |w.db.jobs| && w.db.jobs[j].state == Done ==> Achieved(w, j)
  }

  ghost predicate PhasesOk(w: World) {
    forall t :: t in w.workers ==> PhaseFits(w, t)
  }

  ghost predicate CreditsOk(w: World) {
    forall i :: 0 <= i < |w.db.incidents| ==> |Credited(w, i)| <= w.db.incidents[i].count
  }

  ghost predicate QueueOk(w: World) {
    TalliesOk(w) && DoneOk(w) && PhasesOk(w) && CreditsOk(w)
  }

  ghost predicate Inv(w: World) {
    DbOk(w.db) && QueueOk(w)
  }

  // ---------- what never goes back ----------

  predicate PartyLater(a: Party, b: Party) {
    && b.trail == a.trail && b.leader == a.leader && b.day == a.day
    && b.plannedStart == a.plannedStart && b.size == a.size
    && a.version <= b.version
    && (a.version == b.version ==> a == b)
    && (Terminal(a.state) ==> a == b)
    && (a.window.Some? ==> b.window == a.window)
  }

  predicate WindowLater(a: Window, b: Window) {
    && b.trail == a.trail && b.day == a.day && b.total == a.total
    && a.version <= b.version
    && (a.version == b.version ==> a == b)
    && (a.closedAt.Some? ==> b.closedAt == a.closedAt && b.reserved <= a.reserved)
  }

  predicate SettlementLater(a: Settlement, b: Settlement) {
    && b.seats == a.seats && b.unitFee == a.unitFee && b.total == a.total
    && a.version <= b.version
    && (a.version == b.version ==> a == b)
    && (Final(a.state) ==> a == b)
  }

  predicate IncidentLater(a: Incident, b: Incident) {
    && b.party == a.party && b.kind == a.kind && b.severity == a.severity && b.checkpoint == a.checkpoint
    && a.version <= b.version
    && (a.version == b.version ==> a == b)
    && a.count <= b.count
    && (!Unresolved(a.state) ==> !Unresolved(b.state))
    && (a.state == Closed ==> a == b)
  }

  predicate JobLater(a: Job, b: Job) {
    && b.kind == a.kind && b.ref == a.ref && b.maxAttempts == a.maxAttempts
    && a.attempts <= b.attempts
    && (a.state == Done || a.state == Failed ==> a == b)
    && (a.state == Queued && a.attempts == b.attempts ==> a == b)
  }

  predicate RosterLater(a: Roster, b: Roster) {
    forall m :: m in a ==> m in b && b[m] == a[m]
  }

  /** Every row keeps its identity, its version and its final states. */
  ghost predicate Later(a: Db, b: Db) {
    && |a.windows| <= |b.windows|
    && (forall w :: 0 <= w < |a.windows| ==> WindowLater(a.windows[w], b.windows[w]))
    && |a.parties| <= |b.parties|
    && (forall p :: 0 <= p < |a.parties| ==> PartyLater(a.parties[p], b.parties[p]))
    && (forall p :: p in a.rosters ==> p in b.rosters && RosterLater(a.rosters[p], b.rosters[p]))
    && (forall k :: k in a.reports ==> k in b.reports && b.reports[k] == a.reports[k])
    && (forall p :: p in a.settlements ==> p in b.settlements && SettlementLater(a.settlements[p], b.settlements[p]))
    && |a.incidents| <= |b.incidents|
    && (forall i :: 0 <= i < |a.incidents| ==> IncidentLater(a.incidents[i], b.incidents[i]))
    && |a.jobs| <= |b.jobs|
    && (forall j :: 0 <= j < |a.jobs| ==> JobLater(a.jobs[j], b.jobs[j]))
  }

  /** A row read earlier, compared with the database of now. */
  ghost predicate Stale(db: Db, s: Snapshot) {
    match s
    case PartyRow(p, row) => p < |db.parties| && PartyLater(row, db.parties[p])
    case RosterRead(p, roster) => RosterLater(roster, RosterOf(db, p))
    case WindowRow(w, row) => w < |db.windows| && WindowLater(row, db.windows[w])
    case SettlementRow(p, row) => p in db.settlements && SettlementLater(row, db.settlements[p])
    case IncidentRow(i, row) => i < |db.incidents| && IncidentLater(row, db.incidents[i])
    case ReportsRead(p, reported) => reported <= ReportedBy(db, p)
  }

  lemma LaterReflexive(db: Db)
    ensures Later(db, db)
  {
  }

  lemma LaterTransitive(a: Db, b: Db, c: Db)
    requires Later(a, b) && Later(b, c)
    ensures Later(a, c)
  {
  }

  lemma HoldsThenStale(old_: Db, db: Db, s: Snapshot)
    requires Holds(old_, s) && Later(old_, db)
    ensures Stale(db, s)
  {
  }
}
