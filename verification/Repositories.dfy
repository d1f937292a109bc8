/** What each SQL statement of the repositories does to its table: the guards of
    the WHERE clause, the columns of the SET clause, the constraint that refuses
    the row and the error the repository reports. */
module Repositories {
  import opened Errors
  import opened Domain
  import opened Tables

  // ---------- permit windows ----------

  function Remaining(w: Window): int {
    if w.total - w.reserved < 0 then 0 else w.total - w.reserved
  }

  function CanReserve(w: Window, seats: int): Result<()> {
    if seats <= 0 then Err(InvalidArgument)
    else if w.closedAt.Some? then Err(StateInvalid)
    else if Remaining(w) < seats then Err(QuotaExhausted)
    else Ok(())
  }

  /** The WHERE clause of the conditional reservation. */
  predicate ReserveGuard(w: Window, expected: nat, seats: int) {
    w.version == expected && w.closedAt.None? && w.reserved + seats <= w.total
  }

  function ReserveSeats(ws: seq<Window>, id: nat, expected: nat, seats: int): Result<seq<Window>> {
    if seats <= 0 then Err(InvalidArgument)
    else if id >= |ws| then Err(NotFound)
    else if ReserveGuard(ws[id], expected, seats) then
      Ok(ws[id := ws[id].(reserved := ws[id].reserved + seats, version := ws[id].version + 1)])
    else if ws[id].version != expected then Err(VersionConflict)
    else match CanReserve(ws[id], seats)
      case Err(c) => Err(c)
      case Ok(_) => Err(Conflict)
  }

  function ReleaseSeats(ws: seq<Window>, id: nat, seats: int): Result<seq<Window>> {
    if seats <= 0 then Err(InvalidArgument)
    else if id < |ws| && ws[id].reserved >= seats then
      Ok(ws[id := ws[id].(reserved := ws[id].reserved - seats, version := ws[id].version + 1)])
    else Err(Conflict)
  }

  function CloseWindow(ws: seq<Window>, id: nat, at: int): Result<seq<Window>> {
    if id < |ws| && ws[id].closedAt.None? then
      Ok(ws[id := ws[id].(closedAt := Some(at), version := ws[id].version + 1)])
    else Err(StateInvalid)
  }

  /** The window of one trail day, at most one by the unique index. */
  function FindWindow(ws: seq<Window>, trail: nat, day: int): (r: Option<nat>)
    ensures r.Some? ==> r.value < |ws| && ws[r.value].trail == trail && ws[r.value].day == day
    ensures r.None? ==> forall i :: 0 <= i < |ws| ==> ws[i].trail != trail || ws[i].day != day
  {
    if ws == [] then None
    else
      var n := |ws| - 1;
      if ws[n].trail == trail && ws[n].day == day then Some(n) else FindWindow(ws[..n], trail, day)
  }

  /** The INSERT of EnsureWindow; a row the unique index refuses changes nothing. */
  function InsertWindow(ws: seq<Window>, trail: nat, day: int, quota: int): Result<seq<Window>> {
    if quota <= 0 then Err(InvalidArgument)
    else if FindWindow(ws, trail, day).Some? then Err(Conflict)
    else Ok(ws + [Window(trail, day, quota, 0, 1, None)])
  }

  // ---------- parties and members ----------

  datatype PartyChange = PartyChange(
    party: nat,
    expectedState: PartyState,
    expectedVersion: nat,
    next: PartyState,
    window: Option<nat>,
    confirmedAt: Option<int>,
    dispatchedAt: Option<int>,
    closedAt: Option<int>)

  function Or<T>(preferred: Option<T>, other: Option<T>): Option<T> {
    if preferred.Some? then preferred else other
  }

  function Changed(row: Party, c: PartyChange): Party {
    row.(state := c.next,
         version := row.version + 1,
         window := Or(c.window, row.window),
         confirmedAt := Or(c.confirmedAt, row.confirmedAt),
         dispatchedAt := Or(c.dispatchedAt, row.dispatchedAt),
         closedAt := Or(c.closedAt, row.closedAt))
  }

  function ApplyStateChange(ps: seq<Party>, c: PartyChange): Result<seq<Party>> {
    if c.party < |ps| && ps[c.party].state == c.expectedState && ps[c.party].version == c.expectedVersion then
      Ok(ps[c.party := Changed(ps[c.party], c)])
    else Err(VersionConflict)
  }

  function CreateParty(ps: seq<Party>, row: Party): Result<seq<Party>> {
    if row.size <= 0 then Err(InvalidArgument) else Ok(ps + [row.(version := 1)])
  }

  function AddMember(roster: Roster, member: string, waiver: bool): Result<Roster> {
    if member in roster then Err(Conflict) else Ok(roster[member := waiver])
  }

  // ---------- settlements ----------

  function CreateSettlement(ss: map<nat, Settlement>, p: nat, row: Settlement): Result<map<nat, Settlement>> {
    if row.seats <= 0 || row.unitFee < 0 || row.total < 0 then Err(InvalidArgument)
    else if p in ss then Err(Conflict)
    else Ok(ss[p := row.(note := "", settledAt := None, version := 1)])
  }

  datatype SettlementChange = SettlementChange(
    expectedVersion: nat,
    next: SettlementState,
    reference: string,
    note: string,
    settledAt: Option<int>)

  function ApplySettlement(ss: map<nat, Settlement>, p: nat, c: SettlementChange): Result<map<nat, Settlement>> {
    if p in ss && ss[p].version == c.expectedVersion then
      Ok(ss[p := ss[p].(state := c.next, reference := c.reference, note := c.note,
                        settledAt := c.settledAt, version := ss[p].version + 1)])
    else Err(VersionConflict)
  }

  // ---------- incidents ----------

  predicate SameTopic(i: Incident, party: nat, kind: string, checkpoint: int) {
    i.party == party && i.kind == kind && i.checkpoint == checkpoint
  }

  /** OpenByPartyKind: the latest unresolved incident of one topic. */
  function FindUnresolved(rows: seq<Incident>, party: nat, kind: string, checkpoint: int): (r: Option<nat>)
    ensures r.Some? ==> r.value < |rows| && SameTopic(rows[r.value], party, kind,
                                                      checkpoint) && Unresolved(rows[r.value].state)
    ensures r.None? ==> forall i :: 0 <= i < |rows| && Unresolved(rows[i].state) ==> !SameTopic(rows[i], party, kind,
                                                                                                checkpoint)
  {
    if rows == [] then None
    else
      var n := |rows| - 1;
      if SameTopic(rows[n], party, kind, checkpoint) && Unresolved(rows[n].state) then Some(n)
      else FindUnresolved(rows[..n], party, kind, checkpoint)
  }

  /** The partial unique index admits one unresolved incident per topic. */
  function CreateIncident(rows: seq<Incident>, row: Incident): Result<seq<Incident>> {
    if Unresolved(row.state) && FindUnresolved(rows, row.party, row.kind, row.checkpoint).Some? then Err(Conflict)
    else Ok(rows + [row.(resolution := "", resolvedAt := None, version := 1)])
  }

  datatype IncidentChange = IncidentChange(
    expectedVersion: nat,
    next: IncidentState,
    count: nat,
    resolution: string,
    resolvedAt: Option<int>)

  function ApplyIncident(rows: seq<Incident>, id: nat, c: IncidentChange): Result<seq<Incident>> {
    if id < |rows| && rows[id].version == c.expectedVersion then
      Ok(rows[id := rows[id].(state := c.next, count := c.count, resolution := c.resolution,
                          resolvedAt := c.resolvedAt, version := rows[id].version + 1)])
    else Err(VersionConflict)
  }

  // ---------- jobs ----------

  function NewJob(kind: JobKind, ref: nat, maxAttempts: int, runAt: int): Job {
    Job(kind, ref, Queued, 0, maxAttempts, runAt, "", None)
  }

  function Enqueue(js: seq<Job>, job: Job): Result<seq<Job>> {
    if job.maxAttempts <= 0 then Err(InvalidArgument) else Ok(js + [job.(state := Queued, lockedBy := "",
                                                                         lockedUntil := None)])
  }

  predicate Due(job: Job, now: int) {
    job.state == Queued && job.runAt <= now
  }

  /** The conditional lease of one candidate; a job that is no longer due stays as it is. */
  function Lease(js: seq<Job>, j: nat, worker: string, until: int, now: int): Result<seq<Job>> {
    if j < |js| && Due(js[j], now) then
      Ok(js[j := js[j].(state := Running, attempts := js[j].attempts + 1, lockedBy := worker,
                        lockedUntil := Some(until))])
    else Err(Conflict)
  }

  function MarkDone(js: seq<Job>, j: nat): Result<seq<Job>> {
    if j < |js| && js[j].state == Running then
      Ok(js[j := js[j].(state := Done, lockedBy := "", lockedUntil := None)])
    else Err(StateInvalid)
  }

  function MarkFailure(js: seq<Job>, j: nat, permanent: bool, runAt: int): Result<seq<Job>> {
    if j < |js| && js[j].state == Running then
      Ok(js[j := js[j].(state := if permanent then Failed else Queued, runAt := runAt, lockedBy := "",
                        lockedUntil := None)])
    else Err(StateInvalid)
  }

  predicate Expired(job: Job, now: int) {
    job.state == Running && job.lockedUntil.Some? && job.lockedUntil.value <= now
  }

  function Reclaimed(job: Job, now: int): Job {
    if Expired(job, now) then job.(state := Queued, lockedBy := "", lockedUntil := None) else job
  }

  /** One statement reclaims every expired lease. */
  function ReclaimExpired(js: seq<Job>, now: int): (r: seq<Job>)
    ensures |r| == |js| && forall j :: 0 <= j < |js| ==> r[j] == Reclaimed(js[j], now)
  {
    seq(|js|, j requires 0 <= j < |js| => Reclaimed(js[j], now))
  }

  // ---------- idempotency records ----------

  function SaveRecord(rs: map<Key, Record>, k: Key, row: Record): Result<map<Key, Record>> {
    if k in rs then Err(Conflict) else Ok(rs[k := row])
  }

  function DeleteExpired(rs: map<Key, Record>, now: int): (r: map<Key, Record>) {
    map k | k in rs && rs[k].expiresAt > now :: rs[k]
  }

  /** A reservation fires exactly when the version matches and the domain check
      accepts, so inside the transaction every error names the true cause and the
      final fallback is dead code. */
  lemma ReserveMeetsDomainCheck(ws: seq<Window>, id: nat, expected: nat, seats: int)
    requires id < |ws|
    ensures ReserveSeats(ws, id, expected, seats).Ok? <==>
            ws[id].version == expected && CanReserve(ws[id], seats).Ok?
    ensures var r := ReserveSeats(ws, id, expected, seats);
            r.Err? ==>
              && r.code != Conflict
              && (r.code == VersionConflict <==> seats > 0 && ws[id].version != expected)
              && (r.code == InvalidArgument <==> seats <= 0)
              && (r.code == StateInvalid <==> seats > 0 && ws[id].version == expected && ws[id].closedAt.Some?)
              && (r.code == QuotaExhausted <==>
                  && seats > 0 && ws[id].version == expected && ws[id].closedAt.None?
                  && ws[id].reserved + seats > ws[id].total)
  {
  }
}
