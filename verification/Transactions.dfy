/** The decisions services take on rows they read earlier, and the transactions
    they then run. A transaction is a chain of repository writes that stops at
    the first error; `Commit` keeps the old database in that case. */
module Transactions {
  import opened Errors
  import opened Domain
  import opened Tables
  import opened Repositories

  function Commit(db: Db, r: Result<Db>): Db {
    if r.Ok? then r.value else db
  }

  // ---------- dispatch: creating and filling a party ----------

  function CreatePartyTx(db: Db, row: Party, leaderRef: string): Result<Db> {
    var parties :- CreateParty(db.parties, row.(state := Draft, window := None, confirmedAt := None,
                                                dispatchedAt := None, closedAt := None));
    var p := |db.parties|;
    var roster :- AddMember(RosterOf(db, p), leaderRef, true);
    Ok(db.(parties := parties, rosters := db.rosters[p := roster]))
  }

  function RegisterMemberTx(db: Db, p: nat, size: int, member: string, waiver: bool): Result<Db> {
    if |RosterOf(db, p)| >= size then Err(Conflict)
    else
      var roster :- AddMember(RosterOf(db, p), member, waiver);
      Ok(db.(rosters := db.rosters[p := roster]))
  }

  // ---------- dispatch: the permit request ----------

  predicate Ready(size: int, roster: Roster) {
    |roster| == size && forall m :: m in roster ==> roster[m]
  }

  /** Checks made on the party and roster read before the window is opened. */
  function PermitPrecheck(party: Party, roster: Roster, inTime: bool): Result<()> {
    var _ :- ValidatePartyTransition(party.state, PermitReserved);
    if !Ready(party.size, roster) || !inTime then Err(StateInvalid) else Ok(())
  }

  predicate IsSpace(c: char) {
    c in "\t\n\r " || c in "\U{b}\U{c}\U{85}\U{a0}\U{1680}\U{2028}\U{2029}\U{202f}\U{205f}\U{3000}"
    || '\U{2000}' <= c <= '\U{200a}'
  }

  /** Among ASCII characters these are the blank and the controls from 9 to 13. */
  lemma AsciiSpaces(c: char)
    requires c as int < 0x80
    ensures IsSpace(c) <==> 9 <= c as int <= 13 || c as int == 32
  {
  }

  predicate Blank(text: string) {
    forall i :: 0 <= i < |text| ==> IsSpace(text[i])
  }

  /** Stores the response under its key; a blank key stores nothing. */
  function Remember(rs: map<Key, Record>, key: Key, row: Record): Result<map<Key, Record>> {
    if Blank(key.text) then Ok(rs) else SaveRecord(rs, key, row)
  }

  datatype Lookup = Miss | Mismatch | Replay(body: View)

  /** A record's time is over; the stored instant 0 stands for none. */
  predicate Over(r: Record, now: int) {
    r.expiresAt != 0 && r.expiresAt <= now
  }

  function LookupKey(rs: map<Key, Record>, key: Key, party: nat, size: int, now: int): Lookup {
    if Blank(key.text) || key !in rs || Over(rs[key], now) then Miss
    else if rs[key].party != party || rs[key].size != size then Mismatch
    else Replay(rs[key].body)
  }

  /** Everything the commit of a permit request depends on: the rows read before
      it and the request's own data. */
  datatype PermitRequest = PermitRequest(
    p: nat,
    party: Party,
    w: nat,
    window: Window,
    key: Key,
    unitFee: int,
    fee: int,
    maxAttempts: int,
    now: int,
    expiresAt: int)

  function PermitTx(db: Db, r: PermitRequest): Result<Db> {
    var windows :- ReserveSeats(db.windows, r.w, r.window.version, r.party.size);
    var parties :- ApplyStateChange(db.parties,
      PartyChange(r.p, r.party.state, r.party.version, PermitReserved, Some(r.w), Some(r.now), None, None));
    var settlements :- CreateSettlement(db.settlements, r.p,
      Settlement(r.party.size, r.unitFee, r.fee, Pending, "", "", None, 1));
    var jobs :- Enqueue(db.jobs, NewJob(NotifyDispatch, r.p, r.maxAttempts, r.now));
    var view := View(r.p, parties[r.p], RosterOf(db, r.p), windows[r.w]);
    var records :- Remember(db.records, r.key, Record(r.p, r.party.size, view, r.expiresAt));
    Ok(db.(windows := windows, parties := parties, settlements := settlements, jobs := jobs, records := records))
  }

  // ---------- dispatch: later transitions ----------

  predicate Advances(from: PartyState, to: PartyState) {
    (from == PermitReserved && to == Confirmed) || (from == Confirmed && to == OnTrail)
  }

  function AdvanceTx(db: Db, p: nat, party: Party, next: PartyState, now: int): Result<Db> {
    var parties :- ApplyStateChange(db.parties,
      PartyChange(p, party.state, party.version, next, None, None,
                  if next == OnTrail then Some(now) else None, None));
    Ok(db.(parties := parties))
  }

  function ReportTx(db: Db, p: nat, checkpoint: int, row: Progress): Result<Db> {
    if (p, checkpoint) in db.reports then Err(Conflict) else Ok(db.(reports := db.reports[(p, checkpoint) := row]))
  }

  function Close(p: nat, party: Party, next: PartyState, now: int): PartyChange {
    PartyChange(p, party.state, party.version, next, None, None, None, Some(now))
  }

  /** Seats go back as the row read before the transaction says. */
  function ReleasePermit(ws: seq<Window>, party: Party): Result<seq<Window>> {
    if party.window.None? || !HoldsPermit(party.state) then Ok(ws)
    else ReleaseSeats(ws, party.window.value, party.size)
  }

  function WaiveSettlement(ss: map<nat, Settlement>, p: nat, note: string): Result<map<nat, Settlement>> {
    if p !in ss || ss[p].state != Pending then Ok(ss)
    else ApplySettlement(ss, p, SettlementChange(ss[p].version, Waived, "", note, None))
  }

  function CompleteTx(db: Db, p: nat, party: Party, maxAttempts: int, now: int): Result<Db> {
    var parties :- ApplyStateChange(db.parties, Close(p, party, Completed, now));
    var windows :- ReleasePermit(db.windows, party);
    var jobs :- Enqueue(db.jobs, NewJob(SettleParty, p, maxAttempts, now));
    Ok(db.(parties := parties, windows := windows, jobs := jobs))
  }

  /** Cancelling and aborting differ only in the state they lead to. */
  function StopTx(db: Db, p: nat, party: Party, next: PartyState, note: string, now: int): Result<Db> {
    var parties :- ApplyStateChange(db.parties, Close(p, party, next, now));
    var windows :- ReleasePermit(db.windows, party);
    var settlements :- WaiveSettlement(db.settlements, p, note);
    Ok(db.(parties := parties, windows := windows, settlements := settlements))
  }

  // ---------- settlement ----------

  datatype SettleDecision = AlreadyFinal | Charge | Refuse(code: Code)

  function DecideSettle(party: Option<Party>, settlement: Option<Settlement>): SettleDecision {
    if party.None? then Refuse(NotFound)
    else if party.value.state != Completed then Refuse(StateInvalid)
    else if settlement.None? then Refuse(NotFound)
    else if Final(settlement.value.state) then AlreadyFinal
    else Charge
  }

  function SettlementTx(db: Db, p: nat, c: SettlementChange): Result<Db> {
    var settlements :- ApplySettlement(db.settlements, p, c);
    Ok(db.(settlements := settlements))
  }

  // ---------- incidents ----------

  function OpenIncidentTx(db: Db, row: Incident, maxAttempts: int, now: int): Result<Db> {
    var incidents :- CreateIncident(db.incidents, row.(state := Open, count := 0));
    var jobs :- Enqueue(db.jobs,
      NewJob(EscalateIncident, |db.incidents|, maxAttempts, now + EscalationDelay(row.severity)));
    Ok(db.(incidents := incidents, jobs := jobs))
  }

  predicate Exhausted(i: Incident) {
    i.count >= MaxEscalations(i.severity)
  }

  datatype EscalateDecision = AlreadyHandled | CapReached | HandOff

  function DecideEscalate(i: Incident): EscalateDecision {
    if !Unresolved(i.state) then AlreadyHandled
    else if Exhausted(i) then CapReached
    else HandOff
  }

  function EscalateTx(db: Db, id: nat, i: Incident, maxAttempts: int, now: int): Result<Db> {
    var incidents :- ApplyIncident(db.incidents, id, IncidentChange(i.version, Escalated, i.count + 1, i.resolution,
                                                                    None));
    if i.count + 1 < MaxEscalations(i.severity) then
      var jobs :- Enqueue(db.jobs, NewJob(EscalateIncident, id, maxAttempts, now + EscalationDelay(i.severity)));
      Ok(db.(incidents := incidents, jobs := jobs))
    else
      Ok(db.(incidents := incidents))
  }

  function IncidentTx(db: Db, id: nat, c: IncidentChange): Result<Db> {
    var incidents :- ApplyIncident(db.incidents, id, c);
    Ok(db.(incidents := incidents))
  }

  // ---------- queue and windows ----------

  function EnqueueTx(db: Db, job: Job): Result<Db> {
    var jobs :- Enqueue(db.jobs, job);
    Ok(db.(jobs := jobs))
  }

  function JobsTx(db: Db, r: Result<seq<Job>>): Result<Db> {
    var jobs :- r;
    Ok(db.(jobs := jobs))
  }

  function WindowsTx(db: Db, r: Result<seq<Window>>): Result<Db> {
    var windows :- r;
    Ok(db.(windows := windows))
  }
}
