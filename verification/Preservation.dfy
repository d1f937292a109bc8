/** Every transaction keeps every table's invariant, whatever stale rows its
    client decided on. One lemma per kind of write, then one per action group. */
module Preservation {
  import opened Errors
  import opened Domain
  import opened Tables
  import opened Repositories
  import opened Transactions
  import opened Runs
  import opened Invariants

  // ---------- sums and counts under updates ----------

  lemma {:induction false} SeatsAfterUpdate(ps: seq<Party>, p: nat, row: Party, w: nat)
    requires p < |ps|
    ensures SeatsHeld(ps[p := row], w) == SeatsHeld(ps, w) - Share(ps[p], w) + Share(row, w)
  {
    var n := |ps| - 1;
    if p == n {
      assert ps[p := row][..n] == ps[..n];
    } else {
      assert ps[p := row][..n] == ps[..n][p := row];
      SeatsAfterUpdate(ps[..n], p, row, w);
    }
  }

  lemma {:induction false} SeatsCoverShare(ps: seq<Party>, w: nat)
    requires forall p :: 0 <= p < |ps| ==> ps[p].size >= 0
    ensures SeatsHeld(ps, w) >= 0
    ensures forall p :: 0 <= p < |ps| ==> Share(ps[p], w) <= SeatsHeld(ps, w)
  {
    if ps != [] {
      SeatsCoverShare(ps[..|ps| - 1], w);
      assert forall p :: 0 <= p < |ps| - 1 ==> ps[p] == ps[..|ps| - 1][p];
    }
  }

  lemma {:induction false} NoSeatsOnUnknownWindow(ps: seq<Party>, ws: seq<Window>, w: nat)
    requires PartiesOk(ps, ws) && w >= |ws|
    ensures SeatsHeld(ps, w) == 0
  {
    if ps != [] {
      assert PartyOk(ps[|ps| - 1], ws);
      var front := ps[..|ps| - 1];
      forall p | 0 <= p < |front| ensures PartyOk(front[p], ws) {
        assert PartyOk(ps[p], ws);
      }
      NoSeatsOnUnknownWindow(front, ws, w);
    }
  }

  lemma JobsForAppend(js: seq<Job>, job: Job, kind: JobKind, ref: nat)
    ensures |JobsFor(js + [job], kind, ref)| ==
            |JobsFor(js, kind, ref)| + (if job.kind == kind && job.ref == ref then 1 else 0)
  {
    var old_, new_ := JobsFor(js, kind, ref), JobsFor(js + [job], kind, ref);
    if job.kind == kind && job.ref == ref {
      assert new_ == old_ + {|js|};
    } else {
      assert new_ == old_;
    }
  }

  /** Same jobs, possibly in other states. */
  ghost predicate SameJobs(js: seq<Job>, js': seq<Job>) {
    && |js'| == |js|
    && forall j :: 0 <= j < |js| ==>
         js'[j].kind == js[j].kind && js'[j].ref == js[j].ref && js'[j].maxAttempts == js[j].maxAttempts
  }

  lemma SameJobsFor(js: seq<Job>, js': seq<Job>, kind: JobKind, ref: nat)
    requires SameJobs(js, js')
    ensures JobsFor(js', kind, ref) == JobsFor(js, kind, ref)
  {
  }

  lemma SameJobsKeep(db: Db, js: seq<Job>)
    requires DbOk(db) && SameJobs(db.jobs, js)
    ensures DbOk(db.(jobs := js))
  {
    forall p | 0 <= p < |db.parties| ensures PartyJobsFit(p, db.parties[p], js) {
      assert PartyJobsFit(p, db.parties[p], db.jobs);
      SameJobsFor(db.jobs, js, NotifyDispatch, p);
      SameJobsFor(db.jobs, js, SettleParty, p);
    }
    forall i | 0 <= i < |db.incidents| ensures IncidentOk(i, db.incidents[i], js) {
      assert IncidentOk(i, db.incidents[i], db.jobs);
      SameJobsFor(db.jobs, js, EscalateIncident, i);
    }
    forall j | 0 <= j < |js| ensures RefOk(js[j], |db.parties|, |db.incidents|) {
      assert RefOk(db.jobs[j], |db.parties|, |db.incidents|);
    }
  }

  /** What the invariant says about one party. */
  lemma PartyFacts(db: Db, p: nat)
    requires DbOk(db) && p < |db.parties|
    ensures PartyOk(db.parties[p], db.windows)
    ensures RosterFits(RosterOf(db, p), db.parties[p])
    ensures FeeOk(p, db.parties[p], db.settlements)
    ensures PartyJobsFit(p, db.parties[p], db.jobs)
  {
  }

  // ---------- windows ----------

  lemma ChangedWindowKeeps(db: Db, ws: seq<Window>)
    requires WindowsOk(ws, db.parties) && PartiesOk(db.parties, db.windows)
    requires |db.windows| <= |ws| && forall w :: 0 <= w < |db.windows| ==> WindowLater(db.windows[w], ws[w])
    ensures PartiesOk(db.parties, ws) && Later(db, db.(windows := ws))
  {
    hide WindowsOk;
    forall p | 0 <= p < |db.parties| ensures PartyOk(db.parties[p], ws) {
      assert PartyOk(db.parties[p], db.windows);
    }
  }

  lemma OpenedWindowKeeps(db: Db, trail: nat, day: int, quota: int)
    requires DbOk(db) && InsertWindow(db.windows, trail, day, quota).Ok?
    ensures var ws := InsertWindow(db.windows, trail, day, quota).value;
            DbOk(db.(windows := ws)) && Later(db, db.(windows := ws))
  {
    hide RostersOk, FeesOk, PartyJobsOk, RefsOk, UniqueTopics, IncidentsOk, RecordsOk, Later, PartiesOk;
    NoSeatsOnUnknownWindow(db.parties, db.windows, |db.windows|);
    ChangedWindowKeeps(db, InsertWindow(db.windows, trail, day, quota).value);
  }

  lemma ClosedWindowKeeps(db: Db, w: nat, at: int)
    requires DbOk(db) && Repositories.CloseWindow(db.windows, w, at).Ok?
    ensures var ws := Repositories.CloseWindow(db.windows, w, at).value;
            DbOk(db.(windows := ws)) && Later(db, db.(windows := ws))
  {
    hide RostersOk, FeesOk, PartyJobsOk, RefsOk, UniqueTopics, IncidentsOk, RecordsOk, Later, PartiesOk;
    ChangedWindowKeeps(db, Repositories.CloseWindow(db.windows, w, at).value);
  }

  // ---------- parties that move ----------

  /** The version guard is free of the ABA problem: a state change that goes
      through was decided on exactly the row that is in the database now. */
  lemma VersionGuardIsExact(db: Db, p: nat, row: Party, c: PartyChange)
    requires Stale(db, PartyRow(p, row))
    requires c.party == p && c.expectedState == row.state && c.expectedVersion == row.version
    ensures ApplyStateChange(db.parties, c).Ok? <==> db.parties[p] == row
  {
  }

  /** The tables that only look at a party's size, window and state. */
  lemma MovedPartyKeepsOthers(db: Db, p: nat, row: Party)
    requires RostersOk(db.rosters, db.parties) && RecordsOk(db.records, db.parties)
    requires p < |db.parties| && PartyLater(db.parties[p], row)
    requires row.window.Some? ==> Ready(row.size, RosterOf(db, p))
    ensures RostersOk(db.rosters, db.parties[p := row])
    ensures RecordsOk(db.records, db.parties[p := row])
  {
  }

  /** Seats follow the party: its share of every window changes by what the
      window's counter changed. */
  lemma MovedPartyKeepsWindows(db: Db, p: nat, row: Party, ws: seq<Window>)
    requires WindowsOk(db.windows, db.parties) && PartiesOk(db.parties, db.windows)
    requires p < |db.parties| && PartyOk(row, ws)
    requires |ws| == |db.windows|
    requires forall w :: 0 <= w < |ws| ==>
      && ws[w].trail == db.windows[w].trail && ws[w].day == db.windows[w].day
      && 0 <= ws[w].reserved <= ws[w].total
      && ws[w].reserved == db.windows[w].reserved - Share(db.parties[p], w) + Share(row, w)
    ensures WindowsOk(ws, db.parties[p := row]) && PartiesOk(db.parties[p := row], ws)
  {
    forall w | 0 <= w < |ws| ensures ws[w].reserved == SeatsHeld(db.parties[p := row], w) {
      SeatsAfterUpdate(db.parties, p, row, w);
    }
    var ps := db.parties[p := row];
    forall q | 0 <= q < |ps| ensures PartyOk(ps[q], ws) {
      assert PartyOk(db.parties[q], db.windows);
    }
  }

  /** Seats released for a party that holds them are always there: the mismatch
      error of ReleaseSeats cannot occur. */
  lemma ReleaseSucceeds(db: Db, p: nat)
    requires WindowsOk(db.windows, db.parties) && PartiesOk(db.parties, db.windows) && p < |db.parties|
    ensures ReleasePermit(db.windows, db.parties[p]).Ok?
    ensures var ws := ReleasePermit(db.windows, db.parties[p]).value;
            && |ws| == |db.windows|
            && forall w :: 0 <= w < |ws| ==>
                 && WindowLater(db.windows[w], ws[w])
                 && 0 <= ws[w].reserved <= ws[w].total
                 && ws[w].reserved == db.windows[w].reserved - Share(db.parties[p], w)
  {
    var row := db.parties[p];
    assert PartyOk(row, db.windows);
    if row.window.Some? && HoldsPermit(row.state) {
      forall q | 0 <= q < |db.parties| ensures db.parties[q].size >= 0 {
        assert PartyOk(db.parties[q], db.windows);
      }
      SeatsCoverShare(db.parties, row.window.value);
    }
  }

  lemma RostersAgree(db: Db, p: nat, size: int, roster: Roster)
    requires DbOk(db) && p < |db.parties| && db.parties[p].size == size
    requires Ready(size, roster) && RosterLater(roster, RosterOf(db, p))
    ensures RosterOf(db, p) == roster
  {
    var now := RosterOf(db, p);
    assert RosterFits(RosterIn(db.rosters, p), db.parties[p]);
    assert roster.Keys <= now.Keys;
    SubsetOfSameSize(roster.Keys, now.Keys);
  }

  lemma SubsetOfSameSize<T>(a: set<T>, b: set<T>)
    requires a <= b && |b| <= |a|
    ensures a == b
  {
    assert b == a + (b - a);
    assert |b| == |a| + |b - a|;
  }

  /** One party moves to `row`, its fee to `ss`, and every window gives or takes
      exactly the seats of its move. */
  lemma MovedPartyKeeps(db: Db, p: nat, row: Party, ws: seq<Window>, ss: map<nat, Settlement>)
    requires DbOk(db) && p < |db.parties| && PartyLater(db.parties[p], row) && PartyOk(row, ws)
    requires row.window.Some? ==> Ready(row.size, RosterOf(db, p))
    requires |ws| == |db.windows|
    requires forall w :: 0 <= w < |ws| ==>
      && WindowLater(db.windows[w], ws[w])
      && 0 <= ws[w].reserved <= ws[w].total
      && ws[w].reserved == db.windows[w].reserved - Share(db.parties[p], w) + Share(row, w)
    requires FeeOk(p, row, ss)
    requires forall q :: q != p ==> (q in ss <==> q in db.settlements) && (q in ss ==> ss[q] == db.settlements[q])
    requires p in db.settlements ==> p in ss && SettlementLater(db.settlements[p], ss[p])
    ensures WindowsOk(ws, db.parties[p := row]) && PartiesOk(db.parties[p := row], ws)
    ensures RostersOk(db.rosters, db.parties[p := row])
    ensures FeesOk(db.parties[p := row], ss)
    ensures RecordsOk(db.records, db.parties[p := row])
    ensures Later(db, db.(parties := db.parties[p := row], windows := ws, settlements := ss))
  {
    hide WindowsOk, PartiesOk, RostersOk, FeesOk, RecordsOk, PartyJobsOk, RefsOk, UniqueTopics, IncidentsOk;
    assert forall w :: 0 <= w < |ws| ==> WindowLater(db.windows[w], ws[w]);
    MovedPartyKeepsOthers(db, p, row);
    MovedPartyKeepsWindows(db, p, row, ws);
    SameFeesOfMovedParty(db, p, row, ss);
  }

  lemma LaterWithMore(a: Db, b: Db, js: seq<Job>, rs: map<Key, Record>)
    requires Later(a, b) && b.jobs <= js
    ensures Later(a, b.(jobs := js, records := rs))
  {
  }

  /** What the client of a permit request may rely on. */
  ghost predicate PermitStale(db: Db, r: PermitRequest, roster: Roster) {
    && Stale(db, PartyRow(r.p, r.party)) && Stale(db, RosterRead(r.p, roster)) && Stale(db, WindowRow(r.w, r.window))
    && PermitPrecheck(r.party, roster, true).Ok?
    && r.window.trail == r.party.trail && r.window.day == r.party.day
    && r.key.actor == r.party.leader
  }

  lemma PermitKeepsSeats(db: Db, r: PermitRequest, roster: Roster)
    requires DbOk(db) && PermitTx(db, r).Ok? && PermitStale(db, r, roster)
    ensures var db' := PermitTx(db, r).value;
            && WindowsOk(db'.windows, db'.parties) && PartiesOk(db'.parties, db'.windows)
            && RostersOk(db'.rosters, db'.parties) && FeesOk(db'.parties, db'.settlements)
            && RecordsOk(db.records, db'.parties)
            && Later(db, db.(parties := db'.parties, windows := db'.windows, settlements := db'.settlements))
  {
    hide PartiesOk, RostersOk, FeesOk, PartyJobsOk, RefsOk, UniqueTopics, IncidentsOk, RecordsOk, Later;
    var db' := PermitTx(db, r).value;
    PartyFacts(db, r.p);
    RostersAgree(db, r.p, r.party.size, roster);
    MovedPartyKeeps(db, r.p, db'.parties[r.p], db'.windows, db'.settlements);
  }

  lemma PermitKeepsRecords(db: Db, r: PermitRequest, roster: Roster)
    requires DbOk(db) && PermitTx(db, r).Ok? && PermitStale(db, r, roster)
    requires RecordsOk(db.records, PermitTx(db, r).value.parties)
    ensures RecordsOk(PermitTx(db, r).value.records, PermitTx(db, r).value.parties)
  {
    hide WindowsOk, PartiesOk, RostersOk, FeesOk, PartyJobsOk, RefsOk, UniqueTopics, IncidentsOk, RecordsOk;
    var db' := PermitTx(db, r).value;
    RostersAgree(db, r.p, r.party.size, roster);
    if db'.records != db.records {
      RememberedKeeps(db.records, db'.records, r.key, db'.parties);
    }
  }

  lemma PermitKeepsQueue(db: Db, r: PermitRequest, roster: Roster)
    requires DbOk(db) && PermitTx(db, r).Ok? && PermitStale(db, r, roster)
    ensures var db' := PermitTx(db, r).value;
            && PartyJobsOk(db'.parties, db'.jobs) && RefsOk(db'.jobs, |db'.parties|, |db'.incidents|)
            && IncidentsOk(db'.incidents, db'.jobs) && db.jobs <= db'.jobs
  {
    hide WindowsOk, PartiesOk, RostersOk, FeesOk, PartyJobsOk, RefsOk, UniqueTopics, IncidentsOk, RecordsOk;
    var db' := PermitTx(db, r).value;
    PartyFacts(db, r.p);
    NotifyJobKeeps(db, r.p, db'.parties[r.p], NewJob(NotifyDispatch, r.p, r.maxAttempts, r.now));
  }

  /** The permit request: a readiness check made on a roster read long ago is
      still right when the seats are taken. */
  lemma PermitKeeps(db: Db, r: PermitRequest, roster: Roster)
    requires DbOk(db) && PermitTx(db, r).Ok? && PermitStale(db, r, roster)
    ensures DbOk(PermitTx(db, r).value) && Later(db, PermitTx(db, r).value)
  {
    hide WindowsOk, PartiesOk, RostersOk, FeesOk, PartyJobsOk, RefsOk, UniqueTopics, IncidentsOk, RecordsOk, Later;
    var db' := PermitTx(db, r).value;
    PermitKeepsSeats(db, r, roster);
    PermitKeepsQueue(db, r, roster);
    PermitKeepsRecords(db, r, roster);
    LaterWithMore(db, db.(parties := db'.parties, windows := db'.windows, settlements := db'.settlements),
                  db'.jobs, db'.records);
  }

  lemma RememberedKeeps(rs: map<Key, Record>, rs': map<Key, Record>, k: Key, ps: seq<Party>)
    requires RecordsOk(rs, ps)
    requires rs' == rs || (k !in rs && k in rs' && rs' == rs[k := rs'[k]] && RecordOk(k, rs'[k], ps))
    ensures RecordsOk(rs', ps)
  {
  }

  lemma NotifyJobKeeps(db: Db, p: nat, row: Party, job: Job)
    requires DbOk(db) && p < |db.parties| && db.parties[p].window.None? && row.window.Some?
    requires db.parties[p].state != Completed && row.state != Completed
    requires job.kind == NotifyDispatch && job.ref == p && job.maxAttempts > 0
    ensures PartyJobsOk(db.parties[p := row], db.jobs + [job])
    ensures RefsOk(db.jobs + [job], |db.parties|, |db.incidents|)
    ensures IncidentsOk(db.incidents, db.jobs + [job])
  {
    var ps, js := db.parties[p := row], db.jobs + [job];
    forall q | 0 <= q < |ps| ensures PartyJobsFit(q, ps[q], js) {
      assert PartyJobsFit(q, db.parties[q], db.jobs);
      JobsForAppend(db.jobs, job, NotifyDispatch, q);
      JobsForAppend(db.jobs, job, SettleParty, q);
    }
    AppendedJobKeepsIncidents(db, job, db.incidents);
  }

  lemma AppendedJobKeepsIncidents(db: Db, job: Job, rows: seq<Incident>)
    requires DbOk(db) && rows == db.incidents && job.kind != EscalateIncident
    requires RefOk(job, |db.parties|, |db.incidents|)
    ensures IncidentsOk(rows, db.jobs + [job])
    ensures RefsOk(db.jobs + [job], |db.parties|, |db.incidents|)
  {
    forall i | 0 <= i < |rows| ensures IncidentOk(i, rows[i], db.jobs + [job]) {
      assert IncidentOk(i, db.incidents[i], db.jobs);
      JobsForAppend(db.jobs, job, EscalateIncident, i);
    }
  }

  lemma SettleJobKeeps(db: Db, p: nat, row: Party, job: Job)
    requires DbOk(db) && p < |db.parties| && db.parties[p].state != Completed && row.state == Completed
    requires db.parties[p].window == row.window
    requires job.kind == SettleParty && job.ref == p && job.maxAttempts > 0
    ensures PartyJobsOk(db.parties[p := row], db.jobs + [job])
    ensures RefsOk(db.jobs + [job], |db.parties|, |db.incidents|)
    ensures IncidentsOk(db.incidents, db.jobs + [job])
  {
    var ps, js := db.parties[p := row], db.jobs + [job];
    forall q | 0 <= q < |ps| ensures PartyJobsFit(q, ps[q], js) {
      assert PartyJobsFit(q, db.parties[q], db.jobs);
      JobsForAppend(db.jobs, job, NotifyDispatch, q);
      JobsForAppend(db.jobs, job, SettleParty, q);
    }
    AppendedJobKeepsIncidents(db, job, db.incidents);
  }

  lemma SameJobsOfMovedParty(db: Db, p: nat, row: Party)
    requires DbOk(db) && p < |db.parties| && db.parties[p].window == row.window
    requires db.parties[p].state != Completed && row.state != Completed
    ensures PartyJobsOk(db.parties[p := row], db.jobs)
  {
  }

  lemma SameFeesOfMovedParty(db: Db, p: nat, row: Party, ss: map<nat, Settlement>)
    requires FeesOk(db.parties, db.settlements) && p < |db.parties| && FeeOk(p, row, ss)
    requires forall q :: q != p ==> (q in ss <==> q in db.settlements) && (q in ss ==> ss[q] == db.settlements[q])
    ensures FeesOk(db.parties[p := row], ss)
  {
  }

  lemma AdvanceKeeps(db: Db, p: nat, party: Party, next: PartyState, now: int)
    requires DbOk(db) && AdvanceTx(db, p, party, next, now).Ok?
    requires Stale(db, PartyRow(p, party)) && Advances(party.state, next)
    ensures DbOk(AdvanceTx(db, p, party, next, now).value) && Later(db, AdvanceTx(db, p, party, next, now).value)
  {
    hide PartiesOk, RostersOk, FeesOk, PartyJobsOk, RefsOk, UniqueTopics, IncidentsOk, RecordsOk, Later;
    var row := AdvanceTx(db, p, party, next, now).value.parties[p];
    PartyFacts(db, p);
    MovedPartyKeeps(db, p, row, db.windows, db.settlements);
    SameJobsOfMovedParty(db, p, row);
  }

  lemma CompleteKeeps(db: Db, p: nat, party: Party, maxAttempts: int, now: int)
    requires DbOk(db) && CompleteTx(db, p, party, maxAttempts, now).Ok?
    requires Stale(db, PartyRow(p, party)) && party.state == OnTrail
    ensures DbOk(CompleteTx(db, p, party, maxAttempts, now).value)
    ensures Later(db, CompleteTx(db, p, party, maxAttempts, now).value)
  {
    hide WindowsOk, PartiesOk, RostersOk, FeesOk, PartyJobsOk, RefsOk, UniqueTopics, IncidentsOk, RecordsOk, Later;
    var db' := CompleteTx(db, p, party, maxAttempts, now).value;
    var row := db'.parties[p];
    PartyFacts(db, p);
    ReleaseSucceeds(db, p);
    MovedPartyKeeps(db, p, row, db'.windows, db.settlements);
    SettleJobKeeps(db, p, row, NewJob(SettleParty, p, maxAttempts, now));
    LaterWithMore(db, db.(parties := db'.parties, windows := db'.windows), db'.jobs, db.records);
  }

  lemma StopKeeps(db: Db, p: nat, party: Party, next: PartyState, note: string, now: int)
    requires DbOk(db) && StopTx(db, p, party, next, note, now).Ok?
    requires Stale(db, PartyRow(p, party)) && (next == Cancelled || next == Aborted)
    requires next in PartyTransitions(party.state)
    ensures DbOk(StopTx(db, p, party, next, note, now).value)
    ensures Later(db, StopTx(db, p, party, next, note, now).value)
  {
    hide WindowsOk, PartiesOk, RostersOk, FeesOk, PartyJobsOk, RefsOk, UniqueTopics, IncidentsOk, RecordsOk, Later;
    var db' := StopTx(db, p, party, next, note, now).value;
    var row := db'.parties[p];
    PartyFacts(db, p);
    ReleaseSucceeds(db, p);
    MovedPartyKeeps(db, p, row, db'.windows, db'.settlements);
    SameJobsOfMovedParty(db, p, row);
  }

  // ---------- parties that are created and filled ----------

  lemma CreatedPartyKeepsSeats(db: Db, row: Party)
    requires DbOk(db) && row.state == Draft && row.window.None?
    ensures WindowsOk(db.windows, db.parties + [row])
    ensures RecordsOk(db.records, db.parties + [row])
    ensures RefsOk(db.jobs, |db.parties| + 1, |db.incidents|)
  {
  }

  lemma CreatedPartyKeepsRows(db: Db, row: Party)
    requires DbOk(db) && PartyOk(row, db.windows) && row.state == Draft
    ensures PartiesOk(db.parties + [row], db.windows)
    ensures FeesOk(db.parties + [row], db.settlements)
    ensures PartyJobsOk(db.parties + [row], db.jobs)
  {
  }

  lemma CreatedPartyKeeps(db: Db, row: Party, leaderRef: string)
    requires DbOk(db) && CreatePartyTx(db, row, leaderRef).Ok?
    ensures DbOk(CreatePartyTx(db, row, leaderRef).value) && Later(db, CreatePartyTx(db, row, leaderRef).value)
  {
    hide WindowsOk, PartiesOk, FeesOk, PartyJobsOk, RefsOk, UniqueTopics, IncidentsOk, RecordsOk;
    var db' := CreatePartyTx(db, row, leaderRef).value;
    var p := |db.parties|;
    CreatedPartyKeepsSeats(db, db'.parties[p]);
    CreatedPartyKeepsRows(db, db'.parties[p]);
    forall q | 0 <= q < |db'.parties| ensures RosterFits(RosterIn(db'.rosters, q), db'.parties[q]) {
      assert q < p ==> RosterFits(RosterIn(db.rosters, q), db.parties[q]);
    }
  }

  lemma GrownRosterKeeps(db: Db, p: nat, roster: Roster)
    requires RostersOk(db.rosters, db.parties) && p < |db.parties| && RosterFits(roster, db.parties[p])
    requires RosterLater(RosterOf(db, p), roster)
    ensures RostersOk(db.rosters[p := roster], db.parties)
    ensures Later(db, db.(rosters := db.rosters[p := roster]))
  {
  }

  /** A draft read long ago is enough to add members safely: the count taken
      inside the transaction keeps the roster within the size, and a party whose
      roster was complete when it got its permit can take no further member. */
  lemma RegisteredMemberKeeps(db: Db, p: nat, party: Party, member: string, waiver: bool)
    requires DbOk(db) && RegisterMemberTx(db, p, party.size, member, waiver).Ok?
    requires Stale(db, PartyRow(p, party))
    ensures DbOk(RegisterMemberTx(db, p, party.size, member, waiver).value)
    ensures Later(db, RegisterMemberTx(db, p, party.size, member, waiver).value)
    ensures db.parties[p].window.None?
  {
    hide WindowsOk, PartiesOk, RostersOk, FeesOk, PartyJobsOk, RefsOk, UniqueTopics, IncidentsOk, RecordsOk, Later;
    var db' := RegisterMemberTx(db, p, party.size, member, waiver).value;
    PartyFacts(db, p);
    assert db.parties[p].window.None?;
    GrownRosterKeeps(db, p, db'.rosters[p]);
  }

  // ---------- fees ----------

  lemma ChangedFeeKeeps(db: Db, p: nat, s: Settlement, c: SettlementChange)
    requires DbOk(db) && SettlementTx(db, p, c).Ok? && Stale(db, SettlementRow(p, s))
    requires c.expectedVersion == s.version && c.next in SettlementTransitions(s.state)
    requires c.next == Settled <==> c.settledAt.Some?
    requires p < |db.parties| ==> FeeFits(db.parties[p].state, c.next)
    ensures db.settlements[p] == s
    ensures DbOk(SettlementTx(db, p, c).value) && Later(db, SettlementTx(db, p, c).value)
  {
    hide WindowsOk, PartiesOk, RostersOk, PartyJobsOk, RefsOk, UniqueTopics, IncidentsOk, RecordsOk;
    var ss := SettlementTx(db, p, c).value.settlements;
    assert p < |db.parties|;
    PartyFacts(db, p);
    assert FeeOk(p, db.parties[p], ss);
    SameFeesOfMovedParty(db, p, db.parties[p], ss);
    assert db.parties[p := db.parties[p]] == db.parties;
  }

  /** A party that has a settlement left the draft state, so its fee may be waived. */
  lemma FeeMayBeWaived(db: Db, p: nat)
    requires DbOk(db) && p in db.settlements
    ensures p < |db.parties| && FeeFits(db.parties[p].state, Waived)
  {
    hide WindowsOk, RostersOk, PartyJobsOk, RefsOk, UniqueTopics, IncidentsOk, RecordsOk;
    assert p < |db.parties|;
    PartyFacts(db, p);
  }

  /** Only a completed party has a settlement job. */
  lemma SettleJobMeansCompleted(db: Db, j: nat)
    requires DbOk(db) && j < |db.jobs| && db.jobs[j].kind == SettleParty
    ensures db.jobs[j].ref < |db.parties| && db.parties[db.jobs[j].ref].state == Completed
  {
    hide WindowsOk, PartiesOk, RostersOk, FeesOk, PartyJobsOk, UniqueTopics, IncidentsOk, RecordsOk;
    var p := db.jobs[j].ref;
    assert RefOk(db.jobs[j], |db.parties|, |db.incidents|);
    PartyFacts(db, p);
    assert j in JobsFor(db.jobs, SettleParty, p);
  }

  lemma ReportKeeps(db: Db, p: nat, checkpoint: int, row: Progress)
    requires DbOk(db) && ReportTx(db, p, checkpoint, row).Ok?
    ensures DbOk(ReportTx(db, p, checkpoint, row).value) && Later(db, ReportTx(db, p, checkpoint, row).value)
  {
  }

  // ---------- incidents ----------

  lemma AppendedEscalationJob(db: Db, i: nat, row: Incident, job: Job)
    requires DbOk(db) && i < |db.incidents| && job.kind == EscalateIncident && job.ref == i && job.maxAttempts > 0
    requires row.severity == db.incidents[i].severity
    requires row.count == db.incidents[i].count + 1 < MaxEscalations(row.severity)
    requires row.state == Escalated
    ensures IncidentsOk(db.incidents[i := row], db.jobs + [job])
    ensures RefsOk(db.jobs + [job], |db.parties|, |db.incidents|)
    ensures PartyJobsOk(db.parties, db.jobs + [job])
  {
    hide WindowsOk, PartiesOk, RostersOk, FeesOk, UniqueTopics, RecordsOk;
    var rows, js := db.incidents[i := row], db.jobs + [job];
    forall k | 0 <= k < |rows| ensures IncidentOk(k, rows[k], js) {
      assert IncidentOk(k, db.incidents[k], db.jobs);
      JobsForAppend(db.jobs, job, EscalateIncident, k);
    }
    EscalationJobKeepsParties(db, job);
  }

  lemma EscalationJobKeepsParties(db: Db, job: Job)
    requires PartyJobsOk(db.parties, db.jobs) && (job.kind == EscalateIncident || job.kind == Recurring)
    ensures PartyJobsOk(db.parties, db.jobs + [job])
  {
    forall p | 0 <= p < |db.parties| ensures PartyJobsFit(p, db.parties[p], db.jobs + [job]) {
      assert PartyJobsFit(p, db.parties[p], db.jobs);
      JobsForAppend(db.jobs, job, NotifyDispatch, p);
      JobsForAppend(db.jobs, job, SettleParty, p);
    }
  }

  lemma MovedIncidentKeepsTopics(rows: seq<Incident>, i: nat, row: Incident)
    requires UniqueTopics(rows) && i < |rows|
    requires row.party == rows[i].party && row.kind == rows[i].kind && row.checkpoint == rows[i].checkpoint
    requires Unresolved(row.state) ==> Unresolved(rows[i].state)
    ensures UniqueTopics(rows[i := row])
  {
  }

  lemma MovedIncidentIsLater(db: Db, i: nat, row: Incident, js: seq<Job>)
    requires i < |db.incidents| && IncidentLater(db.incidents[i], row) && db.jobs <= js
    ensures Later(db, db.(incidents := db.incidents[i := row], jobs := js))
  {
  }

  lemma EscalateKeeps(db: Db, i: nat, incident: Incident, maxAttempts: int, now: int)
    requires DbOk(db) && EscalateTx(db, i, incident, maxAttempts, now).Ok?
    requires Stale(db, IncidentRow(i, incident)) && DecideEscalate(incident) == HandOff
    ensures db.incidents[i] == incident
    ensures DbOk(EscalateTx(db, i, incident, maxAttempts, now).value)
    ensures Later(db, EscalateTx(db, i, incident, maxAttempts, now).value)
  {
    hide WindowsOk, PartiesOk, RostersOk, FeesOk, PartyJobsOk, RefsOk, UniqueTopics, RecordsOk, Later;
    var db' := EscalateTx(db, i, incident, maxAttempts, now).value;
    var row := db'.incidents[i];
    assert IncidentOk(i, incident, db.jobs);
    MovedIncidentKeepsTopics(db.incidents, i, row);
    MovedIncidentIsLater(db, i, row, db'.jobs);
    if row.count < MaxEscalations(incident.severity) {
      AppendedEscalationJob(db, i, row, NewJob(EscalateIncident, i, maxAttempts,
                                               now + EscalationDelay(incident.severity)));
    } else {
      MovedIncidentKeeps(db, i, row);
    }
  }

  lemma MovedIncidentKeeps(db: Db, i: nat, row: Incident)
    requires DbOk(db) && i < |db.incidents| && IncidentOk(i, row, db.jobs)
    ensures IncidentsOk(db.incidents[i := row], db.jobs)
  {
  }

  /** Resolving and archiving. */
  lemma SettledIncidentKeeps(db: Db, i: nat, incident: Incident, c: IncidentChange)
    requires DbOk(db) && IncidentTx(db, i, c).Ok? && Stale(db, IncidentRow(i, incident))
    requires c.expectedVersion == incident.version && c.count == incident.count
    requires !Unresolved(c.next) && c.next in IncidentTransitions(incident.state)
    ensures db.incidents[i] == incident
    ensures DbOk(IncidentTx(db, i, c).value) && Later(db, IncidentTx(db, i, c).value)
  {
    hide WindowsOk, PartiesOk, RostersOk, FeesOk, PartyJobsOk, RefsOk, UniqueTopics, RecordsOk, Later;
    var row := IncidentTx(db, i, c).value.incidents[i];
    assert IncidentOk(i, incident, db.jobs);
    MovedIncidentKeepsTopics(db.incidents, i, row);
    MovedIncidentIsLater(db, i, row, db.jobs);
    MovedIncidentKeeps(db, i, row);
  }

  lemma OpenedIncidentKeepsTopics(rows: seq<Incident>, row: Incident)
    requires UniqueTopics(rows) && CreateIncident(rows, row).Ok? && Unresolved(row.state)
    ensures UniqueTopics(CreateIncident(rows, row).value)
  {
  }

  lemma OpenedIncidentKeeps(db: Db, incident: Incident, maxAttempts: int, now: int)
    requires DbOk(db) && OpenIncidentTx(db, incident, maxAttempts, now).Ok?
    ensures DbOk(OpenIncidentTx(db, incident, maxAttempts, now).value)
    ensures Later(db, OpenIncidentTx(db, incident, maxAttempts, now).value)
  {
    hide WindowsOk, PartiesOk, RostersOk, FeesOk, PartyJobsOk, UniqueTopics, RecordsOk;
    var db' := OpenIncidentTx(db, incident, maxAttempts, now).value;
    var i := |db.incidents|;
    var job := db'.jobs[|db.jobs|];
    assert db'.jobs == db.jobs + [job];
    OpenedIncidentKeepsTopics(db.incidents, incident.(state := Open, count := 0));
    forall j | 0 <= j < |db.jobs| ensures RefOk(db'.jobs[j], |db'.parties|, |db'.incidents|) {
      assert RefOk(db.jobs[j], |db.parties|, |db.incidents|);
    }
    assert JobsFor(db.jobs, EscalateIncident, i) == {};
    forall k | 0 <= k < |db'.incidents| ensures IncidentOk(k, db'.incidents[k], db'.jobs) {
      assert k < i ==> IncidentOk(k, db.incidents[k], db.jobs);
      JobsForAppend(db.jobs, job, EscalateIncident, k);
    }
    EscalationJobKeepsParties(db, job);
  }

  // ---------- queue and records ----------

  lemma ScheduledJobKeeps(db: Db, job: Job)
    requires DbOk(db) && job.kind == Recurring && EnqueueTx(db, job).Ok?
    ensures DbOk(EnqueueTx(db, job).value) && Later(db, EnqueueTx(db, job).value)
  {
    hide WindowsOk, PartiesOk, RostersOk, FeesOk, PartyJobsOk, RefsOk, UniqueTopics, IncidentsOk, RecordsOk;
    var queued := EnqueueTx(db, job).value.jobs[|db.jobs|];
    EscalationJobKeepsParties(db, queued);
    AppendedJobKeepsIncidents(db, queued, db.incidents);
  }

  lemma ChangedJobsKeep(db: Db, js: seq<Job>)
    requires DbOk(db) && |js| == |db.jobs| && forall j :: 0 <= j < |js| ==> JobLater(db.jobs[j], js[j])
    ensures DbOk(db.(jobs := js)) && Later(db, db.(jobs := js))
  {
    hide WindowsOk, PartiesOk, RostersOk, FeesOk, PartyJobsOk, RefsOk, UniqueTopics, IncidentsOk, RecordsOk;
    assert forall j :: 0 <= j < |js| ==> JobLater(db.jobs[j], js[j]);
    SameJobsKeep(db, js);
  }

  lemma PurgeKeeps(db: Db, now: int)
    requires DbOk(db)
    ensures DbOk(db.(records := DeleteExpired(db.records, now)))
    ensures Later(db, db.(records := DeleteExpired(db.records, now)))
  {
    hide WindowsOk, PartiesOk, RostersOk, FeesOk, PartyJobsOk, RefsOk, UniqueTopics, IncidentsOk;
    forall k | k in DeleteExpired(db.records, now) ensures RecordOk(k, db.records[k], db.parties) {
    }
  }
}
