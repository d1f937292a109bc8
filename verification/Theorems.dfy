/** The guarantees of the platform, each for every sound run. */
module Theorems {
  import opened Errors
  import opened Domain
  import opened Tables
  import opened Repositories
  import opened Transactions
  import opened Backoff
  import opened Runs
  import opened Invariants
  import opened Preservation
  import opened Safety

  // ---------- seats ----------

  /** Every window's counter is the sum of the seats of the parties that hold a
      permit on it, and it never leaves 0..total. */
  lemma SeatsAreConserved(run: Run, w: nat)
    requires Sound(run) && w < |Last(run).db.windows|
    ensures var db := Last(run).db;
            && db.windows[w].reserved == SeatsHeld(db.parties, w)
            && 0 <= db.windows[w].reserved <= db.windows[w].total
  {
    ReachableStatesAreSafe(run);
  }

  /** A completion, cancellation or abort can only fail because the party moved
      meanwhile: the seats it gives back are always there, and its fee can be
      written off. */
  lemma ClosingFailsOnlyOnConflict(run: Run, a: Action)
    requires Sound(run) && Allowed(run, a)
    requires a.Stop? || (a.Complete? && a.maxAttempts > 0)
    ensures a.p < |Last(run).db.parties|
    ensures Write(Last(run).db, a).Ok? <==> Last(run).db.parties[a.p] == a.party
    ensures Write(Last(run).db, a).Err? ==> Write(Last(run).db, a).code == VersionConflict
  {
    hide Later, PartiesOk, RostersOk, FeesOk, PartyJobsOk, RefsOk, UniqueTopics, IncidentsOk, RecordsOk, QueueOk,
      WindowsOk;
    var db := Last(run).db;
    ReachableStatesAreSafe(run);
    ReadsAreStale(run, a);
    assert PartyRow(a.p, a.party) in Reads(a);
    assert Stale(db, PartyRow(a.p, a.party));
    ReleaseSucceeds(db, a.p);
  }

  /** After an abort or cancellation was tried, the party goes on exactly if its row had
      moved since it was read, to a state that is not terminal. */
  lemma StopsFailOnlyForMovedParties(run: Run, a: Action)
    requires Sound(run) && Allowed(run, a) && a.Stop?
    ensures var row, ps := a.party, Perform(Last(run), a).db.parties;
            && a.p < |Last(run).db.parties| == |ps|
            && (ps[a.p].state in {Draft, PermitReserved, Confirmed, OnTrail} <==>
                  && Last(run).db.parties[a.p] != row
                  && Last(run).db.parties[a.p].state in {Draft, PermitReserved, Confirmed, OnTrail})
  {
    hide Sound, Last, Inv, Reads, Seen;
    ClosingFailsOnlyOnConflict(run, a);
  }

  /** Once closed, a window never takes another seat. */
  lemma ClosedWindowsOnlyDrain(run: Run, earlier: Db, w: nat)
    requires Sound(run) && Saw(run, earlier) && w < |earlier.windows| && earlier.windows[w].closedAt.Some?
    ensures var db := Last(run).db;
            w < |db.windows| && db.windows[w].closedAt == earlier.windows[w].closedAt
            && db.windows[w].reserved <= earlier.windows[w].reserved
  {
    ReachableStatesAreSafe(run);
    assert WindowLater(earlier.windows[w], Last(run).db.windows[w]);
  }

  // ---------- the life of a party ----------

  /** A state change that goes through was decided on the row that is there now,
      although the row was read at any earlier point of the run. */
  lemma StateChangesAreAbaFree(run: Run, p: nat, row: Party, c: PartyChange)
    requires Sound(run) && Seen(run, PartyRow(p, row))
    requires c.party == p && c.expectedState == row.state && c.expectedVersion == row.version
    ensures ApplyStateChange(Last(run).db.parties, c).Ok? <==>
            p < |Last(run).db.parties| && Last(run).db.parties[p] == row
  {
    hide Later, Inv;
    ReachableStatesAreSafe(run);
    var db :| Saw(run, db) && Holds(db, PartyRow(p, row));
    HoldsThenStale(db, Last(run).db, PartyRow(p, row));
    VersionGuardIsExact(Last(run).db, p, row, c);
  }

  /** One step leaves a party alone or takes it along one edge of the state
      machine, and then it is one of the four transactions on that very party. */
  lemma PartyStep(w: World, a: Action, p: nat)
    requires Enabled(w, a) && AllStale(w.db, a) && p < |w.db.parties|
    ensures var ps := Perform(w, a).db.parties;
            && p < |ps|
            && (ps[p] == w.db.parties[p]
                || (&& MovesParty(a)
                    && Write(w.db, a).Ok?
                    && ps[p].state in (match w.db.parties[p].state
                                       case Draft => {PermitReserved, Cancelled}
                                       case PermitReserved => {Confirmed, Cancelled}
                                       case Confirmed => {OnTrail, Cancelled, Aborted}
                                       case OnTrail => {Completed, Aborted}
                                       case _ => {})
                    && ps[p].version == w.db.parties[p].version + 1
                    && ps == w.db.parties[p := ps[p]]))
  {
    hide Write, WorkerStep, Enabled, Reads, Stale;
    if !ByService(a) {
      WorkersKeepTables(w, a);
    } else if MovesParty(a) && Write(w.db, a).Ok? {
      MovedPartyRow(w, a);
    } else {
      OtherWritesKeepParties(w.db, a, p);
    }
  }

  /** Only settlements, incidents and jobs may differ. */
  predicate SameParties(a: Db, b: Db) {
    && b.parties == a.parties && b.windows == a.windows && b.rosters == a.rosters
    && b.reports == a.reports && b.records == a.records
  }

  lemma HandOffTouches(db: Db, i: nat, incident: Incident, maxAttempts: int, now: int)
    ensures SameParties(db, Commit(db, EscalateTx(db, i, incident, maxAttempts, now)))
  {
  }

  lemma FeeTouches(db: Db, p: nat, c: SettlementChange)
    ensures SameParties(db, Commit(db, SettlementTx(db, p, c)))
  {
  }

  lemma JobsTouch(db: Db, r: Result<seq<Job>>)
    ensures SameParties(db, Commit(db, JobsTx(db, r)))
  {
  }

  lemma FailureTouches(w: World, t: Ticket, base: int, cap: int, nanos: int)
    ensures SameParties(w.db, ReportedFailure(w, t, base, cap, nanos).db)
  {
    hide MarkFailure, JobsTx, Commit, Permanent, Delay, Drop, TallyOf;
    JobsTouch(w.db, MarkFailure(w.db.jobs, t.job, true, Unix(nanos)));
    if t in w.workers && w.workers[t].Returned? {
      JobsTouch(w.db, MarkFailure(w.db.jobs, t.job, false, Unix(nanos + Delay(w.workers[t].attempts, base, cap))));
    }
  }

  /** Workers write settlements, incidents and jobs only. */
  lemma WorkersKeepTables(w: World, a: Action)
    requires !ByService(a)
    ensures SameParties(w.db, WorkerStep(w, a).db)
  {
    hide Lease, MarkDone, ReclaimExpired, EscalateTx, SettlementTx, JobsTx, Commit, ReportedFailure, TallyOf,
      AttemptsOf, Drop;
    match a
    case Escalate(t, i, incident, maxAttempts, now, outcome) => HandOffTouches(w.db, i, incident, maxAttempts, now);
    case ChargeFee(t, p, _, s, reference, now, outcome) =>
      FeeTouches(w.db, p, SettlementChange(s.version, Settled, reference, "", Some(now)));
    case ParkFee(t, p, s, note) => FeeTouches(w.db, p, SettlementChange(s.version, Parked, "", note, None));
    case ReportDone(t) => JobsTouch(w.db, MarkDone(w.db.jobs, t.job));
    case ReportFailure(t, base, cap, nanos) => FailureTouches(w, t, base, cap, nanos);
    case _ =>
  }

  function MovedId(a: Action): nat
    requires MovesParty(a)
  {
    if a.RequestPermit? then a.request.p else a.p
  }

  lemma MovedPartyRow(w: World, a: Action)
    requires Enabled(w, a) && AllStale(w.db, a) && MovesParty(a) && Write(w.db, a).Ok?
    ensures var db := Write(w.db, a).value; var p := MovedId(a);
            && p < |w.db.parties| && db.parties == w.db.parties[p := db.parties[p]]
            && db.parties[p].state in PartyTransitions(w.db.parties[p].state)
            && db.parties[p].version == w.db.parties[p].version + 1
  {
  }

  lemma OtherWritesKeepParties(db: Db, a: Action, p: nat)
    requires p < |db.parties| && (MovesParty(a) ==> Write(db, a).Err?)
    ensures var db' := Commit(db, Write(db, a)); p < |db'.parties| && db'.parties[p] == db.parties[p]
  {
  }

  function RowOf(db: Db, p: nat): Option<Party> {
    if p < |db.parties| then Some(db.parties[p]) else None
  }

  /** How often a party's row has changed since it was created. */
  function Moves(run: Run, p: nat): nat {
    match run
    case Start => 0
    case Then(past, act) =>
      Moves(past, p)
      + (if RowOf(Last(past).db, p).Some? && RowOf(Last(run).db, p) != RowOf(Last(past).db, p) then 1 else 0)
  }

  /** A party's version counts its transitions; the lifecycle ends after at most four. */
  lemma {:induction false} VersionCountsTransitions(run: Run, p: nat)
    requires Sound(run)
    ensures p < |Last(run).db.parties| ==> Last(run).db.parties[p].version == 1 + Moves(run, p) <= 5
    ensures p >= |Last(run).db.parties| ==> Moves(run, p) == 0
  {
    hide Later, Perform, Enabled, WindowsOk, RostersOk, FeesOk, PartyJobsOk, RefsOk, UniqueTopics, IncidentsOk,
      RecordsOk, QueueOk;
    ReachableStatesAreSafe(run);
    if run.Then? {
      VersionCountsTransitions(run.past, p);
      ReachableStatesAreSafe(run.past);
      ReadsAreStale(run.past, run.act);
      if p < |Last(run.past).db.parties| {
        PartyStep(Last(run.past), run.act, p);
      } else if p < |Last(run).db.parties| {
        NewPartiesAreDrafts(Last(run.past), run.act, p);
      }
    }
  }

  lemma NewPartiesAreDrafts(w: World, a: Action, p: nat)
    requires |w.db.parties| <= p < |Perform(w, a).db.parties|
    ensures Perform(w, a).db.parties[p].version == 1
  {
    hide WorkerStep;
    if !ByService(a) {
      WorkersKeepTables(w, a);
    }
  }

  // ---------- one party across the tables ----------

  /** What the tables say about one party agrees in every reachable state. */
  lemma TablesAgree(run: Run, p: nat)
    requires Sound(run) && p < |Last(run).db.parties|
    ensures var db := Last(run).db; var row := db.parties[p];
            var notices, charges := |JobsFor(db.jobs, NotifyDispatch, p)|, |JobsFor(db.jobs, SettleParty, p)|;
            && (row.state == Draft ==> row.window.None? && p !in db.settlements && notices == 0)
            && (row.state in {PermitReserved, Confirmed, OnTrail} ==>
                  && row.window.Some? && p in db.settlements && notices == 1
                  && db.settlements[p].seats == row.size
                  && (db.settlements[p].state == Pending || db.settlements[p].state == Waived))
            && charges == (if row.state == Completed then 1 else 0)
            && (row.state == Aborted ==> p in db.settlements && db.settlements[p].state == Waived)
            && (row.state == Cancelled && p in db.settlements ==> db.settlements[p].state == Waived)
            && (p in db.settlements && db.settlements[p].state == Settled ==> row.state == Completed)
  {
    hide Later, NeverUndone, QueueOk;
    ReachableStatesAreSafe(run);
    PartyFacts(Last(run).db, p);
  }

  /** A party never has more members than its size, and from its permit on it has
      exactly that many, all with a signed waiver, although readiness and the
      draft state are checked outside the transactions that rely on them. */
  lemma PermitHoldersAreComplete(run: Run, p: nat)
    requires Sound(run) && p < |Last(run).db.parties|
    ensures var db := Last(run).db;
            && |RosterOf(db, p)| <= db.parties[p].size
            && (db.parties[p].window.Some? ==>
                  var roster := RosterOf(db, p);
                  |roster| == db.parties[p].size && forall m :: m in roster ==> roster[m])
  {
    hide Later, NeverUndone, QueueOk;
    ReachableStatesAreSafe(run);
    PartyFacts(Last(run).db, p);
  }

  /** A permit is always one of the party's own trail and day, and stays that one. */
  lemma PermitsStayPut(run: Run, earlier: Db, p: nat)
    requires Sound(run) && Saw(run, earlier) && p < |earlier.parties| && earlier.parties[p].window.Some?
    ensures var db := Last(run).db;
            && p < |db.parties| && db.parties[p].window == earlier.parties[p].window
            && db.parties[p].window.value < |db.windows|
            && db.windows[db.parties[p].window.value].trail == db.parties[p].trail
            && db.windows[db.parties[p].window.value].day == db.parties[p].day
  {
    hide QueueOk;
    ReachableStatesAreSafe(run);
    assert PartyLater(earlier.parties[p], Last(run).db.parties[p]);
    PartyFacts(Last(run).db, p);
  }

  // ---------- seats are taken once and given back once ----------

  predicate HoldsSeats(db: Db, p: nat) {
    p < |db.parties| && HoldsPermit(db.parties[p].state)
  }

  /** How often a party took seats. */
  function Takings(run: Run, p: nat): nat {
    match run
    case Start => 0
    case Then(past, act) =>
      Takings(past, p) + (if !HoldsSeats(Last(past).db, p) && HoldsSeats(Last(run).db, p) then 1 else 0)
  }

  /** How often a party gave its seats back. */
  function Returns(run: Run, p: nat): nat {
    match run
    case Start => 0
    case Then(past, act) =>
      Returns(past, p) + (if HoldsSeats(Last(past).db, p) && !HoldsSeats(Last(run).db, p) then 1 else 0)
  }

  predicate HasPermit(db: Db, p: nat) {
    p < |db.parties| && db.parties[p].window.Some?
  }

  lemma HoldersHavePermits(run: Run, p: nat)
    requires Sound(run)
    ensures HoldsSeats(Last(run).db, p) ==> HasPermit(Last(run).db, p)
    ensures HasPermit(Last(run).db, p) && !HoldsSeats(Last(run).db, p) ==> Terminal(Last(run).db.parties[p].state)
    ensures p < |Last(run).db.parties| ==> VersionFits(Last(run).db.parties[p])
  {
    hide Later, NeverUndone, QueueOk;
    ReachableStatesAreSafe(run);
    if p < |Last(run).db.parties| {
      PartyFacts(Last(run).db, p);
    }
  }

  /** A party takes seats exactly once if it ever got a permit, never otherwise,
      and gives them back exactly once, when it stops holding them. */
  lemma {:induction false} SeatsAreTakenAndReturnedOnce(run: Run, p: nat)
    requires Sound(run)
    ensures Takings(run, p) == (if HasPermit(Last(run).db, p) then 1 else 0)
    ensures Returns(run, p) == (if HasPermit(Last(run).db, p) && !HoldsSeats(Last(run).db, p) then 1 else 0)
  {
    hide Perform, Enabled, Inv, Later, NeverUndone, Reads, Write, Saw, VersionFits;
    HoldersHavePermits(run, p);
    if run.Then? {
      SeatsAreTakenAndReturnedOnce(run.past, p);
      HoldersHavePermits(run.past, p);
      if p < |Last(run.past).db.parties| {
        PermitStep(run.past, run.act, p);
      } else if p < |Last(run).db.parties| {
        NewPartiesAreDrafts(Last(run.past), run.act, p);
        assert VersionFits(Last(run).db.parties[p]) by {
          HoldersHavePermits(run, p);
        }
        DraftVersion(Last(run).db.parties[p]);
      }
    }
  }

  lemma DraftVersion(row: Party)
    requires VersionFits(row) && row.version == 1
    ensures row.state == Draft && row.window.None?
  {
  }

  lemma PartyStaysLater(a: Db, b: Db, p: nat)
    requires Later(a, b) && p < |a.parties|
    ensures p < |b.parties| && PartyLater(a.parties[p], b.parties[p])
  {
  }

  /** A party gets its window in the step in which it starts to hold seats. */
  lemma PermitStep(run: Run, a: Action, p: nat)
    requires Sound(run) && Allowed(run, a) && p < |Last(run).db.parties|
    ensures p < |Perform(Last(run), a).db.parties|
    ensures PartyLater(Last(run).db.parties[p], Perform(Last(run), a).db.parties[p])
    ensures !HasPermit(Last(run).db, p) && HasPermit(Perform(Last(run), a).db, p) ==>
            HoldsSeats(Perform(Last(run), a).db, p)
  {
    hide Write, WorkerStep, Later, QueueOk, Enabled, AllStale, NeverUndone, DbOk, Perform, Last, Sound, Reads;
    ReachableStatesAreSafe(run);
    ReadsAreStale(run, a);
    PartyStep(Last(run), a, p);
    StepKeeps(Last(run), a);
    PartyStaysLater(Last(run).db, Perform(Last(run), a).db, p);
    PartyFacts(Last(run).db, p);
    PartyFacts(Perform(Last(run), a).db, p);
  }
}
