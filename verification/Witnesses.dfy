/** Runs that show what the platform does not promise, each beside the exact
    condition proved elsewhere. */
module Witnesses {
  import opened Errors
  import opened Domain
  import opened Tables
  import opened Repositories
  import opened Transactions
  import opened Runs
  import opened Storage
  import opened ExactlyOnce

  /** A service's action that is allowed on rows that are there now, and what it writes. */
  lemma Extend(run: Run, a: Action, db: Db)
    requires Sound(run) && ByService(a) && Enabled(Last(run), a) && Write(Last(run).db, a) == Ok(db)
    requires forall s :: s in Reads(a) ==> Holds(Last(run).db, s)
    ensures Allowed(run, a) && Sound(Then(run, a)) && Last(Then(run, a)) == Last(run).(db := db)
  {
    hide Write, WorkerStep, Enabled, Holds, Reads, Last, Sound;
    forall s | s in Reads(a) ensures Seen(run, s) {
      JustRead(run, s);
    }
    UnfoldThen(run, a);
  }

  lemma UnfoldThen(run: Run, a: Action)
    ensures Sound(Then(run, a)) <==> Sound(run) && Allowed(run, a)
    ensures Last(Then(run, a)) == Perform(Last(run), a)
  {
  }

  // ---------- a lease that expired ----------

  const TWO_LEASES := Then(Then(Then(Then(Start, Schedule(1, 0)), Claim(0, "a", 1, 0)), Reclaim(1)),
                           Claim(0, "b", 2, 1))

  const FIRST_LEASE := Ticket(0, 1)
  const SECOND_LEASE := Ticket(0, 2)

  lemma TwoLeasesState()
    ensures Sound(TWO_LEASES)
    ensures Last(TWO_LEASES).db.jobs == [Job(Recurring, 0, Running, 2, 1, 0, "b", Some(2))]
    ensures Last(TWO_LEASES).workers == map[FIRST_LEASE := Leased, SECOND_LEASE := Leased]
  {
    var scheduled := Then(Start, Schedule(1, 0));
    assert Last(scheduled).db.jobs == [Job(Recurring, 0, Queued, 0, 1, 0, "", None)];
    var leased := Then(scheduled, Claim(0, "a", 1, 0));
    assert Last(leased).db.jobs == [Job(Recurring, 0, Running, 1, 1, 0, "a", Some(1))];
    var reclaimed := Then(leased, Reclaim(1));
    assert Last(reclaimed).db.jobs == [Job(Recurring, 0, Queued, 1, 1, 0, "", None)];
    assert Last(reclaimed).workers == map[FIRST_LEASE := Leased];
  }

  /** Attempts can exceed the limit: one lease that expired is enough. */
  lemma AttemptsCanExceedTheLimit()
    ensures Sound(TWO_LEASES) && |Last(TWO_LEASES).db.jobs| == 1
    ensures var job := Last(TWO_LEASES).db.jobs[0]; job.state == Running && job.attempts == 2 && job.maxAttempts == 1
  {
    TwoLeasesState();
  }

  const LATE_REPORT := Then(Then(TWO_LEASES, ReadBack(FIRST_LEASE)), ReturnFrom(FIRST_LEASE, 0, NoBasis, Finished))

  lemma LateReportState()
    ensures Sound(LATE_REPORT)
    ensures Last(LATE_REPORT).db == Last(TWO_LEASES).db
    ensures Last(LATE_REPORT).workers == map[FIRST_LEASE := Returned(2, Finished), SECOND_LEASE := Leased]
  {
    hide TWO_LEASES, Perform, Last, Sound, Allowed;
    TwoLeasesState();
    var read := Then(TWO_LEASES, ReadBack(FIRST_LEASE));
    UnfoldThen(TWO_LEASES, ReadBack(FIRST_LEASE));
    ReadBackHappens(Last(TWO_LEASES));
    assert Allowed(TWO_LEASES, ReadBack(FIRST_LEASE)) by { NoReads(TWO_LEASES, ReadBack(FIRST_LEASE)); }
    UnfoldThen(read, ReturnFrom(FIRST_LEASE, 0, NoBasis, Finished));
    ReturnHappens(Last(read));
    assert Allowed(read, ReturnFrom(FIRST_LEASE, 0, NoBasis, Finished)) by {
      NoReads(read, ReturnFrom(FIRST_LEASE, 0, NoBasis, Finished));
    }
  }

  lemma NoReads(run: Run, a: Action)
    requires Reads(a) == {} && Enabled(Last(run), a)
    ensures Allowed(run, a)
  {
  }

  lemma ReadBackHappens(w: World)
    requires w.workers == map[FIRST_LEASE := Leased, SECOND_LEASE := Leased]
    requires w.db.jobs == [Job(Recurring, 0, Running, 2, 1, 0, "b", Some(2))]
    ensures Enabled(w, ReadBack(FIRST_LEASE)) && Reads(ReadBack(FIRST_LEASE)) == {}
    ensures Perform(w, ReadBack(FIRST_LEASE)) == w.(workers := map[FIRST_LEASE := Working(2), SECOND_LEASE := Leased])
  {
    assert w.workers[FIRST_LEASE := Working(2)] == map[FIRST_LEASE := Working(2), SECOND_LEASE := Leased];
  }

  lemma ReturnHappens(w: World)
    requires w.workers == map[FIRST_LEASE := Working(2), SECOND_LEASE := Leased]
    requires w.db.jobs == [Job(Recurring, 0, Running, 2, 1, 0, "b", Some(2))]
    ensures var a := ReturnFrom(FIRST_LEASE, 0, NoBasis, Finished);
            && Enabled(w, a) && Reads(a) == {}
            && Perform(w, a) == w.(workers := map[FIRST_LEASE := Returned(2, Finished), SECOND_LEASE := Leased])
  {
    assert w.workers[FIRST_LEASE := Returned(2, Finished)] == map[FIRST_LEASE := Returned(2, Finished),
                                                                  SECOND_LEASE := Leased];
  }

  /** The worker whose lease was taken away reports after another one has leased the
      job: its outcome is recorded, although the row names the other one. */
  lemma LateReportsAreRecorded()
    ensures Sound(LATE_REPORT) && Allowed(LATE_REPORT, ReportDone(FIRST_LEASE))
    ensures var w := Last(LATE_REPORT); var after := Perform(w, ReportDone(FIRST_LEASE));
            && |w.db.jobs| == 1 && w.db.jobs[0].state == Running && w.db.jobs[0].lockedBy == "b"
            && SECOND_LEASE in after.workers && after.workers[SECOND_LEASE] == Leased
            && |after.db.jobs| == 1 && after.db.jobs[0].state == Done
  {
    TwoLeasesState();
    LateReportState();
    hide LATE_REPORT, TWO_LEASES;
    NoReads(LATE_REPORT, ReportDone(FIRST_LEASE));
  }

  // ---------- two parties of one leader ----------

  const PLAN := Party(0, 1, 0, 0, 1, Draft, 1, None, None, None, None)
  const ALONE: Roster := map["L" := true]
  const ONE_KEY := Key("k", 1)

  const ONE_PARTY := Then(Start, CreateParty(PLAN, "L"))
  const TWO_PARTIES := Then(ONE_PARTY, CreateParty(PLAN, "L"))
  const OPENED := Then(TWO_PARTIES, EnsureWindow(0, 0, 2))

  lemma PlanIsCreated(db: Db)
    requires |db.parties| !in db.rosters
    ensures Write(db, CreateParty(PLAN, "L")) ==
            Ok(db.(parties := db.parties + [PLAN], rosters := db.rosters[|db.parties| := ALONE]))
  {
    assert RosterOf(db, |db.parties|) == map[];
    assert AddMember(map[], "L", true) == Ok(ALONE);
  }

  lemma OpenedState()
    ensures Sound(OPENED)
    ensures Last(OPENED) == World(Db([Window(0, 0, 2, 0, 1, None)], [PLAN, PLAN], map[0 := ALONE, 1 := ALONE],
                                     map[], map[], [], [], map[]), map[], map[])
  {
    hide Write, Perform, Sound;
    assert Sound(Start) by { SoundStart(); }
    var one := EMPTY.(parties := [PLAN], rosters := map[0 := ALONE]);
    PlanIsCreated(EMPTY);
    assert EMPTY.parties + [PLAN] == [PLAN] && map[][0 := ALONE] == map[0 := ALONE];
    Extend(Start, CreateParty(PLAN, "L"), one);
    var two := one.(parties := [PLAN, PLAN], rosters := map[0 := ALONE, 1 := ALONE]);
    PlanIsCreated(one);
    assert [PLAN] + [PLAN] == [PLAN, PLAN] && map[0 := ALONE][1 := ALONE] == map[0 := ALONE, 1 := ALONE];
    Extend(ONE_PARTY, CreateParty(PLAN, "L"), two);
    WindowIsOpened(two);
    Extend(TWO_PARTIES, EnsureWindow(0, 0, 2), two.(windows := [Window(0, 0, 2, 0, 1, None)]));
  }

  lemma SoundStart()
    ensures Sound(Start)
  {
  }

  lemma WindowIsOpened(db: Db)
    requires db.windows == []
    ensures Write(db, EnsureWindow(0, 0, 2)) == Ok(db.(windows := [Window(0, 0, 2, 0, 1, None)]))
  {
    var window := Window(0, 0, 2, 0, 1, None);
    assert db.windows + [window] == [window];
  }

  /** The request of party `p` as the service builds it from these rows. */
  function Asking(p: nat, window: Window, now: int): Action {
    RequestPermit(PermitRequest(p, PLAN, 0, window, ONE_KEY, 0, 0, 1, now, now + 10), ALONE, true)
  }

  const GRANTED := Then(OPENED, Asking(0, Window(0, 0, 2, 0, 1, None), 0))

  const HOLDER := PLAN.(state := PermitReserved, version := 2, window := Some(0), confirmedAt := Some(0))
  const ONE_SEAT_TAKEN := Window(0, 0, 2, 1, 2, None)

  lemma KeyIsNotBlank()
    ensures !Blank("k")
  {
    assert !IsSpace("k"[0]);
  }

  /** A request of a party that is ready, on rows as they are now. */
  lemma Requested(db: Db, p: nat, window: Window, now: int)
    requires db.windows == [window] && p < |db.parties| && db.parties[p] == PLAN && RosterOf(db, p) == ALONE
    requires p !in db.settlements && window.closedAt.None? && window.reserved < window.total
    ensures var after := Write(db, Asking(p, window, now));
            var taken := window.(reserved := window.reserved + 1, version := window.version + 1);
            var row := PLAN.(state := PermitReserved, version := 2, window := Some(0), confirmedAt := Some(now));
            after == if ONE_KEY in db.records then Err(Conflict) else
              Ok(db.(windows := [taken], parties := db.parties[p := row],
                     settlements := db.settlements[p := Settlement(1, 0, 0, Pending, "", "", None, 1)],
                     jobs := db.jobs + [NewJob(NotifyDispatch, p, 1, now)],
                     records := db.records[ONE_KEY := Record(p, 1, View(p, row, ALONE, taken), now + 10)]))
  {
    hide Blank;
    KeyIsNotBlank();
    var taken := window.(reserved := window.reserved + 1, version := window.version + 1);
    var row := PLAN.(state := PermitReserved, version := 2, window := Some(0), confirmedAt := Some(now));
    assert db.windows[0 := taken] == [taken];
    assert ReserveSeats(db.windows, 0, window.version, 1) == Ok([taken]);
    assert ApplyStateChange(db.parties, PartyChange(p, Draft, 1, PermitReserved, Some(0), Some(now), None, None))
        == Ok(db.parties[p := row]);
    assert Enqueue(db.jobs, NewJob(NotifyDispatch, p, 1, now)) == Ok(db.jobs + [NewJob(NotifyDispatch, p, 1, now)]);
  }

  lemma Askable(w: World, p: nat, window: Window, now: int)
    requires window.trail == 0 && window.day == 0 && window.closedAt.None? && window.reserved < window.total
    ensures Enabled(w, Asking(p, window, now))
  {
    assert |ALONE| == 1;
  }

  lemma GrantedState()
    ensures Sound(GRANTED)
    ensures Last(GRANTED) == World(Db([ONE_SEAT_TAKEN], [HOLDER, PLAN], map[0 := ALONE, 1 := ALONE], map[],
                                      map[0 := Settlement(1, 0, 0, Pending, "", "", None, 1)], [],
                                      [NewJob(NotifyDispatch, 0, 1, 0)],
                                      map[ONE_KEY := Record(0, 1, View(0, HOLDER, ALONE, ONE_SEAT_TAKEN),
                                                            10)]), map[], map[])
  {
    hide Write, Perform, Sound, Enabled;
    OpenedState();
    hide OPENED;
    var db, window := Last(OPENED).db, Window(0, 0, 2, 0, 1, None);
    Requested(db, 0, window, 0);
    Askable(Last(OPENED), 0, window, 0);
    assert [PLAN, PLAN][0 := HOLDER] == [HOLDER, PLAN] && [] + [NewJob(NotifyDispatch, 0, 1,
                                                                       0)] == [NewJob(NotifyDispatch, 0, 1, 0)];
    Extend(OPENED, Asking(0, window, 0), Write(db, Asking(0, window, 0)).value);
  }

  // ---------- a key whose record has expired ----------

  /** A reachable state in which a record under the key has expired, so that the lookup
      misses it, and a request that passes every check is still refused because of it.
      Once the record is purged the same request goes through. */
  lemma ExpiredKeysBlock()
    ensures var ask, purged := Asking(1, ONE_SEAT_TAKEN, 20), Then(GRANTED, Purge(20));
            && Sound(GRANTED) && Allowed(GRANTED, ask) && LookupKey(Last(GRANTED).db.records, ONE_KEY, 1, 1, 20) == Miss
            && Write(Last(GRANTED).db, ask) == Err(Conflict)
            && Sound(purged) && Allowed(purged, ask) && Write(Last(purged).db, ask).Ok?
  {
    hide Write, Perform, Sound, Enabled, Reads, Blank, OPENED;
    GrantedState();
    var w, ask := Last(GRANTED), Asking(1, ONE_SEAT_TAKEN, 20);
    hide GRANTED;
    Requested(w.db, 1, ONE_SEAT_TAKEN, 20);
    Askable(w, 1, ONE_SEAT_TAKEN, 20);
    AskingReads(w.db, 1, ONE_SEAT_TAKEN, 20);
    ReadsNow(GRANTED, ask);
    var purged := w.db.(records := map[]);
    ExpiredIsPurged(w.db);
    Extend(GRANTED, Purge(20), purged);
    Requested(purged, 1, ONE_SEAT_TAKEN, 20);
    Askable(w.(db := purged), 1, ONE_SEAT_TAKEN, 20);
    AskingReads(purged, 1, ONE_SEAT_TAKEN, 20);
    ReadsNow(Then(GRANTED, Purge(20)), ask);
  }

  lemma ReadsNow(run: Run, a: Action)
    requires Enabled(Last(run), a) && forall s :: s in Reads(a) ==> Holds(Last(run).db, s)
    ensures Allowed(run, a)
  {
    hide Enabled, Holds, Reads, Last;
    forall s | s in Reads(a) ensures Seen(run, s) {
      JustRead(run, s);
    }
  }

  lemma AskingReads(db: Db, p: nat, window: Window, now: int)
    requires db.windows == [window] && p < |db.parties| && db.parties[p] == PLAN && RosterOf(db, p) == ALONE
    ensures forall s :: s in Reads(Asking(p, window, now)) ==> Holds(db, s)
  {
  }

  lemma ExpiredIsPurged(db: Db)
    requires forall k :: k in db.records ==> db.records[k].expiresAt == 10
    ensures Write(db, Purge(20)) == Ok(db.(records := map[])) && Enabled(World(db, map[], map[]), Purge(20))
    ensures Reads(Purge(20)) == {}
  {
    assert DeleteExpired(db.records, 20) == map[];
  }

  // ---------- a critical incident and its abort ----------

  const APPROVED := HOLDER.(state := Confirmed, version := 3)
  const DEPARTED := APPROVED.(state := OnTrail, version := 4, dispatchedAt := Some(0))
  const FALL := Incident(0, "fall", Critical, 0, IncidentState.Open, 0, "", None, 1)

  const REPORTED := Then(Then(GRANTED, Advance(0, HOLDER, Confirmed, 0)), OpenIncident(APPROVED, FALL, 1, 0))
  const RELEASED := Then(REPORTED, Advance(0, APPROVED, OnTrail, 0))

  lemma Advanced(db: Db, row: Party, next: PartyState)
    requires |db.parties| > 0 && db.parties[0] == row && Advances(row.state, next)
    ensures var moved := row.(state := next, version := row.version + 1,
                              dispatchedAt := if next == OnTrail then Some(0) else row.dispatchedAt);
            Write(db, Advance(0, row, next, 0)) == Ok(db.(parties := db.parties[0 := moved]))
  {
  }

  lemma FallIsReported(db: Db)
    requires db.incidents == []
    ensures Write(db, OpenIncident(APPROVED, FALL, 1, 0)) ==
            Ok(db.(incidents := [FALL], jobs := db.jobs + [NewJob(EscalateIncident, 0, 1, 120)]))
  {
    assert db.incidents + [FALL] == [FALL];
  }

  lemma ReportedState()
    ensures Sound(REPORTED) && Last(REPORTED).workers == map[]
    ensures Last(REPORTED).db.parties == [APPROVED, PLAN] && Last(REPORTED).db.incidents == [FALL]
    ensures Last(REPORTED).db.jobs == [NewJob(NotifyDispatch, 0, 1, 0), NewJob(EscalateIncident, 0, 1, 120)]
  {
    hide Write, Perform, Sound, OPENED;
    GrantedState();
    hide GRANTED;
    var db := Last(GRANTED).db;
    Advanced(db, HOLDER, Confirmed);
    assert [HOLDER, PLAN][0 := APPROVED] == [APPROVED, PLAN];
    var approved := db.(parties := [APPROVED, PLAN]);
    Extend(GRANTED, Advance(0, HOLDER, Confirmed, 0), approved);
    FallIsReported(approved);
    Extend(REPORTED.past, OpenIncident(APPROVED, FALL, 1, 0),
           approved.(incidents := [FALL], jobs := db.jobs + [NewJob(EscalateIncident, 0, 1, 120)]));
  }

  lemma ReleasedState()
    ensures Sound(RELEASED) && Sound(REPORTED) && Holds(Last(REPORTED).db, PartyRow(0, APPROVED))
    ensures Last(RELEASED).db.parties == [DEPARTED, PLAN] && Last(RELEASED).db.incidents == [FALL]
  {
    hide Write, Perform, Sound;
    ReportedState();
    hide REPORTED;
    var db := Last(REPORTED).db;
    Advanced(db, APPROVED, OnTrail);
    assert [APPROVED, PLAN][0 := DEPARTED] == [DEPARTED, PLAN];
    Extend(REPORTED, Advance(0, APPROVED, OnTrail, 0), db.(parties := [DEPARTED, PLAN]));
  }

  /** A critical incident is stored, the party moves on before the abort commits, the
      abort is refused, and the party goes on beside its unresolved incident. */
  lemma CriticalIncidentBesideAMovingParty()
    ensures var abort := Stop(0, APPROVED, Aborted, "fall", 0); var after := Perform(Last(RELEASED), abort).db;
            && Sound(RELEASED) && Allowed(RELEASED, abort) && Write(Last(RELEASED).db, abort) == Err(VersionConflict)
            && |after.incidents| == 1
            && Unresolved(after.incidents[0].state) && ForcesPartyAbort(after.incidents[0].severity)
            && after.incidents[0].party == 0 && |after.parties| == 2 && after.parties[0].state == OnTrail
  {
    ReleasedState();
    hide RELEASED, REPORTED, Sound;
    var abort := Stop(0, APPROVED, Aborted, "fall", 0);
    assert Seen(RELEASED, PartyRow(0, APPROVED)) by {
      JustRead(REPORTED, PartyRow(0, APPROVED));
      SeenLater();
    }
    assert Reads(abort) == {PartyRow(0, APPROVED)};
  }

  lemma SeenLater()
    requires Seen(REPORTED, PartyRow(0, APPROVED))
    ensures Seen(RELEASED, PartyRow(0, APPROVED))
  {
    hide REPORTED, Last;
    SeenStays(REPORTED, Advance(0, APPROVED, OnTrail, 0));
  }

  // ---------- one escalation job, two hand-offs ----------

  const EARLY := Ticket(1, 1)
  const LATE := Ticket(1, 2)
  const ONCE := FALL.(state := Escalated, count := 1, version := 2)

  const TAKEN := Then(Then(REPORTED, Claim(1, "a", 121, 120)), ReadBack(EARLY))
  const PUT_BACK := Then(TAKEN, Reclaim(121))
  const RETAKEN := Then(Then(PUT_BACK, Claim(1, "b", 131, 121)), ReadBack(LATE))
  const TWO_HAND_OFFS := Then(Then(RETAKEN, Escalate(EARLY, 0, FALL, 1, 121, Finished)),
                              Escalate(LATE, 0, ONCE, 1, 121, Finished))

  /** A worker's step that is allowed on rows that are there now. */
  lemma Step(run: Run, a: Action)
    requires Sound(run) && !ByService(a) && Enabled(Last(run), a)
    requires forall s :: s in Reads(a) ==> Holds(Last(run).db, s)
    ensures Sound(Then(run, a)) && Last(Then(run, a)) == WorkerStep(Last(run), a)
  {
    hide WorkerStep, Enabled, Holds, Reads, Last, Sound;
    ReadsNow(run, a);
    UnfoldThen(run, a);
  }

  function EscalationJob(attempts: nat, worker: string, until: int): Job {
    Job(EscalateIncident, 0, Running, attempts, 1, 120, worker, Some(until))
  }

  lemma TakenState()
    ensures Sound(TAKEN) && Last(TAKEN).workers == map[EARLY := Working(1)] && Last(TAKEN).db.incidents == [FALL]
    ensures Last(TAKEN).db.jobs == [NewJob(NotifyDispatch, 0, 1, 0), EscalationJob(1, "a", 121)]
  {
    ReportedState();
    hide REPORTED, Sound, Last;
    Step(REPORTED, Claim(1, "a", 121, 120));
    Step(TAKEN.past, ReadBack(EARLY));
  }

  lemma PutBackState()
    ensures Sound(PUT_BACK) && Last(PUT_BACK).workers == map[EARLY := Working(1)]
    ensures Last(PUT_BACK).db.incidents == [FALL]
    ensures Last(PUT_BACK).db.jobs ==
            [NewJob(NotifyDispatch, 0, 1, 0), Job(EscalateIncident, 0, Queued, 1, 1, 120, "", None)]
  {
    TakenState();
    hide TAKEN, Sound, Last;
    Step(TAKEN, Reclaim(121));
  }

  lemma SecondLease(w: World)
    requires w.workers == map[EARLY := Working(1)]
    requires w.db.jobs == [NewJob(NotifyDispatch, 0, 1, 0), Job(EscalateIncident, 0, Queued, 1, 1, 120, "", None)]
    ensures WorkerStep(w, Claim(1, "b", 131, 121)) ==
            w.(db := w.db.(jobs := [NewJob(NotifyDispatch, 0, 1, 0), EscalationJob(2, "b", 131)]),
               workers := map[EARLY := Working(1), LATE := Leased])
  {
    var js := [NewJob(NotifyDispatch, 0, 1, 0), EscalationJob(2, "b", 131)];
    assert w.db.jobs[1 := EscalationJob(2, "b", 131)] == js;
    assert Lease(w.db.jobs, 1, "b", 131, 121) == Ok(js);
    assert w.workers[LATE := Leased] == map[EARLY := Working(1), LATE := Leased];
  }

  lemma SecondReading(w: World)
    requires w.workers == map[EARLY := Working(1), LATE := Leased]
    requires w.db.jobs == [NewJob(NotifyDispatch, 0, 1, 0), EscalationJob(2, "b", 131)]
    ensures WorkerStep(w, ReadBack(LATE)) == w.(workers := map[EARLY := Working(1), LATE := Working(2)])
  {
    assert w.workers[LATE := Working(2)] == map[EARLY := Working(1), LATE := Working(2)];
  }

  lemma RetakenState()
    ensures Sound(RETAKEN) && Last(RETAKEN).workers == map[EARLY := Working(1), LATE := Working(2)]
    ensures Last(RETAKEN).db.incidents == [FALL]
    ensures Last(RETAKEN).db.jobs == [NewJob(NotifyDispatch, 0, 1, 0), EscalationJob(2, "b", 131)]
  {
    hide WorkerStep, Perform, Write;
    PutBackState();
    hide PUT_BACK, Sound, Last;
    SecondLease(Last(PUT_BACK));
    Step(PUT_BACK, Claim(1, "b", 131, 121));
    SecondReading(Last(RETAKEN.past));
    Step(RETAKEN.past, ReadBack(LATE));
  }

  lemma HandsOffOnce(w: World, row: Incident)
    requires w.db.incidents == [row] && row.count + 1 < MaxEscalations(row.severity)
    ensures EscalateTx(w.db, 0, row, 1, 121) ==
            Ok(w.db.(incidents := [row.(state := Escalated, count := row.count + 1, resolvedAt := None,
                                        version := row.version + 1)],
                     jobs := w.db.jobs + [NewJob(EscalateIncident, 0, 1, 121 + EscalationDelay(row.severity))]))
  {
    var next := row.(state := Escalated, count := row.count + 1, resolvedAt := None, version := row.version + 1);
    assert w.db.incidents[0 := next] == [next];
  }

  /** The hand-off of a lease that is working, on the incident as it is. */
  lemma HandOffHappens(run: Run, t: Ticket, row: Incident)
    requires Sound(run) && Handles(Last(run), t, EscalateIncident, 0) && t.job == 1
    requires Last(run).db.incidents == [row] && DecideEscalate(row) == HandOff
    requires row.count + 1 < MaxEscalations(row.severity)
    ensures var later := Then(run, Escalate(t, 0, row, 1, 121, Finished));
            && Sound(later) && JobHandOffs(later, 1) == JobHandOffs(run, 1) + 1
            && Last(later).db.incidents == [row.(state := Escalated, count := row.count + 1, resolvedAt := None,
                                                 version := row.version + 1)]
            && Last(run).db.jobs <= Last(later).db.jobs
            && Last(later).workers == Last(run).workers[t := Returned(AttemptsOf(Last(run), t), Finished)]
  {
    hide Last, Sound, EscalateTx, AttemptsOf, TallyOf;
    HandsOffOnce(Last(run), row);
    Step(run, Escalate(t, 0, row, 1, 121, Finished));
  }

  /** A lease expires while its handler is working, another worker leases the job, and
      both hand off at the same instant: the count rises by two, with none of the delay
      that escalations of one job after another wait for. */
  lemma OneJobHandsOffTwice()
    ensures Sound(TWO_HAND_OFFS) && JobHandOffs(TWO_HAND_OFFS, 1) == 2
    ensures |Last(RETAKEN).db.incidents| == 1 && Last(RETAKEN).db.incidents[0].count == 0
    ensures |Last(TWO_HAND_OFFS).db.incidents| == 1 && Last(TWO_HAND_OFFS).db.incidents[0].count == 2
  {
    RetakenState();
    NoHandOffYet();
    hide RETAKEN, Sound, Last, JobHandOffs, Perform, Write, WorkerStep;
    HandOffHappens(RETAKEN, EARLY, FALL);
    assert Last(TWO_HAND_OFFS.past).db.jobs[1] == Last(RETAKEN).db.jobs[1];
    HandOffHappens(TWO_HAND_OFFS.past, LATE, ONCE);
  }

  lemma NoHandOffYet()
    ensures JobHandOffs(RETAKEN, 1) == 0
  {
    ReportedState();
    hide REPORTED;
    HandOffsNeedLeases(REPORTED, 1);
    NotAHandOff(REPORTED, Claim(1, "a", 121, 120));
    NotAHandOff(TAKEN.past, ReadBack(EARLY));
    NotAHandOff(TAKEN, Reclaim(121));
    NotAHandOff(PUT_BACK, Claim(1, "b", 131, 121));
    NotAHandOff(RETAKEN.past, ReadBack(LATE));
  }

  lemma NotAHandOff(run: Run, a: Action)
    requires !a.Escalate?
    ensures JobHandOffs(Then(run, a), 1) == JobHandOffs(run, 1)
  {
  }
}
