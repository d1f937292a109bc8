/** Every reachable state satisfies every invariant, and every row a client ever
    read is an earlier version of the row that is there now. */
module Safety {
  import opened Errors
  import opened Domain
  import opened Tables
  import opened Repositories
  import opened Transactions
  import opened Runs
  import opened Invariants
  import opened Preservation
  import opened QueuePreservation

  ghost predicate AllStale(db: Db, a: Action) {
    forall s :: s in Reads(a) ==> Stale(db, s)
  }

  predicate MovesParty(a: Action) {
    a.RequestPermit? || a.Advance? || a.Complete? || a.Stop?
  }

  lemma MovedPartyWriteKeeps(w: World, a: Action)
    requires DbOk(w.db) && MovesParty(a) && Enabled(w, a) && AllStale(w.db, a) && Write(w.db, a).Ok?
    ensures DbOk(Write(w.db, a).value) && Later(w.db, Write(w.db, a).value)
  {
    hide DbOk, Later;
    match a
    case RequestPermit(r, roster, inTime) =>
      assert PartyRow(r.p, r.party) in Reads(a) && RosterRead(r.p, roster) in Reads(a);
      assert WindowRow(r.w, r.window) in Reads(a);
      PermitKeeps(w.db, r, roster);
    case Advance(p, party, next, now) =>
      assert PartyRow(p, party) in Reads(a);
      AdvanceKeeps(w.db, p, party, next, now);
    case Complete(p, party, mandatory, reported, maxAttempts, now) =>
      assert PartyRow(p, party) in Reads(a);
      CompleteKeeps(w.db, p, party, maxAttempts, now);
    case Stop(p, party, next, note, now) =>
      assert PartyRow(p, party) in Reads(a);
      StopKeeps(w.db, p, party, next, note, now);
  }

  lemma WriteKeeps(w: World, a: Action)
    requires DbOk(w.db) && ByService(a) && Enabled(w, a) && AllStale(w.db, a) && Write(w.db, a).Ok?
    ensures DbOk(Write(w.db, a).value) && Later(w.db, Write(w.db, a).value)
  {
    hide DbOk, Later;
    if MovesParty(a) {
      MovedPartyWriteKeeps(w, a);
      return;
    }
    match a
    case CreateParty(row, leaderRef) => CreatedPartyKeeps(w.db, row, leaderRef);
    case RegisterMember(p, party, member, waiver) =>
      assert PartyRow(p, party) in Reads(a);
      RegisteredMemberKeeps(w.db, p, party, member, waiver);
    case EnsureWindow(trail, day, quota) => OpenedWindowKeeps(w.db, trail, day, quota);
    case CloseWindow(id, now) => ClosedWindowKeeps(w.db, id, now);
    case Report(p, party, checkpoint, progress) => ReportKeeps(w.db, p, checkpoint, progress);
    case Waive(p, s, note) =>
      assert SettlementRow(p, s) in Reads(a);
      FeeMayBeWaived(w.db, p);
      ChangedFeeKeeps(w.db, p, s, SettlementChange(s.version, Waived, "", note, None));
    case OpenIncident(party, incident, maxAttempts, now) => OpenedIncidentKeeps(w.db, incident, maxAttempts, now);
    case Resolve(i, incident, text, now) =>
      assert IncidentRow(i, incident) in Reads(a);
      SettledIncidentKeeps(w.db, i, incident, IncidentChange(incident.version, Resolved, incident.count, text,
                                                             Some(now)));
    case Archive(i, incident) =>
      assert IncidentRow(i, incident) in Reads(a);
      SettledIncidentKeeps(w.db, i, incident,
        IncidentChange(incident.version, Closed, incident.count, incident.resolution, incident.resolvedAt));
    case Schedule(maxAttempts, now) => ScheduledJobKeeps(w.db, NewJob(Recurring, 0, maxAttempts, now));
    case Purge(now) => PurgeKeeps(w.db, now);
  }

  /** Services only append fresh jobs. */
  lemma WriteQueuesFreshJobs(db: Db, a: Action)
    requires ByService(a) && Write(db, a).Ok?
    ensures var db' := Write(db, a).value;
            db.jobs <= db'.jobs && forall j :: |db.jobs| <= j < |db'.jobs| ==> FreshJob(db'.jobs[j])
  {
  }

  lemma ServiceStepKeeps(w: World, a: Action)
    requires Inv(w) && ByService(a) && Enabled(w, a) && AllStale(w.db, a)
    ensures Inv(Perform(w, a)) && Later(w.db, Perform(w, a).db)
  {
    hide DbOk, QueueOk, Later, Enabled, Write, ByService;
    if Write(w.db, a).Ok? {
      WriteKeeps(w, a);
      WriteQueuesFreshJobs(w.db, a);
      ServiceWriteKeepsQueue(w, Write(w.db, a).value);
    } else {
      LaterReflexive(w.db);
    }
  }

  lemma WorkerStepKeeps(w: World, a: Action)
    requires Inv(w) && !ByService(a) && Enabled(w, a) && AllStale(w.db, a)
    ensures Inv(Perform(w, a)) && Later(w.db, Perform(w, a).db)
  {
    hide Inv, Later;
    match a
    case Claim(j, worker, until, now) =>
      if Lease(w.db.jobs, j, worker, until, now).Ok? {
        ClaimKeeps(w, j, worker, until, now);
      } else {
        LaterReflexive(w.db);
      }
    case ReadBack(t) => ReadBackKeeps(w, t);
    case Reclaim(now) => ReclaimKeeps(w, now);
    case ChargeFee(t, p, party, s, reference, now, outcome) =>
      assert PartyRow(p, party) in Reads(a) && SettlementRow(p, s) in Reads(a);
      ChargeKeeps(w, t, p, party, s, reference, now, outcome);
    case Escalate(t, i, incident, maxAttempts, now, outcome) =>
      assert IncidentRow(i, incident) in Reads(a);
      EscalationKeeps(w, t, i, incident, maxAttempts, now, outcome);
    case ReturnFrom(t, ref, basis, outcome) =>
      LaterReflexive(w.db);
      ReturnKeeps(w, t, ref, basis, outcome);
    case ReportDone(t) => ReportDoneKeeps(w, t);
    case ReportFailure(t, base, cap, nanos) => ReportFailureKeeps(w, t, base, cap, nanos);
    case ParkFee(t, p, s, note) =>
      assert SettlementRow(p, s) in Reads(a);
      ParkKeeps(w, t, p, s, note);
  }

  lemma StepKeeps(w: World, a: Action)
    requires Inv(w) && Enabled(w, a) && AllStale(w.db, a)
    ensures Inv(Perform(w, a)) && Later(w.db, Perform(w, a).db)
  {
    hide Inv, Later, Enabled, Perform;
    if ByService(a) {
      ServiceStepKeeps(w, a);
    } else {
      WorkerStepKeeps(w, a);
    }
  }

  lemma GenesisOk()
    ensures Inv(GENESIS)
  {
  }

  ghost predicate NeverUndone(run: Run) {
    forall db :: Saw(run, db) ==> Later(db, Last(run).db)
  }

  lemma ReadsAreStale(run: Run, a: Action)
    requires Allowed(run, a) && NeverUndone(run)
    ensures AllStale(Last(run).db, a)
  {
    hide Later, Holds, Stale, Enabled, Reads;
    forall s | s in Reads(a) ensures Stale(Last(run).db, s) {
      assert Seen(run, s);
      var db :| Saw(run, db) && Holds(db, s);
      HoldsThenStale(db, Last(run).db, s);
    }
  }

  /** The safety theorem: for any number of clients and workers, any interleaving
      and any staleness of what they read. */
  lemma {:induction false} ReachableStatesAreSafe(run: Run)
    requires Sound(run)
    ensures Inv(Last(run)) && NeverUndone(run)
  {
    hide Inv, Later, Enabled, Perform;
    match run
    case Start =>
      GenesisOk();
      LaterReflexive(EMPTY);
    case Then(past, act) =>
      ReachableStatesAreSafe(past);
      ReadsAreStale(past, act);
      StepKeeps(Last(past), act);
      var now := Last(run).db;
      LaterReflexive(now);
      forall db | Saw(past, db) ensures Later(db, now) {
        LaterTransitive(db, Last(past).db, now);
      }
  }
}
