/** Leases, late reports, retries and parking keep the queue's books: what each
    job's history adds up to and what a finished job has achieved. */
module QueuePreservation {
  import opened Errors
  import opened Domain
  import opened Tables
  import opened Repositories
  import opened Transactions
  import opened Backoff
  import opened Runs
  import opened Invariants
  import opened Preservation

  // ---------- facts that later writes cannot undo ----------

  lemma AchievedStays(w: World, w': World, j: nat)
    requires Later(w.db, w'.db) && j < |w.db.jobs| && Achieved(w, j)
    requires TallyOf(w, j).credited ==> TallyOf(w', j).credited
    ensures Achieved(w', j)
  {
  }

  lemma PhaseStays(w: World, w': World, t: Ticket)
    requires Later(w.db, w'.db) && t in w.workers && PhaseFits(w, t)
    requires t in w'.workers && w'.workers[t] == w.workers[t]
    requires t.claim !in TallyOf(w', t.job).retried
    requires TallyOf(w, t.job).credited ==> TallyOf(w', t.job).credited
    ensures PhaseFits(w', t)
  {
  }

  /** Nobody's credit changed, and new jobs start without any. */
  lemma CreditsStay(w: World, w': World)
    requires DbOk(w.db) && CreditsOk(w) && TalliesOk(w) && Later(w.db, w'.db)
    requires forall j :: TallyOf(w', j).credited == TallyOf(w, j).credited
    ensures CreditsOk(w')
  {
    forall i | 0 <= i < |w'.db.incidents| ensures |Credited(w', i)| <= w'.db.incidents[i].count {
      forall j | j in Credited(w', i) ensures j in Credited(w, i) {
        assert TallyOf(w, j).credited && j < |w.db.jobs|;
        assert JobLater(w.db.jobs[j], w'.db.jobs[j]);
        assert RefOk(w.db.jobs[j], |w.db.parties|, |w.db.incidents|);
      }
      if i < |w.db.incidents| {
        assert IncidentLater(w.db.incidents[i], w'.db.incidents[i]);
        SmallerSubset(Credited(w', i), Credited(w, i));
      } else {
        NothingCreditedYet(w, i);
        SmallerSubset(Credited(w', i), Credited(w, i));
      }
    }
  }

  lemma NothingCreditedYet(w: World, i: nat)
    requires DbOk(w.db) && i >= |w.db.incidents|
    ensures Credited(w, i) == {}
  {
  }

  lemma SmallerSubset<T>(a: set<T>, b: set<T>)
    requires a <= b
    ensures |a| <= |b|
  {
    assert b == a + (b - a);
    assert |b| == |a| + |b - a|;
  }

  // ---------- writes of services: at most new jobs ----------

  predicate FreshJob(job: Job) {
    job.state == Queued && job.attempts == 0 && job.lockedUntil.None?
  }

  lemma ServiceWriteKeepsQueue(w: World, db: Db)
    requires DbOk(w.db) && QueueOk(w) && Later(w.db, db) && w.db.jobs <= db.jobs
    requires forall j :: |w.db.jobs| <= j < |db.jobs| ==> FreshJob(db.jobs[j])
    ensures QueueOk(w.(db := db))
  {
    hide DbOk, Later, CreditsOk;
    var w' := w.(db := db);
    CreditsStay(w, w');
    forall j | 0 <= j < |db.jobs| && db.jobs[j].state == Done ensures Achieved(w', j) {
      AchievedStays(w, w', j);
    }
    forall t | t in w'.workers ensures PhaseFits(w', t) {
      PhaseStays(w, w', t);
    }
  }

  // ---------- leases ----------

  /** `w` becomes `w'` by a write to one job and by one lease that changes its
      phase or ends. */
  ghost predicate JobStep(w: World, w': World, t: Ticket) {
    && Later(w.db, w'.db)
    && t.job < |w.db.jobs| == |w'.db.jobs|
    && (forall j :: 0 <= j < |w.db.jobs| && j != t.job ==> w'.db.jobs[j] == w.db.jobs[j] && TallyOf(w',
                                                                                                    j) == TallyOf(w, j))
    && (forall j :: j in w'.tallies ==> j in w.tallies || j == t.job)
    && TallyOf(w', t.job).credited == TallyOf(w, t.job).credited
    && TallyOf(w', t.job).retried <= TallyOf(w, t.job).retried + {t.claim}
    && (forall u :: u in w'.workers && u != t ==> u in w.workers && w'.workers[u] == w.workers[u])
  }

  lemma JobStepKeepsPhases(w: World, w': World, t: Ticket)
    requires PhasesOk(w) && JobStep(w, w', t)
    requires t in w'.workers ==> PhaseFits(w', t)
    ensures PhasesOk(w')
  {
    hide Later;
    forall u | u in w'.workers ensures PhaseFits(w', u) {
      if u != t {
        PhaseStays(w, w', u);
      }
    }
  }

  lemma JobStepKeepsDone(w: World, w': World, t: Ticket)
    requires DoneOk(w) && JobStep(w, w', t)
    requires w'.db.jobs[t.job].state == Done ==> w.db.jobs[t.job].state == Done || Achieved(w', t.job)
    ensures DoneOk(w')
  {
    hide Later;
    forall j | 0 <= j < |w'.db.jobs| && w'.db.jobs[j].state == Done ensures Achieved(w', j) {
      if j != t.job || w.db.jobs[j].state == Done {
        AchievedStays(w, w', j);
      }
    }
  }

  lemma JobStepKeepsTallies(w: World, w': World, t: Ticket)
    requires TalliesOk(w) && JobStep(w, w', t)
    requires TallyFits(w'.db.jobs[t.job], TallyOf(w', t.job))
    ensures TalliesOk(w')
  {
    hide Later;
  }

  lemma JobStepKeepsQueue(w: World, w': World, t: Ticket)
    requires DbOk(w.db) && QueueOk(w) && JobStep(w, w', t)
    requires TallyFits(w'.db.jobs[t.job], TallyOf(w', t.job))
    requires t in w'.workers ==> PhaseFits(w', t)
    requires w'.db.jobs[t.job].state == Done ==> w.db.jobs[t.job].state == Done || Achieved(w', t.job)
    ensures QueueOk(w')
  {
    hide DbOk, DoneOk, PhasesOk, CreditsOk;
    JobStepKeepsTallies(w, w', t);
    JobStepKeepsDone(w, w', t);
    JobStepKeepsPhases(w, w', t);
    forall j ensures TallyOf(w', j).credited == TallyOf(w, j).credited {
    }
    CreditsStay(w, w');
  }

  /** What the invariant says about one lease and its job. */
  lemma TicketFacts(w: World, t: Ticket)
    requires Inv(w) && InPhase(w, t)
    ensures PhaseFits(w, t) && TallyFits(w.db.jobs[t.job], TallyOf(w, t.job))
  {
    hide DbOk, DoneOk, CreditsOk;
  }

  /** Winning a lease counts one attempt and opens one lease, and keeps the books. */
  lemma ClaimKeeps(w: World, j: nat, worker: string, until: int, now: int)
    requires Inv(w) && Lease(w.db.jobs, j, worker, until, now).Ok?
    ensures var w' := Claimed(w, j, worker, until, now); Inv(w') && Later(w.db, w'.db)
  {
    hide DbOk, DoneOk, PhasesOk, CreditsOk, Later;
    var w' := Claimed(w, j, worker, until, now);
    ChangedJobsKeep(w.db, w'.db.jobs);
    JobStepKeepsQueue(w, w', Ticket(j, w'.db.jobs[j].attempts));
  }

  lemma ReadBackKeeps(w: World, t: Ticket)
    requires Inv(w) && InPhase(w, t) && w.workers[t].Leased?
    ensures var w' := w.(workers := w.workers[t := Working(w.db.jobs[t.job].attempts)]); Inv(w') && Later(w.db, w'.db)
  {
    hide DbOk, TalliesOk, PhasesOk, CreditsOk, DoneOk, Later;
    var w' := w.(workers := w.workers[t := Working(w.db.jobs[t.job].attempts)]);
    LaterReflexive(w.db);
    TicketFacts(w, t);
    JobStepKeepsQueue(w, w', t);
  }

  lemma DroppedKeeps(w: World, t: Ticket)
    requires Inv(w) && t.job < |w.db.jobs|
    ensures Inv(w.(workers := Drop(w.workers, t)))
  {
    hide DbOk, DoneOk, CreditsOk, PhasesOk, Later;
    LaterReflexive(w.db);
    JobStepKeepsQueue(w, w.(workers := Drop(w.workers, t)), t);
  }

  lemma ReclaimKeepsTallies(w: World, now: int)
    requires TalliesOk(w)
    ensures TalliesOk(LeasesExpired(w, now))
  {
  }

  lemma ReclaimKeeps(w: World, now: int)
    requires Inv(w)
    ensures var w' := LeasesExpired(w, now); Inv(w') && Later(w.db, w'.db)
  {
    hide DbOk, CreditsOk, Later;
    var w' := LeasesExpired(w, now);
    forall j | 0 <= j < |w.db.jobs| ensures JobLater(w.db.jobs[j], w'.db.jobs[j]) {
      assert w'.db.jobs[j] == Reclaimed(w.db.jobs[j], now);
    }
    ChangedJobsKeep(w.db, w'.db.jobs);
    ReclaimKeepsTallies(w, now);
    forall j ensures TallyOf(w', j).credited == TallyOf(w, j).credited && TallyOf(w', j).retried == TallyOf(w,
                                                                                                            j).retried {
    }
    CreditsStay(w, w');
    forall j | 0 <= j < |w'.db.jobs| && w'.db.jobs[j].state == Done ensures Achieved(w', j) {
      AchievedStays(w, w', j);
    }
    forall t | t in w'.workers ensures PhaseFits(w', t) {
      PhaseStays(w, w', t);
    }
  }

  // ---------- handlers ----------

  /** A handler that found nothing to do was right: the rows it read are final,
      or the chain it belongs to has ended. */
  lemma NothingToDoIsAchieved(w: World, t: Ticket, ref: nat, basis: Basis)
    requires t.job < |w.db.jobs| && w.db.jobs[t.job].ref == ref
    requires NothingToDo(w.db.jobs[t.job].kind, basis)
    requires forall s :: s in Reads(ReturnFrom(t, ref, basis, Finished)) ==> Stale(w.db, s)
    ensures Achieved(w, t.job)
  {
    match basis
    case NoBasis =>
    case FeeBasis(party, settlement) => assert SettlementRow(ref,
                                                             settlement) in Reads(ReturnFrom(t, ref, basis, Finished));
    case IncidentBasis(incident) => assert IncidentRow(ref, incident) in Reads(ReturnFrom(t, ref, basis, Finished));
  }

  lemma ReturnKeeps(w: World, t: Ticket, ref: nat, basis: Basis, outcome: Outcome)
    requires Inv(w) && InPhase(w, t) && Handles(w, t, w.db.jobs[t.job].kind, ref)
    requires outcome.Finished? ==> NothingToDo(w.db.jobs[t.job].kind, basis)
    requires forall s :: s in Reads(ReturnFrom(t, ref, basis, outcome)) ==> Stale(w.db, s)
    ensures Inv(w.(workers := w.workers[t := Returned(AttemptsOf(w, t), outcome)]))
  {
    hide DbOk, TalliesOk, PhasesOk, CreditsOk, DoneOk, Later;
    var w' := w.(workers := w.workers[t := Returned(AttemptsOf(w, t), outcome)]);
    LaterReflexive(w.db);
    TicketFacts(w, t);
    if outcome.Finished? {
      NothingToDoIsAchieved(w, t, ref, basis);
      AchievedStays(w, w', t.job);
    }
    JobStepKeepsQueue(w, w', t);
  }

  /** A handler's transaction that was refused: only the phase changes. */
  lemma RefusedKeeps(w: World, t: Ticket, code: Code)
    requires Inv(w) && InPhase(w, t) && w.workers[t].Working?
    ensures Inv(w.(workers := w.workers[t := Returned(AttemptsOf(w, t), Failure(code, false))]))
  {
    hide DbOk, TalliesOk, PhasesOk, CreditsOk, DoneOk, Later;
    LaterReflexive(w.db);
    TicketFacts(w, t);
    JobStepKeepsQueue(w, w.(workers := w.workers[t := Returned(AttemptsOf(w, t), Failure(code, false))]), t);
  }

  lemma ChargeKeeps(w: World, t: Ticket, p: nat, party: Party, s: Settlement, reference: string, now: int,
                    outcome: Outcome)
    requires Inv(w) && Handles(w, t, SettleParty, p) && DecideSettle(Some(party), Some(s)) == Charge
    requires Stale(w.db, PartyRow(p, party)) && Stale(w.db, SettlementRow(p, s))
    ensures var w' := Charged(w, t, p, s, reference, now, outcome); Inv(w') && Later(w.db, w'.db)
  {
    hide DbOk, TalliesOk, PhasesOk, CreditsOk, DoneOk, Later;
    var c := SettlementChange(s.version, Settled, reference, "", Some(now));
    var r := SettlementTx(w.db, p, c);
    if r.Ok? {
      var w' := Charged(w, t, p, s, reference, now, outcome);
      ChangedFeeKeeps(w.db, p, s, c);
      TicketFacts(w, t);
      JobStepKeepsQueue(w, w', t);
    } else {
      LaterReflexive(w.db);
      RefusedKeeps(w, t, r.code);
    }
  }

  lemma CreditedOnce(w: World, w': World, t: Ticket, i: nat)
    requires DbOk(w.db) && TalliesOk(w) && CreditsOk(w) && Later(w.db, w'.db)
    requires t.job < |w.db.jobs| && w.db.jobs[t.job].kind == EscalateIncident && w.db.jobs[t.job].ref == i
    requires i < |w.db.incidents| == |w'.db.incidents| && w'.db.incidents[i].count == w.db.incidents[i].count + 1
    requires forall j :: j != t.job ==> TallyOf(w', j).credited == TallyOf(w, j).credited
    ensures CreditsOk(w')
  {
    hide DbOk;
    forall k | 0 <= k < |w'.db.incidents| ensures |Credited(w', k)| <= w'.db.incidents[k].count {
      var allowed := if k == i then Credited(w, k) + {t.job} else Credited(w, k);
      forall j | j in Credited(w', k) ensures j in allowed {
        if j != t.job {
          assert TallyOf(w, j).credited && j < |w.db.jobs|;
        }
        assert JobLater(w.db.jobs[j], w'.db.jobs[j]);
      }
      SmallerSubset(Credited(w', k), allowed);
      assert IncidentLater(w.db.incidents[k], w'.db.incidents[k]);
    }
  }

  /** `w'` is `w` after a committed hand-off by lease `t`. */
  ghost predicate HandOffStep(w: World, w': World, t: Ticket, i: nat, outcome: Outcome) {
    && Handles(w, t, EscalateIncident, i) && Later(w.db, w'.db)
    && i < |w.db.incidents| == |w'.db.incidents| && w'.db.incidents[i].count == w.db.incidents[i].count + 1
    && w.db.jobs <= w'.db.jobs && (forall j :: |w.db.jobs| <= j < |w'.db.jobs| ==> FreshJob(w'.db.jobs[j]))
    && w'.tallies == w.tallies[t.job := TallyOf(w, t.job).(credited := true)]
    && w'.workers == w.workers[t := Returned(AttemptsOf(w, t), outcome)]
  }

  lemma HandOffKeepsPhases(w: World, w': World, t: Ticket, i: nat, outcome: Outcome)
    requires PhasesOk(w) && HandOffStep(w, w', t, i, outcome)
    ensures PhasesOk(w')
  {
    hide Later;
    assert PhaseFits(w, t);
    forall u | u in w'.workers ensures PhaseFits(w', u) {
      if u != t {
        PhaseStays(w, w', u);
      }
    }
  }

  lemma HandOffKeepsDone(w: World, w': World, t: Ticket, i: nat, outcome: Outcome)
    requires DoneOk(w) && HandOffStep(w, w', t, i, outcome)
    ensures DoneOk(w')
  {
    hide Later;
    forall j | 0 <= j < |w'.db.jobs| && w'.db.jobs[j].state == Done ensures Achieved(w', j) {
      AchievedStays(w, w', j);
    }
  }

  lemma HandOffKeepsQueue(w: World, w': World, t: Ticket, i: nat, outcome: Outcome)
    requires DbOk(w.db) && QueueOk(w) && HandOffStep(w, w', t, i, outcome)
    ensures QueueOk(w')
  {
    hide DbOk, Later, CreditsOk, PhasesOk, DoneOk;
    CreditedOnce(w, w', t, i);
    HandOffKeepsPhases(w, w', t, i, outcome);
    HandOffKeepsDone(w, w', t, i, outcome);
  }

  lemma EscalationKeeps(w: World, t: Ticket, i: nat, incident: Incident, maxAttempts: int, now: int, outcome: Outcome)
    requires Inv(w) && Handles(w, t, EscalateIncident, i) && DecideEscalate(incident) == HandOff
    requires Stale(w.db, IncidentRow(i, incident))
    ensures var w' := HandedOff(w, t, i, incident, maxAttempts, now, outcome); Inv(w') && Later(w.db, w'.db)
  {
    hide DbOk, QueueOk, Later;
    var r := EscalateTx(w.db, i, incident, maxAttempts, now);
    if r.Ok? {
      EscalateKeeps(w.db, i, incident, maxAttempts, now);
      HandOffKeepsQueue(w, HandedOff(w, t, i, incident, maxAttempts, now, outcome), t, i, outcome);
    } else {
      LaterReflexive(w.db);
      RefusedKeeps(w, t, r.code);
    }
  }

  // ---------- reports ----------

  lemma ReportDoneKeeps(w: World, t: Ticket)
    requires Inv(w) && InPhase(w, t) && w.workers[t].Returned? && w.workers[t].outcome.Finished?
    ensures var w' := ReportedDone(w, t); Inv(w') && Later(w.db, w'.db)
  {
    hide DbOk, TalliesOk, PhasesOk, CreditsOk, DoneOk, Later;
    var w' := ReportedDone(w, t);
    var r := MarkDone(w.db.jobs, t.job);
    if r.Ok? {
      TicketFacts(w, t);
      ChangedJobsKeep(w.db, r.value);
      AchievedStays(w, w', t.job);
      JobStepKeepsQueue(w, w', t);
    } else {
      LaterReflexive(w.db);
      DroppedKeeps(w, t);
    }
  }

  lemma JobParkedKeeps(w: World, t: Ticket, nanos: int)
    requires Inv(w) && InPhase(w, t) && w.workers[t].Returned? && w.db.jobs[t.job].state == Running
    ensures var w' := JobParked(w, t, nanos); Inv(w') && Later(w.db, w'.db)
  {
    hide DbOk, TalliesOk, PhasesOk, CreditsOk, DoneOk, Later;
    var w' := JobParked(w, t, nanos);
    TicketFacts(w, t);
    ChangedJobsKeep(w.db, w'.db.jobs);
    JobStepKeepsQueue(w, w', t);
  }

  /** A lease puts its job back at most once, and only while its number is below
      the limit: what it read back can only be larger. */
  lemma RetriedKeeps(w: World, t: Ticket, nanos: int)
    requires Inv(w) && InPhase(w, t) && w.workers[t].Returned? && w.db.jobs[t.job].state == Running
    requires w.workers[t].attempts < w.db.jobs[t.job].maxAttempts
    ensures var w' := Retried(w, t, nanos); Inv(w') && Later(w.db, w'.db)
  {
    hide DbOk, TalliesOk, PhasesOk, CreditsOk, DoneOk, Later;
    var w' := Retried(w, t, nanos);
    TicketFacts(w, t);
    ChangedJobsKeep(w.db, w'.db.jobs);
    JobStepKeepsQueue(w, w', t);
  }

  lemma ReportFailureKeeps(w: World, t: Ticket, base: int, cap: int, nanos: int)
    requires Inv(w) && InPhase(w, t) && w.workers[t].Returned? && w.workers[t].outcome.Failure?
    ensures var w' := ReportedFailure(w, t, base, cap, nanos); Inv(w') && Later(w.db, w'.db)
  {
    hide Inv, Later;
    if w.db.jobs[t.job].state != Running {
      LaterReflexive(w.db);
      DroppedKeeps(w, t);
    } else if Permanent(w.workers[t].attempts, w.db.jobs[t.job].maxAttempts, w.workers[t].outcome) {
      JobParkedKeeps(w, t, nanos);
    } else {
      RetriedKeeps(w, t, nanos + Delay(w.workers[t].attempts, base, cap));
    }
  }

  lemma ParkKeeps(w: World, t: Ticket, p: nat, s: Settlement, note: string)
    requires Inv(w) && InPhase(w, t) && w.workers[t].Hooked? && w.db.jobs[t.job].ref == p && s.state == Pending
    requires Stale(w.db, SettlementRow(p, s))
    ensures var w' := FeeParked(w, t, p, s, note); Inv(w') && Later(w.db, w'.db)
  {
    hide DbOk, TalliesOk, PhasesOk, CreditsOk, DoneOk, Later;
    var c := SettlementChange(s.version, Parked, "", note, None);
    var r := SettlementTx(w.db, p, c);
    if r.Ok? {
      TicketFacts(w, t);
      SettleJobMeansCompleted(w.db, t.job);
      ChangedFeeKeeps(w.db, p, s, c);
      JobStepKeepsQueue(w, FeeParked(w, t, p, s, note), t);
    } else {
      LaterReflexive(w.db);
      DroppedKeeps(w, t);
    }
  }
}
