/** Exactly-once effects over jobs that may run any number of times, and what a
    job's history adds up to. */
module ExactlyOnce {
  import opened Errors
  import opened Domain
  import opened Tables
  import opened Repositories
  import opened Transactions
  import opened Backoff
  import opened Runs
  import opened Invariants
  import opened Preservation
  import opened QueuePreservation
  import opened Safety
  import opened Theorems

  // ---------- settlements ----------

  predicate IsSettled(db: Db, p: nat) {
    p in db.settlements && db.settlements[p].state == Settled
  }

  function FeeOf(db: Db, p: nat): Option<Settlement> {
    if p in db.settlements then Some(db.settlements[p]) else None
  }

  /** How often a party's fee was written as settled. */
  function Chargings(run: Run, p: nat): nat {
    match run
    case Start => 0
    case Then(past, act) =>
      Chargings(past, p)
      + (if IsSettled(Last(run).db, p) && FeeOf(Last(run).db, p) != FeeOf(Last(past).db, p) then 1 else 0)
  }

  /** However often its job runs, and whatever a late failure hook does, a fee is
      charged at most once, and only for a party that completed its trip. */
  lemma {:induction false} ChargedAtMostOnce(run: Run, p: nat)
    requires Sound(run)
    ensures Chargings(run, p) == (if IsSettled(Last(run).db, p) then 1 else 0)
    ensures IsSettled(Last(run).db, p) ==>
              p < |Last(run).db.parties| && Last(run).db.parties[p].state == Completed
  {
    hide Perform, Enabled, QueueOk;
    ReachableStatesAreSafe(run);
    if run.Then? {
      ChargedAtMostOnce(run.past, p);
      assert Saw(run, Last(run.past).db);
      assert p in Last(run.past).db.settlements ==>
        SettlementLater(Last(run.past).db.settlements[p], Last(run).db.settlements[p]);
    }
  }

  /** A fee's amount never changes, and a settled or waived one never changes at
      all: neither its reference nor its state. */
  lemma FeesAreFinal(run: Run, earlier: Db, p: nat)
    requires Sound(run) && Saw(run, earlier) && p in earlier.settlements
    ensures var was, db := earlier.settlements[p], Last(run).db;
            && p in db.settlements
            && db.settlements[p].seats == was.seats && db.settlements[p].unitFee == was.unitFee
            && db.settlements[p].total == was.total
            && (was.state in {Settled, Waived} ==> db.settlements[p] == was)
  {
    hide Inv;
    ReachableStatesAreSafe(run);
    assert SettlementLater(earlier.settlements[p], Last(run).db.settlements[p]);
  }

  /** A settlement job that is done has left its fee settled or waived. */
  lemma DoneSettleJobsAreFinal(run: Run, j: nat)
    requires Sound(run) && j < |Last(run).db.jobs|
    requires Last(run).db.jobs[j].kind == SettleParty && Last(run).db.jobs[j].state == Done
    ensures var db := Last(run).db; var p := db.jobs[j].ref;
            p in db.settlements && db.settlements[p].state in {Settled, Waived}
  {
    hide DbOk, NeverUndone, Later;
    ReachableStatesAreSafe(run);
    assert Achieved(Last(run), j);
  }

  // ---------- job histories ----------

  lemma {:induction false} FewNumbersBelow(s: set<nat>, n: nat)
    requires forall c :: c in s ==> 1 <= c < n
    requires n >= 1
    ensures |s| <= n - 1
  {
    if n == 1 {
      assert s == {};
    } else {
      var rest := s - {n - 1};
      FewNumbersBelow(rest, n - 1);
      assert s <= rest + {n - 1};
      SmallerSubset(s, rest + {n - 1});
    }
  }

  /** Every lease is paid for: by the first run, by a retry or by a lease that
      expired. Retries stay below the limit although stale workers may report
      late, so only expired leases can take a job beyond its limit. */
  lemma JobAccounting(run: Run, j: nat)
    requires Sound(run) && j < |Last(run).db.jobs|
    ensures var job, t := Last(run).db.jobs[j], TallyOf(Last(run), j);
            && job.attempts + (if job.state == Queued then 1 else 0) == 1 + |t.retried| + t.reclaims
            && |t.retried| <= job.maxAttempts - 1
            && job.attempts <= job.maxAttempts + t.reclaims
            && (job.attempts > job.maxAttempts <==>
                  t.reclaims >= job.maxAttempts - |t.retried| + (if job.state == Queued then 1 else 0))
  {
    hide NeverUndone, Later, DoneOk, CreditsOk, PhasesOk;
    var w := Last(run);
    ReachableStatesAreSafe(run);
    assert RefOk(w.db.jobs[j], |w.db.parties|, |w.db.incidents|);
    assert TallyFits(w.db.jobs[j], TallyOf(w, j));
    FewNumbersBelow(TallyOf(w, j).retried, w.db.jobs[j].maxAttempts);
  }

  /** No lease number is issued twice: the lease a worker wins is new, and larger
      than that of every worker still holding one. */
  lemma LeasesAreNew(run: Run, j: nat, worker: string, until: int, now: int)
    requires Sound(run) && Lease(Last(run).db.jobs, j, worker, until, now).Ok?
    ensures var t := Ticket(j, Claimed(Last(run), j, worker, until, now).db.jobs[j].attempts);
            && t !in Last(run).workers
            && t.claim !in TallyOf(Last(run), j).retried
            && forall u :: u in Last(run).workers && u.job == j ==> u.claim < t.claim
  {
    hide NeverUndone, Later, DoneOk, CreditsOk, DbOk;
    ReachableStatesAreSafe(run);
    forall u | u in Last(run).workers && u.job == j ensures u.claim <= Last(run).db.jobs[j].attempts {
      assert PhaseFits(Last(run), u);
    }
    assert TallyFits(Last(run).db.jobs[j], TallyOf(Last(run), j));
  }

  /** Done and parked jobs are left alone for ever, by stale workers too. */
  lemma FinishedJobsStay(run: Run, earlier: Db, j: nat)
    requires Sound(run) && Saw(run, earlier) && j < |earlier.jobs|
    requires earlier.jobs[j].state == Done || earlier.jobs[j].state == Failed
    ensures j < |Last(run).db.jobs| && Last(run).db.jobs[j] == earlier.jobs[j]
  {
    hide Inv;
    ReachableStatesAreSafe(run);
    assert JobLater(earlier.jobs[j], Last(run).db.jobs[j]);
  }

  /** No job is lost to a crash: one that is neither done nor parked waits in the
      queue, or goes back to it once its lease has expired. */
  lemma CrashedJobsComeBack(run: Run, j: nat, now: int)
    requires Sound(run) && j < |Last(run).db.jobs|
    requires Last(run).db.jobs[j].state == Queued || Last(run).db.jobs[j].state == Running
    requires Last(run).db.jobs[j].lockedUntil.Some? ==> Last(run).db.jobs[j].lockedUntil.value <= now
    ensures LeasesExpired(Last(run), now).db.jobs[j].state == Queued
    ensures LeasesExpired(Last(run), now).db.jobs[j].attempts == Last(run).db.jobs[j].attempts
  {
    hide NeverUndone, Later, DoneOk, CreditsOk, PhasesOk, DbOk;
    ReachableStatesAreSafe(run);
    assert TallyFits(Last(run).db.jobs[j], TallyOf(Last(run), j));
    assert LeasesExpired(Last(run), now).db.jobs[j] == Reclaimed(Last(run).db.jobs[j], now);
  }

  /** Nothing but a report on the job or a reclaim at or after the end of its lease changes
      a running job, and such a reclaim always does. */
  lemma LeasesEndOnlyWhenOver(run: Run, a: Action, j: nat)
    requires Sound(run) && Allowed(run, a) && j < |Last(run).db.jobs| && Last(run).db.jobs[j].state == Running
    ensures var job, js := Last(run).db.jobs[j], Perform(Last(run), a).db.jobs;
            && j < |js| && job.lockedUntil.Some?
            && (js[j] != job ==>
                  || (a.Reclaim? && job.lockedUntil.value <= a.now)
                  || ((a.ReportDone? || a.ReportFailure?) && a.t.job == j))
            && (a.Reclaim? ==> (js[j] != job <==> job.lockedUntil.value <= a.now))
  {
    hide Later, Write, WorkerStep, Allowed, Sound, Last, DbOk, PhasesOk, DoneOk, CreditsOk;
    var w := Last(run);
    ReachableStatesAreSafe(run);
    assert TallyFits(w.db.jobs[j], TallyOf(w, j));
    if ByService(a) {
      if Write(w.db, a).Ok? {
        WriteQueuesFreshJobs(w.db, a);
      }
    } else {
      WorkersKeepRunningJobs(w, a, j);
    }
  }

  lemma WorkersKeepRunningJobs(w: World, a: Action, j: nat)
    requires !ByService(a) && j < |w.db.jobs| && w.db.jobs[j].state == Running && w.db.jobs[j].lockedUntil.Some?
    ensures var job, js := w.db.jobs[j], WorkerStep(w, a).db.jobs;
            && j < |js|
            && (js[j] != job ==>
                  || (a.Reclaim? && job.lockedUntil.value <= a.now)
                  || ((a.ReportDone? || a.ReportFailure?) && a.t.job == j))
            && (a.Reclaim? ==> (js[j] != job <==> job.lockedUntil.value <= a.now))
  {
    hide SettlementTx, EscalateTx, ReportedDone, ReportedFailure, Commit, Drop, TallyOf, AttemptsOf;
    match a
    case ChargeFee(_, p, _, s, reference, now, _) =>
      FeesKeepJobs(w.db, p, SettlementChange(s.version, Settled, reference, "", Some(now)));
    case ParkFee(_, p, s, note) => FeesKeepJobs(w.db, p, SettlementChange(s.version, Parked, "", note, None));
    case Escalate(_, i, incident, maxAttempts, now, _) => HandOffsAppendJobs(w.db, i, incident, maxAttempts, now);
    case ReportDone(t) => DoneEndsRunning(w, t);
    case ReportFailure(t, base, cap, nanos) => FailureEndsRunning(w, t, base, cap, nanos);
    case _ =>
  }

  /** Between the two nobody reported on the job or reclaimed leases at `until` or later. */
  predicate LeftAlone(later: Run, run: Run, j: nat, until: int) {
    later == run
    || (later.Then? && LeftAlone(later.past, run, j, until)
        && (later.act.Reclaim? ==> later.act.now < until)
        && (later.act.ReportDone? || later.act.ReportFailure? ==> later.act.t.job != j))
  }

  /** A lease that is still valid whenever leases are reclaimed survives every such round,
      whatever else happens: the job stays with its worker until somebody reports. */
  lemma {:induction false} ValidLeasesSurvive(later: Run, run: Run, j: nat)
    requires Sound(later) && j < |Last(run).db.jobs| && Last(run).db.jobs[j].state == Running
    requires Last(run).db.jobs[j].lockedUntil.Some?
    requires LeftAlone(later, run, j, Last(run).db.jobs[j].lockedUntil.value)
    ensures j < |Last(later).db.jobs| && Last(later).db.jobs[j] == Last(run).db.jobs[j]
    decreases later
  {
    hide Perform, Allowed;
    if later != run {
      ValidLeasesSurvive(later.past, run, j);
      LeasesEndOnlyWhenOver(later.past, later.act, j);
    }
  }

  /** The report of `t` puts its job back for a retry. */
  predicate GrantsRetry(w: World, t: Ticket) {
    && InPhase(w, t) && w.workers[t].Returned? && w.workers[t].outcome.Failure?
    && w.db.jobs[t.job].state == Running
    && !w.workers[t].outcome.canceled
    && w.workers[t].outcome.code !in {NotFound, InvalidArgument, PermissionDenied, StateInvalid}
    && w.workers[t].attempts < w.db.jobs[t.job].maxAttempts
  }

  /** When the retry granted to `t` at `nanos` may start. */
  function RetryAt(w: World, t: Ticket, base: int, cap: int, nanos: int): int {
    nanos + Delay(AttemptsOf(w, t), base, cap)
  }

  lemma RetriedJob(w: World, t: Ticket, base: int, cap: int, nanos: int)
    requires GrantsRetry(w, t)
    ensures var js := Perform(w, Action.ReportFailure(t, base, cap, nanos)).db.jobs;
            && t.job < |w.db.jobs| == |js|
            && js[t.job].state == Queued && js[t.job].attempts == w.db.jobs[t.job].attempts
            && js[t.job].runAt == Unix(RetryAt(w, t, base, cap, nanos))
  {
  }

  lemma UnixMonotone(a: int, b: int)
    ensures Unix(a) >= Unix(b) ==> a + SECOND > b
    ensures a >= b ==> Unix(a) >= Unix(b)
    ensures b % SECOND == 0 && Unix(a) >= Unix(b) ==> a >= b
  {
  }

  /** A retry waits for exactly the capped exponential delay of the attempt its
      worker read. In every continuation of the run the job stays as the retry left
      it until it is leased again, and until the stored second of the end of the
      delay no lease goes through: never a full second early, and not early at all
      when the delay ends on a whole second. */
  lemma RetriesWait(mid: Run, t: Ticket, base: int, cap: int, nanos: int, later: Run, worker: string, until: int,
                    clock: int)
    requires GrantsRetry(Last(mid), t)
    requires Sound(later) && Continues(later, Then(mid, Action.ReportFailure(t, base, cap, nanos)))
    ensures t.job < |Last(later).db.jobs|
    ensures Last(later).db.jobs[t.job].attempts >= Last(mid).db.jobs[t.job].attempts
    ensures var over := RetryAt(Last(mid), t, base, cap, nanos);
            var leased := Lease(Last(later).db.jobs, t.job, worker, until, Unix(clock)).Ok?;
            Last(later).db.jobs[t.job].attempts == Last(mid).db.jobs[t.job].attempts ==>
              && Last(later).db.jobs[t.job].state == Queued && Last(later).db.jobs[t.job].runAt == Unix(over)
              && (leased <==> Unix(clock) >= Unix(over))
              && (leased ==> clock + SECOND > over)
              && (over % SECOND == 0 ==> (leased <==> clock >= over))
  {
    hide Inv, Perform, Permanent, Delay, Unix, Sound;
    var retry := Then(mid, Action.ReportFailure(t, base, cap, nanos));
    RetriedJob(Last(mid), t, base, cap, nanos);
    SawEarlier(later, retry);
    ReachableStatesAreSafe(later);
    assert JobLater(Last(retry).db.jobs[t.job], Last(later).db.jobs[t.job]);
    UnixMonotone(clock, RetryAt(Last(mid), t, base, cap, nanos));
  }

  lemma {:induction false} SawEarlier(later: Run, run: Run)
    requires Continues(later, run)
    ensures Saw(later, Last(run).db)
    decreases later
  {
    if later != run {
      SawEarlier(later.past, run);
    }
  }

  lemma FeesKeepJobs(db: Db, p: nat, c: SettlementChange)
    ensures Commit(db, SettlementTx(db, p, c)).jobs == db.jobs
  {
  }

  lemma HandOffsAppendJobs(db: Db, i: nat, incident: Incident, maxAttempts: int, now: int)
    ensures var js := Commit(db, EscalateTx(db, i, incident, maxAttempts, now)).jobs;
            db.jobs <= js && forall j :: |db.jobs| <= j < |js| ==> FreshJob(js[j])
  {
  }

  /** The row keeps its attempts, and if it is running afterwards nothing changed. */
  predicate NotLeased(was: seq<Job>, js: seq<Job>, j: nat) {
    j < |js| && if j >= |was| then FreshJob(js[j])
                else js[j].attempts == was[j].attempts && (js[j].state == Running ==> js[j] == was[j])
  }

  /** What a report does to the queue: nothing, or the end of one running job. */
  predicate EndsRunning(was: seq<Job>, js: seq<Job>, j: nat) {
    js == was
    || (j < |was| == |js| && was[j].state == Running && js == was[j := js[j]]
        && js[j].state != Running && js[j].attempts == was[j].attempts)
  }

  predicate IsRunning(js: seq<Job>, j: nat) {
    j < |js| && js[j].state == Running
  }

  lemma MarksEndRunning(db: Db, j: nat, permanent: bool, runAt: int)
    ensures var js := Commit(db, JobsTx(db, MarkDone(db.jobs, j))).jobs;
            EndsRunning(db.jobs, js, j) && (IsRunning(db.jobs, j) ==> js != db.jobs)
    ensures var js := Commit(db, JobsTx(db, MarkFailure(db.jobs, j, permanent, runAt))).jobs;
            EndsRunning(db.jobs, js, j) && (IsRunning(db.jobs, j) ==> js != db.jobs)
  {
  }

  lemma DoneEndsRunning(w: World, t: Ticket)
    ensures var js := ReportedDone(w, t).db.jobs;
            EndsRunning(w.db.jobs, js, t.job) && (IsRunning(w.db.jobs, t.job) ==> js != w.db.jobs)
  {
    hide MarkDone, JobsTx, Commit, Drop, EndsRunning;
    MarksEndRunning(w.db, t.job, false, 0);
  }

  lemma FailureEndsRunning(w: World, t: Ticket, base: int, cap: int, nanos: int)
    ensures var js := ReportedFailure(w, t, base, cap, nanos).db.jobs;
            && EndsRunning(w.db.jobs, js, t.job)
            && (InPhase(w, t) && w.workers[t].Returned? && IsRunning(w.db.jobs, t.job) ==> js != w.db.jobs)
  {
    hide MarkFailure, JobsTx, Commit, Permanent, Delay, Unix, Drop, TallyOf;
    MarksEndRunning(w.db, t.job, true, Unix(nanos));
    if t in w.workers && w.workers[t].Returned? {
      MarksEndRunning(w.db, t.job, false, Unix(nanos + Delay(w.workers[t].attempts, base, cap)));
    }
  }

  predicate LeasesJob(w: World, a: Action, j: nat) {
    a.Claim? && a.j == j && Lease(w.db.jobs, j, a.worker, a.until, a.now).Ok?
  }

  lemma OtherWorkersLeaseNothing(w: World, a: Action, j: nat)
    requires !ByService(a) && j < |WorkerStep(w, a).db.jobs| && !LeasesJob(w, a, j)
    ensures NotLeased(w.db.jobs, WorkerStep(w, a).db.jobs, j)
  {
    hide SettlementTx, EscalateTx, ReportedDone, ReportedFailure, Commit, Drop, TallyOf, AttemptsOf;
    match a
    case ChargeFee(_, p, _, s, reference, now, _) =>
      FeesKeepJobs(w.db, p, SettlementChange(s.version, Settled, reference, "", Some(now)));
    case ParkFee(_, p, s, note) => FeesKeepJobs(w.db, p, SettlementChange(s.version, Parked, "", note, None));
    case Escalate(_, i, incident, maxAttempts, now, _) => HandOffsAppendJobs(w.db, i, incident, maxAttempts, now);
    case ReportDone(t) => DoneEndsRunning(w, t);
    case ReportFailure(t, base, cap, nanos) => FailureEndsRunning(w, t, base, cap, nanos);
    case _ =>
  }

  /** Only a lease that goes through counts an attempt or sets a job running. */
  lemma OnlyLeasesCount(w: World, a: Action, j: nat)
    requires j < |Perform(w, a).db.jobs| && !LeasesJob(w, a, j)
    ensures NotLeased(w.db.jobs, Perform(w, a).db.jobs, j)
  {
    hide Write, WorkerStep, LeasesJob;
    if !ByService(a) {
      OtherWorkersLeaseNothing(w, a, j);
    } else if Write(w.db, a).Ok? {
      WriteQueuesFreshJobs(w.db, a);
    }
  }

  /** The run `later` has leased job `j` after `run`, and the first such lease was not
      before the stored second `due`. */
  ghost predicate LeasedOnce(later: Run, run: Run, j: nat, due: int) {
    exists at: Run, worker: string, until: int, now: int ::
      && Continues(later, Then(at, Action.Claim(j, worker, until, now))) && Continues(at, run)
      && j < |Last(at).db.jobs| && j < |Last(run).db.jobs|
      && Last(at).db.jobs[j].attempts == Last(run).db.jobs[j].attempts
      && Lease(Last(at).db.jobs, j, worker, until, now).Ok?
      && now >= due
  }

  /** In every run in which a retried job has been leased again, by any worker, the
      first of these leases waited for the delay. */
  lemma {:induction false} NextLeaseWaited(mid: Run, t: Ticket, base: int, cap: int, nanos: int, later: Run)
    requires GrantsRetry(Last(mid), t)
    requires Sound(later) && Continues(later, Then(mid, Action.ReportFailure(t, base, cap, nanos)))
    requires t.job < |Last(later).db.jobs| && Last(later).db.jobs[t.job].attempts > Last(mid).db.jobs[t.job].attempts
    ensures LeasedOnce(later, Then(mid, Action.ReportFailure(t, base, cap, nanos)), t.job,
                       Unix(RetryAt(Last(mid), t, base, cap, nanos)))
    decreases later
  {
    hide Inv, Perform, Delay, Unix, Later, GrantsRetry, RetryAt, Allowed;
    var retry := Then(mid, Action.ReportFailure(t, base, cap, nanos));
    RetriedJob(Last(mid), t, base, cap, nanos);
    var before := later.past;
    RetriesWait(mid, t, base, cap, nanos, before, "", 0, 0);
    if Last(before).db.jobs[t.job].attempts > Last(mid).db.jobs[t.job].attempts {
      NextLeaseWaited(mid, t, base, cap, nanos, before);
      LeasedOnceStays(before, later.act, retry, t.job, Unix(RetryAt(Last(mid), t, base, cap, nanos)));
    } else {
      if !LeasesJob(Last(before), later.act, t.job) {
        OnlyLeasesCount(Last(before), later.act, t.job);
      }
    }
  }

  lemma LeasedOnceStays(later: Run, a: Action, run: Run, j: nat, due: int)
    requires LeasedOnce(later, run, j, due)
    ensures LeasedOnce(Then(later, a), run, j, due)
  {
    hide Last, Lease;
    var at, worker, until, now :|
      && Continues(later, Then(at, Action.Claim(j, worker, until, now))) && Continues(at, run)
      && j < |Last(at).db.jobs| && j < |Last(run).db.jobs|
      && Last(at).db.jobs[j].attempts == Last(run).db.jobs[j].attempts
      && Lease(Last(at).db.jobs, j, worker, until, now).Ok?
      && now >= due;
    assert Continues(Then(later, a), Then(at, Action.Claim(j, worker, until, now)));
  }

  // ---------- whose outcome is recorded ----------

  /** The worker that won a lease. */
  function WinnerOf(run: Run, t: Ticket): Option<string> {
    match run
    case Start => None
    case Then(past, act) =>
      if LeasesJob(Last(past), act, t.job) && Last(past).db.jobs[t.job].attempts + 1 == t.claim then Some(act.worker)
      else WinnerOf(past, t)
  }

  /** The lease a running job is under is its latest one, and the row names its winner. */
  lemma {:induction false} RunningJobsNameTheirHolder(run: Run, j: nat)
    requires Sound(run) && j < |Last(run).db.jobs| && Last(run).db.jobs[j].state == Running
    ensures WinnerOf(run, Ticket(j, Last(run).db.jobs[j].attempts)) == Some(Last(run).db.jobs[j].lockedBy)
  {
    hide Allowed, Perform, WorkerStep;
    var w := Last(run.past);
    if LeasesJob(w, run.act, j) {
      LeasedRow(w, run.act);
    } else {
      OnlyLeasesCount(w, run.act, j);
      RunningJobsNameTheirHolder(run.past, j);
    }
  }

  lemma LeasedRow(w: World, a: Action)
    requires a.Claim? && LeasesJob(w, a, a.j)
    ensures var js := Perform(w, a).db.jobs;
            a.j < |w.db.jobs| == |js| && js[a.j].attempts == w.db.jobs[a.j].attempts + 1 && js[a.j].lockedBy == a.worker
  {
  }

  /** How many leases of a job went through. */
  function Leases(run: Run, j: nat): nat {
    match run
    case Start => 0
    case Then(past, act) => Leases(past, j) + (if LeasesJob(Last(past), act, j) then 1 else 0)
  }

  /** In every run a job's attempts are exactly the leases of it that went through. */
  lemma {:induction false} AttemptsAreLeases(run: Run, j: nat)
    requires Sound(run)
    ensures Leases(run, j) == if j < |Last(run).db.jobs| then Last(run).db.jobs[j].attempts else 0
  {
    hide Allowed, Perform, Later, Inv, LeasesJob;
    if run.Then? {
      AttemptsAreLeases(run.past, j);
      ReachableStatesAreSafe(run);
      JobsStay(run.past, run.act);
      if LeasesJob(Last(run.past), run.act, j) {
        assert run.act.Claim? && run.act.j == j by { LeaseIsClaim(Last(run.past), run.act, j); }
        LeasedRow(Last(run.past), run.act);
      } else if j < |Last(run).db.jobs| {
        OnlyLeasesCount(Last(run.past), run.act, j);
      }
    }
  }

  lemma LeaseIsClaim(w: World, a: Action, j: nat)
    requires LeasesJob(w, a, j)
    ensures a.Claim? && a.j == j
  {
  }

  lemma JobsStay(run: Run, a: Action)
    requires Sound(Then(run, a))
    ensures |Last(run).db.jobs| <= |Last(Then(run, a)).db.jobs|
  {
    hide Inv, Perform, Allowed;
    ReachableStatesAreSafe(Then(run, a));
    assert Saw(Then(run, a), Last(run).db);
  }

  /** A lease takes a job beyond its limit exactly if the row leased had used it up, and
      that takes an expired lease. */
  lemma LeasesBeyondTheLimit(run: Run, a: Action)
    requires Sound(run) && a.Claim? && LeasesJob(Last(run), a, a.j)
    ensures var was, js := Last(run).db.jobs[a.j], Perform(Last(run), a).db.jobs;
            && |js| == |Last(run).db.jobs| && js[a.j].maxAttempts == was.maxAttempts
            && js[a.j].attempts == Leases(run, a.j) + 1
            && (js[a.j].attempts > was.maxAttempts <==> was.attempts >= was.maxAttempts)
            && (js[a.j].attempts > was.maxAttempts ==> TallyOf(Last(run), a.j).reclaims > 0)
  {
    hide Sound, Last, Leases, TallyOf;
    AttemptsAreLeases(run, a.j);
    JobAccounting(run, a.j);
  }

  /** Whether a report goes through does not depend on who holds the lease. It is
      recorded for a job that is by then under another lease exactly if the job is
      running and its attempts have passed the reporting lease's number; the lease it
      ends is the latest one, of the worker the row names. */
  lemma LateReports(run: Run, t: Ticket, base: int, cap: int, nanos: int)
    requires Sound(run) && InPhase(Last(run), t) && Last(run).workers[t].Returned?
    ensures var w, job := Last(run), Last(run).db.jobs[t.job]; var holder := Ticket(t.job, job.attempts);
            var report := if w.workers[t].outcome.Finished? then Action.ReportDone(t)
                          else Action.ReportFailure(t, base, cap, nanos);
            var js := Perform(w, report).db.jobs;
            && |js| == |w.db.jobs| && (js[t.job] != job <==> job.state == Running)
            && (js[t.job] != job && holder != t <==> job.state == Running && t.claim < job.attempts)
            && (js[t.job] != job ==> js[t.job].state != Running && WinnerOf(run, holder) == Some(job.lockedBy))
  {
    hide Inv, NeverUndone, Sound, Last, WinnerOf, ReportedDone, ReportedFailure, Write;
    LeaseNumbersAreCounted(run, t);
    DoneEndsRunning(Last(run), t);
    FailureEndsRunning(Last(run), t, base, cap, nanos);
    if Last(run).db.jobs[t.job].state == Running {
      RunningJobsNameTheirHolder(run, t.job);
    }
  }

  lemma LeaseNumbersAreCounted(run: Run, t: Ticket)
    requires Sound(run) && t in Last(run).workers
    ensures t.job < |Last(run).db.jobs| && 1 <= t.claim <= Last(run).db.jobs[t.job].attempts
  {
    hide DbOk, TalliesOk, DoneOk, CreditsOk, Last, Sound, Later;
    ReachableStatesAreSafe(run);
    assert PhaseFits(Last(run), t);
  }

  // ---------- escalation chains ----------

  /** Under repeated and concurrent execution an incident is escalated at most up
      to its cap, each count has queued exactly one further job below the cap,
      and an unresolved incident is open exactly while nothing was escalated. */
  lemma EscalationsAreCounted(run: Run, i: nat)
    requires Sound(run) && i < |Last(run).db.incidents|
    ensures var db := Last(run).db; var row := db.incidents[i];
            var cap := match row.severity case Minor => 1 case Major => 3 case Critical => 4;
            && row.count <= cap
            && |JobsFor(db.jobs, EscalateIncident, i)| == (if row.count < cap then row.count + 1 else cap)
            && (row.state == Open ==> row.count == 0) && (row.state == Escalated ==> row.count > 0)
  {
    hide NeverUndone, QueueOk, DbOk, Last, Sound;
    ReachableStatesAreSafe(run);
    IncidentFacts(Last(run).db, i);
  }

  // ---------- one job, several hand-offs ----------

  /** A hand-off committed under a lease. */
  predicate HandsOff(w: World, a: Action, t: Ticket) {
    a.Escalate? && a.t == t && EscalateTx(w.db, a.i, a.incident, a.maxAttempts, a.now).Ok?
  }

  function HandOffs(run: Run, t: Ticket): nat {
    match run
    case Start => 0
    case Then(past, act) => HandOffs(past, t) + (if HandsOff(Last(past), act, t) then 1 else 0)
  }

  function JobHandOffs(run: Run, j: nat): nat {
    match run
    case Start => 0
    case Then(past, act) =>
      JobHandOffs(past, j) + (if act.Escalate? && act.t.job == j && HandsOff(Last(past), act, act.t) then 1 else 0)
  }

  /** The lease is past its handler, and its number will not be issued again. */
  predicate Spent(w: World, t: Ticket) {
    && t.job < |w.db.jobs| && 1 <= t.claim <= w.db.jobs[t.job].attempts
    && (t in w.workers ==> w.workers[t].Returned? || w.workers[t].Hooked?)
  }

  lemma SpentStays(w: World, a: Action, t: Ticket)
    requires Enabled(w, a) && Spent(w, t)
    requires t.job < |Perform(w, a).db.jobs| && w.db.jobs[t.job].attempts <= Perform(w, a).db.jobs[t.job].attempts
    ensures Spent(Perform(w, a), t)
  {
    hide Write, Commit, SettlementTx, EscalateTx, JobsTx, MarkDone, MarkFailure, ReclaimExpired;
  }

  lemma HandOffSpends(run: Run, a: Action)
    requires Sound(run) && a.Escalate? && Allowed(run, a) && HandsOff(Last(run), a, a.t)
    ensures !Spent(Last(run), a.t) && Spent(Perform(Last(run), a), a.t)
  {
    hide Sound, Last, Inv, Seen, EscalateTx;
    LeaseNumbersAreCounted(run, a.t);
    HandOffsAppendJobs(Last(run).db, a.i, a.incident, a.maxAttempts, a.now);
  }

  /** A lease commits at most one hand-off. */
  lemma {:induction false} OneHandOffPerLease(run: Run, t: Ticket)
    requires Sound(run)
    ensures HandOffs(run, t) <= 1
    ensures HandOffs(run, t) == 1 ==> Spent(Last(run), t)
  {
    hide Perform, Enabled, Spent, HandsOff, Inv, Later, Reads, Seen;
    if run.Then? {
      var w, a := Last(run.past), run.act;
      OneHandOffPerLease(run.past, t);
      if HandsOff(w, a, t) {
        assert a.Escalate? && a.t == t by { HandOffIsEscalate(w, a, t); }
        HandOffSpends(run.past, a);
      } else if Spent(w, t) {
        SpentInRange(w, t);
        assert Saw(run, w.db);
        ReachableStatesAreSafe(run);
        JobIsLater(w.db, Last(run).db, t.job);
        SpentStays(w, a, t);
      }
    }
  }

  lemma HandOffIsEscalate(w: World, a: Action, t: Ticket)
    requires HandsOff(w, a, t)
    ensures a.Escalate? && a.t == t
  {
  }

  lemma SpentInRange(w: World, t: Ticket)
    requires Spent(w, t)
    ensures t.job < |w.db.jobs| && 1 <= t.claim <= w.db.jobs[t.job].attempts
  {
  }

  lemma JobIsLater(a: Db, b: Db, j: nat)
    requires Later(a, b) && j < |a.jobs|
    ensures j < |b.jobs| && a.jobs[j].attempts <= b.jobs[j].attempts
  {
  }

  /** The numbers of the leases of a job that committed a hand-off. */
  function HandingClaims(run: Run, j: nat): set<nat> {
    match run
    case Start => {}
    case Then(past, act) =>
      HandingClaims(past, j)
      + (if act.Escalate? && act.t.job == j && HandsOff(Last(past), act, act.t) then {act.t.claim} else {})
  }

  lemma {:induction false} HandingClaimsCount(run: Run, j: nat)
    requires Sound(run)
    ensures |HandingClaims(run, j)| == JobHandOffs(run, j)
    ensures forall c :: c in HandingClaims(run, j) ==> HandOffs(run, Ticket(j, c)) == 1
  {
    hide Perform, Allowed, HandsOff, Inv, Later;
    if run.Then? {
      HandingClaimsCount(run.past, j);
      forall c | c in HandingClaims(run, j) ensures HandOffs(run, Ticket(j, c)) == 1 {
        OneHandOffPerLease(run, Ticket(j, c));
      }
      if run.act.Escalate? && run.act.t.job == j && HandsOff(Last(run.past), run.act, run.act.t) {
        OneHandOffPerLease(run, run.act.t);
        assert run.act.t == Ticket(j, run.act.t.claim);
      }
    }
  }

  /** A job hands off at most once per lease of it: more than once only if it was leased
      more than once, after a retry or an expired lease. */
  lemma HandOffsNeedLeases(run: Run, j: nat)
    requires Sound(run) && j < |Last(run).db.jobs|
    ensures JobHandOffs(run, j) <= Last(run).db.jobs[j].attempts
    ensures JobHandOffs(run, j) > 1 ==>
              |TallyOf(Last(run), j).retried| + TallyOf(Last(run), j).reclaims > 0
  {
    hide Sound, Last, TallyOf, JobHandOffs, HandOffs, HandingClaims;
    HandingClaimsCount(run, j);
    forall c | c in HandingClaims(run, j) ensures 1 <= c < Last(run).db.jobs[j].attempts + 1 {
      OneHandOffPerLease(run, Ticket(j, c));
      SpentInRange(Last(run), Ticket(j, c));
    }
    FewNumbersBelow(HandingClaims(run, j), Last(run).db.jobs[j].attempts + 1);
    JobAccounting(run, j);
  }

  /** A hand-off commits exactly if the incident is still the row read and the next job
      can be queued. Whether its job has handed off before makes no difference: every
      lease that is working may commit one, on a fresh row, with no delay in between. */
  lemma HandOffsCommitExactly(run: Run, a: Action)
    requires Sound(run) && a.Escalate? && Allowed(run, a)
    ensures var db := Last(run).db; var r := EscalateTx(db, a.i, a.incident, a.maxAttempts, a.now);
            var cap := match a.incident.severity case Minor => 1 case Major => 3 case Critical => 4;
            var last := a.incident.count + 1 >= cap;
            && a.i < |db.incidents|
            && (r.Ok? <==> db.incidents[a.i] == a.incident && (last || a.maxAttempts > 0))
            && (r.Err? ==> r.code == if db.incidents[a.i] != a.incident then VersionConflict else InvalidArgument)
            && (r.Ok? ==> r.value.incidents[a.i].count == db.incidents[a.i].count + 1)
  {
    hide Inv, NeverUndone, Later, Last, Sound, Enabled;
    ReachableStatesAreSafe(run);
    ReadsAreStale(run, a);
    assert IncidentRow(a.i, a.incident) in Reads(a);
  }

  lemma IncidentFacts(db: Db, i: nat)
    requires DbOk(db) && i < |db.incidents|
    ensures IncidentOk(i, db.incidents[i], db.jobs)
  {
    hide WindowsOk, PartiesOk, RostersOk, FeesOk, PartyJobsOk, RefsOk, UniqueTopics, RecordsOk;
  }

  /** A job that will still run, now, later or after its lease has expired. */
  predicate Alive(job: Job) {
    job.state == Queued || job.state == Running
  }

  /** No chain is lost by crashes, repetitions or late reports: an incident that may
      still be escalated has a job that is queued or running, unless one of the
      chain's jobs was parked, because every done job of such a chain paid for one of
      its escalations. */
  lemma NoChainIsLost(run: Run, i: nat)
    requires Sound(run) && i < |Last(run).db.incidents|
    requires Last(run).db.incidents[i].state in {Open, Escalated}
    requires Last(run).db.incidents[i].count
             < (match Last(run).db.incidents[i].severity case Minor => 1 case Major => 3 case Critical => 4)
    ensures var js := Last(run).db.jobs; var chain := JobsFor(js, EscalateIncident, i);
            && (exists j :: j in chain && js[j].state != Done)
            && ((forall j :: j in chain ==> js[j].state != Failed) ==> exists j :: j in chain && Alive(js[j]))
  {
    hide NeverUndone, DbOk, TalliesOk, PhasesOk, DoneOk, CreditsOk, Last, Sound;
    ReachableStatesAreSafe(run);
    EscalationsAreCounted(run, i);
    SomeJobIsNotDone(Last(run), i);
    var js := Last(run).db.jobs;
    var j :| j in JobsFor(js, EscalateIncident, i) && js[j].state != Done;
    assert js[j].state != Failed ==> Alive(js[j]);
  }

  lemma SomeJobIsNotDone(w: World, i: nat)
    requires DoneOk(w) && CreditsOk(w) && i < |w.db.incidents| && DecideEscalate(w.db.incidents[i]) == HandOff
    requires |JobsFor(w.db.jobs, EscalateIncident, i)| == w.db.incidents[i].count + 1
    ensures exists j :: j in JobsFor(w.db.jobs, EscalateIncident, i) && w.db.jobs[j].state != Done
  {
    var jobs := JobsFor(w.db.jobs, EscalateIncident, i);
    if forall j :: j in jobs ==> w.db.jobs[j].state == Done {
      forall j | j in jobs ensures j in Credited(w, i) {
        assert Achieved(w, j);
      }
      SmallerSubset(jobs, Credited(w, i));
      assert false;
    }
  }

  /** At most one unresolved incident per party, kind and checkpoint. */
  lemma OneUnresolvedIncidentPerTopic(run: Run, i: nat, j: nat)
    requires Sound(run) && i < |Last(run).db.incidents| && j < |Last(run).db.incidents|
    requires Last(run).db.incidents[i].state in {Open, Escalated}
    requires Last(run).db.incidents[j].state in {Open, Escalated}
    requires var a, b := Last(run).db.incidents[i], Last(run).db.incidents[j];
             a.party == b.party && a.kind == b.kind && a.checkpoint == b.checkpoint
    ensures i == j
  {
    hide NeverUndone, QueueOk, WindowsOk, PartiesOk, RostersOk, FeesOk, PartyJobsOk, RefsOk, IncidentsOk, RecordsOk;
    ReachableStatesAreSafe(run);
  }

  /** A party once seen in a terminal state is there for good, its row unchanged,
      holds no seat anywhere and has returned the seats of its permit once. */
  lemma StoppedPartiesStayStopped(run: Run, earlier: Db, p: nat, w: nat)
    requires Sound(run) && Saw(run, earlier) && p < |earlier.parties|
    requires earlier.parties[p].state in {Completed, Cancelled, Aborted}
    ensures p < |Last(run).db.parties| && Last(run).db.parties[p] == earlier.parties[p]
    ensures Share(Last(run).db.parties[p], w) == 0
    ensures Returns(run, p) == (if earlier.parties[p].window.Some? then 1 else 0)
  {
    hide Inv;
    ReachableStatesAreSafe(run);
    assert PartyLater(earlier.parties[p], Last(run).db.parties[p]);
    SeatsAreTakenAndReturnedOnce(run, p);
  }

  // ---------- idempotency keys ----------

  predicate Reserves(w: World, a: Action, k: Key) {
    a.RequestPermit? && a.request.key == k && Write(w.db, a).Ok?
  }

  predicate Forgets(w: World, a: Action, k: Key) {
    a.Purge? && k in w.db.records && w.db.records[k].expiresAt <= a.now
  }

  /** How many permit requests committed under a key. */
  function Reservations(run: Run, k: Key): nat {
    match run
    case Start => 0
    case Then(past, act) => Reservations(past, k) + (if Reserves(Last(past), act, k) then 1 else 0)
  }

  /** How many purges removed the key's expired record. */
  function Expiries(run: Run, k: Key): nat {
    match run
    case Start => 0
    case Then(past, act) => Expiries(past, k) + (if Forgets(Last(past), act, k) then 1 else 0)
  }

  lemma OtherWritesKeepRecords(db: Db, a: Action)
    requires !a.RequestPermit? && !a.Purge? && ByService(a)
    ensures Commit(db, Write(db, a)).records == db.records
  {
  }

  lemma RecordStep(w: World, a: Action, k: Key)
    requires !Blank(k.text)
    ensures var rs := Perform(w, a).db.records;
            && (Reserves(w, a, k) ==> k !in w.db.records && k in rs)
            && (Forgets(w, a, k) ==> k in w.db.records && k !in rs)
            && (!Reserves(w, a, k) && !Forgets(w, a, k) ==>
                  (k in rs <==> k in w.db.records) && (k in rs ==> rs[k] == w.db.records[k]))
  {
    hide WorkerStep;
    if !ByService(a) {
      WorkersKeepTables(w, a);
    } else if !a.RequestPermit? && !a.Purge? {
      hide Write;
      OtherWritesKeepRecords(w.db, a);
    }
  }

  /** Between two purges of a key's expired record at most one permit request
      commits under it, also when duplicates race: the requests that committed
      are the records that expired plus the one that is stored. */
  lemma {:induction false} OneReservationPerKey(run: Run, k: Key)
    requires Sound(run) && !Blank(k.text)
    ensures Reservations(run, k) == Expiries(run, k) + (if k in Last(run).db.records then 1 else 0)
  {
    hide Perform, Enabled, Reserves, Forgets;
    if run.Then? {
      OneReservationPerKey(run.past, k);
      RecordStep(Last(run.past), run.act, k);
    }
  }

  /** A replayed response is the one of the party the key was used for, which got
      its permit in that request and belongs to the caller; a key used for
      anything else is refused. */
  lemma ReplaysAreTruthful(run: Run, key: Key, p: nat, size: int, now: int)
    requires Sound(run) && LookupKey(Last(run).db.records, key, p, size, now).Replay?
    ensures var db := Last(run).db; var body := LookupKey(db.records, key, p, size, now).body;
            && p < |db.parties| && db.parties[p].size == size && db.parties[p].leader == key.actor
            && body.party == p && body.row.state == PermitReserved && body.row.window.Some?
            && body.row.window == db.parties[p].window
            && |body.roster| == size && (forall m :: m in body.roster ==> body.roster[m])
  {
    hide NeverUndone, Later, QueueOk;
    ReachableStatesAreSafe(run);
    assert RecordOk(key, Last(run).db.records[key], Last(run).db.parties);
  }
}
