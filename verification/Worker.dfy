/** The job runner and its handlers. A handler may fail at any point, for any
    reason; other workers may take an expired lease away at any time and finish,
    retry or repeat the same job. */
module Worker {
  import opened Errors
  import opened Domain
  import opened Tables
  import opened Repositories
  import opened Transactions
  import opened Backoff
  import opened Ordering
  import opened Runs
  import opened Invariants
  import opened Safety
  import opened Storage

  /** A claimed job as its worker read it back. */
  datatype Claim = Claim(id: nat, kind: JobKind, ref: nat, attempts: nat, maxAttempts: int)

  /** A timeout, a panic or a lost connection. */
  datatype Fault = Fault(code: Code, canceled: bool) {
    function AsOutcome(): Outcome {
      Failure(code, canceled)
    }
  }

  /** What goes wrong around a handler: before it writes, or after its commit. */
  datatype Faults = Faults(early: Option<Fault>, late: Option<Fault>)

  const SMOOTH := Faults(None, None)

  function Wish(f: Faults): Outcome {
    if f.late.Some? then f.late.value.AsOutcome() else Finished
  }

  function RowAt<T>(rows: seq<T>, i: nat): Option<T> {
    if i < |rows| then Some(rows[i]) else None
  }

  /** When an undisturbed handler succeeds: a settlement job needs a completed party with
      a fee, an escalation job its incident and, below the cap, a limit for the next one. */
  predicate Succeeds(db: Db, c: Claim, jobMaxAttempts: int) {
    match c.kind
    case SettleParty => c.ref < |db.parties| && db.parties[c.ref].state == Completed && c.ref in db.settlements
    case EscalateIncident =>
      c.ref < |db.incidents| && (!CanRise(db.incidents[c.ref], 2) || jobMaxAttempts > 0)
    case _ => true
  }

  /** The incident is not resolved and may be escalated `n` more times: a minor one once
      in all, a major one three times, a critical one four times. */
  predicate CanRise(i: Incident, n: nat) {
    && (i.state == IncidentState.Open || i.state == Escalated)
    && i.count + n <= (match i.severity case Minor => 1 case Major => 3 case Critical => 4)
  }

  /** What one hand-off changes: the count, and below the cap the next job, which waits for
      half an hour, ten or two minutes. An incident that cannot rise is left alone. */
  predicate Escalates(was: Db, db: Db, i: nat, jobMaxAttempts: int, now: int) {
    && i < |was.incidents|
    && var row := was.incidents[i];
       var wait := match row.severity case Minor => 1800 case Major => 600 case Critical => 120;
       db == if !CanRise(row, 1) then was else was.(
         incidents := was.incidents[i := row.(state := Escalated, count := row.count + 1, resolvedAt := None,
                                              version := row.version + 1)],
         jobs := if !CanRise(row, 2) then was.jobs else
                   was.jobs + [Job(EscalateIncident, i, Queued, 0, jobMaxAttempts, now + wait, "", None)])
  }

  /** What settling changes: a pending or parked fee gets reference and time, a settled or
      waived one stays. */
  predicate Settles(was: Db, db: Db, p: nat, reference: string, now: int) {
    && p in was.settlements
    && var fee := was.settlements[p];
       db == was.(settlements := was.settlements[p :=
         if fee.state == Settled || fee.state == Waived then fee
         else fee.(state := Settled, reference := reference, note := "", settledAt := Some(now),
                   version := fee.version + 1)])
  }

  lemma RisesInWords(i: Incident)
    ensures CanRise(i, 1) <==> DecideEscalate(i) == HandOff
    ensures CanRise(i, 2) <==> DecideEscalate(i) == HandOff && i.count + 1 < MaxEscalations(i.severity)
  {
  }

  lemma HandOffInWords(db: Db, i: nat, jobMaxAttempts: int, now: int)
    requires i < |db.incidents| && DecideEscalate(db.incidents[i]) == HandOff
    ensures var r := EscalateTx(db, i, db.incidents[i], jobMaxAttempts, now);
            && (r.Ok? <==> !CanRise(db.incidents[i], 2) || jobMaxAttempts > 0)
            && (r.Ok? ==> Escalates(db, r.value, i, jobMaxAttempts, now))
            && (r.Err? ==> r.code == InvalidArgument)
  {
  }

  lemma HandOffCounts(db: Db, id: nat, i: Incident, jobMaxAttempts: int, now: int)
    ensures var r := EscalateTx(db, id, i, jobMaxAttempts, now);
            && (r.Ok? ==> id < |r.value.incidents| && r.value.incidents[id].count == i.count + 1)
            && (r.Ok? ==> db.jobs <= r.value.jobs)
  {
  }

  lemma ChargeInWords(db: Db, p: nat, reference: string, now: int)
    requires p in db.settlements && !Final(db.settlements[p].state)
    ensures var c := SettlementChange(db.settlements[p].version, Settled, reference, "", Some(now));
            var r := SettlementTx(db, p, c);
            r.Ok? && Settles(db, r.value, p, reference, now)
  {
  }

  lemma SettlingInWords(db: Db, p: nat)
    ensures var party, fee := RowAt(db.parties, p), ExactlyOnce.FeeOf(db, p);
            match DecideSettle(party, fee)
            case Refuse(code) =>
              && !(p < |db.parties| && db.parties[p].state == Completed && p in db.settlements)
              && code == if p < |db.parties| && db.parties[p].state != Completed then StateInvalid else NotFound
            case AlreadyFinal =>
              && p < |db.parties| && db.parties[p].state == Completed
              && p in db.settlements && forall reference, now :: Settles(db, db, p, reference, now)
            case Charge =>
              && p < |db.parties| && db.parties[p].state == Completed
              && p in db.settlements && !Final(db.settlements[p].state)
  {
    if p in db.settlements {
      assert db.settlements[p := db.settlements[p]] == db.settlements;
    }
  }

  /** The lease belongs to the claimed job. */
  ghost predicate LeaseIn(w: World, t: Ticket, c: Claim) {
    && t in w.workers
    && t.job == c.id < |w.db.jobs| && w.db.jobs[c.id].kind == c.kind && w.db.jobs[c.id].ref == c.ref
    && w.db.jobs[c.id].maxAttempts == c.maxAttempts
  }

  ghost predicate WorkingIn(w: World, t: Ticket, c: Claim) {
    LeaseIn(w, t, c) && w.workers[t] == Working(c.attempts)
  }

  ghost predicate LeaseFor(store: Store, t: Ticket, c: Claim)
    reads store
  {
    LeaseIn(Last(store.run), t, c)
  }

  ghost predicate IsWorking(store: Store, t: Ticket, c: Claim)
    reads store
  {
    WorkingIn(Last(store.run), t, c)
  }

  ghost predicate HasReturned(store: Store, t: Ticket, c: Claim, o: Outcome)
    reads store
  {
    LeaseFor(store, t, c) && Last(store.run).workers[t] == Returned(c.attempts, o)
  }

  function ReportOf(t: Ticket, o: Outcome, base: int, cap: int, nanos: int): Action {
    if o.Finished? then Action.ReportDone(t) else Action.ReportFailure(t, base, cap, nanos)
  }

  lemma FinalFeesStayFinal(later: Run, run: Run, p: nat, mine: set<Ticket>)
    requires Sound(later) && ByOthers(later, run, mine)
    requires p in Last(run).db.settlements && Final(Last(run).db.settlements[p].state)
    ensures p in Last(later).db.settlements && Final(Last(later).db.settlements[p].state)
  {
    hide Sound, Last, ByOthers;
    OthersAreLater(later, run, mine);
  }

  /** The handler of lease `t` returned `o`, and that very outcome was reported next. */
  ghost predicate Recorded(run: Run, before: Run, start: Run, t: Ticket, c: Claim, o: Outcome, base: int, cap: int,
                           nanos: int) {
    && Continues(before, start)
    && LeaseIn(Last(before), t, c) && Last(before).workers[t] == Returned(c.attempts, o)
    && Continues(run, Then(before, ReportOf(t, o, base, cap, nanos)))
  }

  /** What a failure report does to the queue: nothing unless the job is running,
      else it is parked for good or queued again after the capped delay. */
  ghost predicate FailureRecorded(was: seq<Job>, js: seq<Job>, c: Claim, o: Outcome, nanos: int, base: int, cap: int,
                                  parked: bool)
    requires c.id < |was|
  {
    var gaveUp := o.Failure? && (o.canceled || o.code in {NotFound, InvalidArgument, PermissionDenied, StateInvalid});
    var permanent := gaveUp || c.attempts >= c.maxAttempts;
    var wait := if permanent then 0 else Delay(c.attempts, base, cap);
    && (parked <==> was[c.id].state == Running && permanent)
    && js == (if was[c.id].state != Running then was
              else was[c.id := was[c.id].(state := if permanent then Failed else Queued,
                                          runAt := (nanos + wait) / 1_000_000_000, lockedBy := "",
                                          lockedUntil := None)])
  }

  /** The leases whose phases the caller relies on. */
  ghost predicate Held(store: Store, mine: set<Ticket>)
    reads store
  {
    forall t :: t in mine ==> t in Last(store.run).workers && t.job < |store.jobs|
  }

  function RunAtOf(js: seq<Job>): nat -> int {
    (j: nat) => if j < |js| then js[j].runAt else 0
  }

  function IsDue(js: seq<Job>, now: int): nat -> bool {
    (j: nat) => j < |js| && Due(js[j], now)
  }

  /** At most `most` due jobs, earliest run time first. */
  function DueJobs(js: seq<Job>, now: int, most: nat): seq<nat> {
    Limit(Among(RunAtOf(js), IsDue(js, now), |js|), most)
  }

  /** The candidates are due jobs, each once, by run time and then identifier; a due job
      is passed over only for earlier ones that fill the limit. */
  lemma DueJobsAreFair(js: seq<Job>, now: int, most: nat)
    ensures var ids := DueJobs(js, now, most);
            && Ordered(RunAtOf(js), ids) && |ids| <= most
            && (forall i, k :: 0 <= i < k < |ids| ==> ids[i] != ids[k])
            && (forall i :: 0 <= i < |ids| ==> ids[i] < |js| && Due(js[ids[i]], now))
            && (forall j: nat :: j < |js| && Due(js[j], now) && j !in ids ==>
                  |ids| == most && forall i :: 0 <= i < |ids| ==> Before(RunAtOf(js), ids[i], j))
  {
    hide Ordered, Among, Limit, Before, Due;
    SelectionsAreFair(RunAtOf(js), IsDue(js, now), |js|, most);
  }

  function Parking(s: Settlement, note: string): SettlementChange {
    SettlementChange(s.version, Parked, "", note, None)
  }

  /** The same in the columns of the table: queued jobs whose time has come, run times
      never falling, and none passed over for a later one. */
  lemma CandidatesAreDue(js: seq<Job>, now: int, most: nat)
    ensures var ids := DueJobs(js, now, most);
            && |ids| <= most
            && (forall i, k :: 0 <= i < k < |ids| ==> ids[i] != ids[k])
            && (forall i :: 0 <= i < |ids| ==>
                  ids[i] < |js| && js[ids[i]].state == Queued && js[ids[i]].runAt <= now)
            && (forall i, k :: 0 <= i < k < |ids| ==> Earlier(js, ids[i], ids[k]))
            && (forall j: nat :: j < |js| && js[j].state == Queued && js[j].runAt <= now && j !in ids ==>
                  |ids| == most && forall i :: 0 <= i < |ids| ==> Earlier(js, ids[i], j))
  {
    hide DueJobs, Ordered, Before;
    DueJobsAreFair(js, now, most);
    var ids := DueJobs(js, now, most);
    forall i, k | 0 <= i < k < |ids| ensures Earlier(js, ids[i], ids[k]) {
      InOrder(RunAtOf(js), ids, i, k);
      ByRunTime(js, ids[i], ids[k]);
    }
    forall j: nat | j < |js| && Due(js[j], now) && j !in ids
      ensures |ids| == most && forall i :: 0 <= i < |ids| ==> Earlier(js, ids[i], j)
    {
      forall i | 0 <= i < |ids| ensures Earlier(js, ids[i], j) {
        ByRunTime(js, ids[i], j);
      }
    }
  }

  /** By run time, and jobs of one run time by their identifiers. */
  predicate Earlier(js: seq<Job>, i: nat, j: nat) {
    i < |js| && j < |js| && (js[i].runAt < js[j].runAt || (js[i].runAt == js[j].runAt && i < j))
  }

  lemma ByRunTime(js: seq<Job>, i: nat, j: nat)
    requires i < |js| && j < |js| && Before(RunAtOf(js), i, j)
    ensures Earlier(js, i, j)
  {
  }

  /** The lease was won after the jobs were as given. */
  predicate WonSince(was: seq<Job>, t: Ticket) {
    t.job < |was| ==> was[t.job].attempts < t.claim
  }

  lemma WonSinceBefore(later: Run, run: Run, mine: set<Ticket>, t: Ticket)
    requires Sound(later) && ByOthers(later, run, mine) && WonSince(Last(later).db.jobs, t)
    ensures WonSince(Last(run).db.jobs, t)
  {
    hide Inv, Last, Sound, ByOthers;
    OthersAreLater(later, run, mine);
    if t.job < |Last(run).db.jobs| {
      assert JobLater(Last(run).db.jobs[t.job], Last(later).db.jobs[t.job]);
    }
  }

  /** The lease is over, and its number is one the job has counted. */
  predicate OverIn(w: World, t: Ticket) {
    ClosedIn(w, t) && t.job < |w.db.jobs| && t.claim <= w.db.jobs[t.job].attempts
  }

  ghost predicate Distinct(tickets: seq<Ticket>) {
    forall i, k :: 0 <= i < k < |tickets| ==> tickets[i] != tickets[k]
  }

  /** A round in progress: the first `n` leases are over, the others are held. */
  ghost predicate RoundIn(w: World, tickets: seq<Ticket>, claimed: seq<Claim>, n: nat) {
    && n <= |tickets| == |claimed| && Distinct(tickets)
    && (forall i :: 0 <= i < n ==> OverIn(w, tickets[i]))
    && (forall i :: n <= i < |tickets| ==> WorkingIn(w, tickets[i], claimed[i]))
  }

  lemma EmptyRound(w: World)
    ensures RoundIn(w, [], [], 0)
  {
  }

  ghost function Rest(tickets: seq<Ticket>, n: nat): set<Ticket> {
    set i | n <= i < |tickets| :: tickets[i]
  }

  lemma RoundHolds(store: Store, tickets: seq<Ticket>, claimed: seq<Claim>, n: nat)
    requires RoundIn(Last(store.run), tickets, claimed, n) && store.Valid()
    ensures Held(store, Rest(tickets, n))
    ensures n < |tickets| ==>
              && IsWorking(store, tickets[n], claimed[n])
              && Held(store, Rest(tickets, n + 1)) && tickets[n] !in Rest(tickets, n + 1)
  {
  }

  lemma RoundGrows(w: World, tickets: seq<Ticket>, claimed: seq<Claim>, t: Ticket, c: Claim)
    requires RoundIn(w, tickets, claimed, 0) && WorkingIn(w, t, c) && t !in Rest(tickets, 0)
    ensures RoundIn(w, tickets + [t], claimed + [c], 0)
  {
    assert forall i :: 0 <= i < |tickets| ==> tickets[i] in Rest(tickets, 0);
  }

  lemma RoundStays(later: Run, run: Run, tickets: seq<Ticket>, claimed: seq<Claim>, n: nat)
    requires Sound(later) && ByOthers(later, run, Rest(tickets, n)) && RoundIn(Last(run), tickets, claimed, n)
    ensures RoundIn(Last(later), tickets, claimed, n)
  {
    hide Inv, Last, Sound, ByOthers, ClosedIn;
    OthersKeepKnowledge(later, run, Rest(tickets, n));
    OthersAreLater(later, run, Rest(tickets, n));
    forall i | 0 <= i < n ensures OverIn(Last(later), tickets[i]) {
      ClosedStays(later, run, Rest(tickets, n), tickets[i]);
      assert JobLater(Last(run).db.jobs[tickets[i].job], Last(later).db.jobs[tickets[i].job]);
    }
    forall i | n <= i < |tickets| ensures WorkingIn(Last(later), tickets[i], claimed[i]) {
      assert tickets[i] in Rest(tickets, n);
    }
  }

  /** One more lease is over. */
  lemma RoundAdvances(later: Run, run: Run, tickets: seq<Ticket>, claimed: seq<Claim>, n: nat)
    requires Sound(later) && Sound(run) && n < |tickets| && ByOthers(later, run, Rest(tickets, n + 1))
    requires RoundIn(Last(run), tickets, claimed, n) && ClosedIn(Last(later), tickets[n])
    ensures RoundIn(Last(later), tickets, claimed, n + 1)
  {
    hide Inv, Last, Sound, ByOthers, ClosedIn;
    var mine := Rest(tickets, n + 1);
    OthersKeepKnowledge(later, run, mine);
    OthersAreLater(later, run, mine);
    ExactlyOnce.LeaseNumbersAreCounted(run, tickets[n]);
    forall i | 0 <= i <= n ensures OverIn(Last(later), tickets[i]) {
      if i < n {
        ClosedStays(later, run, mine, tickets[i]);
      }
      assert JobLater(Last(run).db.jobs[tickets[i].job], Last(later).db.jobs[tickets[i].job]);
    }
    forall i | n < i < |tickets| ensures WorkingIn(Last(later), tickets[i], claimed[i]) {
      assert tickets[i] in mine;
    }
  }

  function Ids(claimed: seq<Claim>): (ids: seq<nat>)
    ensures |ids| == |claimed| && forall i :: 0 <= i < |ids| ==> ids[i] == claimed[i].id
  {
    seq(|claimed|, i requires 0 <= i < |claimed| => claimed[i].id)
  }

  /** The claims are of some of the first `n` candidates, in the order of the queue. */
  ghost predicate Picked(js: seq<Job>, claimed: seq<Claim>, candidates: seq<nat>, n: nat)
    requires n <= |candidates|
  {
    && (forall i :: 0 <= i < |claimed| ==> claimed[i].id in candidates[..n])
    && (forall i, k :: 0 <= i < k < |claimed| ==> Earlier(js, claimed[i].id, claimed[k].id))
  }

  lemma NothingPicked(js: seq<Job>, candidates: seq<nat>)
    ensures Picked(js, [], candidates, 0)
  {
  }

  lemma OneMorePicked(js: seq<Job>, claimed: seq<Claim>, candidates: seq<nat>, n: nat, c: Option<Claim>)
    requires n < |candidates| && Picked(js, claimed, candidates, n)
    requires forall i, k :: 0 <= i < k < |candidates| ==> Earlier(js, candidates[i], candidates[k])
    ensures Picked(js, claimed, candidates, n + 1)
    ensures c.Some? && c.value.id == candidates[n] ==> Picked(js, claimed + [c.value], candidates, n + 1)
  {
    hide Earlier;
    assert candidates[..n + 1] == candidates[..n] + [candidates[n]];
    forall i | 0 <= i < |claimed| ensures Earlier(js, claimed[i].id, candidates[n]) {
      assert claimed[i].id in candidates[..n];
      var a :| 0 <= a < n && candidates[..n][a] == claimed[i].id;
      assert candidates[a] == claimed[i].id;
    }
  }

  lemma PickedAreCandidates(js: seq<Job>, claimed: seq<Claim>, candidates: seq<nat>)
    requires Picked(js, claimed, candidates, |candidates|)
    ensures forall i :: 0 <= i < |claimed| ==> claimed[i].id in candidates
    ensures forall i, k :: 0 <= i < k < |claimed| ==> Earlier(js, claimed[i].id, claimed[k].id)
  {
    hide Earlier;
    assert candidates[..|candidates|] == candidates;
  }

  /** The row of a job under a new lease, and the claim its worker reads. */
  function UnderLease(job: Job, worker: string, until: int): Job {
    job.(state := Running, attempts := job.attempts + 1, lockedBy := worker, lockedUntil := Some(until))
  }

  function ClaimOf(j: nat, job: Job): Claim {
    Claim.Claim(j, job.kind, job.ref, job.attempts + 1, job.maxAttempts)
  }

  /** The first candidates are leased and claimed, all other jobs are as they were. */
  ghost predicate LeasedSoFar(was: seq<Job>, js: seq<Job>, candidates: seq<nat>, claimed: seq<Claim>, worker: string,
                              until: int)
  {
    && |claimed| <= |candidates| && |js| == |was|
    && (forall k :: 0 <= k < |claimed| ==>
          && candidates[k] < |was| && claimed[k] == ClaimOf(candidates[k], was[candidates[k]])
          && js[candidates[k]] == UnderLease(was[candidates[k]], worker, until))
    && (forall k: nat :: k < |was| && (forall i :: 0 <= i < |claimed| ==> candidates[i] != k) ==> js[k] == was[k])
  }

  lemma OneMoreLeased(was: seq<Job>, js: seq<Job>, candidates: seq<nat>, claimed: seq<Claim>, worker: string,
                      until: int)
    requires |claimed| < |candidates| && LeasedSoFar(was, js, candidates, claimed, worker, until)
    requires forall k, m :: 0 <= k < m < |candidates| ==> candidates[k] != candidates[m]
    requires candidates[|claimed|] < |was|
    ensures var j := candidates[|claimed|];
            && |js| == |was| && js[j] == was[j]
            && LeasedSoFar(was, js[j := UnderLease(js[j], worker, until)], candidates, claimed + [ClaimOf(j, js[j])],
                           worker, until)
  {
  }

  lemma NothingDueIsLeft(was: seq<Job>, js: seq<Job>, candidates: seq<nat>, claimed: seq<Claim>, now: int,
                         worker: string, until: int)
    requires LeasedSoFar(was, js, candidates, claimed, worker, until) && |claimed| == |candidates|
    requires forall k: nat :: k < |was| && was[k].state == Queued && was[k].runAt <= now ==> k in candidates
    ensures forall k :: 0 <= k < |js| ==> !(js[k].state == Queued && js[k].runAt <= now)
    ensures candidates == [] ==> js == was
  {
  }

  lemma ClaimedIds(was: seq<Job>, js: seq<Job>, candidates: seq<nat>, claimed: seq<Claim>, worker: string,
                   until: int)
    requires LeasedSoFar(was, js, candidates, claimed, worker, until)
    ensures forall i :: 0 <= i < |claimed| ==> i < |candidates| && claimed[i].id == candidates[i]
  {
  }

  lemma NothingLeasedYet(was: seq<Job>, candidates: seq<nat>, worker: string, until: int)
    ensures LeasedSoFar(was, was, candidates, [], worker, until)
  {
  }

  lemma FinalFeesStay(run: Run, p: nat, s: Settlement)
    requires Sound(run) && Seen(run, SettlementRow(p, s)) && Final(s.state)
    ensures p in Last(run).db.settlements && Last(run).db.settlements[p] == s
  {
    hide Inv;
    var db :| Saw(run, db) && Holds(db, SettlementRow(p, s));
    ExactlyOnce.FeesAreFinal(run, db, p);
  }

  // ---------- one own step at the end of the history ----------

  lemma OwnStep(run: Run, a: Action, t: Ticket, mine: set<Ticket>)
    requires Sound(run) && Allowed(run, a) && LeaseOf(a) == Some(t) && t !in mine
    ensures Sound(Then(run, a)) && ByOthers(Then(run, a), run, mine)
    ensures Last(Then(run, a)) == WorkerStep(Last(run), a)
  {
    hide WorkerStep, Write, Inv, Later, Allowed;
    assert !ByService(a);
  }

  lemma ClaimStep(run: Run, j: nat, worker: string, until: int, now: int, mine: set<Ticket>)
    requires Sound(run)
    ensures var later := Then(run, Action.Claim(j, worker, until, now));
            Sound(later) && ByOthers(later, run, mine) && Last(later) == Claimed(Last(run), j, worker, until, now)
  {
    hide Write, Inv, Later, Seen, Claimed;
  }

  lemma ChargeStep(run: Run, t: Ticket, p: nat, party: Party, s: Settlement, reference: string, now: int, o: Outcome,
                   mine: set<Ticket>)
    requires Sound(run) && Handles(Last(run), t, SettleParty, p) && t !in mine
    requires DecideSettle(Some(party), Some(s)) == Charge
    requires Seen(run, PartyRow(p, party)) && Seen(run, SettlementRow(p, s))
    ensures var later := Then(run, ChargeFee(t, p, party, s, reference, now, o));
            Sound(later) && ByOthers(later, run, mine) && Last(later) == Charged(Last(run), t, p, s, reference, now, o)
  {
    hide Perform, Write, Inv, Later, Seen, Sound, ByOthers, Last, Charged;
    OwnStep(run, ChargeFee(t, p, party, s, reference, now, o), t, mine);
  }

  lemma HandOffHappens(run: Run, t: Ticket, i: nat, row: Incident, maxAttempts: int, now: int, o: Outcome,
                       mine: set<Ticket>)
    requires Sound(run) && Handles(Last(run), t, EscalateIncident, i) && t !in mine
    requires DecideEscalate(row) == HandOff && Seen(run, IncidentRow(i, row))
    ensures var later := Then(run, Escalate(t, i, row, maxAttempts, now, o));
            Sound(later) && ByOthers(later, run, mine) && Last(later) == HandedOff(Last(run), t, i, row, maxAttempts,
                                                                                   now, o)
  {
    hide Perform, Write, Inv, Later, Seen, Sound, ByOthers, Last, HandedOff;
    OwnStep(run, Escalate(t, i, row, maxAttempts, now, o), t, mine);
  }

  lemma FailureStep(run: Run, t: Ticket, base: int, cap: int, nanos: int, mine: set<Ticket>)
    requires Sound(run) && InPhase(Last(run), t) && t !in mine
    requires Last(run).workers[t].Returned? && Last(run).workers[t].outcome.Failure?
    ensures var later := Then(run, Action.ReportFailure(t, base, cap, nanos));
            Sound(later) && ByOthers(later, run, mine) && Last(later) == ReportedFailure(Last(run), t, base, cap, nanos)
  {
    hide Perform, Write, Inv, Later, Seen, Sound, ByOthers, Last, ReportedFailure;
    OwnStep(run, Action.ReportFailure(t, base, cap, nanos), t, mine);
  }

  lemma DoneStep(run: Run, t: Ticket, mine: set<Ticket>)
    requires Sound(run) && InPhase(Last(run), t) && t !in mine
    requires Last(run).workers[t].Returned? && Last(run).workers[t].outcome.Finished?
    ensures var later := Then(run, Action.ReportDone(t));
            Sound(later) && ByOthers(later, run, mine) && Last(later) == ReportedDone(Last(run), t)
  {
    hide Perform, Write, Inv, Later, Seen, Sound, ByOthers, Last, ReportedDone;
    OwnStep(run, Action.ReportDone(t), t, mine);
  }

  lemma ParkStep(run: Run, t: Ticket, p: nat, s: Settlement, note: string, mine: set<Ticket>)
    requires Sound(run) && InPhase(Last(run), t) && Last(run).workers[t].Hooked? && t !in mine
    requires Last(run).db.jobs[t.job].ref == p && s.state == Pending && Seen(run, SettlementRow(p, s))
    ensures var later := Then(run, Action.ParkFee(t, p, s, note));
            Sound(later) && ByOthers(later, run, mine) && Last(later) == FeeParked(Last(run), t, p, s, note)
  {
    hide Perform, Write, Inv, Later, Seen, Sound, ByOthers, Last, FeeParked;
    OwnStep(run, Action.ParkFee(t, p, s, note), t, mine);
  }

  class Runner {
    const store: Store
    const jobMaxAttempts: int
    const base: int
    const cap: int
    const lease: nat
    const batch: nat

    constructor (store: Store, jobMaxAttempts: int, base: int, cap: int, lease: int, batch: int)
      ensures this.store == store && this.jobMaxAttempts == (if jobMaxAttempts > 0 then jobMaxAttempts else 5)
      ensures this.base == (if base > 0 then base else 2 * SECOND)
      ensures this.cap == (if cap >= this.base then cap else 20 * this.base) && 0 < this.base <= this.cap
      ensures this.lease == (if lease > 0 then lease else 30 * SECOND)
      ensures this.batch == (if batch > 0 then batch else 4)
    {
      this.store := store;
      this.jobMaxAttempts := if jobMaxAttempts <= 0 then 5 else jobMaxAttempts;
      var positive := if base <= 0 then 2 * SECOND else base;
      this.base := positive;
      this.cap := if cap < positive then 20 * positive else cap;
      this.lease := if lease <= 0 then 30 * SECOND else lease;
      this.batch := if batch <= 0 then 4 else batch;
    }

    // ---------- leasing ----------

    /** Takes every expired lease away, in one statement. */
    method Reclaim(nanos: int, ghost mine: set<Ticket>) returns (affected: nat)
      requires store.Valid() && Held(store, mine)
      modifies store
      ensures store.Valid() && ByOthers(store.run, old(store.run), mine)
      ensures store.jobs == ReclaimExpired(old(store.jobs), Unix(nanos))
      ensures var second := nanos / 1_000_000_000;
              && |store.jobs| == |old(store.jobs)|
              && (forall j :: 0 <= j < |store.jobs| ==>
                    var was := old(store.jobs)[j];
                    store.jobs[j] ==
                      if was.state == Running && was.lockedUntil.Some? && was.lockedUntil.value <= second
                      then was.(state := Queued, lockedBy := "", lockedUntil := None) else was)
              && affected == |set j | 0 <= j < |old(store.jobs)| && old(store.jobs)[j].state == Running
                                      && old(store.jobs)[j].lockedUntil.Some?
                                      && old(store.jobs)[j].lockedUntil.value <= second|
      ensures store.State() == old(store.State()).(jobs := store.jobs)
    {
      hide Inv, Later, Write;
      ghost var before := store.run;
      affected := store.ReclaimExpired(Unix(nanos));
      store.run := Then(before, Action.Reclaim(Unix(nanos)));
    }

    /** The conditional lease of one candidate. */
    method LeaseOne(j: nat, worker: string, nanos: int, ghost mine: set<Ticket>)
      returns (leased: bool, ghost t: Ticket)
      requires store.Valid() && Held(store, mine)
      modifies store
      ensures store.Valid() && ByOthers(store.run, old(store.run), mine)
      ensures leased <==> j < |old(store.jobs)| && old(store.jobs)[j].state == Queued
                          && old(store.jobs)[j].runAt <= nanos / 1_000_000_000
      ensures store.jobs == if !leased then old(store.jobs) else
                old(store.jobs)[j := UnderLease(old(store.jobs)[j], worker, (nanos + lease) / 1_000_000_000)]
      ensures leased ==> WonSince(old(store.jobs), t)
      ensures leased ==> t !in mine && t.job == j < |store.jobs|
      ensures leased ==> t in Last(store.run).workers && Last(store.run).workers[t].Leased?
    {
      hide Inv, Later, Write, Seen, Perform, Enabled, Reads, Allowed, WorkerStep, Sound, ByOthers, LeaseOf, Last;
      ghost var before := store.run;
      var now := Unix(nanos);
      ClaimStep(before, j, worker, Unix(nanos + lease), now, mine);
      var done := store.Lease(j, worker, Unix(nanos + lease), now);
      leased := done.Ok?;
      t := Ticket(j, if leased then store.jobs[j].attempts else 0);
      if leased {
        ExactlyOnce.LeasesAreNew(before, j, worker, Unix(nanos + lease), now);
      }
      store.run := Then(before, Action.Claim(j, worker, Unix(nanos + lease), now));
    }

    /** Reads a leased job back, in a statement of its own: by then its attempts
        may already be those of another worker's lease. */
    method ReadBackOne(ghost t: Ticket, j: nat, ghost mine: set<Ticket>) returns (c: Claim)
      requires store.Valid() && Held(store, mine) && t !in mine
      requires t.job == j < |store.jobs| && t in Last(store.run).workers && Last(store.run).workers[t].Leased?
      modifies store`run
      ensures store.Valid() && ByOthers(store.run, old(store.run), mine)
      ensures IsWorking(store, t, c) && c.id == j
      ensures var job := store.jobs[j]; c == Claim.Claim(j, job.kind, job.ref, job.attempts, job.maxAttempts)
    {
      hide Inv, Later, Write;
      ghost var before := store.run;
      var job := store.jobs[j];
      c := Claim.Claim(j, job.kind, job.ref, job.attempts, job.maxAttempts);
      store.run := Then(before, ReadBack(t));
    }

    method ClaimOne(j: nat, worker: string, nanos: int, ghost mine: set<Ticket>)
      returns (c: Option<Claim>, ghost t: Ticket)
      requires store.Valid() && Held(store, mine)
      modifies store
      ensures store.Valid() && ByOthers(store.run, old(store.run), mine)
      ensures c.Some? ==> t !in mine && IsWorking(store, t, c.value) && c.value.id == j && WonSince(old(store.jobs), t)
      ensures store.alone ==>
                && (c.Some? <==> j < |old(store.jobs)| && old(store.jobs)[j].state == Queued
                                 && old(store.jobs)[j].runAt <= nanos / 1_000_000_000)
                && (c.None? ==> store.jobs == old(store.jobs))
                && (c.Some? ==>
                      && c.value == ClaimOf(j, old(store.jobs)[j])
                      && store.jobs == old(store.jobs)[j := UnderLease(old(store.jobs)[j], worker,
                                                                      (nanos + lease) / 1_000_000_000)])
    {
      hide Inv, Later, Perform, Sound, Seen;
      ghost var start := store.run;
      var leased;
      leased, t := LeaseOne(j, worker, nanos, mine);
      c := None;
      if leased {
        OthersKeepKnowledge(store.run, start, mine);
        ghost var before := store.run;
        store.Pause(mine + {t});
        ByOthersCompose(store.run, before, start, mine + {t}, mine);
        before := store.run;
        var read := ReadBackOne(t, j, mine);
        ByOthersCompose(store.run, before, start, mine, mine);
        c := Some(read);
      }
    }

    /** Leases due jobs one by one. The candidates are a reading that may be stale
        by the time each of them is leased; one that is no longer due is skipped. */
    method ClaimDue(worker: string, nanos: int, limit: int) returns (res: Result<seq<Claim>>,
                                                                     ghost tickets: seq<Ticket>)
      requires store.Valid()
      modifies store
      ensures store.Valid() && ByOthers(store.run, old(store.run), {})
      ensures worker == "" <==> res.Err?
      ensures res.Ok? ==> |res.value| <= (if limit <= 0 then 1 else limit)
      ensures res.Ok? ==> RoundIn(Last(store.run), tickets, res.value, 0)
      ensures forall i :: 0 <= i < |tickets| ==> WonSince(old(store.jobs), tickets[i])
      ensures res.Ok? ==> forall i :: 0 <= i < |res.value| ==>
                && res.value[i].id < |old(store.jobs)| && old(store.jobs)[res.value[i].id].state == Queued
                && old(store.jobs)[res.value[i].id].runAt <= nanos / 1_000_000_000
      ensures res.Ok? ==> forall i, k :: 0 <= i < k < |res.value| ==>
                Earlier(old(store.jobs), res.value[i].id, res.value[k].id)
      ensures store.alone && res.Ok? ==>
                var was, ids := old(store.jobs), Ids(res.value);
                && LeasedSoFar(was, store.jobs, ids, res.value, worker, (nanos + lease) / 1_000_000_000)
                && (forall j: nat :: j < |was| && was[j].state == Queued && was[j].runAt <= nanos / 1_000_000_000
                                     && j !in ids ==>
                      |ids| == (if limit <= 0 then 1 else limit)
                      && forall i :: 0 <= i < |ids| ==> Earlier(was, ids[i], j))
      ensures store.alone && res.Ok? && |res.value| < (if limit <= 0 then 1 else limit) ==>
                forall j :: 0 <= j < |store.jobs| ==>
                  !(store.jobs[j].state == Queued && store.jobs[j].runAt <= nanos / 1_000_000_000)
      ensures store.alone && res == Ok([]) ==> store.jobs == old(store.jobs)
    {
      hide Inv, Later, Perform, Sound, Seen, Last, LeasedSoFar, RoundIn, WonSince, Rest, WorkingIn, DueJobs,
        Continues, ByOthers, Earlier, UnderLease;
      tickets := [];
      NobodyMoved(store.run);
      if worker == "" {
        return Err(InvalidArgument), [];
      }
      var most := if limit <= 0 then 1 else limit;
      var candidates := DueJobs(store.jobs, Unix(nanos), most);
      CandidatesAreDue(store.jobs, Unix(nanos), most);
      ghost var was := store.jobs;
      var claimed;
      claimed, tickets := LeaseAll(candidates, worker, nanos);
      PickedAreCandidates(was, claimed, candidates);
      if store.alone {
        ClaimedIds(was, store.jobs, candidates, claimed, worker, Unix(nanos + lease));
        assert Ids(claimed) == candidates;
        if |claimed| < most {
          NothingDueIsLeft(was, store.jobs, candidates, claimed, Unix(nanos), worker, Unix(nanos + lease));
        }
      }
      res := Ok(claimed);
    }

    /** Leases the candidates one by one; one that is no longer due is skipped. */
    method LeaseAll(candidates: seq<nat>, worker: string, nanos: int) returns (claimed: seq<Claim>,
                                                                               ghost tickets: seq<Ticket>)
      requires store.Valid() && forall i, k :: 0 <= i < k < |candidates| ==> candidates[i] != candidates[k]
      requires forall i :: 0 <= i < |candidates| ==>
                 && candidates[i] < |store.jobs| && store.jobs[candidates[i]].state == Queued
                 && store.jobs[candidates[i]].runAt <= nanos / 1_000_000_000
      requires forall i, k :: 0 <= i < k < |candidates| ==> Earlier(store.jobs, candidates[i], candidates[k])
      modifies store
      ensures store.Valid() && ByOthers(store.run, old(store.run), {})
      ensures |claimed| <= |candidates| && RoundIn(Last(store.run), tickets, claimed, 0)
      ensures forall i :: 0 <= i < |tickets| ==> WonSince(old(store.jobs), tickets[i])
      ensures Picked(old(store.jobs), claimed, candidates, |candidates|)
      ensures store.alone ==>
                && |claimed| == |candidates|
                && LeasedSoFar(old(store.jobs), store.jobs, candidates, claimed, worker,
                               (nanos + lease) / 1_000_000_000)
    {
      hide Inv, Later, Perform, Sound, Seen, Last, LeasedSoFar, RoundIn, WonSince, Rest, WorkingIn,
        Continues, ByOthers, UnderLease, Earlier, Picked, ClaimOf, Unix, Distinct;
      NobodyMoved(store.run);
      ghost var was := store.jobs;
      var until := (nanos + lease) / 1_000_000_000;
      NothingLeasedYet(was, candidates, worker, until);
      NothingPicked(was, candidates);
      assert RoundIn(Last(store.run), [], [], 0) by {
        EmptyRound(Last(store.run));
      }
      claimed, tickets := [], [];
      ghost var start := store.run;
      for n := 0 to |candidates|
        invariant store.Valid() && ByOthers(store.run, start, {})
        invariant |claimed| == |tickets| <= n && RoundIn(Last(store.run), tickets, claimed, 0)
        invariant forall i :: 0 <= i < |tickets| ==> WonSince(was, tickets[i])
        invariant Picked(was, claimed, candidates, n)
        invariant store.alone ==> |claimed| == n && LeasedSoFar(was, store.jobs, candidates, claimed, worker, until)
      {
        ghost var mine := Rest(tickets, 0);
        RoundHolds(store, tickets, claimed, 0);
        ghost var before := store.run;
        if store.alone {
          OneMoreLeased(was, store.jobs, candidates, claimed, worker, until);
        }
        var c, t := ClaimOne(candidates[n], worker, nanos, mine);
        OneMorePicked(was, claimed, candidates, n, c);
        RoundStays(store.run, before, tickets, claimed, 0);
        if c.Some? {
          WonSinceBefore(before, start, {}, t);
          RoundGrows(Last(store.run), tickets, claimed, t, c.value);
          claimed := claimed + [c.value];
          tickets := tickets + [t];
        }
        ByOthersCompose(store.run, before, start, mine, {});
      }
    }

    // ---------- handlers ----------

    /** The handler returns without having written anything. */
    method Return(ghost t: Ticket, ghost c: Claim, ghost basis: Basis, ghost o: Outcome, ghost mine: set<Ticket>)
      requires store.Valid() && IsWorking(store, t, c) && t !in mine
      requires o.Finished? ==> NothingToDo(c.kind, basis)
      requires forall s :: s in Reads(ReturnFrom(t, c.ref, basis, o)) ==> Seen(store.run, s)
      modifies store`run
      ensures store.Valid() && ByOthers(store.run, old(store.run), mine) && HasReturned(store, t, c, o)
    {
      hide Inv, Later, Write, Seen, Reads;
      store.run := Then(store.run, ReturnFrom(t, c.ref, basis, o));
    }

    method CommitCharge(ghost t: Ticket, c: Claim, ghost party: Party, s: Settlement, reference: string, now: int,
                        wish: Outcome, ghost mine: set<Ticket>) returns (o: Outcome)
      requires store.Valid() && IsWorking(store, t, c) && t !in mine && c.kind == SettleParty
      requires DecideSettle(Some(party), Some(s)) == Charge
      requires Seen(store.run, PartyRow(c.ref, party)) && Seen(store.run, SettlementRow(c.ref, s))
      modifies store
      ensures store.Valid() && ByOthers(store.run, old(store.run), mine) && HasReturned(store, t, c, o)
      ensures o.Finished? || ExactlyOnce.FeeOf(old(store.State()), c.ref) == Some(s) ==>
                && c.ref in store.settlements && store.settlements[c.ref].state == Settled
                && store.settlements[c.ref].reference == reference && store.settlements[c.ref].settledAt == Some(now)
      ensures ExactlyOnce.FeeOf(old(store.State()), c.ref) == Some(s) ==>
                o == wish && Settles(old(store.State()), store.State(), c.ref, reference, now)
      ensures store.jobs == old(store.jobs)
    {
      hide Inv, Later, Write, Seen, Perform, Enabled, Reads, Allowed, WorkerStep, Sound, ByOthers, LeaseOf, Last;
      ghost var before := store.run;
      ChargeStep(before, t, c.ref, party, s, reference, now, wish, mine);
      if ExactlyOnce.FeeOf(store.State(), c.ref) == Some(s) {
        ChargeInWords(store.State(), c.ref, reference, now);
      }
      var done := store.ApplySettlement(c.ref, SettlementChange(s.version, Settled, reference, "", Some(now)));
      o := if done.Ok? then wish else Failure(done.code, false);
      store.run := Then(before, ChargeFee(t, c.ref, party, s, reference, now, wish));
    }

    /** What the handler does with the two rows it read. */
    method DecideOnFee(ghost t: Ticket, c: Claim, party: Option<Party>, settlement: Option<Settlement>,
                       reference: string, now: int, f: Faults, ghost mine: set<Ticket>) returns (o: Outcome)
      requires store.Valid() && IsWorking(store, t, c) && c.kind == SettleParty && t !in mine
      requires party.Some? ==> Seen(store.run, PartyRow(c.ref, party.value))
      requires settlement.Some? ==> Seen(store.run, SettlementRow(c.ref, settlement.value))
      modifies store
      ensures store.Valid() && ByOthers(store.run, old(store.run), mine) && HasReturned(store, t, c, o)
      ensures o.Finished? ==> c.ref in store.settlements && Final(store.settlements[c.ref].state)
      ensures !DecideSettle(party, settlement).Charge? ==> store.State() == old(store.State())
      ensures store.jobs == old(store.jobs)
      ensures match DecideSettle(party, settlement)
              case Refuse(code) => o == Failure(code, false)
              case AlreadyFinal => o == Wish(f)
              case Charge =>
                settlement == ExactlyOnce.FeeOf(old(store.State()), c.ref) ==>
                  && o == Wish(f)
                  && c.ref in store.settlements && store.settlements[c.ref].state == Settled
                  && store.settlements[c.ref].reference == reference
      ensures party == RowAt(old(store.parties), c.ref)
              && settlement == ExactlyOnce.FeeOf(old(store.State()), c.ref) ==>
                if c.ref < |old(store.parties)| && old(store.parties)[c.ref].state == Completed
                   && c.ref in old(store.settlements) then
                  o == Wish(f) && Settles(old(store.State()), store.State(), c.ref, reference, now)
                else
                  && o == Failure(if c.ref < |old(store.parties)| && old(store.parties)[c.ref].state != Completed
                                  then StateInvalid else NotFound, false)
                  && store.State() == old(store.State())
    {
      hide Inv, Later, Perform, Sound, Seen, ByOthers, Last, Holds, Settles;
      if party == RowAt(store.parties, c.ref) && settlement == ExactlyOnce.FeeOf(store.State(), c.ref) {
        SettlingInWords(store.State(), c.ref);
      }
      match DecideSettle(party, settlement)
      case Refuse(code) =>
        o := Failure(code, false);
        Return(t, c, NoBasis, o, mine);
      case AlreadyFinal =>
        o := Wish(f);
        FinalFeesStay(store.run, c.ref, settlement.value);
        Return(t, c, FeeBasis(party.value, settlement.value), o, mine);
      case Charge =>
        o := CommitCharge(t, c, party.value, settlement.value, reference, now, Wish(f), mine);
    }

    /** Party and settlement are two separate readings. */
    method ReadPartyAndFee(ghost t: Ticket, c: Claim, ghost mine: set<Ticket>)
      returns (party: Option<Party>, settlement: Option<Settlement>)
      requires store.Valid() && IsWorking(store, t, c) && Held(store, mine) && t !in mine
      modifies store
      ensures store.Valid() && ByOthers(store.run, old(store.run), mine) && IsWorking(store, t, c)
      ensures party.Some? ==> Seen(store.run, PartyRow(c.ref, party.value))
      ensures settlement.Some? ==> Seen(store.run, SettlementRow(c.ref, settlement.value))
      ensures store.alone ==>
                && party == RowAt(old(store.parties), c.ref) && settlement == ExactlyOnce.FeeOf(old(store.State()),
                                                                                                c.ref)
                && store.State() == old(store.State())
    {
      hide Inv, Later, Perform, Sound, Seen, ByOthers, Last;
      ghost var start, all := store.run, mine + {t};
      party := RowAt(store.parties, c.ref);
      if party.Some? {
        JustRead(store.run, PartyRow(c.ref, party.value));
      }
      store.Pause(all);
      ghost var middle := store.run;
      settlement := ExactlyOnce.FeeOf(store.State(), c.ref);
      if settlement.Some? {
        JustRead(store.run, SettlementRow(c.ref, settlement.value));
      }
      store.Pause(all);
      ByOthersCompose(store.run, middle, start, all, mine);
    }

    /** Settles the fee of a completed party. */
    method HandleSettleParty(ghost t: Ticket, c: Claim, reference: string, now: int, f: Faults, ghost mine: set<Ticket>)
      returns (o: Outcome)
      requires store.Valid() && IsWorking(store, t, c) && c.kind == SettleParty && Held(store, mine) && t !in mine
      modifies store
      ensures store.Valid() && ByOthers(store.run, old(store.run), mine) && HasReturned(store, t, c, o)
      ensures o.Finished? ==>
                c.ref in store.settlements && store.settlements[c.ref].state in {Settled, Waived}
      ensures store.alone && f == SMOOTH ==>
                if c.ref < |old(store.parties)| && old(store.parties)[c.ref].state == Completed
                   && c.ref in old(store.settlements) then
                  o == Finished && Settles(old(store.State()), store.State(), c.ref, reference, now)
                else
                  && o == Failure(if c.ref < |old(store.parties)| && old(store.parties)[c.ref].state != Completed
                                  then StateInvalid else NotFound, false)
                  && store.State() == old(store.State())
      ensures store.alone ==> store.jobs == old(store.jobs)
      ensures f.early.Some? ==> o == f.early.value.AsOutcome()
    {
      hide Inv, Later, Perform, Sound, Seen, ByOthers, DecideSettle, Last, HasReturned, IsWorking, Settles;
      ghost var start := store.run;
      var party, settlement := ReadPartyAndFee(t, c, mine);
      ghost var last := store.run;
      if f.early.Some? {
        o := f.early.value.AsOutcome();
        Return(t, c, NoBasis, o, mine);
      } else {
        o := DecideOnFee(t, c, party, settlement, reference, now, f, mine);
      }
      ByOthersCompose(store.run, last, start, mine, mine);
    }

    method HandOffTransaction(id: nat, i: Incident, now: int) returns (res: Result<()>)
      modifies store
      ensures Did(res, EscalateTx(old(store.State()), id, i, jobMaxAttempts, now), old(store.State()), store.State())
      ensures store.run == old(store.run)
    {
      var saved := store.State();
      res := store.ApplyIncident(id, IncidentChange(i.version, Escalated, i.count + 1, i.resolution, None));
      if res.Ok? && i.count + 1 < MaxEscalations(i.severity) {
        res := store.Enqueue(NewJob(EscalateIncident, id, jobMaxAttempts, now + EscalationDelay(i.severity)));
      }
      if res.Err? {
        store.Restore(saved);
      }
    }

    method CommitHandOff(ghost t: Ticket, c: Claim, i: Incident, now: int, wish: Outcome, ghost mine: set<Ticket>)
      returns (o: Outcome)
      requires store.Valid() && IsWorking(store, t, c) && t !in mine && c.kind == EscalateIncident
      requires DecideEscalate(i) == HandOff && Seen(store.run, IncidentRow(c.ref, i))
      modifies store
      ensures store.Valid() && ByOthers(store.run, old(store.run), mine) && HasReturned(store, t, c, o)
      ensures o.Finished? ==> c.ref < |store.incidents| && store.incidents[c.ref].count == i.count + 1
      ensures old(store.jobs) <= store.jobs
      ensures c.ref < |old(store.incidents)| && old(store.incidents)[c.ref] == i ==>
                if CanRise(i, 2) && jobMaxAttempts <= 0 then
                  o == Failure(InvalidArgument, false) && store.State() == old(store.State())
                else o == wish && Escalates(old(store.State()), store.State(), c.ref, jobMaxAttempts, now)
    {
      hide Inv, Later, Write, Seen, Perform, Enabled, Reads, Allowed, WorkerStep, Sound, ByOthers, LeaseOf, Last,
        Escalates, CanRise, EscalateTx, DecideEscalate;
      ghost var before := store.run;
      HandOffHappens(before, t, c.ref, i, jobMaxAttempts, now, wish, mine);
      if c.ref < |store.incidents| && store.incidents[c.ref] == i {
        HandOffInWords(store.State(), c.ref, jobMaxAttempts, now);
      }
      HandOffCounts(store.State(), c.ref, i, jobMaxAttempts, now);
      var done := HandOffTransaction(c.ref, i, now);
      o := if done.Ok? then wish else Failure(done.code, false);
      store.run := Then(before, Escalate(t, c.ref, i, jobMaxAttempts, now, wish));
    }

    /** One escalation hand-off. Finding the incident handled, or its cap reached,
        ends the chain without an error. */
    method HandleEscalateIncident(ghost t: Ticket, c: Claim, now: int, f: Faults, ghost mine: set<Ticket>)
      returns (o: Outcome)
      requires store.Valid() && IsWorking(store, t, c) && c.kind == EscalateIncident && Held(store, mine) && t !in mine
      modifies store
      ensures store.Valid() && ByOthers(store.run, old(store.run), mine) && HasReturned(store, t, c, o)
      ensures store.alone && f == SMOOTH ==>
                if c.ref >= |old(store.incidents)| then
                  o == Failure(NotFound, false) && store.State() == old(store.State())
                else if CanRise(old(store.incidents)[c.ref], 2) && jobMaxAttempts <= 0 then
                  o == Failure(InvalidArgument, false) && store.State() == old(store.State())
                else
                  o == Finished && Escalates(old(store.State()), store.State(), c.ref, jobMaxAttempts, now)
      ensures store.alone ==> old(store.jobs) <= store.jobs
      ensures f.early.Some? ==> o == f.early.value.AsOutcome()
    {
      hide Inv, Later, Perform, Sound, Seen, CanRise, DecideEscalate;
      ghost var start := store.run;
      if f.early.Some? || c.ref >= |store.incidents| {
        o := if f.early.Some? then f.early.value.AsOutcome() else Failure(NotFound, false);
        Return(t, c, NoBasis, o, mine);
        return;
      }
      var i := store.incidents[c.ref];
      JustRead(store.run, IncidentRow(c.ref, i));
      RisesInWords(i);
      if DecideEscalate(i) != HandOff {
        o := if DecideEscalate(i) == AlreadyHandled then Wish(f) else Finished;
        Return(t, c, IncidentBasis(i), o, mine);
        return;
      }
      store.Pause(mine + {t});
      ghost var last := store.run;
      o := CommitHandOff(t, c, i, now, Wish(f), mine);
      ByOthersShrink(last, start, mine + {t}, mine);
      ByOthersCompose(store.run, last, start, mine, mine);
    }

    // ---------- outcomes ----------

    method ReportDone(ghost t: Ticket, c: Claim, ghost mine: set<Ticket>) returns (res: Result<()>)
      requires store.Valid() && HasReturned(store, t, c, Finished) && t !in mine
      modifies store
      ensures store.Valid() && ByOthers(store.run, old(store.run), mine) && t !in Last(store.run).workers
      ensures Did(res, Repositories.MarkDone(old(store.jobs), c.id), old(store.jobs), store.jobs)
      ensures c.id < |old(store.jobs)|
      ensures var job := old(store.jobs)[c.id];
              store.State() == if job.state != Running then old(store.State()) else
                old(store.State()).(jobs := old(store.jobs)[c.id := job.(state := Done, lockedBy := "",
                                                                         lockedUntil := None)])
      ensures store.run == Then(old(store.run), Action.ReportDone(t)) && store.settlements == old(store.settlements)
    {
      hide Inv, Later, Write, Seen, Perform, Enabled, Reads, Allowed, WorkerStep, Sound, ByOthers, LeaseOf, Last;
      ghost var before := store.run;
      DoneStep(before, t, mine);
      res := store.MarkDone(c.id);
      store.run := Then(before, Action.ReportDone(t));
    }

    /** Parks a job for good or queues it again after the capped exponential delay.
        The report counts only while the job is running, whoever holds its lease. */
    method ReportFailure(ghost t: Ticket, c: Claim, o: Outcome, nanos: int,
                         ghost mine: set<Ticket>) returns (parked: bool)
      requires store.Valid() && HasReturned(store, t, c, o) && o.Failure? && t !in mine && 0 < base
      modifies store
      ensures store.Valid() && ByOthers(store.run, old(store.run), mine)
      ensures parked && c.kind == SettleParty ==> LeaseFor(store, t, c) && Last(store.run).workers[t].Hooked?
      ensures !(parked && c.kind == SettleParty) ==> t !in Last(store.run).workers
      ensures FailureRecorded(old(store.jobs), store.jobs, c, o, nanos, base, cap, parked)
      ensures store.run == Then(old(store.run), Action.ReportFailure(t, base, cap, nanos))
    {
      hide Inv, Later, Write, Seen, Perform, Enabled, Reads, Allowed, WorkerStep, Sound, ByOthers, LeaseOf, Last, Delay;
      ghost var before := store.run;
      FailureStep(before, t, base, cap, nanos, mine);
      var permanent := Permanent(c.attempts, c.maxAttempts, o);
      var delay, _ := ComputeBackoff(c.attempts, base, cap);
      var done := store.MarkFailure(c.id, permanent, Unix(if permanent then nanos else nanos + delay));
      parked := done.Ok? && permanent;
      store.run := Then(before, Action.ReportFailure(t, base, cap, nanos));
    }

    /** The failure hook of a settlement job: a fee that is still pending is parked. */
    method ParkFee(ghost t: Ticket, c: Claim, note: string, ghost mine: set<Ticket>)
      requires store.Valid() && LeaseFor(store, t, c) && Last(store.run).workers[t].Hooked?
      requires Held(store, mine) && t !in mine
      modifies store
      ensures store.Valid() && ByOthers(store.run, old(store.run), mine)
      ensures var fee := ExactlyOnce.FeeOf(old(store.State()), c.ref);
              if fee.Some? && fee.value.state == Pending then
                && store.run.Then? && ByOthers(store.run.past, old(store.run), mine + {t})
                && Last(store.run) == FeeParked(Last(store.run.past), t, c.ref, fee.value, note)
                && (store.alone ==> store.State() == old(store.State()).(settlements :=
                      old(store.settlements)[c.ref := fee.value.(state := Parked, reference := "", note := note,
                                                                 settledAt := None,
                                                                 version := fee.value.version + 1)]))
              else store.run == old(store.run) && store.State() == old(store.State())
      ensures store.alone ==> store.jobs == old(store.jobs)
      ensures ClosedIn(Last(store.run), t)
    {
      hide Inv, Later, Write, Seen, Perform, Enabled, Reads, Allowed, WorkerStep, Sound, LeaseOf, Last;
      ghost var start := store.run;
      if c.ref !in store.settlements {
        return;
      }
      var current := store.settlements[c.ref];
      if current.state != Pending {
        return;
      }
      JustRead(store.run, SettlementRow(c.ref, current));
      store.Pause(mine + {t});
      ghost var last := store.run;
      ParkStep(last, t, c.ref, current, note, mine);
      var _ := store.ApplySettlement(c.ref, Parking(current, note));
      store.run := Then(last, Action.ParkFee(t, c.ref, current, note));
      ByOthersShrink(last, start, mine + {t}, mine);
      ByOthersCompose(store.run, last, start, mine, mine);
    }

    // ---------- the loop ----------

    /** Runs the handler of a job's kind. */
    method Handle(ghost t: Ticket, c: Claim, reference: string, now: int, f: Faults, ghost mine: set<Ticket>)
      returns (o: Outcome)
      requires store.Valid() && IsWorking(store, t, c) && Held(store, mine) && t !in mine
      modifies store
      ensures store.Valid() && ByOthers(store.run, old(store.run), mine) && HasReturned(store, t, c, o)
      ensures store.alone && f == SMOOTH ==> (o.Finished? <==> Succeeds(old(store.State()), c, jobMaxAttempts))
      ensures store.alone && f == SMOOTH && o.Failure? ==> o.code in {NotFound, InvalidArgument, StateInvalid}
      ensures store.alone ==> old(store.jobs) <= store.jobs
      ensures f.early.Some? ==> o == f.early.value.AsOutcome()
      ensures o.Finished? && c.kind == SettleParty ==>
                c.ref in store.settlements && store.settlements[c.ref].state in {Settled, Waived}
    {
      hide Inv, Later, Perform, Sound, Seen, ByOthers, Last, DecideSettle, DecideEscalate, Settles, Escalates, CanRise;
      match c.kind {
        case SettleParty => o := HandleSettleParty(t, c, reference, now, f, mine);
        case EscalateIncident => o := HandleEscalateIncident(t, c, now, f, mine);
        case _ =>
          o := if f.early.Some? then f.early.value.AsOutcome() else Finished;
          Return(t, c, NoBasis, o, mine);
      }
    }

    /** Runs one claimed job and records what became of it: undisturbed and without faults,
        the job is done if its handler can succeed and parked for good if not. */
    method Execute(ghost t: Ticket, c: Claim, reference: string, note: string, nanos: int, f: Faults,
                   ghost mine: set<Ticket>)
      returns (ghost o: Outcome, ghost before: Run)
      requires store.Valid() && IsWorking(store, t, c) && Held(store, mine) && t !in mine && 0 < base
      modifies store
      ensures store.Valid() && ByOthers(store.run, old(store.run), mine)
      ensures store.alone && f == SMOOTH && old(store.jobs)[c.id].state == Running ==>
                && c.id < |store.jobs|
                && store.jobs[c.id].state == if Succeeds(old(store.State()), c, jobMaxAttempts) then Done else Failed
      ensures ClosedIn(Last(store.run), t)
      ensures Recorded(store.run, before, old(store.run), t, c, o, base, cap, nanos)
      ensures f.early.Some? ==> o == f.early.value.AsOutcome()
      ensures o.Finished? && c.kind == SettleParty ==>
                c.ref in store.settlements && store.settlements[c.ref].state in {Settled, Waived}
    {
      hide Inv, Later, Perform, Sound, Seen, ByOthers, Succeeds, Unix, Last, Continues, ClosedIn;
      ghost var start := store.run;
      var outcome := Handle(t, c, reference, Unix(nanos), f, mine);
      o := outcome;
      ghost var middle := store.run;
      OthersKeepKnowledge(middle, start, mine);
      store.Pause(mine + {t});
      ByOthersCompose(store.run, middle, start, mine + {t}, mine);
      before := store.run;
      OthersContinue(before, start, mine);
      if o.Finished? && c.kind == SettleParty {
        FinalFeesStayFinal(before, middle, c.ref, mine + {t});
      }
      RecordOutcome(t, c, outcome, note, nanos, mine);
      ByOthersCompose(store.run, before, start, mine, mine);
    }

    /** Reports an outcome; a settlement job that was parked runs its failure hook. */
    method RecordOutcome(ghost t: Ticket, c: Claim, o: Outcome, note: string, nanos: int, ghost mine: set<Ticket>)
      requires store.Valid() && HasReturned(store, t, c, o) && Held(store, mine) && t !in mine && 0 < base
      modifies store
      ensures store.Valid() && ByOthers(store.run, old(store.run), mine)
      ensures Continues(store.run, Then(old(store.run), ReportOf(t, o, base, cap, nanos)))
      ensures o.Finished? ==> store.settlements == old(store.settlements)
      ensures ClosedIn(Last(store.run), t)
      ensures store.alone && old(store.jobs)[c.id].state == Running ==>
                && c.id < |store.jobs|
                && store.jobs[c.id].state ==
                     if o.Finished? then Done
                     else if o.canceled || o.code in {NotFound, InvalidArgument, PermissionDenied, StateInvalid}
                             || c.attempts >= c.maxAttempts then Failed
                     else Queued
    {
      hide Inv, Later, Perform, Sound, Seen, ByOthers, Delay, Unix, Permanent;
      ghost var start := store.run;
      if o.Finished? {
        var _ := ReportDone(t, c, mine);
      } else {
        var parked := ReportFailure(t, c, o, nanos, mine);
        if parked && c.kind == SettleParty {
          ghost var reported := store.run;
          OthersKeepKnowledge(reported, start, mine);
          ParkFee(t, c, note, mine);
          OthersContinue(store.run, reported, mine);
          ByOthersCompose(store.run, reported, start, mine, mine);
        }
      }
    }

    /** Executes the claimed jobs one after the other. */
    method ExecuteAll(claimed: seq<Claim>, ghost tickets: seq<Ticket>, reference: string, note: string, nanos: int,
                      faults: nat -> Faults)
      requires store.Valid() && RoundIn(Last(store.run), tickets, claimed, 0) && 0 < base
      modifies store
      ensures store.Valid() && ByOthers(store.run, old(store.run), {})
      ensures RoundIn(Last(store.run), tickets, claimed, |claimed|)
    {
      hide Inv, Later, Perform, Sound, Seen, Last, RoundIn, Rest, OverIn, WorkingIn, ClosedIn;
      ghost var start := store.run;
      RoundSize(Last(start), tickets, claimed, 0);
      for n := 0 to |claimed|
        invariant store.Valid() && ByOthers(store.run, start, {})
        invariant RoundIn(Last(store.run), tickets, claimed, n)
      {
        ghost var mine, before := Rest(tickets, n + 1), store.run;
        RoundHolds(store, tickets, claimed, n);
        ghost var _, _ := Execute(tickets[n], claimed[n], reference, note, nanos, faults(n), mine);
        RoundAdvances(store.run, before, tickets, claimed, n);
        ByOthersCompose(store.run, before, start, mine, {});
      }
    }

    /** One round: expired leases go back, then at most one batch of due jobs runs.
        Each of its leases was won in this round and is over at its end. */
    method Poll(worker: string, reference: string, note: string, nanos: int, faults: nat -> Faults)
      returns (processed: nat, ghost tickets: seq<Ticket>)
      requires store.Valid() && 0 < base
      modifies store
      ensures store.Valid() && ByOthers(store.run, old(store.run), {})
      ensures 0 < batch ==> processed <= batch
      ensures |tickets| == processed && Distinct(tickets)
      ensures forall i :: 0 <= i < |tickets| ==> WonSince(old(store.jobs), tickets[i]) && OverIn(Last(store.run),
                                                                                                 tickets[i])
      ensures store.alone && worker != "" && processed == 0 ==>
                var second := nanos / 1_000_000_000;
                forall j :: 0 <= j < |old(store.jobs)| && old(store.jobs)[j].runAt <= second ==>
                  var job := old(store.jobs)[j];
                  && job.state != Queued
                  && !(job.state == Running && job.lockedUntil.Some? && job.lockedUntil.value <= second)
    {
      hide Inv, Later, Perform, Sound, Seen, Last, WonSince, OverIn, WorkingIn;
      ghost var start := store.run;
      var _ := Reclaim(nanos, {});
      ghost var reclaimed := store.run;
      var res;
      res, tickets := ClaimDue(worker, nanos, batch);
      if res.Err? {
        ByOthersCompose(store.run, reclaimed, start, {}, {});
        return 0, [];
      }
      forall i | 0 <= i < |tickets| ensures WonSince(old(store.jobs), tickets[i]) {
        WonSinceBefore(reclaimed, start, {}, tickets[i]);
      }
      ByOthersCompose(store.run, reclaimed, start, {}, {});
      ghost var claimed := store.run;
      ExecuteAll(res.value, tickets, reference, note, nanos, faults);
      ByOthersCompose(store.run, claimed, start, {}, {});
      processed := |res.value|;
    }
  }

  lemma RoundSize(w: World, tickets: seq<Ticket>, claimed: seq<Claim>, n: nat)
    requires RoundIn(w, tickets, claimed, n)
    ensures n <= |tickets| == |claimed|
  {
  }
}
