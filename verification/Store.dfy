/** The database as the repositories see it: tables updated in place, one method
    per statement, each doing exactly what its specification function says.
    `run` is the history of all clients together; `Valid` ties the tables to it. */
module Storage {
  import opened Errors
  import opened Domain
  import opened Tables
  import R = Repositories
  import opened Transactions
  import opened Runs
  import opened Invariants
  import opened Safety
  import opened ExactlyOnce

  /** A write did what its specification says: the new value on success, the old
      one and the right error otherwise. */
  ghost predicate Did<T(!new)>(res: Result<()>, spec: Result<T>, before: T, after: T) {
    && (spec.Ok? ==> res.Ok? && after == spec.value)
    && (spec.Err? ==> res == Err(spec.code) && after == before)
  }

  lemma JustRead(run: Run, s: Snapshot)
    requires Holds(Last(run).db, s)
    ensures Seen(run, s)
  {
  }

  /** The lease an action is about, if any. */
  function LeaseOf(a: Action): Option<Ticket> {
    match a
    case ReadBack(t) => Some(t)
    case ChargeFee(t, _, _, _, _, _, _) => Some(t)
    case Escalate(t, _, _, _, _, _) => Some(t)
    case ReturnFrom(t, _, _, _) => Some(t)
    case ReportDone(t) => Some(t)
    case ReportFailure(t, _, _, _) => Some(t)
    case ParkFee(t, _, _, _) => Some(t)
    case _ => None
  }

  /** `later` continues `run` by actions of others: none uses a lease in `mine`. */
  ghost predicate ByOthers(later: Run, run: Run, mine: set<Ticket>) {
    later == run
    || (later.Then? && ByOthers(later.past, run, mine)
        && (LeaseOf(later.act).Some? ==> LeaseOf(later.act).value !in mine))
  }

  /** What a client still knows after any number of actions of others. */
  ghost predicate StillKnown(later: Run, run: Run, mine: set<Ticket>) {
    && (forall r :: Continues(run, r) ==> Continues(later, r))
    && (forall s :: Seen(run, s) ==> Seen(later, s))
    && (forall t :: t in mine && t in Last(run).workers && t.job < |Last(run).db.jobs| ==>
          && t in Last(later).workers && Last(later).workers[t] == Last(run).workers[t]
          && t.job < |Last(later).db.jobs|
          && Last(later).db.jobs[t.job].kind == Last(run).db.jobs[t.job].kind
          && Last(later).db.jobs[t.job].ref == Last(run).db.jobs[t.job].ref
          && Last(later).db.jobs[t.job].maxAttempts == Last(run).db.jobs[t.job].maxAttempts)
  }

  lemma {:induction false} ContinuesTransitive(c: Run, b: Run, a: Run)
    requires Continues(c, b) && Continues(b, a)
    ensures Continues(c, a)
    decreases c
  {
    if c != b {
      ContinuesTransitive(c.past, b, a);
    }
  }

  lemma {:induction false} SawStays(later: Run, run: Run, db: Db)
    requires Continues(later, run) && Saw(run, db)
    ensures Saw(later, db)
    decreases later
  {
    if later != run {
      SawStays(later.past, run, db);
    }
  }

  lemma NobodyMoved(run: Run)
    ensures forall mine :: ByOthers(run, run, mine)
  {
  }

  lemma {:induction false} ByOthersShrink(later: Run, run: Run, mine: set<Ticket>, fewer: set<Ticket>)
    requires ByOthers(later, run, mine) && fewer <= mine
    ensures ByOthers(later, run, fewer)
    decreases later
  {
    if later != run {
      ByOthersShrink(later.past, run, mine, fewer);
    }
  }

  /** Whatever others did, every row is a later version of what it was. */
  lemma OthersAreLater(later: Run, run: Run, mine: set<Ticket>)
    requires Sound(later) && ByOthers(later, run, mine)
    ensures Continues(later, run) && Later(Last(run).db, Last(later).db)
  {
    hide Inv, Later, Last, Sound;
    OthersContinue(later, run, mine);
    SawStays(later, run, Last(run).db);
    ReachableStatesAreSafe(later);
  }

  lemma {:induction false} OthersContinue(later: Run, run: Run, mine: set<Ticket>)
    requires ByOthers(later, run, mine)
    ensures Continues(later, run)
    decreases later
  {
    if later != run {
      OthersContinue(later.past, run, mine);
    }
  }

  /** The lease is given up, or waits for nothing but its failure hook. */
  predicate ClosedIn(w: World, t: Ticket) {
    t !in w.workers || w.workers[t].Hooked?
  }

  /** A lease that is closed stays closed, as its number is never issued again. */
  lemma ClosedStep(w: World, a: Action, t: Ticket)
    requires Enabled(w, a) && ClosedIn(w, t)
    requires t.job < |w.db.jobs| && t.claim <= w.db.jobs[t.job].attempts
    ensures ClosedIn(Perform(w, a), t)
  {
    hide Write, Commit, SettlementTx, EscalateTx, JobsTx, R.MarkDone, R.MarkFailure, R.ReclaimExpired;
  }

  lemma {:induction false} ClosedStays(later: Run, run: Run, mine: set<Ticket>, t: Ticket)
    requires Sound(later) && ByOthers(later, run, mine) && ClosedIn(Last(run), t)
    requires t.job < |Last(run).db.jobs| && t.claim <= Last(run).db.jobs[t.job].attempts
    ensures ClosedIn(Last(later), t)
    decreases later
  {
    hide Enabled, Perform, ClosedIn, Inv, Reads, Seen;
    if later != run {
      ClosedStays(later.past, run, mine, t);
      OthersAreLater(later.past, run, mine);
      assert JobLater(Last(run).db.jobs[t.job], Last(later.past).db.jobs[t.job]);
      ClosedStep(Last(later.past), later.act, t);
    }
  }

  /** Two stretches of other clients' actions make one. */
  lemma {:induction false} ByOthersCompose(c: Run, b: Run, a: Run, more: set<Ticket>, mine: set<Ticket>)
    requires ByOthers(c, b, more) && mine <= more && (ByOthers(b, a, mine) || ByOthers(b, a, more))
    ensures ByOthers(c, a, mine)
    decreases c
  {
    if !ByOthers(b, a, mine) {
      ByOthersShrink(b, a, more, mine);
    }
    if c != b {
      ByOthersCompose(c.past, b, a, more, mine);
    }
  }

  lemma SeenStays(run: Run, a: Action)
    ensures forall s :: Seen(run, s) ==> Seen(Then(run, a), s)
  {
  }

  /** A service's transaction at the end of the history. */
  lemma ServiceStep(run: Run, a: Action)
    requires Sound(run) && Allowed(run, a) && ByService(a)
    ensures Sound(Then(run, a)) && Continues(Then(run, a), run)
    ensures Last(Then(run, a)).db == Commit(Last(run).db, Write(Last(run).db, a))
    ensures forall s :: Seen(run, s) ==> Seen(Then(run, a), s)
    ensures forall r :: Continues(run, r) ==> Continues(Then(run, a), r)
  {
    hide Write, WorkerStep, Allowed, Inv, Later, Commit;
    SeenStays(run, a);
  }

  lemma OneActionKeepsLeases(run: Run, a: Action, mine: set<Ticket>)
    requires Sound(run) && Allowed(run, a)
    requires LeaseOf(a).Some? ==> LeaseOf(a).value !in mine
    requires forall t :: t in mine ==> t in Last(run).workers
    ensures forall t :: t in mine ==>
      t in Perform(Last(run), a).workers && Perform(Last(run), a).workers[t] == Last(run).workers[t]
  {
    hide Write, Later, Inv, Enabled;
    if a.Claim? && R.Lease(Last(run).db.jobs, a.j, a.worker, a.until, a.now).Ok? {
      LeasesAreNew(run, a.j, a.worker, a.until, a.now);
    }
  }

  /** Whatever others did in between, a client's readings stay readings of the
      past, and the leases it holds are in the phase it left them in. */
  lemma {:induction false} OthersKeepKnowledge(later: Run, run: Run, mine: set<Ticket>)
    requires Sound(later) && ByOthers(later, run, mine)
    requires forall t :: t in mine ==> t in Last(run).workers && t.job < |Last(run).db.jobs|
    ensures Sound(run) && StillKnown(later, run, mine)
    decreases later
  {
    hide Perform, Inv, Allowed;
    if later != run {
      OthersKeepKnowledge(later.past, run, mine);
      SeenStays(later.past, later.act);
      OneActionKeepsLeases(later.past, later.act, mine);
      ReachableStatesAreSafe(later);
      assert Saw(later, Last(later.past).db);
      forall t | t in mine ensures JobLater(Last(later.past).db.jobs[t.job], Last(later).db.jobs[t.job]) {
      }
    }
  }

  /** The jobs before the `n`-th whose lease has expired. */
  ghost function ExpiredBelow(js: seq<Job>, n: nat, now: int): set<nat>
    requires n <= |js|
  {
    set j: nat | j < n && R.Expired(js[j], now)
  }

  lemma NoneExpired(js: seq<Job>, now: int)
    ensures ExpiredBelow(js, 0, now) == {}
  {
  }

  lemma ExpiredInWords(js: seq<Job>, now: int)
    ensures ExpiredBelow(js, |js|, now)
         == set j | 0 <= j < |js| && js[j].state == Running && js[j].lockedUntil.Some? && js[j].lockedUntil.value <= now
    ensures forall j :: 0 <= j < |js| ==>
              R.Reclaimed(js[j], now) ==
                if js[j].state == Running && js[j].lockedUntil.Some? && js[j].lockedUntil.value <= now
                then js[j].(state := Queued, lockedBy := "", lockedUntil := None) else js[j]
  {
  }

  lemma OneMoreExpired(js: seq<Job>, n: nat, now: int)
    requires n < |js|
    ensures |ExpiredBelow(js, n + 1, now)| == |ExpiredBelow(js, n, now)| + if R.Expired(js[n], now) then 1 else 0
  {
    assert ExpiredBelow(js, n + 1, now) == ExpiredBelow(js, n, now) + if R.Expired(js[n], now) then {n} else {};
  }

  class Store {
    var windows: seq<Window>
    var parties: seq<Party>
    var rosters: map<nat, Roster>
    var reports: map<(nat, int), Progress>
    var settlements: map<nat, Settlement>
    var incidents: seq<Incident>
    var jobs: seq<Job>
    var records: map<Key, Record>
    ghost var run: Run

    /** No other client is active: for statements about one call on its own. */
    ghost const alone: bool

    constructor (ghost alone: bool)
      ensures Valid() && run == Start && this.alone == alone
    {
      this.alone := alone;
      windows, parties, rosters, reports := [], [], map[], map[];
      settlements, incidents, jobs, records := map[], [], [], map[];
      run := Start;
    }

    function State(): Db
      reads this
    {
      Db(windows, parties, rosters, reports, settlements, incidents, jobs, records)
    }

    /** The tables are what the history of all clients has made of them. */
    ghost predicate Valid()
      reads this
    {
      Sound(run) && Last(run).db == State()
    }

    /** Rolls every table back to a saved state. */
    method Restore(saved: Db)
      modifies this
      ensures State() == saved && run == old(run)
    {
      windows, parties, rosters, reports := saved.windows, saved.parties, saved.rosters, saved.reports;
      settlements, incidents, jobs, records := saved.settlements, saved.incidents, saved.jobs, saved.records;
    }

    /** Other clients and workers take any number of allowed actions, except with
        the leases of the caller. Callers see only this contract, so what they
        prove holds for every interleaving; the body is the case of no action. */
    method Interfere(ghost mine: set<Ticket>)
      requires Valid()
      modifies this
      ensures Valid() && ByOthers(run, old(run), mine)
      ensures alone ==> run == old(run)
    {
    }

    /** A client pauses between two accesses to the database. */
    method Pause(ghost mine: set<Ticket>)
      requires Valid() && forall t :: t in mine ==> t in Last(run).workers && t.job < |jobs|
      modifies this
      ensures Valid() && ByOthers(run, old(run), mine) && StillKnown(run, old(run), mine)
      ensures alone ==> run == old(run) && State() == old(State())
    {
      ghost var before := run;
      Interfere(mine);
      OthersKeepKnowledge(run, before, mine);
    }

    // ---------- permit windows ----------

    method ReserveSeats(id: nat, expected: nat, seats: int) returns (res: Result<()>)
      modifies this`windows
      ensures Did(res, R.ReserveSeats(old(windows), id, expected, seats), old(windows), windows)
    {
      if seats <= 0 {
        return Err(InvalidArgument);
      }
      if id < |windows| {
        var w := windows[id];
        if w.version == expected && w.closedAt.None? && w.reserved + seats <= w.total {
          windows := windows[id := w.(reserved := w.reserved + seats, version := w.version + 1)];
          return Ok(());
        }
      }
      if id >= |windows| {
        return Err(NotFound);
      }
      if windows[id].version != expected {
        return Err(VersionConflict);
      }
      res := R.CanReserve(windows[id], seats);
      if res.Ok? {
        res := Err(Conflict);
      }
    }

    method ReleaseSeats(id: nat, seats: int) returns (res: Result<()>)
      modifies this`windows
      ensures Did(res, R.ReleaseSeats(old(windows), id, seats), old(windows), windows)
    {
      if seats <= 0 {
        return Err(InvalidArgument);
      }
      if id >= |windows| || windows[id].reserved < seats {
        return Err(Conflict);
      }
      var w := windows[id];
      windows := windows[id := w.(reserved := w.reserved - seats, version := w.version + 1)];
      res := Ok(());
    }

    method CloseWindow(id: nat, at: int) returns (res: Result<()>)
      modifies this`windows
      ensures Did(res, R.CloseWindow(old(windows), id, at), old(windows), windows)
    {
      if id >= |windows| || windows[id].closedAt.Some? {
        return Err(StateInvalid);
      }
      var w := windows[id];
      windows := windows[id := w.(closedAt := Some(at), version := w.version + 1)];
      res := Ok(());
    }

    method FindWindow(trail: nat, day: int) returns (found: Option<nat>)
      ensures found == R.FindWindow(windows, trail, day)
    {
      found := None;
      for i := 0 to |windows|
        invariant found == R.FindWindow(windows[..i], trail, day)
      {
        assert windows[..i + 1][..i] == windows[..i];
        if windows[i].trail == trail && windows[i].day == day {
          found := Some(i);
        }
      }
      assert windows[..|windows|] == windows;
    }

    method InsertWindow(trail: nat, day: int, quota: int) returns (res: Result<()>)
      modifies this`windows
      ensures Did(res, R.InsertWindow(old(windows), trail, day, quota), old(windows), windows)
    {
      if quota <= 0 {
        return Err(InvalidArgument);
      }
      var existing := FindWindow(trail, day);
      if existing.Some? {
        return Err(Conflict);
      }
      windows := windows + [Window(trail, day, quota, 0, 1, None)];
      res := Ok(());
    }

    // ---------- parties and members ----------

    method CreateParty(row: Party) returns (res: Result<()>)
      modifies this`parties
      ensures Did(res, R.CreateParty(old(parties), row), old(parties), parties)
    {
      if row.size <= 0 {
        return Err(InvalidArgument);
      }
      parties := parties + [row.(version := 1)];
      res := Ok(());
    }

    method ApplyStateChange(c: R.PartyChange) returns (res: Result<()>)
      modifies this`parties
      ensures Did(res, R.ApplyStateChange(old(parties), c), old(parties), parties)
    {
      if c.party >= |parties| || parties[c.party].state != c.expectedState
         || parties[c.party].version != c.expectedVersion {
        return Err(VersionConflict);
      }
      var row := parties[c.party].(state := c.next, version := parties[c.party].version + 1);
      if c.window.Some? {
        row := row.(window := c.window);
      }
      if c.confirmedAt.Some? {
        row := row.(confirmedAt := c.confirmedAt);
      }
      if c.dispatchedAt.Some? {
        row := row.(dispatchedAt := c.dispatchedAt);
      }
      if c.closedAt.Some? {
        row := row.(closedAt := c.closedAt);
      }
      parties := parties[c.party := row];
      res := Ok(());
    }

    method AddMember(p: nat, member: string, waiver: bool) returns (res: Result<()>)
      modifies this`rosters
      ensures var spec := R.AddMember(RosterIn(old(rosters), p), member, waiver);
              && (spec.Ok? ==> res.Ok? && rosters == old(rosters)[p := spec.value])
              && (spec.Err? ==> res == Err(spec.code) && rosters == old(rosters))
    {
      var roster := if p in rosters then rosters[p] else map[];
      if member in roster {
        return Err(Conflict);
      }
      rosters := rosters[p := roster[member := waiver]];
      res := Ok(());
    }

    method CreateReport(p: nat, checkpoint: int, row: Progress) returns (res: Result<()>)
      modifies this`reports
      ensures Did(res, ReportTx(old(State()), p, checkpoint, row), old(State()), State())
    {
      if (p, checkpoint) in reports {
        return Err(Conflict);
      }
      reports := reports[(p, checkpoint) := row];
      res := Ok(());
    }

    // ---------- settlements and incidents ----------

    method CreateSettlement(p: nat, row: Settlement) returns (res: Result<()>)
      modifies this`settlements
      ensures Did(res, R.CreateSettlement(old(settlements), p, row), old(settlements), settlements)
    {
      if row.seats <= 0 || row.unitFee < 0 || row.total < 0 {
        return Err(InvalidArgument);
      }
      if p in settlements {
        return Err(Conflict);
      }
      settlements := settlements[p := row.(note := "", settledAt := None, version := 1)];
      res := Ok(());
    }

    method ApplySettlement(p: nat, c: R.SettlementChange) returns (res: Result<()>)
      modifies this`settlements
      ensures Did(res, R.ApplySettlement(old(settlements), p, c), old(settlements), settlements)
    {
      if p !in settlements || settlements[p].version != c.expectedVersion {
        return Err(VersionConflict);
      }
      settlements := settlements[p := settlements[p].(state := c.next, reference := c.reference, note := c.note,
                                                      settledAt := c.settledAt, version := settlements[p].version + 1)];
      res := Ok(());
    }

    method FindUnresolved(party: nat, kind: string, checkpoint: int) returns (found: Option<nat>)
      ensures found == R.FindUnresolved(incidents, party, kind, checkpoint)
    {
      found := None;
      for i := 0 to |incidents|
        invariant found == R.FindUnresolved(incidents[..i], party, kind, checkpoint)
      {
        assert incidents[..i + 1][..i] == incidents[..i];
        if R.SameTopic(incidents[i], party, kind, checkpoint) && Unresolved(incidents[i].state) {
          found := Some(i);
        }
      }
      assert incidents[..|incidents|] == incidents;
    }

    method CreateIncident(row: Incident) returns (res: Result<()>)
      modifies this`incidents
      ensures Did(res, R.CreateIncident(old(incidents), row), old(incidents), incidents)
    {
      var existing := FindUnresolved(row.party, row.kind, row.checkpoint);
      if Unresolved(row.state) && existing.Some? {
        return Err(Conflict);
      }
      incidents := incidents + [row.(resolution := "", resolvedAt := None, version := 1)];
      res := Ok(());
    }

    method ApplyIncident(id: nat, c: R.IncidentChange) returns (res: Result<()>)
      modifies this`incidents
      ensures Did(res, R.ApplyIncident(old(incidents), id, c), old(incidents), incidents)
    {
      if id >= |incidents| || incidents[id].version != c.expectedVersion {
        return Err(VersionConflict);
      }
      incidents := incidents[id := incidents[id].(state := c.next, count := c.count, resolution := c.resolution,
                                                  resolvedAt := c.resolvedAt, version := incidents[id].version + 1)];
      res := Ok(());
    }

    // ---------- jobs ----------

    method Enqueue(job: Job) returns (res: Result<()>)
      modifies this`jobs
      ensures Did(res, R.Enqueue(old(jobs), job), old(jobs), jobs)
    {
      if job.maxAttempts <= 0 {
        return Err(InvalidArgument);
      }
      jobs := jobs + [job.(state := Queued, lockedBy := "", lockedUntil := None)];
      res := Ok(());
    }

    method Lease(j: nat, worker: string, until: int, now: int) returns (res: Result<()>)
      modifies this`jobs
      ensures Did(res, R.Lease(old(jobs), j, worker, until, now), old(jobs), jobs)
    {
      if j >= |jobs| || jobs[j].state != Queued || jobs[j].runAt > now {
        return Err(Conflict);
      }
      jobs := jobs[j := jobs[j].(state := Running, attempts := jobs[j].attempts + 1,
                                 lockedBy := worker, lockedUntil := Some(until))];
      res := Ok(());
    }

    method MarkDone(j: nat) returns (res: Result<()>)
      modifies this`jobs
      ensures Did(res, R.MarkDone(old(jobs), j), old(jobs), jobs)
    {
      if j >= |jobs| || jobs[j].state != Running {
        return Err(StateInvalid);
      }
      jobs := jobs[j := jobs[j].(state := Done, lockedBy := "", lockedUntil := None)];
      res := Ok(());
    }

    method MarkFailure(j: nat, permanent: bool, runAt: int) returns (res: Result<()>)
      modifies this`jobs
      ensures Did(res, R.MarkFailure(old(jobs), j, permanent, runAt), old(jobs), jobs)
    {
      var next := Queued;
      if permanent {
        next := Failed;
      }
      if j >= |jobs| || jobs[j].state != Running {
        return Err(StateInvalid);
      }
      jobs := jobs[j := jobs[j].(state := next, runAt := runAt, lockedBy := "", lockedUntil := None)];
      res := Ok(());
    }

    method ReclaimExpired(now: int) returns (affected: nat)
      modifies this`jobs
      ensures jobs == R.ReclaimExpired(old(jobs), now)
      ensures affected == |ExpiredBelow(old(jobs), |old(jobs)|, now)|
      ensures |jobs| == |old(jobs)| && forall j :: 0 <= j < |jobs| ==>
                var was := old(jobs)[j];
                jobs[j] == if was.state == Running && was.lockedUntil.Some? && was.lockedUntil.value <= now
                           then was.(state := Queued, lockedBy := "", lockedUntil := None) else was
      ensures affected == |set j | 0 <= j < |old(jobs)| && old(jobs)[j].state == Running
                                && old(jobs)[j].lockedUntil.Some? && old(jobs)[j].lockedUntil.value <= now|
    {
      hide R.Expired, ExpiredBelow;
      ExpiredInWords(jobs, now);
      affected := 0;
      NoneExpired(jobs, now);
      for i := 0 to |jobs|
        invariant |jobs| == |old(jobs)|
        invariant forall j :: 0 <= j < i ==> jobs[j] == R.Reclaimed(old(jobs)[j], now)
        invariant forall j :: i <= j < |jobs| ==> jobs[j] == old(jobs)[j]
        invariant affected == |ExpiredBelow(old(jobs), i, now)|
      {
        OneMoreExpired(old(jobs), i, now);
        if R.Expired(jobs[i], now) {
          jobs := jobs[i := jobs[i].(state := Queued, lockedBy := "", lockedUntil := None)];
          affected := affected + 1;
        }
      }
    }

    // ---------- idempotency records ----------

    method SaveRecord(k: Key, row: Record) returns (res: Result<()>)
      modifies this`records
      ensures Did(res, R.SaveRecord(old(records), k, row), old(records), records)
    {
      if k in records {
        return Err(Conflict);
      }
      records := records[k := row];
      res := Ok(());
    }

    method DeleteExpired(now: int)
      modifies this`records
      ensures records == R.DeleteExpired(old(records), now)
    {
      records := map k | k in records && records[k].expiresAt > now :: records[k];
    }
  }
}
