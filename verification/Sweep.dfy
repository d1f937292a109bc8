/** The overdue sweep: which parties it looks at, and what a round leaves behind. */
module Sweep {
  import opened Errors
  import opened Domain
  import opened Tables
  import opened Repositories
  import opened Runs
  import opened Invariants
  import opened Safety
  import opened Storage
  import opened IncidentHandling
  import opened Ordering
  import opened Overdue

  // ---------- the parties of one round ----------

  function StartOf(ps: seq<Party>): nat -> int {
    (p: nat) => if p < |ps| then ps[p].plannedStart else 0
  }

  function IsOnTrail(ps: seq<Party>): nat -> bool {
    (p: nat) => p < |ps| && ps[p].state == OnTrail
  }

  /** All parties on the trail, earliest planned start first. */
  function OnTrailAll(ps: seq<Party>): (ids: seq<nat>)
    ensures forall p: nat :: p in ids <==> p < |ps| && ps[p].state == OnTrail
  {
    Among(StartOf(ps), IsOnTrail(ps), |ps|)
  }

  function OnTrailParties(ps: seq<Party>, limit: int): seq<nat> {
    Limit(OnTrailAll(ps), if limit <= 0 then 50 else limit)
  }

  /** By planned start, and parties of one start by their identifiers. */
  predicate StartsEarlier(ps: seq<Party>, p: nat, q: nat) {
    && p < |ps| && q < |ps|
    && (ps[p].plannedStart < ps[q].plannedStart || (ps[p].plannedStart == ps[q].plannedStart && p < q))
  }

  lemma ByStart(ps: seq<Party>, p: nat, q: nat)
    requires p < |ps| && q < |ps| && Before(StartOf(ps), p, q)
    ensures StartsEarlier(ps, p, q)
  {
  }

  /** At most `most` parties on the trail, the earliest planned starts first; one is
      missing only for the sake of earlier ones. */
  predicate Listed(ps: seq<Party>, ids: seq<nat>, most: int) {
    && |ids| <= most
    && (forall i :: 0 <= i < |ids| ==> ids[i] < |ps| && ps[ids[i]].state == OnTrail)
    && (forall i, k :: 0 <= i < k < |ids| ==> StartsEarlier(ps, ids[i], ids[k]))
    && (forall p: nat :: p < |ps| && ps[p].state == OnTrail && p !in ids ==>
          |ids| == most && forall i :: 0 <= i < |ids| ==> StartsEarlier(ps, ids[i], p))
  }

  lemma ListedAreParties(ps: seq<Party>, ids: seq<nat>, most: int)
    requires Listed(ps, ids, most)
    ensures forall i :: 0 <= i < |ids| ==> ids[i] < |ps|
  {
  }

  lemma RoundsAreFair(ps: seq<Party>, limit: int)
    ensures Listed(ps, OnTrailParties(ps, limit), if limit <= 0 then 50 else limit)
  {
    hide Ordered, Among, Limit, Before;
    var ids, most := OnTrailParties(ps, limit), if limit <= 0 then 50 else limit;
    SelectionsAreFair(StartOf(ps), IsOnTrail(ps), |ps|, most);
    forall i, k | 0 <= i < k < |ids| ensures StartsEarlier(ps, ids[i], ids[k]) {
      InOrder(StartOf(ps), ids, i, k);
      ByStart(ps, ids[i], ids[k]);
    }
    forall p: nat | p < |ps| && ps[p].state == OnTrail && p !in ids
      ensures |ids| == most && forall i :: 0 <= i < |ids| ==> StartsEarlier(ps, ids[i], p)
    {
      forall i | 0 <= i < |ids| ensures StartsEarlier(ps, ids[i], p) {
        ByStart(ps, ids[i], p);
      }
    }
  }

  // ---------- what a round does ----------

  /** Trail configuration and the instant of one round. */
  datatype Round = Round(trails: map<nat, seq<Checkpoint>>, grace: int, now: int)

  function NodesOf(trails: map<nat, seq<Checkpoint>>, trail: nat): seq<Checkpoint> {
    if trail in trails then trails[trail] else []
  }

  /** The node a party is overdue at, by its row and what it has reported. */
  function OverdueAt(row: Party, reported: set<int>, r: Round): Option<Checkpoint> {
    FirstOverdue(NodesOf(r.trails, row.trail), reported, row.plannedStart, r.grace, r.now)
  }

  predicate Known(incidents: seq<Incident>, p: nat, checkpoint: int) {
    FindUnresolved(incidents, p, KIND_OVERDUE, checkpoint).Some?
  }

  /** The incidents after a round over `ids` that nobody else interferes with. */
  function Swept(ids: seq<nat>, db: Db, r: Round): seq<Incident> {
    if ids == [] then db.incidents
    else
      var before := Swept(ids[..|ids| - 1], db, r);
      var p := ids[|ids| - 1];
      if p >= |db.parties| then before
      else
        match OverdueAt(db.parties[p], ReportedBy(db, p), r)
        case None => before
        case Some(c) => if Known(before, p, c.seq_) then before else before + [OverdueIncident(p, c.seq_)]
  }

  /** Every party of the round that is overdue has its unresolved incident. */
  ghost predicate Covered(ids: seq<nat>, db: Db, r: Round, incidents: seq<Incident>) {
    forall i :: 0 <= i < |ids| && ids[i] < |db.parties| ==>
      var at := OverdueAt(db.parties[ids[i]], ReportedBy(db, ids[i]), r);
      at.Some? ==> Known(incidents, ids[i], at.value.seq_)
  }

  lemma KnownStays(incidents: seq<Incident>, row: Incident, p: nat, checkpoint: int)
    requires Known(incidents, p, checkpoint)
    ensures Known(incidents + [row], p, checkpoint)
  {
  }

  /** After a round every overdue party it looked at has an unresolved incident at
      the first node it missed; no incident that was there is touched. */
  lemma {:induction false} SweepCovers(ids: seq<nat>, db: Db, r: Round)
    ensures Covered(ids, db, r, Swept(ids, db, r))
    ensures db.incidents <= Swept(ids, db, r)
  {
    hide OverdueAt, FindUnresolved;
    if ids != [] {
      var front := ids[..|ids| - 1];
      SweepCovers(front, db, r);
      var before, after := Swept(front, db, r), Swept(ids, db, r);
      forall i | 0 <= i < |ids| && ids[i] < |db.parties|
        ensures var at := OverdueAt(db.parties[ids[i]], ReportedBy(db, ids[i]), r);
                at.Some? ==> Known(after, ids[i], at.value.seq_)
      {
        var at := OverdueAt(db.parties[ids[i]], ReportedBy(db, ids[i]), r);
        if at.Some? && i < |front| {
          assert front[i] == ids[i];
          if after != before {
            KnownStays(before, after[|before|], ids[i], at.value.seq_);
            assert after == before + [after[|before|]];
          }
        } else if at.Some? && after != before {
          OwnIncidentIsKnown(before, ids[i], at.value.seq_);
        }
      }
    }
  }

  lemma OwnIncidentIsKnown(incidents: seq<Incident>, p: nat, checkpoint: int)
    ensures Known(incidents + [OverdueIncident(p, checkpoint)], p, checkpoint)
  {
  }

  /** A round over parties that are covered already opens nothing, so repeating a
      round while nothing else changes opens nothing. */
  lemma {:induction false} CoveredRoundsAreIdle(ids: seq<nat>, db: Db, r: Round)
    requires Covered(ids, db, r, db.incidents)
    ensures Swept(ids, db, r) == db.incidents
  {
    hide OverdueAt, FindUnresolved;
    if ids != [] {
      var front := ids[..|ids| - 1];
      forall i | 0 <= i < |front| ensures front[i] == ids[i] {
      }
      CoveredRoundsAreIdle(front, db, r);
    }
  }

  lemma RepeatedRoundsAreIdle(ids: seq<nat>, db: Db, r: Round)
    ensures var once := db.(incidents := Swept(ids, db, r)); Swept(ids, once, r) == once.incidents
  {
    hide OverdueAt, FindUnresolved, Swept, Known;
    var once := db.(incidents := Swept(ids, db, r));
    SweepCovers(ids, db, r);
    forall i | 0 <= i < |ids| ensures ReportedBy(once, ids[i]) == ReportedBy(db, ids[i]) {
    }
    CoveredRoundsAreIdle(ids, once, r);
  }

  /** A round whose limit covers every party on the trail leaves none of them
      overdue without its incident. */
  lemma FullRoundsCoverEveryone(db: Db, limit: int, r: Round, p: nat)
    requires p < |db.parties| && db.parties[p].state == OnTrail
    requires |OnTrailAll(db.parties)| <= (if limit <= 0 then 50 else limit)
    requires OverdueAt(db.parties[p], ReportedBy(db, p), r).Some?
    ensures Known(Swept(OnTrailParties(db.parties, limit), db, r), p,
                  OverdueAt(db.parties[p], ReportedBy(db, p), r).value.seq_)
  {
    hide OverdueAt, Known, Swept;
    var ids := OnTrailParties(db.parties, limit);
    SweepCovers(ids, db, r);
    var i :| 0 <= i < |ids| && ids[i] == p;
  }

  /** The `k`-th node of its trail is the first one a party is overdue at. */
  ghost predicate MissesFirst(row: Party, reported: set<int>, r: Round, k: nat) {
    FirstAt(NodesOf(r.trails, row.trail), reported, row.plannedStart, r.grace, r.now, k)
  }

  lemma MissedIsFound(row: Party, reported: set<int>, r: Round, k: nat)
    requires MissesFirst(row, reported, r, k)
    ensures k < |NodesOf(r.trails, row.trail)|
    ensures OverdueAt(row, reported, r) == Some(NodesOf(r.trails, row.trail)[k])
  {
    FirstIsFound(NodesOf(r.trails, row.trail), reported, row.plannedStart, r.grace, r.now, k);
  }

  lemma FoundIsMissed(row: Party, reported: set<int>, r: Round) returns (k: nat)
    requires OverdueAt(row, reported, r).Some?
    ensures MissesFirst(row, reported, r, k) && k < |NodesOf(r.trails, row.trail)|
    ensures OverdueAt(row, reported, r) == Some(NodesOf(r.trails, row.trail)[k])
  {
    k := SearchIsComplete(NodesOf(r.trails, row.trail), reported, row.plannedStart, r.grace, r.now);
  }

  /** Some incident on the node is open or escalated. */
  predicate Raised(incidents: seq<Incident>, p: nat, checkpoint: int) {
    exists n :: 0 <= n < |incidents| && ActiveOn(incidents[n], p, "checkpoint_overdue", checkpoint)
  }

  /** The incident is one of this round: of a listed party at the first node it missed. */
  ghost predicate OfRound(incident: Incident, ids: seq<nat>, db: Db, r: Round) {
    exists i: nat, k: nat ::
      && i < |ids| && ids[i] < |db.parties|
      && MissesFirst(db.parties[ids[i]], ReportedBy(db, ids[i]), r, k)
      && k < |NodesOf(r.trails, db.parties[ids[i]].trail)|
      && incident == Incident(ids[i], "checkpoint_overdue", Major,
                              NodesOf(r.trails, db.parties[ids[i]].trail)[k].seq_, IncidentState.Open, 0, "", None, 1)
  }

  /** What a round over `ids` makes of the incidents, in the columns of the tables. */
  ghost predicate RoundDone(ids: seq<nat>, db: Db, r: Round, incidents: seq<Incident>) {
    && db.incidents <= incidents
    && (forall i: nat, k: nat ::
          i < |ids| && ids[i] < |db.parties| && MissesFirst(db.parties[ids[i]], ReportedBy(db, ids[i]), r, k)
          && k < |NodesOf(r.trails, db.parties[ids[i]].trail)| ==>
            Raised(incidents, ids[i], NodesOf(r.trails, db.parties[ids[i]].trail)[k].seq_))
    && (forall n :: |db.incidents| <= n < |incidents| ==> OfRound(incidents[n], ids, db, r))
  }

  lemma {:induction false} NewIncidentsAreOfTheRound(ids: seq<nat>, db: Db, r: Round)
    ensures db.incidents <= Swept(ids, db, r)
    ensures forall n :: |db.incidents| <= n < |Swept(ids, db, r)| ==> OfRound(Swept(ids, db, r)[n], ids, db, r)
  {
    hide OverdueAt, FindUnresolved, MissesFirst, NodesOf, ReportedBy;
    if ids != [] {
      var last := |ids| - 1;
      var front, p := ids[..last], ids[last];
      NewIncidentsAreOfTheRound(front, db, r);
      var before, after := Swept(front, db, r), Swept(ids, db, r);
      forall n | |db.incidents| <= n < |before| ensures OfRound(before[n], ids, db, r) {
        var i: nat, k: nat :|
          && i < |front| && front[i] < |db.parties|
          && MissesFirst(db.parties[front[i]], ReportedBy(db, front[i]), r, k)
          && k < |NodesOf(r.trails, db.parties[front[i]].trail)|
          && before[n] == Incident(front[i], "checkpoint_overdue", Major,
                                   NodesOf(r.trails, db.parties[front[i]].trail)[k].seq_, IncidentState.Open, 0, "",
                                   None, 1);
        assert ids[i] == front[i];
      }
      if after != before {
        var k := FoundIsMissed(db.parties[p], ReportedBy(db, p), r);
        assert OfRound(after[|before|], ids, db, r);
      }
    }
  }

  /** A round does in the tables exactly this: each listed overdue party gets an active
      incident at the first node it missed, and nothing else is opened. */
  lemma SweepInWords(ids: seq<nat>, db: Db, r: Round)
    ensures RoundDone(ids, db, r, Swept(ids, db, r))
  {
    hide Swept, OverdueAt, MissesFirst, OfRound, Raised, ReportedBy, NodesOf, Known;
    var incidents := Swept(ids, db, r);
    SweepCovers(ids, db, r);
    NewIncidentsAreOfTheRound(ids, db, r);
    forall i: nat, k: nat |
      i < |ids| && ids[i] < |db.parties| && MissesFirst(db.parties[ids[i]], ReportedBy(db, ids[i]), r, k)
      && k < |NodesOf(r.trails, db.parties[ids[i]].trail)|
      ensures Raised(incidents, ids[i], NodesOf(r.trails, db.parties[ids[i]].trail)[k].seq_)
    {
      MissedIsFound(db.parties[ids[i]], ReportedBy(db, ids[i]), r, k);
      KnownInWords(incidents, ids[i], NodesOf(r.trails, db.parties[ids[i]].trail)[k].seq_);
    }
  }

  lemma KnownInWords(incidents: seq<Incident>, p: nat, checkpoint: int)
    ensures Known(incidents, p, checkpoint) <==> Raised(incidents, p, checkpoint)
  {
    ActiveInWords(incidents, p, KIND_OVERDUE, checkpoint);
  }

  lemma NextParty(ids: seq<nat>, n: nat, db: Db, now: Db, r: Round)
    requires n < |ids| && now.parties == db.parties && now.reports == db.reports
    requires now.incidents == Swept(ids[..n], db, r)
    ensures Swept(ids[..n + 1], db, r) == Swept([ids[n]], now, r)
  {
    hide OverdueAt, Known;
    assert ids[..n + 1][..n] == ids[..n];
    assert [ids[n]][..0] == [];
    assert ReportedBy(now, ids[n]) == ReportedBy(db, ids[n]);
  }

  /** Between `start` and `run` the party's reports were read, and if they left it
      overdue, its incident was unresolved at the node found missing, then or later. */
  ghost predicate Answered(run: Run, start: Run, row: Party, p: nat, r: Round) {
    exists read: Run, after: Run ::
      && Continues(read, start) && Continues(after, read) && Continues(run, after)
      && AnsweredBy(Last(read).db, Last(after).db, row, p, r)
  }

  ghost predicate AnsweredBy(read: Db, after: Db, row: Party, p: nat, r: Round) {
    forall k: nat ::
      MissesFirst(row, ReportedBy(read, p), r, k) && k < |NodesOf(r.trails, row.trail)| ==>
        Raised(after.incidents, p, NodesOf(r.trails, row.trail)[k].seq_)
  }

  lemma KnownAnswers(read: Db, after: Db, row: Party, p: nat, r: Round)
    requires var at := OverdueAt(row, ReportedBy(read, p), r); at.Some? ==> Known(after.incidents, p, at.value.seq_)
    ensures AnsweredBy(read, after, row, p, r)
  {
    hide OverdueAt, MissesFirst, Raised, ReportedBy, NodesOf, Known;
    forall k: nat | MissesFirst(row, ReportedBy(read, p), r, k) && k < |NodesOf(r.trails, row.trail)|
      ensures Raised(after.incidents, p, NodesOf(r.trails, row.trail)[k].seq_)
    {
      MissedIsFound(row, ReportedBy(read, p), r, k);
      KnownInWords(after.incidents, p, NodesOf(r.trails, row.trail)[k].seq_);
    }
  }

  lemma AnsweredStays(later: Run, run: Run, start: Run, row: Party, p: nat, r: Round)
    requires Continues(later, run) && Answered(run, start, row, p, r)
    ensures Answered(later, start, row, p, r)
  {
    hide AnsweredBy, Last, Continues;
    var read, after :|
      && Continues(read, start) && Continues(after, read) && Continues(run, after)
      && AnsweredBy(Last(read).db, Last(after).db, row, p, r);
    ContinuesTransitive(later, run, after);
  }

  lemma VisitAnswers(run: Run, read: Run, start: Run, row: Party, p: nat, r: Round)
    requires Continues(read, start) && Continues(run, read) && AnsweredBy(Last(read).db, Last(run).db, row, p, r)
    ensures Answered(run, start, row, p, r)
  {
    hide AnsweredBy, Last;
    assert Continues(run, run);
  }

  datatype SweepResult = SweepResult(scanned: nat, raised: nat, parties: seq<nat>)

  class Sweeper {
    const store: Store
    const incidents: IncidentService

    constructor (incidents: IncidentService)
      requires incidents.store == incidents.aborter.store
      ensures this.incidents == incidents && this.store == incidents.store
    {
      this.incidents := incidents;
      this.store := incidents.store;
    }

    /** One party of a round. However many others are active, if its reports leave it
        overdue now, its incident is unresolved when the call returns. */
    method Visit(p: nat, row: Party, r: Round) returns (res: Result<bool>)
      requires store.Valid() && incidents.store == store && incidents.maxAttempts > 0 && p < |store.parties|
      modifies store
      ensures store.Valid() && Continues(store.run, old(store.run)) && |old(store.parties)| <= |store.parties|
      ensures res.Ok? && AnsweredBy(old(store.State()), store.State(), row, p, r)
      ensures store.alone ==>
                && store.parties == old(store.parties) && store.reports == old(store.reports)
                && (store.parties[p] == row ==> store.incidents == Swept([p], old(store.State()), r))
                && (res.value <==> store.incidents != old(store.incidents))
                && (store.incidents == old(store.incidents) ==> store.State() == old(store.State()))
    {
      hide Later, Inv, Perform, FirstOverdue, FindUnresolved, Sound, AnsweredBy, ActiveOn;
      var reported := ReportedBy(store.State(), p);
      ghost var read := store.State();
      ghost var start := store.run;
      assert Saw(start, read);
      var found, _ := FirstOverdueCheckpoint(NodesOf(r.trails, row.trail), reported, row.plannedStart, r.grace, r.now);
      assert Swept([], read, r) == read.incidents && [p][..0] == [];
      if found.None? {
        KnownAnswers(read, store.State(), row, p, r);
        return Ok(false);
      }
      store.Pause({});
      ghost var paused := store.run;
      PartiesStay(paused, start, p);
      var raised := incidents.OpenOverdue(p, found.value.seq_, r.now / SECOND);
      ContinuesTransitive(store.run, paused, start);
      PartiesStay(store.run, start, p);
      KnownAnswers(read, store.State(), row, p, r);
      res := Ok(raised.Ok?);
    }

    /** One round: parties on the trail are listed once, then looked at one by one.
        Undisturbed, it does exactly what `Swept` says. */
    method SweepOverdueCheckpoints(limit: int, r: Round) returns (res: SweepResult)
      requires store.Valid() && incidents.store == store && incidents.maxAttempts > 0
      modifies store
      ensures store.Valid() && Continues(store.run, old(store.run))
      ensures var ids := OnTrailParties(old(store.parties), limit);
              && res.scanned == |ids| && res.raised == |res.parties| <= |ids|
              && (forall p :: p in res.parties ==> p in ids)
              && Listed(old(store.parties), ids, if limit <= 0 then 50 else limit)
              && (forall i :: 0 <= i < |ids| ==>
                    && ids[i] < |old(store.parties)|
                    && Answered(store.run, old(store.run), old(store.parties)[ids[i]], ids[i], r))
              && (store.alone ==>
                    && store.incidents == Swept(ids, old(store.State()), r)
                    && RoundDone(ids, old(store.State()), r, store.incidents)
                    && |store.incidents| == |old(store.incidents)| + res.raised
                    && (res.raised == 0 ==> store.State() == old(store.State())))
    {
      hide Later, Inv, Perform, Last, Sound, OverdueAt, Known, Swept, Answered, AnsweredBy, OnTrailAll, Listed,
        OnTrailParties, RoundDone;
      ghost var start, before := store.run, store.State();
      var rows := store.parties;
      var ids := OnTrailParties(rows, limit);
      RoundsAreFair(rows, limit);
      ListedAreParties(rows, ids, if limit <= 0 then 50 else limit);
      res := SweepResult(|ids|, 0, []);
      SweptNothing(before, r);
      assert ids[..0] == [];
      for n := 0 to |ids|
        invariant store.Valid() && Continues(store.run, start) && |rows| <= |store.parties|
        invariant res.scanned == |ids| && res.raised == |res.parties| <= n
        invariant forall p :: p in res.parties ==> p in ids
        invariant forall i :: 0 <= i < n ==> Answered(store.run, start, rows[ids[i]], ids[i], r)
        invariant store.alone ==>
          && store.parties == rows && store.reports == before.reports
          && store.incidents == Swept(ids[..n], before, r)
          && |store.incidents| == |before.incidents| + res.raised
          && (res.raised == 0 ==> store.State() == before)
      {
        ghost var now, was := store.State(), store.run;
        if store.alone {
          NextParty(ids, n, before, now, r);
          OneMore(ids[n], now, r);
        }
        var visited := Visit(ids[n], rows[ids[n]], r);
        ContinuesTransitive(store.run, was, start);
        forall i | 0 <= i < n ensures Answered(store.run, start, rows[ids[i]], ids[i], r) {
          AnsweredStays(store.run, was, start, rows[ids[i]], ids[i], r);
        }
        VisitAnswers(store.run, was, start, rows[ids[n]], ids[n], r);
        if visited.value {
          res := SweepResult(|ids|, res.raised + 1, res.parties + [ids[n]]);
        }
      }
      assert ids[..|ids|] == ids;
      SweepInWords(ids, before, r);
    }
  }

  lemma SweptNothing(db: Db, r: Round)
    ensures Swept([], db, r) == db.incidents
  {
  }

  lemma OneMore(p: nat, db: Db, r: Round)
    ensures var after := Swept([p], db, r); after == db.incidents || |after| == |db.incidents| + 1
  {
  }

  lemma PartiesStay(later: Run, run: Run, p: nat)
    requires Sound(later) && Continues(later, run)
    ensures |Last(run).db.parties| <= |Last(later).db.parties|
  {
    hide Later, Inv, Perform;
    ReachableStatesAreSafe(later);
    SawStays(later, run, Last(run).db);
    LaterParties(Last(run).db, Last(later).db);
  }

  lemma LaterParties(a: Db, b: Db)
    requires Later(a, b)
    ensures |a.parties| <= |b.parties|
  {
  }
}
