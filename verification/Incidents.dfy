/** The incident service: reporting, resolving and archiving, and the abort that a
    critical incident forces. */
module IncidentHandling {
  import opened Errors
  import opened Domain
  import opened Tables
  import opened Repositories
  import opened Transactions
  import opened Runs
  import opened Invariants
  import opened Safety
  import opened Storage
  import opened Dispatch

  const KIND_OVERDUE := "checkpoint_overdue"

  function OverdueIncident(p: nat, checkpoint: int): Incident {
    Incident(p, KIND_OVERDUE, Major, checkpoint, IncidentState.Open, 0, "", None, 1)
  }

  /** An incident on this topic that is open or escalated. */
  predicate ActiveOn(i: Incident, party: nat, kind: string, checkpoint: int) {
    && i.party == party && i.kind == kind && i.checkpoint == checkpoint
    && (i.state == IncidentState.Open || i.state == Escalated)
  }

  lemma ActiveInWords(rows: seq<Incident>, party: nat, kind: string, checkpoint: int)
    ensures Repositories.FindUnresolved(rows, party, kind, checkpoint).Some? <==>
              exists i :: 0 <= i < |rows| && ActiveOn(rows[i], party, kind, checkpoint)
  {
    var found := Repositories.FindUnresolved(rows, party, kind, checkpoint);
    if found.Some? {
      assert ActiveOn(rows[found.value], party, kind, checkpoint);
    }
  }

  /** A new incident is open and not escalated yet, and its first escalation waits for half
      an hour, ten or two minutes; nothing else changes. */
  predicate Stored(was: Db, db: Db, row: Incident, maxAttempts: int, now: int) {
    var wait := match row.severity case Minor => 1800 case Major => 600 case Critical => 120;
    db == was.(
      incidents := was.incidents + [Incident(row.party, row.kind, row.severity, row.checkpoint, IncidentState.Open, 0,
                                             "", None, 1)],
      jobs := was.jobs + [Job(EscalateIncident, |was.incidents|, Queued, 0, maxAttempts, now + wait, "", None)])
  }

  lemma StoredInWords(was: Db, db: Db, row: Incident, maxAttempts: int, now: int)
    requires Stored(was, db, row, maxAttempts, now)
    ensures db.parties == was.parties && |db.incidents| == |was.incidents| + 1
    ensures db.incidents[|was.incidents|].severity == row.severity
    ensures SameTopic(db.incidents[|was.incidents|], row.party, row.kind, row.checkpoint)
  {
  }

  lemma NewIncidentIsActive(p: nat, checkpoint: int)
    ensures ActiveOn(OverdueIncident(p, checkpoint), p, KIND_OVERDUE, checkpoint)
  {
  }

  lemma OpenStep(run: Run, party: Party, row: Incident, maxAttempts: int, now: int)
    requires Sound(run) && Seen(run, PartyRow(row.party, party))
    ensures var later := Then(run, Action.OpenIncident(party, row, maxAttempts, now));
            && Sound(later) && Continues(later, run)
            && Last(later).db == Commit(Last(run).db, OpenIncidentTx(Last(run).db, row, maxAttempts, now))
  {
    hide WorkerStep, Inv, Later, Seen, OpenIncidentTx, Commit;
  }

  /** An incident that was stored stays stored, with its topic and severity. */
  lemma IncidentsStay(later: Run, run: Run, i: nat)
    requires Sound(later) && Continues(later, run) && i < |Last(run).db.incidents|
    ensures i < |Last(later).db.incidents| && IncidentLater(Last(run).db.incidents[i], Last(later).db.incidents[i])
  {
    hide Inv, Perform, Sound, Last, IncidentLater;
    ReachableStatesAreSafe(later);
    SawStays(later, run, Last(run).db);
  }

  /** Resolving and archiving are changes to one incident that was read before. */
  lemma ChangeStep(run: Run, a: Action, c: IncidentChange)
    requires Sound(run) && (a.Resolve? || a.Archive?) && Enabled(Last(run), a)
    requires Seen(run, IncidentRow(a.i, a.incident))
    requires Write(Last(run).db, a) == IncidentTx(Last(run).db, a.i, c)
    ensures Sound(Then(run, a)) && Continues(Then(run, a), run)
    ensures Last(Then(run, a)).db == Commit(Last(run).db, IncidentTx(Last(run).db, a.i, c))
  {
    hide WorkerStep, Inv, Later, Seen, Write, IncidentTx, Commit, Enabled;
  }

  class IncidentService {
    const store: Store
    const aborter: DispatchService
    const maxAttempts: int

    constructor (aborter: DispatchService, maxAttempts: int)
      ensures this.aborter == aborter && this.store == aborter.store
      ensures this.maxAttempts == (if maxAttempts > 0 then maxAttempts else 5)
    {
      this.aborter := aborter;
      this.store := aborter.store;
      this.maxAttempts := if maxAttempts <= 0 then 5 else maxAttempts;
    }

    /** Creates an incident and queues its first escalation, or reports that an
        unresolved incident on the same topic exists. */
    method Create(party: Party, row: Incident, now: int) returns (res: Result<nat>)
      requires store.Valid() && Seen(store.run, PartyRow(row.party, party)) && maxAttempts > 0
      modifies store
      ensures store.Valid() && Continues(store.run, old(store.run))
      ensures res.Ok? <==> forall i :: 0 <= i < |old(store.incidents)| ==>
                                        !ActiveOn(old(store.incidents)[i], row.party, row.kind, row.checkpoint)
      ensures res.Ok? ==>
                res.value == |old(store.incidents)| && Stored(old(store.State()), store.State(), row, maxAttempts, now)
      ensures res.Err? ==> res.code == Conflict && store.State() == old(store.State())
    {
      hide Inv, Later, Perform, Seen, Saw, Sound, Last, Repositories.FindUnresolved;
      ActiveInWords(store.incidents, row.party, row.kind, row.checkpoint);
      ghost var before := store.run;
      OpenStep(before, party, row, maxAttempts, now);
      ghost var act := Action.OpenIncident(party, row, maxAttempts, now);
      var saved := store.State();
      var id := |store.incidents|;
      var done := store.CreateIncident(row.(state := IncidentState.Open, count := 0));
      if done.Ok? {
        done := store.Enqueue(NewJob(EscalateIncident, id, maxAttempts, now + EscalationDelay(row.severity)));
      }
      if done.Err? {
        store.Restore(saved);
        res := Err(done.code);
      } else {
        res := Ok(id);
      }
      store.run := Then(before, act);
    }

    /** Reports an incident. When a critical one is reported without an error, the
        party is in a terminal state. */
    method Open(actor: nat, leaderRole: bool, row: Incident, reason: string, now: int) returns (res: Result<nat>)
      requires store.Valid() && maxAttempts > 0 && aborter.store == store
      modifies store
      ensures store.Valid() && Continues(store.run, old(store.run))
      ensures res.Ok? ==>
                && res.value < |store.incidents|
                && SameTopic(store.incidents[res.value], row.party, row.kind, row.checkpoint)
                && store.incidents[res.value].severity == row.severity
      ensures res.Ok? && row.severity == Critical ==>
                row.party < |store.parties| && store.parties[row.party].state in {Completed, Cancelled, Aborted}
      ensures res.Err? ==> res.code in {NotFound, PermissionDenied, StateInvalid, Conflict, VersionConflict}
      ensures store.alone ==>
                && (res.Ok? <==>
                      && row.party < |old(store.parties)|
                      && (leaderRole ==> old(store.parties)[row.party].leader == actor)
                      && (old(store.parties)[row.party].state == Confirmed
                          || old(store.parties)[row.party].state == OnTrail)
                      && forall i :: 0 <= i < |old(store.incidents)| ==>
                           !ActiveOn(old(store.incidents)[i], row.party, row.kind, row.checkpoint))
                && (res.Ok? && row.severity != Critical ==>
                      Stored(old(store.State()), store.State(), row, maxAttempts, now))
                && (res.Ok? && row.severity == Critical ==>
                      exists mid: Db ::
                        && Stored(old(store.State()), mid, row, maxAttempts, now)
                        && Ended(mid, store.State(), row.party, Aborted, now)
                        && FeeWaived(mid.settlements, store.settlements, row.party, reason)
                        && store.jobs == mid.jobs)
    {
      hide Inv, Later, Perform, Saw, ByOthers, Sound, Seen, Last, Stored, Ended, FeeWaived, ActiveOn;
      if row.party >= |store.parties| {
        return Err(NotFound);
      }
      var party := store.parties[row.party];
      if leaderRole && party.leader != actor {
        return Err(PermissionDenied);
      }
      if party.state != Confirmed && party.state != OnTrail {
        return Err(StateInvalid);
      }
      JustRead(store.run, PartyRow(row.party, party));
      store.Pause({});
      ghost var first, ready := store.run, store.State();
      res := Create(party, row, now);
      ghost var mid := store.State();
      if res.Ok? {
        StoredInWords(ready, mid, row, maxAttempts, now);
      }
      ContinuesTransitive(store.run, first, old(store.run));
      if res.Ok? && ForcesPartyAbort(row.severity) {
        ghost var created := store.run;
        var stopped := StopAfter(res.value, row, reason, now);
        ContinuesTransitive(store.run, created, old(store.run));
        if stopped.Err? {
          res := Err(stopped.code);
        }
      }
    }

    /** The abort that follows a critical incident, with others in between. */
    method StopAfter(ghost i: nat, row: Incident, reason: string, now: int) returns (res: Result<()>)
      requires store.Valid() && aborter.store == store && i < |store.incidents|
      modifies store
      ensures store.Valid() && Continues(store.run, old(store.run))
      ensures i < |store.incidents| && IncidentLater(old(store.incidents)[i], store.incidents[i])
      ensures res.Ok? ==>
                row.party < |store.parties| && store.parties[row.party].state in {Completed, Cancelled, Aborted}
      ensures res.Err? ==> res.code in {NotFound, StateInvalid, VersionConflict}
      ensures store.alone ==>
                (res.Ok? <==>
                   && row.party < |old(store.parties)|
                   && old(store.parties)[row.party].state in {Confirmed, OnTrail, Completed, Cancelled, Aborted})
      ensures store.alone && row.party < |old(store.parties)|
              && old(store.parties)[row.party].state in {Confirmed, OnTrail} ==>
                && Ended(old(store.State()), store.State(), row.party, Aborted, now)
                && FeeWaived(old(store.settlements), store.settlements, row.party, reason)
                && store.jobs == old(store.jobs)
    {
      hide Inv, Later, Perform, Saw, ByOthers, Sound, Seen, Last, IncidentLater, Ended, FeeWaived;
      ghost var created := store.run;
      store.Pause({});
      ghost var paused := store.run;
      res := aborter.AbortParty(row.party, reason, now);
      ContinuesTransitive(store.run, paused, created);
      IncidentsStay(store.run, created, i);
    }

    /** The sweep's entry point: an unresolved incident on the same checkpoint is a
        conflict, found by the read or by the unique index. */
    method OpenOverdue(p: nat, checkpoint: int, now: int) returns (res: Result<nat>)
      requires store.Valid() && maxAttempts > 0
      modifies store
      ensures store.Valid() && Continues(store.run, old(store.run))
      ensures res.Ok? ==>
                && res.value < |store.incidents|
                && store.incidents[res.value] == Incident(p, "checkpoint_overdue", Major, checkpoint,
                                                          IncidentState.Open, 0, "", None, 1)
      ensures res.Ok? || res.code == Conflict ==>
                && Repositories.FindUnresolved(store.incidents, p, KIND_OVERDUE, checkpoint).Some?
                && exists i :: 0 <= i < |store.incidents|
                               && ActiveOn(store.incidents[i], p, "checkpoint_overdue", checkpoint)
      ensures res.Err? ==> res.code == (if p < |old(store.parties)| then Conflict else NotFound)
      ensures store.alone && p < |old(store.parties)| ==>
                var known := Repositories.FindUnresolved(old(store.incidents), p, KIND_OVERDUE, checkpoint).Some?;
                && (res.Ok? <==> !known) && (res.Err? ==> res.code == Conflict)
                && (known ==> store.State() == old(store.State()))
                && (known <==> exists i :: 0 <= i < |old(store.incidents)|
                                 && ActiveOn(old(store.incidents)[i], p, "checkpoint_overdue", checkpoint))
                && (!known ==>
                      Stored(old(store.State()), store.State(), OverdueIncident(p, checkpoint), maxAttempts, now))
                && (!known ==> store.incidents == old(store.incidents) + [OverdueIncident(p, checkpoint)])
                && store.parties == old(store.parties) && store.reports == old(store.reports)
    {
      hide Inv, Later, Perform, Saw, ByOthers, Sound, Seen, Last, Repositories.FindUnresolved, ActiveOn;
      if p >= |store.parties| {
        return Err(NotFound);
      }
      var party := store.parties[p];
      JustRead(store.run, PartyRow(p, party));
      store.Pause({});
      var existing := store.FindUnresolved(p, KIND_OVERDUE, checkpoint);
      ActiveInWords(store.incidents, p, KIND_OVERDUE, checkpoint);
      if existing.Some? {
        return Err(Conflict);
      }
      store.Pause({});
      ghost var first := store.run;
      ActiveInWords(store.incidents, p, KIND_OVERDUE, checkpoint);
      res := Create(party, OverdueIncident(p, checkpoint), now);
      ActiveInWords(store.incidents, p, KIND_OVERDUE, checkpoint);
      NewIncidentIsActive(p, checkpoint);
      ContinuesTransitive(store.run, first, old(store.run));
    }

    method Resolve(i: nat, text: string, now: int) returns (res: Result<()>)
      requires store.Valid()
      modifies store
      ensures store.Valid() && Continues(store.run, old(store.run))
      ensures res.Ok? ==> i < |store.incidents| && store.incidents[i].state == Resolved
                           && store.incidents[i].resolution == text && store.incidents[i].resolvedAt == Some(now)
      ensures res.Err? ==> res.code in {NotFound, StateInvalid, VersionConflict}
      ensures store.alone ==>
                (res.Ok? <==>
                   && i < |old(store.incidents)|
                   && (old(store.incidents)[i].state == IncidentState.Open
                       || old(store.incidents)[i].state == Escalated))
      ensures store.alone && res.Ok? ==>
                var was := old(store.incidents)[i];
                store.State() == old(store.State()).(incidents := old(store.incidents)[i :=
                  was.(state := Resolved, resolution := text, resolvedAt := Some(now), version := was.version + 1)])
    {
      hide Inv, Later, Perform, Saw, ByOthers, Sound, Seen, Last;
      if i >= |store.incidents| {
        return Err(NotFound);
      }
      var incident := store.incidents[i];
      if Resolved !in IncidentTransitions(incident.state) {
        return Err(StateInvalid);
      }
      JustRead(store.run, IncidentRow(i, incident));
      store.Pause({});
      ghost var before := store.run;
      var change := IncidentChange(incident.version, Resolved, incident.count, text, Some(now));
      ChangeStep(before, Action.Resolve(i, incident, text, now), change);
      res := store.ApplyIncident(i, change);
      store.run := Then(before, Action.Resolve(i, incident, text, now));
      ContinuesTransitive(store.run, before, old(store.run));
    }

    method Archive(i: nat) returns (res: Result<()>)
      requires store.Valid()
      modifies store
      ensures store.Valid() && Continues(store.run, old(store.run))
      ensures res.Ok? ==> i < |store.incidents| && store.incidents[i].state == Closed
      ensures res.Err? ==> res.code in {NotFound, StateInvalid, VersionConflict}
      ensures store.alone ==>
                (res.Ok? <==> i < |old(store.incidents)| && old(store.incidents)[i].state == Resolved)
      ensures store.alone && res.Ok? ==>
                var was := old(store.incidents)[i];
                store.State() == old(store.State()).(incidents := old(store.incidents)[i :=
                  was.(state := Closed, version := was.version + 1)])
    {
      hide Inv, Later, Perform, Saw, ByOthers, Sound, Seen, Last;
      if i >= |store.incidents| {
        return Err(NotFound);
      }
      var incident := store.incidents[i];
      if Closed !in IncidentTransitions(incident.state) {
        return Err(StateInvalid);
      }
      JustRead(store.run, IncidentRow(i, incident));
      store.Pause({});
      ghost var before := store.run;
      var change := IncidentChange(incident.version, Closed, incident.count,
                                   incident.resolution, incident.resolvedAt);
      ChangeStep(before, Action.Archive(i, incident), change);
      res := store.ApplyIncident(i, change);
      store.run := Then(before, Action.Archive(i, incident));
      ContinuesTransitive(store.run, before, old(store.run));
    }
  }
}
