/** Waiving fees. Charging and parking them is the work of the job runner. */
module Settlements {
  import opened Domain
  import opened Errors
  import opened Tables
  import opened Repositories
  import opened Transactions
  import opened Runs
  import opened Storage
  import opened Invariants
  import opened Safety

  class SettlementService {
    const store: Store

    constructor (store: Store)
      ensures this.store == store
    {
      this.store := store;
    }

    /** Writes off a fee that is pending or parked; a final one cannot be waived, and
        one that changed since it was read is a conflict. */
    method Waive(p: nat, note: string) returns (res: Result<()>)
      requires store.Valid()
      modifies store
      ensures store.Valid() && Continues(store.run, old(store.run))
      ensures res.Ok? ==>
                p in store.settlements && store.settlements[p].state == Waived && store.settlements[p].note == note
      ensures store.alone ==>
                && (res.Ok? <==>
                      p in old(store.settlements) && old(store.settlements)[p].state in {Pending, Parked})
                && (res.Err? ==> store.State() == old(store.State()))
                && (res.Ok? ==>
                      var was := old(store.settlements)[p];
                      store.State() == old(store.State()).(settlements := old(store.settlements)[p :=
                        was.(state := Waived, reference := "", note := note, settledAt := None,
                             version := was.version + 1)]))
      ensures res.Err? ==> res.code in {NotFound, StateInvalid, VersionConflict}
    {
      hide Inv, Later, Perform, Saw, ByOthers, Sound, Seen, Last;
      if p !in store.settlements {
        return Err(NotFound);
      }
      var current := store.settlements[p];
      if Waived !in SettlementTransitions(current.state) {
        return Err(StateInvalid);
      }
      JustRead(store.run, SettlementRow(p, current));
      store.Pause({});
      ghost var before, act := store.run, Action.Waive(p, current, note);
      ServiceStep(before, act);
      res := store.ApplySettlement(p, SettlementChange(current.version, Waived, "", note, None));
      store.run := Then(before, act);
    }
  }
}
