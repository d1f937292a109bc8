/** Closing permit windows. */
module Catalog {
  import opened Errors
  import opened Tables
  import opened Repositories
  import opened Transactions
  import opened Runs
  import opened Storage
  import opened Invariants
  import opened Safety

  class CatalogService {
    const store: Store

    constructor (store: Store)
      ensures this.store == store
    {
      this.store := store;
    }

    /** Stops a trail day from taking further reservations. */
    method CloseWindow(trail: nat, day: int, now: int) returns (res: Result<()>)
      requires store.Valid()
      modifies store
      ensures store.Valid() && Continues(store.run, old(store.run))
      ensures var known := FindWindow(old(store.windows), trail, day);
              && (res.Ok? ==>
                    known.Some? && known.value < |store.windows| && store.windows[known.value].closedAt == Some(now))
              && (res == Err(NotFound) <==> known.None?)
              && (store.alone ==> (res.Ok? <==> known.Some? && old(store.windows)[known.value].closedAt.None?))
              && (store.alone && res.Ok? ==>
                    var was := old(store.windows)[known.value];
                    store.State() == old(store.State()).(windows := old(store.windows)[known.value :=
                      was.(closedAt := Some(now), version := was.version + 1)]))
      ensures res.Err? ==> res.code in {NotFound, StateInvalid}
    {
      hide Inv, Later, Perform, Saw, ByOthers, Sound, Seen, Last;
      var found := store.FindWindow(trail, day);
      if found.None? {
        return Err(NotFound);
      }
      store.Pause({});
      ghost var before, act := store.run, Action.CloseWindow(found.value, now);
      ServiceStep(before, act);
      res := store.CloseWindow(found.value, now);
      store.run := Then(before, act);
    }
  }
}
