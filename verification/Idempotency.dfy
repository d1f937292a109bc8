/** Purging expired idempotency records. */
module Idempotency {
  import opened Errors
  import opened Tables
  import opened Repositories
  import opened Transactions
  import opened Runs
  import opened Storage
  import opened Invariants
  import opened Safety

  class Manager {
    const store: Store

    constructor (store: Store)
      ensures this.store == store
    {
      this.store := store;
    }

    /** Removes exactly the records whose time is over. */
    method Purge(now: int)
      requires store.Valid()
      modifies store
      ensures store.Valid() && Continues(store.run, old(store.run))
      ensures forall k :: k in store.records <==> k in old(store.records) && old(store.records)[k].expiresAt > now
      ensures forall k :: k in store.records ==> store.records[k] == old(store.records)[k]
    {
      hide Inv, Later, Perform, Saw, Sound, Seen, Last;
      ghost var before, act := store.run, Action.Purge(now);
      ServiceStep(before, act);
      store.DeleteExpired(now);
      store.run := Then(before, act);
    }
  }
}
