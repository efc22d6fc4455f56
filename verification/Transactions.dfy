/** Database transactions around a store: begin, run, then commit or roll back. */
module Transactions {
  import opened Wrappers
  import opened Tables
  import opened Stores

  datatype TransactionError<E> = Execution(error: E) | NotCommitted

  class Transaction {
    const store: Store
    const before: Tables

    constructor (store: Store)
      ensures this.store == store && before == store.Snapshot()
    {
      this.store := store;
      this.before := store.Snapshot();
    }

    method Rollback()
      modifies store
      ensures store.Snapshot() == before
    {
      store.Restore(before);
    }

    /**
     What RunInTransaction does once the atomic function has returned `result`: any error, the
     function's or the commit's, rolls everything back.
     */
    method Finish<E>(result: Outcome<E>, commits: bool) returns (o: Outcome<TransactionError<E>>)
      modifies store
      ensures o == if result.Failed? then Failed(Execution(result.error)) else if !commits then Failed(NotCommitted) else Done
      ensures store.Snapshot() == if o.Done? then old(store.Snapshot()) else before
    {
      o := Done;
      if result.Failed? {
        o := Failed(Execution(result.error));
      } else if !commits {
        o := Failed(NotCommitted);
      }
      // The deferred call, which sees the named error.
      if o.Failed? {
        Rollback();
      }
    }
  }
}
