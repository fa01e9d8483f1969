/**
  * The adapter arbiters: the cyclic arbiter hands out a tenant's adapters in
  * round-robin order, and the limited-access arbiter admits a bounded number
  * of acquires per tenant before delegating to the cyclic one.
  */
module Arbiter {
  import opened Common
  import opened Pool
  import opened RoundRobin
  import opened Permits

  class CyclicAdapterArbiter {
    var tokenSQLAdapterIndexMap: map<Token, Int32>
    const adapterManager: SQLAdapterManager

    constructor (adapterManager: SQLAdapterManager)
      ensures this.adapterManager == adapterManager && tokenSQLAdapterIndexMap == map[]
    {
      this.adapterManager := adapterManager;
      tokenSQLAdapterIndexMap := map[];
    }

    ghost predicate Valid()
      reads this, adapterManager, adapterManager.Repr
    {
      adapterManager.Valid() && this !in adapterManager.Repr
    }

    /**
      * Reads and increments the token's counter, looks up the token's pool and
      * returns the adapter the value read selects.  The counter is advanced
      * exactly once: the later compare-and-set never finds the value it read.
      */
    method Acquire(token: Token, config: Config, rows: Result<seq<TenantRow>>) returns (r: Result<Adapter>)
      requires Valid()
      modifies this, adapterManager.Repr
      ensures Valid() && fresh(adapterManager.Repr - old(adapterManager.Repr))
      ensures tokenSQLAdapterIndexMap ==
                old(tokenSQLAdapterIndexMap)[token := WrapInc(old(CounterOf(tokenSQLAdapterIndexMap, token)))]
      ensures r == Pick(old(CounterOf(tokenSQLAdapterIndexMap, token)), adapterManager.PoolOf(token, config, rows))
      ensures token in old(adapterManager.tokenConnectionHandleMap) ==>
                adapterManager.tokenConnectionHandleMap == old(adapterManager.tokenConnectionHandleMap)
    {
      var currentIndex := CounterOf(tokenSQLAdapterIndexMap, token);
      tokenSQLAdapterIndexMap := tokenSQLAdapterIndexMap[token := WrapInc(currentIndex)];
      var readIndex := currentIndex;
      var adapters := adapterManager.GetAdaptersFor(token, config, rows);
      if adapters.Err? {
        return Err(adapters.error);
      }
      if currentIndex < 0 {
        return Err(IllegalState(NEGATIVE_INDEX));
      }
      var selected := Normalise(currentIndex, |adapters.value|);
      if selected.Err? {
        // the remainder by an empty pool's size; stored pools are never empty
        return Err(ArithmeticError);
      }
      var next: Int32 := selected.value + 1;
      tokenSQLAdapterIndexMap := CompareAndSet(tokenSQLAdapterIndexMap, token, readIndex, next);
      r := Ok(adapters.value[selected.value]);
    }

    /** Releasing an adapter does nothing: the counters and the adapter stay as they were. */
    method Release(adapter: Adapter, token: Token)
      ensures unchanged(this) && unchanged(adapter)
    {
    }
  }

  class LimitedAccessAdapterArbiter {
    var tokenPermitsMap: map<Token, int>
    const arbiter: CyclicAdapterArbiter

    constructor (arbiter: CyclicAdapterArbiter)
      ensures this.arbiter == arbiter && tokenPermitsMap == map[]
    {
      this.arbiter := arbiter;
      tokenPermitsMap := map[];
    }

    ghost predicate Valid()
      reads this, arbiter, arbiter.adapterManager, arbiter.adapterManager.Repr
    {
      arbiter.Valid() && this !in arbiter.adapterManager.Repr
    }

    /**
      * Takes one of the token's permits (the semaphore is created with the
      * configured limit on first use) and then delegates.  Acquiring waits while
      * no permit is left, so a completed acquire needs one.  The permit stays
      * taken when the delegate fails.
      */
    method Acquire(token: Token, config: Config, rows: Result<seq<TenantRow>>) returns (r: Result<Adapter>)
      requires Valid()
      requires Available(tokenPermitsMap, token, config.numAdapterAccessLimit) > 0
      modifies this, arbiter, arbiter.adapterManager.Repr
      ensures Valid() && fresh(arbiter.adapterManager.Repr - old(arbiter.adapterManager.Repr))
      ensures tokenPermitsMap ==
                old(tokenPermitsMap)[token := old(Available(tokenPermitsMap, token, config.numAdapterAccessLimit)) - 1]
      ensures arbiter.tokenSQLAdapterIndexMap ==
                old(arbiter.tokenSQLAdapterIndexMap)[token := WrapInc(old(CounterOf(arbiter.tokenSQLAdapterIndexMap, token)))]
      ensures r == Pick(old(CounterOf(arbiter.tokenSQLAdapterIndexMap, token)),
                        arbiter.adapterManager.PoolOf(token, config, rows))
    {
      var permits := Available(tokenPermitsMap, token, config.numAdapterAccessLimit);
      tokenPermitsMap := tokenPermitsMap[token := permits - 1];
      r := arbiter.Acquire(token, config, rows);
    }

    /**
      * Returns one permit to the token's semaphore; a token that never acquired
      * has none.  The delegate's release is not called.
      */
    method Release(adapter: Adapter, token: Token) returns (o: Outcome)
      modifies this
      ensures token !in old(tokenPermitsMap) ==>
                o == Fail(IllegalState(NOT_INITIALIZED)) && tokenPermitsMap == old(tokenPermitsMap)
      ensures token in old(tokenPermitsMap) ==>
                o == Pass && tokenPermitsMap == old(tokenPermitsMap)[token := old(tokenPermitsMap[token]) + 1]
    {
      if token !in tokenPermitsMap {
        return Fail(IllegalState(NOT_INITIALIZED));
      }
      tokenPermitsMap := tokenPermitsMap[token := tokenPermitsMap[token] + 1];
      o := Pass;
    }
  }
}
