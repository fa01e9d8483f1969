/**
  * Per-tenant adapter pools: a TokenConnectionHandle holds the credentials
  * of one tenant database and a list of open adapters to it; the
  * SQLAdapterManager creates one handle per token on first use and hands out
  * the handle's current adapter list.
  */
module Pool {
  import opened Common

  const NO_EXPERIMENT := "No experiment known for the given token!"
  const MULTIPLE_EXPERIMENTS := "Multiple experiments for the same token. A token must be unique!"
  const NOT_POSITIVE := "Number of connections needs to be positive"
  const OVER_LIMIT := "Number of connections cannot exceed the limit"

  /** One row of the administrative `experiments` table: the tenant's credentials. */
  datatype TenantRow = TenantRow(dbUser: string, dbPasswd: string, dbName: string)

  ghost predicate Distinct<T>(s: seq<T>) {
    forall i, j :: 0 <= i < j < |s| ==> s[i] != s[j]
  }

  /** The error loading the tenant's credentials raises, given the administrative query's answer. */
  function LoadError(rows: Result<seq<TenantRow>>): (e: Option<Error>)
    ensures e.None? <==> rows.Ok? && |rows.value| == 1
  {
    match rows
    case Err(err) => Some(err)
    case Ok(rs) =>
      if |rs| == 0 then Some(IllegalState(NO_EXPERIMENT))
      else if |rs| > 1 then Some(IllegalState(MULTIPLE_EXPERIMENTS))
      else None
  }

  /** The error requiring the configured pool size raises, if any. */
  function SizeError(config: Config): (e: Option<Error>)
    ensures e.None? <==> 1 <= config.numAdapterInstances <= config.numAdapterInstancesLimit
  {
    if config.numAdapterInstances < 1 then Some(IllegalArgument(NOT_POSITIVE))
    else if config.numAdapterInstances > config.numAdapterInstancesLimit then Some(IllegalArgument(OVER_LIMIT))
    else None
  }

  /**
    * The error creating a handle raises: a checked SQLException while loading is
    * wrapped into a RuntimeException, the other errors pass unchanged, and the
    * credentials are checked before the size.
    */
  function CreationError(rows: Result<seq<TenantRow>>, config: Config): (e: Option<Error>)
    ensures e.None? <==> LoadError(rows).None? && SizeError(config).None?
    ensures rows.Err? ==> e == Some(RuntimeError(rows.error))
  {
    if rows.Err? then Some(RuntimeError(rows.error))
    else if LoadError(rows).Some? then LoadError(rows)
    else SizeError(config)
  }

  class TokenConnectionHandle {
    const token: Token
    var user: string
    var passwd: string
    var dbName: string
    var numConnections: Int32
    var currentAdapters: seq<Adapter>

    /** The pool holds as many distinct adapters as the recorded connection count. */
    ghost predicate Valid()
      reads this
    {
      numConnections == |currentAdapters| && Distinct(currentAdapters)
    }

    constructor (token: Token)
      ensures this.token == token && Valid()
      ensures currentAdapters == [] && numConnections == 0
      ensures user == "" && passwd == "" && dbName == ""
    {
      this.token := token;
      user, passwd, dbName := "", "", "";
      currentAdapters := [];
      numConnections := 0;
    }

    /**
      * Reads the tenant's credentials from the administrative query's answer
      * `rows` (an `Err` is the SQLException of that query).
      */
    method LoadDatabaseInfo(rows: Result<seq<TenantRow>>) returns (o: Outcome)
      modifies this
      ensures o == (if LoadError(rows).Some? then Fail(LoadError(rows).value) else Pass)
      ensures o.Fail? ==> user == old(user) && passwd == old(passwd) && dbName == old(dbName)
      ensures o.Pass? ==>
                user == rows.value[0].dbUser && passwd == rows.value[0].dbPasswd && dbName == rows.value[0].dbName
      ensures numConnections == old(numConnections) && currentAdapters == old(currentAdapters)
    {
      if rows.Err? {
        return Fail(rows.error);
      }
      var res := rows.value;
      if |res| == 0 {
        return Fail(IllegalState(NO_EXPERIMENT));
      }
      if |res| > 1 {
        return Fail(IllegalState(MULTIPLE_EXPERIMENTS));
      }
      user := res[0].dbUser;
      passwd := res[0].dbPasswd;
      dbName := res[0].dbName;
      o := Pass;
    }

    /**
      * Checks the configured pool size and, when it differs from the recorded
      * one, resizes the pool to it.
      */
    method RequireNumConnectionsMatchesConfig(config: Config, supplier: AdapterSupplier) returns (o: Outcome)
      requires Valid()
      modifies this, supplier, currentAdapters
      ensures Valid()
      ensures o == (if SizeError(config).Some? then Fail(SizeError(config).value) else Pass)
      ensures user == old(user) && passwd == old(passwd) && dbName == old(dbName)
      ensures o.Fail? ==>
                numConnections == old(numConnections) && currentAdapters == old(currentAdapters) &&
                supplier.created == old(supplier.created) &&
                forall a | a in old(currentAdapters) :: a.closed == old(a.closed)
      ensures o.Pass? ==> numConnections == config.numAdapterInstances
      ensures o.Pass? && old(numConnections) == config.numAdapterInstances ==>
                currentAdapters == old(currentAdapters) && supplier.created == old(supplier.created)
                && forall a | a in old(currentAdapters) :: a.closed == old(a.closed)
      ensures o.Pass? && old(numConnections) != config.numAdapterInstances ==>
                Resized(old(currentAdapters), currentAdapters, config.numAdapterInstances)
                && ClosedExactlyDropped(old(currentAdapters), config.numAdapterInstances)
                && FreshFor(old(currentAdapters), currentAdapters, config.dbHost)
                && supplier.created == old(supplier.created) + Added(old(currentAdapters), config.numAdapterInstances)
    {
      var newNumConnections := config.numAdapterInstances;
      if newNumConnections < 1 {
        return Fail(IllegalArgument(NOT_POSITIVE));
      }
      if newNumConnections > config.numAdapterInstancesLimit {
        return Fail(IllegalArgument(OVER_LIMIT));
      }
      var oldVal := numConnections;
      numConnections := newNumConnections;
      if oldVal != newNumConnections {
        ReadjustNumConnections(config.dbHost, supplier, newNumConnections);
      }
      o := Pass;
    }

    /** `after` is `before` resized to `n`: the oldest adapters dropped, or new ones appended. */
    ghost predicate Resized(before: seq<Adapter>, after: seq<Adapter>, n: nat) {
      |after| == n &&
      (n <= |before| ==> after == before[|before| - n..]) &&
      (n > |before| ==> before <= after)
    }

    /** Exactly the dropped adapters are closed; the surviving ones keep their state. */
    twostate predicate ClosedExactlyDropped(before: seq<Adapter>, n: nat)
      reads before
    {
      forall i :: 0 <= i < |before| ==>
        before[i].closed == (if i < |before| - n then true else old(before[i].closed))
    }

    /** Every appended adapter is newly opened with this handle's credentials. */
    twostate predicate FreshFor(before: seq<Adapter>, new after: seq<Adapter>, host: string)
      reads this, after
    {
      forall i :: |before| <= i < |after| ==>
        fresh(after[i]) && !after[i].closed && after[i].host == host &&
        after[i].user == user && after[i].password == passwd && after[i].database == dbName
    }

    function Added(before: seq<Adapter>, n: nat): nat {
      if n > |before| then n - |before| else 0
    }

    /**
      * Drops adapters from the front, closing each, while the pool is too large;
      * then opens adapters while it is too small.  The list is rebuilt as a copy,
      * so a list handed out earlier is never changed.
      */
    method ReadjustNumConnections(host: string, supplier: AdapterSupplier, newNumConnections: nat)
      requires Distinct(currentAdapters)
      modifies this, supplier, currentAdapters
      ensures Distinct(currentAdapters)
      ensures Resized(old(currentAdapters), currentAdapters, newNumConnections)
      ensures ClosedExactlyDropped(old(currentAdapters), newNumConnections)
      ensures FreshFor(old(currentAdapters), currentAdapters, host)
      ensures supplier.created == old(supplier.created) + Added(old(currentAdapters), newNumConnections)
      ensures numConnections == old(numConnections)
      ensures user == old(user) && passwd == old(passwd) && dbName == old(dbName)
    {
      ghost var before := currentAdapters;
      var list := currentAdapters;
      ghost var dropped := 0;
      while newNumConnections < |list|
        invariant 0 <= dropped <= |before| && list == before[dropped..]
        invariant dropped > 0 ==> |list| >= newNumConnections
        invariant forall i :: 0 <= i < |before| ==>
                    before[i].closed == (if i < dropped then true else old(before[i].closed))
        modifies before
      {
        var toBeRemoved := list[0];
        list := list[1..];
        toBeRemoved.Close();
        dropped := dropped + 1;
      }
      assert dropped == (if newNumConnections < |before| then |before| - newNumConnections else 0);
      ghost var kept := list;
      while newNumConnections > |list|
        invariant kept <= list && |list| <= (if |kept| < newNumConnections then newNumConnections else |kept|)
        invariant Distinct(list)
        invariant forall i :: |kept| <= i < |list| ==>
                    fresh(list[i]) && !list[i].closed && list[i].host == host && list[i].user == user
                    && list[i].password == passwd && list[i].database == dbName
        invariant supplier.created == old(supplier.created) + (|list| - |kept|)
        invariant forall i :: 0 <= i < |before| ==> before[i].closed == old(before[i].closed) || i < dropped
        invariant forall i :: 0 <= i < |before| ==>
                    before[i].closed == (if i < dropped then true else old(before[i].closed))
        modifies supplier
      {
        var adapter := supplier.Get(host, user, passwd, dbName);
        list := list + [adapter];
      }
      currentAdapters := list;
    }

    method GetCurrentAdapters() returns (adapters: seq<Adapter>)
      ensures adapters == currentAdapters
    {
      adapters := currentAdapters;
    }
  }

  class SQLAdapterManager {
    var tokenConnectionHandleMap: map<Token, TokenConnectionHandle>
    const provider: AdapterSupplier
    ghost var Repr: set<object>

    /** Every stored handle is keyed by its own token and holds a valid, non-empty pool. */
    ghost predicate Valid()
      reads this, Repr
    {
      this in Repr && provider in Repr &&
      forall t | t in tokenConnectionHandleMap ::
        var h := tokenConnectionHandleMap[t];
        h in Repr && h.token == t && h.Valid() && 1 <= |h.currentAdapters|
    }

    constructor (provider: AdapterSupplier)
      ensures Valid() && fresh(Repr - {provider})
      ensures this.provider == provider && tokenConnectionHandleMap == map[]
    {
      this.provider := provider;
      tokenConnectionHandleMap := map[];
      Repr := {this, provider};
    }

    /**
      * The adapter list a request for `token` sees once `GetAdaptersFor` has
      * returned: the stored handle's list, or the error that prevented storing one.
      */
    ghost function PoolOf(token: Token, config: Config, rows: Result<seq<TenantRow>>): Result<seq<Adapter>>
      reads this, Repr
      requires Valid()
    {
      if token in tokenConnectionHandleMap then Ok(tokenConnectionHandleMap[token].currentAdapters)
      else if CreationError(rows, config).Some? then Err(CreationError(rows, config).value)
      else Err(IllegalState(NO_EXPERIMENT))
    }

    /**
      * Returns the adapters of `token`, creating its handle on first use from the
      * administrative query's answer `rows`.  A stored handle is never resized
      * again, and nothing is stored when creation fails.
      */
    method GetAdaptersFor(token: Token, config: Config, rows: Result<seq<TenantRow>>) returns (r: Result<seq<Adapter>>)
      requires Valid()
      modifies Repr
      ensures Valid() && fresh(Repr - old(Repr))
      ensures r == PoolOf(token, config, rows)
      ensures token in old(tokenConnectionHandleMap) ==>
                tokenConnectionHandleMap == old(tokenConnectionHandleMap) &&
                r == Ok(old(tokenConnectionHandleMap[token].currentAdapters)) &&
                provider.created == old(provider.created)
      ensures token !in old(tokenConnectionHandleMap) ==>
                (r.Ok? <==> CreationError(rows, config).None?) &&
                (r.Err? ==> tokenConnectionHandleMap == old(tokenConnectionHandleMap) &&
                            r.error == CreationError(rows, config).value) &&
                (r.Ok? ==> Created(token, config, rows, r.value))
      ensures forall t | t in old(tokenConnectionHandleMap) :: unchanged(old(tokenConnectionHandleMap)[t])
    {
      if token in tokenConnectionHandleMap {
        var handle := tokenConnectionHandleMap[token];
        var adapters := handle.GetCurrentAdapters();
        return Ok(adapters);
      }
      var created := CreateTokenConnectionHandle(token, config, rows);
      if created.Err? {
        return Err(created.error);
      }
      var handle := created.value;
      tokenConnectionHandleMap := tokenConnectionHandleMap[token := handle];
      Repr := Repr + {handle};
      var adapters := handle.GetCurrentAdapters();
      r := Ok(adapters);
    }

    /**
      * A newly stored handle for `token`: the only new entry of the map, with a
      * pool of the configured size, opened with the credentials of the single row.
      */
    twostate predicate Created(token: Token, config: Config, rows: Result<seq<TenantRow>>, new pool: seq<Adapter>)
      reads this, tokenConnectionHandleMap.Values, provider, pool
    {
      rows.Ok? && |rows.value| == 1 &&
      token in tokenConnectionHandleMap &&
      tokenConnectionHandleMap == old(tokenConnectionHandleMap)[token := tokenConnectionHandleMap[token]] &&
      fresh(tokenConnectionHandleMap[token]) &&
      pool == tokenConnectionHandleMap[token].currentAdapters &&
      |pool| == config.numAdapterInstances &&
      provider.created == old(provider.created) + |pool| &&
      forall a | a in pool ::
        fresh(a) && !a.closed && a.host == config.dbHost && a.user == rows.value[0].dbUser &&
        a.password == rows.value[0].dbPasswd && a.database == rows.value[0].dbName
    }

    method CreateTokenConnectionHandle(token: Token, config: Config, rows: Result<seq<TenantRow>>)
      returns (r: Result<TokenConnectionHandle>)
      modifies provider
      ensures r.Ok? <==> CreationError(rows, config).None?
      ensures r.Err? ==> r.error == CreationError(rows, config).value && provider.created == old(provider.created)
      ensures r.Ok? ==>
                var h := r.value;
                fresh(h) && h.token == token && h.Valid() &&
                h.numConnections == config.numAdapterInstances &&
                provider.created == old(provider.created) + |h.currentAdapters| &&
                forall a | a in h.currentAdapters ::
                  fresh(a) && !a.closed && a.host == config.dbHost && a.user == rows.value[0].dbUser &&
                  a.password == rows.value[0].dbPasswd && a.database == rows.value[0].dbName
    {
      var handle := new TokenConnectionHandle(token);
      var loaded := handle.LoadDatabaseInfo(rows);
      if loaded.Fail? {
        // a checked SQLException is rethrown wrapped into a RuntimeException
        return Err(if rows.Err? then RuntimeError(loaded.error) else loaded.error);
      }
      var sized := handle.RequireNumConnectionsMatchesConfig(config, provider);
      if sized.Fail? {
        return Err(sized.error);
      }
      r := Ok(handle);
    }
  }
}
