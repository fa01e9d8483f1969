/**
  * The REST query controller: every handler checks the statement, asks the
  * interceptor chain for a connection, hands the statement to the adapter and
  * closes the connection again, running the hooks the chain registered.
  */
module Controller {
  import opened Common
  import opened Interceptors

  const SEMICOLONS := "Query contains semicolons (;) which is not allowed."
  const NOT_ALLOWED := "Query is not allowed"

  /** The three statement handlers. */
  datatype Endpoint = QueryEndpoint | UpdateEndpoint | InsertEndpoint

  /** The call a handler makes on the adapter it was given. */
  datatype AdapterCall =
    | AdapterQuery(sql: string)
    | AdapterUpdate(sql: string)
    | AdapterInsert(sql: string, values: seq<string>)

  /** A statement is legal exactly when it holds no semicolon. */
  function AssertLegalQuery(query: string): (o: Outcome)
    ensures o.Pass? <==> ';' !in query
    ensures o.Fail? ==> o.error == IllegalArgument(SEMICOLONS)
  {
    if ';' in query then Fail(IllegalArgument(SEMICOLONS)) else Pass
  }

  /** The handlers' check: any failure of the statement check is reported as a disallowed query. */
  function Validate(query: string): (o: Outcome)
    ensures o.Pass? <==> AssertLegalQuery(query).Pass?
    ensures o.Fail? ==> o.error == IllegalArgument(NOT_ALLOWED)
  {
    match AssertLegalQuery(query)
    case Pass => Pass
    case Fail(_) => Fail(IllegalArgument(NOT_ALLOWED))
  }

  /** The adapter call of each handler; an insert binds no values. */
  function CallFor(endpoint: Endpoint, sql: string): AdapterCall {
    match endpoint
    case QueryEndpoint => AdapterQuery(sql)
    case UpdateEndpoint => AdapterUpdate(sql)
    case InsertEndpoint => AdapterInsert(sql, [])
  }

  /**
    * A try-with-resources block: the body's exception wins over one thrown by
    * the close, and a failed close alone replaces the body's result.
    */
  function WithResource<T>(body: Result<T>, close: Outcome): (r: Result<T>)
    ensures r.Ok? <==> body.Ok? && close.Pass?
    ensures r.Ok? ==> r == body
    ensures body.Err? ==> r == body
    ensures body.Ok? && close.Fail? ==> r == Err(close.error)
  {
    if body.Err? then body
    else if close.Fail? then Err(close.error)
    else body
  }

  /** The object a hook tag names: the stage that registered the hook. */
  function TagObject(t: HookTag): object {
    match t
    case PermitTag(l) => l
    case LatencyTag(m) => m
    case TimerTag(w) => w
  }

  /** Every hook a chain registers names one of the chain's stages. */
  lemma {:induction false} ChainTagsInStages(i: Interceptor)
    ensures forall t | t in ChainTags(i) :: TagObject(t) in Stages(i)
  {
    match i
    case Cyclic(_) =>
    case Limited(l, p) => ChainTagsInStages(p);
    case Recorded(rec, p) => ChainTagsInStages(p);
    case Watched(w, p) => ChainTagsInStages(p);
  }

  lemma {:induction false} TagsListed(hs: seq<CloseHook>)
    ensures forall k | 0 <= k < |hs| :: Tag(hs[k]) in Tags(hs)
  {
    if hs != [] {
      TagsListed(hs[..|hs| - 1]);
      assert forall k | 0 <= k < |hs| - 1 :: hs[..|hs| - 1][k] == hs[k];
    }
  }

  /** A hook changes the stage its tag names and, for a watchdog, its own timer. */
  lemma TargetsCovered(hs: seq<CloseHook>, stages: set<object>)
    requires forall t | t in Tags(hs) :: TagObject(t) in stages
    ensures AllHookTargets(hs) <= stages + TimersOf(hs)
  {
    TagsListed(hs);
    forall k | 0 <= k < |hs|
      ensures HookTargets(hs[k]) <= stages + TimersOf(hs)
    {
      assert TagObject(Tag(hs[k])) in stages;
    }
  }

  /** The stages of a chain that existed before existed before. */
  twostate lemma {:induction false} ChainAllocated(i: Interceptor)
    requires old(allocated(i))
    ensures old(allocated(Stages(i)))
  {
    match i
    case Cyclic(_) =>
    case Limited(_, p) => ChainAllocated(p);
    case Recorded(_, p) => ChainAllocated(p);
    case Watched(_, p) => ChainAllocated(p);
  }

  /**
    * Runs the adapter's answer through the try-with-resources block: the
    * connection is closed, running its hooks in order, whether the adapter
    * call returned or threw.
    */
  method CloseAfter<T>(connection: ClosableQuery, answer: Result<T>, now: int)
    returns (r: Result<T>, done: nat, o: Outcome)
    modifies AllHookTargets(connection.closeHooks)
    ensures connection.closeHooks == old(connection.closeHooks)
    ensures done <= |connection.closeHooks| && (o.Pass? <==> done == |connection.closeHooks|)
    ensures StateOf(connection.closeHooks) ==
            AfterHooks(old(StateOf(connection.closeHooks)), connection.closeHooks[..done], connection.query.token, now)
    ensures r == WithResource(answer, o)
  {
    done, o := connection.Close(now);
    r := WithResource(answer, o);
  }

  class QueryController {
    const iQueryInterceptor: Interceptor
    const runtimeModel: QueryRuntimeModel

    constructor (access: Interceptor, runtimeModel: QueryRuntimeModel)
      ensures iQueryInterceptor == access && this.runtimeModel == runtimeModel
    {
      iQueryInterceptor := access;
      this.runtimeModel := runtimeModel;
    }

    /**
      * One request to `endpoint`: the statement is checked first and nothing
      * is requested when it is illegal; otherwise the chain is asked for a
      * connection, the adapter answers `answer` to the handler's call, and the
      * connection is closed at `closedAt`.  `requested` is what the chain
      * returned, `before` the state of its hooks' targets just before the
      * close, `closed` the close's outcome and `done` the hooks it ran.
      */
    method Handle<T>(endpoint: Endpoint, query: SQLQuery, env: Env, answer: Result<T>, closedAt: int)
      returns (r: Result<T>, issued: Option<AdapterCall>,
               ghost requested: Result<ClosableQuery>, ghost before: HookState, ghost done: nat,
               ghost closed: Outcome)
      requires ChainValid(iQueryInterceptor)
      requires ';' !in query.query ==> Admits(iQueryInterceptor, query.token, env.config.numAdapterAccessLimit)
      modifies Footprint(iQueryInterceptor)
      ensures ';' in query.query ==>
                r == Err(IllegalArgument(NOT_ALLOWED)) && issued.None? &&
                (ChainAllocated(iQueryInterceptor); unchanged(Stages(iQueryInterceptor)))
      ensures ';' !in query.query && requested.Err? ==> r == Err(requested.error) && issued.None?
      ensures ';' !in query.query && requested.Ok? ==>
                var c := requested.value;
                fresh(c) && c.query == query && Tags(c.closeHooks) == old(ChainTags(iQueryInterceptor)) &&
                issued == Some(CallFor(endpoint, query.query)) &&
                done <= |c.closeHooks| && (closed.Pass? <==> done == |c.closeHooks|) &&
                StateOf(c.closeHooks) == AfterHooks(before, c.closeHooks[..done], query.token, closedAt) &&
                r == WithResource(answer, closed)
    {
      var legal := Validate(query.query);
      if legal.Fail? {
        return Err(legal.error), None, Err(legal.error), HookState(map[], map[], map[], map[]), 0, Pass;
      }
      ChainTagsInStages(iQueryInterceptor);
      ghost var stages := Stages(iQueryInterceptor);
      var got := Request(iQueryInterceptor, query, env);
      requested := got;
      if got.Err? {
        return Err(got.error), None, requested, HookState(map[], map[], map[], map[]), 0, Pass;
      }
      var connection := got.value;
      issued := Some(CallFor(endpoint, query.query));
      TargetsCovered(connection.closeHooks, stages);
      before := StateOf(connection.closeHooks);
      var ran, o;
      r, ran, o := CloseAfter(connection, answer, closedAt);
      done, closed := ran, o;
    }
  }
}
