/**
  * The request path: a chain of interceptors, each wrapping the previous one,
  * turns a query into a ClosableQuery (the arbitrated adapter plus the close
  * hooks the stages registered).  Closing it runs the hooks in registration
  * order: the innermost stage's hook first.
  *
  * Stages: the cyclic connection arbiter at the bottom, then any number of
  * limited-access, latency-recording and watchdog stages.  A stage's
  * previous interceptor is carried by the `Interceptor` value, and every
  * stage method asks its previous interceptor through `Request`.
  */
module Interceptors {
  import opened Common
  import opened Pool
  import opened RoundRobin
  import opened Permits
  import opened WatchdogLogic

  const TIMER_UNFINISHED := "The query timer has not finished"
  const WATCHDOG_RUNNING := "A watchdog thread is already running. Cannot start a second one."
  const WATCHDOG_UNDEAD := "Couldn't destroy the watch dog. Logging for new queries has been disabled though."

  /**
    * What a request takes from outside the core: the configuration, the
    * administrative query's answer for a tenant seen for the first time, the
    * clock reading the stages take once the chain below them has answered
    * (taking a permit never waits here, so every stage reads the same value),
    * and the latency digest's estimate of the configured quantile.
    */
  datatype Env = Env(config: Config, tenantRows: Result<seq<TenantRow>>, now: int, quantileEstimate: int)

  /** The latency samples recorded so far, in order (the quantile digest over them is not modelled). */
  class QueryRuntimeModel {
    var samples: seq<int>

    constructor ()
      ensures samples == []
    {
      samples := [];
    }

    method RecordQueryTime(time: int)
      modifies this
      ensures samples == old(samples) + [time]
    {
      samples := samples + [time];
    }

    function GetSampleCount(): nat
      reads this
    {
      |samples|
    }

    method Reset()
      modifies this
      ensures samples == []
    {
      samples := [];
    }
  }

  /** The actions the stages register to run when a query's connection is closed. */
  datatype CloseHook =
    | PermitRelease(limiter: LimitedAccessConnectionInterceptor)
    | LatencyRecord(runtimeModel: QueryRuntimeModel, timeWhenQueried: int)
    | WatchdogTimer(timer: WatchTimer)

  /** The objects a hook changes when it runs. */
  function HookTargets(h: CloseHook): set<object> {
    match h
    case PermitRelease(l) => {l}
    case LatencyRecord(m, _) => {m}
    case WatchdogTimer(t) => {t, t.owner}
  }

  function LimitersOf(hs: seq<CloseHook>): set<LimitedAccessConnectionInterceptor> {
    set k | 0 <= k < |hs| && hs[k].PermitRelease? :: hs[k].limiter
  }

  function ModelsOf(hs: seq<CloseHook>): set<QueryRuntimeModel> {
    set k | 0 <= k < |hs| && hs[k].LatencyRecord? :: hs[k].runtimeModel
  }

  function TimersOf(hs: seq<CloseHook>): set<WatchTimer> {
    set k | 0 <= k < |hs| && hs[k].WatchdogTimer? :: hs[k].timer
  }

  function OwnersOf(hs: seq<CloseHook>): set<WatchdogInterceptor> {
    set k | 0 <= k < |hs| && hs[k].WatchdogTimer? :: hs[k].timer.owner
  }

  /** Every object some hook of `hs` changes. */
  function AllHookTargets(hs: seq<CloseHook>): (s: set<object>)
    ensures forall k :: 0 <= k < |hs| ==> HookTargets(hs[k]) <= s
  {
    LimitersOf(hs) + ModelsOf(hs) + TimersOf(hs) + OwnersOf(hs)
  }

  /** What a watchdog's hooks can see of it. */
  datatype WatchdogState = WatchdogState(queue: seq<WatchTimer>, active: bool, cache: ThresholdCache)

  /** The state of every hook target of a query, as values. */
  datatype HookState = HookState(
    permits: map<LimitedAccessConnectionInterceptor, map<Token, int>>,
    samples: map<QueryRuntimeModel, seq<int>>,
    views: map<WatchTimer, TimerView>,
    watchdogs: map<WatchdogInterceptor, WatchdogState>)

  ghost function PermitsOf(hs: seq<CloseHook>): map<LimitedAccessConnectionInterceptor, map<Token, int>>
    reads LimitersOf(hs)
  {
    map l | l in LimitersOf(hs) :: l.tokenPermitsMap
  }

  ghost function SamplesOf(hs: seq<CloseHook>): map<QueryRuntimeModel, seq<int>>
    reads ModelsOf(hs)
  {
    map m | m in ModelsOf(hs) :: m.samples
  }

  ghost function ViewsOf(hs: seq<CloseHook>): map<WatchTimer, TimerView>
    reads TimersOf(hs)
  {
    map t | t in TimersOf(hs) :: t.View()
  }

  ghost function WatchdogsOf(hs: seq<CloseHook>): map<WatchdogInterceptor, WatchdogState>
    reads OwnersOf(hs)
  {
    map w | w in OwnersOf(hs) :: WatchdogState(w.queryTimers, w.isActive, w.Cache())
  }

  ghost function StateOf(hs: seq<CloseHook>): HookState
    reads AllHookTargets(hs)
  {
    HookState(PermitsOf(hs), SamplesOf(hs), ViewsOf(hs), WatchdogsOf(hs))
  }

  /**
    * One hook run at `now` for a query of `token`: a permit goes back to a
    * limiter that knows the token, a latency is appended, a timer finishes and
    * goes back to its watchdog's queue if it is overdue.
    */
  function AfterHook(s: HookState, h: CloseHook, token: Token, now: int): HookState {
    match h
    case PermitRelease(l) =>
      if l in s.permits && token in s.permits[l]
      then s.(permits := s.permits[l := s.permits[l][token := s.permits[l][token] + 1]])
      else s
    case LatencyRecord(m, timeWhenQueried) =>
      if m in s.samples then s.(samples := s.samples[m := s.samples[m] + [now - timeWhenQueried]]) else s
    case WatchdogTimer(t) =>
      var s1 := if t in s.views then s.(views := s.views[t := Finish(s.views[t], now)]) else s;
      if t.owner in s1.watchdogs && t.OverdueAt(now)
      then s1.(watchdogs := s1.watchdogs[t.owner := s1.watchdogs[t.owner].(queue := s1.watchdogs[t.owner].queue + [t])])
      else s1
  }

  /** The hooks `p` run in order. */
  function AfterHooks(s: HookState, p: seq<CloseHook>, token: Token, now: int): HookState {
    if p == [] then s else AfterHook(AfterHooks(s, p[..|p| - 1], token, now), p[|p| - 1], token, now)
  }

  /** How many of the hooks return a permit to `l`. */
  function Releases(hs: seq<CloseHook>, l: LimitedAccessConnectionInterceptor): nat {
    if hs == [] then 0
    else Releases(hs[..|hs| - 1], l) + (if hs[|hs| - 1] == PermitRelease(l) then 1 else 0)
  }

  /** The latencies the hooks record into `m` when run at `now`, in order. */
  function Latencies(hs: seq<CloseHook>, m: QueryRuntimeModel, now: int): seq<int> {
    if hs == [] then []
    else
      var h := hs[|hs| - 1];
      Latencies(hs[..|hs| - 1], m, now) +
      (if h.LatencyRecord? && h.runtimeModel == m then [now - h.timeWhenQueried] else [])
  }

  /** The timers of `w` that the hooks put back into its queue when run at `now`, in order. */
  function Requeues(hs: seq<CloseHook>, w: WatchdogInterceptor, now: int): seq<WatchTimer> {
    if hs == [] then []
    else
      var h := hs[|hs| - 1];
      Requeues(hs[..|hs| - 1], w, now) +
      (if h.WatchdogTimer? && h.timer.owner == w && h.timer.OverdueAt(now) then [h.timer] else [])
  }

  /** A limiter that knows the token gets back one permit per release hook, and nothing else changes for it. */
  lemma {:induction false} PermitsReturned(s: HookState, p: seq<CloseHook>, token: Token, now: int,
                                           l: LimitedAccessConnectionInterceptor)
    requires l in s.permits && token in s.permits[l]
    ensures l in AfterHooks(s, p, token, now).permits
    ensures AfterHooks(s, p, token, now).permits[l] == s.permits[l][token := s.permits[l][token] + Releases(p, l)]
  {
    if p != [] {
      PermitsReturned(s, p[..|p| - 1], token, now, l);
    }
  }

  /** A runtime model receives the latencies of its hooks, in hook order. */
  lemma {:induction false} LatenciesRecorded(s: HookState, p: seq<CloseHook>, token: Token, now: int,
                                             m: QueryRuntimeModel)
    requires m in s.samples
    ensures m in AfterHooks(s, p, token, now).samples
    ensures AfterHooks(s, p, token, now).samples[m] == s.samples[m] + Latencies(p, m, now)
  {
    if p != [] {
      LatenciesRecorded(s, p[..|p| - 1], token, now, m);
    }
  }

  /** A watchdog's queue gets back its overdue timers, in hook order; its flag and cache stay. */
  lemma {:induction false} TimersRequeued(s: HookState, p: seq<CloseHook>, token: Token, now: int,
                                          w: WatchdogInterceptor)
    requires w in s.watchdogs
    ensures w in AfterHooks(s, p, token, now).watchdogs
    ensures AfterHooks(s, p, token, now).watchdogs[w] ==
            s.watchdogs[w].(queue := s.watchdogs[w].queue + Requeues(p, w, now))
  {
    if p != [] {
      var init, h := p[..|p| - 1], p[|p| - 1];
      TimersRequeued(s, init, token, now, w);
      var s1 := AfterHooks(s, init, token, now);
      assert AfterHooks(s, p, token, now) == AfterHook(s1, h, token, now);
      assert Requeues(p, w, now) ==
             Requeues(init, w, now) + (if h.WatchdogTimer? && h.timer.owner == w && h.timer.OverdueAt(now) then [h.timer] else []);
    }
  }

  /** A timer whose hook ran has finished at `now`, however often it ran; any other timer is untouched. */
  lemma {:induction false} TimersFinished(s: HookState, p: seq<CloseHook>, token: Token, now: int, t: WatchTimer)
    requires t in s.views
    ensures t in AfterHooks(s, p, token, now).views
    ensures AfterHooks(s, p, token, now).views[t] ==
            (if WatchdogTimer(t) in p then Finish(s.views[t], now) else s.views[t])
  {
    if p != [] {
      var init := p[..|p| - 1];
      TimersFinished(s, init, token, now, t);
      assert p == init + [p[|p| - 1]];
    }
  }

  /** A query's own object is never the target of a hook. */
  lemma NotATarget(hs: seq<CloseHook>, c: ClosableQuery)
    ensures c !in AllHookTargets(hs)
  {
  }

  class ClosableQuery {
    const query: SQLQuery
    const adapter: Adapter
    var closeHooks: seq<CloseHook>

    constructor (adapter: Adapter, query: SQLQuery)
      ensures this.adapter == adapter && this.query == query && closeHooks == []
    {
      this.adapter := adapter;
      this.query := query;
      closeHooks := [];
    }

    method AddCloseHook(closeHook: CloseHook)
      modifies this
      ensures closeHooks == old(closeHooks) + [closeHook]
    {
      closeHooks := closeHooks + [closeHook];
    }

    /**
      * Runs the hooks in the order they were added, stopping at the first that
      * fails; `done` hooks completed.  The hooks are kept, so closing again runs
      * them again.
      */
    method Close(now: int) returns (done: nat, o: Outcome)
      modifies AllHookTargets(closeHooks)
      ensures closeHooks == old(closeHooks)
      ensures done <= |closeHooks| && (o.Pass? <==> done == |closeHooks|)
      ensures o.Fail? ==> closeHooks[done].PermitRelease? && o.error == IllegalState(NOT_INITIALIZED)
                          && query.token !in closeHooks[done].limiter.tokenPermitsMap
      ensures StateOf(closeHooks) == AfterHooks(old(StateOf(closeHooks)), closeHooks[..done], query.token, now)
    {
      NotATarget(closeHooks, this);
      var i := 0;
      while i < |closeHooks|
        invariant closeHooks == old(closeHooks) && i <= |closeHooks|
        invariant StateOf(closeHooks) == AfterHooks(old(StateOf(closeHooks)), closeHooks[..i], query.token, now)
      {
        var r := RunHook(closeHooks, i, now);
        if r.Fail? {
          return i, r;
        }
        assert closeHooks[..i + 1][..i] == closeHooks[..i];
        i := i + 1;
      }
      assert closeHooks[..i] == closeHooks;
      done, o := i, Pass;
    }

    /** The action of the k-th hook of `hooks` on this query. */
    method RunHook(hooks: seq<CloseHook>, k: nat, now: int) returns (o: Outcome)
      requires k < |hooks|
      modifies HookTargets(hooks[k])
      ensures o.Fail? <==> hooks[k].PermitRelease? && query.token !in old(hooks[k].limiter.tokenPermitsMap)
      ensures o.Fail? ==> o.error == IllegalState(NOT_INITIALIZED) && unchanged(HookTargets(hooks[k]))
      ensures StateOf(hooks) == if o.Pass? then AfterHook(old(StateOf(hooks)), hooks[k], query.token, now)
                                else old(StateOf(hooks))
    {
      match hooks[k]
      case PermitRelease(l) =>
        o := ReleasePermit(hooks, k, now);
      case LatencyRecord(m, timeWhenQueried) =>
        RecordLatency(hooks, k, now);
        o := Pass;
      case WatchdogTimer(t) =>
        FinishTimer(hooks, k, now);
        o := Pass;
    }

    /** A permit-release hook: the limiter's `release` for this query. */
    method ReleasePermit(hooks: seq<CloseHook>, k: nat, now: int) returns (o: Outcome)
      requires k < |hooks| && hooks[k].PermitRelease?
      modifies hooks[k].limiter
      ensures o.Fail? <==> query.token !in old(hooks[k].limiter.tokenPermitsMap)
      ensures o.Fail? ==> o.error == IllegalState(NOT_INITIALIZED) && unchanged(hooks[k].limiter)
      ensures StateOf(hooks) == if o.Pass? then AfterHook(old(StateOf(hooks)), hooks[k], query.token, now)
                                else old(StateOf(hooks))
    {
      var l := hooks[k].limiter;
      o := l.Release(this);
      assert l in LimitersOf(hooks);
      assert PermitsOf(hooks) == old(PermitsOf(hooks))[l := l.tokenPermitsMap];
      assert SamplesOf(hooks) == old(SamplesOf(hooks));
      assert ViewsOf(hooks) == old(ViewsOf(hooks));
      assert WatchdogsOf(hooks) == old(WatchdogsOf(hooks));
    }

    /** A latency hook: the time since the query was issued goes to the runtime model. */
    method RecordLatency(hooks: seq<CloseHook>, k: nat, now: int)
      requires k < |hooks| && hooks[k].LatencyRecord?
      modifies hooks[k].runtimeModel
      ensures StateOf(hooks) == AfterHook(old(StateOf(hooks)), hooks[k], query.token, now)
    {
      var m := hooks[k].runtimeModel;
      m.RecordQueryTime(now - hooks[k].timeWhenQueried);
      assert m in ModelsOf(hooks);
      assert SamplesOf(hooks) == old(SamplesOf(hooks))[m := m.samples];
      assert PermitsOf(hooks) == old(PermitsOf(hooks));
      assert ViewsOf(hooks) == old(ViewsOf(hooks));
      assert WatchdogsOf(hooks) == old(WatchdogsOf(hooks));
    }

    /** A timer hook: the timer finishes and, when overdue, goes back to its watchdog's queue. */
    method FinishTimer(hooks: seq<CloseHook>, k: nat, now: int)
      requires k < |hooks| && hooks[k].WatchdogTimer?
      modifies hooks[k].timer, hooks[k].timer.owner
      ensures StateOf(hooks) == AfterHook(old(StateOf(hooks)), hooks[k], query.token, now)
    {
      var t := hooks[k].timer;
      // the timer's action: mark it finished, then wake the watch loop
      t.SetFinished(now);
      assert t in TimersOf(hooks) && t.owner in OwnersOf(hooks);
      ghost var s0 := old(StateOf(hooks));
      assert s0.views[t] == old(t.View());
      assert s0.watchdogs[t.owner] == old(WatchdogState(t.owner.queryTimers, t.owner.isActive, t.owner.Cache()));
      assert ViewsOf(hooks) == s0.views[t := Finish(s0.views[t], now)];
      ghost var w0 := s0.watchdogs[t.owner];
      if t.OverdueAt(now) {
        assert WatchdogsOf(hooks) == s0.watchdogs[t.owner := w0.(queue := w0.queue + [t])];
      } else {
        assert WatchdogState(t.owner.queryTimers, t.owner.isActive, t.owner.Cache()) == w0;
        assert WatchdogsOf(hooks) == s0.watchdogs;
      }
      assert PermitsOf(hooks) == s0.permits;
      assert SamplesOf(hooks) == s0.samples;
    }
  }

  /** The chain of interceptors, innermost last. */
  datatype Interceptor =
    | Cyclic(arbiter: CyclicConnectionArbiter)
    | Limited(limiter: LimitedAccessConnectionInterceptor, prev: Interceptor)
    | Recorded(recorder: QueryTimeRecorder, prev: Interceptor)
    | Watched(watchdog: WatchdogInterceptor, prev: Interceptor)

  /** The arbiter at the bottom of the chain. */
  function Leaf(i: Interceptor): CyclicConnectionArbiter {
    match i
    case Cyclic(a) => a
    case Limited(_, p) => Leaf(p)
    case Recorded(_, p) => Leaf(p)
    case Watched(_, p) => Leaf(p)
  }

  /** The stage objects of the chain. */
  function Stages(i: Interceptor): set<object> {
    match i
    case Cyclic(a) => {a, a.adapterManager}
    case Limited(l, p) => {l} + Stages(p)
    case Recorded(rec, p) => {rec, rec.runtimeModel} + Stages(p)
    case Watched(w, p) => {w} + Stages(p)
  }

  /** Everything a request through the chain, or the close of its connection, may change. */
  ghost function Footprint(i: Interceptor): set<object>
    reads Leaf(i).adapterManager
  {
    Stages(i) + Leaf(i).adapterManager.Repr
  }

  lemma LeafInStages(i: Interceptor)
    ensures Leaf(i) in Stages(i) && Leaf(i).adapterManager in Stages(i)
  {
  }

  /** Every stage object appears once: none is among the stages below it. */
  predicate StagesApart(i: Interceptor) {
    match i
    case Cyclic(_) => true
    case Limited(l, p) => l !in Stages(p) && StagesApart(p)
    case Recorded(rec, p) => rec.runtimeModel !in Stages(p) && StagesApart(p)
    case Watched(w, p) => w !in Stages(p) && StagesApart(p)
  }

  /** The stages are apart, the arbiter is valid and no stage lies inside the adapter manager's objects. */
  ghost predicate ChainValid(i: Interceptor)
    reads Leaf(i).adapterManager, Leaf(i).adapterManager.Repr
  {
    LeafInStages(i);
    var m := Leaf(i).adapterManager;
    StagesApart(i) && Leaf(i).Valid() && (Stages(i) - {m}) !! m.Repr
  }

  /** Every limited-access stage has a permit left for `token`: a request only completes then. */
  ghost predicate Admits(i: Interceptor, token: Token, limit: int)
    reads Stages(i)
  {
    match i
    case Cyclic(_) => true
    case Limited(l, p) => Available(l.tokenPermitsMap, token, limit) > 0 && Admits(p, token, limit)
    case Recorded(_, p) => Admits(p, token, limit)
    case Watched(_, p) => Admits(p, token, limit)
  }

  /** The kind and owner of a close hook. */
  datatype HookTag =
    | PermitTag(limiter: LimitedAccessConnectionInterceptor)
    | LatencyTag(runtimeModel: QueryRuntimeModel)
    | TimerTag(watchdog: WatchdogInterceptor)

  function Tag(h: CloseHook): HookTag {
    match h
    case PermitRelease(l) => PermitTag(l)
    case LatencyRecord(m, _) => LatencyTag(m)
    case WatchdogTimer(t) => TimerTag(t.owner)
  }

  function Tags(hs: seq<CloseHook>): seq<HookTag> {
    if hs == [] then [] else Tags(hs[..|hs| - 1]) + [Tag(hs[|hs| - 1])]
  }

  /**
    * The hooks a request through the chain registers, in order: each stage
    * adds its own after the stages below it (a watchdog only while active).
    */
  function ChainTags(i: Interceptor): seq<HookTag>
    reads Stages(i)
  {
    match i
    case Cyclic(_) => []
    case Limited(l, p) => ChainTags(p) + [PermitTag(l)]
    case Recorded(rec, p) => ChainTags(p) + [LatencyTag(rec.runtimeModel)]
    case Watched(w, p) => ChainTags(p) + (if w.isActive then [TimerTag(w)] else [])
  }

  /** The round-robin counter of the query's tenant at the chain's arbiter. */
  function CounterRead(i: Interceptor, q: SQLQuery): Int32
    reads Leaf(i)
  {
    CounterOf(Leaf(i).tokenSQLAdapterIndexMap, q.token)
  }

  /**
    * The arbiter at the bottom of the chain has advanced the counter of the
    * query's tenant once, from its value in `before`, with int wrap-around,
    * and left every other tenant's counter alone.
    */
  ghost predicate Advanced(i: Interceptor, q: SQLQuery, before: map<Token, Int32>)
    reads Leaf(i)
  {
    Leaf(i).tokenSQLAdapterIndexMap == before[q.token := WrapInc(CounterOf(before, q.token))]
  }

  /**
    * The bottom arbiter's part of a request, given the counter value it read:
    * the outcome is exactly its pick, and a success holds the query and the
    * picked adapter.
    */
  ghost predicate LeafServed(a: CyclicConnectionArbiter, q: SQLQuery, env: Env, counter: Int32, r: Result<ClosableQuery>)
    reads a.adapterManager, a.adapterManager.Repr
  {
    a.Valid() &&
    var pick := Pick(counter, a.adapterManager.PoolOf(q.token, env.config, env.tenantRows));
    (r.Ok? <==> pick.Ok?) &&
    (r.Err? ==> r.error == pick.error) &&
    (r.Ok? ==> r.value.query == q && r.value.adapter == pick.value)
  }

  /** A hook registered during a request at `now`: a latency is measured from then, a timer started then. */
  predicate Timed(h: CloseHook, now: int) {
    (h.LatencyRecord? ==> h.timeWhenQueried == now) &&
    (h.WatchdogTimer? ==> h.timer.timeStarted == now)
  }

  predicate AllTimed(hs: seq<CloseHook>, now: int) {
    forall k | 0 <= k < |hs| :: Timed(hs[k], now)
  }

  /** Appending a hook registered now keeps the hooks timed and extends their tags. */
  lemma HookAppended(hooks: seq<CloseHook>, h: CloseHook, now: int)
    requires AllTimed(hooks, now) && Timed(h, now)
    ensures AllTimed(hooks + [h], now)
    ensures Tags(hooks + [h]) == Tags(hooks) + [Tag(h)]
  {
    assert (hooks + [h])[..|hooks|] == hooks;
  }

  /**
    * The outcome of a request through chain `i`, given the counter value the
    * arbiter read and the chain's hooks when the request began: exactly the
    * arbiter's pick; on success a ClosableQuery outside the chain's footprint
    * carrying those hooks in order, all registered at the request's time.
    */
  ghost predicate Served(i: Interceptor, q: SQLQuery, env: Env, counter: Int32, tags: seq<HookTag>,
                         r: Result<ClosableQuery>)
    reads Leaf(i).adapterManager, Leaf(i).adapterManager.Repr, if r.Ok? then {r.value} else {}
  {
    LeafServed(Leaf(i), q, env, counter, r) &&
    (r.Ok? ==> r.value !in Footprint(i) && Tags(r.value.closeHooks) == tags && AllTimed(r.value.closeHooks, env.now))
  }

  /** Asks chain `i` for a connection for `q`. */
  method Request(i: Interceptor, q: SQLQuery, env: Env) returns (r: Result<ClosableQuery>)
    requires ChainValid(i) && Admits(i, q.token, env.config.numAdapterAccessLimit)
    modifies Footprint(i)
    ensures ChainValid(i) && fresh(Footprint(i) - old(Footprint(i)))
    ensures r.Ok? ==> fresh(r.value) && fresh(TimersOf(r.value.closeHooks))
    ensures Served(i, q, env, old(CounterRead(i, q)), old(ChainTags(i)), r)
    ensures Advanced(i, q, old(Leaf(i).tokenSQLAdapterIndexMap))
    decreases i, 0
  {
    match i
    case Cyclic(a) =>
      r := a.RequestConnection(q, env);
    case Limited(l, p) =>
      r := l.RequestConnection(q, env, p);
    case Recorded(rec, p) =>
      r := rec.RequestConnection(q, env, p);
    case Watched(w, p) =>
      ghost var timer;
      r, timer := w.RequestConnection(q, env, p);
  }

  /**
    * Registers a hook on a query chain `i` served: the tags grow by the hook's,
    * and the chain itself is left as it was.
    */
  method Attach(i: Interceptor, c: ClosableQuery, h: CloseHook, q: SQLQuery, env: Env,
                ghost counter: Int32, ghost tags: seq<HookTag>)
    requires ChainValid(i) && Served(i, q, env, counter, tags, Ok(c)) && Timed(h, env.now)
    modifies c
    ensures c.closeHooks == old(c.closeHooks) + [h]
    ensures ChainValid(i) && Footprint(i) == old(Footprint(i))
    ensures Leaf(i).tokenSQLAdapterIndexMap == old(Leaf(i).tokenSQLAdapterIndexMap)
    ensures Served(i, q, env, counter, tags + [Tag(h)], Ok(c))
    ensures TimersOf(c.closeHooks) == TimersOf(old(c.closeHooks)) + (if h.WatchdogTimer? then {h.timer} else {})
  {
    ghost var hooks := c.closeHooks;
    ghost var m := Leaf(i).adapterManager;
    LeafInStages(i);
    assert c !in m.Repr;
    ghost var a := Leaf(i);
    assert a as object != c as object && allocated(a);
    assert m.Valid();
    ghost var counters := a.tokenSQLAdapterIndexMap;
    label L:
    c.AddCloseHook(h);
    assert a.tokenSQLAdapterIndexMap == counters;
    assert m.Repr == old@L(m.Repr);
    assert m.Valid();
    HookAppended(hooks, h, env.now);
    TimersAppended(hooks, h);
  }

  lemma TimersAppended(hooks: seq<CloseHook>, h: CloseHook)
    ensures TimersOf(hooks + [h]) == TimersOf(hooks) + (if h.WatchdogTimer? then {h.timer} else {})
  {
    var hs := hooks + [h];
    assert forall k | 0 <= k < |hooks| :: hs[k] == hooks[k];
    assert hs[|hooks|] == h;
  }

  class CyclicConnectionArbiter {
    var tokenSQLAdapterIndexMap: map<Token, Int32>
    const adapterManager: SQLAdapterManager

    constructor (adapterManager: SQLAdapterManager)
      ensures this.adapterManager == adapterManager && tokenSQLAdapterIndexMap == map[]
    {
      this.adapterManager := adapterManager;
      tokenSQLAdapterIndexMap := map[];
    }

    ghost predicate Valid()
      reads adapterManager, adapterManager.Repr
    {
      adapterManager.Valid() && this !in adapterManager.Repr
    }

    /**
      * Picks the token's next adapter round-robin and wraps it, with the query,
      * into a new ClosableQuery without hooks.
      */
    method RequestConnection(q: SQLQuery, env: Env) returns (r: Result<ClosableQuery>)
      requires Valid()
      modifies this, adapterManager.Repr
      ensures Valid() && fresh(adapterManager.Repr - old(adapterManager.Repr))
      ensures tokenSQLAdapterIndexMap ==
                old(tokenSQLAdapterIndexMap)[q.token := WrapInc(old(CounterOf(tokenSQLAdapterIndexMap, q.token)))]
      ensures r.Ok? ==> fresh(r.value) && fresh(TimersOf(r.value.closeHooks))
      ensures Served(Cyclic(this), q, env, old(CounterRead(Cyclic(this), q)), [], r)
      ensures r.Ok? ==> r.value.closeHooks == []
    {
      var token := q.token;
      var currentIndex := CounterOf(tokenSQLAdapterIndexMap, token);
      tokenSQLAdapterIndexMap := tokenSQLAdapterIndexMap[token := WrapInc(currentIndex)];
      var readIndex := currentIndex;
      var adapters := AdaptersFor(token, env);
      var selected := SelectSlot(currentIndex, adapters);
      if selected.Err? {
        return Err(selected.error);
      }
      var next: Int32 := selected.value + 1;
      tokenSQLAdapterIndexMap := CompareAndSet(tokenSQLAdapterIndexMap, token, readIndex, next);
      var access := new ClosableQuery(adapters.value[selected.value], q);
      r := Ok(access);
    }

    /** The token's adapters from the manager, which leaves the arbiter's own counters alone. */
    method AdaptersFor(token: Token, env: Env) returns (adapters: Result<seq<Adapter>>)
      requires Valid()
      modifies adapterManager.Repr
      ensures Valid() && fresh(adapterManager.Repr - old(adapterManager.Repr))
      ensures adapters == adapterManager.PoolOf(token, env.config, env.tenantRows)
      ensures tokenSQLAdapterIndexMap == old(tokenSQLAdapterIndexMap)
    {
      adapters := adapterManager.GetAdaptersFor(token, env.config, env.tenantRows);
    }

    /**
      * The checks between reading the counter and taking the adapter: the
      * pool's own error, a negative counter, then the reduction into the pool.
      */
    static method SelectSlot(currentIndex: Int32, adapters: Result<seq<Adapter>>) returns (slot: Result<nat>)
      ensures slot.Ok? ==> adapters.Ok? && slot.value < |adapters.value| &&
                           Pick(currentIndex, adapters) == Ok(adapters.value[slot.value])
      ensures slot.Err? ==> Pick(currentIndex, adapters) == Err(slot.error)
    {
      if adapters.Err? {
        return Err(adapters.error);
      }
      if currentIndex < 0 {
        return Err(IllegalState(NEGATIVE_INDEX));
      }
      slot := Normalise(currentIndex, |adapters.value|);
      if slot.Err? {
        // the remainder by an empty pool's size; stored pools are never empty
        return Err(ArithmeticError);
      }
    }
  }

  class LimitedAccessConnectionInterceptor {
    var tokenPermitsMap: map<Token, int>

    constructor ()
      ensures tokenPermitsMap == map[]
    {
      tokenPermitsMap := map[];
    }

    /**
      * Takes one of the token's permits, then asks the previous interceptor and
      * registers the permit's return as a close hook.  Taking a permit waits
      * while none is left, so a completed request needs one.  When the previous
      * interceptor fails, the permit is not returned.
      */
    method RequestConnection(q: SQLQuery, env: Env, prev: Interceptor) returns (r: Result<ClosableQuery>)
      requires ChainValid(Limited(this, prev))
      requires Admits(Limited(this, prev), q.token, env.config.numAdapterAccessLimit)
      modifies Footprint(Limited(this, prev))
      ensures ChainValid(Limited(this, prev))
      ensures fresh(Footprint(Limited(this, prev)) - old(Footprint(Limited(this, prev))))
      ensures tokenPermitsMap ==
                old(tokenPermitsMap)[q.token := old(Available(tokenPermitsMap, q.token, env.config.numAdapterAccessLimit)) - 1]
      ensures r.Ok? ==> fresh(r.value) && fresh(TimersOf(r.value.closeHooks))
      ensures Served(Limited(this, prev), q, env, old(CounterRead(prev, q)), old(ChainTags(Limited(this, prev))), r)
      ensures Advanced(prev, q, old(Leaf(prev).tokenSQLAdapterIndexMap))
      decreases prev, 1
    {
      ghost var before := Footprint(prev);
      assert Footprint(Limited(this, prev)) == {this} + before;
      var token := q.token;
      var permits := Available(tokenPermitsMap, token, env.config.numAdapterAccessLimit);
      tokenPermitsMap := tokenPermitsMap[token := permits - 1];
      assert ChainValid(prev) && Admits(prev, token, env.config.numAdapterAccessLimit);
      assert ChainTags(prev) == old(ChainTags(prev)) && CounterRead(prev, q) == old(CounterRead(prev, q));
      assert Footprint(prev) == before;
      r := Request(prev, q, env);
      assert Footprint(Limited(this, prev)) == {this} + Footprint(prev);
      if r.Err? {
        return;
      }
      assert ChainValid(Limited(this, prev));
      assert Served(Limited(this, prev), q, env, old(CounterRead(prev, q)), old(ChainTags(prev)), r);
      Attach(Limited(this, prev), r.value, PermitRelease(this), q, env, old(CounterRead(prev, q)), old(ChainTags(prev)));
    }

    /** Returns a permit to the semaphore of the closed query's token. */
    method Release(closableQuery: ClosableQuery) returns (o: Outcome)
      modifies this
      ensures closableQuery.query.token !in old(tokenPermitsMap) ==>
                o == Fail(IllegalState(NOT_INITIALIZED)) && unchanged(this)
      ensures closableQuery.query.token in old(tokenPermitsMap) ==>
                o == Pass &&
                tokenPermitsMap == old(tokenPermitsMap)[closableQuery.query.token :=
                                                        old(tokenPermitsMap[closableQuery.query.token]) + 1]
    {
      var token := closableQuery.query.token;
      if token !in tokenPermitsMap {
        return Fail(IllegalState(NOT_INITIALIZED));
      }
      tokenPermitsMap := tokenPermitsMap[token := tokenPermitsMap[token] + 1];
      o := Pass;
    }
  }

  class QueryTimeRecorder {
    const runtimeModel: QueryRuntimeModel

    constructor (runtimeModel: QueryRuntimeModel)
      ensures this.runtimeModel == runtimeModel
    {
      this.runtimeModel := runtimeModel;
    }

    /**
      * Asks the previous interceptor, then notes the time and registers a hook
      * that records the latency since then.
      */
    method RequestConnection(q: SQLQuery, env: Env, prev: Interceptor) returns (r: Result<ClosableQuery>)
      requires ChainValid(Recorded(this, prev))
      requires Admits(Recorded(this, prev), q.token, env.config.numAdapterAccessLimit)
      modifies Footprint(Recorded(this, prev))
      ensures ChainValid(Recorded(this, prev))
      ensures fresh(Footprint(Recorded(this, prev)) - old(Footprint(Recorded(this, prev))))
      ensures r.Ok? ==> fresh(r.value) && fresh(TimersOf(r.value.closeHooks))
      ensures Served(Recorded(this, prev), q, env, old(CounterRead(prev, q)), old(ChainTags(Recorded(this, prev))), r)
      ensures Advanced(prev, q, old(Leaf(prev).tokenSQLAdapterIndexMap))
      decreases prev, 1
    {
      r := Request(prev, q, env);
      if r.Err? {
        return;
      }
      var timeWhenQueried := env.now;
      assert ChainValid(Recorded(this, prev));
      assert Served(Recorded(this, prev), q, env, old(CounterRead(prev, q)), old(ChainTags(prev)), r);
      Attach(Recorded(this, prev), r.value, LatencyRecord(runtimeModel, timeWhenQueried), q, env,
             old(CounterRead(prev, q)), old(ChainTags(prev)));
    }
  }

  /** The query timer a watchdog creates for each watched query. */
  class WatchTimer {
    const owner: WatchdogInterceptor
    const query: SQLQuery
    const threshold: int
    const timeStarted: int
    var finishedTime: int
    var id: int
    var finished: bool
    var isLogged: bool
    var isExecTimeLogged: bool

    constructor (owner: WatchdogInterceptor, query: SQLQuery, timeoutThreshold: int, now: int)
      ensures this.owner == owner && this.query == query
      ensures threshold == timeoutThreshold && View() == NewTimer(timeoutThreshold, now)
    {
      this.owner := owner;
      this.query := query;
      threshold := timeoutThreshold;
      timeStarted := now;
      finishedTime := -1;
      id := -1;
      finished := false;
      isLogged := false;
      isExecTimeLogged := false;
    }

    function View(): TimerView
      reads this
    {
      TimerView(threshold, timeStarted, finished, finishedTime, id, isLogged, isExecTimeLogged)
    }

    /**
      * Finishing at `now` counts as overdue: the strict test on a finished
      * timer, evaluated right after `finished` is set, on constants only.
      */
    predicate OverdueAt(now: int)
      ensures OverdueAt(now) <==> RequeuedAsWritten(NewTimer(threshold, timeStarted), now)
    {
      threshold < now - timeStarted
    }

    /**
      * The timeout test the watch loop uses: for a finished timer it agrees with
      * the requeue test at its finished time, for a running one it says no
      * time remains.
      */
    function IsTimedOut(now: int): (r: bool)
      reads this
      ensures finished ==> (r <==> OverdueAt(finishedTime))
      ensures !finished ==> (r <==> RemainingMillis(View(), now) <= 0)
    {
      TimedOutAsWritten(View(), now)
    }

    /** The finished time and execution time exist only for a finished timer. */
    function GetExecTime(): (r: Result<int>)
      reads this
      ensures r.Ok? <==> finished
      ensures r.Ok? ==> r.value == ExecTime(View())
    {
      if !finished then Err(IllegalState(TIMER_UNFINISHED)) else Ok(finishedTime - timeStarted)
    }

    /** Marks the query finished and, if it is overdue, puts the timer back into the watchdog's queue. */
    method SetFinished(now: int)
      modifies this, owner
      ensures View() == Finish(old(View()), now)
      ensures owner.queryTimers == old(owner.queryTimers) + (if OverdueAt(now) then [this] else [])
      ensures owner.isActive == old(owner.isActive) && owner.Cache() == old(owner.Cache())
    {
      finished := true;
      finishedTime := now;
      if IsTimedOut(now) {
        owner.queryTimers := owner.queryTimers + [this];
      }
    }
  }

  /** The number of running timers in `ts`. */
  function Unfinished(ts: seq<WatchTimer>): nat
    reads ts
  {
    if ts == [] then 0 else Unfinished(ts[..|ts| - 1]) + (if ts[|ts| - 1].finished then 0 else 1)
  }

  class WatchdogInterceptor {
    const queryRuntimeModel: QueryRuntimeModel
    var queryTimers: seq<WatchTimer>
    var isActive: bool
    var watchdogRunning: bool
    var localTimeSamplesCountCache: int
    var dynamicThresholdCache: int
    const slowestStaticThreshold: int
    const dynamicThresholdLimit: int
    const dynamicThreshold: bool

    /** Thresholds of zero or less are replaced by 1. */
    constructor (slowQueryThreshold: int, slowQueryDynamicMinLimit: int, isQueryThresholdDynamic: bool,
                 queryRuntimeModel: QueryRuntimeModel)
      ensures this.queryRuntimeModel == queryRuntimeModel
      ensures queryTimers == [] && !isActive && !watchdogRunning && Cache() == ThresholdCache(0, 0)
      ensures slowestStaticThreshold == (if slowQueryThreshold <= 0 then 1 else slowQueryThreshold)
      ensures dynamicThresholdLimit == (if slowQueryDynamicMinLimit <= 0 then 1 else slowQueryDynamicMinLimit)
      ensures dynamicThreshold == isQueryThresholdDynamic
      ensures Settings().staticThreshold >= 1 && Settings().dynamicLimit >= 1
    {
      this.queryRuntimeModel := queryRuntimeModel;
      queryTimers := [];
      isActive := false;
      watchdogRunning := false;
      localTimeSamplesCountCache := 0;
      dynamicThresholdCache := 0;
      slowestStaticThreshold := if slowQueryThreshold <= 0 then 1 else slowQueryThreshold;
      dynamicThresholdLimit := if slowQueryDynamicMinLimit <= 0 then 1 else slowQueryDynamicMinLimit;
      dynamicThreshold := isQueryThresholdDynamic;
    }

    function Settings(): ThresholdSettings {
      ThresholdSettings(dynamicThreshold, slowestStaticThreshold, dynamicThresholdLimit)
    }

    function Cache(): ThresholdCache
      reads this
    {
      ThresholdCache(localTimeSamplesCountCache, dynamicThresholdCache)
    }

    /** Starts watching; a second start while the watch thread runs fails. */
    method StartWatchdog() returns (o: Outcome)
      modifies this
      ensures old(watchdogRunning) ==> o == Fail(IllegalState(WATCHDOG_RUNNING)) && isActive == old(isActive)
      ensures !old(watchdogRunning) ==> o == Pass && isActive && watchdogRunning
      ensures queryTimers == old(queryTimers) && Cache() == old(Cache())
    {
      if watchdogRunning {
        return Fail(IllegalState(WATCHDOG_RUNNING));
      }
      watchdogRunning := true;
      isActive := true;
      o := Pass;
    }

    /**
      * Stops watching new queries; a running watch thread is interrupted and the
      * queue cleared, and `threadEnded` says whether the thread ended in time.
      */
    method StopWatchDog(threadEnded: bool) returns (o: Outcome)
      modifies this
      ensures !isActive && Cache() == old(Cache())
      ensures !old(watchdogRunning) ==> o == Pass && queryTimers == old(queryTimers) && !watchdogRunning
      ensures old(watchdogRunning) ==> queryTimers == [] && watchdogRunning == !threadEnded &&
                                       o == (if threadEnded then Pass else Fail(RuntimeMessage(WATCHDOG_UNDEAD)))
    {
      isActive := false;
      if watchdogRunning {
        queryTimers := [];
        watchdogRunning := !threadEnded;
        if !threadEnded {
          return Fail(RuntimeMessage(WATCHDOG_UNDEAD));
        }
      }
      o := Pass;
    }

    /**
      * The threshold for a new timer: the static one, or the dynamic one derived
      * from the cached quantile estimate, refreshing the cache at most once per
      * 100 new samples.
      */
    method GetThreshold(quantileEstimate: int) returns (t: int)
      modifies this
      ensures (t, Cache()) ==
              ThresholdStep(Settings(), old(Cache()), queryRuntimeModel.GetSampleCount(), quantileEstimate)
      ensures queryTimers == old(queryTimers) && isActive == old(isActive)
    {
      if !dynamicThreshold {
        return slowestStaticThreshold;
      }
      var sampleCount := queryRuntimeModel.GetSampleCount();
      if sampleCount < MIN_DYNAMIC_SAMPLES {
        return slowestStaticThreshold;
      }
      var localSampleCount := localTimeSamplesCountCache;
      if localSampleCount + REFRESH_INTERVAL < sampleCount {
        var controllerThread := localTimeSamplesCountCache == localSampleCount;
        if controllerThread {
          localTimeSamplesCountCache := sampleCount;
          dynamicThresholdCache := quantileEstimate;
        }
      }
      var dynThreshold := dynamicThresholdCache;
      if dynThreshold < dynamicThresholdLimit {
        dynThreshold := dynamicThresholdLimit;
      }
      t := if dynThreshold < slowestStaticThreshold then dynThreshold else slowestStaticThreshold;
    }

    /** Creates a timer for `query` started at `now` and appends it to the queue. */
    method CreateTimeout(query: SQLQuery, now: int, quantileEstimate: int) returns (timer: WatchTimer)
      modifies this
      ensures fresh(timer) && timer.owner == this && timer.query == query
      ensures (timer.threshold, Cache()) ==
              ThresholdStep(Settings(), old(Cache()), queryRuntimeModel.GetSampleCount(), quantileEstimate)
      ensures timer.View() == NewTimer(timer.threshold, now)
      ensures queryTimers == old(queryTimers) + [timer] && isActive == old(isActive)
    {
      var threshold := GetThreshold(quantileEstimate);
      timer := new WatchTimer(this, query, threshold, now);
      queryTimers := queryTimers + [timer];
    }

    /** Asks the previous interceptor and, while active, registers a new timer for the query. */
    method RequestConnection(q: SQLQuery, env: Env, prev: Interceptor) returns (r: Result<ClosableQuery>, ghost timer: WatchTimer?)
      requires ChainValid(Watched(this, prev))
      requires Admits(Watched(this, prev), q.token, env.config.numAdapterAccessLimit)
      modifies Footprint(Watched(this, prev))
      ensures ChainValid(Watched(this, prev))
      ensures fresh(Footprint(Watched(this, prev)) - old(Footprint(Watched(this, prev))))
      ensures r.Ok? ==> fresh(r.value) && fresh(TimersOf(r.value.closeHooks))
      ensures Served(Watched(this, prev), q, env, old(CounterRead(prev, q)), old(ChainTags(Watched(this, prev))), r)
      ensures Advanced(prev, q, old(Leaf(prev).tokenSQLAdapterIndexMap))
      ensures isActive == old(isActive)
      ensures r.Ok? && isActive ==>
                timer != null && fresh(timer) && queryTimers == old(queryTimers) + [timer] &&
                |r.value.closeHooks| > 0 && r.value.closeHooks[|r.value.closeHooks| - 1] == WatchdogTimer(timer) &&
                (timer.threshold, Cache()) == ThresholdStep(Settings(), old(Cache()), queryRuntimeModel.GetSampleCount(), env.quantileEstimate) &&
                timer.View() == NewTimer(timer.threshold, env.now)
      ensures r.Err? || !isActive ==> timer == null && queryTimers == old(queryTimers) && Cache() == old(Cache())
      decreases prev, 1
    {
      ghost var before := Footprint(prev);
      assert Footprint(Watched(this, prev)) == {this} + before && this !in before;
      timer := null;
      r := Request(prev, q, env);
      assert Footprint(Watched(this, prev)) == {this} + Footprint(prev);
      if r.Err? {
        return;
      }
      if isActive {
        assert ChainValid(Watched(this, prev));
        assert Served(Watched(this, prev), q, env, old(CounterRead(prev, q)), old(ChainTags(prev)), r);
        timer := Watch(prev, r.value, q, env, old(CounterRead(prev, q)), old(ChainTags(prev)));
      }
    }

    /** Starts a timer for a query the chain below served and registers it as the query's close hook. */
    method Watch(prev: Interceptor, c: ClosableQuery, q: SQLQuery, env: Env, ghost counter: Int32, ghost tags: seq<HookTag>)
      returns (timer: WatchTimer)
      requires ChainValid(Watched(this, prev)) && Served(Watched(this, prev), q, env, counter, tags, Ok(c))
      modifies this, c
      ensures ChainValid(Watched(this, prev)) && Footprint(Watched(this, prev)) == old(Footprint(Watched(this, prev)))
      ensures Served(Watched(this, prev), q, env, counter, tags + [TimerTag(this)], Ok(c))
      ensures fresh(timer) && fresh(TimersOf(c.closeHooks) - old(TimersOf(c.closeHooks)))
      ensures c.closeHooks == old(c.closeHooks) + [WatchdogTimer(timer)]
      ensures Leaf(prev).tokenSQLAdapterIndexMap == old(Leaf(prev).tokenSQLAdapterIndexMap)
      ensures isActive == old(isActive) && queryTimers == old(queryTimers) + [timer]
      ensures (timer.threshold, Cache()) == ThresholdStep(Settings(), old(Cache()), queryRuntimeModel.GetSampleCount(), env.quantileEstimate)
      ensures timer.View() == NewTimer(timer.threshold, env.now)
    {
      ghost var m := Leaf(prev).adapterManager;
      LeafInStages(prev);
      assert this !in m.Repr && m.Valid();
      ghost var a := Leaf(prev);
      assert allocated(a);
      ghost var counters := a.tokenSQLAdapterIndexMap;
      timer := CreateTimeout(q, env.now, env.quantileEstimate);
      assert m.Valid() && a.tokenSQLAdapterIndexMap == counters;
      ghost var view, cache, timers := timer.View(), Cache(), queryTimers;
      Attach(Watched(this, prev), c, WatchdogTimer(timer), q, env, counter, tags);
      assert timer.View() == view && Cache() == cache && queryTimers == timers;
    }

    /**
      * One pass of the watch loop, from the moment the first timer has been
      * taken and its wait is over (it has finished or is overdue): the logger
      * call the pass makes, and the timer's flags afterwards.  `logOk` and
      * `newId` are the query logger's answer.
      */
    method WatchLoop(now: int, logOk: bool, newId: int) returns (call: LogCall)
      requires queryTimers != []
      requires queryTimers[0].finished || queryTimers[0].IsTimedOut(now)
      modifies this, queryTimers[0]
      ensures queryTimers == old(queryTimers[1..])
      ensures call == Decide(old(queryTimers[0].View()), now, |old(queryTimers)| - 1, old(Unfinished(queryTimers[1..])))
      ensures old(queryTimers[0]).View() == AfterLog(old(queryTimers[0].View()), call, logOk, newId)
      ensures isActive == old(isActive) && Cache() == old(Cache())
    {
      var queryTimer := queryTimers[0];
      queryTimers := queryTimers[1..];
      call := NoCall;
      if queryTimer.IsTimedOut(now) {
        if !queryTimer.isLogged {
          var requestCount := |queryTimers|;
          var unfinishedCount := Unfinished(queryTimers);
          call := LogTimeout(queryTimer, requestCount, unfinishedCount, logOk, newId);
        } else if !queryTimer.isExecTimeLogged {
          call := LogFinishedUpdate(queryTimer, logOk);
        }
      }
    }

    method LogFinishedUpdate(timer: WatchTimer, logOk: bool) returns (call: LogCall)
      requires timer.isLogged && !timer.isExecTimeLogged
      modifies timer
      ensures call == (if timer.finished then FinishedUpdate(timer.id, ExecTime(timer.View())) else NoCall)
      ensures timer.View() == AfterLog(old(timer.View()), call, logOk, 0)
    {
      var execTime := timer.GetExecTime();
      if execTime.Err? {
        // getFinishedTime throws before the logger is reached
        return NoCall;
      }
      call := FinishedUpdate(timer.id, execTime.value);
      if logOk {
        timer.isExecTimeLogged := true;
      }
    }

    method LogTimeout(queryTimer: WatchTimer, requestCount: nat, unfinishedCount: nat, logOk: bool, newId: int)
      returns (call: LogCall)
      modifies queryTimer
      ensures call == TimeoutLog(if old(queryTimer.finished) then Some(ExecTime(old(queryTimer.View()))) else None,
                                 requestCount, unfinishedCount)
      ensures queryTimer.View() == AfterLog(old(queryTimer.View()), call, logOk, newId)
    {
      var execTime: Option<int> := None;
      if queryTimer.finished {
        execTime := Some(queryTimer.finishedTime - queryTimer.timeStarted);
      }
      call := TimeoutLog(execTime, requestCount, unfinishedCount);
      if logOk {
        queryTimer.id := newId;
        queryTimer.isLogged := true;
        if execTime.Some? {
          queryTimer.isExecTimeLogged := true;
        }
      }
    }
  }

  /** The stand-alone query timer; its finish hook, when set, receives the execution time. */
  class QueryTimer {
    var finished: bool
    const query: SQLQuery
    const threshold: int
    const timeStarted: int
    var finishedTime: Option<int>
    var id: int
    var runtimeCons: Option<QueryRuntimeModel>

    constructor (query: SQLQuery, timeoutThreshold: int, now: int)
      ensures this.query == query && threshold == timeoutThreshold && timeStarted == now
      ensures !finished && finishedTime == None && id == -1 && runtimeCons == None
    {
      this.query := query;
      threshold := timeoutThreshold;
      timeStarted := now;
      finished := false;
      finishedTime := None;
      id := -1;
      runtimeCons := None;
    }

    /** A finished timer has its finished time. */
    ghost predicate Valid()
      reads this
    {
      finished ==> finishedTime.Some?
    }

    method SetFinishHook(runtimeCons: QueryRuntimeModel)
      modifies this
      ensures this.runtimeCons == Some(runtimeCons)
      ensures finished == old(finished) && finishedTime == old(finishedTime) && id == old(id)
    {
      this.runtimeCons := Some(runtimeCons);
    }

    /** The id is the only field that changes. */
    method SetId(i: int)
      modifies this
      ensures id == i
      ensures finished == old(finished) && finishedTime == old(finishedTime) && runtimeCons == old(runtimeCons)
    {
      id := i;
    }

    method SetFinished(now: int)
      modifies this, if runtimeCons.Some? then {runtimeCons.value} else {}
      ensures Valid() && finished && finishedTime == Some(now) && runtimeCons == old(runtimeCons) && id == old(id)
      ensures runtimeCons.Some? ==> runtimeCons.value.samples == old(runtimeCons.value.samples) + [now - timeStarted]
    {
      finished := true;
      finishedTime := Some(now);
      if runtimeCons.Some? {
        var execTime := GetExecTime();
        runtimeCons.value.RecordQueryTime(execTime.value);
      }
    }

    /** Optional.get on the finished time: an unfinished timer has none. */
    function GetExecTime(): (r: Result<int>)
      reads this
      ensures r.Ok? <==> finishedTime.Some?
      ensures r.Ok? ==> r.value == finishedTime.value - timeStarted
    {
      if finishedTime.None? then Err(NoSuchElement) else Ok(finishedTime.value - timeStarted)
    }

    /** The time left at `now`, as the watchdog's timeout arithmetic counts it. */
    function GetRemainingMillis(now: int): (r: int)
      reads this
      ensures r == RemainingMillis(TimerView(threshold, timeStarted, finished, -1, id, false, false), now)
      ensures r <= 0 <==> now - timeStarted >= threshold
    {
      threshold - (now - timeStarted)
    }

    /**
      * The timeout test: strict for a finished timer, non-strict for a running
      * one; it fails only where the finished flag is set without a finished time.
      */
    function IsTimedOut(now: int): (r: Result<bool>)
      reads this
      ensures Valid() ==> r.Ok?
      ensures r.Ok? ==> (r.value <==> TimedOutAsWritten(TimerView(threshold, timeStarted, finished,
                                           if finishedTime.Some? then finishedTime.value else -1, id, false, false), now))
    {
      if finished then
        match GetExecTime()
        case Err(e) => Err(e)
        case Ok(execTime) => Ok(threshold < execTime)
      else Ok(GetRemainingMillis(now) <= 0)
    }
  }
}
