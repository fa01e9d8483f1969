/**
  * The slow-query watchdog's decisions, as values: when a query timer counts
  * as timed out, which logging call the watch loop makes for a timer it takes
  * from the queue, how the timer's flags change after the call, whether
  * finishing a query puts its timer back into the queue, and how the timeout
  * threshold is chosen.  The watchdog classes are proved against these
  * functions, and the lemmas below follow one timer through any sequence of
  * watch-loop passes and closes.
  */
module WatchdogLogic {
  import opened Common

  /** Fewer samples than this keep the static threshold. */
  const MIN_DYNAMIC_SAMPLES := 50
  /** The cached dynamic threshold is refreshed after more than this many new samples. */
  const REFRESH_INTERVAL := 100

  /** The state of one watchdog query timer (all times in milliseconds). */
  datatype TimerView = TimerView(
    threshold: int,
    timeStarted: int,
    finished: bool,
    finishedTime: int,
    id: int,
    logged: bool,
    execTimeLogged: bool)

  /** A timer as created for a query started at `now`: unfinished, unlogged, id -1. */
  function NewTimer(threshold: int, now: int): TimerView {
    TimerView(threshold, now, false, -1, -1, false, false)
  }

  function ExecTime(v: TimerView): int {
    v.finishedTime - v.timeStarted
  }

  function RemainingMillis(v: TimerView, now: int): int {
    v.threshold - (now - v.timeStarted)
  }

  /**
    * The timeout test as the watchdog's timer writes it: a running query is
    * overdue once no time remains, a finished one only if it ran strictly
    * longer than the threshold.
    */
  predicate TimedOutAsWritten(v: TimerView, now: int) {
    if v.finished then v.threshold < ExecTime(v) else RemainingMillis(v, now) <= 0
  }

  /** The timeout test with one boundary for both cases: a query is overdue once it has run `threshold` ms. */
  predicate TimedOut(v: TimerView, now: int) {
    if v.finished then v.threshold <= ExecTime(v) else RemainingMillis(v, now) <= 0
  }

  /** Marking a timer finished at `now`. */
  function Finish(v: TimerView, now: int): TimerView {
    v.(finished := true, finishedTime := now)
  }

  /** Finishing at `now` puts the timer back into the queue (as written). */
  predicate RequeuedAsWritten(v: TimerView, now: int) {
    TimedOutAsWritten(Finish(v, now), now)
  }

  /** Finishing at `now` puts the timer back into the queue. */
  predicate Requeued(v: TimerView, now: int) {
    TimedOut(Finish(v, now), now)
  }

  /**
    * Once a running query has been found overdue, it is still overdue when it
    * finishes, so finishing requeues its timer for the completion update.
    */
  lemma OverdueStaysOverdue(v: TimerView, now: int, finishedAt: int)
    requires !v.finished && TimedOut(v, now) && finishedAt >= now
    ensures Requeued(v, finishedAt)
  {
  }

  /** A query that finishes within its threshold is never timed out afterwards, under either test. */
  lemma OnTimeNeverTimedOut(v: TimerView, finishedAt: int, now: int)
    requires finishedAt - v.timeStarted < v.threshold
    ensures !TimedOutAsWritten(Finish(v, finishedAt), now) && !RequeuedAsWritten(v, finishedAt)
    ensures !TimedOut(Finish(v, finishedAt), now) && !Requeued(v, finishedAt)
  {
  }

  /**
    * The two tests disagree only for a query that finished after exactly its
    * threshold: the test as written lets it through, the single boundary does not.
    */
  lemma TestsDifferOnlyAtThreshold(v: TimerView, now: int)
    ensures TimedOutAsWritten(v, now) ==> TimedOut(v, now)
    ensures TimedOut(v, now) && !TimedOutAsWritten(v, now) <==> v.finished && ExecTime(v) == v.threshold
    ensures RequeuedAsWritten(v, now) <==> Requeued(v, now) && now - v.timeStarted != v.threshold
  {
  }

  /**
    * Counterexample for the test as written: a query with a 2000 ms threshold,
    * started at 0, is found overdue and logged at 2000 while still running, and
    * finishes at 2000.  Its timer is not requeued, so its completion update is
    * never written; with the single boundary it is requeued.
    */
  lemma BoundaryCompletionUpdateLost()
    ensures var v := NewTimer(2000, 0);
            var c := Decide(v, 2000, 0, 0);
            var logged := AfterLog(v, c, true, 7);
            c == TimeoutLog(None, 0, 0) && logged.logged && !logged.execTimeLogged &&
            !RequeuedAsWritten(logged, 2000) && Requeued(logged, 2000) &&
            Apply(logged, Close(2000)).1 == Requeue(false)
  {
  }

  /** The call the watch loop makes to the query logger for one timer. */
  datatype LogCall =
    | NoCall
    | TimeoutLog(execTime: Option<int>, requestCount: nat, unfinishedCount: nat)
    | FinishedUpdate(id: int, runtime: int)

  /**
    * The watch loop's call, with the timeout test as written, for a timer
    * taken from the queue at `now` with `requestCount` timers still queued of
    * which `unfinishedCount` are running: an overdue timer not yet logged is logged as a timeout (with its execution
    * time if it has finished); a logged, finished one without recorded
    * execution time gets the completion update; everything else makes no call.
    */
  function Decide(v: TimerView, now: int, requestCount: nat, unfinishedCount: nat): (c: LogCall)
    ensures c.TimeoutLog? <==> TimedOutAsWritten(v, now) && !v.logged
    ensures c.TimeoutLog? ==> c.execTime == (if v.finished then Some(ExecTime(v)) else None)
                              && c.requestCount == requestCount && c.unfinishedCount == unfinishedCount
    ensures c.FinishedUpdate? <==> TimedOutAsWritten(v, now) && v.logged && !v.execTimeLogged && v.finished
    ensures c.FinishedUpdate? ==> c == FinishedUpdate(v.id, ExecTime(v))
  {
    if !TimedOutAsWritten(v, now) then NoCall
    else if !v.logged then
      TimeoutLog(if v.finished then Some(ExecTime(v)) else None, requestCount, unfinishedCount)
    else if !v.execTimeLogged && v.finished then
      FinishedUpdate(v.id, ExecTime(v))
    else
      // logged with its execution time, or the finished time of a running
      // timer was asked for and the update failed before reaching the logger
      NoCall
  }

  /**
    * The timer after the call: a timeout record that the logger accepted (`ok`,
    * returning `newId`) stores the id and marks the timer logged, and also
    * marks its execution time logged when it carried one; an accepted update
    * marks the execution time logged; a failed call changes nothing.
    */
  function AfterLog(v: TimerView, c: LogCall, ok: bool, newId: int): (w: TimerView)
    ensures !ok || c.NoCall? ==> w == v
    ensures w.threshold == v.threshold && w.timeStarted == v.timeStarted
    ensures w.finished == v.finished && w.finishedTime == v.finishedTime
    ensures v.logged ==> w.logged
    ensures v.execTimeLogged ==> w.execTimeLogged
  {
    if !ok then v
    else
      match c
      case NoCall => v
      case TimeoutLog(execTime, _, _) =>
        v.(id := newId, logged := true, execTimeLogged := v.execTimeLogged || execTime.Some?)
      case FinishedUpdate(_, _) => v.(execTimeLogged := true)
  }

  /** What can happen to one timer: a watch-loop pass that takes it, or its query being closed. */
  datatype Event =
    | Pop(now: int, requestCount: nat, unfinishedCount: nat, ok: bool, newId: int)
    | Close(now: int)

  /** What an event produces: a logger call (and whether it succeeded), or whether a close requeued the timer. */
  datatype Effect = Call(call: LogCall, ok: bool) | Requeue(again: bool)

  function Apply(v: TimerView, e: Event): (TimerView, Effect) {
    match e
    case Pop(now, requestCount, unfinishedCount, ok, newId) =>
      var c := Decide(v, now, requestCount, unfinishedCount);
      (AfterLog(v, c, ok, newId), Call(c, ok))
    case Close(now) =>
      (Finish(v, now), Requeue(RequeuedAsWritten(v, now)))
  }

  function Replay(v: TimerView, es: seq<Event>): (TimerView, seq<Effect>)
    decreases |es|
  {
    if es == [] then (v, [])
    else
      var (w, eff) := Apply(v, es[0]);
      var (last, rest) := Replay(w, es[1..]);
      (last, [eff] + rest)
  }

  /**
    * A feasible history from time `t` on: clock readings never go back, and
    * the watch loop only gets past its wait once the timer is finished or overdue.
    */
  predicate Feasible(v: TimerView, es: seq<Event>, t: int)
    decreases |es|
  {
    es == [] ||
    (es[0].now >= t &&
     (es[0].Pop? ==> v.finished || TimedOutAsWritten(v, es[0].now)) &&
     Feasible(Apply(v, es[0]).0, es[1..], es[0].now))
  }

  /** The number of timeout records the logger accepted. */
  function TimeoutRecords(effs: seq<Effect>): nat {
    if effs == [] then 0
    else (if effs[0].Call? && effs[0].ok && effs[0].call.TimeoutLog? then 1 else 0) + TimeoutRecords(effs[1..])
  }

  /** The number of accepted calls that stored an execution time. */
  function ExecTimeRecords(effs: seq<Effect>): nat {
    if effs == [] then 0
    else
      var stores := effs[0].Call? && effs[0].ok &&
                    ((effs[0].call.TimeoutLog? && effs[0].call.execTime.Some?) || effs[0].call.FinishedUpdate?);
      (if stores then 1 else 0) + ExecTimeRecords(effs[1..])
  }

  /** A timer is recorded as timed out at most once, whatever happens to it. */
  lemma {:induction false} AtMostOneTimeoutRecord(v: TimerView, es: seq<Event>)
    ensures TimeoutRecords(Replay(v, es).1) <= (if v.logged then 0 else 1)
    decreases |es|
  {
    if es != [] {
      var w := Apply(v, es[0]).0;
      AtMostOneTimeoutRecord(w, es[1..]);
      assert Replay(v, es).1 == [Apply(v, es[0]).1] + Replay(w, es[1..]).1;
      assert ([Apply(v, es[0]).1] + Replay(w, es[1..]).1)[1..] == Replay(w, es[1..]).1;
    }
  }

  /** A query's execution time is stored at most once, whatever happens to its timer. */
  lemma {:induction false} AtMostOneExecTimeRecord(v: TimerView, es: seq<Event>)
    requires v.execTimeLogged ==> v.logged
    ensures ExecTimeRecords(Replay(v, es).1) <= (if v.execTimeLogged then 0 else 1)
    decreases |es|
  {
    if es != [] {
      var w := Apply(v, es[0]).0;
      AtMostOneExecTimeRecord(w, es[1..]);
      assert Replay(v, es).1 == [Apply(v, es[0]).1] + Replay(w, es[1..]).1;
      assert ([Apply(v, es[0]).1] + Replay(w, es[1..]).1)[1..] == Replay(w, es[1..]).1;
    }
  }

  predicate Silent(eff: Effect) {
    (eff.Call? ==> eff.call.NoCall?) && (eff.Requeue? ==> !eff.again)
  }

  ghost predicate ClosesOnTime(es: seq<Event>, timeStarted: int, threshold: int) {
    forall i :: 0 <= i < |es| && es[i].Close? ==> es[i].now - timeStarted < threshold
  }

  ghost predicate HasClose(es: seq<Event>) {
    exists i :: 0 <= i < |es| && es[i].Close?
  }

  /** In a feasible history every event happens no earlier than `t`. */
  lemma {:induction false} FeasibleTimes(v: TimerView, es: seq<Event>, t: int)
    requires Feasible(v, es, t)
    ensures forall i :: 0 <= i < |es| ==> es[i].now >= t
    ensures forall i :: 0 <= i < |es| ==> es[i].now >= es[0].now
    decreases |es|
  {
    if es != [] {
      FeasibleTimes(Apply(v, es[0]).0, es[1..], es[0].now);
      forall i | 1 <= i < |es|
        ensures es[i].now >= es[0].now
      {
        assert es[1..][i - 1] == es[i];
      }
    }
  }

  /**
    * A query whose every close happens within its threshold is never logged and
    * never requeued: the watch loop cannot take its running timer before the
    * deadline, and after the close the timer is on time.
    */
  lemma {:induction false} OnTimeQueryIsSilent(v: TimerView, es: seq<Event>, t: int)
    requires Feasible(v, es, t) && ClosesOnTime(es, v.timeStarted, v.threshold)
    requires if v.finished then ExecTime(v) < v.threshold else HasClose(es)
    ensures forall k :: 0 <= k < |Replay(v, es).1| ==> Silent(Replay(v, es).1[k])
    decreases |es|
  {
    if es != [] {
      var e := es[0];
      var w := Apply(v, e).0;
      var rest := es[1..];
      assert ClosesOnTime(rest, v.timeStarted, v.threshold) by {
        forall i | 0 <= i < |rest| && rest[i].Close?
          ensures rest[i].now - v.timeStarted < v.threshold
        {
          assert rest[i] == es[i + 1];
        }
      }
      FeasibleTimes(v, es, t);
      if e.Pop? && !v.finished {
        // the close that HasClose promises comes no earlier than this pass, past the deadline
        assert false;
      }
      if !v.finished {
        assert e.Close?;
      }
      OnTimeQueryIsSilent(w, rest, e.now);
      assert Replay(v, es).1 == [Apply(v, e).1] + Replay(w, rest).1;
      forall k | 0 <= k < |Replay(v, es).1|
        ensures Silent(Replay(v, es).1[k])
      {
        if k > 0 {
          assert Replay(v, es).1[k] == Replay(w, rest).1[k - 1];
        }
      }
    }
  }

  /**
    * An overdue running query is recorded twice, as the watch loop's two logging
    * calls intend: first as a timeout without execution time, then, after it
    * finishes later than its threshold and its timer is requeued, by a
    * completion update with the id the first record returned.  Finishing after
    * exactly the threshold loses the update (`BoundaryCompletionUpdateLost`).
    */
  lemma TwoPhaseOverrun(start: int, threshold: int, popAt: int, finishAt: int, updateAt: int,
                        requestCount: nat, unfinishedCount: nat, id: int,
                        requestCount2: nat, unfinishedCount2: nat, id2: int)
    requires threshold >= 1 && start + threshold <= popAt <= finishAt <= updateAt && start + threshold < finishAt
    ensures var v := NewTimer(threshold, start);
            var es := [Pop(popAt, requestCount, unfinishedCount, true, id), Close(finishAt),
                       Pop(updateAt, requestCount2, unfinishedCount2, true, id2)];
            Feasible(v, es, start) &&
            Replay(v, es).1 == [Call(TimeoutLog(None, requestCount, unfinishedCount), true),
                                Requeue(true),
                                Call(FinishedUpdate(id, finishAt - start), true)] &&
            Replay(v, es).0.logged && Replay(v, es).0.execTimeLogged
  {
    var v := NewTimer(threshold, start);
    var es := [Pop(popAt, requestCount, unfinishedCount, true, id), Close(finishAt),
               Pop(updateAt, requestCount2, unfinishedCount2, true, id2)];
    var v1 := Apply(v, es[0]).0;
    var v2 := Apply(v1, es[1]).0;
    assert es[1..] == [es[1], es[2]] && es[1..][1..] == [es[2]] && [es[2]][1..] == [];
    assert Feasible(v2, [es[2]], finishAt);
    assert Feasible(v1, es[1..], popAt);
    assert Replay(v2, [es[2]]).1 == [Call(FinishedUpdate(id, finishAt - start), true)];
    assert Replay(v1, es[1..]).1 == [Requeue(true), Call(FinishedUpdate(id, finishAt - start), true)];
  }

  /**
    * A slow query that finishes, later than its threshold, before the watch
    * loop reaches its timer is in the queue twice; it is recorded once, with
    * its execution time, and the second pass makes no call.
    */
  lemma SlowQueryFinishedBeforeWatch(start: int, threshold: int, finishAt: int, popAt: int, popAgainAt: int,
                                     requestCount: nat, unfinishedCount: nat, id: int,
                                     requestCount2: nat, unfinishedCount2: nat, id2: int)
    requires threshold >= 1 && start + threshold < finishAt <= popAt <= popAgainAt
    ensures var v := NewTimer(threshold, start);
            var es := [Close(finishAt), Pop(popAt, requestCount, unfinishedCount, true, id),
                       Pop(popAgainAt, requestCount2, unfinishedCount2, true, id2)];
            Feasible(v, es, start) &&
            Replay(v, es).1 == [Requeue(true),
                                Call(TimeoutLog(Some(finishAt - start), requestCount, unfinishedCount), true),
                                Call(NoCall, true)]
  {
    var v := NewTimer(threshold, start);
    var es := [Close(finishAt), Pop(popAt, requestCount, unfinishedCount, true, id),
               Pop(popAgainAt, requestCount2, unfinishedCount2, true, id2)];
    var v1 := Apply(v, es[0]).0;
    var v2 := Apply(v1, es[1]).0;
    assert es[1..] == [es[1], es[2]] && es[1..][1..] == [es[2]] && [es[2]][1..] == [];
    assert Feasible(v2, [es[2]], popAt);
    assert Feasible(v1, es[1..], finishAt);
    assert Replay(v2, [es[2]]).1 == [Call(NoCall, true)];
    assert Replay(v1, es[1..]).1 ==
           [Call(TimeoutLog(Some(finishAt - start), requestCount, unfinishedCount), true), Call(NoCall, true)];
  }

  /**
    * A query that finishes after exactly its threshold, before the watch loop
    * reaches its timer, is never recorded: the close does not requeue the
    * timer and the one pass that takes it makes no call.
    */
  lemma BoundaryFinishNotRecorded(start: int, threshold: int, popAt: int, requestCount: nat, unfinishedCount: nat,
                                  id: int)
    requires threshold >= 1 && start + threshold <= popAt
    ensures var v := NewTimer(threshold, start);
            var es := [Close(start + threshold), Pop(popAt, requestCount, unfinishedCount, true, id)];
            Feasible(v, es, start) &&
            Replay(v, es).1 == [Requeue(false), Call(NoCall, true)] &&
            !Replay(v, es).0.logged && !Replay(v, es).0.execTimeLogged
  {
    var v := NewTimer(threshold, start);
    var es := [Close(start + threshold), Pop(popAt, requestCount, unfinishedCount, true, id)];
    var v1 := Apply(v, es[0]).0;
    assert es[1..] == [es[1]] && [es[1]][1..] == [];
    assert Feasible(v1, es[1..], start + threshold);
    assert Replay(v1, es[1..]).1 == [Call(NoCall, true)];
  }

  /** The configured threshold mode: static bound and dynamic floor are at least 1. */
  datatype ThresholdSettings = ThresholdSettings(dynamic: bool, staticThreshold: int, dynamicLimit: int)

  /** The cached sample count at the last refresh and the cached dynamic threshold. */
  datatype ThresholdCache = ThresholdCache(localSampleCount: int, dynamicThreshold: int)

  /**
    * The threshold a new timer gets, and the cache afterwards, given the number
    * of latency samples and the digest's estimate of the configured quantile.
    */
  function ThresholdStep(s: ThresholdSettings, cache: ThresholdCache, sampleCount: int, quantileEstimate: int)
    : (r: (int, ThresholdCache))
  {
    if !s.dynamic || sampleCount < MIN_DYNAMIC_SAMPLES then (s.staticThreshold, cache)
    else
      var refreshed :=
        if cache.localSampleCount + REFRESH_INTERVAL < sampleCount
        then ThresholdCache(sampleCount, quantileEstimate)
        else cache;
      var dyn := if refreshed.dynamicThreshold < s.dynamicLimit then s.dynamicLimit else refreshed.dynamicThreshold;
      (if dyn < s.staticThreshold then dyn else s.staticThreshold, refreshed)
  }

  /** The threshold always lies between 1 and the static threshold. */
  lemma ThresholdBounds(s: ThresholdSettings, cache: ThresholdCache, sampleCount: int, quantileEstimate: int)
    requires s.staticThreshold >= 1 && s.dynamicLimit >= 1
    ensures 1 <= ThresholdStep(s, cache, sampleCount, quantileEstimate).0 <= s.staticThreshold
  {
  }

  /**
    * The static threshold is used unchanged when dynamic mode is off or fewer
    * than 50 samples exist; otherwise the cached estimate is raised to the floor
    * and capped by the static threshold.
    */
  lemma ThresholdChoice(s: ThresholdSettings, cache: ThresholdCache, sampleCount: int, quantileEstimate: int)
    ensures var (t, c) := ThresholdStep(s, cache, sampleCount, quantileEstimate);
            (!s.dynamic || sampleCount < MIN_DYNAMIC_SAMPLES ==> t == s.staticThreshold && c == cache) &&
            (s.dynamic && sampleCount >= MIN_DYNAMIC_SAMPLES ==>
               t <= s.staticThreshold && (t == s.staticThreshold || t >= s.dynamicLimit) &&
               (t < s.staticThreshold ==> t == (if c.dynamicThreshold < s.dynamicLimit then s.dynamicLimit
                                                else c.dynamicThreshold)))
  {
  }

  /**
    * The cache is refreshed exactly when more than 100 samples arrived since the
    * last refresh; after a refresh at n samples the next one needs more than n + 100.
    */
  lemma RefreshAmortised(s: ThresholdSettings, cache: ThresholdCache, n: int, q: int, m: int, q2: int)
    requires s.dynamic && n >= MIN_DYNAMIC_SAMPLES
    ensures var c := ThresholdStep(s, cache, n, q).1;
            (c != cache <==> cache.localSampleCount + REFRESH_INTERVAL < n && cache != ThresholdCache(n, q)) &&
            (cache.localSampleCount + REFRESH_INTERVAL < n ==> c == ThresholdCache(n, q)) &&
            (cache.localSampleCount + REFRESH_INTERVAL < n && m <= n + REFRESH_INTERVAL ==>
               ThresholdStep(s, c, m, q2).1 == c)
  {
  }

  /**
    * Before the first refresh (a fresh cache and 50 to 100 samples) the dynamic
    * mode ignores the samples: the threshold is the floor, capped by the static one.
    */
  lemma EarlyDynamicThresholdIsFloor(s: ThresholdSettings, n: int, q: int)
    requires s.dynamic && MIN_DYNAMIC_SAMPLES <= n <= REFRESH_INTERVAL && s.dynamicLimit >= 1
    ensures ThresholdStep(s, ThresholdCache(0, 0), n, q).0 ==
            (if s.dynamicLimit < s.staticThreshold then s.dynamicLimit else s.staticThreshold)
  {
  }
}
