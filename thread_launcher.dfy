/** The thread launcher's bookkeeping: how many backing threads are live,
    idle and starting, when another one may be started, when an idle one
    should expire, and how thread creation is throttled. The launcher is
    itself a worker; its calls to its own `wake()` are counted in `wakes`
    and its `close()` is recorded in `closed`. Time is passed in as `now`. */
module ThreadLauncher {
  import opened Wrappers

  const DEFAULT_THREAD_MAX: int := 8192
  const DEFAULT_IDLE_MIN: int := 2
  /** Integer.MAX_VALUE / 2 */
  const DEFAULT_IDLE_MAX: int := 0x3fff_ffff
  const DEFAULT_IDLE_TIMEOUT: int := 60000
  const DEFAULT_THROTTLE_PERIOD: int := 1000
  const DEFAULT_THROTTLE_LIMIT: int := 256

  /** The creation-rate window: when it started, how many threads were
      created in it, and whether its warning has been issued. */
  datatype Throttle = Throttle(timestamp: int, count: int, isThrottle: bool)

  datatype ThrottleConfig = ThrottleConfig(period: int, limit: int, sleep: int)

  /** One call of updateThrottle: the clock, and whether FINE logging is on. */
  datatype ThrottleCall = ThrottleCall(now: int, fine: bool)

  datatype ThrottleResult = ThrottleResult(next: Throttle, warned: bool, slept: bool)

  predicate WindowExpired(t: Throttle, c: ThrottleConfig, now: int)
  {
    t.timestamp + c.period < now
  }

  /** One updateThrottle call on the window t. */
  function ThrottleStep(t: Throttle, c: ThrottleConfig, call: ThrottleCall): (r: ThrottleResult)
    ensures WindowExpired(t, c, call.now) ==> r == ThrottleResult(Throttle(call.now, 1, false), false, false)
    ensures !WindowExpired(t, c, call.now) ==>
      r.next.timestamp == t.timestamp && r.next.count == t.count + 1
    ensures r.warned ==> !t.isThrottle && r.next.isThrottle
    ensures r.next.isThrottle <==>
      !WindowExpired(t, c, call.now) && (t.isThrottle || r.next.count >= c.limit)
    ensures r.slept <==> !WindowExpired(t, c, call.now) && r.next.count >= c.limit && c.sleep > 0
  {
    if WindowExpired(t, c, call.now) then
      ThrottleResult(Throttle(call.now, 1, false), false, false)
    else
      var count := t.count + 1;
      if count < c.limit then
        ThrottleResult(t.(count := count), false, false)
      else
        ThrottleResult(Throttle(t.timestamp, count, true),
                       !t.isThrottle && (c.sleep > 0 || call.fine),
                       c.sleep > 0)
  }

  /** The number of warnings a sequence of updateThrottle calls issues. */
  function Warnings(t: Throttle, c: ThrottleConfig, calls: seq<ThrottleCall>): nat
    decreases |calls|
  {
    if calls == [] then 0
    else
      var r := ThrottleStep(t, c, calls[0]);
      (if r.warned then 1 else 0) + Warnings(r.next, c, calls[1..])
  }

  /** Within one window (no call comes after the window's end), at most one
      warning is issued, and none once the window has already warned. */
  lemma {:induction false} AtMostOneWarningPerWindow(t: Throttle, c: ThrottleConfig, calls: seq<ThrottleCall>)
    requires forall i :: 0 <= i < |calls| ==> calls[i].now <= t.timestamp + c.period
    ensures Warnings(t, c, calls) <= (if t.isThrottle then 0 else 1)
    decreases |calls|
  {
    if calls != [] {
      var r := ThrottleStep(t, c, calls[0]);
      assert !WindowExpired(t, c, calls[0].now);
      assert forall i :: 0 <= i < |calls[1..]| ==> calls[1..][i].now <= r.next.timestamp + c.period by {
        forall i | 0 <= i < |calls[1..]| ensures calls[1..][i].now <= r.next.timestamp + c.period {
          assert calls[1..][i] == calls[i + 1];
        }
      }
      AtMostOneWarningPerWindow(r.next, c, calls[1..]);
      if r.warned {
        assert r.next.isThrottle;
      } else if !t.isThrottle {
        assert Warnings(r.next, c, calls[1..]) <= 1;
      } else {
        assert r.next.isThrottle;
      }
    }
  }

  /** The n consecutive ids first, first + 1, ..., in order. */
  function Consecutive(first: int, n: nat): (r: seq<int>)
    ensures |r| == n
    decreases n
  {
    if n == 0 then [] else [first] + Consecutive(first + 1, n - 1)
  }

  lemma {:induction false} ConsecutiveAt(first: int, n: nat, i: int)
    requires 0 <= i < n
    ensures Consecutive(first, n)[i] == first + i
    decreases n
  {
    if i > 0 {
      ConsecutiveAt(first + 1, n - 1, i - 1);
    }
  }

  /** The window, warnings and sleeps after k updateThrottle calls that all
      read the same clock. */
  datatype ThrottleRun = ThrottleRun(throttle: Throttle, warnings: nat, sleeps: nat)

  function Repeated(t: Throttle, c: ThrottleConfig, call: ThrottleCall, k: nat): ThrottleRun
    decreases k
  {
    if k == 0 then ThrottleRun(t, 0, 0)
    else
      var r := ThrottleStep(t, c, call);
      var p := Repeated(r.next, c, call, k - 1);
      ThrottleRun(p.throttle, p.warnings + (if r.warned then 1 else 0), p.sleeps + (if r.slept then 1 else 0))
  }

  /** Calls on one clock reading warn at most once, and not at all when the
      current window has already warned and is still open. */
  lemma {:induction false} RepeatedWarnsAtMostOnce(t: Throttle, c: ThrottleConfig, call: ThrottleCall, k: nat)
    ensures Repeated(t, c, call, k).warnings <= 1
    ensures t.isThrottle && !WindowExpired(t, c, call.now) ==> Repeated(t, c, call, k).warnings == 0
    decreases k
  {
    if k > 0 {
      var r := ThrottleStep(t, c, call);
      RepeatedWarnsAtMostOnce(r.next, c, call, k - 1);
      if r.warned || (t.isThrottle && !WindowExpired(t, c, call.now)) {
        assert !WindowExpired(t, c, call.now);
        assert r.next.timestamp == t.timestamp;
        assert r.next.isThrottle && !WindowExpired(r.next, c, call.now);
      }
    }
  }

  //
  // startConnection on values
  //

  /** The launcher fields startConnection reads and leaves alone. */
  datatype LaunchEnv = LaunchEnv(active: bool, threadCount: int, idleCount: int, threadMax: int,
                                 idleMin: int, idleTimeout: int, config: ThrottleConfig)

  /** The launcher fields startConnection changes. */
  datatype LaunchState = LaunchState(starting: int, launched: seq<int>, gId: int, maxHits: nat,
                                     expire: int, throttle: Throttle, warnings: nat, sleeps: nat)

  datatype Admission = Admission(go: bool, state: LaunchState)

  datatype LaunchResult = LaunchResult(outcome: Outcome<Exception>, state: LaunchState)

  /** doStart's admission rule, on the starting count before its increment. */
  predicate Admits(e: LaunchEnv, starting: int)
  {
    e.active && e.threadCount + starting <= e.threadMax && e.idleCount + starting < e.idleMin
  }

  /** One doStart: reserve a slot, and give it back on refusal; a pool over
      threadMax is reported through onThreadMax. */
  function AdmitStep(e: LaunchEnv, s: LaunchState): (r: Admission)
    ensures r.go == Admits(e, s.starting)
  {
    if !e.active then Admission(false, s)
    else if e.threadMax < e.threadCount + s.starting then Admission(false, s.(maxHits := s.maxHits + 1))
    else if e.idleCount + s.starting < e.idleMin then Admission(true, s.(starting := s.starting + 1))
    else Admission(false, s)
  }

  /** The body of startConnection's loop: re-arm the idle expiry, take the
      next id, pass the throttle and launch; a launch that throws gives back
      the reservation (go == true means it threw). */
  function LaunchStep(e: LaunchEnv, s: LaunchState, now: int, fine: bool, failing: set<int>): Admission
  {
    var id := s.gId + 1;
    var r := ThrottleStep(s.throttle, e.config, ThrottleCall(now, fine));
    var warnings := s.warnings + (if r.warned then 1 else 0);
    var sleeps := s.sleeps + (if r.slept then 1 else 0);
    if id in failing then
      Admission(true, LaunchState(s.starting - 1, s.launched, id, s.maxHits,
                                  now + e.idleTimeout, r.next, warnings, sleeps))
    else
      Admission(false, LaunchState(s.starting, s.launched + [id], id, s.maxHits,
                                   now + e.idleTimeout, r.next, warnings, sleeps))
  }

  /** startConnection: while doStart admits, launch. */
  function Run(e: LaunchEnv, s: LaunchState, now: int, fine: bool, failing: set<int>): LaunchResult
    decreases e.idleMin - e.idleCount - s.starting
  {
    var a := AdmitStep(e, s);
    if !a.go then LaunchResult(Pass, a.state)
    else
      var l := LaunchStep(e, a.state, now, fine, failing);
      if l.go then LaunchResult(Fail(LaunchFailure), l.state)
      else Run(e, l.state, now, fine, failing)
  }

  /** What is left of startConnection once doStart has admitted a start. */
  function Resume(e: LaunchEnv, s: LaunchState, now: int, fine: bool, failing: set<int>): LaunchResult
    requires e.idleCount + s.starting <= e.idleMin
  {
    var l := LaunchStep(e, s, now, fine, failing);
    if l.go then LaunchResult(Fail(LaunchFailure), l.state)
    else Run(e, l.state, now, fine, failing)
  }

  /** The threads startConnection launches are the next ids in order, and
      none of them is one whose launch fails. */
  lemma {:induction false} RunLaunches(e: LaunchEnv, s: LaunchState, now: int, fine: bool, failing: set<int>)
    ensures var t := Run(e, s, now, fine, failing).state;
      var n := |t.launched| - |s.launched|;
      n >= 0 && t.launched == s.launched + Consecutive(s.gId + 1, n)
      && (forall id :: s.gId < id <= s.gId + n ==> id !in failing)
    decreases e.idleMin - e.idleCount - s.starting
  {
    var a := AdmitStep(e, s);
    if a.go {
      var l := LaunchStep(e, a.state, now, fine, failing);
      if !l.go {
        RunLaunches(e, l.state, now, fine, failing);
        var t := Run(e, l.state, now, fine, failing).state;
        var n := |t.launched| - |l.state.launched|;
        assert t.launched == s.launched + Consecutive(s.gId + 1, n + 1) by {
          assert l.state.launched == s.launched + [s.gId + 1];
          assert Consecutive(s.gId + 1, n + 1) == [s.gId + 1] + Consecutive(s.gId + 2, n);
        }
      }
    }
  }

  /** Each launched thread keeps its starting slot and took one id; a failing
      launch took an id too, and ends the run with LaunchFailure. */
  lemma {:induction false} RunCounts(e: LaunchEnv, s: LaunchState, now: int, fine: bool, failing: set<int>)
    ensures var r := Run(e, s, now, fine, failing);
      var n := |r.state.launched| - |s.launched|;
      r.state.starting == s.starting + n
      && r.state.gId == s.gId + n + (if r.outcome.Fail? then 1 else 0)
      && (r.outcome.Fail? ==> r.outcome.error == LaunchFailure && r.state.gId in failing)
    decreases e.idleMin - e.idleCount - s.starting
  {
    var a := AdmitStep(e, s);
    if a.go {
      var l := LaunchStep(e, a.state, now, fine, failing);
      if !l.go {
        RunCounts(e, l.state, now, fine, failing);
      }
    }
  }

  /** A run that passes ends on a refusal, reported through onThreadMax when
      the pool was over threadMax; admitted starts never report it. */
  lemma {:induction false} RunRefusal(e: LaunchEnv, s: LaunchState, now: int, fine: bool, failing: set<int>)
    ensures var r := Run(e, s, now, fine, failing);
      (r.outcome == Pass ==> !Admits(e, r.state.starting))
      && r.state.maxHits == s.maxHits
           + (if r.outcome == Pass && e.active && e.threadMax < e.threadCount + r.state.starting then 1 else 0)
    decreases e.idleMin - e.idleCount - s.starting
  {
    var a := AdmitStep(e, s);
    if a.go {
      var l := LaunchStep(e, a.state, now, fine, failing);
      if !l.go {
        RunRefusal(e, l.state, now, fine, failing);
      }
    }
  }

  /** Every start re-arms the idle expiry; the throttle sees one call per
      start, all on the same clock, and so warns at most once. */
  lemma {:induction false} RunThrottle(e: LaunchEnv, s: LaunchState, now: int, fine: bool, failing: set<int>)
    ensures Run(e, s, now, fine, failing).state.gId >= s.gId
    ensures var t := Run(e, s, now, fine, failing).state;
      var p := Repeated(s.throttle, e.config, ThrottleCall(now, fine), t.gId - s.gId);
      t.expire == (if t.gId == s.gId then s.expire else now + e.idleTimeout)
      && t.throttle == p.throttle && t.warnings == s.warnings + p.warnings && t.sleeps == s.sleeps + p.sleeps
    decreases e.idleMin - e.idleCount - s.starting
  {
    var a := AdmitStep(e, s);
    if a.go {
      var l := LaunchStep(e, a.state, now, fine, failing);
      if !l.go {
        RunThrottle(e, l.state, now, fine, failing);
      }
    }
  }

  /** The starts admitted keep the pool within one over threadMax. */
  lemma {:induction false} RunBound(e: LaunchEnv, s: LaunchState, now: int, fine: bool, failing: set<int>)
    requires e.threadCount + s.starting <= e.threadMax + 1
    ensures e.threadCount + Run(e, s, now, fine, failing).state.starting <= e.threadMax + 1
    decreases e.idleMin - e.idleCount - s.starting
  {
    var a := AdmitStep(e, s);
    if a.go {
      var l := LaunchStep(e, a.state, now, fine, failing);
      if !l.go {
        RunBound(e, l.state, now, fine, failing);
      }
    }
  }

  class ThreadLauncherBase {
    // configuration
    var threadMax: int
    var idleMin: int
    var idleMax: int
    var idleTimeout: int
    var throttleConfig: ThrottleConfig

    // live counters
    var threadCount: int
    var idleCount: int
    var startingCount: int
    var createCountTotal: int
    var threadIdleExpireTime: int

    var throttle: Throttle
    var gId: int
    /** The lifecycle is active: started and not yet closed. */
    var active: bool

    // observable effects of the calls the launcher makes
    /** Calls of the launcher's own wake(). */
    var wakes: nat
    var closed: bool
    /** Thread ids passed to launchChildThread without it failing, in order. */
    var launched: seq<int>
    /** onThrottle warnings issued. */
    var warnings: nat
    /** Thread.sleep calls made by the throttle. */
    var sleeps: nat
    /** onThreadMax calls. */
    var threadMaxHits: nat
    /** onChildThreadLaunchBegin found startingCount below zero. */
    var startingUnderflows: nat

    /** The setters keep idleMin within threadMax, and every bound positive. */
    ghost predicate Valid()
      reads this
    {
      1 <= idleMin <= threadMax && 1 <= idleMax
    }

    constructor ()
      ensures Valid()
      ensures threadMax == DEFAULT_THREAD_MAX && idleMin == DEFAULT_IDLE_MIN
      ensures idleMax == DEFAULT_IDLE_MAX && idleTimeout == DEFAULT_IDLE_TIMEOUT
      ensures throttleConfig == ThrottleConfig(DEFAULT_THROTTLE_PERIOD, DEFAULT_THROTTLE_LIMIT, 0)
      ensures threadCount == 0 && idleCount == 0 && startingCount == 0
      ensures throttle == Throttle(0, 0, false) && !active && !closed
      ensures wakes == 0 && launched == [] && warnings == 0 && sleeps == 0
    {
      threadMax := DEFAULT_THREAD_MAX;
      idleMin := DEFAULT_IDLE_MIN;
      idleMax := DEFAULT_IDLE_MAX;
      idleTimeout := DEFAULT_IDLE_TIMEOUT;
      throttleConfig := ThrottleConfig(DEFAULT_THROTTLE_PERIOD, DEFAULT_THROTTLE_LIMIT, 0);
      threadCount, idleCount, startingCount := 0, 0, 0;
      createCountTotal, threadIdleExpireTime := 0, 0;
      throttle := Throttle(0, 0, false);
      gId := 0;
      active := false;
      wakes, closed, launched := 0, false, [];
      warnings, sleeps, threadMaxHits, startingUnderflows := 0, 0, 0, 0;
    }

    //
    // configuration
    //

    /** update(): re-arm the idle expiry and wake the launcher. */
    method Update(now: int)
      modifies this`threadIdleExpireTime, this`wakes
      ensures threadIdleExpireTime == now + idleTimeout && wakes == old(wakes) + 1
    {
      threadIdleExpireTime := now + idleTimeout;
      wakes := wakes + 1;
    }

    /** setThreadMax: an unchanged value is a no-op, a non-positive one means
        the default, and a maximum below idleMin is refused before any field
        changes. */
    method SetThreadMax(max: int, now: int) returns (o: Outcome<Exception>)
      requires Valid()
      modifies this`threadMax, this`threadIdleExpireTime, this`wakes
      ensures Valid()
      ensures max == old(threadMax) ==>
        o == Pass && threadMax == old(threadMax) && wakes == old(wakes)
        && threadIdleExpireTime == old(threadIdleExpireTime)
      ensures max != old(threadMax) ==>
        var m := if max <= 0 then DEFAULT_THREAD_MAX else max;
        if m < idleMin then
          o.Fail? && o.error.Config? && threadMax == old(threadMax)
          && wakes == old(wakes) && threadIdleExpireTime == old(threadIdleExpireTime)
        else
          o == Pass && threadMax == m && wakes == old(wakes) + 1
          && threadIdleExpireTime == now + idleTimeout
    {
      if max == threadMax {
        return Pass;
      }
      var m := max;
      if m <= 0 {
        m := DEFAULT_THREAD_MAX;
      }
      if m < idleMin {
        return Fail(Config("IdleMin must be less than ThreadMax"));
      }
      if m < 1 {
        return Fail(Config("ThreadMax must be greater than zero"));
      }
      threadMax := m;
      Update(now);
      o := Pass;
    }

    /** setIdleMin: an unchanged value is a no-op, a non-positive one means
        the default, and a minimum above threadMax is refused. */
    method SetIdleMin(min: int, now: int) returns (o: Outcome<Exception>)
      requires Valid()
      modifies this`idleMin, this`threadIdleExpireTime, this`wakes
      ensures Valid()
      ensures min == old(idleMin) ==>
        o == Pass && idleMin == old(idleMin) && wakes == old(wakes)
        && threadIdleExpireTime == old(threadIdleExpireTime)
      ensures min != old(idleMin) ==>
        var m := if min <= 0 then DEFAULT_IDLE_MIN else min;
        if threadMax < m then
          o.Fail? && o.error.Config? && idleMin == old(idleMin)
          && wakes == old(wakes) && threadIdleExpireTime == old(threadIdleExpireTime)
        else
          o == Pass && idleMin == m && wakes == old(wakes) + 1
          && threadIdleExpireTime == now + idleTimeout
    {
      if min == idleMin {
        return Pass;
      }
      var m := min;
      if m <= 0 {
        m := DEFAULT_IDLE_MIN;
      }
      if threadMax < m {
        return Fail(Config("IdleMin must be less than ThreadMax"));
      }
      if m <= 0 {
        return Fail(Config("IdleMin must be greater than 0"));
      }
      idleMin := m;
      Update(now);
      o := Pass;
    }

    /** setIdleMax: an unchanged value is a no-op, a non-positive one means
        the default, and a maximum above threadMax is refused. */
    method SetIdleMax(max: int, now: int) returns (o: Outcome<Exception>)
      requires Valid()
      modifies this`idleMax, this`threadIdleExpireTime, this`wakes
      ensures Valid()
      ensures max == old(idleMax) ==>
        o == Pass && idleMax == old(idleMax) && wakes == old(wakes)
        && threadIdleExpireTime == old(threadIdleExpireTime)
      ensures max != old(idleMax) ==>
        var m := if max <= 0 then DEFAULT_IDLE_MAX else max;
        if threadMax < m then
          o.Fail? && o.error.Config? && idleMax == old(idleMax)
          && wakes == old(wakes) && threadIdleExpireTime == old(threadIdleExpireTime)
        else
          o == Pass && idleMax == m && wakes == old(wakes) + 1
          && threadIdleExpireTime == now + idleTimeout
    {
      if max == idleMax {
        return Pass;
      }
      var m := max;
      if m <= 0 {
        m := DEFAULT_IDLE_MAX;
      }
      if threadMax < m {
        return Fail(Config("IdleMax must be less than ThreadMax"));
      }
      if m <= 0 {
        return Fail(Config("IdleMax must be greater than 0"));
      }
      idleMax := m;
      Update(now);
      o := Pass;
    }

    method SetIdleTimeout(timeout: int)
      modifies this`idleTimeout
      ensures idleTimeout == timeout
    {
      idleTimeout := timeout;
    }

    method SetThrottlePeriod(period: int)
      modifies this`throttleConfig
      ensures throttleConfig == old(throttleConfig).(period := period)
    {
      throttleConfig := throttleConfig.(period := period);
    }

    method SetThrottleLimit(limit: int)
      modifies this`throttleConfig
      ensures throttleConfig == old(throttleConfig).(limit := limit)
    {
      throttleConfig := throttleConfig.(limit := limit);
    }

    method SetThrottleSleepTime(sleep: int)
      modifies this`throttleConfig
      ensures throttleConfig == old(throttleConfig).(sleep := sleep)
    {
      throttleConfig := throttleConfig.(sleep := sleep);
    }

    /** resetThrottle: restart the count of the current window. */
    method ResetThrottle()
      modifies this`throttle
      ensures throttle == old(throttle).(count := 0)
    {
      throttle := throttle.(count := 0);
    }

    //
    // lifecycle
    //

    method Start()
      modifies this`active, this`wakes
      ensures active && wakes == old(wakes) + 1
    {
      active := true;
      wakes := wakes + 1;
    }

    method Close()
      modifies this`active, this`closed
      ensures !active && closed
    {
      closed := true;
      active := false;
    }

    //
    // child thread callbacks
    //

    /** isThreadMax: running and starting threads have reached threadMax. */
    predicate IsThreadMax()
      reads this
      ensures IsThreadMax() <==> threadCount + startingCount >= threadMax
    {
      threadMax <= threadCount + startingCount
    }

    /** isThreadHigh: running and starting threads are more than half of threadMax. */
    predicate IsThreadHigh()
      reads this
      ensures IsThreadHigh() <==> threadCount + startingCount > threadMax / 2
    {
      threadMax < 2 * (threadCount + startingCount)
    }

    /** isIdleLow: fewer idle threads than idleMin. */
    predicate IsIdleLow()
      reads this
      ensures IsIdleLow() <==> idleMin > idleCount
    {
      idleCount < idleMin
    }

    /** isIdleOverflow: more idle threads than idleMax. */
    predicate IsIdleOverflow()
      reads this
      ensures IsIdleOverflow() <==> idleCount > idleMax
    {
      idleMax < idleCount
    }

    /** A saturated pool of at least one thread is also "high", and an
        overflowing idle pool is never low when idleMin <= idleMax. */
    lemma SaturationPredicates()
      requires Valid()
      ensures IsThreadMax() ==> IsThreadHigh()
      ensures idleMin <= idleMax && IsIdleOverflow() ==> !IsIdleLow()
    {
    }

    /** wakeIfLowIdle: too few idle or starting threads re-arm the expiry
        and wake the launcher. */
    method WakeIfLowIdle(now: int)
      modifies this`threadIdleExpireTime, this`wakes
      ensures var low := idleCount + startingCount < idleMin;
        wakes == old(wakes) + (if low then 1 else 0)
        && threadIdleExpireTime == (if low then now + idleTimeout else old(threadIdleExpireTime))
    {
      if idleCount + startingCount < idleMin {
        threadIdleExpireTime := now + idleTimeout;
        wakes := wakes + 1;
      }
    }

    /** The launched thread reports in: it moves from starting to live, and a
        starting count that would go negative is clamped at zero. */
    method OnChildThreadLaunchBegin(now: int)
      modifies this`threadCount, this`startingCount, this`createCountTotal,
        this`startingUnderflows, this`threadIdleExpireTime, this`wakes
      ensures threadCount == old(threadCount) + 1
      ensures startingCount == if old(startingCount) >= 1 then old(startingCount) - 1 else 0
      ensures startingUnderflows == old(startingUnderflows) + (if old(startingCount) >= 1 then 0 else 1)
      ensures createCountTotal == old(createCountTotal) + 1
      ensures old(startingCount) >= 1 ==> threadCount + startingCount == old(threadCount + startingCount)
      ensures wakes == old(wakes) + (if idleCount + startingCount < idleMin then 1 else 0)
      ensures threadIdleExpireTime ==
        if idleCount + startingCount < idleMin then now + idleTimeout else old(threadIdleExpireTime)
    {
      threadCount := threadCount + 1;
      startingCount := startingCount - 1;
      if startingCount < 0 {
        startingCount := 0;
        startingUnderflows := startingUnderflows + 1;
      }
      createCountTotal := createCountTotal + 1;
      WakeIfLowIdle(now);
    }

    /** The launched thread exits; a pool that was saturated wakes the
        launcher so that refused starts are retried. */
    method OnChildThreadLaunchEnd(now: int)
      modifies this`threadCount, this`threadIdleExpireTime, this`wakes
      ensures threadCount == old(threadCount) - 1
      ensures wakes == old(wakes) + (if threadMax <= old(threadCount) then 1 else 0)
        + (if idleCount + startingCount < idleMin then 1 else 0)
      ensures threadIdleExpireTime ==
        if idleCount + startingCount < idleMin then now + idleTimeout else old(threadIdleExpireTime)
    {
      var count := threadCount;
      threadCount := threadCount - 1;
      if threadMax <= count {
        wakes := wakes + 1;
      }
      WakeIfLowIdle(now);
    }

    method OnChildThreadResumeBegin()
      modifies this`threadCount
      ensures threadCount == old(threadCount) + 1
    {
      threadCount := threadCount + 1;
    }

    method OnChildThreadResumeEnd(now: int)
      modifies this`threadCount, this`threadIdleExpireTime, this`wakes
      ensures threadCount == old(threadCount) - 1
      ensures wakes == old(wakes) + (if threadMax <= old(threadCount) then 1 else 0)
        + (if idleCount + startingCount < idleMin then 1 else 0)
      ensures threadIdleExpireTime ==
        if idleCount + startingCount < idleMin then now + idleTimeout else old(threadIdleExpireTime)
    {
      var count := threadCount;
      threadCount := threadCount - 1;
      if threadMax <= count {
        wakes := wakes + 1;
      }
      WakeIfLowIdle(now);
    }

    method OnChildIdleBegin()
      modifies this`idleCount
      ensures idleCount == old(idleCount) + 1
    {
      idleCount := idleCount + 1;
    }

    method OnChildIdleEnd(now: int)
      modifies this`idleCount, this`threadIdleExpireTime, this`wakes
      ensures idleCount == old(idleCount) - 1
      ensures wakes == old(wakes) + (if idleCount + startingCount < idleMin then 1 else 0)
      ensures threadIdleExpireTime ==
        if idleCount + startingCount < idleMin then now + idleTimeout else old(threadIdleExpireTime)
    {
      idleCount := idleCount - 1;
      WakeIfLowIdle(now);
    }

    //
    // idle management
    //

    /** isIdleExpire: whether an idle thread should exit instead of parking
        again. `casWins` says whether the compare-and-swap of the shared
        expire time succeeds, i.e. no other thread replaced it first. */
    method IsIdleExpire(now: int, casWins: bool) returns (r: bool)
      modifies this`threadIdleExpireTime
      ensures !active ==> r && threadIdleExpireTime == old(threadIdleExpireTime)
      ensures active && idleCount <= idleMin ==>
        !r && threadIdleExpireTime == old(threadIdleExpireTime)
      ensures active && idleMin < idleCount && idleMax < idleCount && idleMin < idleMax ==>
        r && threadIdleExpireTime == (if casWins then now + idleTimeout else old(threadIdleExpireTime))
      ensures active && idleMin < idleCount && !(idleMax < idleCount && idleMin < idleMax) ==>
        r == (old(threadIdleExpireTime) < now && casWins)
        && threadIdleExpireTime == (if r then now + idleTimeout else old(threadIdleExpireTime))
    {
      if !active {
        return true;
      }
      var idleExpire := threadIdleExpireTime;
      var count := idleCount;
      if idleMin < count {
        var nextIdleExpire := now + idleTimeout;
        if idleMax < count && idleMin < idleMax {
          if casWins {
            threadIdleExpireTime := nextIdleExpire;
          }
          return true;
        } else if idleExpire < now && casWins {
          threadIdleExpireTime := nextIdleExpire;
          return true;
        }
      }
      return false;
    }

    //
    // starting threads
    //

    /** The admission rule of doStart, on the starting count seen before its
        own increment. */
    predicate StartAdmitted(starting: int)
      reads this
    {
      active && threadCount + starting <= threadMax && idleCount + starting < idleMin
    }

    /** doStart: reserve a starting slot when the pool is below threadMax and
        there are too few idle threads; every refusal undoes the reservation. */
    method DoStart() returns (r: bool)
      modifies this`startingCount, this`threadMaxHits
      ensures r == old(StartAdmitted(startingCount))
      ensures startingCount == old(startingCount) + (if r then 1 else 0)
      ensures threadMaxHits == old(threadMaxHits)
        + (if active && threadMax < threadCount + old(startingCount) then 1 else 0)
      ensures r ==> threadCount + startingCount <= threadMax + 1
      ensures r ==> idleCount + startingCount <= idleMin
      ensures Admission(r, State()) == AdmitStep(Env(), old(State()))
    {
      if !active {
        return false;
      }
      // isEnable() reads the same lifecycle
      if !active {
        return false;
      }
      var starting := startingCount;
      startingCount := startingCount + 1;
      var count := threadCount + starting;
      if threadMax < count {
        startingCount := startingCount - 1;
        threadMaxHits := threadMaxHits + 1;
        return false;
      } else if idleCount + starting < idleMin {
        return true;
      } else {
        startingCount := startingCount - 1;
        return false;
      }
    }

    method UpdateIdleExpireTime(now: int)
      modifies this`threadIdleExpireTime
      ensures threadIdleExpireTime == now + idleTimeout
    {
      threadIdleExpireTime := now + idleTimeout;
    }

    /** updateThrottle, with the clock and the FINE log level passed in. */
    method UpdateThrottle(call: ThrottleCall)
      modifies this`throttle, this`warnings, this`sleeps
      ensures var r := ThrottleStep(old(throttle), throttleConfig, call);
        throttle == r.next
        && warnings == old(warnings) + (if r.warned then 1 else 0)
        && sleeps == old(sleeps) + (if r.slept then 1 else 0)
    {
      if throttle.timestamp + throttleConfig.period < call.now {
        throttle := Throttle(call.now, 1, false);
        return;
      }
      throttle := throttle.(count := throttle.count + 1);
      if throttle.count < throttleConfig.limit {
        return;
      }
      if !throttle.isThrottle {
        throttle := throttle.(isThrottle := true);
        if throttleConfig.sleep > 0 || call.fine {
          warnings := warnings + 1;
        }
      }
      if throttleConfig.sleep > 0 {
        sleeps := sleeps + 1;
      }
    }

    /** The fields startConnection reads and leaves alone. */
    ghost function Env(): LaunchEnv
      reads this`active, this`threadCount, this`idleCount, this`threadMax,
        this`idleMin, this`idleTimeout, this`throttleConfig
    {
      LaunchEnv(active, threadCount, idleCount, threadMax, idleMin, idleTimeout, throttleConfig)
    }

    /** The fields startConnection changes. */
    ghost function State(): LaunchState
      reads this`startingCount, this`launched, this`gId, this`threadMaxHits,
        this`threadIdleExpireTime, this`throttle, this`warnings, this`sleeps
    {
      LaunchState(startingCount, launched, gId, threadMaxHits, threadIdleExpireTime, throttle, warnings, sleeps)
    }

    /** One pass of startConnection's loop body, after doStart admitted it:
        re-arm the idle expiry, take the next id, pass the throttle and
        launch; a launch that throws gives back the reservation. */
    method StartOne(now: int, fine: bool, failing: set<int>) returns (failed: bool)
      modifies this`startingCount, this`threadIdleExpireTime,
        this`gId, this`throttle, this`warnings, this`sleeps, this`launched
      ensures Admission(failed, State()) == LaunchStep(Env(), old(State()), now, fine, failing)
    {
      UpdateIdleExpireTime(now);
      gId := gId + 1;
      var id := gId;
      UpdateThrottle(ThrottleCall(now, fine));
      if id in failing {
        // onStartFail
        startingCount := startingCount - 1;
        return true;
      }
      launched := launched + [id];
      failed := false;
    }

    /** startConnection: start threads while doStart admits them. Each start
        re-arms the idle expiry, takes the next id and passes the throttle;
        the ids in `failing` are those whose launchChildThread throws, and
        onStartFail then gives back the reservation and the exception leaves
        the loop. */
    method StartConnection(now: int, fine: bool, failing: set<int>) returns (o: Outcome<Exception>)
      modifies this`startingCount, this`threadMaxHits, this`threadIdleExpireTime,
        this`gId, this`throttle, this`warnings, this`sleeps, this`launched
      ensures LaunchResult(o, State()) == Run(Env(), old(State()), now, fine, failing)
    {
      ghost var e0, s0 := Env(), State();
      var go := DoStart();
      while go
        invariant Env() == e0
        invariant go ==> idleCount + startingCount <= idleMin
        invariant go ==> Resume(e0, State(), now, fine, failing) == Run(e0, s0, now, fine, failing)
        invariant !go ==> LaunchResult(Pass, State()) == Run(e0, s0, now, fine, failing)
        decreases idleMin - idleCount - startingCount + (if go then 1 else 0)
      {
        var failed := StartOne(now, fine, failing);
        if failed {
          return Fail(LaunchFailure);
        }
        go := DoStart();
      }
      o := Pass;
    }

    /** The launcher's runTask: start what may be started, then ask to be
        woken rather than parked on a timeout; a failing launch propagates.
        Its effect is startConnection's, spelled out field by field. */
    method RunTask(now: int, fine: bool, failing: set<int>) returns (delta: int, o: Outcome<Exception>)
      modifies this`startingCount, this`threadMaxHits, this`threadIdleExpireTime,
        this`gId, this`throttle, this`warnings, this`sleeps, this`launched
      ensures delta == -1
      ensures LaunchResult(o, State()) == Run(Env(), old(State()), now, fine, failing)
      ensures o.Fail? ==> o.error == LaunchFailure && gId in failing
      ensures o == Pass ==> !StartAdmitted(startingCount)
      ensures |launched| >= |old(launched)|
      ensures launched == old(launched) + Consecutive(old(gId) + 1, |launched| - |old(launched)|)
      ensures forall id :: old(gId) < id <= old(gId) + (|launched| - |old(launched)|) ==> id !in failing
      ensures startingCount == old(startingCount) + (|launched| - |old(launched)|)
      ensures gId == old(gId) + (|launched| - |old(launched)|) + (if o.Fail? then 1 else 0)
      ensures threadMaxHits == old(threadMaxHits)
        + (if o == Pass && active && threadMax < threadCount + startingCount then 1 else 0)
      ensures gId >= old(gId)
      ensures threadIdleExpireTime == if gId == old(gId) then old(threadIdleExpireTime) else now + idleTimeout
      ensures var run := Repeated(old(throttle), throttleConfig, ThrottleCall(now, fine), gId - old(gId));
        throttle == run.throttle && warnings == old(warnings) + run.warnings
        && sleeps == old(sleeps) + run.sleeps
      ensures warnings <= old(warnings) + 1
      ensures old(throttle.isThrottle) && !old(WindowExpired(throttle, throttleConfig, now)) ==>
        warnings == old(warnings)
      ensures old(threadCount + startingCount) <= threadMax + 1 ==>
        threadCount + startingCount <= threadMax + 1
    {
      ghost var e0, s0 := Env(), State();
      o := StartConnection(now, fine, failing);
      delta := -1;
      RunLaunches(e0, s0, now, fine, failing);
      RunCounts(e0, s0, now, fine, failing);
      RunRefusal(e0, s0, now, fine, failing);
      RunThrottle(e0, s0, now, fine, failing);
      RepeatedWarnsAtMostOnce(s0.throttle, e0.config, ThrottleCall(now, fine), gId - s0.gId);
      if threadCount + s0.starting <= threadMax + 1 {
        RunBound(e0, s0, now, fine, failing);
      }
    }
  }
}
