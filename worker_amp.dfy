/** The worker lifecycle of the actor scheduler: one worker owns the delivery
    loop of one queue, and the state register decides when a backing thread
    is requested, when a pending wake forces another pass, and when the
    worker parks. Every compare-and-swap is one atomic step; calls made by
    other threads are given to `Run` as a script of interference points. */
module WorkerAmp {
  import opened Wrappers

  /** Idle timeout, in milliseconds, of a permanent worker. */
  const PERMANENT_TIMEOUT: int := 30000

  datatype State = Idle | Active | ActiveWake | Park | Closed {
    /** isIdle: only IDLE overrides it to true. */
    predicate IsIdle()
      ensures IsIdle() <==> this == Idle
    {
      Idle?
    }

    /** isActive: ACTIVE and ACTIVE_WAKE, so a pending wake is still active. */
    predicate IsActive()
      ensures IsActive() <==> this == Active || this == ActiveWake
    {
      Active? || ActiveWake?
    }

    /** isWake: only ACTIVE_WAKE, which is also active. */
    predicate IsWake()
      ensures IsWake() <==> this == ActiveWake
      ensures IsWake() ==> IsActive()
    {
      ActiveWake?
    }

    /** isPark: only PARK, which is not active. */
    predicate IsPark()
      ensures IsPark() <==> this == Park
      ensures IsPark() ==> !IsActive()
    {
      Park?
    }

    /** isClosed: only CLOSED. */
    predicate IsClosed()
      ensures IsClosed() <==> this == Closed
    {
      Closed?
    }

    /** The state after a wake request: a pending wake is recorded unless the
        worker is closed. */
    function ToWake(): (r: State)
      ensures r == ActiveWake || r == this
      ensures r == this <==> (ActiveWake? || Closed?)
    {
      match this
      case Idle => ActiveWake
      case Active => ActiveWake
      case ActiveWake => this
      case Park => ActiveWake
      case Closed => Closed
    }

    /** The state when the backing thread leaves the loop; an idle worker has
        no thread, so leaving from Idle is an error. */
    function ToIdle(): (r: Result<State, Exception>)
      ensures r.Err? <==> Idle?
      ensures r.Err? ==> r.error == UnsupportedOperation
      ensures r.Ok? ==> (r.value.ActiveWake? <==> ActiveWake?)
      ensures r.Ok? ==> (r.value.Closed? <==> Closed?)
      ensures (Active? || Park?) ==> r == Ok(Idle)
    {
      match this
      case Idle => Err(UnsupportedOperation)
      case Active => Ok(Idle)
      case ActiveWake => Ok(this)
      case Park => Ok(Idle)
      case Closed => Ok(Closed)
    }
  }

  /** A wake pending at the moment a thread leaves survives ToIdle, and a
      wake always leaves the worker either closed or with a pending wake. */
  lemma WakeThenIdleKeepsWake(s: State)
    ensures s.ToWake().ToIdle() == Ok(s.ToWake())
    ensures s.ToWake().ToWake() == s.ToWake()
    ensures s.ToWake().IsWake() || s.ToWake().IsClosed()
  {
  }

  type ThreadId = nat

  /** A call made by another thread while the worker's own thread runs. */
  datatype Ext = WakeCall | CloseCall

  /** One interference point of the loop: the calls other threads make during
      it, the value `runTask` returns (used at task points only) and the
      clock read after it. */
  datatype Tick = Tick(during: seq<Ext>, delta: int, now: int)

  /** The state after the calls `during`, applied in order. */
  function AfterExt(s: State, during: seq<Ext>): State
    decreases |during|
  {
    if during == [] then s
    else
      var next := match during[0] case WakeCall => s.ToWake() case CloseCall => Closed;
      AfterExt(next, during[1..])
  }

  lemma {:induction false} AfterExtKeepsPendingWake(s: State, during: seq<Ext>)
    requires s == ActiveWake || s == Closed
    ensures AfterExt(s, during) == ActiveWake || AfterExt(s, during) == Closed
    decreases |during|
  {
    if during != [] {
      var next := match during[0] case WakeCall => s.ToWake() case CloseCall => Closed;
      AfterExtKeepsPendingWake(next, during[1..]);
    }
  }

  lemma {:induction false} AfterExtNeverIdles(s: State, during: seq<Ext>)
    requires s != Idle
    ensures AfterExt(s, during) != Idle
    decreases |during|
  {
    if during != [] {
      var next := match during[0] case WakeCall => s.ToWake() case CloseCall => Closed;
      AfterExtNeverIdles(next, during[1..]);
    }
  }

  class WorkerAmpBase {
    var state: State
    var thread: Option<ThreadId>
    var workerIdleTimeout: int
    const permanent: bool
    const retry: bool

    /** Number of startWorkerThread requests made so far. */
    var starts: nat
    /** Threads unparked so far, in order. */
    var unparks: seq<ThreadId>
    /** Number of runTask calls so far. */
    var tasks: nat
    /** A wake was accepted that no runTask call has started after. */
    ghost var wakeUnserved: bool

    ghost predicate Valid()
      reads this
    {
      workerIdleTimeout >= 0
    }

    constructor (permanent: bool, retry: bool)
      ensures Valid()
      ensures state == Idle && thread == None && workerIdleTimeout == 0
      ensures this.permanent == permanent && this.retry == retry
      ensures starts == 0 && unparks == [] && tasks == 0 && !wakeUnserved
    {
      state := Idle;
      thread := None;
      workerIdleTimeout := 0;
      this.permanent := permanent;
      this.retry := retry;
      starts := 0;
      unparks := [];
      tasks := 0;
      wakeUnserved := false;
    }

    method SetWorkerIdleTimeout(timeout: int) returns (o: Outcome<Exception>)
      modifies this`workerIdleTimeout
      ensures o == (if timeout < 0 then Fail(IllegalArgument) else Pass)
      ensures workerIdleTimeout == if timeout < 0 then old(workerIdleTimeout) else timeout
    {
      if timeout < 0 {
        return Fail(IllegalArgument);
      }
      workerIdleTimeout := timeout;
      o := Pass;
    }

    /** The timeout the loop parks for: a permanent worker uses the fixed
        30000 ms instead of the configured one. */
    function IdleTimeout(): (t: int)
      reads this
      ensures permanent ==> t == PERMANENT_TIMEOUT
      ensures !permanent ==> t == workerIdleTimeout
      ensures Valid() ==> t >= 0
    {
      if permanent then PERMANENT_TIMEOUT else workerIdleTimeout
    }

    /** isTaskActive: a thread owns the worker, whether running, with a wake
        pending, or parked. */
    predicate IsTaskActive()
      reads this
      ensures IsTaskActive() <==> state != Idle && state != Closed
    {
      state.IsActive() || state.IsPark()
    }

    /** isClosed: the state register holds CLOSED. */
    predicate IsClosed()
      reads this
      ensures IsClosed() <==> state == Closed
    {
      state.IsClosed()
    }

    method Close()
      modifies this`state, this`unparks
      ensures state == Closed
      ensures unparks == old(unparks) + (if thread.Some? then [thread.value] else [])
    {
      state := Closed;
      if thread.Some? {
        unparks := unparks + [thread.value];
      }
    }

    /** Only a wake of an idle worker requests a new backing thread; a wake of
        a parked worker unparks its thread; a closed worker ignores wakes. */
    method Wake()
      modifies this`state, this`starts, this`unparks, this`wakeUnserved
      ensures old(state) == Closed ==>
        state == Closed && unparks == old(unparks) && wakeUnserved == old(wakeUnserved)
      ensures old(state) != Closed ==> state == old(state).ToWake() && wakeUnserved
      ensures state == old(state).ToWake()
      ensures starts == old(starts) + (if old(state) == Idle then 1 else 0)
      ensures unparks == old(unparks) + (if old(state) == Park && thread.Some? then [thread.value] else [])
    {
      if state.IsClosed() {
        return;
      }
      var oldState := state;
      state := oldState.ToWake();
      wakeUnserved := true;
      if oldState.IsIdle() {
        starts := starts + 1;
      } else if oldState.IsPark() {
        if thread.Some? {
          unparks := unparks + [thread.value];
        }
      }
    }

    /** The calls other threads make at one interference point. */
    method Interfere(during: seq<Ext>)
      requires state != Idle
      modifies this`state, this`starts, this`unparks, this`wakeUnserved
      ensures state == AfterExt(old(state), during) && state != Idle
      ensures starts == old(starts)
      ensures wakeUnserved && !old(wakeUnserved) ==> state == ActiveWake || state == Closed
      ensures (old(state) == ActiveWake || old(state) == Closed) ==> (state == ActiveWake || state == Closed)
      ensures old(state) == Closed ==> state == Closed
    {
      var i := 0;
      while i < |during|
        invariant 0 <= i <= |during|
        invariant AfterExt(state, during[i..]) == AfterExt(old(state), during)
        invariant state != Idle
        invariant starts == old(starts)
        invariant wakeUnserved && !old(wakeUnserved) ==> state == ActiveWake || state == Closed
        invariant (old(state) == ActiveWake || old(state) == Closed) ==> (state == ActiveWake || state == Closed)
        invariant old(state) == Closed ==> state == Closed
      {
        assert during[i..][1..] == during[i + 1..];
        match during[i] {
          case WakeCall => Wake();
          case CloseCall => Close();
        }
        i := i + 1;
      }
    }

    /** The loop of `run`, up to the `finally` block. It returns the number of
        script entries used and whether the script ran out, which the model
        treats like runTask throwing. */
    method RunLoop(now0: int, script: seq<Tick>) returns (k: nat, exhausted: bool)
      modifies this`state, this`starts, this`unparks, this`wakeUnserved, this`tasks
      ensures k <= |script|
      ensures old(state) == Closed ==> state == Closed && k == 0 && tasks == old(tasks)
      ensures state != Idle
      ensures starts == old(starts)
      ensures !exhausted && wakeUnserved ==> state == Closed
    {
      var idleTimeout := IdleTimeout();
      var now := now0;
      var expires := if idleTimeout > 0 then now + idleTimeout else 0;
      k, exhausted := 0, false;
      while true
        invariant k <= |script|
        invariant k > 0 ==> state != Idle
        invariant old(state) == Closed ==> state == Closed && k == 0 && tasks == old(tasks)
        invariant starts == old(starts)
        invariant !exhausted
        invariant k > 0 && wakeUnserved ==> state == ActiveWake || state == Closed
        decreases |script| - k
      {
        var isExpireRetry := false;
        // CAS loop: any state other than Closed becomes Active
        if state.IsClosed() {
          return;
        }
        state := Active;
        var k0 := k;
        while true
          invariant k0 <= k <= |script|
          invariant state == Active
          invariant starts == old(starts)
          invariant old(state) != Closed
          decreases |script| - k
        {
          // A close from another thread between the state change above and
          // this check needs a finer interleaving than one script step per
          // task, so at this point the state is always Active.
          if state.IsClosed() {
            return;
          }
          isExpireRetry := false;
          if k == |script| {
            exhausted := true;
            return;
          }
          var t := script[k];
          k := k + 1;
          tasks := tasks + 1;
          wakeUnserved := false;
          Interfere(t.during);
          now := t.now;
          if t.delta > 0 {
            expires := now + t.delta;
            isExpireRetry := true;
          } else if idleTimeout > 0 {
            expires := now + idleTimeout;
          } else {
            expires := 0;
          }
          // CAS ActiveWake -> Active: a wake during the task forces another pass
          if state == ActiveWake {
            state := Active;
          } else {
            break;
          }
        }
        assert wakeUnserved ==> state == Closed;
        if k == |script| {
          exhausted := true;
          return;
        }
        var p := script[k];
        k := k + 1;
        if expires > 0 && state == Active {
          state := Park;
          // parked until `expires`, an unpark, or one of these calls
          Interfere(p.during);
          if state == Park {
            state := Active;
          }
        } else {
          Interfere(p.during);
        }
        now := p.now;
        if permanent || isExpireRetry {
          expires := now + idleTimeout;
        }
        if !(permanent || isExpireRetry || now < expires || state == ActiveWake || retry) {
          return;
        }
      }
    }

    /** `run` on the backing thread `tid`: the loop, then the `finally` block,
        where calls `atExit` of other threads may race with the thread's exit.
        A wake still pending after ToIdle requests a fresh thread, so no wake
        is lost; no thread is requested while this one is inside the loop. */
    method Run(tid: ThreadId, now0: int, script: seq<Tick>, atExit: seq<Ext>) returns (k: nat, exhausted: bool)
      modifies this`state, this`starts, this`unparks, this`wakeUnserved, this`tasks, this`thread
      ensures k <= |script|
      ensures thread == None
      ensures state == Idle || state == ActiveWake || state == Closed
      ensures starts == old(starts) + (if state == ActiveWake then 1 else 0)
      ensures old(state) == Closed ==> state == Closed && k == 0 && tasks == old(tasks)
      ensures !exhausted && wakeUnserved ==> state == Closed || starts == old(starts) + 1
    {
      thread := Some(tid);
      k, exhausted := RunLoop(now0, script);
      thread := None;
      // onThreadComplete(): other threads may call in here
      Interfere(atExit);
      var r := state.ToIdle();
      match r {
        case Ok(s) =>
          state := s;
        case Err(_) =>
          assert false;
      }
      if state.IsWake() {
        starts := starts + 1;
      }
    }
  }
}
