/** The single-threaded delivery worker: a batch delivers an optional tail
    message either inline (bypassing the queue) or by offering it to the
    queue, then drains the queue, always bracketed by the deliverer's
    beforeBatch/afterBatch hooks.

    The queue is a bounded FIFO (`offer` accepts while it holds fewer than
    `capacity` messages) and `queue.deliver` hands every queued message to
    the deliverer in order. A delivery can throw: the messages in `throwing`
    are those whose delivery throws. The exception ends the batch (the
    messages after it stay queued), but afterBatch still runs. */
module WorkerDeliver {
  import opened Wrappers

  datatype ShutdownMode = Graceful | Immediate

  /** What the deliverer and the worker base observe, in order. */
  datatype Event<M> =
    | BeforeBatch
    | Deliver(msg: M)
    | AfterBatch
    | Wake
    | DelivererShutdown(mode: ShutdownMode)
    | WorkerShutdown(mode: ShutdownMode)

  /** The outcome of delivering a run of messages. */
  datatype Batch<M> = Batch(delivered: seq<M>, rest: seq<M>, threw: bool)

  /** queue.deliver: deliver from the front until the queue is empty or a
      delivery throws. */
  function Drain<M(==)>(q: seq<M>, throwing: set<M>): Batch<M>
    decreases |q|
  {
    if q == [] then Batch([], [], false)
    else if q[0] in throwing then Batch([q[0]], q[1..], true)
    else Prepend([q[0]], Drain(q[1..], throwing))
  }

  function Prepend<M>(ms: seq<M>, b: Batch<M>): Batch<M>
  {
    Batch(ms + b.delivered, b.rest, b.threw)
  }

  /** A drain splits the queue into what was delivered and what is left;
      only a throwing message stops it, and that message is the last one
      delivered. */
  lemma {:induction false} DrainSplits<M>(q: seq<M>, throwing: set<M>)
    ensures var b := Drain(q, throwing);
      b.delivered + b.rest == q
      && (!b.threw ==> b.rest == [])
      && (b.threw ==> b.delivered != [] && b.delivered[|b.delivered| - 1] in throwing)
    decreases |q|
  {
    if q != [] && q[0] !in throwing {
      DrainSplits(q[1..], throwing);
      var r := Drain(q[1..], throwing);
      assert [q[0]] + r.delivered + r.rest == q;
    }
  }

  /** A drain throws exactly when some message in the queue throws, and no
      message before the one that throws is a throwing one. */
  lemma {:induction false} DrainThrowsIff<M>(q: seq<M>, throwing: set<M>)
    ensures var b := Drain(q, throwing);
      (b.threw <==> exists i :: 0 <= i < |q| && q[i] in throwing)
      && forall i :: 0 <= i < |b.delivered| - 1 ==> b.delivered[i] !in throwing
    decreases |q|
  {
    if q != [] && q[0] !in throwing {
      DrainThrowsIff(q[1..], throwing);
      var r := Drain(q[1..], throwing);
      if exists i :: 0 <= i < |q| && q[i] in throwing {
        var i :| 0 <= i < |q| && q[i] in throwing;
        assert q[1..][i - 1] == q[i];
      }
      if r.threw {
        var i :| 0 <= i < |q[1..]| && q[1..][i] in throwing;
        assert q[i + 1] in throwing;
      }
      var d := Drain(q, throwing).delivered;
      assert d == [q[0]] + r.delivered;
      forall i | 0 <= i < |d| - 1 ensures d[i] !in throwing {
        if i > 0 {
          assert d[i] == r.delivered[i - 1];
        }
      }
    }
  }

  /** The deliverer events of a batch. */
  function Deliveries<M>(ms: seq<M>): (r: seq<Event<M>>)
    ensures |r| == |ms|
  {
    if ms == [] then [] else [Deliver(ms[0])] + Deliveries(ms[1..])
  }

  /** Whether runImpl delivers the tail inline, given the queue before it. */
  predicate TailInline<M>(q: seq<M>, capacity: nat, tail: Option<M>)
  {
    tail.Some? && (q == [] || |q| >= capacity)
  }

  /** The effect of runImpl on the queue `q`: the batch it delivers. */
  function RunImplBatch<M(==)>(q: seq<M>, capacity: nat, tail: Option<M>, throwing: set<M>): Batch<M>
  {
    if TailInline(q, capacity, tail) then
      if tail.value in throwing then Batch([tail.value], q, true)
      else
        var d := Drain(q, throwing);
        Batch([tail.value] + d.delivered, d.rest, d.threw)
    else if tail.Some? then Drain(q + [tail.value], throwing)
    else Drain(q, throwing)
  }

  /** The order in which runImpl hands the messages over: an inline tail
      first, an accepted tail after the queued messages. */
  function RunImplOrder<M>(q: seq<M>, capacity: nat, tail: Option<M>): seq<M>
  {
    if TailInline(q, capacity, tail) then [tail.value] + q
    else if tail.Some? then q + [tail.value]
    else q
  }

  /** Nothing is lost or duplicated: what is delivered followed by what is
      left queued is exactly the hand-over order, and with no throwing
      message everything is delivered. */
  lemma RunImplDeliversInOrder<M>(q: seq<M>, capacity: nat, tail: Option<M>, throwing: set<M>)
    ensures var b := RunImplBatch(q, capacity, tail, throwing);
      b.delivered + b.rest == RunImplOrder(q, capacity, tail)
      && (!b.threw ==> b.delivered == RunImplOrder(q, capacity, tail) && b.rest == [])
  {
    DrainSplits(q, throwing);
    if tail.Some? {
      DrainSplits(q + [tail.value], throwing);
    }
  }

  /** A batch is cut short exactly when some message it hands over throws. */
  lemma RunImplThrowsIff<M>(q: seq<M>, capacity: nat, tail: Option<M>, throwing: set<M>)
    ensures var order := RunImplOrder(q, capacity, tail);
      RunImplBatch(q, capacity, tail, throwing).threw
      <==> exists i :: 0 <= i < |order| && order[i] in throwing
  {
    var order := RunImplOrder(q, capacity, tail);
    if TailInline(q, capacity, tail) {
      if tail.value in throwing {
        assert order[0] in throwing;
      } else {
        DrainThrowsIff(q, throwing);
        if exists i :: 0 <= i < |order| && order[i] in throwing {
          var i :| 0 <= i < |order| && order[i] in throwing;
          assert q[i - 1] == order[i];
        }
        if Drain(q, throwing).threw {
          var i :| 0 <= i < |q| && q[i] in throwing;
          assert order[i + 1] == q[i];
        }
      }
    } else {
      DrainThrowsIff(order, throwing);
    }
  }

  /** Every batch is bracketed: exactly one beforeBatch first, exactly one
      afterBatch last, and only deliveries in between. */
  predicate Bracketed<M>(t: seq<Event<M>>)
  {
    |t| >= 2 && t[0] == BeforeBatch && t[|t| - 1] == AfterBatch
    && forall i :: 0 < i < |t| - 1 ==> t[i].Deliver? || t[i].Wake?
  }

  lemma BracketedCountsHooks<M>(t: seq<Event<M>>)
    requires Bracketed(t)
    ensures forall i :: 0 <= i < |t| && t[i] == BeforeBatch ==> i == 0
    ensures forall i :: 0 <= i < |t| && t[i] == AfterBatch ==> i == |t| - 1
  {
  }

  class WorkerDeliverSingleThread<M(==)> {
    /** The messages in the queue, oldest first. */
    var queue: seq<M>
    const capacity: nat
    /** Messages whose delivery throws. */
    const throwing: set<M>
    /** Everything the deliverer and the worker base have been asked to do. */
    var log: seq<Event<M>>

    constructor (capacity: nat, throwing: set<M>)
      ensures this.capacity == capacity && this.throwing == throwing
      ensures queue == [] && log == []
    {
      this.capacity := capacity;
      this.throwing := throwing;
      queue := [];
      log := [];
    }

    function IsEmpty(): (r: bool)
      reads this
      ensures r <==> |queue| == 0
    {
      queue == []
    }

    /** runOne is valid exactly when the queue is empty, so that running the
        tail inline cannot overtake a queued message. */
    function IsRunOneValid(): (r: bool)
      reads this
      ensures r <==> |queue| == 0
      ensures r == IsEmpty()
    {
      queue == []
    }

    /** queue.offer: accept while below capacity. */
    method Offer(m: M) returns (accepted: bool)
      modifies this`queue
      ensures accepted <==> |old(queue)| < capacity
      ensures queue == if accepted then old(queue) + [m] else old(queue)
    {
      if |queue| < capacity {
        queue := queue + [m];
        return true;
      }
      return false;
    }

    /** deliver.deliver(m, outbox): fails exactly for throwing messages. */
    method DeliverOne(m: M) returns (o: Outcome<M>)
      modifies this`log
      ensures log == old(log) + [Deliver(m)]
      ensures o == if m in throwing then Fail(m) else Pass
    {
      log := log + [Deliver(m)];
      if m in throwing {
        return Fail(m);
      }
      return Pass;
    }

    /** queue.deliver(deliver, outbox): hand over every queued message. */
    method DrainQueue() returns (o: Outcome<M>)
      modifies this`queue, this`log
      ensures var b := Drain(old(queue), throwing);
        log == old(log) + Deliveries(b.delivered) && queue == b.rest
        && (o.Fail? <==> b.threw)
    {
      ghost var q0 := queue;
      ghost var done: seq<M> := [];
      o := Pass;
      while queue != []
        invariant log == old(log) + Deliveries(done)
        invariant Drain(q0, throwing) == Prepend(done, Drain(queue, throwing))
        invariant o == Pass
        decreases |queue|
      {
        var m := queue[0];
        ghost var q := queue;
        queue := queue[1..];
        o := DeliverOne(m);
        DeliveriesAppend(done, m);
        DrainAdvance(q0, done, q, throwing);
        done := done + [m];
        if o.Fail? {
          return;
        }
      }
      DrainFinished(q0, done, throwing);
    }

    /** The tail delivered inline, then the queue drained unless the tail
        threw. */
    method DeliverInline(t: M) returns (o: Outcome<M>)
      modifies this`queue, this`log
      ensures var b := if t in throwing then Batch([t], old(queue), true)
                       else Prepend([t], Drain(old(queue), throwing));
        log == old(log) + Deliveries(b.delivered) && queue == b.rest
        && (o.Fail? <==> b.threw)
    {
      ghost var q0 := queue;
      o := DeliverOne(t);
      if o.Fail? {
        assert Deliveries([t]) == [Deliver(t)];
      } else {
        o := DrainQueue();
        DeliveriesAppendFront(t, Drain(q0, throwing).delivered);
      }
    }

    /** runImpl: one batch, with the optional tail message delivered inline
        or through the queue. The result is Fail when a delivery threw; the
        afterBatch hook runs in either case. */
    method RunImpl(tail: Option<M>) returns (o: Outcome<M>)
      modifies this`queue, this`log
      ensures var b := RunImplBatch(old(queue), capacity, tail, throwing);
        log == old(log) + [BeforeBatch] + Deliveries(b.delivered) + [AfterBatch]
        && queue == b.rest
        && (o.Fail? <==> b.threw)
      ensures Bracketed(log[|old(log)|..])
    {
      ghost var q0 := queue;
      ghost var b := RunImplBatch(q0, capacity, tail, throwing);
      log := log + [BeforeBatch];
      var inline := false;
      if tail.Some? {
        if queue == [] {
          inline := true;
        } else {
          var accepted := Offer(tail.value);
          inline := !accepted;
        }
      }
      assert inline == TailInline(q0, capacity, tail);
      if inline {
        o := DeliverInline(tail.value);
      } else {
        o := DrainQueue();
      }
      assert log == old(log) + [BeforeBatch] + Deliveries(b.delivered);
      log := log + [AfterBatch];
      BracketedBatch(old(log), b.delivered, log);
    }

    /** runOneImpl: deliver the tail inline when the queue is empty or full;
        otherwise it was accepted into the queue and the worker is woken to
        deliver it. Either way the hooks bracket the call. */
    method RunOneImpl(tail: M) returns (o: Outcome<M>)
      modifies this`queue, this`log
      ensures var inline := old(queue) == [] || |old(queue)| >= capacity;
        log == old(log) + [BeforeBatch] + (if inline then [Deliver(tail)] else [Wake]) + [AfterBatch]
        && queue == (if inline then old(queue) else old(queue) + [tail])
        && (o.Fail? <==> inline && tail in throwing)
      ensures Bracketed(log[|old(log)|..])
    {
      log := log + [BeforeBatch];
      var inline := true;
      if queue != [] {
        var accepted := Offer(tail);
        inline := !accepted;
      }
      o := Pass;
      if inline {
        o := DeliverOne(tail);
      } else {
        log := log + [Wake];
      }
      log := log + [AfterBatch];
    }

    /** shutdown(mode): the deliverer hears the mode before the worker base. */
    method Shutdown(mode: ShutdownMode)
      modifies this`log
      ensures log == old(log) + [DelivererShutdown(mode), WorkerShutdown(mode)]
    {
      log := log + [DelivererShutdown(mode)];
      log := log + [WorkerShutdown(mode)];
    }

    method Close()
      modifies this`log
      ensures log == old(log) + [DelivererShutdown(Immediate), WorkerShutdown(Immediate)]
    {
      Shutdown(Immediate);
    }
  }

  /** One step of queue.deliver: the front message is delivered, and it
      either throws or the rest of the queue is drained after it. */
  lemma DrainStep<M>(q: seq<M>, throwing: set<M>)
    requires q != []
    ensures Drain(q, throwing)
         == if q[0] in throwing then Batch([q[0]], q[1..], true)
            else Prepend([q[0]], Drain(q[1..], throwing))
  {
  }

  /** The loop of queue.deliver after one more message: a throwing one
      ends the batch, any other leaves the rest of the queue to drain. */
  lemma DrainAdvance<M>(q0: seq<M>, done: seq<M>, q: seq<M>, throwing: set<M>)
    requires q != [] && Drain(q0, throwing) == Prepend(done, Drain(q, throwing))
    ensures q[0] in throwing ==> Drain(q0, throwing) == Batch(done + [q[0]], q[1..], true)
    ensures q[0] !in throwing ==> Drain(q0, throwing) == Prepend(done + [q[0]], Drain(q[1..], throwing))
  {
    DrainStep(q, throwing);
    if q[0] in throwing {
      assert [q[0]] + [] == [q[0]];
      PrependAppend(done, q[0], Batch([], q[1..], true));
    } else {
      PrependAppend(done, q[0], Drain(q[1..], throwing));
    }
  }

  lemma DrainFinished<M>(q0: seq<M>, done: seq<M>, throwing: set<M>)
    requires Drain(q0, throwing) == Prepend(done, Drain([], throwing))
    ensures Drain(q0, throwing) == Batch(done, [], false)
  {
    assert done + [] == done;
  }

  lemma PrependAppend<M>(done: seq<M>, m: M, b: Batch<M>)
    ensures Prepend(done, Prepend([m], b)) == Prepend(done + [m], b)
  {
    assert done + ([m] + b.delivered) == (done + [m]) + b.delivered;
  }

  lemma {:induction false} DeliveriesAppend<M>(ms: seq<M>, m: M)
    ensures Deliveries(ms + [m]) == Deliveries(ms) + [Deliver(m)]
    decreases |ms|
  {
    if ms != [] {
      assert (ms + [m])[1..] == ms[1..] + [m];
      DeliveriesAppend(ms[1..], m);
    }
  }

  lemma DeliveriesAppendFront<M>(m: M, ms: seq<M>)
    ensures Deliveries([m] + ms) == [Deliver(m)] + Deliveries(ms)
  {
    assert ([m] + ms)[1..] == ms;
  }

  lemma {:induction false} DeliveriesAt<M>(ms: seq<M>, i: int)
    requires 0 <= i < |ms|
    ensures Deliveries(ms)[i] == Deliver(ms[i])
    decreases |ms|
  {
    if i > 0 {
      DeliveriesAt(ms[1..], i - 1);
    }
  }

  lemma BracketedBatch<M>(prefix: seq<Event<M>>, ms: seq<M>, t: seq<Event<M>>)
    requires t == prefix + [BeforeBatch] + Deliveries(ms) + [AfterBatch]
    ensures Bracketed(t[|prefix|..])
  {
    var s := t[|prefix|..];
    assert s == [BeforeBatch] + Deliveries(ms) + [AfterBatch];
    forall i | 0 < i < |s| - 1 ensures s[i].Deliver? || s[i].Wake? {
      assert s[i] == Deliveries(ms)[i - 1];
      DeliveriesAt(ms, i - 1);
    }
  }
}
