/** The base of an inbound pipe: it remembers the flow-control peer set by
    `inFlow(flow)` and forwards credit, pause and resume to it; `fail(exn)`
    is `handle(null, exn, false)`. The peer and `handle` belong to
    subclasses, so the model records, in order, the calls forwarded to each
    peer and the calls made to `handle`. */
module InPipe {
  import opened Wrappers

  /** A call forwarded to the in-flow. */
  datatype FlowCall = CreditCall(credits: int) | PauseCall | ResumeCall

  /** A call of handle(value, exn, ok). */
  datatype HandleCall<T, X> = HandleCall(value: Option<T>, exn: Option<X>, ok: bool)

  class InPipeBase<F, T, X> {
    var inFlow: Option<F>
    /** Every call forwarded to an in-flow, with the in-flow it went to. */
    var flowCalls: seq<(F, FlowCall)>
    var handled: seq<HandleCall<T, X>>

    constructor ()
      ensures inFlow == None && flowCalls == [] && handled == []
    {
      inFlow := None;
      flowCalls := [];
      handled := [];
    }

    /** inFlow(flow): null is rejected and nothing changes. */
    method SetInFlow(flow: Option<F>) returns (o: Outcome<Exception>)
      modifies this`inFlow
      ensures flow == None ==> o == Outcome.Fail(NullPointer) && inFlow == old(inFlow)
      ensures flow != None ==> o == Pass && inFlow == flow
    {
      if flow == None {
        return Outcome.Fail(NullPointer);
      }
      inFlow := flow;
      o := Pass;
    }

    /** inFlow(): the last flow set, or null. */
    function InFlow(): (r: Option<F>)
      reads this
      ensures r == inFlow
    {
      inFlow
    }

    /** Forward one call to the current in-flow; with none, the call throws a
        null-pointer exception and nothing is forwarded. */
    method Forward(call: FlowCall) returns (o: Outcome<Exception>)
      modifies this`flowCalls
      ensures inFlow == None ==> o == Outcome.Fail(NullPointer) && flowCalls == old(flowCalls)
      ensures inFlow != None ==> o == Pass && flowCalls == old(flowCalls) + [(inFlow.value, call)]
    {
      if inFlow == None {
        return Outcome.Fail(NullPointer);
      }
      flowCalls := flowCalls + [(inFlow.value, call)];
      o := Pass;
    }

    /** credit(n): exactly n credits go to the current in-flow. */
    method Credit(newCredits: int) returns (o: Outcome<Exception>)
      modifies this`flowCalls
      ensures inFlow == None ==> o == Outcome.Fail(NullPointer) && flowCalls == old(flowCalls)
      ensures inFlow != None ==> o == Pass && flowCalls == old(flowCalls) + [(inFlow.value, CreditCall(newCredits))]
    {
      o := Forward(CreditCall(newCredits));
    }

    method Pause() returns (o: Outcome<Exception>)
      modifies this`flowCalls
      ensures inFlow == None ==> o == Outcome.Fail(NullPointer) && flowCalls == old(flowCalls)
      ensures inFlow != None ==> o == Pass && flowCalls == old(flowCalls) + [(inFlow.value, PauseCall)]
    {
      o := Forward(PauseCall);
    }

    method Resume() returns (o: Outcome<Exception>)
      modifies this`flowCalls
      ensures inFlow == None ==> o == Outcome.Fail(NullPointer) && flowCalls == old(flowCalls)
      ensures inFlow != None ==> o == Pass && flowCalls == old(flowCalls) + [(inFlow.value, ResumeCall)]
    {
      o := Forward(ResumeCall);
    }

    method Handle(value: Option<T>, exn: Option<X>, ok: bool)
      modifies this`handled
      ensures handled == old(handled) + [HandleCall(value, exn, ok)]
    {
      handled := handled + [HandleCall(value, exn, ok)];
    }

    /** fail(exn) is handle(null, exn, false). */
    method Fail(exn: X)
      modifies this`handled
      ensures handled == old(handled) + [HandleCall(None, Some(exn), false)]
    {
      Handle(None, Some(exn), false);
    }
  }

  /** The credits a sequence of forwarded calls grants to one flow. */
  function CreditsTo<F(==)>(calls: seq<(F, FlowCall)>, flow: F): int
    decreases |calls|
  {
    if calls == [] then 0
    else
      var last := calls[|calls| - 1];
      CreditsTo(calls[..|calls| - 1], flow)
        + (if last.0 == flow && last.1.CreditCall? then last.1.credits else 0)
  }

  /** Forwarding is additive: the credits a flow receives over two runs of
      calls is the sum of each run's credits. */
  lemma {:induction false} CreditsToAppend<F>(a: seq<(F, FlowCall)>, b: seq<(F, FlowCall)>, flow: F)
    ensures CreditsTo(a + b, flow) == CreditsTo(a, flow) + CreditsTo(b, flow)
    decreases |b|
  {
    if b != [] {
      assert (a + b)[..|a + b| - 1] == a + b[..|b| - 1];
      assert (a + b)[|a + b| - 1] == b[|b| - 1];
      CreditsToAppend(a, b[..|b| - 1], flow);
    } else {
      assert a + b == a;
    }
  }
}
