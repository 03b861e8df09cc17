/** The defaults of the Outbox interface. `offer` and `flush` are abstract
    there; the model stands for an outbox whose flush sends every pending
    message in order and leaves nothing pending. */
module Outbox {
  import opened Wrappers

  class Outbox<M, C> {
    /** Messages offered and not yet flushed, oldest first. */
    var pending: seq<M>
    /** Messages handed on by flush, in order. */
    var sent: seq<M>

    constructor ()
      ensures pending == [] && sent == []
    {
      pending := [];
      sent := [];
    }

    /** The default isEmpty answers true without looking at the outbox. */
    method IsEmpty() returns (r: bool)
      ensures r
    {
      r := true;
    }

    method Offer(msg: M)
      modifies this`pending
      ensures pending == old(pending) + [msg]
    {
      pending := pending + [msg];
    }

    method Flush()
      modifies this`pending, this`sent
      ensures sent == old(sent) + old(pending) && pending == []
    {
      sent := sent + pending;
      pending := [];
    }

    /** The default flushAndExecuteLast flushes and answers true; with a
        flush that empties the outbox this meets the documented contract
        that false means messages are left. */
    method FlushAndExecuteLast() returns (r: bool)
      modifies this`pending, this`sent
      ensures r
      ensures sent == old(sent) + old(pending) && pending == []
      ensures !r <==> pending != []
    {
      Flush();
      r := true;
    }

    /** The default context is null. */
    method Context() returns (r: Option<C>)
      ensures r == None
    {
      r := None;
    }

    /** The default getAndSetContext answers null and stores nothing. */
    method GetAndSetContext(context: Option<C>) returns (r: Option<C>)
      ensures r == None
    {
      r := None;
    }
  }
}
