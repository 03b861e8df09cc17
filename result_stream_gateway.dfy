/** The stream result of a gateway query. Values, the completion and a
    failure travel to the remote caller in result messages: a message that
    already exists may take one more item, otherwise a new message is
    created, filled and offered to the outbox. Whether the current message
    takes an item is decided by the message, so it is a parameter here
    (`taken`). `ok` and `fail` end the stream by cancelling it; cancelling
    tells the gateway reply once. */
module ResultStreamGateway {
  import opened Wrappers
  import JavaLang

  /** A result message: the values it carries, its completion sequence, its
      queued failure, and the timeouts it was offered with. */
  datatype GatewayMessage<V, X> = GatewayMessage(values: seq<V>, complete: Option<int>,
                                                 failure: Option<X>, offers: seq<int>)

  class ResultStreamGateway<V, X> {
    const qid: int
    /** The messages created so far, oldest first; the last is the current one. */
    var messages: seq<GatewayMessage<V, X>>
    /** Messages created for values; a Java int. */
    var sequence: int
    var cancelled: bool
    /** The qids passed to gatewayReply.streamCancel, in order. */
    var streamCancels: seq<int>

    /** Every message was offered exactly once, with timeout 0. */
    ghost predicate Valid()
      reads this
    {
      JavaLang.IsInt(sequence)
      && forall i :: 0 <= i < |messages| ==> messages[i].offers == [0]
    }

    constructor (qid: int)
      ensures Valid()
      ensures this.qid == qid && messages == [] && sequence == 0
      ensures !cancelled && streamCancels == []
    {
      this.qid := qid;
      messages := [];
      sequence := 0;
      cancelled := false;
      streamCancels := [];
    }

    /** accept(value): the current message takes the value if it can;
        otherwise a new message carrying it is created, the sequence is
        advanced and the message is offered. */
    method Accept(value: V, taken: bool)
      requires Valid()
      modifies this`messages, this`sequence
      ensures Valid()
      ensures old(messages) == [] || !taken ==>
        messages == old(messages) + [GatewayMessage([value], None, None, [0])]
        && sequence == JavaLang.Wrap32(old(sequence) + 1)
      ensures old(messages) != [] && taken ==>
        sequence == old(sequence)
        && messages == old(messages)[..|old(messages)| - 1]
                       + [Last(old(messages)).(values := Last(old(messages)).values + [value])]
    {
      if messages == [] || !taken {
        messages := messages + [GatewayMessage([value], None, None, [0])];
        sequence := JavaLang.Wrap32(sequence + 1);
      } else {
        var m := messages[|messages| - 1];
        messages := messages[..|messages| - 1] + [m.(values := m.values + [value])];
      }
    }

    /** ok(): complete with the current sequence, through the current message
        if it can take it, then cancel. */
    method Ok(taken: bool)
      requires Valid()
      modifies this`messages, this`cancelled, this`streamCancels
      ensures Valid()
      ensures cancelled
      ensures streamCancels == old(streamCancels) + (if old(cancelled) then [] else [qid])
      ensures old(messages) == [] || !taken ==>
        messages == old(messages) + [GatewayMessage([], Some(sequence), None, [0])]
      ensures old(messages) != [] && taken ==>
        messages == old(messages)[..|old(messages)| - 1] + [Last(old(messages)).(complete := Some(sequence))]
    {
      if messages == [] || !taken {
        messages := messages + [GatewayMessage([], Some(sequence), None, [0])];
      } else {
        var m := messages[|messages| - 1];
        messages := messages[..|messages| - 1] + [m.(complete := Some(sequence))];
      }
      Cancel();
    }

    /** fail(exn): queue the failure, through the current message if it can
        take it, then cancel. */
    method Fail(exn: X, taken: bool)
      requires Valid()
      modifies this`messages, this`cancelled, this`streamCancels
      ensures Valid()
      ensures cancelled
      ensures streamCancels == old(streamCancels) + (if old(cancelled) then [] else [qid])
      ensures old(messages) == [] || !taken ==>
        messages == old(messages) + [GatewayMessage([], None, Some(exn), [0])]
      ensures old(messages) != [] && taken ==>
        messages == old(messages)[..|old(messages)| - 1] + [Last(old(messages)).(failure := Some(exn))]
    {
      if messages == [] || !taken {
        messages := messages + [GatewayMessage([], None, Some(exn), [0])];
      } else {
        var m := messages[|messages| - 1];
        messages := messages[..|messages| - 1] + [m.(failure := Some(exn))];
      }
      Cancel();
    }

    /** handle(value, exn, ok): ok wins, then a failure, else a value. */
    method Handle(value: V, exn: Option<X>, ok: bool, taken: bool)
      requires Valid()
      modifies this`messages, this`sequence, this`cancelled, this`streamCancels
      ensures Valid()
      ensures messages != []
      ensures ok ==> sequence == old(sequence)
      ensures ok || exn != None ==>
        cancelled && streamCancels == old(streamCancels) + (if old(cancelled) then [] else [qid])
      ensures ok && (old(messages) == [] || !taken) ==>
        messages == old(messages) + [GatewayMessage([], Some(sequence), None, [0])]
      ensures ok && old(messages) != [] && taken ==>
        messages == old(messages)[..|old(messages)| - 1] + [Last(old(messages)).(complete := Some(sequence))]
      ensures !ok && exn != None ==> sequence == old(sequence)
      ensures !ok && exn != None && (old(messages) == [] || !taken) ==>
        messages == old(messages) + [GatewayMessage([], None, Some(exn.value), [0])]
      ensures !ok && exn != None && old(messages) != [] && taken ==>
        messages == old(messages)[..|old(messages)| - 1] + [Last(old(messages)).(failure := Some(exn.value))]
      ensures !ok && exn == None ==> cancelled == old(cancelled) && streamCancels == old(streamCancels)
      ensures !ok && exn == None && (old(messages) == [] || !taken) ==>
        messages == old(messages) + [GatewayMessage([value], None, None, [0])]
        && sequence == JavaLang.Wrap32(old(sequence) + 1)
      ensures !ok && exn == None && old(messages) != [] && taken ==>
        sequence == old(sequence)
        && messages == old(messages)[..|old(messages)| - 1]
                       + [Last(old(messages)).(values := Last(old(messages)).values + [value])]
    {
      if ok {
        Ok(taken);
      } else if exn != None {
        Fail(exn.value, taken);
      } else {
        Accept(value, taken);
      }
    }

    function IsCancelled(): (r: bool)
      reads this
      ensures r == cancelled
    {
      cancelled
    }

    /** cancel(): only the first call sets the flag and tells the reply. */
    method Cancel()
      modifies this`cancelled, this`streamCancels
      ensures cancelled
      ensures streamCancels == old(streamCancels) + (if old(cancelled) then [] else [qid])
    {
      if !cancelled {
        cancelled := true;
        streamCancels := streamCancels + [qid];
      }
    }
  }

  function Last<T>(s: seq<T>): T
    requires s != []
  {
    s[|s| - 1]
  }
}
