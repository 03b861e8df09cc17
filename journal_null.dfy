/** The no-op journal. It has no state: writes, flushes and save ends do
    nothing, a save may always start and is never requested, and replay
    completes at once. The no-op operations are modelled over the caller's
    environment `env`, which they return unchanged; a Result<Boolean>
    continuation is the sequence of values it has been completed with. */
module JournalNull {

  /** A journalled call: the service, the method name and its arguments. */
  datatype Call<A> = Call(stub: string, methodName: string, args: seq<A>)

  function WriteSend<E, A>(call: Call<A>, env: E): (r: E)
    ensures r == env
  {
    env
  }

  function WriteQuery<E, A>(call: Call<A>, env: E): (r: E)
    ensures r == env
  {
    env
  }

  function Inbox<E>(env: E): (r: E)
    ensures r == env
  {
    env
  }

  function Flush<E>(env: E): (r: E)
    ensures r == env
  {
    env
  }

  function IsSaveRequest(): (r: bool)
    ensures !r
  {
    false
  }

  function SaveStart(): (r: bool)
    ensures r
  {
    true
  }

  function SaveEnd<E>(isComplete: bool, env: E): (r: E)
    ensures r == env
  {
    env
  }

  function Delay<E>(journalDelay: int, env: E): (r: E)
    ensures r == env
  {
    env
  }

  function SequenceReplay(): (r: int)
    ensures r == 0
  {
    0
  }

  datatype Replay<M> = Replay(cont: seq<bool>, queue: seq<M>)

  /** replayStart: complete the continuation with true, once, and leave the
      queue as it is. */
  function ReplayStart<M>(cont: seq<bool>, queue: seq<M>): (r: Replay<M>)
    ensures |r.cont| == |cont| + 1 && r.cont[..|cont|] == cont && r.cont[|cont|]
    ensures r.queue == queue
  {
    Replay(cont + [true], queue)
  }

  /** Replaying through the null journal any number of times completes the
      continuation once per replay, always with true. */
  function ReplayAll<M>(n: nat, cont: seq<bool>, queue: seq<M>): Replay<M>
    decreases n
  {
    if n == 0 then Replay(cont, queue)
    else
      var r := ReplayStart(cont, queue);
      ReplayAll(n - 1, r.cont, r.queue)
  }

  lemma {:induction false} ReplayAllCompletesTrue<M>(n: nat, cont: seq<bool>, queue: seq<M>)
    ensures var r := ReplayAll(n, cont, queue);
      |r.cont| == |cont| + n && r.cont[..|cont|] == cont
      && (forall i :: |cont| <= i < |r.cont| ==> r.cont[i]) && r.queue == queue
    decreases n
  {
    if n > 0 {
      ReplayAllCompletesTrue(n - 1, cont + [true], queue);
      var r := ReplayAll(n, cont, queue);
      assert r.cont[..|cont| + 1][..|cont|] == r.cont[..|cont|];
    }
  }
}
