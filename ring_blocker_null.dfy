/** The never-blocking ring blocker. It has no state: sequences are always
    0, waits never wait, and every notification is a no-op. The no-op
    operations are modelled over the caller's environment `env`, which they
    return unchanged. */
module RingBlockerNull {
  import WorkerDeliver

  function NextOfferSequence(): (r: int)
    ensures r == 0
  {
    0
  }

  function NextPollSequence(): (r: int)
    ensures r == 0
  {
    0
  }

  /** offerWait never waits, whatever the sequence and timeout. */
  function OfferWait(sequence: int, timeout: int): (r: bool)
    ensures !r
  {
    false
  }

  /** pollWait never waits, whatever the sequence and timeout. */
  function PollWait(sequence: int, timeout: int): (r: bool)
    ensures !r
  {
    false
  }

  function IsPollWait(): (r: bool)
    ensures !r
  {
    false
  }

  /** wake reports success. */
  function Wake(): (r: bool)
    ensures r
  {
    true
  }

  /** wakeAll is wake with its result dropped. */
  function WakeAll<E>(env: E): (r: E)
    ensures r == env
  {
    var _ := Wake();
    env
  }

  function OfferWake<E>(env: E): (r: E)
    ensures r == env
  {
    env
  }

  function PollWake<E>(env: E): (r: E)
    ensures r == env
  {
    env
  }

  function OnActive<E>(env: E): (r: E)
    ensures r == env
  {
    env
  }

  function OnInit<E>(env: E): (r: E)
    ensures r == env
  {
    env
  }

  function Shutdown<E>(mode: WorkerDeliver.ShutdownMode, env: E): (r: E)
    ensures r == env
  {
    env
  }

  /** A producer that waits on this blocker until its offer sequence is
      reached never waits: each of any number of offerWait calls returns at
      once, so a retry loop around it never blocks. */
  function WaitsTaken(timeouts: seq<int>): (n: nat)
    ensures n <= |timeouts|
    decreases |timeouts|
  {
    if timeouts == [] then 0
    else (if OfferWait(NextOfferSequence(), timeouts[0]) then 1 else 0) + WaitsTaken(timeouts[1..])
  }

  lemma {:induction false} NeverWaits(timeouts: seq<int>)
    ensures WaitsTaken(timeouts) == 0
    decreases |timeouts|
  {
    if timeouts != [] {
      NeverWaits(timeouts[1..]);
    }
  }
}
