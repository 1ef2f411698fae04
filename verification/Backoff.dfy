/** Waiting between reconnects: doubling up to a cap. Times are milliseconds. */
module Backoff {
  const MAX_RECONNECT: nat := 30000
  const INITIAL_RECONNECT: nat := 500

  function Pow2(k: nat): (p: nat)
    ensures p > k
  {
    if k == 0 then 1 else 2 * Pow2(k - 1)
  }

  lemma Pow2Monotone(j: nat, k: nat)
    requires j <= k
    ensures Pow2(j) <= Pow2(k)
  {
    if j < k { Pow2Monotone(j, k - 1); }
  }

  function NextBackoff(cur: nat): nat {
    var n := cur * 2;
    if n > MAX_RECONNECT then MAX_RECONNECT else n
  }

  /** The delay after `k` failed dials. */
  function ReconnectDelay(k: nat): nat {
    if k == 0 then INITIAL_RECONNECT else NextBackoff(ReconnectDelay(k - 1))
  }

  function Min(a: int, b: int): int {
    if a < b then a else b
  }

  /** Capping at every step is capping once: min(500 ms * 2^k, 30 s) for every k. */
  lemma {:induction false} ReconnectDelayClosedForm(k: nat)
    ensures ReconnectDelay(k) == Min(INITIAL_RECONNECT * Pow2(k), MAX_RECONNECT)
  {
    if k > 0 {
      ReconnectDelayClosedForm(k - 1);
    }
  }

  /** The cap is reached at the sixth failed dial and kept from then on. */
  lemma ReconnectDelayIsCapped(k: nat)
    ensures ReconnectDelay(k) == MAX_RECONNECT <==> k >= 6
  {
    ReconnectDelayClosedForm(k);
    assert Pow2(6) == 64 && Pow2(5) == 32;
    if k >= 6 { Pow2Monotone(6, k); } else { Pow2Monotone(k, 5); }
  }

  /** What happens around one dial: a stop noticed before it, whether it connects,
      and a stop during the wait that follows. */
  datatype Dial = Dial(stopped: bool, connects: bool, stoppedWaiting: bool)

  /** Neither a stop nor a connection ends the loop at this dial. */
  predicate GoesOn(d: Dial) {
    !d.stopped && !d.connects && !d.stoppedWaiting
  }

  /** The reconnect loop: dial until it connects or the process is told to stop,
      before a dial or in a wait. Only full waits are listed. */
  method Reconnect(dials: seq<Dial>) returns (connected: bool, waited: seq<nat>)
    ensures |waited| <= |dials| && forall k :: 0 <= k < |waited| ==> GoesOn(dials[k])
    ensures forall k :: 0 <= k < |waited| ==> waited[k] == Min(INITIAL_RECONNECT * Pow2(k), MAX_RECONNECT)
    ensures |waited| < |dials| ==> !GoesOn(dials[|waited|])
    ensures connected <==> |waited| < |dials| && !dials[|waited|].stopped && dials[|waited|].connects
  {
    var backoff := INITIAL_RECONNECT;
    waited := [];
    while |waited| < |dials|
      invariant |waited| <= |dials| && backoff == ReconnectDelay(|waited|)
      invariant forall k :: 0 <= k < |waited| ==> waited[k] == Min(INITIAL_RECONNECT * Pow2(k), MAX_RECONNECT)
      invariant forall k :: 0 <= k < |waited| ==> GoesOn(dials[k])
      decreases |dials| - |waited|
    {
      if dials[|waited|].stopped { return false, waited; }
      if dials[|waited|].connects { return true, waited; }
      if dials[|waited|].stoppedWaiting { return false, waited; }
      ReconnectDelayClosedForm(|waited|);
      waited := waited + [backoff];
      backoff := NextBackoff(backoff);
    }
    connected := false;
  }
}
