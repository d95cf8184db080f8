/**
 * Suspend/resume coordination of the daemon.
 *
 * The producer subscribes to logind's `PrepareForSleep` signal and republishes
 * every boolean on a broadcast channel; it tries at most three times. The
 * consumer is the wait primitive hardware-control loops call: after a `true`
 * (going to sleep) it blocks until the next `false` (woken up).
 *
 * Everything asynchronous is plain data here: what the system bus does in one
 * attempt is an `Attempt` value, the ten-second sleep is a counter, and what a
 * broadcast receiver yields is a given sequence of `Received` values.
 */
module Suspend {

  /** Attempts the producer makes before it stops for good. */
  const MaxAttempts: nat := 3

  /** Seconds the producer sleeps after an attempt that failed. */
  const RetryDelaySecs: nat := 10

  // ---------------------------------------------------------------------------
  // Producer
  // ---------------------------------------------------------------------------

  /** One message of the `PrepareForSleep` signal stream. */
  datatype Signal =
    | PrepareForSleep(start: bool)  // its argument decoded to `start`
    | Undecodable                   // reading its arguments failed

  /** What the system bus does during one attempt. */
  datatype Attempt =
    | SetupFailed                     // connection, proxy or subscription failed
    | Subscribed(signals: seq<Signal>) // the stream yields these, then ends

  /** The `Result<(), zbus::Error>` of one attempt. */
  datatype AttemptResult = Finished | Failed

  /**
   * The values a subscribed attempt hands to the sender from message `from`
   * on: the argument of every message, in arrival order, up to the first
   * message whose arguments do not decode.
   */
  function Forwarded(signals: seq<Signal>, from: nat): (vs: seq<bool>)
    requires from <= |signals|
    ensures |vs| <= |signals| - from
    decreases |signals| - from
  {
    if from == |signals| then []
    else match signals[from]
      case Undecodable => []
      case PrepareForSleep(v) => [v] + Forwarded(signals, from + 1)
  }

  /**
   * What `Forwarded` keeps: its `i`-th value is the argument of message
   * `from + i`, and forwarding stops early only at an undecodable message.
   */
  lemma {:induction false} ForwardedInOrder(signals: seq<Signal>, from: nat)
    requires from <= |signals|
    ensures forall i :: 0 <= i < |Forwarded(signals, from)| ==>
      signals[from + i] == PrepareForSleep(Forwarded(signals, from)[i])
    ensures from + |Forwarded(signals, from)| < |signals| ==>
      signals[from + |Forwarded(signals, from)|] == Undecodable
    decreases |signals| - from
  {
    if from < |signals| && signals[from].PrepareForSleep? {
      ForwardedInOrder(signals, from + 1);
    }
  }

  /** The values an attempt hands to the sender; a failed setup sends nothing. */
  function AttemptForwarded(a: Attempt): seq<bool>
  {
    match a
    case SetupFailed => []
    case Subscribed(signals) => Forwarded(signals, 0)
  }

  /** What `try_wait_for_suspend` returns for an attempt. */
  function ResultOf(a: Attempt): AttemptResult
  {
    match a
    case SetupFailed => Failed
    case Subscribed(signals) => if Undecodable in signals then Failed else Finished
  }

  /** An attempt succeeds exactly when it subscribed and forwarded every message. */
  lemma FinishedIffEverythingForwarded(a: Attempt)
    ensures ResultOf(a) == Finished <==> a.Subscribed? && |AttemptForwarded(a)| == |a.signals|
  {
    if a.Subscribed? {
      ForwardedInOrder(a.signals, 0);
      var vs := Forwarded(a.signals, 0);
      if |vs| < |a.signals| {
        assert a.signals[|vs|] == Undecodable;
      } else {
        forall i | 0 <= i < |a.signals| ensures a.signals[i] != Undecodable {
          assert a.signals[i] == PrepareForSleep(vs[i]);
        }
      }
    }
  }

  /** Number of failed attempts among the first `n`. */
  function FailedCount(attempts: seq<Attempt>, n: nat): (k: nat)
    requires n <= |attempts|
    ensures k <= n
  {
    if n == 0 then 0
    else FailedCount(attempts, n - 1) + (if ResultOf(attempts[n - 1]) == Failed then 1 else 0)
  }

  /** No sleep happens exactly when each of the first `n` attempts finishes without error. */
  lemma {:induction false} NoFailuresIffAllFinished(attempts: seq<Attempt>, n: nat)
    requires n <= |attempts|
    ensures FailedCount(attempts, n) == 0 <==> forall i :: 0 <= i < n ==> ResultOf(attempts[i]) == Finished
  {
    if n > 0 {
      NoFailuresIffAllFinished(attempts, n - 1);
    }
  }

  /** The values the first `n` attempts hand to the sender, attempt after attempt. */
  function ForwardedAll(attempts: seq<Attempt>, n: nat): seq<bool>
    requires n <= |attempts|
  {
    if n == 0 then [] else ForwardedAll(attempts, n - 1) + AttemptForwarded(attempts[n - 1])
  }

  /** What subscribers get of the values `vs` sent while `receivers` subscribe. */
  function Reached(receivers: nat, vs: seq<bool>): seq<bool>
  {
    if receivers > 0 then vs else []
  }

  /**
   * A rewriting step for the producer's loop proof, not a property of the
   * model: appending two batches regroups, on the `sent` and the `delivered`
   * side. The loop calls it explicitly because the verifier's search for these
   * sequence equalities is slow and unstable on its own.
   */
  lemma SendInTurn(start: seq<bool>, receivers: nat, vs: seq<bool>, ws: seq<bool>)
    ensures start + vs + ws == start + (vs + ws)
    ensures start + Reached(receivers, vs) + Reached(receivers, ws) ==
            start + Reached(receivers, vs + ws)
  {
  }

  /**
   * The sending half of the broadcast channel. `sent` records the argument of
   * every `send` call; `delivered` is what subscribers get, which is nothing
   * while there are no subscribers (then `send` reports an error).
   */
  class Sender {
    var receivers: nat
    ghost var sent: seq<bool>
    var delivered: seq<bool>

    constructor (receivers: nat)
      ensures this.receivers == receivers && sent == [] && delivered == []
    {
      this.receivers := receivers;
      sent := [];
      delivered := [];
    }

    /** `broadcast::Sender::send`: fails exactly when nobody subscribes. */
    method Send(v: bool) returns (ok: bool)
      modifies this
      ensures ok <==> receivers > 0
      ensures receivers == old(receivers)
      ensures sent == old(sent) + [v]
      ensures delivered == old(delivered) + (if ok then [v] else [])
    {
      ok := receivers > 0;
      sent := sent + [v];
      if ok {
        delivered := delivered + [v];
      }
    }
  }

  /**
   * `try_wait_for_suspend`: one attempt. Every decoded value goes to the sender
   * unchanged and in order, whether or not `send` succeeds; a failed setup or an
   * undecodable message ends the attempt with an error.
   */
  method TryWaitForSuspend(sender: Sender, a: Attempt) returns (r: AttemptResult)
    modifies sender
    ensures r == ResultOf(a)
    ensures sender.receivers == old(sender.receivers)
    ensures sender.sent == old(sender.sent) + AttemptForwarded(a)
    ensures sender.delivered == old(sender.delivered) + Reached(sender.receivers, AttemptForwarded(a))
  {
    if a.SetupFailed? {
      return Failed;
    }
    var signals := a.signals;
    ghost var all := Forwarded(signals, 0);
    ghost var sent0, delivered0 := sender.sent, sender.delivered;
    var i := 0;
    while i < |signals|
      invariant 0 <= i <= |signals|
      invariant forall j :: 0 <= j < i ==> signals[j] != Undecodable
      invariant sender.receivers == old(sender.receivers)
      invariant sent0 + all == sender.sent + Forwarded(signals, i)
      invariant sender.receivers > 0 ==> delivered0 + all == sender.delivered + Forwarded(signals, i)
      invariant sender.receivers == 0 ==> sender.delivered == delivered0
    {
      match signals[i] {
        case Undecodable =>
          return Failed;
        case PrepareForSleep(v) =>
          var _ := sender.Send(v);
      }
      i := i + 1;
    }
    r := Finished;
  }

  /**
   * `wait_for_suspend`: exactly three attempts whatever they return, a sleep
   * after each failed one only, then the producer stops. Attempts after the
   * third are never made.
   */
  method WaitForSuspend(sender: Sender, attempts: seq<Attempt>) returns (tries: nat, sleeps: nat, delay: nat)
    requires |attempts| >= MaxAttempts
    modifies sender
    ensures tries == MaxAttempts
    ensures sleeps == FailedCount(attempts, tries) <= tries
    ensures delay == sleeps * RetryDelaySecs
    ensures sender.receivers == old(sender.receivers)
    ensures sender.sent == old(sender.sent) + ForwardedAll(attempts, tries)
    ensures sender.delivered == old(sender.delivered) + Reached(sender.receivers, ForwardedAll(attempts, tries))
  {
    ghost var sent0, delivered0 := sender.sent, sender.delivered;
    ghost var log: seq<bool> := [];
    tries, sleeps, delay := 0, 0, 0;
    while tries < MaxAttempts
      invariant tries <= MaxAttempts
      invariant sleeps == FailedCount(attempts, tries)
      invariant delay == sleeps * RetryDelaySecs
      invariant log == ForwardedAll(attempts, tries)
      invariant sender.receivers == old(sender.receivers)
      invariant sender.sent == sent0 + log
      invariant sender.delivered == delivered0 + Reached(sender.receivers, log)
    {
      ghost var step := AttemptForwarded(attempts[tries]);
      var r := TryWaitForSuspend(sender, attempts[tries]);
      SendInTurn(sent0, sender.receivers, log, step);
      SendInTurn(delivered0, sender.receivers, log, step);
      log := log + step;
      if r == Failed {
        // the ten-second back-off after a failed attempt, the third included
        sleeps := sleeps + 1;
        delay := delay + RetryDelaySecs;
      }
      tries := tries + 1;
    }
  }

  /**
   * When every attempt fails at setup, the producer forwards nothing, sleeps
   * after each of the three attempts and then gives up.
   */
  lemma {:induction false} AllSetupsFailed(attempts: seq<Attempt>, n: nat)
    requires n <= |attempts|
    requires forall i :: 0 <= i < n ==> attempts[i] == SetupFailed
    ensures ForwardedAll(attempts, n) == []
    ensures FailedCount(attempts, n) == n
  {
    if n > 0 {
      AllSetupsFailed(attempts, n - 1);
    }
  }

  // ---------------------------------------------------------------------------
  // Consumer
  // ---------------------------------------------------------------------------

  /** One result of `broadcast::Receiver::recv`. */
  datatype Received =
    | Msg(value: bool)  // Ok(value)
    | Lagged            // Err(RecvError::Lagged)
    | Closed            // Err(RecvError::Closed)

  /**
   * Where a wait ends on a finite input: it returned after consuming
   * `consumed` results, it is parked for good, or it is still blocked.
   */
  datatype Wait = Returned(consumed: nat) | Parked | NeedMoreInput

  /** `k` results from position `from` on are consumed up to the first `Ok(false)`. */
  ghost predicate IsFirstWake(rx: seq<Received>, from: nat, k: nat)
  {
    from < k <= |rx| && rx[k - 1] == Msg(false) &&
    forall j :: from <= j < k - 1 ==> rx[j] != Msg(false)
  }

  /** The outcome of `wait_for_wake_up` on the results from position `from` on. */
  function WakeOutcome(rx: seq<Received>, from: nat): Wait
    requires from <= |rx|
    decreases |rx| - from
  {
    if from == |rx| then NeedMoreInput
    else if rx[from] == Msg(false) then Returned(from + 1)
    else WakeOutcome(rx, from + 1)
  }

  /** The outcome of `process_suspend` on a fresh receiver yielding `rx`. */
  function SuspendOutcome(rx: seq<Received>): Wait
  {
    if rx == [] then NeedMoreInput
    else match rx[0]
      case Msg(going) => if going then WakeOutcome(rx, 1) else Returned(1)
      case _ => Parked
  }

  /**
   * `wait_for_wake_up`: consume results until an `Ok(false)`, skipping
   * `Ok(true)` and receive errors alike.
   */
  method WaitForWakeUp(rx: seq<Received>, from: nat) returns (w: Wait)
    requires from <= |rx|
    ensures w == WakeOutcome(rx, from)
  {
    var next := from;
    while next < |rx|
      invariant from <= next <= |rx|
      invariant WakeOutcome(rx, next) == WakeOutcome(rx, from)
    {
      if rx[next] == Msg(false) {
        return Returned(next + 1);
      }
      next := next + 1;
    }
    w := NeedMoreInput;
  }

  /**
   * `process_suspend`: a first `Ok(false)` returns at once, a first `Ok(true)`
   * waits for the wake-up, and a first receive error parks the caller.
   */
  method ProcessSuspend(rx: seq<Received>) returns (w: Wait)
    ensures w == SuspendOutcome(rx)
  {
    if |rx| == 0 {
      return NeedMoreInput;
    }
    match rx[0]
    case Msg(going) =>
      if going {
        w := WaitForWakeUp(rx, 1);
      } else {
        w := Returned(1);
      }
    case _ =>
      w := Parked;
  }

  /** `wait_for_wake_up` never parks; it returns exactly at the first `Ok(false)`. */
  lemma {:induction false} WakeOutcomeReturnsAt(rx: seq<Received>, from: nat, k: nat)
    requires from <= |rx|
    ensures WakeOutcome(rx, from) != Parked
    ensures WakeOutcome(rx, from) == Returned(k) <==> IsFirstWake(rx, from, k)
    decreases |rx| - from
  {
    if from < |rx| && rx[from] != Msg(false) {
      WakeOutcomeReturnsAt(rx, from + 1, k);
    }
  }

  /** `wait_for_wake_up` stays blocked exactly when no `Ok(false)` comes. */
  lemma {:induction false} WakeOutcomeBlocks(rx: seq<Received>, from: nat)
    requires from <= |rx|
    ensures WakeOutcome(rx, from) == NeedMoreInput <==>
      forall j :: from <= j < |rx| ==> rx[j] != Msg(false)
    decreases |rx| - from
  {
    if from < |rx| && rx[from] != Msg(false) {
      WakeOutcomeBlocks(rx, from + 1);
    }
  }

  /**
   * `process_suspend` returns after `k` results exactly when the first result
   * is `Ok(false)` and `k` is one, or the first is `Ok(true)` and the `k`-th is
   * the first later `Ok(false)`.
   */
  lemma SuspendReturnsAt(rx: seq<Received>, k: nat)
    ensures SuspendOutcome(rx) == Returned(k) <==>
      |rx| > 0 &&
      ((rx[0] == Msg(false) && k == 1) || (rx[0] == Msg(true) && IsFirstWake(rx, 1, k)))
  {
    if |rx| > 0 && rx[0] == Msg(true) {
      WakeOutcomeReturnsAt(rx, 1, k);
    }
  }

  /** `process_suspend` parks exactly when its first receive fails. */
  lemma SuspendParks(rx: seq<Received>)
    ensures SuspendOutcome(rx) == Parked <==> |rx| > 0 && !rx[0].Msg?
  {
    if |rx| > 0 && rx[0] == Msg(true) {
      WakeOutcomeReturnsAt(rx, 1, 0);
    }
  }

  /** Once parked, no later input makes `process_suspend` return. */
  lemma ParkedForever(rx: seq<Received>, later: seq<Received>)
    requires SuspendOutcome(rx) == Parked
    ensures SuspendOutcome(rx + later) == Parked
  {
    SuspendParks(rx);
    SuspendParks(rx + later);
    assert (rx + later)[0] == rx[0];
  }

  /**
   * `process_suspend` reads nothing past the result it returns on: the same
   * outcome follows from the consumed prefix alone and from any continuation.
   */
  lemma ReturnReadsOnlyConsumed(rx: seq<Received>, later: seq<Received>, k: nat)
    requires SuspendOutcome(rx) == Returned(k)
    ensures 0 < k <= |rx|
    ensures SuspendOutcome(rx + later) == Returned(k)
    ensures SuspendOutcome(rx[..k]) == Returned(k)
  {
    SuspendReturnsAt(rx, k);
    var ext, pre := rx + later, rx[..k];
    assert forall j :: 0 <= j < k ==> ext[j] == rx[j] && pre[j] == rx[j];
    SuspendReturnsAt(ext, k);
    SuspendReturnsAt(pre, k);
  }

  /** A blocked `process_suspend` returns on the next `Ok(false)`. */
  lemma BlockedWakesOnFalse(rx: seq<Received>)
    requires SuspendOutcome(rx) == NeedMoreInput
    ensures SuspendOutcome(rx + [Msg(false)]) == Returned(|rx| + 1)
  {
    var ext := rx + [Msg(false)];
    if rx != [] {
      SuspendParks(rx);
      SuspendReturnsAt(rx, 1);
      assert rx[0] == Msg(true);
      WakeOutcomeBlocks(rx, 1);
      assert forall j :: 0 <= j < |rx| ==> ext[j] == rx[j];
      SuspendReturnsAt(ext, |rx| + 1);
    }
  }

  /**
   * Suspended when the channel closes (the producer gave up), the consumer
   * keeps skipping `Closed` and never returns.
   */
  lemma ClosedWhileSuspendedNeverReturns(rx: seq<Received>)
    requires |rx| > 0 && rx[0] == Msg(true)
    requires forall j :: 1 <= j < |rx| ==> rx[j] == Closed
    ensures SuspendOutcome(rx) == NeedMoreInput
  {
    WakeOutcomeBlocks(rx, 1);
  }
}
