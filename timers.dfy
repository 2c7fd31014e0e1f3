/*
 * php_mrloop_timer_cb: what the binding tells the engine after a timer's
 * user callback has run. The engine re-arms the timer when the binding
 * returns 1 and drops it when the binding returns 0. The PHP call itself is
 * an input: it failed, or it returned a value.
 */
module Timers {
  import opened LoopHeader

  /**
   * The binding's reaction to one firing: the value returned to the engine,
   * whether the owning loop is stopped, the exception raised, and whether the
   * callback record is released.
   */
  datatype TimerDecision = TimerDecision(
    rearm: int,
    stopsLoop: bool,
    error: Option<string>,
    releasesCallback: bool)

  /** A periodic callback asks for cancellation by returning the integer 0. */
  predicate CancelsPeriodic(v: PhpValue)
  {
    v.Long? && v.n == 0
  }

  /**
   * The timer callback as written: the callback record is released on every
   * path, including the one that asks the engine to fire the timer again.
   */
  function TimerCallbackAsWritten(kind: TimerKind, outcome: CallOutcome): (d: TimerDecision)
    ensures d.releasesCallback
    ensures d.rearm == TimerCallbackResult(kind, outcome).rearm
  {
    var decided := TimerCallbackResult(kind, outcome);
    decided.(releasesCallback := true)
  }

  /**
   * Every periodic timer whose callback succeeds without returning 0 is
   * re-armed with its record already released.
   */
  lemma PeriodicRearmedAfterRelease(v: PhpValue)
    requires !CancelsPeriodic(v)
    ensures var d := TimerCallbackAsWritten(Periodic, Returned(v));
            d.rearm == 1 && d.releasesCallback
  {
  }

  /**
   * The timer callback, with the record released exactly when the engine
   * will not fire the timer again.
   */
  function TimerCallbackResult(kind: TimerKind, outcome: CallOutcome): (d: TimerDecision)
    ensures d.rearm == 0 || d.rearm == 1
    ensures d.rearm == 1 <==> kind == Periodic && outcome.Returned? && !CancelsPeriodic(outcome.value)
    ensures d.stopsLoop <==> outcome.CallFailed?
    ensures d.error == if outcome.CallFailed? then Some(CallbackErrorMessage) else None
    ensures d.releasesCallback <==> d.rearm == 0
  {
    var type_ := Code(kind);
    if outcome.CallFailed? then
      TimerDecision(0, true, Some(CallbackErrorMessage), true)
    else if type_ == PeriodicTimerCode && CancelsPeriodic(outcome.value) then
      TimerDecision(0, false, None, true)
    else
      var rearm := if type_ == TimerCode || type_ == FutureTickCode then 0 else 1;
      TimerDecision(rearm, false, None, rearm == 0)
  }

  /** A failed callback never leaves its timer scheduled, whatever its kind. */
  lemma NoRearmAfterFailure(kind: TimerKind)
    ensures TimerCallbackResult(kind, CallFailed).rearm == 0
    ensures TimerCallbackResult(kind, CallFailed).stopsLoop
  {
  }

  /**
   * How many times a timer's callback runs when successive firings have the
   * given outcomes: it runs once per firing until the binding declines to
   * re-arm it.
   */
  function Firings(kind: TimerKind, outcomes: seq<CallOutcome>): (n: nat)
    ensures n <= |outcomes|
    ensures |outcomes| > 0 ==> n > 0
  {
    if outcomes == [] then 0
    else if TimerCallbackResult(kind, outcomes[0]).rearm == 1 then 1 + Firings(kind, outcomes[1..])
    else 1
  }

  /** One-shot timers and future ticks run exactly once. */
  lemma FiresOnce(kind: TimerKind, outcomes: seq<CallOutcome>)
    requires kind != Periodic && |outcomes| > 0
    ensures Firings(kind, outcomes) == 1
  {
  }

  /**
   * A periodic timer keeps running while its callback succeeds without
   * returning 0, and the run ends at the first failure or 0: every firing
   * before the last re-arms, and when firings remain unused the last one
   * cancelled the timer.
   */
  lemma {:induction false} PeriodicRunsUntilCancelled(outcomes: seq<CallOutcome>)
    ensures var n := Firings(Periodic, outcomes);
      && (forall i :: 0 <= i < n - 1 ==> TimerCallbackResult(Periodic, outcomes[i]).rearm == 1)
      && (n < |outcomes| ==> TimerCallbackResult(Periodic, outcomes[n - 1]).rearm == 0)
  {
    if outcomes != [] && TimerCallbackResult(Periodic, outcomes[0]).rearm == 1 {
      PeriodicRunsUntilCancelled(outcomes[1..]);
      var n := Firings(Periodic, outcomes);
      forall i | 0 <= i < n - 1
        ensures TimerCallbackResult(Periodic, outcomes[i]).rearm == 1
      {
        if i > 0 {
          assert outcomes[i] == outcomes[1..][i - 1];
        }
      }
    }
  }

  /** Once a callback fails, its timer never fires again and the loop is stopped. */
  lemma {:induction false} FailureIsLastFiring(kind: TimerKind, outcomes: seq<CallOutcome>, i: nat)
    requires i < Firings(kind, outcomes) && outcomes[i].CallFailed?
    ensures Firings(kind, outcomes) == i + 1
    ensures TimerCallbackResult(kind, outcomes[i]).stopsLoop
  {
    if i > 0 {
      assert outcomes[i] == outcomes[1..][i - 1];
      FailureIsLastFiring(kind, outcomes[1..], i - 1);
    }
  }

  /**
   * The callback record is released at most once over a timer's life: only
   * on its last firing.
   */
  lemma {:induction false} ReleasedOnlyAtLastFiring(kind: TimerKind, outcomes: seq<CallOutcome>, i: nat)
    requires i < Firings(kind, outcomes) && TimerCallbackResult(kind, outcomes[i]).releasesCallback
    ensures i == Firings(kind, outcomes) - 1
  {
    if i > 0 {
      assert outcomes[i] == outcomes[1..][i - 1];
      ReleasedOnlyAtLastFiring(kind, outcomes[1..], i - 1);
    }
  }
}
