/*
 * The signal-callback table: three slots (sig_cb) and a count of used slots
 * (sigc), filled by php_mrloop_add_signal and scanned by php_mrloop_signal_cb,
 * the handler installed for SIGINT, SIGHUP and SIGTERM. Dispatch runs the
 * first callback registered for the delivered signal and then ends the
 * process, whether or not one was found.
 */
module Signals {
  import opened LoopHeader

  /** One used slot: the signal number and the wrapped callable it runs. */
  datatype SignalCallback = SignalCallback(signal: int, callback: Callable)

  /** The signals whose handler registration installs. */
  datatype OsSignal = SigInt | SigHup | SigTerm

  /** Exit status of the process after dispatch (EXIT_SUCCESS). */
  const ExitSuccess: int := 0

  /** How many leading slots a scan visits before it meets an empty slot. */
  function Scanned(slots: seq<Option<SignalCallback>>): (n: nat)
    ensures n <= |slots|
    ensures forall j :: 0 <= j < n ==> slots[j].Some?
    ensures n < |slots| ==> slots[n].None?
  {
    if slots == [] || slots[0].None? then 0 else 1 + Scanned(slots[1..])
  }

  /**
   * The slot a dispatch of sig runs: the first one, in registration order,
   * bound to sig, provided no empty slot comes before it.
   */
  function FirstMatch(slots: seq<Option<SignalCallback>>, sig: int): (r: Option<nat>)
    ensures r.Some? ==> r.value < Scanned(slots) && slots[r.value].value.signal == sig
    ensures r.Some? ==> forall j :: 0 <= j < r.value ==> slots[j].value.signal != sig
    ensures r.None? ==> forall j :: 0 <= j < Scanned(slots) ==> slots[j].value.signal != sig
  {
    if slots == [] || slots[0].None? then None
    else if slots[0].value.signal == sig then Some(0)
    else
      match FirstMatch(slots[1..], sig)
      case None => None
      case Some(i) => Some(i + 1)
  }

  /** A slot registered later for an already-registered signal is never run. */
  lemma LaterDuplicateNeverRun(slots: seq<Option<SignalCallback>>, i: nat, j: nat, sig: int)
    requires i < j < |slots|
    requires slots[i].Some? && slots[i].value.signal == sig
    ensures FirstMatch(slots, sig) != Some(j)
  {
  }

  /** A table whose slots are all used is scanned in full. */
  lemma {:induction false} FullTableScanned(slots: seq<Option<SignalCallback>>)
    requires forall j :: 0 <= j < |slots| ==> slots[j].Some?
    ensures Scanned(slots) == |slots|
  {
    if slots != [] {
      FullTableScanned(slots[1..]);
    }
  }

  /**
   * Registering one more callback leaves every signal that already had one
   * dispatched as before; a signal that had none is now dispatched to the
   * new slot when the new slot is bound to it.
   */
  lemma {:induction false} FirstMatchAppend(slots: seq<Option<SignalCallback>>, e: SignalCallback, sig: int)
    requires forall j :: 0 <= j < |slots| ==> slots[j].Some?
    ensures FirstMatch(slots + [Some(e)], sig) ==
      if FirstMatch(slots, sig).Some? then FirstMatch(slots, sig)
      else if e.signal == sig then Some(|slots|)
      else None
  {
    if slots != [] {
      assert (slots + [Some(e)])[1..] == slots[1..] + [Some(e)];
      FirstMatchAppend(slots[1..], e, sig);
    }
  }

  class SignalTable {
    /** sig_cb: the slots, None where no callback was stored. */
    var sigCb: array<Option<SignalCallback>>
    /** sigc: how many slots registration has used. */
    var sigc: nat
    /** The signals whose handler is php_mrloop_signal_cb. */
    var installed: set<OsSignal>

    ghost predicate Valid()
      reads this, sigCb
    {
      && sigCb.Length == SignalSlots
      && sigc <= SignalSlots
      && forall i :: 0 <= i < sigc ==> sigCb[i].Some?
    }

    /** The used slots, in registration order. */
    function Registered(): (slots: seq<Option<SignalCallback>>)
      reads this, sigCb
      requires Valid()
      ensures |slots| == sigc
      ensures Scanned(slots) == sigc
    {
      FullTableScanned(sigCb[..sigc]);
      sigCb[..sigc]
    }

    /** The module globals as zero-initialised: every slot empty, no count. */
    constructor ()
      ensures Valid() && fresh(sigCb)
      ensures sigc == 0 && sigCb[..] == [None, None, None] && installed == {}
    {
      var slots := new Option<SignalCallback>[SignalSlots](_ => None);
      assert slots[..] == [None, None, None];
      sigCb := slots;
      sigc := 0;
      installed := {};
    }

    /**
     * php_mrloop_add_signal: store the wrapped callable, tagged with the
     * signal number, in the next slot and count it; install the handler.
     * The source does not check for a full table, so a fourth registration
     * would write past it; here that is excluded by the precondition.
     */
    method AddSignal(signo: ZendLong, cb: Callable)
      requires Valid() && sigc < SignalSlots
      modifies this, sigCb
      ensures Valid() && sigCb == old(sigCb)
      ensures sigc == old(sigc) + 1
      ensures sigCb[..] == old(sigCb[..])[old(sigc) := Some(SignalCallback(ToCInt(signo), WrapCallable(cb)))]
      ensures Registered() == old(Registered()) + [Some(SignalCallback(ToCInt(signo), WrapCallable(cb)))]
      ensures installed == {SigInt, SigHup, SigTerm}
    {
      sigc := sigc + 1;
      var next := sigc - 1;
      sigCb[next] := Some(SignalCallback(ToCInt(signo), WrapCallable(cb)));
      installed := {SigInt, SigHup, SigTerm};
    }

    /**
     * php_mrloop_signal_cb: scan the used slots in order, stop at an empty
     * one, run the first callback bound to sig (outcome is what that call
     * yields), then exit the process with EXIT_SUCCESS.
     */
    method Dispatch(sig: int, outcome: CallOutcome) returns (invoked: Option<nat>, error: Option<string>, exitStatus: int)
      requires Valid()
      ensures invoked == FirstMatch(sigCb[..sigc], sig)
      ensures invoked.Some? ==> sigCb[invoked.value] == Some(SignalCallback(sig, sigCb[invoked.value].value.callback))
      ensures error == if invoked.Some? && outcome.CallFailed? then Some(CallbackErrorMessage) else None
      ensures exitStatus == ExitSuccess
    {
      ghost var slots := sigCb[..sigc];
      invoked, error := None, None;
      var idx := 0;
      while idx < sigc
        invariant 0 <= idx <= sigc
        invariant forall j :: 0 <= j < idx ==> slots[j].Some? && slots[j].value.signal != sig
        invariant invoked.None? && error.None?
      {
        if sigCb[idx].None? {
          break;
        }
        var cb := sigCb[idx].value;
        if cb.signal == sig {
          invoked := Some(idx);
          if outcome.CallFailed? {
            error := Some(CallbackErrorMessage);
          }
          break;
        }
        idx := idx + 1;
      }
      exitStatus := ExitSuccess;
    }
  }
}
