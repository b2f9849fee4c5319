/** The lifecycle as an automaton over the event log, and what its accepted logs guarantee. */
module Lifecycle {
  import opened Models
  import opened Kernel

  /** Where a job is: nowhere yet, in a state, or off the lifecycle. */
  datatype Phase = Start | At(state: JobState, provisioned: bool, captured: bool, reaped: bool) | Bad

  function Trans(p: Phase, a: Action): Phase {
    if a == ASubmit then (if p.Start? then At(Queued, false, false, false) else Bad)
    else if !p.At? then Bad
    else
      match a
      case AReserve => if p.state.Pending() then p.(state := Placing, provisioned := false) else Bad
      case AHold => if p.state.Queued? then p.(state := Held) else Bad
      case AUnhold => if p.state.Held? then p.(state := Queued) else Bad
      case AFail => if p.state.Pending() then p.(state := Failed) else Bad
      case ARequeue => if p.state.Running? && p.captured then p.(state := Queued, captured := false, reaped := false)
        else Bad
      case ARollback => if p.state.Placing? then p.(state := Queued) else Bad
      case AProvision => if p.state.Placing? && !p.provisioned then p.(provisioned := true) else Bad
      case AActivate => if p.state.Placing? && p.provisioned then p.(state := Running) else Bad
      case AFinish(ok) => if p.state.Running? then p.(state := if ok then Succeeded else Failed) else Bad
      case AWorkerDead => if p.state.Running? then p else Bad
      case ACancel => if !p.state.Terminal() && !p.state.Placing? then p.(state := Cancelled) else Bad
      case ACancelFailed => p
      case ACapture => if p.state.Running? || p.state.Terminal() then p.(captured := true) else Bad
      case ACaptureSacrificed => if p.state.Running? || p.state.Terminal() then p else Bad
      case AReap => if p.state.Terminal() && p.captured then p.(reaped := true) else Bad
      case AReleaseLost => if p.state.Running? && p.captured then p else Bad
  }

  function PhaseOf(trace: seq<Action>): Phase {
    if trace == [] then Start else Trans(PhaseOf(trace[..|trace| - 1]), trace[|trace| - 1])
  }

  lemma {:induction false} PhaseAppend(trace: seq<Action>, a: Action)
    ensures PhaseOf(trace + [a]) == Trans(PhaseOf(trace), a)
    ensures Provisioned(trace + [a]) == (a == AProvision || (a != AReserve && Provisioned(trace)))
  {
    assert (trace + [a])[..|trace|] == trace;
  }

  /** A cancel was refused since the last reserve. */
  predicate RefusedSince(trace: seq<Action>) {
    trace != [] && (trace[|trace| - 1] == ACancelFailed
                    || (trace[|trace| - 1] != AReserve && RefusedSince(trace[..|trace| - 1])))
  }

  lemma RefusedAppend(trace: seq<Action>, a: Action)
    ensures RefusedSince(trace + [a]) == (a == ACancelFailed || (a != AReserve && RefusedSince(trace)))
  {
    assert (trace + [a])[..|trace|] == trace;
  }

  /** A capture at `c` belongs to the placement under way at `n`: no reserve lies between. */
  ghost predicate CapturedSince(trace: seq<Action>, c: nat, n: nat) {
    c < n <= |trace| && trace[c] == ACapture && forall k :: c < k < n ==> trace[k] != AReserve
  }

  predicate NeedsCapture(a: Action) {
    a == AReap || a == AReleaseLost || a == ARequeue
  }

  /** Every release and every requeue is preceded by a capture of the same placement. */
  ghost predicate CaptureFirst(trace: seq<Action>) {
    forall i :: 0 <= i < |trace| && NeedsCapture(trace[i]) ==> exists c: nat :: CapturedSince(trace, c, i)
  }

  predicate TerminalAction(a: Action) {
    a == AFail || a.AFinish? || a == ACancel
  }

  /** After a job ended, nothing is logged but the capture and the release of what it left
      behind, and refused cancels. */
  ghost predicate EndsForGood(trace: seq<Action>) {
    forall i, k :: 0 <= i < k < |trace| && TerminalAction(trace[i]) ==>
      trace[k] in {ACapture, ACaptureSacrificed, AReap, ACancelFailed}
  }

  /** An accepted log captures before it releases or requeues, and while it says captured
      there is a capture of the placement under way. */
  lemma {:induction false} AcceptedLogsCaptureFirst(trace: seq<Action>)
    requires PhaseOf(trace) != Bad
    ensures CaptureFirst(trace)
    ensures PhaseOf(trace).At? && PhaseOf(trace).captured ==>
      (exists c: nat :: CapturedSince(trace, c, |trace|))
      && (PhaseOf(trace).state.Running? || PhaseOf(trace).state.Terminal())
  {
    if trace != [] {
      var n := |trace| - 1;
      var before, a := trace[..n], trace[n];
      AcceptedLogsCaptureFirst(before);
      var p := PhaseOf(before);
      if p.At? && p.captured {
        var c: nat :| CapturedSince(before, c, n);
        assert CapturedSince(trace, c, n) && (a != AReserve ==> CapturedSince(trace, c, n + 1));
      }
      if a == ACapture {
        assert CapturedSince(trace, n, n + 1);
      }
      CaptureFirstExtends(before, trace);
    }
  }

  lemma CaptureFirstExtends(before: seq<Action>, trace: seq<Action>)
    requires |trace| == |before| + 1 && trace[..|before|] == before && CaptureFirst(before)
    requires NeedsCapture(trace[|before|]) ==> exists c: nat :: CapturedSince(trace, c, |before|)
    ensures CaptureFirst(trace)
  {
    forall i | 0 <= i < |before| && NeedsCapture(trace[i]) ensures exists c: nat :: CapturedSince(trace, c, i) {
      assert NeedsCapture(before[i]);
      var c: nat :| CapturedSince(before, c, i);
      assert CapturedSince(trace, c, i);
    }
  }

  /** An accepted log never goes on after a terminal action, and shows one only if the job
      has ended. */
  lemma {:induction false} AcceptedLogsEndForGood(trace: seq<Action>)
    requires PhaseOf(trace) != Bad
    ensures EndsForGood(trace)
    ensures PhaseOf(trace).At? && !PhaseOf(trace).state.Terminal() ==>
      forall i :: 0 <= i < |trace| ==> !TerminalAction(trace[i])
    ensures PhaseOf(trace).Start? <==> trace == []
  {
    if trace != [] {
      var n := |trace| - 1;
      AcceptedLogsEndForGood(trace[..n]);
      assert forall i :: 0 <= i < n ==> trace[i] == trace[..n][i];
    }
  }
}
