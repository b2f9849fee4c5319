/** The attempt number a job's stream is opened under: it never goes down, and it tells one
    placement from the next - which is what the durable log's resume point relies on. */
module Attempts {
  import opened Wrappers
  import opened Models
  import opened Kernel
  import opened Lifecycle
  import opened Invariant
  import opened Runs

  function Activations(trace: seq<Action>): nat {
    if trace == [] then 0
    else Activations(trace[..|trace| - 1]) + (if trace[|trace| - 1] == AActivate then 1 else 0)
  }

  /** Activations logged so far, and at least one. */
  function AttemptOf(trace: seq<Action>): nat {
    Max(1, Activations(trace))
  }

  lemma {:induction false} ActivationsGrow(trace: seq<Action>, n: nat)
    requires n <= |trace|
    ensures Activations(trace[..n]) <= Activations(trace)
    ensures (exists a :: n <= a < |trace| && trace[a] == AActivate) ==> Activations(trace[..n]) < Activations(trace)
  {
    if n == |trace| {
      assert trace[..n] == trace;
    } else {
      var m := |trace| - 1;
      assert trace[..m][..n] == trace[..n];
      ActivationsGrow(trace[..m], n);
      assert forall a :: 0 <= a < m ==> trace[..m][a] == trace[a];
    }
  }

  ghost predicate ActivatedSince(trace: seq<Action>, a: nat) {
    a < |trace| && trace[a] == AActivate && forall k :: a < k < |trace| ==> trace[k] != AReserve
  }

  /** A running job was activated after its last reserve. */
  lemma {:induction false} RunningWasActivated(trace: seq<Action>) returns (a: nat)
    requires PhaseOf(trace).At? && PhaseOf(trace).state.Running?
    ensures ActivatedSince(trace, a)
  {
    var n := |trace| - 1;
    if trace[n] == AActivate {
      a := n;
    } else {
      a := RunningWasActivated(trace[..n]);
      assert forall k :: 0 <= k < n ==> trace[..n][k] == trace[k];
    }
  }

  lemma AttemptsNeverGoDown(steps: seq<Step>, i: nat, k: nat, jid: JobId)
    requires i <= k <= |steps| && jid in Run(steps[..i]).cells
    ensures jid in Run(steps[..k]).cells
    ensures AttemptOf(Run(steps[..i]).cells[jid].trace) <= AttemptOf(Run(steps[..k]).cells[jid].trace)
  {
    hide Run, Activations;
    EndedForGood(steps, i, k, jid);
    var before, after := Run(steps[..i]).cells[jid].trace, Run(steps[..k]).cells[jid].trace;
    assert after[..|before|] == before;
    ActivationsGrow(after, |before|);
  }

  /** A job that runs at two moments of a run under the same attempt number runs on the same
      placement: nothing was reserved in between. */
  lemma SameAttemptSamePlacement(steps: seq<Step>, i: nat, k: nat, jid: JobId)
    requires i <= k <= |steps|
    requires jid in Run(steps[..i]).cells && jid in Run(steps[..k]).cells
    requires Run(steps[..i]).cells[jid].rec.state.Running? && Run(steps[..k]).cells[jid].rec.state.Running?
    requires AttemptOf(Run(steps[..i]).cells[jid].trace) == AttemptOf(Run(steps[..k]).cells[jid].trace)
    ensures
      var before, after := Run(steps[..i]).cells[jid].trace, Run(steps[..k]).cells[jid].trace;
      before <= after && forall p :: |before| <= p < |after| ==> after[p] != AReserve
  {
    hide Run, Activations, PhaseOf, StoreOk;
    EndedForGood(steps, i, k, jid);
    RunOk(steps[..i]);
    RunOk(steps[..k]);
    KnownCell(Run(steps[..i]), jid);
    KnownCell(Run(steps[..k]), jid);
    var before, after := Run(steps[..i]).cells[jid].trace, Run(steps[..k]).cells[jid].trace;
    assert after[..|before|] == before;
    ActivationsGrow(after, |before|);
    var first := RunningWasActivated(before);
    ActivationsGrow(before, first);
    var last := RunningWasActivated(after);
    assert last < |before|;
  }
}
