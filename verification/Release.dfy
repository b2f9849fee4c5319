/** A lost job never runs twice at once: it goes back to the queue only once the release of what
    it ran on is confirmed. */
module Release {
  import opened Wrappers
  import opened Models
  import opened Scheduler
  import opened Kernel
  import opened Lifecycle
  import opened Invariant
  import opened PassInvariant
  import opened Runs

  /** A release was confirmed since the last reserve. */
  predicate ReleasedSince(trace: seq<Action>) {
    trace != [] && (trace[|trace| - 1] == AReleaseLost
                    || (trace[|trace| - 1] != AReserve && ReleasedSince(trace[..|trace| - 1])))
  }

  lemma {:induction false} ReleasedAppend(trace: seq<Action>, a: Action)
    ensures ReleasedSince(trace + [a]) == (a == AReleaseLost || (a != AReserve && ReleasedSince(trace)))
  {
    assert (trace + [a])[..|trace|] == trace;
  }

  /** Every requeue came after a release of the same placement. */
  ghost predicate ReleasedFirst(trace: seq<Action>) {
    forall i :: 0 <= i < |trace| && trace[i] == ARequeue ==> ReleasedSince(trace[..i])
  }

  lemma ReleasedFirstAppend(trace: seq<Action>, a: Action)
    requires ReleasedFirst(trace) && (a == ARequeue ==> ReleasedSince(trace))
    ensures ReleasedFirst(trace + [a])
  {
    var more := trace + [a];
    forall i | 0 <= i < |more| && more[i] == ARequeue ensures ReleasedSince(more[..i]) {
      assert i < |trace| ==> more[..i] == trace[..i];
      assert i == |trace| ==> more[..i] == trace;
    }
  }

  /** What a provisioned placement runs on is on record until its release is. */
  ghost predicate OnRecord(c: Cell) {
    && (c.rec.state.Active() && Provisioned(c.trace) && c.rec.placement.Some? ==>
          c.rec.placement.value.provider in c.minted || ReleasedSince(c.trace))
    && ReleasedFirst(c.trace)
  }

  ghost predicate AllOnRecord(s: Store) {
    forall j :: j in s.cells ==> OnRecord(s.cells[j])
  }

  lemma {:induction false} RunningIsProvisioned(trace: seq<Action>)
    ensures PhaseOf(trace).At? && PhaseOf(trace).state.Running? ==> PhaseOf(trace).provisioned
  {
    if trace != [] {
      RunningIsProvisioned(trace[..|trace| - 1]);
    }
  }

  /** One more action that is no reserve, with the resources as they were. */
  lemma {:induction false} StillOnRecord(c: Cell, c': Cell, a: Action)
    requires OnRecord(c) && c'.trace == c.trace + [a] && c'.minted == c.minted
    requires a != AReserve && a != AProvision && (a == ARequeue ==> ReleasedSince(c.trace))
    requires c'.rec.state.Active() ==> c.rec.state.Active() && c'.rec.placement == c.rec.placement
    ensures OnRecord(c')
  {
    hide ReleasedFirst, ReleasedSince, Provisioned;
    ReleasedAppend(c.trace, a);
    ReleasedFirstAppend(c.trace, a);
    PhaseAppend(c.trace, a);
  }

  lemma {:induction false} StepOnRecord(jid: JobId, c: Cell, step: Step)
    requires CellOk(jid, c) && OnRecord(c) && OfOneJob(step)
    ensures OnRecord(CellStep(c, step))
  {
    hide OnRecord, CellOk, UnwindCell, CancelCell, CaptureCell, ReapCell, ProvisionCell, ActivateCell, DeferCell,
      FinishCell, DeadCell, ShowCell, Provisioned;
    match step
    case Provision(_) => ProvisionOnRecord(c);
    case Activate(_) => ActivateOnRecord(jid, c);
    case Unwind(_, booked, _) => if PlaceUnderWay(c) { UnwoundOnRecord(jid, c, booked); }
    case Defer(_, until, _) => if PlaceUnderWay(c) { DeferOnRecord(c, until); }
    case CaptureDone(_, sacrificed) => CaptureOnRecord(jid, c, sacrificed);
    case ReapDone(_) => ReapOnRecord(jid, c);
    case CancelDone(_, _) => CancelOnRecord(jid, c, step);
    case CancelFails(_) => OtherOnRecord(jid, c, step);
    case Finish(_, _, _) => OtherOnRecord(jid, c, step);
    case WorkerDead(_) => OtherOnRecord(jid, c, step);
    case ShowStatus(_, _) => OtherOnRecord(jid, c, step);
  }

  lemma {:induction false} ProvisionOnRecord(c: Cell)
    requires OnRecord(c)
    ensures OnRecord(ProvisionCell(c))
  {
    hide ReleasedFirst, ReleasedSince, Provisioned;
    ReleasedFirstAppend(c.trace, AProvision);
  }

  lemma {:induction false} ActivateOnRecord(jid: JobId, c: Cell)
    requires CellOk(jid, c) && OnRecord(c)
    ensures OnRecord(ActivateCell(c))
  {
    hide OnRecord, Provisioned, PhaseOf;
    if PlaceUnderWay(c) && Provisioned(c.trace) {
      StillOnRecord(c, ActivateCell(c), AActivate);
    }
  }

  lemma {:induction false} UnwoundOnRecord(jid: JobId, c: Cell, booked: Option<Bookkeeping>)
    requires CellOk(jid, c) && OnRecord(c) && c.rec.state.Placing?
    ensures OnRecord(UnwindCell(c, booked))
  {
    hide OnRecord, Provisioned, PhaseOf, Book;
    if booked.Some? {
      BookFrame(c.rec, booked.value);
    }
    StillOnRecord(c, UnwindCell(c, booked), if Provisioned(c.trace) then AActivate else ARollback);
  }

  lemma {:induction false} DeferOnRecord(c: Cell, until: Time)
    requires OnRecord(c)
    ensures OnRecord(DeferCell(c, until))
  {
    hide OnRecord;
    StillOnRecord(c, DeferCell(c, until), ARollback);
  }

  lemma {:induction false} SameOnRecord(c: Cell, c': Cell)
    requires OnRecord(c) && c'.trace == c.trace && c'.minted == c.minted
    requires c'.rec.state == c.rec.state && c'.rec.placement == c.rec.placement
    ensures OnRecord(c')
  {
  }

  lemma {:induction false} CaptureOnRecord(jid: JobId, c: Cell, sacrificed: bool)
    requires CellOk(jid, c) && OnRecord(c)
    ensures OnRecord(CaptureCell(c, sacrificed))
  {
    hide OnRecord, PhaseOf, Provisioned;
    if c.item == Some(CaptureItem) {
      var noted := if sacrificed then c.Log(ACaptureSacrificed) else c;
      if sacrificed {
        StillOnRecord(c, noted, ACaptureSacrificed);
      }
      if c.rec.state.Terminal() || c.rec.state.Running? {
        StillOnRecord(noted, CaptureCell(c, sacrificed), ACapture);
      } else {
        SameOnRecord(noted, CaptureCell(c, sacrificed));
      }
    }
  }

  lemma {:induction false} ReapOnRecord(jid: JobId, c: Cell)
    requires CellOk(jid, c) && OnRecord(c)
    ensures OnRecord(ReapCell(c))
  {
    hide ReleasedFirst, ReleasedSince, Provisioned, PhaseOf;
    if c.item.Some? && c.item.value.ReapItem? {
      var a := if c.item.value.lost then AReleaseLost else AReap;
      ReleasedAppend(c.trace, a);
      ReleasedFirstAppend(c.trace, a);
    }
  }

  lemma {:induction false} CancelOnRecord(jid: JobId, c: Cell, step: Step)
    requires CellOk(jid, c) && OnRecord(c) && step.CancelDone?
    ensures OnRecord(CellStep(c, step))
  {
    hide OnRecord, PhaseOf, UnwindCell, CellOk;
    if c.item == Some(CancelItem) {
      if c.rec.state.Terminal() {
        SameOnRecord(c, c.(item := None));
      } else {
        if c.rec.state.Placing? {
          UnwoundOnRecord(jid, c, None);
        }
        var mid := if c.rec.state.Placing? then UnwindCell(c, None) else c;
        StillOnRecord(mid, CancelCell(mid), ACancel);
      }
    }
  }

  lemma {:induction false} OtherOnRecord(jid: JobId, c: Cell, step: Step)
    requires CellOk(jid, c) && OnRecord(c)
    requires step.CancelFails? || step.Finish? || step.WorkerDead? || step.ShowStatus?
    ensures OnRecord(CellStep(c, step))
  {
    hide OnRecord, PhaseOf, Provisioned;
    var c' := CellStep(c, step);
    if c'.trace == c.trace {
      SameOnRecord(c, c');
    } else {
      StillOnRecord(c, c', c'.trace[|c.trace|]);
    }
  }

  // ------------------------------------------------------------------ the pass

  lemma {:induction false} EnactOnRecord(jid: JobId, c: Cell, d: Decision, now: Time)
    requires CellOk(jid, c) && OnRecord(c)
    ensures OnRecord(EnactOnCell(c, d, now))
  {
    hide OnRecord, PhaseOf, Provisioned, ReleasedSince;
    var c' := EnactOnCell(c, d, now);
    match d
    case Reserve(_, _, _, _, _) =>
      if c.rec.state.Pending() {
        ReservedAnew(c, c');
      }
    case Requeue(_) =>
      if c.minted == {} && c.rec.state.Running? {
        ReleasedIfGone(jid, c);
        StillOnRecord(c, c', ARequeue);
      }
    case Hold(_, _) => if c.rec.state.Queued? { StillOnRecord(c, c', AHold); }
    case Unhold(_) => if c.rec.state.Held? { StillOnRecord(c, c', AUnhold); }
    case Fail(_, _) => if c.rec.state.Pending() { StillOnRecord(c, c', AFail); }
    case _ => SameOnRecord(c, c');
  }

  lemma {:induction false} ReservedAnew(c: Cell, c': Cell)
    requires OnRecord(c) && c'.trace == c.trace + [AReserve]
    ensures OnRecord(c')
  {
    hide ReleasedFirst, ReleasedSince, Provisioned;
    PhaseAppend(c.trace, AReserve);
    ReleasedFirstAppend(c.trace, AReserve);
  }

  /** A running job with nothing on record has been released. */
  lemma {:induction false} ReleasedIfGone(jid: JobId, c: Cell)
    requires CellOk(jid, c) && OnRecord(c) && c.rec.state.Running? && c.minted == {}
    ensures ReleasedSince(c.trace)
  {
    hide ReleasedFirst, ReleasedSince, Provisioned, PhaseOf;
    RunningIsProvisioned(c.trace);
  }

  lemma {:induction false} PassOnRecord(s: Store, order: seq<JobId>, slots: seq<Slot>, now: Time, cfg: Config, k: nat)
    requires StoreOk(s) && AllOnRecord(s) && Enumerates(order, s.cells.Keys)
    requires k <= |DecisionsOn(s, order, slots, now, cfg)|
    ensures AllOnRecord(EnactAll(s, DecisionsOn(s, order, slots, now, cfg)[..k], now))
  {
    hide StoreOk, DecisionsOn, Enact, EnactOnCell, OnRecord, CellOk;
    if k > 0 {
      var ds := DecisionsOn(s, order, slots, now, cfg);
      PassOnRecord(s, order, slots, now, cfg, k - 1);
      PassPrefixKeeps(s, order, slots, now, cfg, k - 1);
      assert ds[..k][..k - 1] == ds[..k - 1];
      var before, d := EnactAll(s, ds[..k - 1], now), ds[k - 1];
      EnactFrame(before, d, now);
      if d.jobId in before.cells {
        KnownCell(before, d.jobId);
        EnactOnRecord(d.jobId, before.cells[d.jobId], d, now);
      }
    }
  }

  lemma {:induction false} ReadyOnRecord(s: Store, order: seq<JobId>, live: set<JobId>, adopts: set<JobId>, now: Time)
    requires StoreOk(s) && AllOnRecord(s) && Enumerates(order, s.cells.Keys)
    ensures AllOnRecord(Ready(s, order, live, adopts, now))
  {
    hide StoreOk, Ready, OnRecord, RecoverCell;
    forall j | j in s.cells ensures OnRecord(Ready(s, order, live, adopts, now).cells[j]) {
      ReadyCells(s, order, live, adopts, now, j);
      if Stranded(s, j, live) {
        RecoveredOnRecord(s.cells[j]);
      }
    }
  }

  lemma {:induction false} RecoveredOnRecord(c: Cell)
    requires OnRecord(c)
    ensures OnRecord(RecoverCell(c))
  {
    hide OnRecord;
    StillOnRecord(c, RecoverCell(c), ARollback);
  }

  // ------------------------------------------------------------------ whole runs

  lemma {:induction false} NextOnRecord(s: Store, step: Step)
    requires StoreOk(s) && AllOnRecord(s)
    ensures AllOnRecord(Next(s, step))
  {
    hide StoreOk, StepOn, DecisionsOn, EnactAll, Adopt, RecoverAll, OnRecord, NewCell, CellStep, CellOk;
    match step
    case Submit(spec, at) =>
      NewOnRecord(spec, at);
    case AskCancel(_) =>
    case Restart =>
    case Tick(order, slots, now, cfg, live, adopts) =>
      if Enumerates(order, s.cells.Keys) {
        ReadyOk(s, order, live, adopts, now);
        ReadyOnRecord(s, order, live, adopts, now);
        var ready := Ready(s, order, live, adopts, now);
        var ds := DecisionsOn(ready, order, slots, now, cfg);
        PassOnRecord(ready, order, slots, now, cfg, |ds|);
        assert ds[..|ds|] == ds;
      }
    case _ =>
      if step.jid in s.cells {
        StepOnFrame(s, step);
        KnownCell(s, step.jid);
        StepOnRecord(step.jid, s.cells[step.jid], step);
      }
  }

  lemma NewOnRecord(spec: JobSpec, at: Time)
    ensures OnRecord(NewCell(spec, at))
  {
  }

  lemma {:induction false} RunOnRecord(steps: seq<Step>)
    ensures AllOnRecord(Run(steps))
  {
    hide Next, OnRecord;
    if steps != [] {
      RunOnRecord(steps[..|steps| - 1]);
      RunOk(steps[..|steps| - 1]);
      NextOnRecord(Run(steps[..|steps| - 1]), steps[|steps| - 1]);
    }
  }

  lemma {:induction false} ReleaseIn(trace: seq<Action>) returns (r: nat)
    requires ReleasedSince(trace)
    ensures r < |trace| && trace[r] == AReleaseLost && forall k :: r < k < |trace| ==> trace[k] != AReserve
  {
    var n := |trace| - 1;
    if trace[n] == AReleaseLost {
      r := n;
    } else {
      r := ReleaseIn(trace[..n]);
    }
  }

  /** In every run, every requeue in a job's log comes after a confirmed release, with no other
      placement begun in between. */
  lemma {:induction false} RequeuedOnlyReleased(steps: seq<Step>, jid: JobId, i: nat) returns (r: nat)
    requires jid in Run(steps).cells
    requires i < |Run(steps).cells[jid].trace| && Run(steps).cells[jid].trace[i] == ARequeue
    ensures
      var trace := Run(steps).cells[jid].trace;
      r < i && trace[r] == AReleaseLost && forall k :: r < k < i ==> trace[k] != AReserve
  {
    hide Run, ReleasedSince;
    RunOnRecord(steps);
    assert OnRecord(Run(steps).cells[jid]);
    r := ReleaseIn(Run(steps).cells[jid].trace[..i]);
  }

  /** And what a running job runs on is on record until then. */
  lemma {:induction false} RunningIsOnRecord(steps: seq<Step>, jid: JobId)
    requires jid in Run(steps).cells && Run(steps).cells[jid].rec.state.Running?
    ensures
      var c := Run(steps).cells[jid];
      c.rec.placement.Some?
      && (c.rec.placement.value.provider in c.minted
          || exists r :: 0 <= r < |c.trace| && c.trace[r] == AReleaseLost
                           && forall k :: r < k < |c.trace| ==> c.trace[k] != AReserve)
  {
    hide Run, ReleasedSince, PhaseOf, Provisioned, ReleasedFirst;
    RunOnRecord(steps);
    RunOk(steps);
    var c := Run(steps).cells[jid];
    assert OnRecord(c) && CellOk(jid, c);
    RunningIsProvisioned(c.trace);
    if c.rec.placement.value.provider !in c.minted {
      var r := ReleaseIn(c.trace);
    }
  }
}
