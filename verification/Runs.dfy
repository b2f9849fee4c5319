/** Whole runs: from the empty store, under any sequence of passes and completions. */
module Runs {
  import opened Wrappers
  import opened Models
  import opened Budget
  import opened Scheduler
  import opened PassByJob
  import opened Kernel
  import opened Lifecycle
  import opened Invariant
  import opened PassInvariant
  import opened Outcome

  // ------------------------------------------------------------------ the invariant

  lemma {:induction false} NextKeeps(s: Store, step: Step)
    requires StoreOk(s)
    ensures StoreOk(Next(s, step))
  {
    hide StoreOk, StepOn, Pass, RecoverAll, Adopt, CellOk, NewCell, Cell.LivePaid, PhaseOf;
    match step
    case Submit(spec, at) =>
      if spec.jobId !in s.cells {
        NewOk(spec, at);
        assert PaidOf(s, spec.jobId).None?;
        PutKeeps(s, spec.jobId, NewCell(spec, at));
      }
    case AskCancel(jid) => CancelsAreFree(s, s.cancels + {jid});
    case Restart => CancelsAreFree(s, {});
    case Tick(order, slots, now, cfg, live, adopts) =>
      if Enumerates(order, s.cells.Keys) {
        ReadyOk(s, order, live, adopts, now);
        PassKeeps(Ready(s, order, live, adopts, now), order, slots, now, cfg);
      }
    case _ =>
      if step.jid in s.cells {
        StepOnKeeps(s, step);
      }
  }

  /** The store a pass decides over: items adopted, stranded jobs recovered. */
  function Ready(s: Store, order: seq<JobId>, live: set<JobId>, adopts: set<JobId>, now: Time): (r: Store)
    ensures r.cells.Keys == s.cells.Keys
  {
    RecoverAll(Adopt(s, adopts), order, live, now)
  }

  lemma {:induction false} ReadyOk(s: Store, order: seq<JobId>, live: set<JobId>, adopts: set<JobId>, now: Time)
    requires StoreOk(s)
    ensures StoreOk(Ready(s, order, live, adopts, now))
  {
    hide StoreOk, Adopt, RecoverAll;
    AdoptKeeps(s, adopts);
    RecoverAllKeeps(Adopt(s, adopts), order, live, now);
  }

  lemma {:induction false} ReadyCells(s: Store, order: seq<JobId>, live: set<JobId>, adopts: set<JobId>, now: Time,
                                      jid: JobId)
    requires Enumerates(order, s.cells.Keys) && jid in s.cells
    ensures Ready(s, order, live, adopts, now).cells[jid]
      == if Stranded(s, jid, live) then RecoverCell(s.cells[jid]) else s.cells[jid]
  {
    hide RecoverAll, RecoverCell;
    RecoveredCells(Adopt(s, adopts), order, live, now, jid);
  }

  lemma {:induction false} RunOk(steps: seq<Step>)
    ensures StoreOk(Run(steps))
  {
    hide CellOk, Next;
    if steps != [] {
      hide StoreOk;
      RunOk(steps[..|steps| - 1]);
      NextKeeps(Run(steps[..|steps| - 1]), steps[|steps| - 1]);
    }
  }

  /** Ledger conservation: at every moment both windows hold the same rows, and a job has an
      open reservation exactly while it has a live paid placement - one row, of the amount
      that placement carries. */
  lemma {:induction false} LedgerFollowsPlacements(steps: seq<Step>, jid: JobId)
    ensures
      var s := Run(steps);
      && s.day == s.week
      && (PaidOf(s, jid).None? ==> !HasCommitted(s.day, jid))
      && (PaidOf(s, jid).Some? ==>
            exists i: nat :: SoleCommitted(s.day, jid, i) && s.day[i].amount == PaidOf(s, jid).value > 0.0)
  {
    hide Run, PaidOf, CellOk, Cell.LivePaid;
    RunOk(steps);
    var s := Run(steps);
    assert RowsMatch(s.day, jid, PaidOf(s, jid));
    PaidIsPositive(s, jid);
  }

  lemma {:induction false} PaidIsPositive(s: Store, jid: JobId)
    requires StoreOk(s)
    ensures PaidOf(s, jid).Some? ==> PaidOf(s, jid).value > 0.0
  {
    if jid in s.cells {
      assert CellOk(jid, s.cells[jid]);
    }
  }

  /** The conservation needs the reserve and its ledger rows to happen together: if the process
      dies between them, a live paid placement stands without a reservation. */
  lemma CrashBeforeCommitBreaksLedger(s: Store, d: Decision, now: Time)
    requires StoreOk(s) && d.Reserve? && d.estCost > 0.0
    requires d.jobId in s.cells && s.cells[d.jobId].rec.state.Pending()
    ensures
      var crashed := s.Put(d.jobId, EnactOnCell(s.cells[d.jobId], d, now));
      && Enact(s, d, now) == crashed.Commit(d.jobId, d.provider, d.estCost, now)
      && PaidOf(crashed, d.jobId) == Some(d.estCost) && !HasCommitted(crashed.day, d.jobId)
      && !LedgerOk(crashed)
  {
    hide CellOk;
    var crashed := s.Put(d.jobId, EnactOnCell(s.cells[d.jobId], d, now));
    PendingIsUnpaid(s.cells[d.jobId]);
    assert RowsMatch(s.day, d.jobId, PaidOf(s, d.jobId));
    assert !RowsMatch(crashed.day, d.jobId, PaidOf(crashed, d.jobId));
  }

  // ------------------------------------------------------------------ what a step may do

  /** What any one step may make of one job's rows: the log only grows, an ended job stays as
      it ended, a live placement is never swapped for another, a running job goes back to the
      queue only dead, captured and with no recorded resource, a resource is released only
      by a release item on a captured placement, and such items open only on captured ones. */
  ghost predicate Moves(c: Cell, c': Cell) {
    && c.trace <= c'.trace
    && c'.rec.spec == c.rec.spec
    && (c.rec.state.Terminal() ==> c'.rec.state == c.rec.state && c'.rec.placement == c.rec.placement)
    && (c'.rec.state.Active() && c.rec.state.Active() ==> c'.rec.placement == c.rec.placement)
    && (c.rec.state.Running? && c'.rec.state.Pending() ==>
          c.rec.Dead() && c.rec.Captured() && c.minted == {} && c.item.None?)
    && (!(c.minted <= c'.minted) ==> c.rec.Captured() && c.item.Some? && c.item.value.ReapItem?)
    && (c'.item.Some? && c'.item.value.ReapItem? && c'.item != c.item ==> c.rec.Captured() && c.item.None?)
  }

  lemma {:induction false} UnwoundMoves(c: Cell, booked: Option<Bookkeeping>)
    requires c.rec.state.Placing?
    ensures Moves(c, UnwindCell(c, booked)) && UnwindCell(c, booked).minted == c.minted
    ensures UnwindCell(c, booked).item.None? && !UnwindCell(c, booked).rec.state.Terminal()
  {
    hide Provisioned, Book;
    if booked.Some? {
      BookFrame(c.rec, booked.value);
    }
  }

  /** A completion that names one job. */
  predicate OfOneJob(step: Step) {
    !step.Submit? && !step.AskCancel? && !step.Tick? && !step.Restart?
  }

  /** What a completion makes of the rows of the job it names. */
  function CellStep(c: Cell, step: Step): Cell
    requires OfOneJob(step)
  {
    match step
    case Provision(_) => ProvisionCell(c)
    case Activate(_) => ActivateCell(c)
    case Unwind(_, booked, _) => if PlaceUnderWay(c) then UnwindCell(c, booked) else c
    case Defer(_, until, _) => if PlaceUnderWay(c) then DeferCell(c, until) else c
    case CaptureDone(_, sacrificed) => CaptureCell(c, sacrificed)
    case ReapDone(_) => ReapCell(c)
    case CancelDone(_, _) =>
      if c.item != Some(CancelItem) then c
      else if c.rec.state.Terminal() then c.(item := None)
      else CancelCell(if c.rec.state.Placing? then UnwindCell(c, None) else c)
    case CancelFails(_) =>
      if c.item != Some(CancelItem) then c else c.(item := None).Log(ACancelFailed)
    case Finish(_, ok, _) => if c.rec.state.Running? then FinishCell(c, ok) else c
    case WorkerDead(_) => DeadCell(c)
    case ShowStatus(_, status) => ShowCell(c, status)
  }

  /** A completion touches no other job. */
  lemma {:induction false} StepOnFrame(s: Store, step: Step)
    requires OfOneJob(step) && step.jid in s.cells
    ensures StepOn(s, step).cells == s.cells[step.jid := CellStep(s.cells[step.jid], step)]
  {
    hide ProvisionCell, ActivateCell, UnwindCell, DeferCell, CaptureCell, ReapCell, CancelCell, FinishCell, DeadCell,
      ShowCell,
      Provisioned, RealizeRows, Cell.LivePaid;
    assert s.cells == s.cells[step.jid := s.cells[step.jid]];
  }

  /** Off the pass, nothing starts being active and nothing goes from running back to pending. */
  predicate WindsDown(c: Cell, c': Cell) {
    && (c'.rec.state.Active() ==> c.rec.state.Active())
    && (c.rec.state.Running? ==> !c'.rec.state.Pending())
  }

  lemma {:induction false} CellStepMoves(jid: JobId, c: Cell, step: Step)
    requires CellOk(jid, c) && OfOneJob(step)
    ensures Moves(c, CellStep(c, step)) && WindsDown(c, CellStep(c, step))
  {
    hide Moves, WindsDown, CellOk, UnwindCell, CancelCell, CaptureCell, ReapCell, ProvisionCell, ActivateCell,
      DeferCell,
      FinishCell, DeadCell, ShowCell;
    StaysPut(c);
    match step
    case Unwind(_, booked, _) => if PlaceUnderWay(c) { UnwoundMoves(c, booked); UnwoundWinds(c, booked); }
    case CancelDone(_, _) => CancelDoneMoves(jid, c, step);
    case Provision(_) => PlacingMoves(jid, c, step);
    case Activate(_) => PlacingMoves(jid, c, step);
    case Defer(_, _, _) => PlacingMoves(jid, c, step);
    case _ => OtherMoves(jid, c, step);
  }

  lemma UnwoundWinds(c: Cell, booked: Option<Bookkeeping>)
    requires c.rec.state.Placing?
    ensures WindsDown(c, UnwindCell(c, booked))
  {
  }

  lemma {:induction false} PlacingMoves(jid: JobId, c: Cell, step: Step)
    requires CellOk(jid, c) && (step.Provision? || step.Activate? || step.Defer?)
    ensures Moves(c, CellStep(c, step)) && WindsDown(c, CellStep(c, step))
  {
    hide Provisioned, PhaseOf;
  }

  lemma {:induction false} OtherMoves(jid: JobId, c: Cell, step: Step)
    requires CellOk(jid, c) && OfOneJob(step)
    requires !step.Unwind? && !step.CancelDone? && !step.Provision? && !step.Activate? && !step.Defer?
    ensures Moves(c, CellStep(c, step)) && WindsDown(c, CellStep(c, step))
  {
    hide Provisioned, PhaseOf, UnwindCell;
  }

  lemma {:induction false} CancelDoneMoves(jid: JobId, c: Cell, step: Step)
    requires CellOk(jid, c) && step.CancelDone?
    ensures Moves(c, CellStep(c, step)) && WindsDown(c, CellStep(c, step))
  {
    hide Provisioned, UnwindCell, PhaseOf;
    if c.rec.state.Placing? {
      UnwoundMoves(c, None);
      CancelledMoves(c, UnwindCell(c, None));
    }
  }

  lemma CancelledMoves(c: Cell, mid: Cell)
    requires Moves(c, mid) && c.rec.state.Placing? && !mid.rec.state.Terminal() && mid.minted == c.minted
    ensures Moves(c, CancelCell(mid))
  {
  }

  lemma {:induction false} EnactingLogs(c: Cell, ds: seq<Decision>, now: Time)
    ensures c.trace <= EnactCells(c, ds, now).trace
  {
    if ds != [] {
      EnactingLogs(c, ds[..|ds| - 1], now);
    }
  }

  lemma {:induction false} PassMoves(s: Store, order: seq<JobId>, slots: seq<Slot>, now: Time, cfg: Config, jid: JobId)
    requires StoreOk(s) && Enumerates(order, s.cells.Keys) && jid in s.cells
    ensures Pass(s, order, slots, now, cfg).cells.Keys == s.cells.Keys
    ensures Moves(s.cells[jid], Pass(s, order, slots, now, cfg).cells[jid])
  {
    hide StoreOk, Pass, DecisionsOn, SnapshotOf, OutcomeOf, PlanFits, EnactCells, DecisionsFor, GoesToAdmission,
      Plan.Of;
    var plan, o := PassOutcome(s, order, slots, now, cfg, jid);
    CellAfterPassOf(s, order, slots, now, cfg, jid);
    EnactingLogs(s.cells[jid], DecisionsFor(DecisionsOn(s, order, slots, now, cfg), jid), now);
  }

  /** A step makes such a move, or - in a pass that finds the job placing without a work item -
      such a move from its rollback. */
  ghost predicate Evolves(c: Cell, c': Cell) {
    Moves(c, c') || (c.rec.state.Placing? && c.item.None? && Moves(RecoverCell(c), c'))
  }

  /** Every step of every run evolves each job so. */
  lemma {:induction false} StepMoves(s: Store, step: Step, jid: JobId)
    requires StoreOk(s) && jid in s.cells
    ensures jid in Next(s, step).cells
    ensures Evolves(s.cells[jid], Next(s, step).cells[jid])
  {
    hide StoreOk, StepOn, Pass, RecoverAll, Adopt, NewCell, Moves, CellStep, CellOk, RecoverCell;
    assert Moves(s.cells[jid], s.cells[jid]) by {
      StaysPut(s.cells[jid]);
    }
    match step
    case Submit(_, _) =>
    case AskCancel(_) =>
    case Restart =>
    case Tick(order, slots, now, cfg, live, adopts) =>
      if Enumerates(order, s.cells.Keys) {
        ReadyOk(s, order, live, adopts, now);
        ReadyCells(s, order, live, adopts, now, jid);
        PassMoves(Ready(s, order, live, adopts, now), order, slots, now, cfg, jid);
      }
    case _ =>
      if step.jid in s.cells {
        StepOnFrame(s, step);
        KnownCell(s, step.jid);
        CellStepMoves(step.jid, s.cells[step.jid], step);
      }
  }

  lemma {:induction false} StaysPut(c: Cell)
    ensures Moves(c, c) && WindsDown(c, c)
  {
  }

  lemma {:induction false} EvolvesOn(c: Cell, c': Cell)
    requires Evolves(c, c')
    ensures c.trace <= c'.trace && c'.rec.spec == c.rec.spec
    ensures c.rec.state.Terminal() ==> c'.rec.state == c.rec.state && c'.rec.placement == c.rec.placement
  {
  }

  // ------------------------------------------------------------------ the ladder over runs

  /** In every run, each job's log captures before it releases or requeues, within the same
      placement, and goes on after the job ended only with capture, release and refused
      cancels. */
  lemma {:induction false} LogsOverRuns(steps: seq<Step>, jid: JobId)
    requires jid in Run(steps).cells
    ensures CaptureFirst(Run(steps).cells[jid].trace)
    ensures EndsForGood(Run(steps).cells[jid].trace)
  {
    hide Run, PhaseOf, CaptureFirst, EndsForGood;
    RunOk(steps);
    var c := Run(steps).cells[jid];
    assert CellOk(jid, c);
    AcceptedLogsCaptureFirst(c.trace);
    AcceptedLogsEndForGood(c.trace);
  }

  /** Terminal states are final, and no job ever disappears: whatever happens between two
      moments of a run, a job that had ended is still there, ended the same way, on the
      same placement, and its log has only grown. */
  lemma {:induction false} EndedForGood(steps: seq<Step>, i: nat, k: nat, jid: JobId)
    requires i <= k <= |steps| && jid in Run(steps[..i]).cells
    ensures jid in Run(steps[..k]).cells
    ensures
      var before, after := Run(steps[..i]).cells[jid], Run(steps[..k]).cells[jid];
      && before.trace <= after.trace
      && (before.rec.state.Terminal() ==>
            after.rec.state == before.rec.state && after.rec.placement == before.rec.placement)
  {
    hide Next, StoreOk, Evolves;
    if i < k {
      EndedForGood(steps, i, k - 1, jid);
      assert steps[..k][..k - 1] == steps[..k - 1];
      RunOk(steps[..k - 1]);
      StepMoves(Run(steps[..k - 1]), steps[k - 1], jid);
      EvolvesOn(Run(steps[..k - 1]).cells[jid], Run(steps[..k]).cells[jid]);
    }
  }
}
