/** How jobs get on: what a pass starts for each job, and where the follow-ups lead - a cancelled
    job ends, an ended one is cleaned up, a lost one comes back, a failed placement waits. */
module Progress {
  import opened Wrappers
  import opened Models
  import opened Scheduler
  import opened PassByJob
  import opened Kernel
  import opened Lifecycle
  import opened Invariant
  import opened PassInvariant
  import opened Outcome
  import opened Runs
  import opened Admission

  predicate Over(rec: Job) {
    rec.state.Succeeded? || rec.state.Failed? || rec.state.Cancelled?
  }

  predicate Lives(rec: Job) {
    rec.state.Placing? || rec.state.Running?
  }

  predicate Kept(rec: Job) {
    rec.logsCached || rec.outputsCached
  }

  /** What a pass makes of a job that is not up for admission. A cancel asked for comes first and
      whatever is under way second. What a job ended on is captured, then released; of a lost
      one the capture and the release come before it is queued again, after a pause. */
  ghost predicate LadderStep(c: Cell, c': Cell, asked: bool, now: Time) {
    if asked && !Over(c.rec) then c'.rec == c.rec && c'.item == Some(CancelItem)
    else if c.item.Some? then c'.rec == c.rec && c'.item == c.item
    else if Over(c.rec) then
      && c'.rec == c.rec
      && c'.item == (if c.rec.placement.None? || c.rec.reaped then None
                     else if Kept(c.rec) then Some(ReapItem(false)) else Some(CaptureItem))
    else if c.rec.state.Running? && c.rec.lastStatus == Some(Lost) then
      if !Kept(c.rec) then c'.rec == c.rec && c'.item == Some(CaptureItem)
      else if c.minted != {} then c'.rec == c.rec && c'.item == Some(ReapItem(true))
      else
        && c'.item.None?
        && c'.rec == c.rec.(state := Queued, placement := None, lastStatus := None, logsCached := false,
                            outputsCached := false, reaped := false, notBefore := Some(now + 30.0))
    else Lives(c.rec) ==> c'.rec == c.rec && c'.item == c.item
  }

  lemma {:induction false} LadderStarts(s: Store, order: seq<JobId>, slots: seq<Slot>, now: Time, cfg: Config,
                                        jid: JobId)
    requires StoreOk(s) && Enumerates(order, s.cells.Keys) && jid in s.cells
    ensures jid in Pass(s, order, slots, now, cfg).cells
    ensures LadderStep(s.cells[jid], Pass(s, order, slots, now, cfg).cells[jid], jid in s.cancels, now)
    ensures Pass(s, order, slots, now, cfg).cells[jid].minted == s.cells[jid].minted
  {
    hide StoreOk, Pass, Rule, StatesOf, DecisionsOn, DecisionsFor, SnapshotOf, Plan.Of;
    var plan, o := PassOutcome(s, order, slots, now, cfg, jid);
    SnapshotOfJob(s, order, jid);
    KnownId(s, jid);
  }

  // ------------------------------------------------------------------ one tick

  /** A tick that lists the jobs there are, seen from one job that is not stranded. */
  lemma {:induction false} TickOn(s: Store, tick: Step, jid: JobId)
    requires StoreOk(s) && tick.Tick? && Enumerates(tick.order, s.cells.Keys) && jid in s.cells
    requires s.cells[jid].rec.state.Placing? ==> s.cells[jid].item.Some?
    ensures jid in Next(s, tick).cells && Next(s, tick).cells.Keys == s.cells.Keys
    ensures
      var asked := jid in s.cancels || (jid in tick.adopts && s.cells[jid].item == Some(CancelItem));
      && (jid in Next(s, tick).cancels <==> asked)
      && LadderStep(s.cells[jid], Next(s, tick).cells[jid], asked, tick.now)
    ensures Next(s, tick).cells[jid].minted == s.cells[jid].minted
    ensures StoreOk(Next(s, tick))
  {
    hide StoreOk, Pass, RecoverAll, LadderStep, RecoverCell;
    NextKeeps(s, tick);
    ReadyOk(s, tick.order, tick.live, tick.adopts, tick.now);
    ReadyCells(s, tick.order, tick.live, tick.adopts, tick.now, jid);
    var ready := Ready(s, tick.order, tick.live, tick.adopts, tick.now);
    RecoveredCells(Adopt(s, tick.adopts), tick.order, tick.live, tick.now, jid);
    LadderStarts(ready, tick.order, tick.slots, tick.now, tick.cfg, jid);
    CellAfterPassOf(ready, tick.order, tick.slots, tick.now, tick.cfg, jid);
  }

  /** A completion, seen from its job. */
  lemma {:induction false} CompletionOn(s: Store, step: Step)
    requires StoreOk(s) && OfOneJob(step) && step.jid in s.cells
    ensures step.jid in Next(s, step).cells && Next(s, step).cells.Keys == s.cells.Keys && StoreOk(Next(s, step))
    ensures Next(s, step).cells[step.jid] == CellStep(s.cells[step.jid], step)
    ensures Next(s, step).cancels
      == s.cancels - (if (step.CancelDone? || step.CancelFails?) && s.cells[step.jid].item == Some(CancelItem)
                      then {step.jid} else {})
  {
    hide StoreOk, CellStep, Provisioned, Cell.LivePaid, UnwindCell, CancelCell;
    NextKeeps(s, step);
    StepOnFrame(s, step);
  }

  // ------------------------------------------------------------------ cancelling

  lemma AskedOn(s: Store, jid: JobId)
    requires StoreOk(s)
    ensures Next(s, AskCancel(jid)).cells == s.cells && jid in Next(s, AskCancel(jid)).cancels
    ensures StoreOk(Next(s, AskCancel(jid)))
  {
    hide StoreOk;
    CancelsAreFree(s, s.cancels + {jid});
  }

  /** Asked for, a cancel is started by the next pass, and what completes it ends the job. */
  lemma {:induction false} CancelTakes(s: Store, jid: JobId, tick: Step, now: Time)
    requires StoreOk(s) && jid in s.cells && !Over(s.cells[jid].rec)
    requires s.cells[jid].rec.state.Placing? ==> s.cells[jid].item.Some?
    requires tick.Tick? && Enumerates(tick.order, s.cells.Keys)
    ensures
      var started := Next(Next(s, AskCancel(jid)), tick);
      var ended := Next(started, CancelDone(jid, now));
      && jid in started.cells && started.cells[jid].item == Some(CancelItem)
        && started.cells[jid].rec == s.cells[jid].rec
      && jid in ended.cells && ended.cells[jid].rec.state == Cancelled
        && ended.cells[jid].rec.lastStatus == Some(Stopped)
      && ended.cells[jid].item.None? && jid !in ended.cancels
  {
    hide StoreOk, Next, Provisioned, UnwindCell, Enumerates;
    AskedOn(s, jid);
    var asked := Next(s, AskCancel(jid));
    TickOn(asked, tick, jid);
    CompletionOn(Next(asked, tick), CancelDone(jid, now));
  }

  /** A cancel that was refused is not started again by the next pass. */
  lemma {:induction false} RefusedIsOver(s: Store, jid: JobId, tick: Step)
    requires StoreOk(s) && jid in s.cells && s.cells[jid].item == Some(CancelItem) && s.cells[jid].rec.state.Running?
    requires tick.Tick? && Enumerates(tick.order, s.cells.Keys)
    ensures
      var after := Next(Next(s, CancelFails(jid)), tick);
      jid in after.cells && jid !in after.cancels && after.cells[jid].item != Some(CancelItem)
  {
    hide StoreOk, Next, Enumerates;
    CompletionOn(s, CancelFails(jid));
    TickOn(Next(s, CancelFails(jid)), tick, jid);
  }

  // ------------------------------------------------------------------ starting and ending

  /** A submitted job starts afresh in the queue; a second submission under its id changes
      nothing. */
  lemma SubmittedOnce(s: Store, spec: JobSpec, at: Time, later: Time, other: JobSpec)
    requires spec.jobId !in s.cells && other.jobId == spec.jobId
    ensures
      var s1 := Next(s, Submit(spec, at));
      && Next(s1, Submit(other, later)) == s1
      && var c := s1.cells[spec.jobId];
      && c.rec.spec == spec && c.rec.submittedAt == Some(at) && c.rec.state == Queued && c.rec.placement.None?
      && c.rec.attempts == 0 && c.rec.notBefore.None? && c.rec.avoid == map[] && c.item.None? && c.minted == {}
  {
  }

  /** Provisioned and activated, a placing job runs, on a resource on record. */
  lemma {:induction false} PlacedJobRuns(s: Store, jid: JobId)
    requires StoreOk(s) && jid in s.cells && s.cells[jid].rec.state.Placing?
    requires s.cells[jid].item == Some(PlaceItem) && !Provisioned(s.cells[jid].trace)
    ensures
      var c := s.cells[jid];
      var after := Next(Next(s, Provision(jid)), Activate(jid));
      && jid in after.cells && after.cells[jid].rec == c.rec.(state := JobState.Running) && after.cells[jid].item.None?
      && c.rec.placement.Some? && after.cells[jid].minted == c.minted + {c.rec.placement.value.provider}
  {
    hide StoreOk, Provisioned, PhaseOf, RefusedSince;
    KnownCell(s, jid);
    PhaseAppend(s.cells[jid].trace, AProvision);
    CompletionOn(s, Provision(jid));
    CompletionOn(Next(s, Provision(jid)), Activate(jid));
  }

  /** Captured and released by two passes and what they start. */
  function CleanUp(s: Store, jid: JobId, first: Step, second: Step, sacrificed: bool): Store {
    Next(Next(Next(Next(s, first), CaptureDone(jid, sacrificed)), second), ReapDone(jid))
  }

  /** What a job ended on is captured and then released, once and for all. */
  lemma {:induction false} EndedJobIsCleanedUp(s: Store, jid: JobId, first: Step, second: Step, sacrificed: bool)
    requires StoreOk(s) && jid in s.cells && Over(s.cells[jid].rec) && s.cells[jid].item.None?
    requires s.cells[jid].rec.placement.Some? && !Kept(s.cells[jid].rec) && !s.cells[jid].rec.reaped
    requires first.Tick? && second.Tick?
    requires Enumerates(first.order, s.cells.Keys) && Enumerates(second.order, s.cells.Keys)
    ensures
      var c := s.cells[jid];
      var after := CleanUp(s, jid, first, second, sacrificed);
      && jid in after.cells && after.cells[jid].item.None?
      && after.cells[jid].rec == c.rec.(logsCached := true, outputsCached := true, reaped := true)
      && after.cells[jid].minted == c.minted - {c.rec.placement.value.provider}
  {
    hide StoreOk, Next, Provisioned, Enumerates;
    TickOn(s, first, jid);
    var s1 := Next(s, first);
    CompletionOn(s1, CaptureDone(jid, sacrificed));
    var s2 := Next(s1, CaptureDone(jid, sacrificed));
    TickOn(s2, second, jid);
    CompletionOn(Next(s2, second), ReapDone(jid));
  }

  /** A lost job is captured, released and queued again with a clean record and a pause. */
  lemma {:induction false} LostJobComesBack(s: Store, jid: JobId, first: Step, second: Step, third: Step,
                                            sacrificed: bool)
    requires StoreOk(s) && jid in s.cells && s.cells[jid].rec.state.Running? && s.cells[jid].item.None?
    requires s.cells[jid].rec.lastStatus == Some(Lost) && !Kept(s.cells[jid].rec) && jid !in s.cancels
    requires s.cells[jid].rec.placement.Some? && s.cells[jid].minted == {s.cells[jid].rec.placement.value.provider}
    requires first.Tick? && second.Tick? && third.Tick? && Enumerates(first.order, s.cells.Keys)
    requires Enumerates(second.order, s.cells.Keys) && Enumerates(third.order, s.cells.Keys)
    ensures
      var c := s.cells[jid];
      var after := Next(CleanUp(s, jid, first, second, sacrificed), third);
      && jid in after.cells && after.cells[jid].item.None? && after.cells[jid].minted == {}
      && after.cells[jid].rec == c.rec.(state := Queued, placement := None, lastStatus := None, logsCached := false,
           outputsCached := false, reaped := false, notBefore := Some(third.now + 30.0))
  {
    hide StoreOk, Next, Provisioned, Enumerates;
    TickOn(s, first, jid);
    var s1 := Next(s, first);
    CompletionOn(s1, CaptureDone(jid, sacrificed));
    var s2 := Next(s1, CaptureDone(jid, sacrificed));
    TickOn(s2, second, jid);
    var s3 := Next(s2, second);
    CompletionOn(s3, ReapDone(jid));
    TickOn(Next(s3, ReapDone(jid)), third, jid);
  }

  // ------------------------------------------------------------------ waiting

  /** No pass places a queued or held job before the time it waits for. */
  lemma {:induction false} NotBeforeItsTime(s: Store, tick: Step, jid: JobId)
    requires StoreOk(s) && tick.Tick? && Enumerates(tick.order, s.cells.Keys) && jid in s.cells
    requires s.cells[jid].rec.state.Pending() && s.cells[jid].rec.notBefore.Some?
    requires tick.now < s.cells[jid].rec.notBefore.value
    ensures jid in Next(s, tick).cells && !Lives(Next(s, tick).cells[jid].rec)
  {
    hide StoreOk, Pass, RecoverAll, RecoverCell, GoodSlot, Becomes, Moves, StatesOf, Rule;
    ReadyOk(s, tick.order, tick.live, tick.adopts, tick.now);
    ReadyCells(s, tick.order, tick.live, tick.adopts, tick.now, jid);
    var ready := Ready(s, tick.order, tick.live, tick.adopts, tick.now);
    CellAfterPassOf(ready, tick.order, tick.slots, tick.now, tick.cfg, jid);
    var after := Pass(ready, tick.order, tick.slots, tick.now, tick.cfg);
    if after.cells[jid].rec.state.Placing? {
      PlacedRightly(ready, tick.order, tick.slots, tick.now, tick.cfg, jid);
    }
    NeverStraightToRunning(ready, tick, jid);
  }

  lemma {:induction false} NeverStraightToRunning(s: Store, tick: Step, jid: JobId)
    requires StoreOk(s) && tick.Tick? && Enumerates(tick.order, s.cells.Keys) && jid in s.cells
    requires s.cells[jid].rec.state.Pending()
    ensures jid in Pass(s, tick.order, tick.slots, tick.now, tick.cfg).cells
    ensures !Pass(s, tick.order, tick.slots, tick.now, tick.cfg).cells[jid].rec.state.Running?
  {
    hide StoreOk, Pass, Rule, StatesOf, DecisionsOn, DecisionsFor, SnapshotOf, Plan.Of;
    var plan, o := PassOutcome(s, tick.order, tick.slots, tick.now, tick.cfg, jid);
  }

  /** A deferred placement is not tried again before its time. */
  lemma {:induction false} DeferredWaits(s: Store, jid: JobId, until: Time, now: Time, tick: Step)
    requires StoreOk(s) && jid in s.cells && s.cells[jid].rec.state.Placing? && s.cells[jid].item == Some(PlaceItem)
    requires tick.Tick? && Enumerates(tick.order, s.cells.Keys) && tick.now < until
    ensures
      var after := Next(Next(s, Defer(jid, until, now)), tick);
      jid in after.cells && !Lives(after.cells[jid].rec)
  {
    hide StoreOk;
    CompletionOn(s, Defer(jid, until, now));
    NotBeforeItsTime(Next(s, Defer(jid, until, now)), tick, jid);
  }

  /** A placement that failed before anything was provisioned: back in the queue, counted if its
      failure counts, with the provider avoided if it is to be. */
  lemma {:induction false} FailedPlacementIsBooked(s: Store, jid: JobId, b: Bookkeeping, now: Time)
    requires StoreOk(s) && jid in s.cells && s.cells[jid].rec.state.Placing? && s.cells[jid].item == Some(PlaceItem)
    requires !Provisioned(s.cells[jid].trace)
    ensures
      var c := s.cells[jid];
      var s' := Next(s, Unwind(jid, Some(b), now));
      && jid in s'.cells && c.rec.placement.Some?
      && var rec := s'.cells[jid].rec;
      && rec.state == Queued && rec.placement.None? && s'.cells[jid].item.None?
      && rec.attempts == c.rec.attempts + (if b.countAttempt.Some? then 1 else 0)
      && rec.lastError == (if b.countAttempt.Some? then b.countAttempt else c.rec.lastError)
      && rec.notBefore == (if b.countAttempt.Some? then Some(b.backoffUntil) else c.rec.notBefore)
      && rec.avoid == (if b.avoidUntil.Some? then c.rec.avoid[c.rec.placement.value.provider := b.avoidUntil.value]
                       else c.rec.avoid)
  {
    hide StoreOk, Provisioned, PhaseOf, RefusedSince;
    KnownCell(s, jid);
    CompletionOn(s, Unwind(jid, Some(b), now));
  }

  /** A counted failure keeps the job off every pass until its backoff is over, and once the
      attempts are used up the next pass gives it up. */
  lemma {:induction false} FailedPlacementWaits(s: Store, jid: JobId, b: Bookkeeping, now: Time, tick: Step)
    requires StoreOk(s) && jid in s.cells && s.cells[jid].rec.state.Placing? && s.cells[jid].item == Some(PlaceItem)
    requires !Provisioned(s.cells[jid].trace) && b.countAttempt.Some?
    requires tick.Tick? && Enumerates(tick.order, s.cells.Keys)
    ensures
      var c := s.cells[jid];
      var after := Next(Next(s, Unwind(jid, Some(b), now)), tick);
      && jid in after.cells
      && (tick.now < b.backoffUntil ==> !Lives(after.cells[jid].rec))
      && (c.rec.attempts + 1 >= tick.cfg.policy.maxAttempts && jid !in s.cancels ==>
        after.cells[jid].rec.state == Failed)
  {
    hide StoreOk, Provisioned, Doomed;
    FailedPlacementIsBooked(s, jid, b, now);
    CompletionOn(s, Unwind(jid, Some(b), now));
    var s1 := Next(s, Unwind(jid, Some(b), now));
    if tick.now < b.backoffUntil {
      NotBeforeItsTime(s1, tick, jid);
    }
    GivenUpByTick(s1, tick, jid);
  }

  lemma {:induction false} GivenUpByTick(s: Store, tick: Step, jid: JobId)
    requires StoreOk(s) && tick.Tick? && Enumerates(tick.order, s.cells.Keys) && jid in s.cells
    requires s.cells[jid].rec.state.Pending() && s.cells[jid].item.None?
    ensures jid in Next(s, tick).cells
    ensures jid !in s.cancels && s.cells[jid].rec.lastError.Some?
            && s.cells[jid].rec.attempts >= tick.cfg.policy.maxAttempts ==>
      Next(s, tick).cells[jid].rec.state == Failed
  {
    hide StoreOk, Pass, RecoverAll, RecoverCell, Doomed;
    ReadyOk(s, tick.order, tick.live, tick.adopts, tick.now);
    ReadyCells(s, tick.order, tick.live, tick.adopts, tick.now, jid);
    var ready := Ready(s, tick.order, tick.live, tick.adopts, tick.now);
    RecoveredCells(Adopt(s, tick.adopts), tick.order, tick.live, tick.now, jid);
    GivenUpIff(ready, tick.order, tick.slots, tick.now, tick.cfg, jid);
  }
}
