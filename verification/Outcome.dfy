/** What one enacted pass makes of one job: nothing, a started item, a requeue, a flag turned,
    a give-up, or a reserve - and when. */
module Outcome {
  import opened Wrappers
  import opened Models
  import opened Scheduler
  import opened PassByJob
  import opened Kernel
  import opened Lifecycle
  import opened Invariant
  import opened PassInvariant

  datatype Outcome =
    | Untouched | Started(kind: WorkKind) | Requeued | HeldNow | Freed | GivenUp | Reserved(d: Decision)

  function OutcomeOf(plan: Plan, rec: Job, goes: bool): Outcome {
    if !goes then
      if plan.ladder == [] then Untouched
      else
        match plan.ladder[0]
        case StartCancel(_) => Started(CancelItem)
        case StartCapture(_) => Started(CaptureItem)
        case StartReap(_) => Started(ReapItem(false))
        case StartRelease(_) => Started(ReapItem(true))
        case Requeue(_) => Requeued
        case _ => Untouched
    else
      match plan.ruling
      case Exhausted => GivenUp
      case DependencyBroken(_) => GivenUp
      case DependencyWait(_) => if rec.state.Queued? then HeldNow else Untouched
      case BackingOff => Untouched
      case NotOffered => if plan.reserve != [] then Reserved(plan.reserve[0]) else Untouched
      case Fitting =>
        if plan.reserve != [] then Reserved(plan.reserve[0])
        else if rec.state.Held? then Freed else Untouched
      case Unsatisfiable => if rec.state.Held? then Untouched else HeldNow
  }

  /** The record, work item and resources after an outcome. */
  predicate Becomes(c: Cell, c': Cell, o: Outcome, now: Time) {
    && c'.minted == c.minted
    && match o
       case Untouched => c' == c
       case Started(kind) => c' == c.(item := Some(kind))
       case Requeued => c'.item == c.item && c'.rec == c.rec.(state := Queued, placement := None, lastStatus := None,
                          logsCached := false, outputsCached := false, reaped := false,
                          notBefore := Some(now + REQUEUE_BACKOFF_S))
       case HeldNow => c'.item == c.item && c'.rec == c.rec.(state := Held)
       case Freed => c'.item == c.item && c'.rec == c.rec.(state := Queued)
       case GivenUp => c'.item == c.item && c'.rec == c.rec.(state := Failed, lastStatus := Some(Broke))
       case Reserved(d) =>
         d.Reserve? && c'.item == Some(PlaceItem)
         && c'.rec == c.rec.(state := Placing, placement :=
              Some(Placement(d.provider, if d.estCost > 0.0 then Some(d.estCost) else None)))
  }

  /** When the ladder or admission reaches each outcome. */
  ghost predicate Warranted(c: Cell, o: Outcome, plan: Plan, cancelAsked: bool, goes: bool) {
    && goes == (c.rec.state.Pending() && c.item.None? && !cancelAsked)
    && match o
       case Untouched => true
       case Started(kind) =>
         if kind.CancelItem? then cancelAsked && !c.rec.state.Terminal() && c.item != Some(CancelItem)
         else c.item.None? && !(cancelAsked && !c.rec.state.Terminal())
              && (if kind.CaptureItem? then (c.rec.state.Terminal() || c.rec.Dead()) && !c.rec.Captured()
                  else if kind == ReapItem(false) then c.rec.state.Terminal() && c.rec.Captured()
                  else kind == ReapItem(true) && c.rec.Dead() && c.rec.Captured() && c.minted != {})
       case Requeued => c.item.None? && c.rec.Dead() && c.rec.Captured() && c.minted == {}
       case HeldNow => goes && c.rec.state.Queued?
       case Freed => goes && c.rec.state.Held?
       case GivenUp => goes
       case Reserved(d) => goes && plan.reserve == [d]
  }

  lemma {:induction false} EnactOne(c: Cell, d: Decision, now: Time)
    ensures EnactCells(c, [d], now) == EnactOnCell(c, d, now)
  {
    hide EnactOnCell;
  }

  lemma EnactTwo(c: Cell, d: Decision, e: Decision, now: Time)
    ensures EnactCells(c, [d, e], now) == EnactOnCell(EnactOnCell(c, d, now), e, now)
  {
    hide EnactOnCell;
    assert [d, e][..1] == [d];
    EnactOne(c, d, now);
  }

  lemma {:induction false} LadderOutcome(c: Cell, plan: Plan, snap: Snapshot, slots: seq<Slot>, now: Time,
                                         policy: SchedPolicy)
    requires PlanFits(plan, c.rec, snap, slots, now, policy) && !GoesToAdmission(c.rec, snap)
    requires var jid := c.rec.spec.jobId;
      && (jid in snap.intents <==> c.item.Some?) && (jid in snap.intents ==> snap.intents[jid] == c.item.value)
      && (jid in snap.unreleased <==> c.minted != {})
    requires CellOk(c.rec.spec.jobId, c)
    ensures
      var o := OutcomeOf(plan, c.rec, false);
      Becomes(c, EnactCells(c, plan.Of(c.rec, false, slots), now), o, now)
      && Warranted(c, o, plan, c.rec.spec.jobId in snap.cancels, false)
  {
    hide Rule, StatesOf, PhaseOf, Provisioned;
    assert plan.Of(c.rec, false, slots) == plan.ladder;
    if plan.ladder != [] {
      assert plan.ladder == [plan.ladder[0]];
      EnactOne(c, plan.ladder[0], now);
    }
  }

  lemma {:induction false} RulingOutcome(c: Cell, plan: Plan, slots: seq<Slot>, now: Time)
    requires plan.ladder == [] && plan.reserve == [] && c.rec.state.Pending()
    ensures Becomes(c, EnactCells(c, plan.Of(c.rec, true, slots), now), OutcomeOf(plan, c.rec, true), now)
  {
    hide ShortestUnfit;
    var ds := RulingDecisions(c.rec, plan.ruling, slots);
    assert plan.Of(c.rec, true, slots) == ds;
    if ds != [] {
      assert ds == [ds[0]];
      EnactOne(c, ds[0], now);
    }
  }

  lemma ReserveOutcome(c: Cell, plan: Plan, r: Decision, slots: seq<Slot>, now: Time)
    requires plan.ladder == [] && plan.reserve == [r] && r.Reserve? && Admitted(plan.ruling)
    requires c.rec.state.Pending()
    ensures Becomes(c, EnactCells(c, plan.Of(c.rec, true, slots), now), Reserved(r), now)
  {
    hide ShortestUnfit, EnactCells;
    var ds := RulingDecisions(c.rec, plan.ruling, slots);
    if ds == [] {
      assert plan.Of(c.rec, true, slots) == [r];
      EnactOne(c, r, now);
    } else {
      assert plan.Of(c.rec, true, slots) == [ds[0], r];
      EnactTwo(c, ds[0], r, now);
    }
  }

  lemma AdmissionOutcome(c: Cell, plan: Plan, snap: Snapshot, slots: seq<Slot>, now: Time, policy: SchedPolicy)
    requires PlanFits(plan, c.rec, snap, slots, now, policy) && GoesToAdmission(c.rec, snap)
    requires c.rec.spec.jobId in snap.intents <==> c.item.Some?
    ensures
      var o := OutcomeOf(plan, c.rec, true);
      Becomes(c, EnactCells(c, plan.Of(c.rec, true, slots), now), o, now)
      && Warranted(c, o, plan, c.rec.spec.jobId in snap.cancels, true)
  {
    hide Rule, StatesOf, EnactCells, RulingDecisions, Becomes, Plan.Of;
    assert plan.ladder == [];
    if plan.reserve == [] {
      RulingOutcome(c, plan, slots, now);
    } else {
      assert plan.reserve[0] in plan.reserve && plan.reserve == [plan.reserve[0]];
      ReserveOutcome(c, plan, plan.reserve[0], slots, now);
    }
  }

  /** The outcome of a pass for each job of a sound store. */
  lemma {:induction false} PassOutcome(s: Store, order: seq<JobId>, slots: seq<Slot>, now: Time, cfg: Config,
                                       jid: JobId)
    returns (plan: Plan, o: Outcome)
    requires StoreOk(s) && Enumerates(order, s.cells.Keys) && jid in s.cells
    ensures PlanFits(plan, s.cells[jid].rec, SnapshotOf(s, order), slots, now, cfg.policy)
    ensures o == OutcomeOf(plan, s.cells[jid].rec, GoesToAdmission(s.cells[jid].rec, SnapshotOf(s, order)))
    ensures Pass(s, order, slots, now, cfg).cells.Keys == s.cells.Keys
    ensures Becomes(s.cells[jid], Pass(s, order, slots, now, cfg).cells[jid], o, now)
    ensures Warranted(s.cells[jid], o, plan, jid in s.cancels, GoesToAdmission(s.cells[jid].rec, SnapshotOf(s, order)))
    ensures DecisionsFor(DecisionsOn(s, order, slots, now, cfg), jid)
      == plan.Of(s.cells[jid].rec, GoesToAdmission(s.cells[jid].rec, SnapshotOf(s, order)), slots)
  {
    hide StoreOk, OutcomeOf, Becomes, Warranted, PlanFits, EnactCells, Pass, SnapshotOf, Plan.Of, GoesToAdmission,
      DecisionsOn, DecisionsFor;
    var c := s.cells[jid];
    KnownCell(s, jid);
    KnownId(s, jid);
    plan := PlanOfJob(s, order, slots, now, cfg, jid);
    CellAfterPassOf(s, order, slots, now, cfg, jid);
    SnapshotOfJob(s, order, jid);
    var snap := SnapshotOf(s, order);
    o := OutcomeOf(plan, c.rec, GoesToAdmission(c.rec, snap));
    if GoesToAdmission(c.rec, snap) {
      AdmissionOutcome(c, plan, snap, slots, now, cfg.policy);
    } else {
      LadderOutcome(c, plan, snap, slots, now, cfg.policy);
    }
  }

  lemma {:induction false} CellAfterPassOf(s: Store, order: seq<JobId>, slots: seq<Slot>, now: Time, cfg: Config,
                                           jid: JobId)
    requires Enumerates(order, s.cells.Keys) && jid in s.cells
    ensures Pass(s, order, slots, now, cfg).cells.Keys == s.cells.Keys
    ensures Pass(s, order, slots, now, cfg).cancels == s.cancels
    ensures Pass(s, order, slots, now, cfg).cells[jid]
      == EnactCells(s.cells[jid], DecisionsFor(DecisionsOn(s, order, slots, now, cfg), jid), now)
  {
    hide DecisionsOn, EnactAll, EnactCells;
    CellAfter(s, DecisionsOn(s, order, slots, now, cfg), now, jid);
  }
}
