/** A pass and its enactment, job by job: what becomes of each job's rows, and that the pass
    keeps the invariant of the store. */
module PassInvariant {
  import opened Wrappers
  import opened Models
  import opened Scheduler
  import opened PassByJob
  import opened Kernel
  import opened Lifecycle
  import opened Invariant

  function EnactCells(c: Cell, ds: seq<Decision>, now: Time): Cell {
    if ds == [] then c else EnactOnCell(EnactCells(c, ds[..|ds| - 1], now), ds[|ds| - 1], now)
  }

  /** Enacting a decision list changes a job's rows as its own decisions alone would. */
  lemma {:induction false} CellAfter(s: Store, ds: seq<Decision>, now: Time, jid: JobId)
    ensures EnactAll(s, ds, now).cells.Keys == s.cells.Keys
    ensures EnactAll(s, ds, now).cancels == s.cancels
    ensures jid in s.cells ==> EnactAll(s, ds, now).cells[jid] == EnactCells(s.cells[jid], DecisionsFor(ds, jid), now)
  {
    hide EnactOnCell, Enact, DecisionsFor;
    if ds == [] {
      assert DecisionsFor([], jid) == [] by {
        NoDecisions(jid);
      }
    } else {
      var n := |ds| - 1;
      CellAfter(s, ds[..n], now, jid);
      assert ds == ds[..n] + [ds[n]];
      DecisionsForConcat(ds[..n], [ds[n]], jid);
      AllOrNone([ds[n]], ds[n].jobId, jid);
      var mine := DecisionsFor(ds[..n], jid);
      assert (mine + [ds[n]])[..|mine|] == mine && mine + [] == mine;
      EnactFrame(EnactAll(s, ds[..n], now), ds[n], now);
    }
  }

  lemma NoDecisions(jid: JobId)
    ensures DecisionsFor([], jid) == []
  {
  }

  lemma {:induction false} EnactFrame(s: Store, d: Decision, now: Time)
    ensures Enact(s, d, now).cells == if d.jobId in s.cells
      then s.cells[d.jobId := EnactOnCell(s.cells[d.jobId], d, now)] else s.cells
    ensures Enact(s, d, now).cancels == s.cancels
  {
    hide EnactOnCell;
  }

  // ------------------------------------------------------------------ the plan for one job

  /** What one pass plans for one job. */
  datatype Plan = Plan(ladder: seq<Decision>, ruling: Ruling, reserve: seq<Decision>) {
    function Of(rec: Job, goes: bool, slots: seq<Slot>): seq<Decision> {
      ladder + (if goes then RulingDecisions(rec, ruling, slots) else []) + reserve
    }
  }

  lemma {:induction false} SnapshotIsUnique(s: Store, order: seq<JobId>)
    requires StoreOk(s) && Enumerates(order, s.cells.Keys)
    ensures UniqueIds(SnapshotOf(s, order).jobs)
    ensures forall i :: 0 <= i < |order| ==> SnapshotOf(s, order).jobs[i].spec.jobId == order[i]
  {
    hide RowsMatch, LedgerOk;
    forall i | 0 <= i < |order| ensures SnapshotOf(s, order).jobs[i].spec.jobId == order[i] {
      assert CellOk(order[i], s.cells[order[i]]);
    }
  }

  ghost predicate PlanFits(plan: Plan, rec: Job, snap: Snapshot, slots: seq<Slot>, now: Time, policy: SchedPolicy) {
    && plan.ladder == Triage(rec, snap)
    && plan.ruling == Rule(rec, StatesOf(snap.jobs), slots, now, policy)
    && |plan.reserve| <= 1
    && (forall d :: d in plan.reserve ==> d.Reserve? && d.jobId == rec.spec.jobId)
    && (plan.reserve != [] ==> GoesToAdmission(rec, snap) && Admitted(plan.ruling))
  }

  lemma {:induction false} PlanOfJob(s: Store, order: seq<JobId>, slots: seq<Slot>, now: Time, cfg: Config, jid: JobId)
    returns (plan: Plan)
    requires StoreOk(s) && Enumerates(order, s.cells.Keys) && jid in s.cells
    ensures PlanFits(plan, s.cells[jid].rec, SnapshotOf(s, order), slots, now, cfg.policy)
    ensures DecisionsFor(DecisionsOn(s, order, slots, now, cfg), jid)
      == plan.Of(s.cells[jid].rec, GoesToAdmission(s.cells[jid].rec, SnapshotOf(s, order)), slots)
  {
    hide StoreOk, Triage, Rule, RulingDecisions, Schedule, UniqueIds, StatesOf, DecisionsFor, GoesToAdmission,
      WalletOf, SnapshotOf;
    var snap := SnapshotOf(s, order);
    SnapshotIsUnique(s, order);
    var i :| 0 <= i < |order| && order[i] == jid;
    assert snap.jobs[i] == s.cells[jid].rec by {
      SnapshotAt(s, order, i);
    }
    var reserve := DecisionsOfJob(snap, slots, WalletOf(s, cfg, now), now, cfg.policy, i);
    plan := Plan(Triage(snap.jobs[i], snap), Rule(snap.jobs[i], StatesOf(snap.jobs), slots, now, cfg.policy), reserve);
  }

  lemma SnapshotAt(s: Store, order: seq<JobId>, i: nat)
    requires Enumerates(order, s.cells.Keys) && i < |order|
    ensures |SnapshotOf(s, order).jobs| == |order| && SnapshotOf(s, order).jobs[i] == s.cells[order[i]].rec
  {
  }

  /** What the snapshot says of a job's work item, resources and cancel request. */
  lemma SnapshotOfJob(s: Store, order: seq<JobId>, jid: JobId)
    requires Enumerates(order, s.cells.Keys) && jid in s.cells
    ensures var snap := SnapshotOf(s, order);
      && (jid in snap.intents <==> s.cells[jid].item.Some?)
      && (jid in snap.intents ==> snap.intents[jid] == s.cells[jid].item.value)
      && (jid in snap.unreleased <==> s.cells[jid].minted != {})
      && snap.cancels == s.cancels
  {
  }

  // ------------------------------------------------------------------ enacting keeps a job's rows

  /** The decisions whose enactment does not itself check everything the rows need. */
  predicate Legit(c: Cell, d: Decision) {
    match d
    case Requeue(_) => c.rec.Captured() && c.item.None?
    case StartCapture(_) => c.rec.state.Running? || c.rec.state.Terminal()
    case StartReap(_) => (c.rec.state.Running? || c.rec.state.Terminal()) && c.rec.Captured()
    case StartRelease(_) => (c.rec.state.Running? || c.rec.state.Terminal()) && c.rec.Captured()
    case _ => true
  }

  lemma {:induction false} ReservedOk(jid: JobId, c: Cell, d: Decision, now: Time)
    requires CellOk(jid, c) && d.Reserve?
    ensures CellOk(jid, EnactOnCell(c, d, now))
  {
    hide PhaseOf, Provisioned, RefusedSince;
    PhaseAppend(c.trace, AReserve);
  }

  lemma {:induction false} RequeuedOk(jid: JobId, c: Cell, d: Decision, now: Time)
    requires CellOk(jid, c) && d.Requeue? && Legit(c, d)
    ensures CellOk(jid, EnactOnCell(c, d, now))
  {
    hide PhaseOf, Provisioned, RefusedSince;
    PhaseAppend(c.trace, ARequeue);
  }

  lemma {:induction false} RuledOk(jid: JobId, c: Cell, d: Decision, now: Time)
    requires CellOk(jid, c) && (d.Hold? || d.Unhold? || d.Fail?)
    ensures CellOk(jid, EnactOnCell(c, d, now))
  {
    hide PhaseOf, Provisioned, RefusedSince;
    PhaseAppend(c.trace, AHold);
    PhaseAppend(c.trace, AUnhold);
    PhaseAppend(c.trace, AFail);
  }

  lemma {:induction false} EnactedOk(jid: JobId, c: Cell, d: Decision, now: Time)
    requires CellOk(jid, c) && Legit(c, d)
    ensures CellOk(jid, EnactOnCell(c, d, now))
  {
    if d.Reserve? {
      ReservedOk(jid, c, d, now);
    } else if d.Requeue? {
      RequeuedOk(jid, c, d, now);
    } else if d.Hold? || d.Unhold? || d.Fail? {
      RuledOk(jid, c, d, now);
    } else {
      hide PhaseOf, Provisioned, RefusedSince;
    }
  }

  /** The reserved estimate of a job changes only with a reserve or a requeue. */
  lemma PaidAfterEnact(c: Cell, d: Decision, now: Time)
    ensures EnactOnCell(c, d, now).LivePaid() ==
      if d.Reserve? && c.rec.state.Pending() then (if d.estCost > 0.0 then Some(d.estCost) else None)
      else if d.Requeue? && c.minted == {} && c.rec.state.Running? then None
      else c.LivePaid()
  {
  }

  lemma {:induction false} EnactKeeps(s: Store, d: Decision, now: Time)
    requires StoreOk(s)
    requires d.jobId in s.cells ==> Legit(s.cells[d.jobId], d)
    ensures StoreOk(Enact(s, d, now))
  {
    hide StoreOk, PaidOf, CellOk, Cell.LivePaid, EnactOnCell, Legit;
    var jid := d.jobId;
    if jid in s.cells {
      KnownCell(s, jid);
      var c := s.cells[jid];
      EnactedOk(jid, c, d, now);
      PaidAfterEnact(c, d, now);
      var c' := EnactOnCell(c, d, now);
      if d.Reserve? && c.rec.state.Pending() {
        assert c.LivePaid().None? by {
          PendingIsUnpaid(c);
        }
        if d.estCost > 0.0 {
          PutCommits(s, jid, c', d.provider, d.estCost, now);
        } else {
          PutKeeps(s, jid, c');
        }
      } else if d.Requeue? && c.minted == {} && c.rec.state.Running? {
        PutSettles(s, jid, c', 0.0, now);
      } else {
        PutKeeps(s, jid, c');
      }
    }
  }

  lemma PendingIsUnpaid(c: Cell)
    requires c.rec.state.Pending()
    ensures c.LivePaid().None?
  {
  }

  // ------------------------------------------------------------------ the pass keeps the invariant

  predicate Guarded(d: Decision) {
    d.Requeue? || d.StartCapture? || d.StartReap? || d.StartRelease?
  }

  /** A guarded decision is the ladder's, is the job's only one, and finds the rows it needs. */
  lemma {:induction false} GuardedIsAlone(s: Store, order: seq<JobId>, slots: seq<Slot>, now: Time, cfg: Config,
                                          d: Decision)
    requires StoreOk(s) && Enumerates(order, s.cells.Keys) && d.jobId in s.cells && Guarded(d)
    requires d in DecisionsFor(DecisionsOn(s, order, slots, now, cfg), d.jobId)
    ensures DecisionsFor(DecisionsOn(s, order, slots, now, cfg), d.jobId) == [d]
    ensures Legit(s.cells[d.jobId], d)
    ensures d.Requeue? ==> s.cells[d.jobId].rec.Dead() && s.cells[d.jobId].minted == {}
  {
    hide StoreOk, Rule, DecisionsFor, DecisionsOn, SnapshotOf, StatesOf;
    var plan := PlanOfJob(s, order, slots, now, cfg, d.jobId);
    SnapshotOfJob(s, order, d.jobId);
    KnownId(s, d.jobId);
  }

  lemma {:induction false} KnownId(s: Store, jid: JobId)
    requires StoreOk(s) && jid in s.cells
    ensures s.cells[jid].rec.spec.jobId == jid
  {
    assert CellOk(jid, s.cells[jid]);
  }

  lemma {:induction false} PassPrefixKeeps(s: Store, order: seq<JobId>, slots: seq<Slot>, now: Time, cfg: Config,
                                           k: nat)
    requires StoreOk(s) && Enumerates(order, s.cells.Keys) && k <= |DecisionsOn(s, order, slots, now, cfg)|
    ensures StoreOk(EnactAll(s, DecisionsOn(s, order, slots, now, cfg)[..k], now))
  {
    hide StoreOk, DecisionsOn, Enact, EnactOnCell, DecisionsFor;
    if k > 0 {
      PassPrefixKeeps(s, order, slots, now, cfg, k - 1);
      var ds := DecisionsOn(s, order, slots, now, cfg);
      var d := ds[k - 1];
      assert ds[..k][..k - 1] == ds[..k - 1];
      var before := EnactAll(s, ds[..k - 1], now);
      CellAfter(s, ds[..k - 1], now, d.jobId);
      if d.jobId in s.cells && Guarded(d) {
        InOwnDecisions(ds, k - 1);
        GuardedIsAlone(s, order, slots, now, cfg, d);
        SplitOwn(ds, k - 1);
        assert DecisionsFor(ds[..k - 1], d.jobId) == [];
      }
      EnactKeeps(before, d, now);
    }
  }

  lemma InOwnDecisions(ds: seq<Decision>, k: nat)
    requires k < |ds|
    ensures ds[k] in DecisionsFor(ds, ds[k].jobId)
  {
  }

  /** A job with one decision in all has none before it. */
  lemma SplitOwn(ds: seq<Decision>, k: nat)
    requires k < |ds| && DecisionsFor(ds, ds[k].jobId) == [ds[k]]
    ensures DecisionsFor(ds[..k], ds[k].jobId) == []
  {
    hide DecisionsFor;
    var jid := ds[k].jobId;
    assert ds == ds[..k] + [ds[k]] + ds[k + 1..];
    DecisionsForConcat(ds[..k] + [ds[k]], ds[k + 1..], jid);
    DecisionsForConcat(ds[..k], [ds[k]], jid);
    AllOrNone([ds[k]], jid, jid);
    assert |DecisionsFor(ds[..k], jid)| + 1 + |DecisionsFor(ds[k + 1..], jid)| == 1;
  }

  lemma {:induction false} PassKeeps(s: Store, order: seq<JobId>, slots: seq<Slot>, now: Time, cfg: Config)
    requires StoreOk(s) && Enumerates(order, s.cells.Keys)
    ensures StoreOk(Pass(s, order, slots, now, cfg))
  {
    hide StoreOk, DecisionsOn;
    var ds := DecisionsOn(s, order, slots, now, cfg);
    assert ds[..|ds|] == ds;
    PassPrefixKeeps(s, order, slots, now, cfg, |ds|);
  }

}
