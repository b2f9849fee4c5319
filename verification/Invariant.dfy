/** What every run keeps: the shape of each job's rows, its event log on the lifecycle, and
    the ledger rows in step with the live paid placements. */
module Invariant {
  import opened Wrappers
  import opened Models
  import opened Budget
  import opened Kernel
  import opened Lifecycle

  // ------------------------------------------------------------------ one job's rows

  /** The record, the work item and the log agree on where the job is. */
  predicate CellOk(jid: JobId, c: Cell) {
    var rec, st := c.rec, c.rec.state;
    && rec.spec.jobId == jid
    && (st.Pending() ==> rec.placement.None? && (c.item.None? || c.item.value.CancelItem?))
    && (st.Pending() || st.Placing? ==> !rec.Captured() && !rec.reaped)
    && (st.Active() ==> rec.placement.Some?)
    && (st.Placing? ==>
          c.item == Some(PlaceItem) || c.item == Some(CancelItem) || (c.item.None? && RefusedSince(c.trace)))
    && (c.item == Some(PlaceItem) ==> st.Placing?)
    && (c.item == Some(CaptureItem) ==> st.Running? || st.Terminal())
    && (c.item.Some? && c.item.value.ReapItem? ==> (st.Running? || st.Terminal()) && rec.Captured())
    && (rec.lastStatus == Some(Lost) ==> st.Running?)
    && (rec.placement.Some? && rec.placement.value.costActual.Some? ==> rec.placement.value.costActual.value > 0.0)
    && PhaseOf(c.trace) == At(st, Provisioned(c.trace), rec.Captured(), rec.reaped)
  }

  // ------------------------------------------------------------------ ledger rows

  predicate SoleCommitted(rows: seq<Entry>, jid: JobId, i: nat) {
    && i < |rows| && IsCommitted(rows[i], jid)
    && forall k :: 0 <= k < |rows| && IsCommitted(rows[k], jid) ==> k == i
  }

  /** The job's open reservations: none, or exactly one of the amount its placement carries. */
  ghost predicate RowsMatch(rows: seq<Entry>, jid: JobId, paid: Option<real>) {
    if paid.None? then !HasCommitted(rows, jid)
    else exists i: nat :: SoleCommitted(rows, jid, i) && rows[i].amount == paid.value
  }

  function PaidOf(s: Store, jid: JobId): Option<real> {
    if jid in s.cells then s.cells[jid].LivePaid() else None
  }

  ghost predicate LedgerOk(s: Store) {
    s.day == s.week && forall jid :: RowsMatch(s.day, jid, PaidOf(s, jid))
  }

  ghost predicate StoreOk(s: Store) {
    (forall jid :: jid in s.cells ==> CellOk(jid, s.cells[jid])) && LedgerOk(s)
  }

  lemma AppendRow(rows: seq<Entry>, e: Entry, jid: JobId, paid: Option<real>)
    requires RowsMatch(rows, jid, paid) && (IsCommitted(e, jid) ==> paid.None?)
    ensures RowsMatch(rows + [e], jid, if IsCommitted(e, jid) then Some(e.amount) else paid)
  {
    var after := rows + [e];
    if IsCommitted(e, jid) {
      forall k | 0 <= k < |rows| ensures !IsCommitted(after[k], jid) {
        assert after[k] == rows[k];
      }
      assert SoleCommitted(after, jid, |rows|);
    } else if paid.Some? {
      var i: nat :| SoleCommitted(rows, jid, i) && rows[i].amount == paid.value;
      assert SoleCommitted(after, jid, i);
    } else {
      forall k | 0 <= k < |after| ensures !IsCommitted(after[k], jid) {
        assert k < |rows| ==> after[k] == rows[k];
      }
    }
  }

  /** Settling a job with its one reservation open closes it and touches no other job. */
  lemma SettleRow(rows: seq<Entry>, owner: JobId, amount: real, now: Time, jid: JobId, paid: Option<real>)
    requires RowsMatch(rows, jid, paid)
    requires exists i: nat :: SoleCommitted(rows, owner, i)
    ensures RowsMatch(RealizeRows(rows, owner, amount, now), jid, if jid == owner then None else paid)
  {
    var i: nat :| SoleCommitted(rows, owner, i);
    var after := RealizeRows(rows, owner, amount, now);
    assert EarliestCommitted(rows, owner) == Some(i);
    assert forall k :: 0 <= k < |rows| && k != i ==> after[k] == rows[k];
    if jid == owner {
      forall k | 0 <= k < |after| ensures !IsCommitted(after[k], jid) {
        assert k != i ==> after[k] == rows[k];
      }
    } else if paid.Some? {
      var q: nat :| SoleCommitted(rows, jid, q) && rows[q].amount == paid.value;
      assert SoleCommitted(after, jid, q);
    } else {
      forall k | 0 <= k < |after| ensures !IsCommitted(after[k], jid) {
        assert k != i ==> !IsCommitted(rows[k], jid);
      }
    }
  }

  // ------------------------------------------------------------------ local changes

  /** `s'` is `s` with one job's rows rewritten consistently. */
  lemma {:induction false} PutKeeps(s: Store, jid: JobId, c: Cell)
    requires StoreOk(s) && CellOk(jid, c) && c.LivePaid() == PaidOf(s, jid)
    ensures StoreOk(s.Put(jid, c))
  {
    hide CellOk, RowsMatch, Cell.LivePaid;
    var s' := s.Put(jid, c);
    forall j ensures RowsMatch(s'.day, j, PaidOf(s', j)) {
      assert PaidOf(s', j) == PaidOf(s, j);
    }
  }

  lemma PutSettles(s: Store, jid: JobId, c: Cell, amount: real, now: Time)
    requires StoreOk(s) && CellOk(jid, c) && c.LivePaid().None?
    ensures StoreOk(s.Put(jid, c).SettleIf(PaidOf(s, jid), jid, amount, now))
  {
    hide CellOk, Cell.LivePaid;
    var paid := PaidOf(s, jid);
    if paid.None? {
      PutKeeps(s, jid, c);
    } else {
      var s' := s.Put(jid, c).Settle(jid, amount, now);
      assert RowsMatch(s.day, jid, paid);
      forall j ensures RowsMatch(s'.day, j, PaidOf(s', j)) {
        SettleRow(s.day, jid, amount, now, j, PaidOf(s, j));
        assert PaidOf(s', j) == if j == jid then None else PaidOf(s, j);
      }
    }
  }

  lemma PutCommits(s: Store, jid: JobId, c: Cell, provider: string, amount: real, now: Time)
    requires StoreOk(s) && CellOk(jid, c) && PaidOf(s, jid).None? && c.LivePaid() == Some(amount)
    ensures StoreOk(s.Put(jid, c).Commit(jid, provider, amount, now))
  {
    hide CellOk, RowsMatch, Cell.LivePaid;
    var e := Entry(jid, provider, amount, Committed, now);
    var s' := s.Put(jid, c).Commit(jid, provider, amount, now);
    forall j ensures RowsMatch(s'.day, j, PaidOf(s', j)) {
      AppendRow(s.day, e, j, PaidOf(s, j));
      assert PaidOf(s', j) == if j == jid then Some(amount) else PaidOf(s, j);
    }
  }

  /** Cancel requests are no part of the invariant. */
  lemma CancelsAreFree(s: Store, cancels: set<JobId>)
    requires StoreOk(s)
    ensures StoreOk(s.(cancels := cancels))
  {
    hide CellOk, RowsMatch;
    var s' := s.(cancels := cancels);
    forall j ensures RowsMatch(s'.day, j, PaidOf(s', j)) {
      assert PaidOf(s', j) == PaidOf(s, j);
    }
  }

  // ------------------------------------------------------------------ one job's steps

  lemma {:induction false} ProvisionedOk(jid: JobId, c: Cell)
    requires CellOk(jid, c)
    ensures CellOk(jid, ProvisionCell(c)) && ProvisionCell(c).LivePaid() == c.LivePaid()
  {
    hide PhaseOf, Provisioned, RefusedSince;
    PhaseAppend(c.trace, AProvision);
  }

  lemma {:induction false} ActivatedOk(jid: JobId, c: Cell)
    requires CellOk(jid, c)
    ensures CellOk(jid, ActivateCell(c)) && ActivateCell(c).LivePaid() == c.LivePaid()
  {
    hide PhaseOf, Provisioned, RefusedSince;
    PhaseAppend(c.trace, AActivate);
  }

  lemma {:induction false} DeferredOk(jid: JobId, c: Cell, until: Time)
    requires CellOk(jid, c) && PlaceUnderWay(c)
    ensures CellOk(jid, DeferCell(c, until)) && DeferCell(c, until).LivePaid().None?
  {
    hide PhaseOf, Provisioned, RefusedSince;
    PhaseAppend(c.trace, ARollback);
  }

  lemma BookFrame(rec: Job, b: Bookkeeping)
    ensures var r := Book(rec, b);
      && r.spec == rec.spec && r.state == rec.state && r.placement == rec.placement && r.lastStatus == rec.lastStatus
      && r.logsCached == rec.logsCached && r.outputsCached == rec.outputsCached && r.reaped == rec.reaped
  {
  }

  lemma {:induction false} UnwoundOk(jid: JobId, c: Cell, booked: Option<Bookkeeping>)
    requires CellOk(jid, c) && c.rec.state.Placing?
    ensures CellOk(jid, UnwindCell(c, booked))
    ensures UnwindCell(c, booked).LivePaid() == if Provisioned(c.trace) then c.LivePaid() else None
    ensures !UnwindCell(c, booked).rec.state.Terminal() && !UnwindCell(c, booked).rec.state.Placing?
  {
    hide Book, PhaseOf, Provisioned, RefusedSince;
    if booked.Some? {
      BookFrame(c.rec, booked.value);
    }
    PhaseAppend(c.trace, AActivate);
    PhaseAppend(c.trace, ARollback);
  }

  lemma {:induction false} CapturedOk(jid: JobId, c: Cell, sacrificed: bool)
    requires CellOk(jid, c)
    ensures CellOk(jid, CaptureCell(c, sacrificed)) && CaptureCell(c, sacrificed).LivePaid() == c.LivePaid()
  {
    hide PhaseOf, Provisioned, RefusedSince;
    var noted := if sacrificed then c.Log(ACaptureSacrificed) else c;
    PhaseAppend(c.trace, ACaptureSacrificed);
    PhaseAppend(noted.trace, ACapture);
  }

  lemma {:induction false} ReapedOk(jid: JobId, c: Cell)
    requires CellOk(jid, c)
    ensures CellOk(jid, ReapCell(c)) && ReapCell(c).LivePaid() == c.LivePaid()
  {
    hide PhaseOf, Provisioned, RefusedSince;
    if c.item.Some? && c.item.value.ReapItem? {
      if c.item.value.lost {
        PhaseAppend(c.trace, AReleaseLost);
      } else {
        PhaseAppend(c.trace, AReap);
      }
    }
  }

  lemma {:induction false} CancelledOk(jid: JobId, c: Cell)
    requires CellOk(jid, c) && !c.rec.state.Terminal() && !c.rec.state.Placing?
    ensures CellOk(jid, CancelCell(c)) && CancelCell(c).LivePaid().None?
  {
    hide PhaseOf, Provisioned, RefusedSince;
    PhaseAppend(c.trace, ACancel);
  }

  lemma {:induction false} CancelRefusedOk(jid: JobId, c: Cell)
    requires CellOk(jid, c)
    ensures CellOk(jid, c.(item := None).Log(ACancelFailed))
  {
    hide PhaseOf, Provisioned, RefusedSince;
    PhaseAppend(c.trace, ACancelFailed);
    RefusedAppend(c.trace, ACancelFailed);
  }

  lemma {:induction false} RecoveredOk(jid: JobId, c: Cell)
    requires CellOk(jid, c) && c.rec.state.Placing? && c.item.None?
    ensures CellOk(jid, RecoverCell(c)) && RecoverCell(c).LivePaid().None?
  {
    hide PhaseOf, Provisioned, RefusedSince;
    PhaseAppend(c.trace, ARollback);
  }

  lemma {:induction false} FinishedOk(jid: JobId, c: Cell, ok: bool)
    requires CellOk(jid, c) && c.rec.state.Running?
    ensures CellOk(jid, FinishCell(c, ok)) && FinishCell(c, ok).LivePaid().None?
  {
    hide PhaseOf, Provisioned, RefusedSince;
    PhaseAppend(c.trace, AFinish(ok));
  }

  lemma {:induction false} DeadOk(jid: JobId, c: Cell)
    requires CellOk(jid, c)
    ensures CellOk(jid, DeadCell(c)) && DeadCell(c).LivePaid() == c.LivePaid()
  {
    hide PhaseOf, Provisioned, RefusedSince;
    PhaseAppend(c.trace, AWorkerDead);
  }

  lemma {:induction false} NewOk(spec: JobSpec, at: Time)
    ensures CellOk(spec.jobId, NewCell(spec, at)) && NewCell(spec, at).LivePaid().None?
  {
    PhaseAppend([], ASubmit);
    assert [] + [ASubmit] == [ASubmit];
  }

  // ------------------------------------------------------------------ the store's steps

  lemma KnownCell(s: Store, jid: JobId)
    requires StoreOk(s) && jid in s.cells
    ensures CellOk(jid, s.cells[jid]) && PaidOf(s, jid) == s.cells[jid].LivePaid()
  {
  }

  lemma {:induction false} UnwindKeeps(s: Store, jid: JobId, booked: Option<Bookkeeping>, now: Time)
    requires StoreOk(s) && jid in s.cells && s.cells[jid].rec.state.Placing?
    ensures StoreOk(UnwindStore(s, jid, booked, now))
    ensures jid in UnwindStore(s, jid, booked, now).cells
    ensures UnwindStore(s, jid, booked, now).cells[jid] == UnwindCell(s.cells[jid], booked)
  {
    hide StoreOk, PaidOf, UnwindCell, CellOk, Cell.LivePaid;
    KnownCell(s, jid);
    UnwoundOk(jid, s.cells[jid], booked);
    var c' := UnwindCell(s.cells[jid], booked);
    if Provisioned(s.cells[jid].trace) {
      PutKeeps(s, jid, c');
    } else {
      PutSettles(s, jid, c', 0.0, now);
    }
  }

  lemma CancelKeeps(s: Store, jid: JobId, now: Time)
    requires StoreOk(s) && jid in s.cells
    requires !s.cells[jid].rec.state.Terminal() && !s.cells[jid].rec.state.Placing?
    ensures StoreOk(CancelStore(s, jid, now))
  {
    hide StoreOk, PaidOf, CancelCell, CellOk, Cell.LivePaid;
    KnownCell(s, jid);
    CancelledOk(jid, s.cells[jid]);
    var paid := PaidOf(s, jid);
    PutSettles(s, jid, CancelCell(s.cells[jid]), if paid.Some? then paid.value else 0.0, now);
  }

  lemma CancelDoneKeeps(s: Store, jid: JobId, now: Time)
    requires StoreOk(s) && jid in s.cells
    ensures StoreOk(CancelDoneStore(s, jid, now))
  {
    hide StoreOk, PaidOf, UnwindStore, CancelStore, UnwindCell;
    KnownCell(s, jid);
    var c := s.cells[jid];
    if c.item == Some(CancelItem) {
      if c.rec.state.Terminal() {
        PutKeeps(s, jid, c.(item := None));
        CancelsAreFree(s.Put(jid, c.(item := None)), s.cancels - {jid});
      } else {
        if c.rec.state.Placing? {
          UnwindKeeps(s, jid, None, now);
          UnwoundOk(jid, c, None);
        }
        var settled := if c.rec.state.Placing? then UnwindStore(s, jid, None, now) else s;
        CancelKeeps(settled, jid, now);
        CancelsAreFree(CancelStore(settled, jid, now), s.cancels - {jid});
      }
    }
  }

  lemma CancelFailsKeeps(s: Store, jid: JobId)
    requires StoreOk(s) && jid in s.cells
    ensures StoreOk(CancelFailsStore(s, jid))
  {
    hide StoreOk, PaidOf, CellOk;
    KnownCell(s, jid);
    var c := s.cells[jid];
    if c.item == Some(CancelItem) {
      CancelRefusedOk(jid, c);
      var c' := c.(item := None).Log(ACancelFailed);
      PutKeeps(s, jid, c');
      CancelsAreFree(s.Put(jid, c'), s.cancels - {jid});
    }
  }

  /** Every completion keeps the invariant. */
  lemma {:induction false} StepOnKeeps(s: Store, step: Step)
    requires StoreOk(s)
    requires !step.Submit? && !step.AskCancel? && !step.Tick? && !step.Restart? && step.jid in s.cells
    ensures StoreOk(StepOn(s, step))
  {
    hide StoreOk, PaidOf, CellOk, Cell.LivePaid, ProvisionCell, ActivateCell, DeferCell, UnwindStore, CaptureCell,
      ReapCell,
      CancelDoneStore, CancelFailsStore, FinishCell, DeadCell, ShowCell;
    var jid := step.jid;
    KnownCell(s, jid);
    var c := s.cells[jid];
    var paid := PaidOf(s, jid);
    match step
    case Provision(_) => ProvisionedOk(jid, c); PutKeeps(s, jid, ProvisionCell(c));
    case Activate(_) => ActivatedOk(jid, c); PutKeeps(s, jid, ActivateCell(c));
    case Unwind(_, booked, now) => if PlaceUnderWay(c) { UnwindKeeps(s, jid, booked, now); }
    case Defer(_, until, now) =>
      if PlaceUnderWay(c) {
        DeferredOk(jid, c, until);
        PutSettles(s, jid, DeferCell(c, until), 0.0, now);
      }
    case CaptureDone(_, sacrificed) => CapturedOk(jid, c, sacrificed); PutKeeps(s, jid, CaptureCell(c, sacrificed));
    case ReapDone(_) => ReapedOk(jid, c); PutKeeps(s, jid, ReapCell(c));
    case CancelDone(_, now) => CancelDoneKeeps(s, jid, now);
    case CancelFails(_) => CancelFailsKeeps(s, jid);
    case Finish(_, ok, now) =>
      if c.rec.state.Running? {
        FinishedOk(jid, c, ok);
        PutSettles(s, jid, FinishCell(c, ok), if paid.Some? then paid.value else 0.0, now);
      }
    case WorkerDead(_) => DeadOk(jid, c); PutKeeps(s, jid, DeadCell(c));
    case ShowStatus(_, status) => ShownOk(jid, c, status); PutKeeps(s, jid, ShowCell(c, status));
  }

  lemma {:induction false} ShownOk(jid: JobId, c: Cell, status: JobStatus)
    requires CellOk(jid, c)
    ensures CellOk(jid, ShowCell(c, status)) && ShowCell(c, status).LivePaid() == c.LivePaid()
  {
    hide PhaseOf, Provisioned, RefusedSince;
  }

  // ------------------------------------------------------------------ before the decisions

  lemma {:induction false} RecoverKeeps(s: Store, jid: JobId, live: set<JobId>, now: Time)
    requires StoreOk(s)
    ensures StoreOk(Recover(s, jid, live, now))
  {
    hide StoreOk, PaidOf, CellOk, Cell.LivePaid, RecoverCell;
    if Stranded(s, jid, live) {
      KnownCell(s, jid);
      RecoveredOk(jid, s.cells[jid]);
      PutSettles(s, jid, RecoverCell(s.cells[jid]), 0.0, now);
    }
  }

  lemma {:induction false} RecoverAllKeeps(s: Store, order: seq<JobId>, live: set<JobId>, now: Time)
    requires StoreOk(s)
    ensures StoreOk(RecoverAll(s, order, live, now))
  {
    hide StoreOk, Recover;
    if order != [] {
      RecoverAllKeeps(s, order[..|order| - 1], live, now);
      RecoverKeeps(RecoverAll(s, order[..|order| - 1], live, now), order[|order| - 1], live, now);
    }
  }

  lemma {:induction false} AdoptKeeps(s: Store, adopts: set<JobId>)
    requires StoreOk(s)
    ensures StoreOk(Adopt(s, adopts)) && Adopt(s, adopts).cells == s.cells
  {
    hide StoreOk;
    CancelsAreFree(s, Adopt(s, adopts).cancels);
  }

  /** What recovery makes of each job it is shown. */
  lemma {:induction false} RecoveredCells(s: Store, order: seq<JobId>, live: set<JobId>, now: Time, jid: JobId)
    requires jid in s.cells
    ensures RecoverAll(s, order, live, now).cancels == s.cancels
    ensures RecoverAll(s, order, live, now).cells[jid]
      == if jid in order && Stranded(s, jid, live) then RecoverCell(s.cells[jid]) else s.cells[jid]
  {
    hide Cell.LivePaid, RealizeRows;
    if order != [] {
      var n := |order| - 1;
      RecoveredCells(s, order[..n], live, now, jid);
      assert order == order[..n] + [order[n]];
    }
  }

  /** In a sound store recovery acts exactly on the placing jobs without a work item or a live
      task, and each of these had a cancel refused since it was reserved. */
  lemma {:induction false} RecoveryActsExactly(s: Store, order: seq<JobId>, live: set<JobId>, now: Time, jid: JobId)
    requires StoreOk(s) && Enumerates(order, s.cells.Keys) && jid in s.cells
    ensures RecoverAll(s, order, live, now).cells[jid] != s.cells[jid] <==> Stranded(s, jid, live)
    ensures Stranded(s, jid, live) ==>
      RefusedSince(s.cells[jid].trace) && RecoverAll(s, order, live, now).cells[jid] == RecoverCell(s.cells[jid])
  {
    hide StoreOk, RecoverAll, PhaseOf, Provisioned, RefusedSince;
    KnownCell(s, jid);
    RecoveredCells(s, order, live, now, jid);
  }

  /** And a refused cancel of a placing job is what leaves one so: until then it has an item. */
  lemma {:induction false} RefusalStrands(s: Store, jid: JobId, live: set<JobId>)
    requires StoreOk(s) && jid in s.cells && jid !in live && s.cells[jid].rec.state.Placing?
    ensures Stranded(StepOn(s, CancelFails(jid)), jid, live)
      <==> s.cells[jid].item == Some(CancelItem) || Stranded(s, jid, live)
    ensures !RefusedSince(s.cells[jid].trace) ==> !Stranded(s, jid, live)
  {
    hide StoreOk, PhaseOf, Provisioned, RefusedSince;
    KnownCell(s, jid);
  }

  /** With nobody stranded, recovery changes nothing. */
  lemma {:induction false} RecoveryIsIdle(s: Store, order: seq<JobId>, live: set<JobId>, now: Time)
    requires forall j :: j in s.cells ==> !Stranded(s, j, live)
    ensures RecoverAll(s, order, live, now) == s
  {
    if order != [] {
      RecoveryIsIdle(s, order[..|order| - 1], live, now);
    }
  }
}
