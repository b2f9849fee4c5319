/** The books: what every step does to the ledger rows, and what the rows add up to in a run. */
module Accounts {
  import opened Wrappers
  import opened Models
  import opened Budget
  import opened Scheduler
  import opened Kernel
  import opened Lifecycle
  import opened Invariant
  import opened PassInvariant
  import opened Runs

  /** What the job's placement costs, live or ended. */
  function CostOf(c: Cell): Option<real> {
    if c.rec.placement.Some? then c.rec.placement.value.costActual else None
  }

  // ------------------------------------------------------------------ one row closed

  /** The job's one open reservation, of `paid`, becomes a spend of `amount` in its own place
      and at its own time; no other row changes. */
  ghost predicate Closes(rows: seq<Entry>, after: seq<Entry>, jid: JobId, paid: real, amount: real) {
    exists i: nat ::
      SoleCommitted(rows, jid, i) && rows[i].amount == paid
      && after == rows[i := Entry(jid, rows[i].provider, amount, Spent, rows[i].at)]
  }

  lemma SettleCloses(rows: seq<Entry>, jid: JobId, paid: real, amount: real, now: Time)
    requires RowsMatch(rows, jid, Some(paid))
    ensures Closes(rows, RealizeRows(rows, jid, amount, now), jid, paid, amount)
  {
    var i: nat :| SoleCommitted(rows, jid, i) && rows[i].amount == paid;
    assert EarliestCommitted(rows, jid) == Some(i);
  }

  lemma {:induction false} SumReplace(rows: seq<Entry>, i: nat, e: Entry, from: Time, until: Time)
    requires i < |rows| && rows[i].at == e.at
    ensures SumBetween(rows[i := e], from, until)
      == SumBetween(rows, from, until) + (if from <= e.at < until then e.amount - rows[i].amount else 0.0)
  {
    var n := |rows| - 1;
    if i == n {
      assert rows[i := e][..n] == rows[..n];
    } else {
      assert rows[i := e][..n] == rows[..n][i := e];
      SumReplace(rows[..n], i, e, from, until);
    }
  }

  /** Closing a reservation changes the sums of exactly the spans its date lies in, by the
      difference; charging what was reserved changes none. */
  lemma {:induction false} ClosesSums(rows: seq<Entry>, after: seq<Entry>, jid: JobId, paid: real, amount: real)
    returns (at: Time)
    requires Closes(rows, after, jid, paid, amount)
    ensures exists k :: 0 <= k < |rows| && IsCommitted(rows[k], jid) && rows[k].at == at
    ensures forall from, until ::
      SumBetween(after, from, until)
      == SumBetween(rows, from, until) + (if from <= at < until then amount - paid else 0.0)
  {
    var i: nat :| SoleCommitted(rows, jid, i) && rows[i].amount == paid
      && after == rows[i := Entry(jid, rows[i].provider, amount, Spent, rows[i].at)];
    at := rows[i].at;
    forall from, until ensures SumBetween(after, from, until)
      == SumBetween(rows, from, until) + (if from <= at < until then amount - paid else 0.0)
    {
      SumReplace(rows, i, Entry(jid, rows[i].provider, amount, Spent, at), from, until);
    }
  }

  // ------------------------------------------------------------------ what every step books

  /** What a completion leaves on the books of a reservation of `cost`: all of it if a running
      job ends, nothing if its placement is given up before it ran; none if it stays open. */
  function Leaves(c: Cell, step: Step, cost: real): Option<real>
    requires OfOneJob(step)
  {
    match step
    case Finish(_, _, _) => if c.rec.state.Running? then Some(cost) else None
    case CancelDone(_, _) =>
      if c.item != Some(CancelItem) then None
      else if c.rec.state.Running? then Some(cost)
      else if c.rec.state.Placing? then Some(if Provisioned(c.trace) then cost else 0.0)
      else None
    case Unwind(_, _, _) => if PlaceUnderWay(c) && !Provisioned(c.trace) then Some(0.0) else None
    case Defer(_, _, _) => if PlaceUnderWay(c) then Some(0.0) else None
    case _ => None
  }

  /** Of an open reservation of `cost` only the part `left` stays, if it is closed at all. */
  ghost predicate Books(rows: seq<Entry>, after: seq<Entry>, jid: JobId, cost: Option<real>, left: Option<real>) {
    if cost.Some? && left.Some? then Closes(rows, after, jid, cost.value, left.value) else after == rows
  }

  function LeavesOf(c: Cell, step: Step): Option<real>
    requires OfOneJob(step)
  {
    if CostOf(c).Some? then Leaves(c, step, CostOf(c).value) else None
  }

  lemma {:induction false} SettleBooks(s: Store, jid: JobId, c: Cell, amount: real, now: Time)
    requires StoreOk(s) && jid in s.cells
    ensures
      var s' := s.Put(jid, c).SettleIf(s.cells[jid].LivePaid(), jid, amount, now);
      s'.day == s'.week && Books(s.day, s'.day, jid, s.cells[jid].LivePaid(), Some(amount))
  {
    hide CellOk, Cell.LivePaid, RealizeRows, Closes;
    var paid := s.cells[jid].LivePaid();
    assert RowsMatch(s.day, jid, PaidOf(s, jid));
    if paid.Some? {
      SettleCloses(s.day, jid, paid.value, amount, now);
    }
  }

  lemma {:induction false} CancelBooks(s: Store, step: Step)
    requires StoreOk(s) && step.CancelDone? && step.jid in s.cells
    ensures
      var s' := StepOn(s, step);
      s'.day == s'.week && Books(s.day, s'.day, step.jid, CostOf(s.cells[step.jid]), LeavesOf(s.cells[step.jid], step))
  {
    hide StoreOk, UnwindCell, CancelCell, Store.SettleIf, Closes, Provisioned;
    var jid, c := step.jid, s.cells[step.jid];
    KnownCell(s, jid);
    SameRows(s);
    if c.item == Some(CancelItem) && !c.rec.state.Terminal() {
      var settled := if c.rec.state.Placing? then UnwindStore(s, jid, None, step.now) else s;
      if c.rec.state.Placing? {
        UnwindKeeps(s, jid, None, step.now);
        UnwoundOk(jid, c, None);
        UnwoundCost(c, None);
        SettleBooks(s, jid, UnwindCell(c, None), 0.0, step.now);
      }
      KnownCell(settled, jid);
      var paid := settled.cells[jid].LivePaid();
      SettleBooks(settled, jid, CancelCell(settled.cells[jid]), if paid.Some? then paid.value else 0.0, step.now);
    }
  }

  lemma SameRows(s: Store)
    requires StoreOk(s)
    ensures s.day == s.week
  {
  }

  lemma {:induction false} UnwoundCost(c: Cell, booked: Option<Bookkeeping>)
    ensures CostOf(UnwindCell(c, booked)) == if Provisioned(c.trace) then CostOf(c) else None
  {
    hide Provisioned;
    if booked.Some? {
      BookFrame(c.rec, booked.value);
    }
  }

  /** Every completion: a finish, and the cancel of a running job, turns the placement's
      reservation into a spend of the same amount; an unwind before anything was provisioned,
      and a deferral, take it out; nothing else touches a row. Both windows stay the same. */
  lemma {:induction false} StepBooks(s: Store, step: Step)
    requires StoreOk(s) && OfOneJob(step) && step.jid in s.cells
    ensures
      var c, s' := s.cells[step.jid], Next(s, step);
      s'.day == s'.week && Books(s.day, s'.day, step.jid, CostOf(c), LeavesOf(c, step))
  {
    hide StoreOk, ProvisionCell, ActivateCell, DeferCell, UnwindCell, CaptureCell, ReapCell, CancelDoneStore,
      FinishCell, DeadCell, ShowCell, Store.SettleIf, Closes, Provisioned, RefusedSince, PhaseOf;
    var jid, c := step.jid, s.cells[step.jid];
    KnownCell(s, jid);
    SameRows(s);
    match step
    case Unwind(_, booked, now) => SettleBooks(s, jid, UnwindCell(c, booked), 0.0, now);
    case Defer(_, until, now) => SettleBooks(s, jid, DeferCell(c, until), 0.0, now);
    case CancelDone(_, _) => CancelBooks(s, step);
    case Finish(_, ok, now) =>
      SettleBooks(s, jid, FinishCell(c, ok), if c.LivePaid().Some? then c.LivePaid().value else 0.0, now);
    case _ =>
  }

  /** So a running job that finishes or is cancelled leaves every sum over every span of time as
      it was, and is charged what its placement had reserved. */
  lemma {:induction false} EndingCharges(s: Store, step: Step)
    requires StoreOk(s) && OfOneJob(step) && step.jid in s.cells && s.cells[step.jid].rec.state.Running?
    requires step.Finish? || (step.CancelDone? && s.cells[step.jid].item == Some(CancelItem))
    ensures
      var cost, s' := CostOf(s.cells[step.jid]), Next(s, step);
      && (cost.Some? ==> Closes(s.day, s'.day, step.jid, cost.value, cost.value))
      && (cost.None? ==> s'.day == s.day)
      && s'.week == s'.day
      && forall from, until :: SumBetween(s'.day, from, until) == SumBetween(s.day, from, until)
  {
    hide StoreOk, Next, Closes, SumBetween;
    StepBooks(s, step);
    var cost, s' := CostOf(s.cells[step.jid]), Next(s, step);
    if cost.Some? {
      var at := ClosesSums(s.day, s'.day, step.jid, cost.value, cost.value);
    }
  }

  /** An enacted decision: a priced reserve of a pending job adds its one row, a requeue takes
      the lost attempt's reservation out, nothing else touches a row. */
  lemma {:induction false} EnactBooks(s: Store, d: Decision, now: Time)
    requires StoreOk(s) && d.jobId in s.cells
    ensures
      var c, s' := s.cells[d.jobId], Enact(s, d, now);
      && s'.day == s'.week
      && (if d.Reserve? && c.rec.state.Pending() && d.estCost > 0.0
          then s'.day == s.day + [Entry(d.jobId, d.provider, d.estCost, Committed, now)]
          else Books(s.day, s'.day, d.jobId, CostOf(c),
                     if d.Requeue? && c.rec.state.Running? && c.minted == {} then Some(0.0) else None))
  {
    hide StoreOk, EnactOnCell, Store.SettleIf, Closes;
    KnownCell(s, d.jobId);
    SameRows(s);
    if d.Requeue? {
      SettleBooks(s, d.jobId, EnactOnCell(s.cells[d.jobId], d, now), 0.0, now);
    }
  }

  /** Recovery takes out the reservation of the job it rolls back. */
  lemma {:induction false} RecoverBooks(s: Store, jid: JobId, live: set<JobId>, now: Time)
    requires StoreOk(s) && jid in s.cells
    ensures
      var s' := Recover(s, jid, live, now);
      && s'.day == s'.week
      && Books(s.day, s'.day, jid, CostOf(s.cells[jid]), if Stranded(s, jid, live) then Some(0.0) else None)
  {
    hide StoreOk, RecoverCell, Store.SettleIf, Closes;
    KnownCell(s, jid);
    SameRows(s);
    SettleBooks(s, jid, RecoverCell(s.cells[jid]), 0.0, now);
  }

  // ------------------------------------------------------------------ what is spent

  /** The amounts of one job's rows of one kind. */
  function SumFor(rows: seq<Entry>, jid: JobId, kind: Kind): real {
    if rows == [] then 0.0
    else
      var e := rows[|rows| - 1];
      SumFor(rows[..|rows| - 1], jid, kind) + (if e.jobId == jid && e.kind == kind then e.amount else 0.0)
  }

  /** What a job has been charged for good: the cost of the placement it ended on. */
  function Charge(c: Cell): real {
    if c.rec.state.Terminal() && CostOf(c).Some? then CostOf(c).value else 0.0
  }

  function ChargeOn(s: Store, jid: JobId): real {
    if jid in s.cells then Charge(s.cells[jid]) else 0.0
  }

  ghost predicate Booked(s: Store) {
    && (forall jid :: SumFor(s.day, jid, Spent) == ChargeOn(s, jid))
    && (forall k :: 0 <= k < |s.day| ==> s.day[k].jobId in s.cells)
  }

  lemma {:induction false} SumForAppend(rows: seq<Entry>, e: Entry, jid: JobId, kind: Kind)
    ensures SumFor(rows + [e], jid, kind)
      == SumFor(rows, jid, kind) + (if e.jobId == jid && e.kind == kind then e.amount else 0.0)
  {
    assert (rows + [e])[..|rows|] == rows;
  }

  lemma {:induction false} SumForReplace(rows: seq<Entry>, i: nat, e: Entry, jid: JobId, kind: Kind)
    requires i < |rows| && rows[i].jobId == e.jobId
    ensures SumFor(rows[i := e], jid, kind) == SumFor(rows, jid, kind)
      + (if e.jobId != jid then 0.0
         else (if e.kind == kind then e.amount else 0.0) - (if rows[i].kind == kind then rows[i].amount else 0.0))
  {
    var n := |rows| - 1;
    if i == n {
      assert rows[i := e][..n] == rows[..n];
    } else {
      assert rows[i := e][..n] == rows[..n][i := e];
      SumForReplace(rows[..n], i, e, jid, kind);
    }
  }

  /** A job's charge grows by what is left of its reservation when that is closed. */
  lemma {:induction false} BooksKeep(s: Store, s': Store, jid: JobId, cost: Option<real>, left: Option<real>)
    requires Booked(s) && jid in s.cells && jid in s'.cells && s'.cells == s.cells[jid := s'.cells[jid]]
    requires Books(s.day, s'.day, jid, cost, left)
    requires Charge(s'.cells[jid]) == Charge(s.cells[jid]) + (if cost.Some? && left.Some? then left.value else 0.0)
    ensures Booked(s')
  {
    hide Charge;
    if cost.Some? && left.Some? {
      var i: nat :| SoleCommitted(s.day, jid, i) && s.day[i].amount == cost.value
        && s'.day == s.day[i := Entry(jid, s.day[i].provider, left.value, Spent, s.day[i].at)];
      forall j ensures SumFor(s'.day, j, Spent) == ChargeOn(s', j) {
        assert SumFor(s.day, j, Spent) == ChargeOn(s, j);
        SumForReplace(s.day, i, Entry(jid, s.day[i].provider, left.value, Spent, s.day[i].at), j, Spent);
      }
    } else {
      forall j ensures SumFor(s'.day, j, Spent) == ChargeOn(s', j) {
        assert SumFor(s.day, j, Spent) == ChargeOn(s, j);
      }
    }
  }

  lemma {:induction false} BooksGrow(s: Store, s': Store, jid: JobId, e: Entry)
    requires Booked(s) && jid in s.cells && jid in s'.cells && s'.cells == s.cells[jid := s'.cells[jid]]
    requires s'.day == s.day + [e] && e.jobId == jid && e.kind == Committed
    requires Charge(s'.cells[jid]) == Charge(s.cells[jid])
    ensures Booked(s')
  {
    hide Charge;
    forall j ensures SumFor(s'.day, j, Spent) == ChargeOn(s', j) {
      assert SumFor(s.day, j, Spent) == ChargeOn(s, j);
      SumForAppend(s.day, e, j, Spent);
    }
  }

  lemma {:induction false} StepCharges(jid: JobId, c: Cell, step: Step)
    requires CellOk(jid, c) && OfOneJob(step)
    ensures Charge(CellStep(c, step)) == Charge(c) + (if LeavesOf(c, step).Some? then LeavesOf(c, step).value else 0.0)
  {
    hide Provisioned, Book;
    if step.Unwind? && step.booked.Some? {
      BookFrame(c.rec, step.booked.value);
    }
  }

  lemma {:induction false} StepKeepsBooks(s: Store, step: Step)
    requires StoreOk(s) && Booked(s) && OfOneJob(step) && step.jid in s.cells
    ensures Booked(Next(s, step))
  {
    hide StoreOk, Booked, StepOn, CellStep, Charge, CellOk, Closes, Leaves;
    StepBooks(s, step);
    StepOnFrame(s, step);
    KnownCell(s, step.jid);
    StepCharges(step.jid, s.cells[step.jid], step);
    BooksKeep(s, Next(s, step), step.jid, CostOf(s.cells[step.jid]), LeavesOf(s.cells[step.jid], step));
  }

  lemma {:induction false} EnactCharges(jid: JobId, c: Cell, d: Decision, now: Time)
    requires CellOk(jid, c)
    ensures Charge(EnactOnCell(c, d, now)) == Charge(c)
  {
  }

  lemma {:induction false} EnactKeepsBooks(s: Store, d: Decision, now: Time)
    requires StoreOk(s) && Booked(s)
    ensures Booked(Enact(s, d, now))
  {
    hide StoreOk, Booked, Enact, EnactOnCell, Charge, CellOk, Closes;
    if d.jobId in s.cells {
      var c := s.cells[d.jobId];
      EnactBooks(s, d, now);
      EnactFrame(s, d, now);
      KnownCell(s, d.jobId);
      EnactCharges(d.jobId, c, d, now);
      if d.Reserve? && c.rec.state.Pending() && d.estCost > 0.0 {
        BooksGrow(s, Enact(s, d, now), d.jobId, Entry(d.jobId, d.provider, d.estCost, Committed, now));
      } else {
        BooksKeep(s, Enact(s, d, now), d.jobId, CostOf(c),
                  if d.Requeue? && c.rec.state.Running? && c.minted == {} then Some(0.0) else None);
      }
    } else {
      assert Enact(s, d, now) == s by {
        NothingEnacted(s, d, now);
      }
    }
  }

  lemma NothingEnacted(s: Store, d: Decision, now: Time)
    requires d.jobId !in s.cells
    ensures Enact(s, d, now) == s
  {
  }

  lemma {:induction false} PassKeepsBooks(s: Store, order: seq<JobId>, slots: seq<Slot>, now: Time, cfg: Config, k: nat)
    requires StoreOk(s) && Booked(s) && Enumerates(order, s.cells.Keys)
    requires k <= |DecisionsOn(s, order, slots, now, cfg)|
    ensures Booked(EnactAll(s, DecisionsOn(s, order, slots, now, cfg)[..k], now))
  {
    hide StoreOk, Booked, DecisionsOn, Enact;
    if k > 0 {
      var ds := DecisionsOn(s, order, slots, now, cfg);
      PassKeepsBooks(s, order, slots, now, cfg, k - 1);
      PassPrefixKeeps(s, order, slots, now, cfg, k - 1);
      assert ds[..k][..k - 1] == ds[..k - 1];
      EnactKeepsBooks(EnactAll(s, ds[..k - 1], now), ds[k - 1], now);
    }
  }

  lemma {:induction false} RecoveryKeepsBooks(s: Store, order: seq<JobId>, live: set<JobId>, now: Time)
    requires StoreOk(s) && Booked(s)
    ensures Booked(RecoverAll(s, order, live, now))
  {
    hide StoreOk, Booked, Closes, Store.SettleIf;
    if order != [] {
      var before := RecoverAll(s, order[..|order| - 1], live, now);
      var jid := order[|order| - 1];
      RecoveryKeepsBooks(s, order[..|order| - 1], live, now);
      RecoverAllKeeps(s, order[..|order| - 1], live, now);
      if Stranded(before, jid, live) {
        RecoverBooks(before, jid, live, now);
        SettledCells(before.Put(jid, RecoverCell(before.cells[jid])), before.cells[jid].LivePaid(), jid, 0.0, now);
        BooksKeep(before, Recover(before, jid, live, now), jid, CostOf(before.cells[jid]), Some(0.0));
      }
    }
  }

  lemma SettledCells(s: Store, paid: Option<real>, jid: JobId, amount: real, now: Time)
    ensures s.SettleIf(paid, jid, amount, now).cells == s.cells
  {
  }

  lemma {:induction false} NextKeepsBooks(s: Store, step: Step)
    requires StoreOk(s) && Booked(s)
    ensures Booked(Next(s, step))
  {
    hide StoreOk, Booked, StepOn, Adopt, RecoverAll, DecisionsOn, EnactAll, NewCell;
    match step
    case Submit(spec, at) =>
      if spec.jobId !in s.cells {
        NewcomerIsFree(s, spec, at);
      }
    case AskCancel(jid) => CancelsAreApart(s, s.cancels + {jid});
    case Restart => CancelsAreApart(s, {});
    case Tick(order, slots, now, cfg, live, adopts) =>
      if Enumerates(order, s.cells.Keys) {
        AdoptKeeps(s, adopts);
        assert Booked(Adopt(s, adopts)) by {
          AdoptedBooks(s, adopts);
        }
        RecoveryKeepsBooks(Adopt(s, adopts), order, live, now);
        RecoverAllKeeps(Adopt(s, adopts), order, live, now);
        var ready := RecoverAll(Adopt(s, adopts), order, live, now);
        var ds := DecisionsOn(ready, order, slots, now, cfg);
        PassKeepsBooks(ready, order, slots, now, cfg, |ds|);
        assert ds[..|ds|] == ds;
      }
    case _ =>
      if step.jid in s.cells {
        StepKeepsBooks(s, step);
      }
  }

  lemma CancelsAreApart(s: Store, cancels: set<JobId>)
    requires Booked(s)
    ensures Booked(s.(cancels := cancels))
  {
    forall j ensures ChargeOn(s.(cancels := cancels), j) == ChargeOn(s, j) {
    }
  }

  lemma AdoptedBooks(s: Store, adopts: set<JobId>)
    requires Booked(s)
    ensures Booked(Adopt(s, adopts))
  {
    hide Booked;
    CancelsAreApart(s, Adopt(s, adopts).cancels);
  }

  lemma NewcomerIsFree(s: Store, spec: JobSpec, at: Time)
    requires Booked(s) && spec.jobId !in s.cells
    ensures Booked(s.Put(spec.jobId, NewCell(spec, at)))
  {
    var s' := s.Put(spec.jobId, NewCell(spec, at));
    forall j ensures SumFor(s'.day, j, Spent) == ChargeOn(s', j) {
      assert SumFor(s.day, j, Spent) == ChargeOn(s, j);
    }
  }

  lemma {:induction false} RunBooks(steps: seq<Step>)
    ensures Booked(Run(steps))
  {
    hide Next;
    if steps == [] {
      NothingBooked();
    } else {
      hide Booked;
      RunBooks(steps[..|steps| - 1]);
      RunOk(steps[..|steps| - 1]);
      NextKeepsBooks(Run(steps[..|steps| - 1]), steps[|steps| - 1]);
    }
  }

  lemma NothingBooked()
    ensures Booked(EMPTY)
  {
  }

  // ------------------------------------------------------------------ the balance

  lemma {:induction false} OpenSum(rows: seq<Entry>, jid: JobId, paid: Option<real>)
    requires RowsMatch(rows, jid, paid)
    ensures SumFor(rows, jid, Committed) == if paid.Some? then paid.value else 0.0
  {
    if rows != [] {
      var n := |rows| - 1;
      assert forall k :: 0 <= k < n ==> rows[..n][k] == rows[k];
      if paid.Some? {
        var i: nat :| SoleCommitted(rows, jid, i) && rows[i].amount == paid.value;
        if i == n {
          OpenSum(rows[..n], jid, None);
        } else {
          assert SoleCommitted(rows[..n], jid, i);
          OpenSum(rows[..n], jid, paid);
        }
      } else {
        OpenSum(rows[..n], jid, None);
      }
    }
  }

  /** In every run: the cost of a live placement is reserved, the cost of the placement a job
      ended on is spent, and nothing else is on the books of the job - whatever was deferred,
      unwound, recovered, lost and requeued on the way. */
  lemma {:induction false} BooksBalance(steps: seq<Step>, jid: JobId)
    requires jid in Run(steps).cells
    ensures
      var s := Run(steps);
      var st := s.cells[jid].rec.state;
      var cost := if CostOf(s.cells[jid]).Some? then CostOf(s.cells[jid]).value else 0.0;
      && s.day == s.week
      && SumFor(s.day, jid, Committed) == (if st.Placing? || st.Running? then cost else 0.0)
      && SumFor(s.day, jid, Spent) == (if st.Succeeded? || st.Failed? || st.Cancelled? then cost else 0.0)
  {
    hide Run, CellOk;
    RunOk(steps);
    RunBooks(steps);
    var s := Run(steps);
    assert RowsMatch(s.day, jid, PaidOf(s, jid));
    OpenSum(s.day, jid, PaidOf(s, jid));
    assert SumFor(s.day, jid, Spent) == ChargeOn(s, jid);
  }

  function Sum(rows: seq<Entry>): real {
    if rows == [] then 0.0 else Sum(rows[..|rows| - 1]) + rows[|rows| - 1].amount
  }

  /** The rows of the jobs listed. */
  function SumOf(rows: seq<Entry>, order: seq<JobId>): real {
    if order == [] then 0.0
    else
      var jid := order[|order| - 1];
      SumOf(rows, order[..|order| - 1]) + SumFor(rows, jid, Committed) + SumFor(rows, jid, Spent)
  }

  /** The costs of the placements the jobs listed are on, or ended on. */
  function CostsOf(cells: map<JobId, Cell>, order: seq<JobId>): real
    requires forall i :: 0 <= i < |order| ==> order[i] in cells
  {
    if order == [] then 0.0
    else
      var cost := CostOf(cells[order[|order| - 1]]);
      CostsOf(cells, order[..|order| - 1]) + (if cost.Some? then cost.value else 0.0)
  }

  lemma {:induction false} SumOfAppend(rows: seq<Entry>, e: Entry, order: seq<JobId>)
    requires forall i, j :: 0 <= i < j < |order| ==> order[i] != order[j]
    ensures SumOf(rows + [e], order) == SumOf(rows, order) + (if e.jobId in order then e.amount else 0.0)
  {
    if order != [] {
      var n := |order| - 1;
      SumOfAppend(rows, e, order[..n]);
      SumForAppend(rows, e, order[n], Committed);
      SumForAppend(rows, e, order[n], Spent);
      assert order == order[..n] + [order[n]];
      assert e.jobId == order[n] ==> e.jobId !in order[..n];
    }
  }

  lemma {:induction false} SumOfNothing(order: seq<JobId>)
    ensures SumOf([], order) == 0.0
  {
    if order != [] {
      SumOfNothing(order[..|order| - 1]);
    }
  }

  lemma {:induction false} SumByJob(rows: seq<Entry>, order: seq<JobId>)
    requires forall i, j :: 0 <= i < j < |order| ==> order[i] != order[j]
    requires forall k :: 0 <= k < |rows| ==> rows[k].jobId in order
    ensures Sum(rows) == SumOf(rows, order)
  {
    if rows == [] {
      SumOfNothing(order);
    } else {
      var n := |rows| - 1;
      SumByJob(rows[..n], order);
      SumOfAppend(rows[..n], rows[n], order);
      assert rows == rows[..n] + [rows[n]];
    }
  }

  lemma {:induction false} BalanceOf(steps: seq<Step>, order: seq<JobId>)
    requires forall i :: 0 <= i < |order| ==> order[i] in Run(steps).cells
    ensures SumOf(Run(steps).day, order) == CostsOf(Run(steps).cells, order)
  {
    hide Run, SumFor, CellOk;
    if order != [] {
      var n := |order| - 1;
      BalanceOf(steps, order[..n]);
      BooksBalance(steps, order[n]);
      PendingCostsNothing(steps, order[n]);
    }
  }

  lemma {:induction false} PendingCostsNothing(steps: seq<Step>, jid: JobId)
    requires jid in Run(steps).cells
    ensures Run(steps).cells[jid].rec.state.Pending() ==> CostOf(Run(steps).cells[jid]).None?
  {
    hide Run;
    RunOk(steps);
    assert CellOk(jid, Run(steps).cells[jid]);
  }

  /** And in every run the rows of each window add up to the costs of all placements that are
      live or on which a job ended. */
  lemma {:induction false} TotalBalance(steps: seq<Step>, order: seq<JobId>)
    requires Enumerates(order, Run(steps).cells.Keys)
    ensures Sum(Run(steps).day) == CostsOf(Run(steps).cells, order)
    ensures Run(steps).week == Run(steps).day
  {
    hide Run, SumFor;
    RunOk(steps);
    RunBooks(steps);
    SumByJob(Run(steps).day, order);
    BalanceOf(steps, order);
  }
}
