/** Budget over whole runs of the kernel: no calendar window, at no instant, holds more than
    its cap. */
module BudgetRuns {
  import opened Wrappers
  import opened Models
  import opened Budget
  import opened Scheduler
  import opened PassProperties
  import opened Explain
  import opened Kernel
  import opened Invariant
  import opened PassInvariant
  import opened Runs
  import opened Capacity

  ghost predicate Under(w: Window, cap: Option<real>, rows: seq<Entry>) {
    cap.Some? ==> forall t: Time :: TotalOf(w, rows, t) <= cap.value
  }

  /** Bounds for the two windows; no bound where there is none. */
  datatype Limits = Limits(day: Option<real>, week: Option<real>)

  predicate CapWithin(cap: Option<real>, limit: Option<real>) {
    limit.Some? ==> cap.Some? && cap.value <= limit.value
  }

  /** The caps a pass was given are within the bounds. */
  predicate Within(cfg: Config, limits: Limits) {
    CapWithin(cfg.dayCap, limits.day) && CapWithin(cfg.weekCap, limits.week)
  }

  /** Every day and every ISO week, at every instant, within its bound. */
  ghost predicate Solvent(s: Store, limits: Limits) {
    Under(Day, limits.day, s.day) && Under(Week, limits.week, s.week)
  }

  predicate NonNegative(x: Option<real>) {
    x.Some? ==> x.value >= 0.0
  }

  /** No offer pays the user, and no job asks for negative time. */
  predicate FairStep(step: Step) {
    match step
    case Submit(spec, _) => NonNegative(spec.resources.time)
    case Tick(_, slots, _, _, _, _) => FairSlots(slots)
    case _ => true
  }

  predicate FairSlots(slots: seq<Slot>) {
    forall i :: 0 <= i < |slots| ==> NonNegative(slots[i].cost.setup) && NonNegative(slots[i].cost.perHour)
  }

  predicate FairStore(s: Store) {
    forall j :: j in s.cells ==> NonNegative(s.cells[j].rec.spec.resources.time)
  }

  // ------------------------------------------------------------------ settling

  /** Settling an open reservation for no more than it holds raises no window's total. */
  lemma SettleLowers(rows: seq<Entry>, jid: JobId, paid: real, amount: real, now: Time, w: Window, t: Time)
    requires RowsMatch(rows, jid, Some(paid)) && amount <= paid
    ensures TotalOf(w, RealizeRows(rows, jid, amount, now), t) <= TotalOf(w, rows, t)
  {
    hide TotalOf, RealizeRows;
    var i: nat :| SoleCommitted(rows, jid, i) && rows[i].amount == paid;
    assert EarliestCommitted(rows, jid) == Some(i);
    RealizeTotal(w, rows, jid, amount, now, t);
  }

  lemma {:induction false} PutSettleLowers(s: Store, jid: JobId, c: Cell, amount: real, now: Time, w: Window, t: Time)
    requires StoreOk(s) && (PaidOf(s, jid).Some? ==> amount <= PaidOf(s, jid).value)
    ensures TotalOf(w, s.Put(jid, c).SettleIf(PaidOf(s, jid), jid, amount, now).day, t) <= TotalOf(w, s.day, t)
  {
    hide TotalOf, RealizeRows, CellOk, PaidOf, RowsMatch;
    assert RowsMatch(s.day, jid, PaidOf(s, jid));
    if PaidOf(s, jid).Some? {
      SettleLowers(s.day, jid, PaidOf(s, jid).value, amount, now, w, t);
    }
  }

  lemma {:induction false} UnwindLowers(s: Store, jid: JobId, booked: Option<Bookkeeping>, now: Time, w: Window,
                                        t: Time)
    requires StoreOk(s) && jid in s.cells && s.cells[jid].rec.state.Placing?
    ensures TotalOf(w, UnwindStore(s, jid, booked, now).day, t) <= TotalOf(w, s.day, t)
  {
    hide StoreOk, TotalOf, PaidOf, UnwindCell, Cell.LivePaid, Store.SettleIf;
    KnownCell(s, jid);
    var paid := PaidOf(s, jid);
    PaidIsPositive(s, jid);
    PutSettleLowers(s, jid, UnwindCell(s.cells[jid], booked), 0.0, now, w, t);
  }

  lemma {:induction false} CancelDoneLowers(s: Store, jid: JobId, now: Time, w: Window, t: Time)
    requires StoreOk(s) && jid in s.cells
    ensures TotalOf(w, CancelDoneStore(s, jid, now).day, t) <= TotalOf(w, s.day, t)
  {
    hide StoreOk, TotalOf, PaidOf, UnwindStore, UnwindCell, CancelCell, Cell.LivePaid, Store.SettleIf;
    KnownCell(s, jid);
    var c := s.cells[jid];
    if c.item == Some(CancelItem) && !c.rec.state.Terminal() {
      if c.rec.state.Placing? {
        UnwindKeeps(s, jid, None, now);
        UnwindLowers(s, jid, None, now, w, t);
      }
      var settled := if c.rec.state.Placing? then UnwindStore(s, jid, None, now) else s;
      KnownCell(settled, jid);
      var paid := PaidOf(settled, jid);
      PutSettleLowers(settled, jid, CancelCell(settled.cells[jid]), if paid.Some? then paid.value else 0.0, now, w, t);
    }
  }

  lemma {:induction false} StepOnLowers(s: Store, step: Step, w: Window, t: Time)
    requires StoreOk(s) && OfOneJob(step) && step.jid in s.cells
    ensures TotalOf(w, StepOn(s, step).day, t) <= TotalOf(w, s.day, t)
  {
    hide StoreOk, TotalOf, PaidOf, Cell.LivePaid, CellOk, ProvisionCell, ActivateCell, DeferCell, UnwindStore,
      CaptureCell, ReapCell,
      CancelDoneStore, FinishCell, DeadCell, ShowCell, Store.SettleIf;
    var jid := step.jid;
    KnownCell(s, jid);
    PaidIsPositive(s, jid);
    var c, paid := s.cells[jid], PaidOf(s, jid);
    match step
    case Unwind(_, booked, now) => if PlaceUnderWay(c) { UnwindLowers(s, jid, booked, now, w, t); }
    case Defer(_, until, now) => PutSettleLowers(s, jid, DeferCell(c, until), 0.0, now, w, t);
    case CancelDone(_, now) => CancelDoneLowers(s, jid, now, w, t);
    case Finish(_, ok, now) =>
      PutSettleLowers(s, jid, FinishCell(c, ok), if paid.Some? then paid.value else 0.0, now, w, t);
    case _ =>
  }

  // ------------------------------------------------------------------ one pass

  function Added(w: Window, now: Time, t: Time, amount: real): real {
    if SameWindow(w, now, t) then amount else 0.0
  }

  lemma {:induction false} EnactAdds(s: Store, d: Decision, now: Time, w: Window, t: Time)
    requires StoreOk(s) && (d.Reserve? ==> d.estCost >= 0.0)
    ensures TotalOf(w, Enact(s, d, now).day, t)
         <= TotalOf(w, s.day, t) + Added(w, now, t, if d.Reserve? then d.estCost else 0.0)
  {
    hide StoreOk, TotalOf, PaidOf, Cell.LivePaid, EnactOnCell, Store.SettleIf;
    var jid := d.jobId;
    if jid in s.cells {
      KnownCell(s, jid);
      PaidIsPositive(s, jid);
      var c := s.cells[jid];
      if d.Reserve? && c.rec.state.Pending() && d.estCost > 0.0 {
        TotalAppend(w, s.day, Entry(jid, d.provider, d.estCost, Committed, now), t);
      } else if d.Requeue? && c.minted == {} && c.rec.state.Running? {
        PutSettleLowers(s, jid, EnactOnCell(c, d, now), 0.0, now, w, t);
      }
    }
  }

  predicate NoRefunds(ds: seq<Decision>) {
    forall k :: 0 <= k < |ds| && ds[k].Reserve? ==> ds[k].estCost >= 0.0
  }

  /** Enacting a pass adds at most its estimates, and only to the window of its clock. */
  lemma {:induction false} PassAdds(s: Store, order: seq<JobId>, slots: seq<Slot>, now: Time, cfg: Config, k: nat,
                                    w: Window, t: Time)
    requires StoreOk(s) && Enumerates(order, s.cells.Keys) && k <= |DecisionsOn(s, order, slots, now, cfg)|
    requires NoRefunds(DecisionsOn(s, order, slots, now, cfg))
    ensures
      var ds := DecisionsOn(s, order, slots, now, cfg)[..k];
      TotalOf(w, EnactAll(s, ds, now).day, t) <= TotalOf(w, s.day, t) + Added(w, now, t, EstTotal(ds))
  {
    hide StoreOk, DecisionsOn, Enact, TotalOf;
    if k > 0 {
      var ds := DecisionsOn(s, order, slots, now, cfg);
      PassAdds(s, order, slots, now, cfg, k - 1, w, t);
      PassPrefixKeeps(s, order, slots, now, cfg, k - 1);
      assert ds[..k][..k - 1] == ds[..k - 1];
      EnactAdds(EnactAll(s, ds[..k - 1], now), ds[k - 1], now, w, t);
    }
  }

  lemma {:induction false} EstTotalConcat(a: seq<Decision>, b: seq<Decision>)
    ensures EstTotal(a + b) == EstTotal(a) + EstTotal(b)
  {
    if b == [] {
      assert a + b == a;
    } else {
      assert (a + b)[..|a + b| - 1] == a + b[..|b| - 1];
      EstTotalConcat(a, b[..|b| - 1]);
    }
  }

  lemma {:induction false} EstTotalOfNone(ds: seq<Decision>)
    requires forall d :: d in ds && d.Reserve? ==> d.estCost == 0.0
    ensures EstTotal(ds) == 0.0
  {
    if ds != [] {
      EstTotalOfNone(ds[..|ds| - 1]);
    }
  }

  lemma {:induction false} EstTotalOfPass(s: Store, order: seq<JobId>, slots: seq<Slot>, now: Time, cfg: Config)
    requires Enumerates(order, s.cells.Keys)
    ensures EstTotal(DecisionsOn(s, order, slots, now, cfg)) == EstTotal(ReservesOn(s, order, slots, now, cfg))
  {
    hide EstTotal, TriageAll, AdmitAll, Reserves, StatesOf, PendingOf, Ranked, ToRank, StartMatch, SnapshotOf, WalletOf;
    var snap := SnapshotOf(s, order);
    var pending, states := PendingOf(snap.jobs, snap), StatesOf(snap.jobs);
    var t, a := TriageAll(snap.jobs, snap), AdmitAll(pending, states, slots, now, cfg.policy);
    forall d | d in t ensures !d.Reserve? { LadderNeverReserves(snap.jobs, snap, d); }
    forall d | d in a ensures !d.Reserve? { AdmissionNeverReserves(pending, states, slots, now, cfg.policy, d); }
    EstTotalOfNone(t);
    EstTotalOfNone(a);
    EstTotalConcat(t, a);
    EstTotalConcat(t + a, ReservesOn(s, order, slots, now, cfg));
  }

  lemma {:induction false} Priced(rec: Job, slots: seq<Slot>, i: nat)
    requires i < |slots|
    requires NonNegative(slots[i].cost.setup) && NonNegative(slots[i].cost.perHour)
      && NonNegative(rec.spec.resources.time)
    ensures ReserveFor(rec, slots, i).estCost >= 0.0
    ensures !PricedReserve(ReserveFor(rec, slots, i)) ==> ReserveFor(rec, slots, i).estCost == 0.0
  {
    if slots[i].cost.perHour.Some? && rec.spec.resources.time.Some? {
      var rate, hours := slots[i].cost.perHour.value, rec.spec.resources.time.value / 3600.0;
      assert hours >= 0.0 && rate >= 0.0;
      assert rate * hours >= 0.0;
    }
  }

  lemma {:induction false} FairReserves(s: Store, order: seq<JobId>, slots: seq<Slot>, now: Time, cfg: Config)
    requires FairStore(s) && Enumerates(order, s.cells.Keys) && FairSlots(slots)
    ensures forall d :: d in ReservesOn(s, order, slots, now, cfg) ==>
      d.Reserve? && d.estCost >= 0.0 && (!PricedReserve(d) ==> d.estCost == 0.0)
  {
    hide Reserves, ReserveFor, StartMatch, WalletOf, ToRank, Ranked, PricedReserve, StatesOf, PendingOf;
    forall d | d in ReservesOn(s, order, slots, now, cfg)
      ensures d.Reserve? && d.estCost >= 0.0 && (!PricedReserve(d) ==> d.estCost == 0.0)
    {
      var recs := RankedOf(s, order, slots, now, cfg);
      var k, i := ReserveOrigin(recs, slots, StartMatch(SnapshotOf(s, order), slots, WalletOf(s, cfg, now)), now,
        cfg.policy, d);
      var q := RankedFromStore(s, order, slots, now, cfg, k);
      Priced(recs[k], slots, i);
    }
  }

  lemma RankedFromStore(s: Store, order: seq<JobId>, slots: seq<Slot>, now: Time, cfg: Config, k: nat)
    returns (jid: JobId)
    requires Enumerates(order, s.cells.Keys) && k < |RankedOf(s, order, slots, now, cfg)|
    ensures jid in s.cells && RankedOf(s, order, slots, now, cfg)[k] == s.cells[jid].rec
  {
    hide Ranked, StatesOf, Rule;
    var snap := SnapshotOf(s, order);
    var admitted := ToRank(snap, slots, now, cfg.policy);
    var recs := RankedOf(s, order, slots, now, cfg);
    RankedIsStableSort(admitted, now, recs[k]);
    assert recs[k] in multiset(recs);
    assert recs[k] in admitted && recs[k] in snap.jobs;
    var i :| 0 <= i < |snap.jobs| && snap.jobs[i] == recs[k];
    jid := order[i];
  }

  lemma {:induction false} RowsInTotal(w: Window, rows: seq<Entry>, now: Time)
    ensures TotalOf(w, RowsIn(w, rows, now), now) == TotalOf(w, rows, now)
  {
    if rows != [] {
      var n := |rows| - 1;
      RowsInTotal(w, rows[..n], now);
      if SameWindow(w, rows[n].at, now) {
        TotalAppend(w, RowsIn(w, rows[..n], now), rows[n], now);
      }
    }
  }

  /** What a pass reserves fits next to what its windows already hold. */
  lemma {:induction false} PassAffords(s: Store, order: seq<JobId>, slots: seq<Slot>, now: Time, cfg: Config,
                                       limits: Limits)
    requires StoreOk(s) && FairStore(s) && Enumerates(order, s.cells.Keys) && FairSlots(slots)
    requires Solvent(s, limits) && Within(cfg, limits)
    ensures
      var est := EstTotal(DecisionsOn(s, order, slots, now, cfg));
      && est >= 0.0
      && (limits.day.Some? ==> TotalOf(Day, s.day, now) + est <= limits.day.value)
      && (limits.week.Some? ==> TotalOf(Week, s.week, now) + est <= limits.week.value)
    ensures NoRefunds(DecisionsOn(s, order, slots, now, cfg))
  {
    hide StoreOk, FairStore, FairSlots, DecisionsOn, Reserves, RankedOf, SnapshotOf, TotalOf, RowsIn, PricedReserve,
      EstTotal, StartMatch;
    var rs := ReservesOn(s, order, slots, now, cfg);
    EstTotalOfPass(s, order, slots, now, cfg);
    FairReserves(s, order, slots, now, cfg);
    forall d | d in DecisionsOn(s, order, slots, now, cfg) && d.Reserve? ensures d.estCost >= 0.0 {
      IsReserveOfPass(s, order, slots, now, cfg, d);
    }
    EstTotalNonNegative(rs);
    RowsInTotal(Day, s.day, now);
    RowsInTotal(Week, s.week, now);
    if SomePriced(rs) {
      PassWithinWallet(s, order, slots, now, cfg);
    } else {
      EstTotalOfNone(rs);
    }
  }

  lemma {:induction false} PassWithinWallet(s: Store, order: seq<JobId>, slots: seq<Slot>, now: Time, cfg: Config)
    requires Enumerates(order, s.cells.Keys) && SomePriced(ReservesOn(s, order, slots, now, cfg))
    ensures WalletWithinCap(WalletOf(s, cfg, now), EstTotal(ReservesOn(s, order, slots, now, cfg)), now)
  {
    hide Reserves, Ranked, ToRank, SnapshotOf, WalletOf, SomePriced, WalletWithinCap, EstTotal, StartMatch, MatchAll,
      WalletCarries;
    PassStaysInBudget(SnapshotOf(s, order), slots, WalletOf(s, cfg, now), now, cfg.policy);
  }

  lemma {:induction false} EstTotalNonNegative(ds: seq<Decision>)
    requires forall d :: d in ds && d.Reserve? ==> d.estCost >= 0.0
    ensures EstTotal(ds) >= 0.0
  {
    if ds != [] {
      EstTotalNonNegative(ds[..|ds| - 1]);
    }
  }

  lemma {:induction false} PassStaysSolvent(s: Store, order: seq<JobId>, slots: seq<Slot>, now: Time, cfg: Config,
                                            limits: Limits)
    requires StoreOk(s) && FairStore(s) && Enumerates(order, s.cells.Keys) && FairSlots(slots)
    requires Solvent(s, limits) && Within(cfg, limits)
    ensures Solvent(Pass(s, order, slots, now, cfg), limits)
  {
    hide FairStore, FairSlots, DecisionsOn, TotalOf, EstTotal, EnactAll, NoRefunds, CellOk, RowsMatch, SameWindow;
    var ds := DecisionsOn(s, order, slots, now, cfg);
    var s' := Pass(s, order, slots, now, cfg);
    PassKeeps(s, order, slots, now, cfg);
    assert s'.day == s'.week && s.day == s.week;
    PassAffords(s, order, slots, now, cfg, limits);
    assert ds[..|ds|] == ds;
    forall w: Window, t: Time
      ensures TotalOf(w, s'.day, t) <= TotalOf(w, s.day, t)
           || TotalOf(w, s'.day, t) <= TotalOf(w, s.day, now) + EstTotal(ds)
    {
      hide StoreOk;
      PassAdds(s, order, slots, now, cfg, |ds|, w, t);
      if SameWindow(w, now, t) {
        TotalSameWindow(w, s.day, now, t);
      }
    }
  }

  // ------------------------------------------------------------------ whole runs

  lemma {:induction false} RecoverLowers(s: Store, order: seq<JobId>, live: set<JobId>, now: Time, w: Window, t: Time)
    requires StoreOk(s)
    ensures TotalOf(w, RecoverAll(s, order, live, now).day, t) <= TotalOf(w, s.day, t)
  {
    hide StoreOk, TotalOf, PaidOf, Cell.LivePaid, RecoverCell, Store.SettleIf;
    if order != [] {
      var before := RecoverAll(s, order[..|order| - 1], live, now);
      var jid := order[|order| - 1];
      RecoverLowers(s, order[..|order| - 1], live, now, w, t);
      RecoverAllKeeps(s, order[..|order| - 1], live, now);
      if Stranded(before, jid, live) {
        KnownCell(before, jid);
        PaidIsPositive(before, jid);
        PutSettleLowers(before, jid, RecoverCell(before.cells[jid]), 0.0, now, w, t);
      }
    }
  }

  lemma {:induction false} ReadyIsSolvent(s: Store, order: seq<JobId>, live: set<JobId>, adopts: set<JobId>, now: Time,
                                          limits: Limits)
    requires StoreOk(s) && Solvent(s, limits)
    ensures Solvent(Ready(s, order, live, adopts, now), limits)
  {
    hide TotalOf, CellOk, RowsMatch, RecoverAll;
    ReadyOk(s, order, live, adopts, now);
    assert s.day == s.week && Ready(s, order, live, adopts, now).day == Ready(s, order, live, adopts, now).week;
    hide StoreOk;
    AdoptKeeps(s, adopts);
    forall w: Window, t: Time ensures TotalOf(w, Ready(s, order, live, adopts, now).day, t) <= TotalOf(w, s.day, t) {
      RecoverLowers(Adopt(s, adopts), order, live, now, w, t);
    }
  }

  lemma {:induction false} ReadyIsFair(s: Store, order: seq<JobId>, live: set<JobId>, adopts: set<JobId>, now: Time)
    requires FairStore(s) && Enumerates(order, s.cells.Keys)
    ensures FairStore(Ready(s, order, live, adopts, now))
  {
    hide Ready;
    forall j | j in s.cells ensures NonNegative(Ready(s, order, live, adopts, now).cells[j].rec.spec.resources.time) {
      ReadyCells(s, order, live, adopts, now, j);
    }
  }

  /** The pass of this step, if it is one, was given caps within the bounds. */
  predicate StepWithin(step: Step, limits: Limits) {
    step.Tick? ==> Within(step.cfg, limits)
  }

  lemma {:induction false} NextStaysSolvent(s: Store, step: Step, limits: Limits)
    requires StoreOk(s) && Solvent(s, limits) && FairStore(s) && FairStep(step) && StepWithin(step, limits)
    ensures Solvent(Next(s, step), limits)
  {
    hide StepOn, TotalOf, FairStore, FairSlots, Pass, RecoverAll, Adopt, Ready, CellOk, RowsMatch;
    NextKeeps(s, step);
    assert s.day == s.week && Next(s, step).day == Next(s, step).week;
    hide StoreOk;
    if step.Tick? {
      if Enumerates(step.order, s.cells.Keys) {
        var ready := Ready(s, step.order, step.live, step.adopts, step.now);
        ReadyOk(s, step.order, step.live, step.adopts, step.now);
        ReadyIsSolvent(s, step.order, step.live, step.adopts, step.now, limits);
        ReadyIsFair(s, step.order, step.live, step.adopts, step.now);
        PassStaysSolvent(ready, step.order, step.slots, step.now, step.cfg, limits);
        assert Next(s, step) == Pass(ready, step.order, step.slots, step.now, step.cfg) by {
          TickIs(s, step);
        }
      }
    } else if OfOneJob(step) && step.jid in s.cells {
      forall w: Window, t: Time ensures TotalOf(w, StepOn(s, step).day, t) <= TotalOf(w, s.day, t) {
        StepOnLowers(s, step, w, t);
      }
    }
  }

  lemma TickIs(s: Store, step: Step)
    requires step.Tick? && Enumerates(step.order, s.cells.Keys)
    ensures Next(s, step)
      == Pass(Ready(s, step.order, step.live, step.adopts, step.now), step.order, step.slots, step.now, step.cfg)
  {
    hide Pass, RecoverAll, Adopt;
  }

  lemma {:induction false} NextStaysFair(s: Store, step: Step)
    requires StoreOk(s) && FairStore(s) && FairStep(step)
    ensures FairStore(Next(s, step))
  {
    hide StoreOk, Pass, RecoverAll, Adopt, StepOn, Evolves;
    forall j | j in Next(s, step).cells
      ensures NonNegative(Next(s, step).cells[j].rec.spec.resources.time)
    {
      if j in s.cells {
        StepMoves(s, step, j);
        EvolvesOn(s.cells[j], Next(s, step).cells[j]);
      } else {
        NewcomersAreSubmitted(s, step, j);
      }
    }
  }

  lemma {:induction false} NewcomersAreSubmitted(s: Store, step: Step, j: JobId)
    requires StoreOk(s) && j in Next(s, step).cells && j !in s.cells
    ensures step.Submit? && Next(s, step).cells[j].rec.spec == step.spec
  {
    hide StoreOk, StepOn, Pass, RecoverAll, Adopt, CellStep, Ready;
    if step.Tick? && Enumerates(step.order, s.cells.Keys) {
      TickIs(s, step);
      CellAfterPassKeys(Ready(s, step.order, step.live, step.adopts, step.now), step.order, step.slots, step.now,
        step.cfg);
    } else if OfOneJob(step) && step.jid in s.cells {
      StepOnFrame(s, step);
    }
  }

  lemma NothingIsUnfair()
    ensures FairStore(EMPTY)
  {
  }

  /** Budget over whole runs: from the empty store, whatever is submitted, offered, placed,
      lost, cancelled or finished, and however the caps change from pass to pass, every UTC
      day and every ISO week, Monday to Monday, stays within any bound the passes' caps were
      within. */
  lemma {:induction false} BudgetHoldsOverRuns(steps: seq<Step>, limits: Limits)
    requires NonNegative(limits.day) && NonNegative(limits.week)
    requires forall k :: 0 <= k < |steps| ==> FairStep(steps[k]) && StepWithin(steps[k], limits)
    ensures BudgetLedger(Day, limits.day, Run(steps).day).UnderCap()
    ensures BudgetLedger(Week, limits.week, Run(steps).week).UnderCap()
  {
    hide Run, Solvent;
    StaysSolvent(steps, limits);
    WithinWindows(Run(steps), limits);
  }

  /** No total at any instant above its bound means no calendar window above it. */
  lemma WithinWindows(s: Store, limits: Limits)
    requires Solvent(s, limits)
    ensures BudgetLedger(Day, limits.day, s.day).UnderCap() && BudgetLedger(Week, limits.week, s.week).UnderCap()
  {
    var day, week := BudgetLedger(Day, limits.day, s.day), BudgetLedger(Week, limits.week, s.week);
    UnderCapIff(day);
    UnderCapIff(week);
    assert limits.day.Some? ==> forall t: Time :: day.InWindowTotal(t) == TotalOf(Day, s.day, t);
    assert limits.week.Some? ==> forall t: Time :: week.InWindowTotal(t) == TotalOf(Week, s.week, t);
  }

  lemma {:induction false} StaysSolvent(steps: seq<Step>, limits: Limits)
    requires NonNegative(limits.day) && NonNegative(limits.week)
    requires forall k :: 0 <= k < |steps| ==> FairStep(steps[k]) && StepWithin(steps[k], limits)
    ensures Solvent(Run(steps), limits)
    ensures FairStore(Run(steps))
  {
    hide FairStep, Next, FairStore, StepWithin;
    if steps == [] {
      assert FairStore(EMPTY) by {
        NothingIsUnfair();
      }
    } else {
      hide Solvent;
      var before := steps[..|steps| - 1];
      StaysSolvent(before, limits);
      RunOk(before);
      NextStaysSolvent(Run(before), steps[|steps| - 1], limits);
      NextStaysFair(Run(before), steps[|steps| - 1]);
    }
  }
}
