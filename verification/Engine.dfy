/** The engine as it runs: the durable rows as fields, each decision enacted by one guarded
    compare-and-swap, both ledger windows written through, and the pass over all of it. */
module Engine {
  import opened Wrappers
  import opened Models
  import opened Budget
  import opened Scheduler
  import opened PassByJob
  import opened Kernel
  import opened Invariant
  import opened PassInvariant
  import opened Runs
  import opened Convergence
  import PassLoop

  // ------------------------------------------------------------------ what counts as an action

  /** The decision finds the state its compare-and-swap asks for. */
  predicate Takes(c: Cell, d: Decision) {
    match d
    case Reserve(_, _, _, _, _) => c.rec.state.Pending()
    case Hold(_, _) => c.rec.state.Queued?
    case Unhold(_) => c.rec.state.Held?
    case Fail(_, _) => c.rec.state.Pending()
    case Requeue(_) => c.rec.state.Running? && c.minted == {}
    case _ => true
  }

  function ActedOn(s: Store, d: Decision): nat {
    if d.jobId in s.cells && Takes(s.cells[d.jobId], d) then 1 else 0
  }

  /** How many decisions of `ds`, enacted in order, take effect. */
  function ActedAll(s: Store, ds: seq<Decision>, now: Time): nat {
    if ds == [] then 0
    else ActedAll(s, ds[..|ds| - 1], now) + ActedOn(EnactAll(s, ds[..|ds| - 1], now), ds[|ds| - 1])
  }

  /** How many of the jobs listed are in a set. */
  function Among(order: seq<JobId>, ids: set<JobId>): nat {
    if order == [] then 0
    else Among(order[..|order| - 1], ids) + (if order[|order| - 1] in ids then 1 else 0)
  }

  function StrandedIds(s: Store, live: set<JobId>): set<JobId> {
    set j | j in s.cells && Stranded(s, j, live)
  }

  // ------------------------------------------------------------------ compare and swap

  /** What lands together with a record: the event, the item opened or closed, the resource
      minted or released. */
  datatype Write = Write(action: Action, open: Option<WorkKind>, close: bool, mint: Option<string>,
    release: Option<string>) {
    function On(c: Cell, rec: Job): Cell {
      c.(rec := rec,
         item := if close then None else if open.Some? then open else c.item,
         minted := (c.minted + if mint.Some? then {mint.value} else {}) - if release.Some? then {release.value} else {})
       .Log(action)
    }
  }

  type Mutator = Job -> Option<Job>

  /** What a compare-and-swap comes to within so many tries, while `rivals` are the rows as
      other writers leave them between a load and its commit, one for each lost race. */
  function CasResult(cells: map<JobId, Cell>, jid: JobId, mutate: Mutator, w: Write, tries: nat,
                     rivals: seq<map<JobId, Cell>>): (map<JobId, Cell>, bool)
    decreases tries
  {
    if tries == 0 || jid !in cells || mutate(cells[jid].rec).None? then (cells, false)
    else if rivals != [] then CasResult(rivals[0], jid, mutate, w, tries - 1, rivals[1..])
    else (cells[jid := w.On(cells[jid], mutate(cells[jid].rec).value)], true)
  }

  /** `cells` is what some writer left: the rows at the start or after a rival. */
  predicate LeftBy(cells: map<JobId, Cell>, start: map<JobId, Cell>, rivals: seq<map<JobId, Cell>>) {
    cells == start || cells in rivals
  }

  /** A step that takes writes one job's rows, derived from the very rows it replaces, and all
      of its parts; a step that does not take leaves what the last writer left. */
  lemma {:induction false} CasNeverStale(cells: map<JobId, Cell>, jid: JobId, mutate: Mutator, w: Write, tries: nat,
                                         rivals: seq<map<JobId, Cell>>)
    returns (base: map<JobId, Cell>)
    ensures LeftBy(base, cells, rivals)
    ensures
      var r := CasResult(cells, jid, mutate, w, tries, rivals);
      && (r.1 ==> |rivals| < tries && jid in base && mutate(base[jid].rec).Some?
                  && r.0 == base[jid := w.On(base[jid], mutate(base[jid].rec).value)]
                  && base == (if rivals == [] then cells else rivals[|rivals| - 1]))
      && (!r.1 ==> r.0 == base && (|rivals| >= tries || jid !in base || mutate(base[jid].rec).None?))
    decreases tries
  {
    base := cells;
    if tries > 0 && jid in cells && mutate(cells[jid].rec).Some? && rivals != [] {
      base := CasNeverStale(rivals[0], jid, mutate, w, tries - 1, rivals[1..]);
      assert rivals == [rivals[0]] + rivals[1..];
    }
  }

  // ------------------------------------------------------------------ the engine

  class Engine {
    var cells: map<JobId, Cell>
    var day: seq<Entry>
    var week: seq<Entry>
    var cancels: map<JobId, bool>
    var passCount: nat

    function View(): Store
      reads this
    {
      Store(cells, day, week, cancels.Keys)
    }

    constructor ()
      ensures View() == EMPTY && passCount == 0
    {
      cells, day, week, cancels, passCount := map[], [], [], map[], 0;
    }

    /** One transition of a job's rows: `mutate` refuses by returning nothing, and then nothing
        is written; a lost race reloads and derives again, as often as there are tries. */
    method CasStep(jid: JobId, mutate: Mutator, w: Write, retries: int,
                   rivals: seq<map<JobId, Cell>>) returns (done: bool)
      modifies this`cells
      ensures (cells, done) == CasResult(old(cells), jid, mutate, w, Max(1, retries), rivals)
    {
      var tries := Max(1, retries);
      var others := rivals;
      while tries > 0
        invariant tries >= 0
        invariant CasResult(cells, jid, mutate, w, tries, others)
          == CasResult(old(cells), jid, mutate, w, Max(1, retries), rivals)
        decreases tries
      {
        if jid !in cells {
          return false;
        }
        var changed := mutate(cells[jid].rec);
        if changed.None? {
          return false;
        }
        if others == [] {
          cells := cells[jid := w.On(cells[jid], changed.value)];
          return true;
        }
        cells, others := others[0], others[1..];
        tries := tries - 1;
      }
      done := false;
    }

    /** A step of the pass: one try, with nobody else writing. */
    method PassStep(jid: JobId, mutate: Mutator, action: Action, open: Option<WorkKind>) returns (done: bool)
      modifies this`cells
      ensures done <==> jid in old(cells) && mutate(old(cells)[jid].rec).Some?
      ensures !done ==> cells == old(cells)
      ensures done ==>
        var c := old(cells)[jid];
        var item := if open.Some? then open else c.item;
        cells == old(cells)[jid := c.(rec := mutate(c.rec).value, item := item).Log(action)]
    {
      ghost var before := cells;
      done := CasStep(jid, mutate, Write(action, open, false, None, None), 1, []);
      if done {
        assert before[jid].minted + {} - {} == before[jid].minted;
      }
    }

    /** Reserve an amount, window by window. */
    method CommitRows(jid: JobId, provider: string, amount: real, now: Time)
      modifies this`day, this`week
      ensures View() == old(View()).Commit(jid, provider, amount, now)
    {
      var e := Entry(jid, provider, amount, Committed, now);
      day := day + [e];
      week := week + [e];
    }

    /** Realize the earliest reservation, window by window. */
    method SettleRows(jid: JobId, amount: real, now: Time)
      modifies this`day, this`week
      ensures View() == old(View()).Settle(jid, amount, now)
    {
      var inDay := Realize(BudgetLedger(Day, None, day), jid, amount, now);
      day := inDay.entries;
      var inWeek := Realize(BudgetLedger(Week, None, week), jid, amount, now);
      week := inWeek.entries;
    }

    method RequestCancel(jid: JobId, force: bool)
      modifies this`cancels
      ensures View() == old(View()).(cancels := old(View()).cancels + {jid})
      ensures cancels == old(cancels)[jid := force || (jid in old(cancels) && old(cancels)[jid])]
    {
      cancels := cancels[jid := force || (jid in cancels && cancels[jid])];
    }

    // ---------------------------------------------------------------- enacting one decision

    method EnactReserve(d: Decision, now: Time) returns (acted: nat)
      requires d.Reserve?
      modifies this`cells, this`day, this`week
      ensures View() == Enact(old(View()), d, now) && acted == ActedOn(old(View()), d)
    {
      hide Provisioned;
      var placement := Placement(d.provider, if d.estCost > 0.0 then Some(d.estCost) else None);
      var place := (r: Job) =>
        if r.state.Pending() then Some(r.(state := Placing, placement := Some(placement))) else None;
      var done := PassStep(d.jobId, place, AReserve, Some(PlaceItem));
      if !done {
        SameCell(old(View()), d, now);
        return 0;
      }
      if d.estCost > 0.0 {
        CommitRows(d.jobId, d.provider, d.estCost, now);
      }
      acted := 1;
    }

    method EnactHold(d: Decision, now: Time) returns (acted: nat)
      requires d.Hold?
      modifies this`cells
      ensures View() == Enact(old(View()), d, now) && acted == ActedOn(old(View()), d)
    {
      var done := PassStep(d.jobId, (r: Job) => if r.state.Queued? then Some(r.(state := Held)) else None, AHold, None);
      if !done {
        SameCell(old(View()), d, now);
      }
      acted := if done then 1 else 0;
    }

    method EnactUnhold(d: Decision, now: Time) returns (acted: nat)
      requires d.Unhold?
      modifies this`cells
      ensures View() == Enact(old(View()), d, now) && acted == ActedOn(old(View()), d)
    {
      var unhold := (r: Job) => if r.state.Held? then Some(r.(state := Queued)) else None;
      var done := PassStep(d.jobId, unhold, AUnhold, None);
      if !done {
        SameCell(old(View()), d, now);
      }
      acted := if done then 1 else 0;
    }

    method EnactFail(d: Decision, now: Time) returns (acted: nat)
      requires d.Fail?
      modifies this`cells
      ensures View() == Enact(old(View()), d, now) && acted == ActedOn(old(View()), d)
    {
      var fail := (r: Job) =>
        if r.state.Pending() then Some(r.(state := Failed, lastStatus := Some(Broke))) else None;
      var done := PassStep(d.jobId, fail, AFail, None);
      if !done {
        SameCell(old(View()), d, now);
      }
      acted := if done then 1 else 0;
    }

    /** Back to the queue, once nothing of the job is left recorded as unreleased; a paid lost
        attempt is voided. */
    method EnactRequeue(d: Decision, now: Time) returns (acted: nat)
      requires d.Requeue?
      modifies this`cells, this`day, this`week
      ensures View() == Enact(old(View()), d, now) && acted == ActedOn(old(View()), d)
    {
      if d.jobId in cells && cells[d.jobId].minted != {} {
        SameCell(old(View()), d, now);
        return 0;
      }
      var paid := if d.jobId in cells && cells[d.jobId].rec.placement.Some?
                  then cells[d.jobId].rec.placement.value.costActual else None;
      var requeue := (r: Job) =>
        if r.state.Running? then
          Some(r.(state := Queued, placement := None, lastStatus := None, logsCached := false,
                  outputsCached := false, reaped := false, notBefore := Some(now + REQUEUE_BACKOFF_S)))
        else None;
      var done := PassStep(d.jobId, requeue, ARequeue, None);
      if !done {
        SameCell(old(View()), d, now);
        return 0;
      }
      if paid.Some? {
        SettleRows(d.jobId, 0.0, now);
      }
      acted := 1;
    }

    /** Opening a work item of a follow-up kind, replacing whatever item is open. */
    method OpenItem(jid: JobId, kind: WorkKind) returns (acted: nat)
      modifies this`cells
      ensures cells == if jid in old(cells) then old(cells)[jid := old(cells)[jid].(item := Some(kind))] else old(cells)
      ensures acted == if jid in old(cells) then 1 else 0
    {
      if jid !in cells {
        return 0;
      }
      cells := cells[jid := cells[jid].(item := Some(kind))];
      acted := 1;
    }

    method EnactOne(d: Decision, now: Time) returns (acted: nat)
      modifies this`cells, this`day, this`week
      ensures View() == Enact(old(View()), d, now) && acted == ActedOn(old(View()), d)
    {
      match d
      case Reserve(_, _, _, _, _) => acted := EnactReserve(d, now);
      case Hold(_, _) => acted := EnactHold(d, now);
      case Unhold(_) => acted := EnactUnhold(d, now);
      case Fail(_, _) => acted := EnactFail(d, now);
      case Requeue(_) => acted := EnactRequeue(d, now);
      case StartCancel(jid) => acted := OpenItem(jid, CancelItem);
      case StartCapture(jid) => acted := OpenItem(jid, CaptureItem);
      case StartReap(jid) => acted := OpenItem(jid, ReapItem(false));
      case StartRelease(jid) => acted := OpenItem(jid, ReapItem(true));
    }

    // ---------------------------------------------------------------- the pass

    /** Adopt the open items of `adopts`; an adopted cancel item records its request again,
        forced if it was. */
    method AdoptItems(order: seq<JobId>, adopts: set<JobId>, forced: set<JobId>) returns (acted: nat)
      requires Enumerates(order, cells.Keys)
      modifies this`cancels
      ensures View() == Adopt(old(View()), adopts)
      ensures acted == Among(order, Adopted(old(View()), adopts))
    {
      acted := 0;
      for i := 0 to |order|
        invariant cancels.Keys == old(cancels).Keys + CancelItemsAmong(old(View()), order[..i], adopts)
        invariant acted == Among(order[..i], Adopted(old(View()), adopts))
      {
        assert order[..i + 1][..i] == order[..i];
        OneMoreCancelItem(old(View()), order, i, adopts);
        var jid := order[i];
        if jid in adopts && cells[jid].item.Some? {
          if cells[jid].item == Some(CancelItem) {
            cancels := cancels[jid := jid in forced];
          }
          acted := acted + 1;
        }
      }
      assert order[..|order|] == order;
      AllCancelItems(old(View()), order, adopts);
    }

    /** Roll back one placing job that has neither a work item nor a live task. */
    method EnactRollbackRecovery(jid: JobId, live: set<JobId>, now: Time) returns (acted: nat)
      modifies this`cells, this`day, this`week
      ensures View() == Recover(old(View()), jid, live, now)
      ensures acted == if Stranded(old(View()), jid, live) then 1 else 0
    {
      if jid !in cells || !cells[jid].rec.state.Placing? || cells[jid].item.Some? || jid in live {
        return 0;
      }
      var paid := if cells[jid].rec.placement.Some? then cells[jid].rec.placement.value.costActual else None;
      var rollBack := (r: Job) => if r.state.Placing? then Some(r.(state := Queued, placement := None)) else None;
      var done := PassStep(jid, rollBack, ARollback, None);
      if paid.Some? {
        SettleRows(jid, 0.0, now);
      }
      acted := 1;
    }

    /** The recovery loop over the jobs listed. */
    method RecoverGaps(order: seq<JobId>, live: set<JobId>, now: Time) returns (acted: nat)
      requires Enumerates(order, cells.Keys)
      modifies this`cells, this`day, this`week
      ensures View() == RecoverAll(old(View()), order, live, now)
      ensures acted == Among(order, StrandedIds(old(View()), live))
    {
      hide Recover;
      acted := 0;
      for i := 0 to |order|
        invariant View() == RecoverAll(old(View()), order[..i], live, now)
        invariant acted == Among(order[..i], StrandedIds(old(View()), live))
      {
        assert order[..i + 1][..i] == order[..i];
        StillStranded(old(View()), order, i, live, now);
        var one := EnactRollbackRecovery(order[i], live, now);
        acted := acted + one;
      }
      assert order[..|order|] == order;
    }

    /** The enactment loop over the decisions. */
    method EnactDecisions(decisions: seq<Decision>, now: Time) returns (acted: nat)
      modifies this`cells, this`day, this`week
      ensures View() == EnactAll(old(View()), decisions, now)
      ensures acted == ActedAll(old(View()), decisions, now)
    {
      hide Enact, ActedOn;
      acted := 0;
      for k := 0 to |decisions|
        invariant View() == EnactAll(old(View()), decisions[..k], now)
        invariant acted == ActedAll(old(View()), decisions[..k], now)
      {
        assert decisions[..k + 1][..k] == decisions[..k];
        var one := EnactOne(decisions[k], now);
        acted := acted + one;
      }
      assert decisions[..|decisions|] == decisions;
    }

    /** One pass: adopt, recover, take the snapshot, decide, enact. */
    method RunPass(order: seq<JobId>, slots: seq<Slot>, now: Time, cfg: Config, live: set<JobId>, adopts: set<JobId>,
                   forced: set<JobId>)
      returns (acted: nat)
      requires Enumerates(order, cells.Keys)
      modifies this
      ensures View() == Next(old(View()), Tick(order, slots, now, cfg, live, adopts))
      ensures passCount == old(passCount) + 1
      ensures acted == Actions(old(View()), order, slots, now, cfg, live, adopts)
    {
      hide Schedule, RecoverAll, EnactAll, Among, ActedAll, SnapshotOf, WalletOf, Adopted, Adopt, StrandedIds;
      AdoptedCells(View(), adopts);
      var adopted := AdoptItems(order, adopts, forced);
      var recovered := RecoverGaps(order, live, now);
      var decisions, _ := PassLoop.Pass(SnapshotOf(View(), order), slots, WalletOf(View(), cfg, now), now,
        cfg.policy, None);
      var enacted := EnactDecisions(decisions, now);
      passCount := passCount + 1;
      acted := adopted + recovered + enacted;
    }
  }

  /** What a pass counts: items adopted, jobs recovered, decisions that took. */
  function Actions(s: Store, order: seq<JobId>, slots: seq<Slot>, now: Time, cfg: Config, live: set<JobId>,
                   adopts: set<JobId>): nat
    requires Enumerates(order, s.cells.Keys)
  {
    var ready := Ready(s, order, live, adopts, now);
    Among(order, Adopted(s, adopts)) + Among(order, StrandedIds(Adopt(s, adopts), live))
    + ActedAll(ready, DecisionsOn(ready, order, slots, now, cfg), now)
  }

  function CancelItemsAmong(s: Store, order: seq<JobId>, adopts: set<JobId>): set<JobId> {
    set i | 0 <= i < |order| && order[i] in s.cells && order[i] in adopts
      && s.cells[order[i]].item == Some(CancelItem) :: order[i]
  }

  lemma {:induction false} OneMoreCancelItem(s: Store, order: seq<JobId>, i: nat, adopts: set<JobId>)
    requires i < |order|
    ensures CancelItemsAmong(s, order[..i + 1], adopts) == CancelItemsAmong(s, order[..i], adopts)
      + (if order[i] in s.cells && order[i] in adopts && s.cells[order[i]].item == Some(CancelItem) then {order[i]}
        else {})
  {
    var before, after := CancelItemsAmong(s, order[..i], adopts), CancelItemsAmong(s, order[..i + 1], adopts);
    var more := if order[i] in s.cells && order[i] in adopts && s.cells[order[i]].item == Some(CancelItem)
      then {order[i]} else {};
    forall j ensures j in after <==> j in before + more {
      if j in after {
        var k :| 0 <= k < i + 1 && order[..i + 1][k] == j;
        assert k < i ==> order[..i][k] == j;
      }
      if j in before {
        var k :| 0 <= k < i && order[..i][k] == j;
        assert order[..i + 1][k] == j;
      }
      if j in more {
        assert order[..i + 1][i] == j;
      }
    }
  }

  lemma {:induction false} AllCancelItems(s: Store, order: seq<JobId>, adopts: set<JobId>)
    requires Enumerates(order, s.cells.Keys)
    ensures Adopt(s, adopts).cancels == s.cancels + CancelItemsAmong(s, order, adopts)
  {
    forall j | j in s.cells && j in adopts && s.cells[j].item == Some(CancelItem)
      ensures j in CancelItemsAmong(s, order, adopts)
    {
      var i :| 0 <= i < |order| && order[i] == j;
    }
  }

  /** Recovering the jobs listed before does not change whether the next is stranded. */
  lemma {:induction false} StillStranded(s: Store, order: seq<JobId>, i: nat, live: set<JobId>, now: Time)
    requires i < |order| && Enumerates(order, s.cells.Keys)
    ensures Stranded(RecoverAll(s, order[..i], live, now), order[i], live) <==> order[i] in StrandedIds(s, live)
  {
    hide RecoverAll;
    RecoveredCells(s, order[..i], live, now, order[i]);
    assert order[i] !in order[..i];
  }

  /** A decision that finds another state changes nothing. */
  lemma {:induction false} SameCell(s: Store, d: Decision, now: Time)
    requires d.jobId in s.cells ==> !Takes(s.cells[d.jobId], d)
    ensures Enact(s, d, now) == s
  {
    if d.jobId in s.cells {
      assert s.cells[d.jobId := s.cells[d.jobId]] == s.cells;
    }
  }

  // ------------------------------------------------------------------ acting and deciding

  lemma {:induction false} LadderTakes(c: Cell, plan: Plan, snap: Snapshot, slots: seq<Slot>, now: Time,
                                       policy: SchedPolicy, d: Decision)
    requires PlanFits(plan, c.rec, snap, slots, now, policy) && !GoesToAdmission(c.rec, snap)
    requires c.rec.spec.jobId in snap.unreleased <==> c.minted != {}
    requires d in plan.ladder
    ensures Takes(c, d)
  {
    hide Rule, StatesOf;
  }

  lemma RulingTakes(c: Cell, ruling: Ruling, slots: seq<Slot>, d: Decision)
    requires c.rec.state.Pending() && d in RulingDecisions(c.rec, ruling, slots)
    ensures Takes(c, d)
  {
  }

  /** A reserve still finds a pending job after what admission decided for it. */
  lemma {:induction false} ReserveTakes(c: Cell, plan: Plan, slots: seq<Slot>, now: Time, d: Decision)
    requires c.rec.state.Pending() && Admitted(plan.ruling) && d.Reserve?
    ensures Takes(EnactCells(c, RulingDecisions(c.rec, plan.ruling, slots), now), d)
  {
    var ds := RulingDecisions(c.rec, plan.ruling, slots);
    assert ds == [] || ds == [Unhold(c.rec.spec.jobId)];
  }

  lemma OwnTakes(c: Cell, plan: Plan, snap: Snapshot, slots: seq<Slot>, now: Time, policy: SchedPolicy,
                 before: seq<Decision>, d: Decision, after: seq<Decision>)
    requires PlanFits(plan, c.rec, snap, slots, now, policy)
    requires c.rec.spec.jobId in snap.unreleased <==> c.minted != {}
    requires plan.Of(c.rec, GoesToAdmission(c.rec, snap), slots) == before + [d] + after
    ensures Takes(EnactCells(c, before, now), d)
  {
    hide Rule, StatesOf, RulingDecisions, EnactCells, Takes, Triage;
    var own := before + [d] + after;
    assert own[|before|] == d;
    if !GoesToAdmission(c.rec, snap) {
      assert own == plan.ladder && |plan.ladder| <= 1;
      assert before == [] && EnactCells(c, before, now) == c by {
        NothingEnacted(c, now);
      }
      LadderTakes(c, plan, snap, slots, now, policy, d);
    } else {
      assert plan.ladder == [] by {
        NoLadder(c.rec, snap);
      }
      var ruled := RulingDecisions(c.rec, plan.ruling, slots);
      assert own == ruled + plan.reserve;
      if |before| < |ruled| {
        assert before == [] && EnactCells(c, before, now) == c by {
          NothingEnacted(c, now);
        }
        assert d == ruled[0];
        RulingTakes(c, plan.ruling, slots, d);
      } else {
        assert d == plan.reserve[0];
        assert own[..|before|] == before && own[..|ruled|] == ruled && |before| == |ruled|;
        ReserveTakes(c, plan, slots, now, d);
      }
    }
  }

  lemma NothingEnacted(c: Cell, now: Time)
    ensures EnactCells(c, [], now) == c
  {
  }

  lemma NoLadder(rec: Job, snap: Snapshot)
    requires GoesToAdmission(rec, snap)
    ensures Triage(rec, snap) == []
  {
  }

  /** In a sound store no guard of an enactment ever fails: each decision still finds the
      state it was made for when its turn comes. */
  lemma {:induction false} EveryDecisionTakes(s: Store, order: seq<JobId>, slots: seq<Slot>, now: Time, cfg: Config,
                                              k: nat)
    requires StoreOk(s) && Enumerates(order, s.cells.Keys) && k < |DecisionsOn(s, order, slots, now, cfg)|
    ensures
      var ds := DecisionsOn(s, order, slots, now, cfg);
      ActedOn(EnactAll(s, ds[..k], now), ds[k]) == 1
  {
    hide StoreOk, DecisionsOn, EnactAll, EnactCells, DecisionsFor, SnapshotOf, PlanFits, Plan.Of, GoesToAdmission,
      Takes;
    var ds := DecisionsOn(s, order, slots, now, cfg);
    var d := ds[k];
    assert d in ds;
    DecisionsAreAboutJobs(s, order, slots, now, cfg, d);
    KnownId(s, d.jobId);
    CellAfter(s, ds[..k], now, d.jobId);
    var plan := PlanOfJob(s, order, slots, now, cfg, d.jobId);
    SnapshotOfJob(s, order, d.jobId);
    var jid := d.jobId;
    assert ds == ds[..k] + [d] + ds[k + 1..];
    DecisionsForConcat(ds[..k] + [d], ds[k + 1..], jid);
    DecisionsForConcat(ds[..k], [d], jid);
    AllOrNone([d], jid, jid);
    OwnTakes(s.cells[jid], plan, SnapshotOf(s, order), slots, now, cfg.policy,
             DecisionsFor(ds[..k], jid), d, DecisionsFor(ds[k + 1..], jid));
  }

  lemma {:induction false} EveryPrefixTakes(s: Store, order: seq<JobId>, slots: seq<Slot>, now: Time, cfg: Config,
                                            k: nat)
    requires StoreOk(s) && Enumerates(order, s.cells.Keys) && k <= |DecisionsOn(s, order, slots, now, cfg)|
    ensures ActedAll(s, DecisionsOn(s, order, slots, now, cfg)[..k], now) == k
  {
    hide StoreOk, DecisionsOn, EnactAll, ActedOn;
    if k > 0 {
      var ds := DecisionsOn(s, order, slots, now, cfg);
      EveryPrefixTakes(s, order, slots, now, cfg, k - 1);
      assert ds[..k][..k - 1] == ds[..k - 1];
      EveryDecisionTakes(s, order, slots, now, cfg, k - 1);
    }
  }

  lemma {:induction false} AmongAll(order: seq<JobId>, ids: set<JobId>)
    requires forall i, j :: 0 <= i < j < |order| ==> order[i] != order[j]
    requires forall j :: j in ids ==> j in order
    ensures Among(order, ids) == |ids|
  {
    if order == [] {
      assert ids == {};
    } else {
      var n := |order| - 1;
      var rest := ids - {order[n]};
      assert order == order[..n] + [order[n]];
      AmongAll(order[..n], rest);
      AmongApart(order[..n], ids, order[n]);
      assert order[n] in ids ==> ids == rest + {order[n]};
    }
  }

  lemma {:induction false} AmongApart(order: seq<JobId>, ids: set<JobId>, j: JobId)
    requires j !in order
    ensures Among(order, ids - {j}) == Among(order, ids)
  {
    if order != [] {
      assert order == order[..|order| - 1] + [order[|order| - 1]];
      AmongApart(order[..|order| - 1], ids, j);
    }
  }

  /** A pass reports one action for every adopted item, every recovered job and every decision,
      so one that reports none adopted, recovered and decided nothing. */
  lemma {:induction false} ActionsCounted(s: Store, order: seq<JobId>, slots: seq<Slot>, now: Time, cfg: Config,
                                          live: set<JobId>, adopts: set<JobId>)
    requires StoreOk(s) && Enumerates(order, s.cells.Keys)
    ensures Actions(s, order, slots, now, cfg, live, adopts)
      == |Adopted(s, adopts)| + |StrandedIds(s, live)|
       + |DecisionsOn(Ready(s, order, live, adopts, now), order, slots, now, cfg)|
  {
    hide StoreOk, DecisionsOn, RecoverAll, Among, ActedAll, Adopt;
    var ready := Ready(s, order, live, adopts, now);
    AmongAll(order, Adopted(s, adopts));
    AdoptedCells(s, adopts);
    assert StrandedIds(Adopt(s, adopts), live) == StrandedIds(s, live);
    AmongAll(order, StrandedIds(s, live));
    ReadyOk(s, order, live, adopts, now);
    var ds := DecisionsOn(ready, order, slots, now, cfg);
    EveryPrefixTakes(ready, order, slots, now, cfg, |ds|);
    assert ds[..|ds|] == ds;
  }
}
