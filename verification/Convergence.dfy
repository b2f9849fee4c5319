/** Convergence: with the clock and the slots fixed and nothing else happening, passes reach
    one that decides nothing. */
module Convergence {
  import opened Wrappers
  import opened Models
  import opened Scheduler
  import opened PassProperties
  import opened PassByJob
  import opened Kernel
  import opened Invariant
  import opened PassInvariant
  import opened Outcome
  import opened Runs
  import opened Capacity
  import opened BudgetRuns

  // ------------------------------------------------------------------ the measure

  function StatesIn(s: Store): map<JobId, JobState> {
    map j | j in s.cells :: s.cells[j].rec.state
  }

  /** The flag a ruling asks for is not the one the job carries. */
  predicate FlagIsWrong(state: JobState, ruling: Ruling) {
    || (state.Queued? && (ruling.DependencyWait? || ruling.Unsatisfiable?))
    || (state.Held? && ruling.Fitting?)
  }

  function DeadIds(s: Store): set<JobId> {
    set j | j in s.cells && s.cells[j].rec.Dead()
  }

  function PendingIds(s: Store): set<JobId> {
    set j | j in s.cells && s.cells[j].rec.state.Pending()
  }

  function RulingOn(s: Store, jid: JobId, slots: seq<Slot>, now: Time, policy: SchedPolicy): Ruling
    requires jid in s.cells
  {
    Rule(s.cells[jid].rec, StatesIn(s), slots, now, policy)
  }

  function Misflagged(s: Store, slots: seq<Slot>, now: Time, policy: SchedPolicy): set<JobId> {
    set j | j in s.cells && FlagIsWrong(s.cells[j].rec.state, RulingOn(s, j, slots, now, policy))
  }

  /** Placing without a work item: what recovery is for. */
  function Unowned(s: Store): set<JobId> {
    set j | j in s.cells && s.cells[j].rec.state.Placing? && s.cells[j].item.None?
  }

  function WithoutItem(s: Store): set<JobId> {
    set j | j in s.cells && s.cells[j].item.None?
  }

  function NotCancelling(s: Store): set<JobId> {
    set j | j in s.cells && s.cells[j].item != Some(CancelItem)
  }

  // ------------------------------------------------------------------ one job

  /** What a pass may do to one job, told by the sets above. */
  ghost predicate Progresses(c: Cell, c': Cell, ruling: Ruling, decided: bool) {
    && (c'.rec.Dead() ==> c.rec.Dead())
    && (c'.rec.state.Pending() && !c.rec.state.Pending() ==> c.rec.Dead() && !c'.rec.Dead())
    && (c'.rec.state.Pending() && c.rec.state.Pending() ==>
          c'.rec == c.rec.(state := c'.rec.state)
          && (c'.rec.state != c.rec.state ==>
                FlagIsWrong(c.rec.state, ruling) && !FlagIsWrong(c'.rec.state, ruling)))
    && (!c.rec.state.Pending() && !c'.rec.state.Pending() ==> c'.rec.state == c.rec.state)
    && (c'.rec.state.Placing? && c'.item.None? ==> c.rec.state.Placing? && c.item.None?)
    && (c'.item.None? ==> c.item.None?)
    && (c'.item != Some(CancelItem) ==> c.item != Some(CancelItem))
    && (decided ==>
          || (c.rec.Dead() && !c'.rec.Dead())
          || (c.rec.state.Pending() && !c'.rec.state.Pending())
          || (c.rec.state.Pending() && c'.rec.state.Pending() && c'.rec.state != c.rec.state)
          || (c.item.None? && c'.item.Some?)
          || (c.item != Some(CancelItem) && c'.item == Some(CancelItem)))
  }

  lemma {:induction false} OutcomeProgresses(c: Cell, c': Cell, plan: Plan, o: Outcome, cancelAsked: bool, goes: bool,
                                             slots: seq<Slot>, now: Time)
    requires o == OutcomeOf(plan, c.rec, goes) && Becomes(c, c', o, now) && Warranted(c, o, plan, cancelAsked, goes)
    requires |plan.ladder| <= 1 && (plan.reserve != [] ==> goes && Admitted(plan.ruling))
    requires !goes ==> (plan.ladder == [] <==> o.Untouched?)
    requires goes ==> plan.ladder == []
    ensures Progresses(c, c', plan.ruling, plan.Of(c.rec, goes, slots) != [])
  {
    hide ShortestUnfit;
  }

  /** `m` holds the state of each of the first `k` jobs listed. */
  ghost predicate StatesUpTo(m: map<JobId, JobState>, s: Store, order: seq<JobId>, k: nat)
    requires k <= |order|
  {
    && (forall id :: id in m <==> id in order[..k])
    && forall id :: id in order[..k] ==> id in s.cells && m[id] == s.cells[id].rec.state
  }

  lemma {:induction false} StatesOfPrefix(s: Store, order: seq<JobId>, k: nat)
    requires StoreOk(s) && Enumerates(order, s.cells.Keys) && k <= |order|
    ensures |SnapshotOf(s, order).jobs| == |order|
    ensures StatesUpTo(StatesOf(SnapshotOf(s, order).jobs[..k]), s, order, k)
  {
    hide StoreOk, SnapshotOf, PassByJob.UniqueIds, StatesOf, StatesUpTo;
    SnapshotLength(s, order);
    var jobs := SnapshotOf(s, order).jobs;
    if k == 0 {
      assert jobs[..0] == [];
      NoStates(s, order);
    } else {
      StatesOfPrefix(s, order, k - 1);
      SnapshotIsUnique(s, order);
      SnapshotAt(s, order, k - 1);
      OneMoreState(jobs, k);
      MoreStates(StatesOf(jobs[..k - 1]), s, order, k);
    }
  }

  lemma NoStates(s: Store, order: seq<JobId>)
    ensures StatesUpTo(StatesOf([]), s, order, 0)
  {
  }

  lemma {:induction false} MoreStates(m: map<JobId, JobState>, s: Store, order: seq<JobId>, k: nat)
    requires 0 < k <= |order| && order[k - 1] in s.cells && StatesUpTo(m, s, order, k - 1)
    ensures StatesUpTo(m[order[k - 1] := s.cells[order[k - 1]].rec.state], s, order, k)
  {
    assert order[..k] == order[..k - 1] + [order[k - 1]];
  }

  lemma {:induction false} OneMoreState(jobs: seq<Job>, k: nat)
    requires 0 < k <= |jobs|
    ensures StatesOf(jobs[..k]) == StatesOf(jobs[..k - 1])[jobs[k - 1].spec.jobId := jobs[k - 1].state]
  {
    assert jobs[..k][..k - 1] == jobs[..k - 1];
  }

  lemma {:induction false} StatesOfSnapshot(s: Store, order: seq<JobId>)
    requires StoreOk(s) && Enumerates(order, s.cells.Keys)
    ensures StatesOf(SnapshotOf(s, order).jobs) == StatesIn(s)
  {
    hide StoreOk, SnapshotOf, StatesOf;
    StatesOfPrefix(s, order, |order|);
    assert order[..|order|] == order;
    assert SnapshotOf(s, order).jobs[..|order|] == SnapshotOf(s, order).jobs;
  }

  lemma SnapshotLength(s: Store, order: seq<JobId>)
    requires Enumerates(order, s.cells.Keys)
    ensures |SnapshotOf(s, order).jobs| == |order|
  {
  }

  lemma {:induction false} JobProgresses(s: Store, order: seq<JobId>, slots: seq<Slot>, now: Time, cfg: Config,
                                         jid: JobId)
    requires StoreOk(s) && Enumerates(order, s.cells.Keys) && jid in s.cells
    ensures Pass(s, order, slots, now, cfg).cells.Keys == s.cells.Keys
    ensures Progresses(s.cells[jid], Pass(s, order, slots, now, cfg).cells[jid],
      RulingOn(s, jid, slots, now, cfg.policy),
                       DecisionsFor(DecisionsOn(s, order, slots, now, cfg), jid) != [])
  {
    hide StoreOk, Pass, DecisionsOn, DecisionsFor, SnapshotOf, Progresses, Becomes, Rule, StatesOf, StatesIn,
      RulingDecisions;
    var plan, o := PassOutcome(s, order, slots, now, cfg, jid);
    StatesOfSnapshot(s, order);
    hide Warranted;
    var goes := GoesToAdmission(s.cells[jid].rec, SnapshotOf(s, order));
    OutcomeProgresses(s.cells[jid], Pass(s, order, slots, now, cfg).cells[jid], plan, o, jid in s.cancels, goes,
      slots, now);
  }

  // ------------------------------------------------------------------ rulings stay

  /** The same jobs are waited for, and the same have succeeded. */
  ghost predicate SameEnds(a: map<JobId, JobState>, b: map<JobId, JobState>) {
    a.Keys == b.Keys && forall id :: id in a && a[id] != b[id] ==> a[id].Pending() && b[id].Pending()
  }

  lemma {:induction false} SameGate(deps: seq<JobId>, a: map<JobId, JobState>, b: map<JobId, JobState>, forgiving: bool)
    requires SameEnds(a, b)
    ensures WaitingDeps(deps, a) == WaitingDeps(deps, b)
    ensures DepGate(deps, a, forgiving) == DepGate(deps, b, forgiving)
  {
    if deps != [] {
      var n := |deps| - 1;
      SameGate(deps[..n], a, b, forgiving);
      assert DepWaits(deps[n], a) == DepWaits(deps[n], b);
      assert DepBreaks(deps[n], a, forgiving) == DepBreaks(deps[n], b, forgiving);
    }
  }

  /** A ruling looks neither at the job's own flag nor at which pending state others are in. */
  lemma SameRuling(rec: Job, state: JobState, a: map<JobId, JobState>, b: map<JobId, JobState>, slots: seq<Slot>,
                   now: Time, policy: SchedPolicy)
    requires SameEnds(a, b)
    ensures Rule(rec.(state := state), b, slots, now, policy) == Rule(rec, a, slots, now, policy)
  {
    hide DepGate, SameEnds;
    SameGate(rec.spec.dependsOn, a, b, rec.spec.policy.ignoreDepFailure);
    var rec' := rec.(state := state);
    assert OfferedTo(rec', slots) == OfferedTo(rec, slots) by {
      assert forall i :: 0 <= i < |slots| ==> rec'.PinAllows(slots[i]) == rec.PinAllows(slots[i]);
    }
    assert SomeOfferedFits(rec', slots) == SomeOfferedFits(rec, slots) by {
      assert forall i :: 0 <= i < |slots| ==> rec'.PinAllows(slots[i]) == rec.PinAllows(slots[i]);
    }
  }

  // ------------------------------------------------------------------ the whole store

  /** `s'` is below `s`: fewer dead placements; or as many and fewer pending jobs; or as many
      and fewer wrong flags; or as many and fewer jobs whose follow-up has not started. */
  ghost predicate Below(s: Store, s': Store, slots: seq<Slot>, now: Time, policy: SchedPolicy) {
    || DeadIds(s') < DeadIds(s)
    || (DeadIds(s') == DeadIds(s) && PendingIds(s') < PendingIds(s))
    || (DeadIds(s') == DeadIds(s) && PendingIds(s') == PendingIds(s)
        && Misflagged(s', slots, now, policy) < Misflagged(s, slots, now, policy))
    || (DeadIds(s') == DeadIds(s) && PendingIds(s') == PendingIds(s)
        && Misflagged(s', slots, now, policy) == Misflagged(s, slots, now, policy)
        && (WithoutItem(s') < WithoutItem(s)
          || (WithoutItem(s') == WithoutItem(s) && NotCancelling(s') < NotCancelling(s))))
  }

  /** Every job progressed, and the job `who` was decided about. */
  ghost predicate AllProgress(s: Store, s': Store, slots: seq<Slot>, now: Time, policy: SchedPolicy, who: JobId) {
    && s'.cells.Keys == s.cells.Keys && s'.cancels == s.cancels && who in s.cells
    && forall j :: j in s.cells ==>
         Progresses(s.cells[j], s'.cells[j], RulingOn(s, j, slots, now, policy), j == who)
  }

  lemma FlagsSettle(s: Store, s': Store, slots: seq<Slot>, now: Time, policy: SchedPolicy, who: JobId, j: JobId)
    requires AllProgress(s, s', slots, now, policy, who) && PendingIds(s') == PendingIds(s) && j in s.cells
    ensures j in Misflagged(s', slots, now, policy) ==> j in Misflagged(s, slots, now, policy)
    ensures s.cells[j].rec.state.Pending() && s'.cells[j].rec.state != s.cells[j].rec.state
      ==> j !in Misflagged(s', slots, now, policy)
  {
    hide Rule;
    var c, c' := s.cells[j], s'.cells[j];
    assert SameEnds(StatesIn(s), StatesIn(s')) by {
      EndsAgree(s, s', slots, now, policy, who);
    }
    assert c.rec.state.Pending() == c'.rec.state.Pending() by {
      assert j in PendingIds(s) <==> j in PendingIds(s');
    }
    if c.rec.state.Pending() {
      SameRuling(c.rec, c'.rec.state, StatesIn(s), StatesIn(s'), slots, now, policy);
    }
  }

  lemma EndsAgree(s: Store, s': Store, slots: seq<Slot>, now: Time, policy: SchedPolicy, who: JobId)
    requires AllProgress(s, s', slots, now, policy, who) && PendingIds(s') == PendingIds(s)
    ensures SameEnds(StatesIn(s), StatesIn(s'))
  {
    hide Rule, FlagIsWrong, Models.Job.Dead;
    forall j | j in s.cells && s.cells[j].rec.state != s'.cells[j].rec.state
      ensures s.cells[j].rec.state.Pending() && s'.cells[j].rec.state.Pending()
    {
      assert j in PendingIds(s) <==> j in PendingIds(s');
    }
  }

  lemma ProgressDescends(s: Store, s': Store, slots: seq<Slot>, now: Time, policy: SchedPolicy, who: JobId)
    requires AllProgress(s, s', slots, now, policy, who)
    ensures Below(s, s', slots, now, policy)
  {
    hide Rule, FlagIsWrong, RulingOn;
    DeadShrinks(s, s', slots, now, policy, who);
    if DeadIds(s') == DeadIds(s) {
      PendingShrinks(s, s', slots, now, policy, who);
      if PendingIds(s') == PendingIds(s) {
        FlagsShrink(s, s', slots, now, policy, who);
        if Misflagged(s', slots, now, policy) == Misflagged(s, slots, now, policy) {
          FollowUpsStart(s, s', slots, now, policy, who);
        }
      }
    }
  }

  lemma {:induction false} DeadShrinks(s: Store, s': Store, slots: seq<Slot>, now: Time, policy: SchedPolicy,
                                       who: JobId)
    requires AllProgress(s, s', slots, now, policy, who)
    ensures DeadIds(s') <= DeadIds(s)
  {
    hide RulingOn, FlagIsWrong, Models.Job.Dead;
  }

  lemma PendingShrinks(s: Store, s': Store, slots: seq<Slot>, now: Time, policy: SchedPolicy, who: JobId)
    requires AllProgress(s, s', slots, now, policy, who) && DeadIds(s') == DeadIds(s)
    ensures PendingIds(s') <= PendingIds(s)
  {
    hide RulingOn, FlagIsWrong, Models.Job.Dead;
    forall j | j in PendingIds(s') ensures j in PendingIds(s) {
      assert j in DeadIds(s) <==> j in DeadIds(s');
      assert Progresses(s.cells[j], s'.cells[j], RulingOn(s, j, slots, now, policy), j == who);
    }
  }

  lemma FlagsShrink(s: Store, s': Store, slots: seq<Slot>, now: Time, policy: SchedPolicy, who: JobId)
    requires AllProgress(s, s', slots, now, policy, who) && PendingIds(s') == PendingIds(s)
    ensures Misflagged(s', slots, now, policy) <= Misflagged(s, slots, now, policy)
  {
    hide AllProgress, RulingOn, FlagIsWrong;
    forall j | j in Misflagged(s', slots, now, policy) ensures j in Misflagged(s, slots, now, policy) {
      assert j in s.cells by {
        SameJobs(s, s', slots, now, policy, who);
      }
      FlagsSettle(s, s', slots, now, policy, who, j);
    }
  }

  lemma SameJobs(s: Store, s': Store, slots: seq<Slot>, now: Time, policy: SchedPolicy, who: JobId)
    requires AllProgress(s, s', slots, now, policy, who)
    ensures s'.cells.Keys == s.cells.Keys && who in s.cells
  {
  }

  lemma FollowUpsStart(s: Store, s': Store, slots: seq<Slot>, now: Time, policy: SchedPolicy, who: JobId)
    requires AllProgress(s, s', slots, now, policy, who)
    requires DeadIds(s') == DeadIds(s) && PendingIds(s') == PendingIds(s)
    requires Misflagged(s', slots, now, policy) == Misflagged(s, slots, now, policy)
    ensures WithoutItem(s') < WithoutItem(s)
      || (WithoutItem(s') == WithoutItem(s) && NotCancelling(s') < NotCancelling(s))
  {
    hide Rule;
    assert WithoutItem(s') <= WithoutItem(s) && NotCancelling(s') <= NotCancelling(s);
    var c, c' := s.cells[who], s'.cells[who];
    assert Progresses(c, c', RulingOn(s, who, slots, now, policy), true);
    assert who in DeadIds(s) <==> who in DeadIds(s');
    assert who in PendingIds(s) <==> who in PendingIds(s');
    assert c.rec.state.Pending() ==> c'.rec.state == c.rec.state by {
      FlagsSettle(s, s', slots, now, policy, who, who);
      assert who in Misflagged(s, slots, now, policy) <==> who in Misflagged(s', slots, now, policy);
    }
    assert who in WithoutItem(s) || who in NotCancelling(s);
    assert who !in WithoutItem(s') || who !in NotCancelling(s');
  }

  // ------------------------------------------------------------------ passes go down

  lemma {:induction false} LadderIsAboutJobs(jobs: seq<Job>, snap: Snapshot, d: Decision)
    requires d in TriageAll(jobs, snap)
    ensures HasId(jobs, d.jobId)
  {
    var n := |jobs| - 1;
    if d in TriageAll(jobs[..n], snap) {
      LadderIsAboutJobs(jobs[..n], snap, d);
      var i :| 0 <= i < n && jobs[..n][i].spec.jobId == d.jobId;
      assert jobs[i].spec.jobId == d.jobId;
    } else {
      assert jobs[n].spec.jobId == d.jobId;
    }
  }

  lemma {:induction false} AdmissionIsAboutJobs(pending: seq<Job>, states: map<JobId, JobState>, slots: seq<Slot>,
                                                now: Time, policy: SchedPolicy, d: Decision)
    requires d in AdmitAll(pending, states, slots, now, policy)
    ensures HasId(pending, d.jobId)
  {
    hide Admit;
    var n := |pending| - 1;
    if d in AdmitAll(pending[..n], states, slots, now, policy) {
      AdmissionIsAboutJobs(pending[..n], states, slots, now, policy, d);
      var i :| 0 <= i < n && pending[..n][i].spec.jobId == d.jobId;
      assert pending[i].spec.jobId == d.jobId;
    } else {
      assert pending[n].spec.jobId == d.jobId;
    }
  }

  lemma {:induction false} IdIsKnown(s: Store, order: seq<JobId>, part: seq<Job>, jid: JobId)
    requires StoreOk(s) && Enumerates(order, s.cells.Keys) && HasId(part, jid)
    requires forall k :: 0 <= k < |part| ==> part[k] in SnapshotOf(s, order).jobs
    ensures jid in s.cells
  {
    hide StoreOk, SnapshotOf;
    SnapshotIsUnique(s, order);
    SnapshotLength(s, order);
    var k :| 0 <= k < |part| && part[k].spec.jobId == jid;
    var i :| 0 <= i < |SnapshotOf(s, order).jobs| && SnapshotOf(s, order).jobs[i] == part[k];
    assert jid == order[i];
  }

  /** Every decision is about a job of the store. */
  lemma {:induction false} DecisionsAreAboutJobs(s: Store, order: seq<JobId>, slots: seq<Slot>, now: Time, cfg: Config,
                                                 d: Decision)
    requires StoreOk(s) && Enumerates(order, s.cells.Keys) && d in DecisionsOn(s, order, slots, now, cfg)
    ensures d.jobId in s.cells
  {
    hide StoreOk, SnapshotOf, StatesOf, Reserves, Ranked, ToRank, TriageAll, AdmitAll, ReserveFor, StartMatch,
      WalletOf, Rule;
    var snap := SnapshotOf(s, order);
    var pending, states := PendingOf(snap.jobs, snap), StatesOf(snap.jobs);
    if d in TriageAll(snap.jobs, snap) {
      LadderIsAboutJobs(snap.jobs, snap, d);
      IdIsKnown(s, order, snap.jobs, d.jobId);
    } else if d in AdmitAll(pending, states, slots, now, cfg.policy) {
      AdmissionIsAboutJobs(pending, states, slots, now, cfg.policy, d);
      IdIsKnown(s, order, pending, d.jobId);
    } else {
      var recs := RankedOf(s, order, slots, now, cfg);
      var k, i := ReserveOrigin(recs, slots, StartMatch(snap, slots, WalletOf(s, cfg, now)), now, cfg.policy, d);
      var jid := RankedFromStore(s, order, slots, now, cfg, k);
      KnownId(s, jid);
      ReserveIsFor(recs[k], slots, i);
    }
  }

  lemma ReserveIsFor(rec: Job, slots: seq<Slot>, i: nat)
    requires i < |slots|
    ensures ReserveFor(rec, slots, i).jobId == rec.spec.jobId
  {
  }

  /** A pass that decides anything leaves a strictly smaller store. */
  lemma {:induction false} PassDescends(s: Store, order: seq<JobId>, slots: seq<Slot>, now: Time, cfg: Config)
    requires StoreOk(s) && Enumerates(order, s.cells.Keys)
    requires DecisionsOn(s, order, slots, now, cfg) != []
    ensures Below(s, Pass(s, order, slots, now, cfg), slots, now, cfg.policy)
  {
    hide StoreOk, Pass, DecisionsOn, Progresses, Below, RulingOn, DecisionsFor;
    var ds := DecisionsOn(s, order, slots, now, cfg);
    var who := ds[0].jobId;
    assert ds[0] in ds;
    DecisionsAreAboutJobs(s, order, slots, now, cfg, ds[0]);
    InOwnDecisions(ds, 0);
    CellAfterPassOf(s, order, slots, now, cfg, who);
    var s' := Pass(s, order, slots, now, cfg);
    forall j | j in s.cells
      ensures Progresses(s.cells[j], s'.cells[j], RulingOn(s, j, slots, now, cfg.policy), j == who)
    {
      JobProgresses(s, order, slots, now, cfg, j);
      Weaker(s.cells[j], s'.cells[j], RulingOn(s, j, slots, now, cfg.policy), DecisionsFor(ds, j) != []);
    }
    ProgressDescends(s, s', slots, now, cfg.policy, who);
  }

  lemma Weaker(c: Cell, c': Cell, ruling: Ruling, decided: bool)
    requires Progresses(c, c', ruling, decided)
    ensures Progresses(c, c', ruling, false)
  {
  }

  // ------------------------------------------------------------------ rounds go down

  /** What the outside may vary from round to round: the listing of the jobs, the live tasks,
      and which open items are adopted. */
  datatype Outside = Outside(orders: nat -> seq<JobId>, lives: nat -> set<JobId>, adopts: nat -> set<JobId>)

  ghost predicate Lists(r: Outside, keys: set<JobId>) {
    forall i :: Enumerates(r.orders(i), keys)
  }

  function ReadyFor(s: Store, r: Outside, i: nat, now: Time): (ready: Store)
    ensures ready.cells.Keys == s.cells.Keys
  {
    Ready(s, r.orders(i), r.lives(i), r.adopts(i), now)
  }

  ghost function RoundOn(s: Store, r: Outside, i: nat, slots: seq<Slot>, now: Time, cfg: Config): (s': Store)
    requires Lists(r, s.cells.Keys)
    ensures s'.cells.Keys == s.cells.Keys
  {
    CellAfterPassKeys(ReadyFor(s, r, i, now), r.orders(i), slots, now, cfg);
    Pass(ReadyFor(s, r, i, now), r.orders(i), slots, now, cfg)
  }

  /** Round `i` has nothing to recover and decides nothing. */
  ghost predicate Quiet(s: Store, r: Outside, i: nat, slots: seq<Slot>, now: Time, cfg: Config)
    requires Lists(r, s.cells.Keys)
  {
    && (forall j :: j in s.cells ==> !Stranded(s, j, r.lives(i)))
    && DecisionsOn(ReadyFor(s, r, i, now), r.orders(i), slots, now, cfg) == []
  }

  lemma {:induction false} PassStrandsNobody(s: Store, order: seq<JobId>, slots: seq<Slot>, now: Time, cfg: Config)
    requires StoreOk(s) && Enumerates(order, s.cells.Keys)
    ensures Unowned(Pass(s, order, slots, now, cfg)) <= Unowned(s)
  {
    hide StoreOk, Pass, DecisionsOn, DecisionsFor, RulingOn, FlagIsWrong;
    CellAfterPassKeys(s, order, slots, now, cfg);
    forall j | j in Unowned(Pass(s, order, slots, now, cfg)) ensures j in Unowned(s) {
      JobProgresses(s, order, slots, now, cfg, j);
    }
  }

  lemma {:induction false} ReadyOwns(s: Store, r: Outside, i: nat, now: Time)
    requires Lists(r, s.cells.Keys)
    ensures Unowned(ReadyFor(s, r, i, now)) <= Unowned(s)
    ensures (exists j :: j in s.cells && Stranded(s, j, r.lives(i))) ==> Unowned(ReadyFor(s, r, i, now)) < Unowned(s)
  {
    hide Ready;
    var ready := ReadyFor(s, r, i, now);
    forall j | j in s.cells ensures ready.cells[j] == if Stranded(s, j, r.lives(i)) then RecoverCell(s.cells[j])
      else s.cells[j] {
      ReadyCells(s, r.orders(i), r.lives(i), r.adopts(i), now, j);
    }
    if j :| j in s.cells && Stranded(s, j, r.lives(i)) {
      assert j in Unowned(s) && j !in Unowned(ready);
    }
  }

  /** A round that is not quiet leaves fewer placing jobs without an item, or else a store
      below. */
  lemma {:induction false} RoundDescends(s: Store, r: Outside, i: nat, slots: seq<Slot>, now: Time, cfg: Config)
    requires StoreOk(s) && Lists(r, s.cells.Keys) && !Quiet(s, r, i, slots, now, cfg)
    ensures StoreOk(RoundOn(s, r, i, slots, now, cfg))
    ensures
      var s' := RoundOn(s, r, i, slots, now, cfg);
      Unowned(s') < Unowned(s) || (Unowned(s') == Unowned(s) && Below(s, s', slots, now, cfg.policy))
  {
    hide StoreOk, Pass, DecisionsOn, Below, Unowned, RecoverAll, Adopt;
    var ready := ReadyFor(s, r, i, now);
    ReadyOk(s, r.orders(i), r.lives(i), r.adopts(i), now);
    PassKeeps(ready, r.orders(i), slots, now, cfg);
    ReadyOwns(s, r, i, now);
    PassStrandsNobody(ready, r.orders(i), slots, now, cfg);
    if forall j :: j in s.cells ==> !Stranded(s, j, r.lives(i)) {
      PassDescends(ready, r.orders(i), slots, now, cfg);
      AdoptedCells(s, r.adopts(i));
      RecoveryIsIdle(Adopt(s, r.adopts(i)), r.orders(i), r.lives(i), now);
      BelowByCells(s, ready, RoundOn(s, r, i, slots, now, cfg), slots, now, cfg.policy);
    }
  }

  lemma AdoptedCells(s: Store, adopts: set<JobId>)
    ensures Adopt(s, adopts).cells == s.cells
  {
  }

  /** The measure is about the jobs alone. */
  lemma BelowByCells(s: Store, ready: Store, s': Store, slots: seq<Slot>, now: Time, policy: SchedPolicy)
    requires ready.cells == s.cells && Below(ready, s', slots, now, policy)
    ensures Below(s, s', slots, now, policy)
  {
    hide Rule, FlagIsWrong;
    assert DeadIds(ready) == DeadIds(s) && PendingIds(ready) == PendingIds(s);
    assert StatesIn(ready) == StatesIn(s);
    assert Misflagged(ready, slots, now, policy) == Misflagged(s, slots, now, policy);
    assert WithoutItem(ready) == WithoutItem(s) && NotCancelling(ready) == NotCancelling(s);
  }

  /** The store after `n` rounds. */
  ghost function After(s: Store, r: Outside, n: nat, slots: seq<Slot>, now: Time, cfg: Config): (s': Store)
    requires Lists(r, s.cells.Keys)
    ensures s'.cells.Keys == s.cells.Keys
  {
    if n == 0 then s else RoundOn(After(s, r, n - 1, slots, now, cfg), r, n - 1, slots, now, cfg)
  }

  /** Convergence: however each round lists the jobs, whatever is live and adopted, some round
      is reached that recovers nothing and decides nothing. */
  lemma {:induction false} Converges(s: Store, r: Outside, from: nat, slots: seq<Slot>, now: Time, cfg: Config)
    returns (n: nat)
    requires Lists(r, s.cells.Keys) && StoreOk(After(s, r, from, slots, now, cfg))
    ensures n >= from && Quiet(After(s, r, n, slots, now, cfg), r, n, slots, now, cfg)
    decreases
      Unowned(After(s, r, from, slots, now, cfg)),
      DeadIds(After(s, r, from, slots, now, cfg)),
      PendingIds(After(s, r, from, slots, now, cfg)),
      Misflagged(After(s, r, from, slots, now, cfg), slots, now, cfg.policy),
      WithoutItem(After(s, r, from, slots, now, cfg)),
      NotCancelling(After(s, r, from, slots, now, cfg))
  {
    hide StoreOk, RoundOn, Quiet, Lists, Unowned, DeadIds, PendingIds, Misflagged, WithoutItem, NotCancelling;
    var here := After(s, r, from, slots, now, cfg);
    if Quiet(here, r, from, slots, now, cfg) {
      return from;
    }
    RoundDescends(here, r, from, slots, now, cfg);
    n := Converges(s, r, from + 1, slots, now, cfg);
  }

  /** So it does from every reachable store. */
  lemma {:induction false} RunsConverge(steps: seq<Step>, r: Outside, slots: seq<Slot>, now: Time, cfg: Config)
    returns (n: nat)
    requires Lists(r, Run(steps).cells.Keys)
    ensures Quiet(After(Run(steps), r, n, slots, now, cfg), r, n, slots, now, cfg)
  {
    hide StoreOk, Run, RoundOn, Quiet, Lists;
    RunOk(steps);
    n := Converges(Run(steps), r, 0, slots, now, cfg);
  }
}
