/** Capacity over whole runs: a provider never runs more jobs than its largest slot ever had
    room for. */
module Capacity {
  import opened Wrappers
  import opened Models
  import opened Budget
  import opened Scheduler
  import opened PassProperties
  import opened PassByJob
  import opened Explain
  import opened Kernel
  import opened Invariant
  import opened PassInvariant
  import opened Outcome
  import opened Runs

  predicate ActiveAt(c: Cell, provider: string) {
    c.rec.state.Active() && c.rec.placement.Some? && c.rec.placement.value.provider == provider
  }

  /** The jobs placing or running on a provider. */
  function ActiveIds(s: Store, provider: string): set<JobId> {
    set j | j in s.cells && ActiveAt(s.cells[j], provider)
  }

  /** The largest capacity among a provider's slots; 0 without any. */
  function TopCapacity(slots: seq<Slot>, provider: string): (top: int)
    ensures top >= 0
    ensures forall i :: 0 <= i < |slots| && slots[i].provider == provider ==> slots[i].capacity <= top
    ensures top == 0 || exists i :: 0 <= i < |slots| && slots[i].provider == provider && slots[i].capacity == top
  {
    if slots == [] then 0
    else
      var n := |slots| - 1;
      var rest := TopCapacity(slots[..n], provider);
      assert forall i :: 0 <= i < n ==> slots[..n][i] == slots[i];
      if slots[n].provider == provider then Max(rest, slots[n].capacity) else rest
  }

  /** The largest capacity a provider was ever offered at during a run. */
  function PeakCapacity(steps: seq<Step>, provider: string): (peak: int)
    ensures peak >= 0
  {
    if steps == [] then 0
    else
      var rest := PeakCapacity(steps[..|steps| - 1], provider);
      var step := steps[|steps| - 1];
      if step.Tick? then Max(rest, TopCapacity(step.slots, provider)) else rest
  }

  // ------------------------------------------------------------------ counting

  function ActiveAmong(s: Store, order: seq<JobId>, provider: string): set<JobId>
    requires forall i :: 0 <= i < |order| ==> order[i] in s.cells
  {
    set i | 0 <= i < |order| && ActiveAt(s.cells[order[i]], provider) :: order[i]
  }

  /** The pass's own count of active jobs is the number of such jobs. */
  lemma {:induction false} ActiveOnCounts(s: Store, order: seq<JobId>, provider: string)
    requires forall i :: 0 <= i < |order| ==> order[i] in s.cells
    requires forall i, j :: 0 <= i < j < |order| ==> order[i] != order[j]
    ensures ActiveOn(RecordsOf(s, order), provider) == |ActiveAmong(s, order, provider)|
  {
    hide ActiveAmong, RecordsOf;
    if order == [] {
      assert ActiveAmong(s, [], provider) == {} by {
        NobodyAmong(s, provider);
      }
    } else {
      var n := |order| - 1;
      ActiveOnCounts(s, order[..n], provider);
      assert RecordsOf(s, order)[..n] == RecordsOf(s, order[..n]);
      OneMoreActive(s, order, provider);
    }
  }

  lemma NobodyAmong(s: Store, provider: string)
    ensures ActiveAmong(s, [], provider) == {}
  {
  }

  lemma {:induction false} OneMoreActive(s: Store, order: seq<JobId>, provider: string)
    requires order != [] && forall i :: 0 <= i < |order| ==> order[i] in s.cells
    requires forall i, j :: 0 <= i < j < |order| ==> order[i] != order[j]
    ensures
      var last := order[|order| - 1];
      && last !in ActiveAmong(s, order[..|order| - 1], provider)
      && ActiveAmong(s, order, provider)
         == ActiveAmong(s, order[..|order| - 1], provider) + (if ActiveAt(s.cells[last], provider) then {last} else {})
  {
    hide ActiveAt;
    var n := |order| - 1;
    var before, all := ActiveAmong(s, order[..n], provider), ActiveAmong(s, order, provider);
    var more := if ActiveAt(s.cells[order[n]], provider) then {order[n]} else {};
    forall j ensures j in all <==> j in before + more {
      if j in all {
        var i :| 0 <= i < |order| && ActiveAt(s.cells[order[i]], provider) && order[i] == j;
        assert i < n ==> order[..n][i] == j;
      }
      if j in before {
        var i :| 0 <= i < n && ActiveAt(s.cells[order[..n][i]], provider) && order[..n][i] == j;
        assert order[i] == j;
      }
    }
  }

  lemma ActiveOnSnapshot(s: Store, order: seq<JobId>, provider: string)
    requires Enumerates(order, s.cells.Keys)
    ensures ActiveOn(SnapshotOf(s, order).jobs, provider) == |ActiveIds(s, provider)|
  {
    hide ActiveOn;
    ActiveOnCounts(s, order, provider);
    forall j ensures j in ActiveAmong(s, order, provider) <==> j in ActiveIds(s, provider) {
      if j in ActiveIds(s, provider) {
        var i :| 0 <= i < |order| && order[i] == j;
      }
    }
    assert ActiveAmong(s, order, provider) == ActiveIds(s, provider);
  }

  function ReservedIds(ds: seq<Decision>, provider: string): set<JobId> {
    set i | 0 <= i < |ds| && ds[i].Reserve? && ds[i].provider == provider :: ds[i].jobId
  }

  lemma {:induction false} FewReservedIds(ds: seq<Decision>, provider: string)
    ensures |ReservedIds(ds, provider)| <= ReservedOn(ds, provider)
  {
    if ds != [] {
      var n := |ds| - 1;
      FewReservedIds(ds[..n], provider);
      var before, all := ReservedIds(ds[..n], provider), ReservedIds(ds, provider);
      assert all == before + (if ds[n].Reserve? && ds[n].provider == provider then {ds[n].jobId} else {});
    }
  }

  // ------------------------------------------------------------------ one pass

  /** Active jobs and this pass's reserves together fit the provider's largest slot, as soon
      as there is one reserve. */
  lemma {:induction false} ReservesFit(recs: seq<Job>, snap: Snapshot, slots: seq<Slot>, wallet: Wallet, now: Time,
                                       policy: SchedPolicy, provider: string)
    ensures
      var made := ReservedOn(Reserves(recs, slots, StartMatch(snap, slots, wallet), now, policy), provider);
      made > 0 ==> ActiveOn(snap.jobs, provider) + made <= TopCapacity(slots, provider)
  {
    hide Choose, StartMatch, ActiveOn, TopCapacity, MatchAll, ReserveFor;
    if recs != [] {
      var n := |recs| - 1;
      var m := StartMatch(snap, slots, wallet);
      ReservesFit(recs[..n], snap, slots, wallet, now, policy, provider);
      var prior := Reserves(recs[..n], slots, m, now, policy);
      var choice := ChoiceOf(recs, n, slots, m, now, policy);
      if choice.Some? {
        var d := ReserveFor(recs[n], slots, choice.value);
        assert (prior + [d])[..|prior|] == prior;
        assert d.provider == slots[choice.value].provider by {
          ReserveNames(recs[n], slots, choice.value);
        }
        ReserveRespectsCapacity(recs, n, snap, slots, wallet, now, policy);
        assert ReservedOn(prior + [d], provider) == ReservedOn(prior, provider)
          + (if d.provider == provider then 1 else 0);
      }
    }
  }

  lemma ReserveNames(rec: Job, slots: seq<Slot>, i: nat)
    requires i < |slots|
    ensures ReserveFor(rec, slots, i).Reserve? && ReserveFor(rec, slots, i).provider == slots[i].provider
  {
  }

  ghost function RankedOf(s: Store, order: seq<JobId>, slots: seq<Slot>, now: Time, cfg: Config): seq<Job>
    requires Enumerates(order, s.cells.Keys)
  {
    Ranked(ToRank(SnapshotOf(s, order), slots, now, cfg.policy), now)
  }

  ghost function ReservesOn(s: Store, order: seq<JobId>, slots: seq<Slot>, now: Time, cfg: Config): seq<Decision>
    requires Enumerates(order, s.cells.Keys)
  {
    Reserves(RankedOf(s, order, slots, now, cfg), slots,
             StartMatch(SnapshotOf(s, order), slots, WalletOf(s, cfg, now)), now, cfg.policy)
  }

  /** A job active after a pass was active before it, on the same provider, or was reserved
      there by this pass. */
  lemma {:induction false} NewlyActive(s: Store, order: seq<JobId>, slots: seq<Slot>, now: Time, cfg: Config,
                                       provider: string)
    requires StoreOk(s) && Enumerates(order, s.cells.Keys)
    ensures ActiveIds(Pass(s, order, slots, now, cfg), provider)
         <= ActiveIds(s, provider) + ReservedIds(ReservesOn(s, order, slots, now, cfg), provider)
  {
    hide StoreOk, Pass, ReservesOn, ReservedIds, SnapshotOf, Warranted, PlanFits, Plan.Of, DecisionsFor,
      GoesToAdmission, OutcomeOf;
    CellAfterPassKeys(s, order, slots, now, cfg);
    forall jid | jid in ActiveIds(Pass(s, order, slots, now, cfg), provider) && jid !in ActiveIds(s, provider)
      ensures jid in ReservedIds(ReservesOn(s, order, slots, now, cfg), provider)
    {
      var d := NewlyActiveIsReserved(s, order, slots, now, cfg, jid, provider);
      InReservedIds(ReservesOn(s, order, slots, now, cfg), provider, d);
    }
  }

  lemma InReservedIds(ds: seq<Decision>, provider: string, d: Decision)
    requires d in ds && d.Reserve? && d.provider == provider
    ensures d.jobId in ReservedIds(ds, provider)
  {
  }

  lemma {:induction false} CellAfterPassKeys(s: Store, order: seq<JobId>, slots: seq<Slot>, now: Time, cfg: Config)
    requires Enumerates(order, s.cells.Keys)
    ensures Pass(s, order, slots, now, cfg).cells.Keys == s.cells.Keys
  {
    hide DecisionsOn, EnactAll;
    CellAfter(s, DecisionsOn(s, order, slots, now, cfg), now, "");
  }

  /** The placement a reserve makes: priced only if that is more than nothing. */
  function PlacementFor(d: Decision): Placement
    requires d.Reserve?
  {
    Placement(d.provider, if d.estCost > 0.0 then Some(d.estCost) else None)
  }

  lemma {:induction false} NewlyActiveIsReserved(s: Store, order: seq<JobId>, slots: seq<Slot>, now: Time, cfg: Config,
                                                 jid: JobId, provider: string)
    returns (d: Decision)
    requires StoreOk(s) && Enumerates(order, s.cells.Keys) && jid in s.cells
    requires Pass(s, order, slots, now, cfg).cells.Keys == s.cells.Keys
    requires ActiveAt(Pass(s, order, slots, now, cfg).cells[jid], provider) && !ActiveAt(s.cells[jid], provider)
    ensures d.Reserve? && d.jobId == jid && d.provider == provider
    ensures Pass(s, order, slots, now, cfg).cells[jid].rec.placement == Some(PlacementFor(d))
    ensures d in ReservesOn(s, order, slots, now, cfg)
  {
    hide StoreOk, Pass, Reserves, Ranked, ToRank, StartMatch, SnapshotOf, WalletOf, DecisionsOn, DecisionsFor,
      GoesToAdmission, OutcomeOf, RulingDecisions, Rule,
      Triage;
    var plan, o := PassOutcome(s, order, slots, now, cfg, jid);
    KnownId(s, jid);
    assert o.Reserved?;
    d := o.d;
    var ds := DecisionsOn(s, order, slots, now, cfg);
    assert d in plan.reserve;
    assert d in DecisionsFor(ds, jid);
    assert d in ds by {
      InDecisionsFor(ds, jid);
    }
    IsReserveOfPass(s, order, slots, now, cfg, d);
  }

  lemma {:induction false} IsReserveOfPass(s: Store, order: seq<JobId>, slots: seq<Slot>, now: Time, cfg: Config,
                                           d: Decision)
    requires Enumerates(order, s.cells.Keys) && d.Reserve? && d in DecisionsOn(s, order, slots, now, cfg)
    ensures d in ReservesOn(s, order, slots, now, cfg)
  {
    hide Schedule, Reserves, Ranked, ToRank, StartMatch, SnapshotOf, WalletOf;
    ReservesOfPass(SnapshotOf(s, order), slots, WalletOf(s, cfg, now), now, cfg.policy, d);
  }

  lemma {:induction false} PassFits(s: Store, order: seq<JobId>, slots: seq<Slot>, now: Time, cfg: Config,
                                    provider: string)
    requires StoreOk(s) && Enumerates(order, s.cells.Keys)
    ensures |ActiveIds(Pass(s, order, slots, now, cfg), provider)| <= Max(|ActiveIds(s, provider)|,
      TopCapacity(slots, provider))
  {
    hide StoreOk, Pass, Reserves, Ranked, ToRank, StartMatch, SnapshotOf, WalletOf, ActiveIds, ReservedIds,
      TopCapacity, ReservedOn, ActiveOn,
      ReservesOn;
    var ds := ReservesOn(s, order, slots, now, cfg);
    NewlyActive(s, order, slots, now, cfg, provider);
    FewReservedIds(ds, provider);
    ActiveOnSnapshot(s, order, provider);
    FitsOn(s, order, slots, now, cfg, provider);
    Fewer(ActiveIds(Pass(s, order, slots, now, cfg), provider), ActiveIds(s, provider), ReservedIds(ds, provider));
  }

  lemma {:induction false} FitsOn(s: Store, order: seq<JobId>, slots: seq<Slot>, now: Time, cfg: Config,
                                  provider: string)
    requires Enumerates(order, s.cells.Keys)
    ensures
      var made := ReservedOn(ReservesOn(s, order, slots, now, cfg), provider);
      made > 0 ==> ActiveOn(SnapshotOf(s, order).jobs, provider) + made <= TopCapacity(slots, provider)
  {
    hide Reserves, Ranked, ToRank, StartMatch, SnapshotOf, WalletOf, TopCapacity, ReservedOn, ActiveOn;
    ReservesFit(RankedOf(s, order, slots, now, cfg), SnapshotOf(s, order), slots, WalletOf(s, cfg, now), now,
      cfg.policy, provider);
  }

  lemma Fewer(a: set<JobId>, b: set<JobId>, c: set<JobId>)
    requires a <= b + c
    ensures |a| <= |b| + |c|
  {
    Smaller(a, b + c);
    assert b + c == b + (c - b);
    Smaller(c - b, c);
  }

  lemma {:induction false} Smaller(a: set<JobId>, b: set<JobId>)
    requires a <= b
    ensures |a| <= |b|
  {
    if a != {} {
      var x :| x in a;
      Smaller(a - {x}, b - {x});
    }
  }

  // ------------------------------------------------------------------ whole runs

  lemma {:induction false} OffThePass(s: Store, step: Step, provider: string)
    requires StoreOk(s) && !step.Tick?
    ensures ActiveIds(Next(s, step), provider) <= ActiveIds(s, provider)
  {
    hide StoreOk, StepOn, CellStep, CellOk;
    if OfOneJob(step) && step.jid in s.cells {
      var c := s.cells[step.jid];
      StepOnFrame(s, step);
      KnownCell(s, step.jid);
      CellStepMoves(step.jid, c, step);
      var c' := CellStep(c, step);
      assert ActiveAt(c', provider) ==> ActiveAt(c, provider);
    }
  }

  lemma {:induction false} ReadyIsNoFuller(s: Store, order: seq<JobId>, live: set<JobId>, adopts: set<JobId>, now: Time,
                                           provider: string)
    requires Enumerates(order, s.cells.Keys)
    ensures ActiveIds(Ready(s, order, live, adopts, now), provider) <= ActiveIds(s, provider)
  {
    hide Ready;
    forall j | j in ActiveIds(Ready(s, order, live, adopts, now), provider) ensures j in ActiveIds(s, provider) {
      ReadyCells(s, order, live, adopts, now, j);
    }
  }

  /** Whole-run capacity: from the empty store, in every reachable state, a provider never has
      more jobs placing and running than the largest capacity it was ever offered with. */
  lemma {:induction false} CapacityOverRuns(steps: seq<Step>, provider: string)
    ensures |ActiveIds(Run(steps), provider)| <= PeakCapacity(steps, provider)
  {
    hide Pass, RecoverAll, Adopt, ActiveIds, TopCapacity;
    if steps == [] {
      assert ActiveIds(EMPTY, provider) == {} by {
        NobodyYet(provider);
      }
    } else {
      var before, step := steps[..|steps| - 1], steps[|steps| - 1];
      CapacityOverRuns(before, provider);
      RunOk(before);
      var s := Run(before);
      hide StoreOk, Run;
      if step.Tick? {
        if Enumerates(step.order, s.cells.Keys) {
          var ready := Ready(s, step.order, step.live, step.adopts, step.now);
          ReadyOk(s, step.order, step.live, step.adopts, step.now);
          ReadyIsNoFuller(s, step.order, step.live, step.adopts, step.now, provider);
          Smaller(ActiveIds(ready, provider), ActiveIds(s, provider));
          PassFits(ready, step.order, step.slots, step.now, step.cfg, provider);
        }
      } else {
        OffThePass(s, step, provider);
        Smaller(ActiveIds(Next(s, step), provider), ActiveIds(s, provider));
      }
      assert Run(steps) == Next(s, step) by {
        RunStep(steps);
      }
    }
  }

  lemma NobodyYet(provider: string)
    ensures ActiveIds(EMPTY, provider) == {}
  {
  }

  lemma {:induction false} RunStep(steps: seq<Step>)
    requires steps != []
    ensures Run(steps) == Next(Run(steps[..|steps| - 1]), steps[|steps| - 1])
  {
    hide Next;
  }

  predicate FixedSupply(steps: seq<Step>, supply: seq<Slot>) {
    forall k :: 0 <= k < |steps| && steps[k].Tick? ==> steps[k].slots == supply
  }

  lemma {:induction false} PeakOfFixedSupply(steps: seq<Step>, supply: seq<Slot>, provider: string)
    requires FixedSupply(steps, supply)
    ensures PeakCapacity(steps, provider) <= TopCapacity(supply, provider)
  {
    hide TopCapacity;
    if steps != [] {
      PeakOfFixedSupply(steps[..|steps| - 1], supply, provider);
    }
  }

  /** With a fixed slot supply, a provider never exceeds the largest capacity among its slots. */
  lemma CapacityOfFixedSupply(steps: seq<Step>, supply: seq<Slot>, provider: string)
    requires FixedSupply(steps, supply)
    ensures |ActiveIds(Run(steps), provider)| <= TopCapacity(supply, provider)
  {
    hide Run, ActiveIds, TopCapacity, FixedSupply;
    CapacityOverRuns(steps, provider);
    PeakOfFixedSupply(steps, supply, provider);
  }
}
