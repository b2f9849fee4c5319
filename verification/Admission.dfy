/** What admission means for a job, said without its order of checks: when a pass gives a job
    up, holds it, frees it - and what must be true of a job it places. */
module Admission {
  import opened Wrappers
  import opened Models
  import opened Scheduler
  import opened PassByJob
  import opened Kernel
  import opened Invariant
  import opened PassInvariant
  import opened Outcome
  import opened Capacity
  import opened BudgetRuns
  import opened Convergence
  import opened PassProperties
  import opened Requirements

  ghost predicate SomeDepBroken(rec: Job, states: map<JobId, JobState>) {
    exists dep :: dep in rec.spec.dependsOn && DepBreaks(dep, states, rec.spec.policy.ignoreDepFailure)
  }

  ghost predicate SomeDepWaits(rec: Job, states: map<JobId, JobState>) {
    exists dep :: dep in rec.spec.dependsOn && DepWaits(dep, states)
  }

  lemma {:induction false} WaitingMembers(deps: seq<JobId>, states: map<JobId, JobState>)
    ensures forall dep :: dep in WaitingDeps(deps, states) <==> dep in deps && DepWaits(dep, states)
  {
    if deps != [] {
      WaitingMembers(deps[..|deps| - 1], states);
      assert deps == deps[..|deps| - 1] + [deps[|deps| - 1]];
    }
  }

  /** Each ruling, by what holds of the job. */
  lemma RulingMeans(rec: Job, states: map<JobId, JobState>, slots: seq<Slot>, now: Time, policy: SchedPolicy)
    ensures
      var r := Rule(rec, states, slots, now, policy);
      var out, broken, waits := OutOfAttempts(rec, policy), SomeDepBroken(rec, states), SomeDepWaits(rec, states);
      && (r.Exhausted? <==> out)
      && (r.DependencyBroken? <==> !out && broken)
      && (r.DependencyWait? <==> !out && !broken && waits)
      && (r.BackingOff? <==> !out && !broken && !waits && rec.BackingOff(now))
      && (r.NotOffered? <==> !out && !broken && !waits && !rec.BackingOff(now) && !OfferedTo(rec, slots))
      && (r.Fitting? <==> !out && !broken && !waits && !rec.BackingOff(now) && SomeOfferedFits(rec, slots))
  {
    hide OutOfAttempts, Models.Job.BackingOff, Models.Slot.Fits, Models.Job.PinAllows, DepBreaks, DepWaits;
    var deps := rec.spec.dependsOn;
    WaitingMembers(deps, states);
    var gate := DepGate(deps, states, rec.spec.policy.ignoreDepFailure);
    if gate.AwaitsDeps? {
      assert gate.deps[0] in gate.deps;
    }
  }

  /** A dependency failed, was cancelled or is unknown, and the job does not forgive it. */
  ghost predicate Doomed(s: Store, rec: Job) {
    !rec.spec.policy.ignoreDepFailure
    && exists dep :: dep in rec.spec.dependsOn
         && (dep in s.cells ==> s.cells[dep].rec.state == Failed || s.cells[dep].rec.state == Cancelled)
  }

  /** A dependency has not ended. */
  ghost predicate Waits(s: Store, rec: Job) {
    exists dep :: dep in rec.spec.dependsOn && dep in s.cells
      && s.cells[dep].rec.state in {Queued, Held, Placing, JobState.Running}
  }

  /** The job is pinned nowhere else. */
  predicate Allowed(rec: Job, slot: Slot) {
    rec.spec.onlyBackend.Some? ==> rec.spec.onlyBackend.value == slot.provider
  }

  ghost predicate Serves(rec: Job, slot: Slot) {
    Allowed(rec, slot) && Suits(slot.capabilities, rec.spec.resources)
  }

  /** The terms of a ruling, by the fields of the records. */
  lemma {:induction false} RulingInPlainTerms(s: Store, rec: Job, slots: seq<Slot>, now: Time, policy: SchedPolicy)
    ensures OutOfAttempts(rec, policy) <==> rec.attempts >= policy.maxAttempts && rec.lastError.Some?
    ensures SomeDepBroken(rec, StatesIn(s)) <==> Doomed(s, rec)
    ensures SomeDepWaits(rec, StatesIn(s)) <==> Waits(s, rec)
    ensures rec.BackingOff(now) <==> rec.notBefore.Some? && now < rec.notBefore.value
    ensures OfferedTo(rec, slots) <==> exists i :: 0 <= i < |slots| && Allowed(rec, slots[i])
    ensures SomeOfferedFits(rec, slots) <==> exists i :: 0 <= i < |slots| && Serves(rec, slots[i])
  {
    hide Suits, Models.Slot.Fits;
    forall i | 0 <= i < |slots|
      ensures Serves(rec, slots[i]) <==> rec.PinAllows(slots[i]) && slots[i].Fits(rec.spec.resources)
      ensures Allowed(rec, slots[i]) <==> rec.PinAllows(slots[i])
    {
      FitsIff(slots[i], rec.spec.resources);
    }
    forall dep ensures DepBreaks(dep, StatesIn(s), rec.spec.policy.ignoreDepFailure) <==>
      !rec.spec.policy.ignoreDepFailure
      && (dep in s.cells ==> s.cells[dep].rec.state == Failed || s.cells[dep].rec.state == Cancelled)
    {
    }
    forall dep ensures DepWaits(dep, StatesIn(s)) <==>
      dep in s.cells && s.cells[dep].rec.state in {Queued, Held, Placing, JobState.Running}
    {
    }
  }

  /** The job is queued or held with no work item open and no cancel asked for. */
  predicate Deciding(s: Store, jid: JobId)
    requires jid in s.cells
  {
    s.cells[jid].rec.state.Pending() && s.cells[jid].item.None? && jid !in s.cancels
  }

  lemma {:induction false} RuledOn(s: Store, order: seq<JobId>, slots: seq<Slot>, now: Time, cfg: Config, jid: JobId)
    returns (o: Outcome)
    requires StoreOk(s) && Enumerates(order, s.cells.Keys) && jid in s.cells
    ensures Pass(s, order, slots, now, cfg).cells.Keys == s.cells.Keys
    ensures Becomes(s.cells[jid], Pass(s, order, slots, now, cfg).cells[jid], o, now)
    ensures !Deciding(s, jid) ==> o.Untouched? || o.Started? || o.Requeued?
    ensures o.Requeued? ==> s.cells[jid].rec.state.Running?
    ensures Deciding(s, jid) ==>
      var r := RulingOn(s, jid, slots, now, cfg.policy);
      && (o.GivenUp? <==> r.Exhausted? || r.DependencyBroken?)
      && (o.HeldNow? <==> s.cells[jid].rec.state.Queued? && (r.DependencyWait? || r.Unsatisfiable?))
      && (o.Freed? ==> s.cells[jid].rec.state.Held? && r.Fitting?)
      && (o.Reserved? ==> r.Fitting? || r.NotOffered?)
      && !o.Started? && !o.Requeued?
      && (r.Fitting? && s.cells[jid].rec.state.Held? ==> o.Freed? || o.Reserved?)
  {
    hide StoreOk, Pass, DecisionsOn, DecisionsFor, SnapshotOf, Rule, StatesOf, Becomes, RulingDecisions, StatesIn;
    var plan;
    plan, o := PassOutcome(s, order, slots, now, cfg, jid);
    StatesOfSnapshot(s, order);
  }

  /** A pass gives a pending job up exactly when nothing else owns it and it is out of attempts
      or has a dependency that failed, was cancelled or is unknown - unless forgiven. */
  lemma {:induction false} GivenUpIff(s: Store, order: seq<JobId>, slots: seq<Slot>, now: Time, cfg: Config, jid: JobId)
    requires StoreOk(s) && Enumerates(order, s.cells.Keys) && jid in s.cells && s.cells[jid].rec.state.Pending()
    ensures jid in Pass(s, order, slots, now, cfg).cells
    ensures Pass(s, order, slots, now, cfg).cells[jid].rec.state == Failed <==>
      s.cells[jid].item.None? && jid !in s.cancels
      && ((s.cells[jid].rec.attempts >= cfg.policy.maxAttempts && s.cells[jid].rec.lastError.Some?)
          || Doomed(s, s.cells[jid].rec))
  {
    hide StoreOk, Pass, Rule, OutOfAttempts, SomeDepBroken, SomeDepWaits, StatesIn, Doomed, Waits, Serves;
    RulingInPlainTerms(s, s.cells[jid].rec, slots, now, cfg.policy);
    var o := RuledOn(s, order, slots, now, cfg, jid);
    RulingMeans(s.cells[jid].rec, StatesIn(s), slots, now, cfg.policy);
  }

  /** A queued job is held exactly when it may be decided about, is not given up, and either
      waits for a dependency or - with no backoff running - is offered slots none of which
      fits. */
  lemma {:induction false} HeldIff(s: Store, order: seq<JobId>, slots: seq<Slot>, now: Time, cfg: Config, jid: JobId)
    requires StoreOk(s) && Enumerates(order, s.cells.Keys) && jid in s.cells && s.cells[jid].rec.state.Queued?
    ensures jid in Pass(s, order, slots, now, cfg).cells
    ensures
      var rec := s.cells[jid].rec;
      Pass(s, order, slots, now, cfg).cells[jid].rec.state == Held <==>
        && s.cells[jid].item.None? && jid !in s.cancels
        && !(rec.attempts >= cfg.policy.maxAttempts && rec.lastError.Some?) && !Doomed(s, rec)
        && (Waits(s, rec)
            || ((rec.notBefore.Some? ==> rec.notBefore.value <= now)
                && (exists i :: 0 <= i < |slots| && Allowed(rec, slots[i]))
                && forall i :: 0 <= i < |slots| ==> !Serves(rec, slots[i])))
  {
    hide StoreOk, Pass, OutOfAttempts, SomeDepBroken, SomeDepWaits, StatesIn, Models.Job.BackingOff, Doomed, Waits,
      Serves, Allowed;
    RulingInPlainTerms(s, s.cells[jid].rec, slots, now, cfg.policy);
    var o := RuledOn(s, order, slots, now, cfg, jid);
    RulingMeans(s.cells[jid].rec, StatesIn(s), slots, now, cfg.policy);
    OfferedIfFits(s.cells[jid].rec, slots);
    hide Rule;
  }

  lemma OfferedIfFits(rec: Job, slots: seq<Slot>)
    ensures SomeOfferedFits(rec, slots) ==> OfferedTo(rec, slots)
  {
  }

  /** Whatever a pass places had no other owner, was not out of attempts nor backing off, had
      every dependency ended - and succeeded, unless forgiven - and got an offered slot with
      room that fits it. */
  lemma {:induction false} PlacedRightly(s: Store, order: seq<JobId>, slots: seq<Slot>, now: Time, cfg: Config,
                                         jid: JobId)
    requires StoreOk(s) && Enumerates(order, s.cells.Keys) && jid in s.cells
    requires jid in Pass(s, order, slots, now, cfg).cells
    requires Pass(s, order, slots, now, cfg).cells[jid].rec.state.Placing? && s.cells[jid].rec.state.Pending()
    ensures
      var rec, placed := s.cells[jid].rec, Pass(s, order, slots, now, cfg).cells[jid].rec;
      && s.cells[jid].item.None? && jid !in s.cancels
      && (rec.attempts >= cfg.policy.maxAttempts ==> rec.lastError.None?)
      && (rec.notBefore.Some? ==> rec.notBefore.value <= now)
      && (forall dep :: dep in rec.spec.dependsOn && dep in s.cells ==> s.cells[dep].rec.state.Terminal())
      && (!rec.spec.policy.ignoreDepFailure ==>
            forall dep :: dep in rec.spec.dependsOn ==> dep in s.cells && s.cells[dep].rec.state == Succeeded)
      && placed.placement.Some?
      && exists i :: 0 <= i < |slots| && GoodSlot(rec, slots[i], placed.placement.value, now, cfg.policy)
  {
    hide StoreOk, Pass, Rule, OutOfAttempts, SomeDepBroken, SomeDepWaits, Models.Job.BackingOff, ReservesOn;
    var o := RuledOn(s, order, slots, now, cfg, jid);
    var rec := s.cells[jid].rec;
    RulingInPlainTerms(s, rec, slots, now, cfg.policy);
    var placement := Pass(s, order, slots, now, cfg).cells[jid].rec.placement.value;
    var provider := placement.provider;
    RulingMeans(rec, StatesIn(s), slots, now, cfg.policy);
    DepsEnded(rec, StatesIn(s));
    var d := NewlyActiveIsReserved(s, order, slots, now, cfg, jid, provider);
    var i := ReservedSlot(s, order, slots, now, cfg, jid, d);
    assert GoodSlot(rec, slots[i], placement, now, cfg.policy);
  }

  /** A slot with room that serves the job and, unless free, that paying is allowed for, is in
      time and costs what the job's limit allows; the placement carries its price. */
  ghost predicate GoodSlot(rec: Job, slot: Slot, placement: Placement, now: Time, policy: SchedPolicy) {
    var price := PriceOf(rec, slot);
    && slot.provider == placement.provider && Serves(rec, slot) && slot.capacity > 0
    && (slot.cost.perHour.Some? ==>
          && policy.allowPaid && InTime(rec, slot, now)
          && (rec.spec.policy.maxCost.Some? ==> price.Some? && price.value <= rec.spec.policy.maxCost.value))
    && placement.costActual == (if price.Some? && price.value > 0.0 then price else None)
  }

  lemma {:induction false} DepsEnded(rec: Job, states: map<JobId, JobState>)
    requires !SomeDepBroken(rec, states) && !SomeDepWaits(rec, states)
    ensures forall dep :: dep in rec.spec.dependsOn && dep in states ==> states[dep].Terminal()
    ensures !rec.spec.policy.ignoreDepFailure ==>
      forall dep :: dep in rec.spec.dependsOn ==> dep in states && states[dep] == Succeeded
  {
    forall dep | dep in rec.spec.dependsOn
      ensures dep in states ==> states[dep].Terminal()
      ensures !rec.spec.policy.ignoreDepFailure ==> dep in states && states[dep] == Succeeded
    {
      assert !DepWaits(dep, states) && !DepBreaks(dep, states, rec.spec.policy.ignoreDepFailure);
    }
  }

  /** The slot behind a reserve fits the job and had room. */
  lemma {:induction false} ReservedSlot(s: Store, order: seq<JobId>, slots: seq<Slot>, now: Time, cfg: Config,
                                        jid: JobId, d: Decision)
    returns (i: nat)
    requires StoreOk(s) && Enumerates(order, s.cells.Keys) && jid in s.cells
    requires d in ReservesOn(s, order, slots, now, cfg) && d.jobId == jid
    ensures d.Reserve? && i < |slots| && GoodSlot(s.cells[jid].rec, slots[i], PlacementFor(d), now, cfg.policy)
  {
    hide StoreOk, Ranked, ToRank, StartMatch, SnapshotOf, WalletOf, MatchAll, Choose, Models.Slot.Fits, Suits, PriceOf,
      InTime, Models.Cost.Total;
    var recs := RankedOf(s, order, slots, now, cfg);
    var m := StartMatch(SnapshotOf(s, order), slots, WalletOf(s, cfg, now));
    var k;
    k, i := ReserveOrigin(recs, slots, m, now, cfg.policy, d);
    var owner := RankedFromStore(s, order, slots, now, cfg, k);
    KnownId(s, owner);
    assert owner == jid;
    RoomNeverGrows(recs[..k], slots, m, now, cfg.policy, i);
    StartRoom(s, order, slots, now, cfg, i);
    FitsIff(slots[i], s.cells[jid].rec.spec.resources);
    ChosenIsFreeOrPayable(recs[k], slots, MatchAll(recs[..k], slots, m, now, cfg.policy), now, cfg.policy);
    PriceInPlainTerms(recs[k], slots[i]);
  }

  lemma {:induction false} RoomNeverGrows(recs: seq<Job>, slots: seq<Slot>, m: Match, now: Time, policy: SchedPolicy,
                                          i: nat)
    requires |m.remaining| == |slots| && i < |slots|
    ensures MatchAll(recs, slots, m, now, policy).remaining[i] <= m.remaining[i]
  {
    hide Choose;
    if recs != [] {
      RoomNeverGrows(recs[..|recs| - 1], slots, m, now, policy, i);
    }
  }

  lemma {:induction false} StartRoom(s: Store, order: seq<JobId>, slots: seq<Slot>, now: Time, cfg: Config, i: nat)
    requires Enumerates(order, s.cells.Keys) && i < |slots|
    ensures StartMatch(SnapshotOf(s, order), slots, WalletOf(s, cfg, now)).remaining[i] <= Max(0, slots[i].capacity)
  {
    hide ActiveOn, SnapshotOf, WalletOf;
  }
}
