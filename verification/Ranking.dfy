/** Whom a pass serves first, said by the fields of the records: priority, then the latest start
    that meets the deadline, then age. */
module Ranking {
  import opened Wrappers
  import opened Models
  import opened Budget
  import opened Scheduler
  import opened PassProperties
  import opened PassByJob
  import opened Explain

  /** The latest start that meets the deadline; a job without one counts as due to start now. */
  function LatestStart(rec: Job, now: Time): Time {
    match rec.spec.policy.finishBy
    case None => now
    case Some(due) =>
      match rec.spec.resources.time
      case None => due
      case Some(runs) => due - runs
  }

  /** `a` may be served before `b`: its priority is no lower; among equals its latest start is no
      later; and among equals in both it is no younger, an unknown age being the youngest. */
  ghost predicate MayGoFirst(a: Job, b: Job, now: Time) {
    var p, q := a.spec.policy.priority, b.spec.policy.priority;
    && p >= q
    && (p == q ==> LatestStart(a, now) <= LatestStart(b, now))
    && (p == q && LatestStart(a, now) == LatestStart(b, now) && b.submittedAt.Some? ==>
          a.submittedAt.Some? && a.submittedAt.value <= b.submittedAt.value)
  }

  lemma MayGoFirstIff(a: Job, b: Job, now: Time)
    ensures MayGoFirst(a, b, now) <==> !RanksBefore(b, a, now)
  {
  }

  /** In the ranked list everyone may go before whoever stands behind. */
  lemma {:induction false} RankedServes(recs: seq<Job>, now: Time, i: nat, k: nat)
    requires i < k < |Ranked(recs, now)|
    ensures MayGoFirst(Ranked(recs, now)[i], Ranked(recs, now)[k], now)
  {
    hide RanksBefore, MayGoFirst;
    var ranked := Ranked(recs, now);
    RankedIsStableSort(recs, now, ranked[i]);
    assert !RanksBefore(ranked[k], ranked[i], now);
    MayGoFirstIff(ranked[i], ranked[k], now);
  }

  // ------------------------------------------------------------------ the order of the reserves

  lemma {:induction false} ReservesInOrder(recs: seq<Job>, slots: seq<Slot>, m: Match, now: Time, policy: SchedPolicy,
                                           i: nat, k: nat)
    returns (p: nat, q: nat)
    requires |m.remaining| == |slots| && i < k < |Reserves(recs, slots, m, now, policy)|
    ensures p < q < |recs|
    ensures Reserves(recs, slots, m, now, policy)[i].jobId == recs[p].spec.jobId
    ensures Reserves(recs, slots, m, now, policy)[k].jobId == recs[q].spec.jobId
  {
    hide Choose, MatchAll;
    var n := |recs| - 1;
    var prior := Reserves(recs[..n], slots, m, now, policy);
    if k < |prior| {
      p, q := ReservesInOrder(recs[..n], slots, m, now, policy, i, k);
    } else {
      var k', i' := ReserveOrigin(recs[..n], slots, m, now, policy, prior[i]);
      p, q := k', n;
    }
  }

  /** A pass reserves in that order: for any two of its reserves, the job of the first may go
      before the job of the second. */
  lemma {:induction false} PassServes(snap: Snapshot, slots: seq<Slot>, wallet: Wallet, now: Time, policy: SchedPolicy,
                                      i: nat, k: nat, a: Job, b: Job)
    requires UniqueIds(snap.jobs) && i < k < |Schedule(snap, slots, wallet, now, policy)|
    requires
      var ds := Schedule(snap, slots, wallet, now, policy);
      && ds[i].Reserve? && ds[k].Reserve?
      && a in snap.jobs && a.spec.jobId == ds[i].jobId && b in snap.jobs && b.spec.jobId == ds[k].jobId
    ensures MayGoFirst(a, b, now)
  {
    hide TriageAll, AdmitAll, Reserves, Ranked, StartMatch, StatesOf, PendingOf, AdmittedOf, MayGoFirst, RanksBefore;
    var pending, states := PendingOf(snap.jobs, snap), StatesOf(snap.jobs);
    var t, d := TriageAll(snap.jobs, snap), AdmitAll(pending, states, slots, now, policy);
    var ds := Schedule(snap, slots, wallet, now, policy);
    forall j | 0 <= j < |t + d| ensures !ds[j].Reserve? {
      if j < |t| {
        LadderNeverReserves(snap.jobs, snap, t[j]);
      } else {
        AdmissionNeverReserves(pending, states, slots, now, policy, d[j - |t|]);
      }
    }
    var recs := Ranked(ToRank(snap, slots, now, policy), now);
    var off := |t + d|;
    var p, q := ReservesInOrder(recs, slots, StartMatch(snap, slots, wallet), now, policy, i - off, k - off);
    RankedOfSnapshot(snap, slots, now, policy, p, a);
    RankedOfSnapshot(snap, slots, now, policy, q, b);
    RankedServes(ToRank(snap, slots, now, policy), now, p, q);
  }

  lemma {:induction false} RankedOfSnapshot(snap: Snapshot, slots: seq<Slot>, now: Time, policy: SchedPolicy, p: nat,
                                            a: Job)
    requires UniqueIds(snap.jobs) && p < |Ranked(ToRank(snap, slots, now, policy), now)|
    requires a in snap.jobs && a.spec.jobId == Ranked(ToRank(snap, slots, now, policy), now)[p].spec.jobId
    ensures Ranked(ToRank(snap, slots, now, policy), now)[p] == a
  {
    hide Ranked, StatesOf, Rule;
    var recs := Ranked(ToRank(snap, slots, now, policy), now);
    RankedIsStableSort(ToRank(snap, slots, now, policy), now, recs[p]);
    assert recs[p] in multiset(recs);
    assert recs[p] in ToRank(snap, slots, now, policy) && recs[p] in snap.jobs;
  }

  // ------------------------------------------------------------------ two jobs, one slot

  /** A queued or held job that nothing keeps from being placed. */
  predicate ReadyToPlace(rec: Job, snap: Snapshot, now: Time, policy: SchedPolicy) {
    && (rec.state.Queued? || rec.state.Held?)
    && rec.spec.jobId !in snap.cancels && rec.spec.jobId !in snap.intents
    && rec.attempts < policy.maxAttempts && rec.spec.dependsOn == []
    && (rec.notBefore.None? || rec.notBefore.value <= now)
  }

  /** Of two jobs that differ in nothing but their deadline, and one free slot of capacity one
      that fits them, the job due earlier gets the slot, whichever is listed first. */
  lemma {:induction false} EarlierDeadlineWins(a: Job, b: Job, snap: Snapshot, slot: Slot, wallet: Wallet, now: Time,
                                               policy: SchedPolicy)
    requires snap.jobs == [a, b] || snap.jobs == [b, a]
    requires a.spec.policy.finishBy.Some? && b.spec.policy.finishBy.Some?
    requires a.spec.policy.finishBy.value < b.spec.policy.finishBy.value
    requires
      b == a.(spec := a.spec.(jobId := b.spec.jobId, policy := a.spec.policy.(finishBy := b.spec.policy.finishBy)))
    requires a.spec.jobId != b.spec.jobId
    requires ReadyToPlace(a, snap, now, policy) && ReadyToPlace(b, snap, now, policy)
    requires slot.cost.perHour.None? && slot.capacity == 1 && slot.Fits(a.spec.resources) && a.PinAllows(slot)
    ensures forall d ::
      d in Schedule(snap, [slot], wallet, now, policy) && d.Reserve? <==>
      d == Reserve(a.spec.jobId, slot.provider, slot.OfferKey(0), 0.0, slot)
  {
    hide Ranked, Reserves, StatesOf, StartMatch, Models.Slot.Fits, Models.Slot.OfferKey;
    var slots := [slot];
    BothAdmitted(a, b, snap, slot, now, policy);
    assert ToRank(snap, slots, now, policy) == snap.jobs;
    RankedPair(a, b, snap.jobs, now);
    var m := StartMatch(snap, slots, wallet);
    OneRoom(a, b, snap, slot, wallet);
    OnlyFirstFits(a, b, slot, m, now, policy);
    forall d ensures d in Schedule(snap, slots, wallet, now, policy) && d.Reserve?
      <==> d == Reserve(a.spec.jobId, slot.provider, slot.OfferKey(0), 0.0, slot)
    {
      ReservesOfPass(snap, slots, wallet, now, policy, d);
    }
  }

  lemma {:induction false} BothAdmitted(a: Job, b: Job, snap: Snapshot, slot: Slot, now: Time, policy: SchedPolicy)
    requires (snap.jobs == [a, b] || snap.jobs == [b, a]) && b.spec.resources == a.spec.resources
    requires ReadyToPlace(a, snap, now, policy) && ReadyToPlace(b, snap, now, policy)
    requires slot.Fits(a.spec.resources) && a.PinAllows(slot) && b.PinAllows(slot)
    ensures ToRank(snap, [slot], now, policy) == snap.jobs
  {
    hide StatesOf, Models.Slot.Fits;
    AdmittedPair(a, StatesOf(snap.jobs), slot, snap, now, policy);
    AdmittedPair(b, StatesOf(snap.jobs), slot, snap, now, policy);
    hide Rule, GoesToAdmission;
    var jobs := snap.jobs;
    assert jobs[..2] == jobs && jobs[..1] == [jobs[0]] && jobs[..1][..0] == [];
    assert PendingOf(jobs[..1], snap) == [jobs[0]];
    assert PendingOf(jobs, snap) == jobs;
    assert AdmittedOf(jobs[..1], StatesOf(jobs), [slot], now, policy) == [jobs[0]];
    assert AdmittedOf(jobs, StatesOf(jobs), [slot], now, policy) == jobs;
  }

  lemma {:induction false} AdmittedPair(rec: Job, states: map<JobId, JobState>, slot: Slot, snap: Snapshot, now: Time,
                                        policy: SchedPolicy)
    requires ReadyToPlace(rec, snap, now, policy) && slot.Fits(rec.spec.resources) && rec.PinAllows(slot)
    ensures GoesToAdmission(rec, snap) && Rule(rec, states, [slot], now, policy).Fitting?
  {
    hide Models.Slot.Fits;
    assert [slot][0] == slot;
  }

  lemma {:induction false} RankedPair(a: Job, b: Job, jobs: seq<Job>, now: Time)
    requires jobs == [a, b] || jobs == [b, a]
    requires a != b && RanksBefore(a, b, now)
    ensures Ranked(jobs, now) == [a, b]
  {
    hide Ranked, RanksBefore;
    RankedIsStableSort(jobs, now, a);
    var r := Ranked(jobs, now);
    assert multiset(jobs) == multiset{a, b};
    assert |r| == |multiset(r)| == 2;
    assert r[0] in multiset(r) && r[1] in multiset(r);
    assert r == [r[0], r[1]];
    assert !RanksBefore(r[1], r[0], now);
  }

  lemma {:induction false} OneRoom(a: Job, b: Job, snap: Snapshot, slot: Slot, wallet: Wallet)
    requires snap.jobs == [a, b] || snap.jobs == [b, a]
    requires a.state.Pending() && b.state.Pending() && slot.capacity == 1
    ensures StartMatch(snap, [slot], wallet) == Match([1], {}, wallet)
  {
    var jobs := snap.jobs;
    assert jobs[..2] == jobs && jobs[..1] == [jobs[0]] && jobs[..1][..0] == [];
    assert ActiveOn(jobs[..1], slot.provider) == 0;
    assert ActiveOn(jobs, slot.provider) == 0;
  }

  lemma {:induction false} OnlyFirstFits(a: Job, b: Job, slot: Slot, m: Match, now: Time, policy: SchedPolicy)
    requires m.remaining == [1] && m.usedKeys == {}
    requires slot.IsFree() && slot.Fits(a.spec.resources) && a.PinAllows(slot)
    ensures Reserves([a, b], [slot], m, now, policy)
      == [Reserve(a.spec.jobId, slot.provider, slot.OfferKey(0), 0.0, slot)]
  {
    hide Choose, Models.Slot.Fits, Models.Slot.OfferKey, Models.Job.PinAllows;
    var slots, recs := [slot], [a, b];
    assert recs[..2] == recs && recs[..1] == [a] && [a][..0] == [];
    assert MatchAll([], slots, m, now, policy) == m;
    assert Choose(a, slots, m, now, policy) == Some(0) by {
      UnreservedFree(a, slot, m, now, policy);
    }
    var taken := Take(m, a, slots, 0, now);
    assert MatchAll([a], slots, m, now, policy) == taken;
    assert taken.remaining == [0];
    assert Choose(b, slots, taken, now, policy).None?;
    assert Reserves([a], slots, m, now, policy) == [ReserveFor(a, slots, 0)];
  }

  lemma {:induction false} UnreservedFree(a: Job, slot: Slot, m: Match, now: Time, policy: SchedPolicy)
    requires m.remaining == [1] && m.usedKeys == {}
    requires slot.IsFree() && slot.Fits(a.spec.resources) && a.PinAllows(slot)
    ensures Choose(a, [slot], m, now, policy) == Some(0)
  {
    hide Choose, Models.Slot.Fits, Models.Slot.OfferKey, Models.Job.PinAllows;
    assert Usable(a, [slot], m, 0);
    if Choose(a, [slot], m, now, policy).None? {
      UnreservedMeansNothing(a, [slot], m, now, policy, 0);
    }
  }
}
