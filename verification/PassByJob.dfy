/** The pass seen from one job: with unique ids, which of its decisions name that job. */
module PassByJob {
  import opened Wrappers
  import opened Models
  import opened Budget
  import opened Scheduler
  import opened PassProperties

  ghost predicate UniqueIds(jobs: seq<Job>) {
    forall i, j :: 0 <= i < j < |jobs| ==> jobs[i].spec.jobId != jobs[j].spec.jobId
  }

  predicate HasId(jobs: seq<Job>, jid: JobId) {
    exists i :: 0 <= i < |jobs| && jobs[i].spec.jobId == jid
  }

  function ForJob(jid: JobId): Decision -> bool {
    (d: Decision) => d.jobId == jid
  }

  /** The decisions of `ds` about one job, in order. */
  function DecisionsFor(ds: seq<Decision>, jid: JobId): seq<Decision> {
    Keep(ds, ForJob(jid))
  }

  lemma {:induction false} DecisionsForConcat(a: seq<Decision>, b: seq<Decision>, jid: JobId)
    ensures DecisionsFor(a + b, jid) == DecisionsFor(a, jid) + DecisionsFor(b, jid)
  {
    if b == [] {
      assert a + b == a;
    } else {
      var n := |b| - 1;
      assert (a + b)[..|a + b| - 1] == a + b[..n];
      DecisionsForConcat(a, b[..n], jid);
    }
  }

  lemma {:induction false} AllOrNone(ds: seq<Decision>, owner: JobId, jid: JobId)
    requires forall k :: 0 <= k < |ds| ==> ds[k].jobId == owner
    ensures DecisionsFor(ds, jid) == if owner == jid then ds else []
  {
    if ds != [] {
      AllOrNone(ds[..|ds| - 1], owner, jid);
      assert ds == ds[..|ds| - 1] + [ds[|ds| - 1]];
    }
  }

  // ------------------------------------------------------------------ phase by phase

  lemma {:induction false} TriageFor(jobs: seq<Job>, snap: Snapshot, jid: JobId, i: nat)
    requires UniqueIds(jobs) && i < |jobs| && jobs[i].spec.jobId == jid
    ensures DecisionsFor(TriageAll(jobs, snap), jid) == Triage(jobs[i], snap)
  {
    hide Triage, DecisionsFor;
    var n := |jobs| - 1;
    var last := Triage(jobs[n], snap);
    DecisionsForConcat(TriageAll(jobs[..n], snap), last, jid);
    AllOrNone(last, jobs[n].spec.jobId, jid);
    if i == n {
      TriageForNobody(jobs[..n], snap, jid);
    } else {
      TriageFor(jobs[..n], snap, jid, i);
    }
  }

  lemma {:induction false} TriageForNobody(jobs: seq<Job>, snap: Snapshot, jid: JobId)
    requires !HasId(jobs, jid)
    ensures DecisionsFor(TriageAll(jobs, snap), jid) == []
  {
    hide Triage;
    if jobs != [] {
      var n := |jobs| - 1;
      var last := Triage(jobs[n], snap);
      assert forall k :: 0 <= k < n ==> jobs[..n][k] == jobs[k];
      DecisionsForConcat(TriageAll(jobs[..n], snap), last, jid);
      AllOrNone(last, jobs[n].spec.jobId, jid);
      TriageForNobody(jobs[..n], snap, jid);
    }
  }

  lemma {:induction false} AdmitFor(jobs: seq<Job>, states: map<JobId, JobState>, slots: seq<Slot>, now: Time,
                                    policy: SchedPolicy, jid: JobId, i: nat)
    requires UniqueIds(jobs) && i < |jobs| && jobs[i].spec.jobId == jid
    ensures DecisionsFor(AdmitAll(jobs, states, slots, now, policy), jid) == Admit(jobs[i], states, slots, now, policy)
  {
    hide Admit, DecisionsFor;
    var n := |jobs| - 1;
    var last := Admit(jobs[n], states, slots, now, policy);
    DecisionsForConcat(AdmitAll(jobs[..n], states, slots, now, policy), last, jid);
    AllOrNone(last, jobs[n].spec.jobId, jid);
    if i == n {
      AdmitForNobody(jobs[..n], states, slots, now, policy, jid);
    } else {
      AdmitFor(jobs[..n], states, slots, now, policy, jid, i);
    }
  }

  lemma {:induction false} AdmitForNobody(jobs: seq<Job>, states: map<JobId, JobState>, slots: seq<Slot>, now: Time,
                                          policy: SchedPolicy, jid: JobId)
    requires !HasId(jobs, jid)
    ensures DecisionsFor(AdmitAll(jobs, states, slots, now, policy), jid) == []
  {
    hide Admit;
    if jobs != [] {
      var n := |jobs| - 1;
      var last := Admit(jobs[n], states, slots, now, policy);
      assert forall k :: 0 <= k < n ==> jobs[..n][k] == jobs[k];
      DecisionsForConcat(AdmitAll(jobs[..n], states, slots, now, policy), last, jid);
      AllOrNone(last, jobs[n].spec.jobId, jid);
      AdmitForNobody(jobs[..n], states, slots, now, policy, jid);
    }
  }

  /** The reserve of the k-th ranked job, as a list of at most one. */
  function ReserveAt(recs: seq<Job>, k: nat, slots: seq<Slot>, m: Match, now: Time,
                     policy: SchedPolicy): (r: seq<Decision>)
    requires |m.remaining| == |slots| && k < |recs|
    ensures |r| <= 1
    ensures forall d :: d in r ==> d.Reserve? && d.jobId == recs[k].spec.jobId
  {
    var choice := ChoiceOf(recs, k, slots, m, now, policy);
    if choice.Some? then [ReserveFor(recs[k], slots, choice.value)] else []
  }

  lemma {:induction false} ReservesFor(recs: seq<Job>, slots: seq<Slot>, m: Match, now: Time, policy: SchedPolicy,
                                       jid: JobId, i: nat)
    requires |m.remaining| == |slots|
    requires UniqueIds(recs) && i < |recs| && recs[i].spec.jobId == jid
    ensures DecisionsFor(Reserves(recs, slots, m, now, policy), jid) == ReserveAt(recs, i, slots, m, now, policy)
  {
    hide Choose, Usable, MatchAll, DecisionsFor, ReserveFor;
    var n := |recs| - 1;
    var last := ReserveAt(recs, n, slots, m, now, policy);
    DecisionsForConcat(Reserves(recs[..n], slots, m, now, policy), last, jid);
    AllOrNone(last, recs[n].spec.jobId, jid);
    assert Reserves(recs, slots, m, now, policy) == Reserves(recs[..n], slots, m, now, policy) + last;
    if i == n {
      ReservesForNobody(recs[..n], slots, m, now, policy, jid);
    } else {
      ReservesFor(recs[..n], slots, m, now, policy, jid, i);
      assert recs[..n][..i] == recs[..i];
    }
  }

  lemma {:induction false} ReservesForNobody(recs: seq<Job>, slots: seq<Slot>, m: Match, now: Time, policy: SchedPolicy,
                                             jid: JobId)
    requires |m.remaining| == |slots| && !HasId(recs, jid)
    ensures DecisionsFor(Reserves(recs, slots, m, now, policy), jid) == []
  {
    hide Choose, Usable, MatchAll, ReserveFor;
    if recs != [] {
      var n := |recs| - 1;
      var last := ReserveAt(recs, n, slots, m, now, policy);
      assert forall k :: 0 <= k < n ==> recs[..n][k] == recs[k];
      DecisionsForConcat(Reserves(recs[..n], slots, m, now, policy), last, jid);
      AllOrNone(last, recs[n].spec.jobId, jid);
      assert Reserves(recs, slots, m, now, policy) == Reserves(recs[..n], slots, m, now, policy) + last;
      ReservesForNobody(recs[..n], slots, m, now, policy, jid);
    }
  }

  // ------------------------------------------------------------------ ids stay unique

  lemma {:induction false} PendingUnique(jobs: seq<Job>, snap: Snapshot)
    requires UniqueIds(jobs)
    ensures UniqueIds(PendingOf(jobs, snap))
  {
    hide GoesToAdmission;
    if jobs != [] {
      var n := |jobs| - 1;
      PendingUnique(jobs[..n], snap);
      var rest := PendingOf(jobs[..n], snap);
      forall k | 0 <= k < |rest| ensures rest[k].spec.jobId != jobs[n].spec.jobId {
        assert rest[k] in rest;
        assert rest[k] in jobs[..n];
      }
    }
  }

  lemma {:induction false} AdmittedUnique(jobs: seq<Job>, states: map<JobId, JobState>, slots: seq<Slot>, now: Time,
                                          policy: SchedPolicy)
    requires UniqueIds(jobs)
    ensures UniqueIds(AdmittedOf(jobs, states, slots, now, policy))
  {
    hide Rule;
    if jobs != [] {
      var n := |jobs| - 1;
      AdmittedUnique(jobs[..n], states, slots, now, policy);
      var rest := AdmittedOf(jobs[..n], states, slots, now, policy);
      forall k | 0 <= k < |rest| ensures rest[k].spec.jobId != jobs[n].spec.jobId {
        assert rest[k] in rest;
        assert rest[k] in jobs[..n];
      }
    }
  }

  lemma {:induction false} InsertUnique(s: seq<Job>, rec: Job, now: Time)
    requires UniqueIds(s + [rec])
    ensures UniqueIds(InsertRanked(s, rec, now))
  {
    hide RanksBefore;
    if s != [] && RanksBefore(rec, s[|s| - 1], now) {
      var n := |s| - 1;
      var inner := InsertRanked(s[..n], rec, now);
      assert (s + [rec])[|s|] == rec;
      forall i, j | 0 <= i < j < |s[..n] + [rec]|
        ensures (s[..n] + [rec])[i].spec.jobId != (s[..n] + [rec])[j].spec.jobId
      {
        assert (s + [rec])[i].spec.jobId != (s + [rec])[if j == n then |s| else j].spec.jobId;
      }
      InsertUnique(s[..n], rec, now);
      InsertPermutes(s[..n], rec, now);
      forall k | 0 <= k < |inner| ensures inner[k].spec.jobId != s[n].spec.jobId {
        assert inner[k] in multiset(inner);
        assert inner[k] == rec || inner[k] in s[..n];
        if inner[k] == rec {
          assert (s + [rec])[n].spec.jobId != (s + [rec])[|s|].spec.jobId;
        } else {
          var q :| 0 <= q < n && s[q] == inner[k];
          assert (s + [rec])[q].spec.jobId != (s + [rec])[n].spec.jobId;
        }
      }
    }
  }

  lemma {:induction false} RankedUnique(recs: seq<Job>, now: Time)
    requires UniqueIds(recs)
    ensures UniqueIds(Ranked(recs, now))
    ensures multiset(Ranked(recs, now)) == multiset(recs)
  {
    hide InsertRanked;
    if recs != [] {
      var n := |recs| - 1;
      var prior := Ranked(recs[..n], now);
      RankedUnique(recs[..n], now);
      forall k | 0 <= k < |prior| ensures prior[k].spec.jobId != recs[n].spec.jobId {
        assert prior[k] in multiset(prior);
        assert prior[k] in recs[..n];
      }
      InsertUnique(prior, recs[n], now);
      InsertPermutes(prior, recs[n], now);
      assert recs == recs[..n] + [recs[n]];
    }
  }

  // ------------------------------------------------------------------ the whole pass

  /** What a pass decides for one job: its ladder step; or, for a job that goes on to
      admission, its ruling and - only if admitted - at most one reserve. */
  lemma {:induction false} DecisionsOfJob(snap: Snapshot, slots: seq<Slot>, wallet: Wallet, now: Time,
                                          policy: SchedPolicy, i: nat)
    returns (reserve: seq<Decision>)
    requires UniqueIds(snap.jobs) && i < |snap.jobs|
    ensures
      var rec := snap.jobs[i];
      var ruling := Rule(rec, StatesOf(snap.jobs), slots, now, policy);
      && DecisionsFor(Schedule(snap, slots, wallet, now, policy), rec.spec.jobId)
         == Triage(rec, snap)
            + (if GoesToAdmission(rec, snap) then RulingDecisions(rec, ruling, slots) else [])
            + reserve
      && |reserve| <= 1
      && (forall d :: d in reserve ==> d.Reserve? && d.jobId == rec.spec.jobId)
      && (reserve != [] ==> GoesToAdmission(rec, snap) && Admitted(ruling))
  {
    hide Triage, GoesToAdmission, Rule, RulingDecisions, Ranked, Reserves, AdmitAll, TriageAll, StartMatch,
      DecisionsFor,
      ReserveAt, StatesOf, UniqueIds;
    var rec := snap.jobs[i];
    var jid := rec.spec.jobId;
    var states := StatesOf(snap.jobs);
    var pending := PendingOf(snap.jobs, snap);
    var admitted := ToRank(snap, slots, now, policy);
    var recs := Ranked(admitted, now);
    var m := StartMatch(snap, slots, wallet);
    var t, a, r := TriageAll(snap.jobs, snap), AdmitAll(pending, states, slots, now, policy),
      Reserves(recs, slots, m, now, policy);
    DecisionsForConcat(t + a, r, jid);
    DecisionsForConcat(t, a, jid);
    TriageFor(snap.jobs, snap, jid, i);
    PendingUnique(snap.jobs, snap);
    AdmittedUnique(pending, states, slots, now, policy);
    RankedUnique(admitted, now);
    if GoesToAdmission(rec, snap) {
      assert rec in pending;
      var k :| 0 <= k < |pending| && pending[k] == rec;
      AdmitFor(pending, states, slots, now, policy, jid, k);
    } else {
      OnlyRec(snap.jobs, i, pending);
      AdmitForNobody(pending, states, slots, now, policy, jid);
    }
    if rec in admitted {
      assert rec in multiset(recs);
      var k :| 0 <= k < |recs| && recs[k] == rec;
      ReservesFor(recs, slots, m, now, policy, jid, k);
      reserve := ReserveAt(recs, k, slots, m, now, policy);
    } else {
      forall k | 0 <= k < |recs| ensures recs[k] in snap.jobs && recs[k] != rec {
        assert recs[k] in multiset(recs);
        assert recs[k] in admitted;
      }
      OnlyRec(snap.jobs, i, recs);
      ReservesForNobody(recs, slots, m, now, policy, jid);
      reserve := [];
    }
  }

  /** With unique ids, a part of the snapshot without `jobs[i]` has nobody by its id. */
  lemma {:induction false} OnlyRec(jobs: seq<Job>, i: nat, part: seq<Job>)
    requires UniqueIds(jobs) && i < |jobs|
    requires forall k :: 0 <= k < |part| ==> part[k] in jobs && part[k] != jobs[i]
    ensures !HasId(part, jobs[i].spec.jobId)
  {
    forall k | 0 <= k < |part| ensures part[k].spec.jobId != jobs[i].spec.jobId {
      var q :| 0 <= q < |jobs| && jobs[q] == part[k];
      assert q != i;
    }
  }
}
