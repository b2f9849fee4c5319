/** What every scheduling pass keeps: rank order, capacity, distinct offers, the optimal
    choice, no priority inversion, and the budget. */
module PassProperties {
  import opened Wrappers
  import opened Models
  import opened Budget
  import opened Scheduler

  // ------------------------------------------------------------------ ranking

  ghost predicate RankSorted(s: seq<Job>, now: Time) {
    forall i, j :: 0 <= i < j < |s| ==> !RanksBefore(s[j], s[i], now)
  }

  predicate Tied(a: Job, b: Job, now: Time) {
    !RanksBefore(a, b, now) && !RanksBefore(b, a, now)
  }

  function TiedWith(x: Job, now: Time): Job -> bool {
    y => Tied(x, y, now)
  }

  lemma {:induction false} KeepConcat<T(!new)>(a: seq<T>, x: T, p: T -> bool)
    ensures Keep(a + [x], p) == Keep(a, p) + (if p(x) then [x] else [])
  {
    assert (a + [x])[..|a|] == a;
  }

  lemma {:induction false} InsertPermutes(s: seq<Job>, rec: Job, now: Time)
    ensures multiset(InsertRanked(s, rec, now)) == multiset(s) + multiset{rec}
  {
    hide RanksBefore;
    if s != [] && RanksBefore(rec, s[|s| - 1], now) {
      InsertPermutes(s[..|s| - 1], rec, now);
      assert s == s[..|s| - 1] + [s[|s| - 1]];
    }
  }

  lemma {:induction false} InsertKeepsOrder(s: seq<Job>, rec: Job, now: Time)
    requires RankSorted(s, now)
    ensures RankSorted(InsertRanked(s, rec, now), now)
  {
    if s != [] && RanksBefore(rec, s[|s| - 1], now) {
      var n := |s| - 1;
      var inner := InsertRanked(s[..n], rec, now);
      InsertKeepsOrder(s[..n], rec, now);
      InsertPermutes(s[..n], rec, now);
      forall i | 0 <= i < |inner| ensures !RanksBefore(s[n], inner[i], now) {
        assert inner[i] in multiset(inner);
      }
    }
  }

  lemma RankedApartAreNotTied(x: Job, a: Job, b: Job, now: Time)
    requires RanksBefore(a, b, now)
    ensures !(Tied(x, a, now) && Tied(x, b, now))
  {
  }

  lemma {:induction false} InsertIsStable(s: seq<Job>, rec: Job, now: Time, x: Job)
    requires RankSorted(s, now)
    ensures Keep(InsertRanked(s, rec, now), TiedWith(x, now)) == Keep(s + [rec], TiedWith(x, now))
  {
    hide RanksBefore, Tied;
    if s != [] && RanksBefore(rec, s[|s| - 1], now) {
      var n := |s| - 1;
      InsertIsStable(s[..n], rec, now, x);
      RankedApartAreNotTied(x, rec, s[n], now);
      assert s == s[..n] + [s[n]];
      var p := TiedWith(x, now);
      KeepConcat(InsertRanked(s[..n], rec, now), s[n], p);
      KeepConcat(s[..n], s[n], p);
      KeepConcat(s[..n], rec, p);
      KeepConcat(s, rec, p);
    }
  }

  /** The ranked list holds the same jobs, best first, and tied jobs keep the order they
      came in. */
  lemma {:induction false} RankedIsStableSort(recs: seq<Job>, now: Time, x: Job)
    ensures RankSorted(Ranked(recs, now), now)
    ensures multiset(Ranked(recs, now)) == multiset(recs)
    ensures Keep(Ranked(recs, now), TiedWith(x, now)) == Keep(recs, TiedWith(x, now))
  {
    hide RanksBefore, InsertRanked, Tied;
    if recs != [] {
      var n := |recs| - 1;
      var prior := Ranked(recs[..n], now);
      RankedIsStableSort(recs[..n], now, x);
      InsertKeepsOrder(prior, recs[n], now);
      InsertPermutes(prior, recs[n], now);
      InsertIsStable(prior, recs[n], now, x);
      assert recs == recs[..n] + [recs[n]];
      KeepConcat(prior, recs[n], TiedWith(x, now));
      KeepConcat(recs[..n], recs[n], TiedWith(x, now));
    }
  }

  // ------------------------------------------------------------------ capacity

  function ReservedOn(ds: seq<Decision>, provider: string): nat {
    if ds == [] then 0
    else
      var d := ds[|ds| - 1];
      ReservedOn(ds[..|ds| - 1], provider) + (if d.Reserve? && d.provider == provider then 1 else 0)
  }

  /** The room left on a slot is its capacity less the jobs active on its provider and less
      the reserves already made there this pass. */
  lemma {:induction false} RoomLeft(recs: seq<Job>, slots: seq<Slot>, m: Match, now: Time, policy: SchedPolicy, i: nat)
    requires |m.remaining| == |slots| && i < |slots| && m.remaining[i] >= 0
    ensures MatchAll(recs, slots, m, now, policy).remaining[i]
         == Max(0, m.remaining[i] - ReservedOn(Reserves(recs, slots, m, now, policy), slots[i].provider))
  {
    hide Choose;
    if recs != [] {
      var n := |recs| - 1;
      RoomLeft(recs[..n], slots, m, now, policy, i);
      var prior := Reserves(recs[..n], slots, m, now, policy);
      var choice := ChoiceOf(recs, n, slots, m, now, policy);
      if choice.Some? {
        assert (prior + [ReserveFor(recs[n], slots, choice.value)])[..|prior|] == prior;
      }
    }
  }

  /** The k-th reserve of a provider lands on a slot with room for it: the jobs active there
      before the pass plus k never exceed that slot's capacity. */
  lemma {:induction false} ReserveRespectsCapacity(recs: seq<Job>, k: nat, snap: Snapshot, slots: seq<Slot>,
                                                   wallet: Wallet, now: Time, policy: SchedPolicy)
    requires k < |recs|
    ensures
      var m := StartMatch(snap, slots, wallet);
      var choice := ChoiceOf(recs, k, slots, m, now, policy);
      choice.Some? ==>
        ActiveOn(snap.jobs, slots[choice.value].provider)
        + ReservedOn(Reserves(recs[..k], slots, m, now, policy), slots[choice.value].provider) + 1
        <= slots[choice.value].capacity
  {
    hide Choose;
    var m := StartMatch(snap, slots, wallet);
    var choice := ChoiceOf(recs, k, slots, m, now, policy);
    if choice.Some? {
      RoomLeft(recs[..k], slots, m, now, policy, choice.value);
    }
  }

  // ------------------------------------------------------------------ the reasons of a hold

  /** These are the reasons against an offered slot, and fewer than against any offered before. */
  ghost predicate FirstShortest(rec: Job, slots: seq<Slot>, i: nat, reasons: seq<Unfit>) {
    && i < |slots| && rec.PinAllows(slots[i]) && reasons == slots[i].capabilities.Satisfies(rec.spec.resources)
    && forall k :: 0 <= k < i && rec.PinAllows(slots[k]) ==>
         |reasons| < |slots[k].capabilities.Satisfies(rec.spec.resources)|
  }

  /** A hold names the reasons against the first of the slots with the fewest. */
  lemma {:induction false} HoldNamesTheFirst(rec: Job, slots: seq<Slot>) returns (i: nat)
    requires ShortestUnfit(rec, slots).Some?
    ensures FirstShortest(rec, slots, i, ShortestUnfit(rec, slots).value)
  {
    hide Models.Capabilities.Satisfies, Models.Job.PinAllows;
    var n := |slots| - 1;
    if ShortestUnfit(rec, slots) == ShortestUnfit(rec, slots[..n]) {
      i := HoldNamesTheFirst(rec, slots[..n]);
    } else {
      i := n;
      assert forall k :: 0 <= k < n ==> slots[..n][k] == slots[k];
    }
  }

  // ------------------------------------------------------------------ distinct offers

  ghost predicate DistinctKeys(ds: seq<Decision>) {
    forall i, j :: 0 <= i < j < |ds| && ds[i].Reserve? && ds[j].Reserve? ==> ds[i].offerKey != ds[j].offerKey
  }

  /** No offer key backs two reserves of one pass, and a key is spent exactly when some
      reserve of the pass carries it. */
  lemma {:induction false} OffersAreDistinct(recs: seq<Job>, slots: seq<Slot>, m: Match, now: Time, policy: SchedPolicy)
    requires |m.remaining| == |slots|
    ensures DistinctKeys(Reserves(recs, slots, m, now, policy))
    ensures forall key :: key in MatchAll(recs, slots, m, now, policy).usedKeys <==>
      key in m.usedKeys || exists d :: d in Reserves(recs, slots, m, now, policy) && d.offerKey == key
  {
    hide Choose;
    if recs != [] {
      var n := |recs| - 1;
      OffersAreDistinct(recs[..n], slots, m, now, policy);
      var prior := Reserves(recs[..n], slots, m, now, policy);
      var choice := ChoiceOf(recs, n, slots, m, now, policy);
      if choice.Some? {
        var d := ReserveFor(recs[n], slots, choice.value);
        var all := Reserves(recs, slots, m, now, policy);
        assert all == prior + [d];
        assert d in all;
        assert forall e :: e in prior ==> e in all;
      }
    }
  }

  // ------------------------------------------------------------------ one job's choice

  /** The provider failed the job lately: its avoid window has not ended. */
  predicate Shuns(rec: Job, slot: Slot, now: Time) {
    slot.provider in rec.avoid && now < rec.avoid[slot.provider]
  }

  ghost predicate NoneUnavoided(rec: Job, slots: seq<Slot>, m: Match, now: Time) {
    forall k: nat :: Usable(rec, slots, m, k) ==> Shuns(rec, slots[k], now)
  }

  /** Usable, and outside the job's avoid windows unless nothing usable is. */
  ghost predicate Eligible(rec: Job, slots: seq<Slot>, m: Match, now: Time, i: nat) {
    && Usable(rec, slots, m, i)
    && (Shuns(rec, slots[i], now) ==> NoneUnavoided(rec, slots, m, now))
  }

  lemma {:induction false} PreferredExactly(rec: Job, slots: seq<Slot>, m: Match, now: Time)
    ensures Keep(Select(UsableBy(rec, slots, m), |slots|), Unavoided(rec, slots, now)) == []
            <==> NoneUnavoided(rec, slots, m, now)
  {
    hide Models.Slot.Fits, Models.Slot.OfferKey;
    var fitting := Select(UsableBy(rec, slots, m), |slots|);
    var preferred := Keep(fitting, Unavoided(rec, slots, now));
    if preferred == [] {
      forall k: nat | Usable(rec, slots, m, k) ensures Shuns(rec, slots[k], now) {
        assert k in fitting;
        assert k !in preferred;
      }
    } else {
      var k := preferred[0];
      assert k in preferred;
      assert Usable(rec, slots, m, k) && !Shuns(rec, slots[k], now);
    }
  }

  /** The candidate list holds exactly the eligible slots. */
  lemma CandidatesExactly(rec: Job, slots: seq<Slot>, m: Match, now: Time, i: nat)
    ensures i in Candidates(rec, slots, m, now) <==> Eligible(rec, slots, m, now, i)
  {
    hide Models.Slot.Fits, Models.Slot.OfferKey;
    PreferredExactly(rec, slots, m, now);
    assert i in Select(UsableBy(rec, slots, m), |slots|) <==> Usable(rec, slots, m, i);
  }

  predicate FreeIn(slots: seq<Slot>, i: nat) {
    i < |slots| && slots[i].cost.perHour.None?
  }

  /** Started when the slot is ready, and running for as long as asked for, the job ends by its
      deadline; where either is unknown it is taken to. */
  predicate InTime(rec: Job, slot: Slot, now: Time) {
    var due, runs := rec.spec.policy.finishBy, rec.spec.resources.time;
    due.Some? && runs.Some? ==> now + (if slot.waitS.Some? then slot.waitS.value else 0.0) + runs.value <= due.value
  }

  /** The setup fee, and the hourly rate for the time asked for; unknown for a paid slot and an
      unknown time. */
  function PriceOf(rec: Job, slot: Slot): Option<real> {
    if slot.cost.perHour.None? then Some(0.0)
    else if rec.spec.resources.time.None? then None
    else
      var setup := if slot.cost.setup.Some? then slot.cost.setup.value else 0.0;
      Some(setup + slot.cost.perHour.value * (rec.spec.resources.time.value / 3600.0))
  }

  predicate Prompt(rec: Job, slots: seq<Slot>, now: Time, i: nat) {
    FreeIn(slots, i) && InTime(rec, slots[i], now)
  }

  /** A paid slot in time, of a known price within the job's limit and affordable. */
  predicate Known(rec: Job, slots: seq<Slot>, ledger: Wallet, now: Time, policy: SchedPolicy, i: nat) {
    && policy.allowPaid && i < |slots| && slots[i].cost.perHour.Some? && InTime(rec, slots[i], now)
    && PriceOf(rec, slots[i]).Some?
    && (rec.spec.policy.maxCost.Some? ==> PriceOf(rec, slots[i]).value <= rec.spec.policy.maxCost.value)
    && ledger.CanAfford(PriceOf(rec, slots[i]).value, now)
  }

  /** A paid slot in time, of an unknown price that neither the job nor a daily cap bounds. */
  predicate Unknown(rec: Job, slots: seq<Slot>, ledger: Wallet, now: Time, policy: SchedPolicy, i: nat) {
    && policy.allowPaid && i < |slots| && slots[i].cost.perHour.Some? && InTime(rec, slots[i], now)
    && PriceOf(rec, slots[i]).None? && rec.spec.policy.maxCost.None? && ledger.primary.cap.None?
  }

  /** The terms above are those the pass decides by. */
  lemma InPlainTerms(rec: Job, slots: seq<Slot>, ledger: Wallet, now: Time, policy: SchedPolicy, i: nat)
    requires i < |slots|
    ensures FreeIn(slots, i) <==> slots[i].IsFree()
    ensures InTime(rec, slots[i], now) <==> rec.MeetsDeadline(slots[i], now)
    ensures Prompt(rec, slots, now, i) <==> slots[i].IsFree() && rec.MeetsDeadline(slots[i], now)
    ensures PriceOf(rec, slots[i]) == rec.EstCost(slots[i])
    ensures Known(rec, slots, ledger, now, policy, i) <==> policy.allowPaid && KnownPaidOk(rec, slots[i], ledger, now)
    ensures Unknown(rec, slots, ledger, now, policy, i)
      <==> policy.allowPaid && UnknownPaidOk(rec, slots[i], ledger, now)
    ensures Shuns(rec, slots[i], now) <==> rec.Avoids(slots[i].provider, now)
  {
    hide Budget.Wallet.CanAfford, PriceOf, Models.Cost.Total;
    PriceInPlainTerms(rec, slots[i]);
  }

  lemma PriceInPlainTerms(rec: Job, slot: Slot)
    ensures PriceOf(rec, slot) == rec.EstCost(slot)
  {
    if slot.cost.perHour.Some? && rec.spec.resources.time.Some? {
      assert PriceOf(rec, slot).value == rec.EstCost(slot).value;
    }
  }

  /** The order of preference, said without the scan: a free slot in time with the least
      wait; only without one, and only if paying is allowed, an affordable paid slot in time
      with the least known cost; only without that, one of unknown cost nobody bounds; only
      without any of these, a late free slot with the least wait; otherwise nothing. */
  ghost predicate BestOf(c: iset<nat>, rec: Job, slots: seq<Slot>, ledger: Wallet, now: Time, policy: SchedPolicy,
                         r: Option<nat>)
  {
    if exists i :: i in c && Prompt(rec, slots, now, i) then
      r.Some? && r.value in c && Prompt(rec, slots, now, r.value)
      && forall i :: i in c && Prompt(rec, slots, now, i) ==> slots[r.value].Wait() <= slots[i].Wait()
    else if exists i :: i in c && Known(rec, slots, ledger, now, policy, i) then
      r.Some? && r.value in c && Known(rec, slots, ledger, now, policy, r.value)
      && forall i :: i in c && Known(rec, slots, ledger, now, policy, i) ==>
           PriceOf(rec, slots[r.value]).value <= PriceOf(rec, slots[i]).value
    else if exists i :: i in c && Unknown(rec, slots, ledger, now, policy, i) then
      r.Some? && r.value in c && Unknown(rec, slots, ledger, now, policy, r.value)
    else if exists i :: i in c && FreeIn(slots, i) then
      r.Some? && r.value in c && FreeIn(slots, r.value)
      && forall i :: i in c && FreeIn(slots, i) ==> slots[r.value].Wait() <= slots[i].Wait()
    else r.None?
  }

  ghost function Members(c: seq<nat>): iset<nat> {
    iset i: nat | i in c
  }

  lemma {:induction false} PromptKept(c: seq<nat>, rec: Job, slots: seq<Slot>, now: Time)
    requires InRange(c, slots)
    ensures forall i: nat :: i in Keep(c, FreeInTime(rec, slots, now)) <==> i in c && Prompt(rec, slots, now, i)
    ensures (exists i :: i in Members(c) && Prompt(rec, slots, now, i)) <==> Keep(c, FreeInTime(rec, slots, now)) != []
  {
    hide InTime, Models.Job.MeetsDeadline;
    var kept := Keep(c, FreeInTime(rec, slots, now));
    forall i: nat ensures i in kept <==> i in c && Prompt(rec, slots, now, i) {
      if i < |slots| {
        PromptInPlainTerms(rec, slots, now, i);
      }
    }
    if kept != [] {
      assert kept[0] in kept && kept[0] in Members(c);
    }
  }

  lemma PromptInPlainTerms(rec: Job, slots: seq<Slot>, now: Time, i: nat)
    requires i < |slots|
    ensures Prompt(rec, slots, now, i) <==> slots[i].IsFree() && rec.MeetsDeadline(slots[i], now)
  {
  }

  lemma {:induction false} LateKept(c: seq<nat>, slots: seq<Slot>)
    requires InRange(c, slots)
    ensures forall i: nat :: i in Keep(c, FreeOnes(slots)) <==> i in c && FreeIn(slots, i)
    ensures (exists i :: i in Members(c) && FreeIn(slots, i)) <==> Keep(c, FreeOnes(slots)) != []
  {
    var kept := Keep(c, FreeOnes(slots));
    assert forall i: nat :: i in kept <==> i in c && FreeIn(slots, i);
    if kept != [] {
      assert kept[0] in kept && kept[0] in Members(c);
    }
  }

  lemma PaidScanned(c: seq<nat>, rec: Job, slots: seq<Slot>, ledger: Wallet, now: Time, policy: SchedPolicy)
    requires InRange(c, slots)
    ensures
      var scan := ScanPaid(c, rec, slots, ledger, now);
      && ((exists i :: i in Members(c) && Known(rec, slots, ledger, now, policy, i)) <==>
        policy.allowPaid && scan.known.Some?)
      && ((exists i :: i in Members(c) && Unknown(rec, slots, ledger, now, policy, i)) <==>
        policy.allowPaid && scan.unknown.Some?)
  {
    hide KnownPaidOk, UnknownPaidOk, Known, Unknown, ScanPaid;
    var scan := ScanPaid(c, rec, slots, ledger, now);
    PaidInPlainTerms(c, rec, slots, ledger, now, policy);
    if policy.allowPaid && scan.known.Some? {
      assert scan.known.value in Members(c) && Known(rec, slots, ledger, now, policy, scan.known.value);
    }
    if policy.allowPaid && scan.unknown.Some? {
      assert scan.unknown.value in Members(c) && Unknown(rec, slots, ledger, now, policy, scan.unknown.value);
    }
  }

  lemma PaidInPlainTerms(c: seq<nat>, rec: Job, slots: seq<Slot>, ledger: Wallet, now: Time, policy: SchedPolicy)
    requires InRange(c, slots)
    ensures forall i: nat :: i in c ==>
      (Known(rec, slots, ledger, now, policy, i) <==> policy.allowPaid && KnownPaidOk(rec, slots[i], ledger, now))
      && (Unknown(rec, slots, ledger, now, policy, i) <==>
        policy.allowPaid && UnknownPaidOk(rec, slots[i], ledger, now))
      && PriceOf(rec, slots[i]) == rec.EstCost(slots[i])
  {
    hide KnownPaidOk, UnknownPaidOk, Known, Unknown, PriceOf, Models.Cost.Total;
    forall i: nat | i in c
      ensures Known(rec, slots, ledger, now, policy, i) <==> policy.allowPaid && KnownPaidOk(rec, slots[i], ledger, now)
      ensures Unknown(rec, slots, ledger, now, policy, i)
        <==> policy.allowPaid && UnknownPaidOk(rec, slots[i], ledger, now)
      ensures PriceOf(rec, slots[i]) == rec.EstCost(slots[i])
    {
      InPlainTerms(rec, slots, ledger, now, policy, i);
    }
  }

  lemma {:induction false} ChooseAmongIsBest(c: seq<nat>, rec: Job, slots: seq<Slot>, ledger: Wallet, now: Time,
                                             policy: SchedPolicy)
    requires InRange(c, slots)
    ensures BestOf(Members(c), rec, slots, ledger, now, policy,
                   ChooseAmong(c, rec, slots, ledger, now, policy))
  {
    hide KnownPaidOk, UnknownPaidOk, Known, Unknown, Soonest, ScanPaid, FreeIn, Prompt, Keep, PriceOf,
      Models.Cost.Total;
    PaidInPlainTerms(c, rec, slots, ledger, now, policy);
    PromptKept(c, rec, slots, now);
    LateKept(c, slots);
    PaidScanned(c, rec, slots, ledger, now, policy);
  }

  ghost predicate Increasing(c: seq<nat>) {
    forall i, j :: 0 <= i < j < |c| ==> c[i] < c[j]
  }

  lemma {:induction false} SelectIncreases(p: nat -> bool, n: nat)
    ensures Increasing(Select(p, n))
  {
    if n > 0 {
      SelectIncreases(p, n - 1);
    }
  }

  lemma {:induction false} KeepIncreases(c: seq<nat>, p: nat -> bool)
    requires Increasing(c)
    ensures Increasing(Keep(c, p))
  {
    if c != [] {
      var n := |c| - 1;
      KeepIncreases(c[..n], p);
      var rest := Keep(c[..n], p);
      forall k | 0 <= k < |rest| ensures rest[k] < c[n] {
        assert rest[k] in rest;
        assert rest[k] in c[..n];
      }
    }
  }

  lemma {:induction false} SoonestIsFirst(c: seq<nat>, slots: seq<Slot>)
    requires c != [] && InRange(c, slots) && Increasing(c)
    ensures forall i :: i in c && slots[i].Wait() == slots[Soonest(c, slots)].Wait() ==> Soonest(c, slots) <= i
  {
    if |c| > 1 {
      var n := |c| - 1;
      SoonestIsFirst(c[..n], slots);
      assert c == c[..n] + [c[n]];
      assert Soonest(c[..n], slots) in c[..n];
    }
  }

  /** Of free slots in time that are ready equally soon, the one listed first is chosen. */
  lemma {:induction false} TiesGoToTheFirst(rec: Job, slots: seq<Slot>, m: Match, now: Time, policy: SchedPolicy,
                                            i: nat)
    requires Eligible(rec, slots, m, now, i) && Prompt(rec, slots, now, i)
    ensures
      var r := Choose(rec, slots, m, now, policy);
      r.Some? && r.value < |slots| && (slots[r.value].Wait() == slots[i].Wait() ==> r.value <= i)
  {
    hide Eligible, Prompt, Usable, Shuns, InTime, Models.Job.MeetsDeadline, Models.Slot.Wait;
    var c := Candidates(rec, slots, m, now);
    CandidatesExactly(rec, slots, m, now, i);
    CandidatesIncrease(rec, slots, m, now);
    PromptKept(c, rec, slots, now);
    var freeOk := Keep(c, FreeInTime(rec, slots, now));
    assert i in freeOk;
    KeepIncreases(c, FreeInTime(rec, slots, now));
    SoonestIsFirst(freeOk, slots);
  }

  lemma {:induction false} CandidatesIncrease(rec: Job, slots: seq<Slot>, m: Match, now: Time)
    ensures Increasing(Candidates(rec, slots, m, now))
  {
    hide Usable, Shuns, Increasing;
    SelectIncreases(UsableBy(rec, slots, m), |slots|);
    KeepIncreases(Select(UsableBy(rec, slots, m), |slots|), Unavoided(rec, slots, now));
  }

  ghost function EligibleSet(rec: Job, slots: seq<Slot>, m: Match, now: Time): iset<nat> {
    iset i: nat | Eligible(rec, slots, m, now, i)
  }

  /** The slot a job gets is the best of its eligible slots, and it gets none only when that
      order of preference finds none. */
  lemma {:induction false} ChoiceIsBest(rec: Job, slots: seq<Slot>, m: Match, now: Time, policy: SchedPolicy)
    ensures BestOf(EligibleSet(rec, slots, m, now), rec, slots, m.working, now, policy,
                   Choose(rec, slots, m, now, policy))
  {
    hide ChooseAmong, Candidates, Eligible, BestOf;
    var c := Candidates(rec, slots, m, now);
    forall i: nat ensures i in c <==> Eligible(rec, slots, m, now, i) {
      CandidatesExactly(rec, slots, m, now, i);
    }
    ChooseAmongIsBest(c, rec, slots, m.working, now, policy);
    assert Members(c) == EligibleSet(rec, slots, m, now);
  }

  /** A job stays unreserved only when none of its eligible slots is free and none is a paid
      slot it may take. */
  lemma {:induction false} UnreservedMeansNothing(rec: Job, slots: seq<Slot>, m: Match, now: Time, policy: SchedPolicy,
                                                  i: nat)
    requires Choose(rec, slots, m, now, policy).None? && Eligible(rec, slots, m, now, i)
    ensures !FreeIn(slots, i)
    ensures !Known(rec, slots, m.working, now, policy, i) && !Unknown(rec, slots, m.working, now, policy, i)
  {
    hide Choose, Eligible, Known, Unknown, Prompt, PriceOf;
    ChoiceIsBest(rec, slots, m, now, policy);
    assert i in EligibleSet(rec, slots, m, now);
  }

  /** And it is reserved only what is free, or what it may pay for. */
  lemma {:induction false} ChosenIsFreeOrPayable(rec: Job, slots: seq<Slot>, m: Match, now: Time, policy: SchedPolicy)
    requires Choose(rec, slots, m, now, policy).Some?
    ensures
      var i := Choose(rec, slots, m, now, policy).value;
      FreeIn(slots, i) || Known(rec, slots, m.working, now, policy, i) || Unknown(rec, slots, m.working, now, policy, i)
  {
    hide Choose, EligibleSet, Known, Unknown, FreeIn, PriceOf, InTime;
    ChoiceIsBest(rec, slots, m, now, policy);
  }

  /** Each reserve is a ranked job on a slot usable for it when its turn came. */
  lemma {:induction false} ReserveOrigin(recs: seq<Job>, slots: seq<Slot>, m: Match, now: Time, policy: SchedPolicy,
                                         d: Decision)
    returns (k: nat, i: nat)
    requires |m.remaining| == |slots| && d in Reserves(recs, slots, m, now, policy)
    ensures k < |recs| && i < |slots| && d == ReserveFor(recs[k], slots, i)
    ensures ChoiceOf(recs, k, slots, m, now, policy) == Some(i)
    ensures Usable(recs[k], slots, MatchAll(recs[..k], slots, m, now, policy), i)
  {
    hide Choose, MatchAll;
    var n := |recs| - 1;
    if d in Reserves(recs[..n], slots, m, now, policy) {
      k, i := ReserveOrigin(recs[..n], slots, m, now, policy, d);
      assert recs[..n][..k] == recs[..k];
    } else {
      k, i := n, ChoiceOf(recs, n, slots, m, now, policy).value;
    }
  }

  // ------------------------------------------------------------------ no priority inversion

  /** As the loop goes on, room only shrinks and spent keys only grow. */
  lemma {:induction false} RoomOnlyShrinks(recs: seq<Job>, a: nat, b: nat, slots: seq<Slot>, m: Match, now: Time,
                                           policy: SchedPolicy)
    requires |m.remaining| == |slots| && a <= b <= |recs|
    ensures
      var early := MatchAll(recs[..a], slots, m, now, policy);
      var late := MatchAll(recs[..b], slots, m, now, policy);
      early.usedKeys <= late.usedKeys
      && forall i :: 0 <= i < |slots| ==> late.remaining[i] <= early.remaining[i]
  {
    hide Choose;
    if a < b {
      RoomOnlyShrinks(recs, a, b - 1, slots, m, now, policy);
      assert recs[..b][..b - 1] == recs[..b - 1];
    }
  }

  /** If an earlier-ranked job gets nothing, then any slot a later-ranked job gets either
      does not fit the earlier one, is excluded by its pin, belongs to a provider in its
      avoid window, or is a paid slot it could not pay for. In particular a free slot never
      goes past a job that could use it. */
  lemma {:induction false} NoPriorityInversion(recs: seq<Job>, a: nat, b: nat, slots: seq<Slot>, m: Match, now: Time,
                                               policy: SchedPolicy)
    requires |m.remaining| == |slots| && a < b < |recs|
    requires ChoiceOf(recs, a, slots, m, now, policy).None?
    requires ChoiceOf(recs, b, slots, m, now, policy).Some?
    ensures
      var slot := slots[ChoiceOf(recs, b, slots, m, now, policy).value];
      var atA := MatchAll(recs[..a], slots, m, now, policy);
      || !slot.Fits(recs[a].spec.resources)
      || !recs[a].PinAllows(slot)
      || Shuns(recs[a], slot, now)
      || (slot.cost.perHour.Some?
          && !Known(recs[a], slots, atA.working, now, policy, ChoiceOf(recs, b, slots, m, now, policy).value)
          && !Unknown(recs[a], slots, atA.working, now, policy, ChoiceOf(recs, b, slots, m, now, policy).value))
  {
    hide Choose, Known, Unknown, MatchAll;
    var i := ChoiceOf(recs, b, slots, m, now, policy).value;
    var atA := MatchAll(recs[..a], slots, m, now, policy);
    var atB := MatchAll(recs[..b], slots, m, now, policy);
    RoomOnlyShrinks(recs, a, b, slots, m, now, policy);
    assert atB.remaining[i] <= atA.remaining[i];
    if slots[i].Fits(recs[a].spec.resources) && recs[a].PinAllows(slots[i])
      && !Shuns(recs[a], slots[i], now) {
      assert Eligible(recs[a], slots, atA, now, i);
      UnreservedMeansNothing(recs[a], slots, atA, now, policy, i);
      ChoiceIsBest(recs[b], slots, atB, now, policy);
    }
  }

  // ------------------------------------------------------------------ budget of a pass

  function EstTotal(ds: seq<Decision>): real {
    if ds == [] then 0.0
    else
      var d := ds[|ds| - 1];
      EstTotal(ds[..|ds| - 1]) + (if d.Reserve? then d.estCost else 0.0)
  }

  /** A reserve of a paid slot whose cost is known. */
  predicate PricedReserve(d: Decision) {
    d.Reserve? && !d.slot.IsFree() && d.estCost != 0.0
  }

  ghost predicate WithinCap(ledger: BudgetLedger, extra: real, now: Time) {
    ledger.cap.Some? ==> ledger.InWindowTotal(now) + extra <= ledger.cap.value
  }

  /** `after` is `before` with estimates worth `extra` reserved on top. */
  predicate Carries(after: BudgetLedger, before: BudgetLedger, extra: real, now: Time) {
    && after.cap == before.cap && after.window == before.window
    && after.InWindowTotal(now) == before.InWindowTotal(now) + extra
  }

  predicate WalletCarries(after: Wallet, before: Wallet, extra: real, now: Time) {
    && Carries(after.primary, before.primary, extra, now)
    && after.secondary.Some? == before.secondary.Some?
    && (after.secondary.Some? ==> Carries(after.secondary.value, before.secondary.value, extra, now))
  }

  ghost predicate WalletWithinCap(w: Wallet, extra: real, now: Time) {
    WithinCap(w.primary, extra, now) && (w.secondary.Some? ==> WithinCap(w.secondary.value, extra, now))
  }

  lemma {:induction false} WalletCommit(w: Wallet, jobId: JobId, provider: string, amount: real, now: Time)
    ensures WalletCarries(w.Commit(jobId, provider, amount, now), w, amount, now)
    ensures w.CanAfford(amount, now) ==> WalletWithinCap(w, amount, now)
  {
    var e := Entry(jobId, provider, amount, Committed, now);
    TotalAppend(w.primary.window, w.primary.entries, e, now);
    if w.secondary.Some? {
      TotalAppend(w.secondary.value.window, w.secondary.value.entries, e, now);
    }
  }

  /** A chosen paid slot of known cost was affordable when it was chosen. */
  lemma {:induction false} ChosenIsAffordable(rec: Job, slots: seq<Slot>, m: Match, now: Time, policy: SchedPolicy)
    ensures
      var r := Choose(rec, slots, m, now, policy);
      r.Some? && !slots[r.value].IsFree() && rec.EstCost(slots[r.value]).Some? ==>
        m.working.CanAfford(rec.EstCost(slots[r.value]).value, now)
  {
    hide Choose, Eligible, Budget.Wallet.CanAfford, PriceOf, Models.Cost.Total;
    ChoiceIsBest(rec, slots, m, now, policy);
    var r := Choose(rec, slots, m, now, policy);
    if r.Some? {
      InPlainTerms(rec, slots, m.working, now, policy, r.value);
    }
  }

  ghost predicate SomePriced(ds: seq<Decision>) {
    exists i :: 0 <= i < |ds| && PricedReserve(ds[i])
  }

  /** One more reserve of the loop, on top of the estimates so far. */
  lemma {:induction false} OneMoreReserve(rec: Job, slots: seq<Slot>, i: nat, before: Match, start: Wallet, est: real,
                                          now: Time)
    requires |before.remaining| == |slots| && i < |slots| && WalletCarries(before.working, start, est, now)
    ensures
      var d := ReserveFor(rec, slots, i);
      var after := Take(before, rec, slots, i, now).working;
      && WalletCarries(after, start, est + d.estCost, now)
      && (PricedReserve(d) && before.working.CanAfford(d.estCost, now) ==> WalletWithinCap(start, est + d.estCost, now))
      && (!PricedReserve(d) ==> d.estCost == 0.0)
  {
    hide Budget.Wallet.CanAfford, Budget.Wallet.Commit, Budget.BudgetLedger.InWindowTotal, Consume;
    var d := ReserveFor(rec, slots, i);
    if !d.slot.IsFree() && rec.EstCost(d.slot).Some? {
      WalletCommit(before.working, d.jobId, d.provider, d.estCost, now);
    }
  }

  lemma PricedMore(prior: seq<Decision>, d: Decision)
    ensures SomePriced(prior + [d]) <==> SomePriced(prior) || PricedReserve(d)
    ensures EstTotal(prior + [d]) == EstTotal(prior) + (if d.Reserve? then d.estCost else 0.0)
  {
    var ds := prior + [d];
    assert ds[..|prior|] == prior;
    assert forall i :: 0 <= i < |prior| ==> ds[i] == prior[i];
    assert ds[|prior|] == d;
  }

  lemma NothingReserved(w: Wallet, now: Time)
    ensures WalletCarries(w, w, EstTotal([]), now) && !SomePriced([])
  {
  }

  /** The working wallet of the pass is the starting one plus the estimates reserved so far,
      and once a priced reserve is made that sum is within both caps. */
  lemma {:induction false} PassLedger(recs: seq<Job>, slots: seq<Slot>, m: Match, now: Time, policy: SchedPolicy)
    requires |m.remaining| == |slots|
    ensures
      var ds := Reserves(recs, slots, m, now, policy);
      && WalletCarries(MatchAll(recs, slots, m, now, policy).working, m.working, EstTotal(ds), now)
      && (SomePriced(ds) ==> WalletWithinCap(m.working, EstTotal(ds), now))
  {
    hide Choose, Budget.Wallet.CanAfford, Take, WalletCarries, WalletWithinCap, SomePriced, EstTotal, ReserveFor,
      PricedReserve;
    if recs == [] {
      NothingReserved(m.working, now);
    } else {
      var n := |recs| - 1;
      PassLedger(recs[..n], slots, m, now, policy);
      var before := MatchAll(recs[..n], slots, m, now, policy);
      var prior := Reserves(recs[..n], slots, m, now, policy);
      var choice := ChoiceOf(recs, n, slots, m, now, policy);
      if choice.Some? {
        var d := ReserveFor(recs[n], slots, choice.value);
        PricedMore(prior, d);
        ChosenPriceIsAffordable(recs[n], slots, before, now, policy, choice.value);
        OneMoreReserve(recs[n], slots, choice.value, before, m.working, EstTotal(prior), now);
        assert d.Reserve? by {
          IsReserve(recs[n], slots, choice.value);
        }
      }
    }
  }

  lemma IsReserve(rec: Job, slots: seq<Slot>, i: nat)
    requires i < |slots|
    ensures ReserveFor(rec, slots, i).Reserve?
  {
  }

  lemma {:induction false} ChosenPriceIsAffordable(rec: Job, slots: seq<Slot>, m: Match, now: Time, policy: SchedPolicy,
                                                   i: nat)
    requires Choose(rec, slots, m, now, policy) == Some(i) && i < |slots|
    ensures PricedReserve(ReserveFor(rec, slots, i)) ==> m.working.CanAfford(ReserveFor(rec, slots, i).estCost, now)
  {
    hide Choose, Budget.Wallet.CanAfford;
    ChosenIsAffordable(rec, slots, m, now, policy);
  }

  /** A pass that reserves any priced slot leaves both windows' totals, estimates included,
      within their caps. */
  lemma {:induction false} PassStaysInBudget(snap: Snapshot, slots: seq<Slot>, wallet: Wallet, now: Time,
                                             policy: SchedPolicy)
    ensures
      var ds := Reserves(Ranked(ToRank(snap, slots, now, policy), now), slots, StartMatch(snap, slots, wallet), now,
        policy);
      && WalletCarries(MatchAll(Ranked(ToRank(snap, slots, now, policy), now), slots,
        StartMatch(snap, slots, wallet), now, policy).working,
                       wallet, EstTotal(ds), now)
      && (SomePriced(ds) ==> WalletWithinCap(wallet, EstTotal(ds), now))
  {
    hide MatchAll, Reserves, Ranked, ToRank, SomePriced, WalletCarries, WalletWithinCap;
    PassLedger(Ranked(ToRank(snap, slots, now, policy), now), slots, StartMatch(snap, slots, wallet), now, policy);
  }
}
