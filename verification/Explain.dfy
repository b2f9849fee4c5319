/** The explanation agrees with the decisions, and exactly when its reasons are silent. */
module Explain {
  import opened Wrappers
  import opened Models
  import opened Budget
  import opened Scheduler
  import opened PassProperties
  import opened PassLoop
  import opened PassByJob

  ghost predicate DistinctSlotKeys(slots: seq<Slot>) {
    forall i, j :: 0 <= i < j < |slots| ==> slots[i].OfferKey(i) != slots[j].OfferKey(j)
  }

  ghost predicate Announces(d: Decision, slots: seq<Slot>, c: nat, v: SlotVerdict) {
    c < |slots| && d.Reserve? && d.slot == slots[c] && d.offerKey == v.offerKey && d.provider == v.provider
  }

  /** One ranked job's narration and its reserve are the same choice. */
  lemma {:induction false} NarrationMatchesReserve(recs: seq<Job>, k: nat, slots: seq<Slot>, m: Match, wallet: Wallet,
                                                   now: Time, policy: SchedPolicy)
    requires |m.remaining| == |slots| && k < |recs|
    ensures
      var told := MatchTold(recs, k, slots, m, wallet, now, policy).candidates;
      var made := ReserveAt(recs, k, slots, m, now, policy);
      && |told| == |slots|
      && (forall c :: 0 <= c < |told| ==>
        (told[c].chosen <==> made != [] && Some(c) == ChoiceOf(recs, k, slots, m, now, policy)))
      && (forall c :: 0 <= c < |told| && told[c].chosen ==> made != [] && Announces(made[0], slots, c, told[c]))
      && (made != [] ==> exists c :: 0 <= c < |told| && told[c].chosen)
  {
    hide Choose, MatchAll, Models.Slot.Fits, MatchView.Reasons, MatchView.MatchWhy, Models.Slot.OfferKey;
    var before := MatchAll(recs[..k], slots, m, now, policy);
    var view := ViewOf(recs[k], slots, before, now, policy);
    var told := MatchTold(recs, k, slots, m, wallet, now, policy).candidates;
    assert told == view.Verdicts(|slots|);
    assert view.chosen == ChoiceOf(recs, k, slots, m, now, policy);
    if view.chosen.Some? {
      var c := view.chosen.value;
      assert told[c] == view.VerdictOf(c);
      assert told[c].chosen;
    }
  }

  lemma {:induction false} LadderNeverReserves(jobs: seq<Job>, snap: Snapshot, d: Decision)
    requires d in TriageAll(jobs, snap)
    ensures !d.Reserve?
  {
    if d in TriageAll(jobs[..|jobs| - 1], snap) {
      LadderNeverReserves(jobs[..|jobs| - 1], snap, d);
    }
  }

  lemma {:induction false} AdmissionNeverReserves(pending: seq<Job>, states: map<JobId, JobState>, slots: seq<Slot>,
                                                  now: Time, policy: SchedPolicy, d: Decision)
    requires d in AdmitAll(pending, states, slots, now, policy)
    ensures !d.Reserve?
  {
    hide Rule;
    if d in AdmitAll(pending[..|pending| - 1], states, slots, now, policy) {
      AdmissionNeverReserves(pending[..|pending| - 1], states, slots, now, policy, d);
    }
  }

  /** The reserves of a pass are those of its matching phase. */
  lemma {:induction false} ReservesOfPass(snap: Snapshot, slots: seq<Slot>, wallet: Wallet, now: Time,
                                          policy: SchedPolicy, d: Decision)
    ensures d in Schedule(snap, slots, wallet, now, policy) && d.Reserve?
      <==> d in Reserves(Ranked(ToRank(snap, slots, now, policy), now), slots, StartMatch(snap, slots, wallet), now,
        policy)
  {
    hide TriageAll, PendingOf, AdmitAll, ToRank, Reserves, Ranked, StartMatch, StatesOf;
    var pending, states := PendingOf(snap.jobs, snap), StatesOf(snap.jobs);
    if d in TriageAll(snap.jobs, snap) {
      LadderNeverReserves(snap.jobs, snap, d);
    }
    if d in AdmitAll(pending, states, slots, now, policy) {
      AdmissionNeverReserves(pending, states, slots, now, policy, d);
    }
  }

  /** Told verdicts against the reserves of one job. */
  ghost predicate Agrees(told: seq<SlotVerdict>, made: iset<Decision>, slots: seq<Slot>) {
    && (forall c :: 0 <= c < |told| && told[c].chosen ==> exists d :: d in made && Announces(d, slots, c, told[c]))
    && (forall d :: d in made ==> exists c :: 0 <= c < |told| && told[c].chosen && Announces(d, slots, c, told[c]))
    && (DistinctSlotKeys(slots) ==> forall c :: 0 <= c < |told| ==>
          (told[c].chosen <==> exists d :: d in made && d.Reserve? && d.offerKey == told[c].offerKey))
  }

  ghost function ReservesOf(ds: seq<Decision>, jid: JobId): iset<Decision> {
    iset d | d in ds && d.Reserve? && d.jobId == jid
  }

  lemma {:induction false} ToldKeys(recs: seq<Job>, k: nat, slots: seq<Slot>, m: Match, wallet: Wallet, now: Time,
                                    policy: SchedPolicy)
    requires |m.remaining| == |slots| && k < |recs|
    ensures
      var told := MatchTold(recs, k, slots, m, wallet, now, policy).candidates;
      |told| == |slots| && forall c :: 0 <= c < |slots| ==>
        told[c].offerKey == slots[c].OfferKey(c) && told[c].provider == slots[c].provider
  {
    hide Choose, MatchAll, Models.Slot.Fits, MatchView.Reasons, MatchView.MatchWhy, Models.Slot.OfferKey,
      Models.Slot.IsFree;
  }

  lemma {:induction false} NarrationAgrees(recs: seq<Job>, k: nat, slots: seq<Slot>, m: Match, wallet: Wallet,
                                           now: Time, policy: SchedPolicy, made: iset<Decision>)
    requires |m.remaining| == |slots| && k < |recs|
    requires forall d :: d in made <==> d in ReserveAt(recs, k, slots, m, now, policy)
    ensures Agrees(MatchTold(recs, k, slots, m, wallet, now, policy).candidates, made, slots)
  {
    hide Choose, MatchAll, MatchTold, ReserveAt, ChoiceOf, Models.Slot.OfferKey;
    NarrationMatchesReserve(recs, k, slots, m, wallet, now, policy);
    ToldKeys(recs, k, slots, m, wallet, now, policy);
    var told := MatchTold(recs, k, slots, m, wallet, now, policy).candidates;
    var ds := ReserveAt(recs, k, slots, m, now, policy);
    if ds != [] {
      var c :| 0 <= c < |told| && told[c].chosen;
      assert ds[0] in made && Announces(ds[0], slots, c, told[c]);
      assert forall d :: d in made ==> d == ds[0];
    }
  }

  /** For any job of the snapshot: a slot is marked chosen only if the same pass emits that
      job's reserve of that very slot, a reserve always has its slot marked, and with
      distinct offer keys the mark and the reserve's key coincide. */
  lemma {:induction false} ExplainAgreesWithSchedule(snap: Snapshot, slots: seq<Slot>, wallet: Wallet, now: Time,
                                                     policy: SchedPolicy, jid: JobId)
    requires UniqueIds(snap.jobs) && HasId(snap.jobs, jid)
    ensures
      var exp := Narrated(snap, slots, wallet, now, policy, jid);
      var ds := Schedule(snap, slots, wallet, now, policy);
      exp.Some? && Agrees(exp.value.candidates, ReservesOf(ds, jid), slots)
  {
    hide Schedule, GoesToAdmission, Rule, Ranked, Reserves, StartMatch, StatesOf, MatchTold, ReserveAt, ToRank,
      DecisionsFor, UniqueIds, Agrees;
    EveryJobIsExplained(snap, slots, wallet, now, policy, jid);
    var admitted := ToRank(snap, slots, now, policy);
    var recs := Ranked(admitted, now);
    var m := StartMatch(snap, slots, wallet);
    RanksUniquely(snap, slots, now, policy);
    var made := ReservesOf(Schedule(snap, slots, wallet, now, policy), jid);
    forall d ensures d in made <==> d in Reserves(recs, slots, m, now, policy) && d.jobId == jid {
      ReservesOfPass(snap, slots, wallet, now, policy, d);
    }
    assert forall d :: d in made <==> d in DecisionsFor(Reserves(recs, slots, m, now, policy), jid) by {
      InDecisionsFor(Reserves(recs, slots, m, now, policy), jid);
    }
    var last := LastOf(recs, jid);
    if last.Some? {
      ReservesFor(recs, slots, m, now, policy, jid, last.value);
      NarrationAgrees(recs, last.value, slots, m, wallet, now, policy, made);
    } else {
      ReservesForNobody(recs, slots, m, now, policy, jid);
      assert Agrees([], made, slots) by {
        NothingAgrees(made, slots);
      }
    }
  }

  lemma NothingAgrees(made: iset<Decision>, slots: seq<Slot>)
    requires forall d :: d !in made
    ensures Agrees([], made, slots)
  {
  }

  lemma InDecisionsFor(ds: seq<Decision>, jid: JobId)
    ensures forall d :: d in DecisionsFor(ds, jid) <==> d in ds && d.jobId == jid
  {
  }

  lemma RanksUniquely(snap: Snapshot, slots: seq<Slot>, now: Time, policy: SchedPolicy)
    requires UniqueIds(snap.jobs)
    ensures UniqueIds(Ranked(ToRank(snap, slots, now, policy), now))
  {
    var pending := PendingOf(snap.jobs, snap);
    PendingUnique(snap.jobs, snap);
    AdmittedUnique(pending, StatesOf(snap.jobs), slots, now, policy);
    RankedUnique(ToRank(snap, slots, now, policy), now);
  }

  // ------------------------------------------------------------------ true reasons

  /** What a reason told for slot `i` claims, by the fields of the records. */
  ghost predicate IsTrue(r: Reason, rec: Job, slots: seq<Slot>, m: Match, now: Time, policy: SchedPolicy, i: nat,
                         chosen: Option<nat>)
    requires i < |slots| && i < |m.remaining| && (chosen.Some? ==> chosen.value < |slots|)
  {
    var slot := slots[i];
    var paid, price := slot.cost.perHour.Some?, PriceOf(rec, slot);
    match r
    case PinnedElsewhere => rec.spec.onlyBackend.Some? && rec.spec.onlyBackend.value != slot.provider
    case UnfitFor(unfit) => unfit in slot.capabilities.Satisfies(rec.spec.resources)
    case AtCapacity => m.remaining[i] <= 0
    case OfferTaken => slot.OfferKey(i) in m.usedKeys
    case RecentlyFailed => Shuns(rec, slot, now)
    case AvoidWindow => Shuns(rec, slot, now) && exists k: nat :: Usable(rec, slots, m, k) && !Shuns(rec, slots[k], now)
    case FreeButLate => !paid && !InTime(rec, slot, now)
    case SoonerWon =>
      !paid && chosen.Some? && Prompt(rec, slots, now, chosen.value) && slots[chosen.value].Wait() <= slot.Wait()
    case PaidDisabled => paid && !policy.allowPaid
    case PaidButLate => paid && !InTime(rec, slot, now)
    case CostUnknowable => paid && price.None? && (rec.spec.policy.maxCost.Some? || m.working.primary.cap.Some?)
    case OverMaxCost =>
      paid && price.Some? && rec.spec.policy.maxCost.Some? && price.value > rec.spec.policy.maxCost.value
    case OverBudget => paid && price.Some? && !m.working.CanAfford(price.value, now)
    case FreeFirst => paid && chosen.Some? && slots[chosen.value].cost.perHour.None?
    case CheaperWon =>
      paid && price.Some? && chosen.Some? && PriceOf(rec, slots[chosen.value]).Some?
      && PriceOf(rec, slots[chosen.value]).value <= price.value
    case NotSelected => false
  }

  /** Whatever an explanation holds against a slot is true of it. The catch-all, that it was just
      not selected, is never said. */
  lemma {:induction false} ReasonsAreTrue(rec: Job, slots: seq<Slot>, m: Match, now: Time, policy: SchedPolicy, i: nat,
                                          r: Reason)
    requires |m.remaining| == |slots| && i < |slots| && r in ViewOf(rec, slots, m, now, policy).Reasons(i)
    ensures IsTrue(r, rec, slots, m, now, policy, i, Choose(rec, slots, m, now, policy))
  {
    hide Choose, Candidates, RunnerUp, IsTrue, Models.Capabilities.Satisfies, Models.Slot.OfferKey, Usable, Shuns,
      Models.Job.Avoids, NoneUnavoided;
    var view := ViewOf(rec, slots, m, now, policy);
    CandidatesExactly(rec, slots, m, now, i);
    InPlainTerms(rec, slots, m.working, now, policy, i);
    if view.Reasons(i) == RunnerUp(slots[i], rec, m.working, now, policy, view.ChosenSlot()) && i in view.candidates
      && Some(i) != view.chosen {
      RunnerUpIsTrue(rec, slots, m, now, policy, i, r);
    } else {
      SlotReasonIsTrue(rec, slots, m, now, policy, i, r);
    }
  }

  /** The reasons that do not depend on what was chosen. */
  lemma {:induction false} SlotReasonIsTrue(rec: Job, slots: seq<Slot>, m: Match, now: Time, policy: SchedPolicy,
                                            i: nat, r: Reason)
    requires |m.remaining| == |slots| && i < |slots| && r in ViewOf(rec, slots, m, now, policy).Reasons(i)
    requires
      var view := ViewOf(rec, slots, m, now, policy);
      !(view.Reasons(i) == RunnerUp(slots[i], rec, m.working, now, policy, view.ChosenSlot()) && i in view.candidates
        && Some(i) != view.chosen)
    ensures IsTrue(r, rec, slots, m, now, policy, i, Choose(rec, slots, m, now, policy))
  {
    hide Choose, Candidates, RunnerUp, Models.Capabilities.Satisfies, Models.Slot.OfferKey, PriceOf, InTime, Prompt;
    CandidatesExactly(rec, slots, m, now, i);
  }

  /** A candidate that was beaten. */
  lemma {:induction false} RunnerUpIsTrue(rec: Job, slots: seq<Slot>, m: Match, now: Time, policy: SchedPolicy, i: nat,
                                          r: Reason)
    requires |m.remaining| == |slots| && i < |slots|
    requires
      var view := ViewOf(rec, slots, m, now, policy);
      && i in view.candidates && Some(i) != view.chosen
      && r in RunnerUp(slots[i], rec, m.working, now, policy, view.ChosenSlot())
    ensures IsTrue(r, rec, slots, m, now, policy, i, Choose(rec, slots, m, now, policy))
  {
    hide Choose, Candidates, Models.Capabilities.Satisfies, Models.Slot.OfferKey, PriceOf, Models.Job.MeetsDeadline,
      InTime, Models.Cost.Total, Budget.Wallet.CanAfford, Usable, NoneUnavoided, Shuns, EligibleSet, Eligible, BestOf,
      Models.Slot.Wait;
    InPlainTerms(rec, slots, m.working, now, policy, i);
    CandidatesExactly(rec, slots, m, now, i);
    if Prompt(rec, slots, now, i) {
      SoonestWins(rec, slots, m, now, policy, i);
    } else if Known(rec, slots, m.working, now, policy, i) {
      FreeOrCheapestWins(rec, slots, m, now, policy, i);
    }
  }

  lemma {:induction false} SoonestWins(rec: Job, slots: seq<Slot>, m: Match, now: Time, policy: SchedPolicy, i: nat)
    requires Eligible(rec, slots, m, now, i) && Prompt(rec, slots, now, i)
    ensures
      var r := Choose(rec, slots, m, now, policy);
      r.Some? && Prompt(rec, slots, now, r.value) && slots[r.value].Wait() <= slots[i].Wait()
  {
    hide Choose, Eligible, Prompt;
    ChoiceIsBest(rec, slots, m, now, policy);
    assert i in EligibleSet(rec, slots, m, now);
  }

  lemma {:induction false} FreeOrCheapestWins(rec: Job, slots: seq<Slot>, m: Match, now: Time, policy: SchedPolicy,
                                              i: nat)
    requires Eligible(rec, slots, m, now, i) && Known(rec, slots, m.working, now, policy, i)
    ensures
      var r := Choose(rec, slots, m, now, policy);
      && r.Some? && r.value < |slots|
      && (slots[r.value].cost.perHour.Some? ==>
            PriceOf(rec, slots[r.value]).Some? && PriceOf(rec, slots[i]).Some?
            && PriceOf(rec, slots[r.value]).value <= PriceOf(rec, slots[i]).value)
  {
    hide Choose, Eligible, InTime, PriceOf, Budget.Wallet.CanAfford;
    ChoiceIsBest(rec, slots, m, now, policy);
    assert i in EligibleSet(rec, slots, m, now);
  }

  /** What an explanation says of a matched job as a whole is so: it is placed where the pass
      places it, or its pin was offered nothing, or there were no slots, or none was to be had;
      and the time it names is one the job waits for. */
  lemma {:induction false} VerdictIsTrue(recs: seq<Job>, k: nat, slots: seq<Slot>, m: Match, wallet: Wallet, now: Time,
                                         policy: SchedPolicy)
    requires |m.remaining| == |slots| && k < |recs|
    ensures
      var rec, told := recs[k], MatchTold(recs, k, slots, m, wallet, now, policy);
      var choice := ChoiceOf(recs, k, slots, m, now, policy);
      && (forall t :: told.nextEligible == Some(t) <==> rec.notBefore == Some(t) && now < t)
      && match told.why
         case PlacingOn(provider, key) =>
           choice.Some? && slots[choice.value].provider == provider && slots[choice.value].OfferKey(choice.value) == key
         case PinOfferedNothing =>
           choice.None? && rec.spec.onlyBackend.Some?
           && forall i :: 0 <= i < |slots| ==> slots[i].provider != rec.spec.onlyBackend.value
         case NoSlots => slots == []
         case NoneFree =>
           choice.None? && slots != []
           && (rec.spec.onlyBackend.Some? ==>
             exists i :: 0 <= i < |slots| && slots[i].provider == rec.spec.onlyBackend.value)
         case _ => false
  {
    hide Choose, MatchAll, Models.Slot.Fits, Models.Slot.OfferKey, Candidates, MatchView.Reasons;
  }

  /** What an explanation says of a job that is not up for admission is so, and is what the pass
      does about it. */
  lemma NoteIsTrue(rec: Job, snap: Snapshot)
    requires LadderSays(rec, snap).Some?
    ensures
      var jid := rec.spec.jobId;
      var over := rec.state.Succeeded? || rec.state.Failed? || rec.state.Cancelled?;
      match LadderSays(rec, snap).value
      case CancelOwnsIt => jid in snap.cancels && !over
      case InFlight(kind) => jid in snap.intents && snap.intents[jid] == kind && Triage(rec, snap) == []
      case NothingLeft => over && (rec.placement.None? || rec.reaped) && Triage(rec, snap) == []
      case CapturingTerminal => over && Triage(rec, snap) == [StartCapture(jid)]
      case ReapingTerminal => over && Triage(rec, snap) == [StartReap(jid)]
      case CapturingDead => rec.lastStatus == Some(Lost) && Triage(rec, snap) == [StartCapture(jid)]
      case ReleasingDead => rec.lastStatus == Some(Lost) && Triage(rec, snap) == [StartRelease(jid)]
      case RequeueingDead => rec.lastStatus == Some(Lost) && Triage(rec, snap) == [Requeue(jid)]
      case Occupied => (rec.state.Placing? || rec.state.Running?) && Triage(rec, snap) == []
  {
  }

  // ------------------------------------------------------------------ silent reasons

  /** The chosen slot is told without a reason exactly when its provider is outside the job's
      avoid windows: chosen because nothing else is usable, an avoided provider's slot is
      marked chosen and still carries the avoid reason. */
  lemma {:induction false} ChosenIsSilentIff(rec: Job, slots: seq<Slot>, m: Match, now: Time, policy: SchedPolicy,
                                             i: nat)
    requires |m.remaining| == |slots| && Choose(rec, slots, m, now, policy) == Some(i)
    ensures i < |slots|
    ensures ViewOf(rec, slots, m, now, policy).Reasons(i) == [] <==> !rec.Avoids(slots[i].provider, now)
  {
    hide RunnerUp, Candidates, ChooseAmong, Models.Capabilities.Satisfies, Models.Job.Avoids, Models.Slot.OfferKey;
    assert Usable(rec, slots, m, i);
    assert i in Candidates(rec, slots, m, now);
  }

  /** Any other slot is told without a reason exactly when it is a candidate outside the avoid
      windows that is paid, in time, of unknown cost, with nothing bounding the cost: beaten,
      but not told why. */
  lemma {:induction false} RunnerUpIsSilentIff(rec: Job, slots: seq<Slot>, m: Match, now: Time, policy: SchedPolicy,
                                               i: nat)
    requires |m.remaining| == |slots| && i < |slots| && Choose(rec, slots, m, now, policy) != Some(i)
    ensures ViewOf(rec, slots, m, now, policy).Reasons(i) == [] <==>
      && i in Candidates(rec, slots, m, now) && !rec.Avoids(slots[i].provider, now)
      && policy.allowPaid && UnknownPaidOk(rec, slots[i], m.working, now)
  {
    hide Candidates, ChooseAmong, Models.Capabilities.Satisfies, Models.Job.Avoids, Models.Slot.OfferKey,
      Budget.Wallet.CanAfford, Models.Job.MeetsDeadline, Models.Cost.Total, InTime, Known, Unknown;
    var c := Candidates(rec, slots, m, now);
    ChooseAmongIsBest(c, rec, slots, m.working, now, policy);
    InPlainTerms(rec, slots, m.working, now, policy, i);
    if i in c && slots[i].IsFree() && rec.MeetsDeadline(slots[i], now) {
      assert i in Members(c) && Prompt(rec, slots, now, i);
      assert Choose(rec, slots, m, now, policy).Some?;
    }
  }

  // ------------------------------------------------------------------ at concrete inputs

  const PLAIN := Job(
    JobSpec("j", ResourceSpec(0, None, None, None, None, None), Policy(None, None, 0, false), None, []),
    None, Queued, None, None, false, false, false, 0, None, map[], None)

  const ANYTHING := Capabilities([], None, None, None, None)
  const FREE_SLOT := Slot("p", ANYTHING, Cost(None, None), None, 1, Some("free"))
  const PAID_SLOT := Slot("q", ANYTHING, Cost(None, Some(1.0)), None, 1, Some("paid"))
  const NO_CAP := Wallet(BudgetLedger(Day, None, []), None)

  /** The only slot is of a provider the job avoids: chosen, and not silent. */
  lemma {:induction false} AvoidedButChosen()
    ensures
      var rec, slots, m := PLAIN.(avoid := map["p" := 10.0]), [FREE_SLOT], Match([1], {}, NO_CAP);
      var policy := SchedPolicy(true, 3);
      && Choose(rec, slots, m, 0.0, policy) == Some(0)
      && ViewOf(rec, slots, m, 0.0, policy).Reasons(0) != []
  {
    hide ChooseAmong, MatchView.Reasons;
    var rec, slots, m := PLAIN.(avoid := map["p" := 10.0]), [FREE_SLOT], Match([1], {}, NO_CAP);
    var policy := SchedPolicy(true, 3);
    assert Usable(rec, slots, m, 0);
    var c := Candidates(rec, slots, m, 0.0);
    var preferred := Keep(Select(UsableBy(rec, slots, m), 1), Unavoided(rec, slots, 0.0));
    assert rec.Avoids("p", 0.0);
    assert forall i: nat :: i !in preferred;
    SomeMember(preferred);
    assert 0 in c && forall i :: i in c ==> i == 0;
    ChooseAmongIsBest(c, rec, slots, NO_CAP, 0.0, policy);
    assert 0 in Members(c) && Prompt(rec, slots, 0.0, 0);
    ChosenIsSilentIff(rec, slots, m, 0.0, policy, 0);
  }

  lemma SomeMember(s: seq<nat>)
    ensures s != [] ==> exists i: nat :: i in s
  {
    if s != [] {
      assert s[0] in s;
    }
  }

  /** Both slots are there to choose from. */
  lemma {:induction false} BothAreCandidates()
    ensures
      var slots, m := [FREE_SLOT, PAID_SLOT], Match([1, 1], {}, NO_CAP);
      var c := Candidates(PLAIN, slots, m, 0.0);
      0 in c && 1 in c
  {
    var slots, m := [FREE_SLOT, PAID_SLOT], Match([1, 1], {}, NO_CAP);
    assert Usable(PLAIN, slots, m, 0) && Usable(PLAIN, slots, m, 1);
  }

  /** A free slot is there at once; the paid one, of unknown cost, is passed over and silent. */
  lemma {:induction false} PassedOverInSilence()
    ensures
      var slots, m := [FREE_SLOT, PAID_SLOT], Match([1, 1], {}, NO_CAP);
      var policy := SchedPolicy(true, 3);
      && Choose(PLAIN, slots, m, 0.0, policy) == Some(0)
      && ViewOf(PLAIN, slots, m, 0.0, policy).Reasons(1) == []
  {
    hide ChooseAmong, Candidates, Usable, MatchView.Reasons, Known, Unknown, PriceOf;
    var slots, m := [FREE_SLOT, PAID_SLOT], Match([1, 1], {}, NO_CAP);
    var policy := SchedPolicy(true, 3);
    var c := Candidates(PLAIN, slots, m, 0.0);
    BothAreCandidates();
    ChooseAmongIsBest(c, PLAIN, slots, NO_CAP, 0.0, policy);
    assert 0 in Members(c) && Prompt(PLAIN, slots, 0.0, 0);
    RunnerUpIsSilentIff(PLAIN, slots, m, 0.0, policy, 1);
  }
}
