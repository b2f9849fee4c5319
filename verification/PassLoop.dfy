/** The pass as it runs: the three loops that build the decision list, and the explanation
    narrated alongside. The decisions are the `Schedule` function, whoever asks for one. */
module PassLoop {
  import opened Wrappers
  import opened Models
  import opened Budget
  import opened Scheduler
  import opened PassProperties

  // ------------------------------------------------------------------ explanations

  datatype LadderNote =
    | CancelOwnsIt | InFlight(kind: WorkKind) | NothingLeft | CapturingTerminal | ReapingTerminal
    | CapturingDead | ReleasingDead | RequeueingDead | Occupied

  datatype Why =
    | Ladder(note: LadderNote) | Ruled(ruling: Ruling)
    | PlacingOn(provider: string, offerKey: string) | PinOfferedNothing | NoSlots | NoneFree

  datatype Reason =
    | PinnedElsewhere | UnfitFor(unfit: Unfit) | AtCapacity | OfferTaken | RecentlyFailed
    | FreeButLate | SoonerWon | PaidDisabled | PaidButLate | CostUnknowable | OverMaxCost
    | OverBudget | FreeFirst | CheaperWon | NotSelected | AvoidWindow

  datatype SlotVerdict = SlotVerdict(
    provider: string, offerKey: string, free: bool, estCost: Option<real>, waitS: Option<real>,
    chosen: bool, reasons: seq<Reason>)

  datatype Explanation = Explanation(
    jobId: JobId, state: JobState, why: Why, candidates: seq<SlotVerdict>,
    nextEligible: Option<Time>, budgetCap: Option<real>, budgetSpent: real, maxCost: Option<real>)

  function Tell(rec: Job, why: Why, candidates: seq<SlotVerdict>, wallet: Wallet, now: Time): Explanation {
    Explanation(rec.spec.jobId, rec.state, why, candidates,
                if rec.BackingOff(now) then rec.notBefore else None,
                wallet.primary.cap, wallet.primary.InWindowTotal(now), rec.spec.policy.maxCost)
  }

  /** What the ladder phase says; a job that goes on to admission is not explained there. */
  function LadderSays(rec: Job, snap: Snapshot): (r: Option<LadderNote>)
    ensures r.None? <==> GoesToAdmission(rec, snap)
  {
    var jid := rec.spec.jobId;
    if jid in snap.cancels && !rec.state.Terminal() then Some(CancelOwnsIt)
    else if jid in snap.intents then Some(InFlight(snap.intents[jid]))
    else if rec.state.Terminal() then
      if rec.placement.None? || rec.reaped then Some(NothingLeft)
      else if !rec.Captured() then Some(CapturingTerminal)
      else Some(ReapingTerminal)
    else if rec.Dead() then
      if !rec.Captured() then Some(CapturingDead)
      else if jid in snap.unreleased then Some(ReleasingDead)
      else Some(RequeueingDead)
    else if rec.state.Pending() then None
    else Some(Occupied)
  }

  function RunnerUp(slot: Slot, rec: Job, ledger: Wallet, now: Time, policy: SchedPolicy,
                    chosen: Option<Slot>): seq<Reason> {
    var total := rec.EstCost(slot);
    if slot.IsFree() then
      if !rec.MeetsDeadline(slot, now) then [FreeButLate]
      else if chosen.Some? then [SoonerWon]
      else []
    else if !policy.allowPaid then [PaidDisabled]
    else if !rec.MeetsDeadline(slot, now) then [PaidButLate]
    else if total.None? then
      if rec.spec.policy.maxCost.Some? || ledger.primary.cap.Some? then [CostUnknowable] else []
    else if rec.spec.policy.maxCost.Some? && total.value > rec.spec.policy.maxCost.value then [OverMaxCost]
    else if !ledger.CanAfford(total.value, now) then [OverBudget]
    else if chosen.Some? && chosen.value.IsFree() then [FreeFirst]
    else if chosen.Some? then [CheaperWon]
    else [NotSelected]
  }

  function UnfitReasons(unfit: seq<Unfit>): (r: seq<Reason>)
    ensures |r| == |unfit|
  {
    seq(|unfit|, i requires 0 <= i < |unfit| => UnfitFor(unfit[i]))
  }

  /** Everything that shaped one job's matching step. */
  datatype MatchView = MatchView(
    rec: Job, slots: seq<Slot>, before: Match, candidates: seq<nat>, chosen: Option<nat>,
    now: Time, policy: SchedPolicy)
  {
    function ChosenSlot(): Option<Slot> {
      if chosen.Some? && chosen.value < |slots| then Some(slots[chosen.value]) else None
    }

    function Reasons(i: nat): seq<Reason>
      requires i < |slots| && i < |before.remaining|
    {
      var slot := slots[i];
      if !rec.PinAllows(slot) then [PinnedElsewhere]
      else
        var first := UnfitReasons(slot.capabilities.Satisfies(rec.spec.resources))
          + (if before.remaining[i] <= 0 then [AtCapacity] else [])
          + (if slot.OfferKey(i) in before.usedKeys then [OfferTaken] else []);
        var second := if first == [] && rec.Avoids(slot.provider, now) && i in candidates
                      then [RecentlyFailed] else first;
        var third := if second == [] && i in candidates && Some(i) != chosen
                     then RunnerUp(slot, rec, before.working, now, policy, ChosenSlot()) else second;
        if third == [] && i !in candidates && Some(i) != chosen then [AvoidWindow] else third
    }

    function VerdictOf(i: nat): SlotVerdict
      requires i < |slots| && i < |before.remaining|
    {
      var slot := slots[i];
      SlotVerdict(slot.provider, slot.OfferKey(i), slot.IsFree(), rec.EstCost(slot), slot.waitS,
                  rec.PinAllows(slot) && Some(i) == chosen, Reasons(i))
    }

    function Verdicts(n: nat): (r: seq<SlotVerdict>)
      requires n <= |slots| == |before.remaining|
      ensures |r| == n
      ensures forall i :: 0 <= i < n ==> r[i] == VerdictOf(i)
    {
      if n == 0 then [] else Verdicts(n - 1) + [VerdictOf(n - 1)]
    }

    function MatchWhy(): Why {
      if chosen.Some? && chosen.value < |slots| then
        PlacingOn(slots[chosen.value].provider, slots[chosen.value].OfferKey(chosen.value))
      else if rec.spec.onlyBackend.Some? && !OfferedTo(rec, slots) then PinOfferedNothing
      else if slots == [] then NoSlots
      else NoneFree
    }
  }

  function ViewOf(rec: Job, slots: seq<Slot>, m: Match, now: Time, policy: SchedPolicy): MatchView {
    MatchView(rec, slots, m, Candidates(rec, slots, m, now), Choose(rec, slots, m, now, policy), now, policy)
  }

  // What is on record for one job after each phase; the last word said wins.

  function AfterLadder(jobs: seq<Job>, snap: Snapshot, wallet: Wallet, now: Time, jid: JobId): (r: Option<Explanation>)
    ensures r.Some? <==> exists i :: 0 <= i < |jobs| && jobs[i].spec.jobId == jid && LadderSays(jobs[i], snap).Some?
    ensures r.Some? ==> r.value.jobId == jid && r.value.candidates == []
  {
    if jobs == [] then None
    else
      var n := |jobs| - 1;
      assert forall i :: 0 <= i < n ==> jobs[..n][i] == jobs[i];
      var note := LadderSays(jobs[n], snap);
      if jobs[n].spec.jobId == jid && note.Some?
      then Some(Tell(jobs[n], Ladder(note.value), [], wallet, now))
      else AfterLadder(jobs[..n], snap, wallet, now, jid)
  }

  function AfterAdmission(pending: seq<Job>, states: map<JobId, JobState>, slots: seq<Slot>, wallet: Wallet, now: Time,
                          policy: SchedPolicy, jid: JobId, said: Option<Explanation>): (r: Option<Explanation>)
    ensures r.Some? <==> said.Some? || exists i :: 0 <= i < |pending| && pending[i].spec.jobId == jid
                                        && !Admitted(Rule(pending[i], states, slots, now, policy))
    ensures r != said ==> r.Some? && r.value.jobId == jid && r.value.candidates == []
  {
    if pending == [] then said
    else
      var n := |pending| - 1;
      assert forall i :: 0 <= i < n ==> pending[..n][i] == pending[i];
      var ruling := Rule(pending[n], states, slots, now, policy);
      if pending[n].spec.jobId == jid && !Admitted(ruling)
      then Some(Tell(pending[n], Ruled(ruling), [], wallet, now))
      else AfterAdmission(pending[..n], states, slots, wallet, now, policy, jid, said)
  }

  function LastOf(recs: seq<Job>, jid: JobId): (r: Option<nat>)
    ensures r.None? <==> forall i :: 0 <= i < |recs| ==> recs[i].spec.jobId != jid
    ensures r.Some? ==> r.value < |recs| && recs[r.value].spec.jobId == jid
  {
    if recs == [] then None
    else
      var n := |recs| - 1;
      assert forall i :: 0 <= i < n ==> recs[..n][i] == recs[i];
      if recs[n].spec.jobId == jid then Some(n) else LastOf(recs[..n], jid)
  }

  function AfterMatching(recs: seq<Job>, slots: seq<Slot>, m: Match, wallet: Wallet, now: Time, policy: SchedPolicy,
                         jid: JobId, said: Option<Explanation>): Option<Explanation>
    requires |m.remaining| == |slots|
  {
    var last := LastOf(recs, jid);
    if last.Some? then Some(MatchTold(recs, last.value, slots, m, wallet, now, policy)) else said
  }

  function MatchTold(recs: seq<Job>, k: nat, slots: seq<Slot>, m: Match, wallet: Wallet, now: Time,
                     policy: SchedPolicy): Explanation
    requires |m.remaining| == |slots| && k < |recs|
  {
    var view := ViewOf(recs[k], slots, MatchAll(recs[..k], slots, m, now, policy), now, policy);
    Tell(recs[k], view.MatchWhy(), view.Verdicts(|slots|), wallet, now)
  }

  function Narrated(snap: Snapshot, slots: seq<Slot>, wallet: Wallet, now: Time, policy: SchedPolicy,
                    jid: JobId): Option<Explanation> {
    var pending := PendingOf(snap.jobs, snap);
    AfterMatching(Ranked(ToRank(snap, slots, now, policy), now), slots, StartMatch(snap, slots, wallet), wallet, now,
      policy, jid,
      AfterAdmission(pending, StatesOf(snap.jobs), slots, wallet, now, policy, jid,
        AfterLadder(snap.jobs, snap, wallet, now, jid)))
  }

  // ------------------------------------------------------------------ every job is explained

  /** Whoever is in the snapshot gets an explanation, and nobody else does. */
  lemma {:induction false} EveryJobIsExplained(snap: Snapshot, slots: seq<Slot>, wallet: Wallet, now: Time,
                                               policy: SchedPolicy, jid: JobId)
    ensures Narrated(snap, slots, wallet, now, policy, jid).Some?
            <==> exists i :: 0 <= i < |snap.jobs| && snap.jobs[i].spec.jobId == jid
  {
    hide Rule, Ranked, LadderSays, GoesToAdmission, AdmittedOf, PendingOf, MatchTold, LastOf, AfterAdmission,
      AfterLadder;
    var pending := PendingOf(snap.jobs, snap);
    var states := StatesOf(snap.jobs);
    var admitted := ToRank(snap, slots, now, policy);
    var ranked := Ranked(admitted, now);
    if |ranked| > 0 {
      RankedIsStableSort(admitted, now, ranked[0]);
    }
    if i :| 0 <= i < |snap.jobs| && snap.jobs[i].spec.jobId == jid {
      var rec := snap.jobs[i];
      if LadderSays(rec, snap).None? {
        assert rec in pending;
        if Admitted(Rule(rec, states, slots, now, policy)) {
          assert rec in admitted;
          RankedIsStableSort(admitted, now, rec);
          assert rec in multiset(ranked);
        }
      }
    } else {
      forall k | 0 <= k < |ranked| ensures ranked[k].spec.jobId != jid {
        assert ranked[k] in multiset(ranked);
        assert ranked[k] in admitted;
        assert ranked[k] in snap.jobs;
      }
      forall k | 0 <= k < |pending| ensures pending[k].spec.jobId != jid {
        assert pending[k] in pending;
        assert pending[k] in snap.jobs;
      }
    }
  }

  // ------------------------------------------------------------------ the loops

  /** The cheapest-affordable scan over the candidates. */
  method PickPaidSlot(candidates: seq<nat>, rec: Job, slots: seq<Slot>, ledger: Wallet, now: Time)
    returns (r: Option<nat>)
    requires InRange(candidates, slots)
    ensures r == PickPaid(candidates, rec, slots, ledger, now)
  {
    hide Models.Job.MeetsDeadline, Budget.Wallet.CanAfford, Models.Cost.Total;
    var knownBest: Option<nat> := None;
    var bestCost := 0.0;
    var unknownFallback: Option<nat> := None;
    for k := 0 to |candidates|
      invariant PaidScan(knownBest, unknownFallback) == ScanPaid(candidates[..k], rec, slots, ledger, now)
      invariant knownBest.Some? ==> knownBest.value < |slots| && rec.EstCost(slots[knownBest.value]) == Some(bestCost)
    {
      assert candidates[..k + 1][..k] == candidates[..k];
      var idx := candidates[k];
      var slot := slots[idx];
      if slot.IsFree() || !rec.MeetsDeadline(slot, now) {
        continue;
      }
      var total := rec.EstCost(slot);
      if total.None? {
        if rec.spec.policy.maxCost.None? && ledger.primary.cap.None? && unknownFallback.None? {
          unknownFallback := Some(idx);
        }
        continue;
      }
      if rec.spec.policy.maxCost.Some? && total.value > rec.spec.policy.maxCost.value {
        continue;
      }
      if !ledger.CanAfford(total.value, now) {
        continue;
      }
      if knownBest.None? || total.value < bestCost {
        knownBest, bestCost := Some(idx), total.value;
      }
    }
    assert candidates[..|candidates|] == candidates;
    r := if knownBest.Some? then knownBest else unknownFallback;
  }

  /** The dependency scan: the first broken edge returns at once. */
  method GateOf(deps: seq<JobId>, states: map<JobId, JobState>, forgiving: bool) returns (g: Gate)
    ensures g == DepGate(deps, states, forgiving)
  {
    var waiting: seq<JobId> := [];
    for k := 0 to |deps|
      invariant waiting == WaitingDeps(deps[..k], states)
      invariant DepGate(deps[..k], states, forgiving) == if waiting == [] then Open else AwaitsDeps(waiting)
    {
      assert deps[..k + 1][..k] == deps[..k];
      var dep := deps[k];
      if dep in states && states[dep] == Succeeded {
        continue;
      }
      if dep in states && !states[dep].Terminal() {
        waiting := waiting + [dep];
        continue;
      }
      if forgiving {
        continue;
      }
      BrokenStays(deps, k + 1, states, forgiving);
      return Broken(dep);
    }
    assert deps[..|deps|] == deps;
    g := if waiting != [] then AwaitsDeps(waiting) else Open;
  }

  lemma {:induction false} BrokenStays(deps: seq<JobId>, k: nat, states: map<JobId, JobState>, forgiving: bool)
    requires k <= |deps| && DepGate(deps[..k], states, forgiving).Broken?
    ensures DepGate(deps, states, forgiving) == DepGate(deps[..k], states, forgiving)
    decreases |deps|
  {
    hide WaitingDeps, DepBreaks, DepWaits;
    if k == |deps| {
      assert deps[..k] == deps;
    } else {
      var n := |deps| - 1;
      assert deps[..n][..k] == deps[..k];
      BrokenStays(deps[..n], k, states, forgiving);
    }
  }

  /** Decrements the room of the chosen provider's slots in place. */
  method ConsumeRoom(room: seq<int>, slots: seq<Slot>, provider: string) returns (remaining: seq<int>)
    requires |room| == |slots|
    ensures remaining == Consume(room, slots, provider, |slots|)
  {
    remaining := room;
    for i := 0 to |slots|
      invariant remaining == Consume(room, slots, provider, i)
    {
      if slots[i].provider == provider && remaining[i] > 0 {
        remaining := remaining[i := remaining[i] - 1];
      }
    }
  }

  /** Why one slot was or was not the one, each test only while nothing was said yet. */
  method ReasonsFor(view: MatchView, i: nat) returns (reasons: seq<Reason>)
    requires i < |view.slots| && i < |view.before.remaining|
    ensures reasons == view.Reasons(i)
  {
    hide RunnerUp, Models.Capabilities.Satisfies, Models.Slot.OfferKey, Models.Job.Avoids, MatchView.ChosenSlot;
    var slot := view.slots[i];
    if !view.rec.PinAllows(slot) {
      return [PinnedElsewhere];
    }
    reasons := UnfitReasons(slot.capabilities.Satisfies(view.rec.spec.resources));
    if view.before.remaining[i] <= 0 {
      reasons := reasons + [AtCapacity];
    }
    if slot.OfferKey(i) in view.before.usedKeys {
      reasons := reasons + [OfferTaken];
    }
    if reasons == [] && view.rec.Avoids(slot.provider, view.now) && i in view.candidates {
      reasons := [RecentlyFailed];
    }
    if reasons == [] && i in view.candidates && Some(i) != view.chosen {
      reasons := RunnerUp(slot, view.rec, view.before.working, view.now, view.policy, view.ChosenSlot());
    }
    if reasons == [] && i !in view.candidates && Some(i) != view.chosen {
      reasons := [AvoidWindow];
    }
  }

  /** Walks every slot once. */
  method ExplainMatch(view: MatchView) returns (verdicts: seq<SlotVerdict>)
    requires |view.slots| == |view.before.remaining|
    ensures verdicts == view.Verdicts(|view.slots|)
  {
    hide MatchView.Reasons, Models.Slot.OfferKey;
    verdicts := [];
    for i := 0 to |view.slots|
      invariant verdicts == view.Verdicts(i)
    {
      var slot := view.slots[i];
      var reasons := ReasonsFor(view, i);
      verdicts := verdicts
        + [SlotVerdict(slot.provider, slot.OfferKey(i), slot.IsFree(), view.rec.EstCost(slot), slot.waitS,
                       view.rec.PinAllows(slot) && Some(i) == view.chosen, reasons)];
    }
  }

  /** The first phase: what the ladder decides for one job, and what is said of it. */
  method LadderStep(rec: Job, snap: Snapshot) returns (ds: seq<Decision>, note: Option<LadderNote>)
    ensures ds == Triage(rec, snap) && note == LadderSays(rec, snap)
  {
    var jid := rec.spec.jobId;
    ds := [];
    if jid in snap.cancels && !rec.state.Terminal() {
      if !(jid in snap.intents && snap.intents[jid] == CancelItem) {
        ds := [StartCancel(jid)];
      }
      return ds, Some(CancelOwnsIt);
    }
    if jid in snap.intents {
      return ds, Some(InFlight(snap.intents[jid]));
    }
    if rec.state.Terminal() {
      if rec.placement.None? || rec.reaped {
        return ds, Some(NothingLeft);
      }
      if !rec.Captured() {
        return [StartCapture(jid)], Some(CapturingTerminal);
      }
      return [StartReap(jid)], Some(ReapingTerminal);
    }
    if rec.Dead() {
      if !rec.Captured() {
        return [StartCapture(jid)], Some(CapturingDead);
      } else if jid in snap.unreleased {
        return [StartRelease(jid)], Some(ReleasingDead);
      }
      return [Requeue(jid)], Some(RequeueingDead);
    }
    note := if rec.state.Pending() then None else Some(Occupied);
  }

  /** The second phase: attempts, dependencies, backoff, then fit. */
  method AdmitStep(rec: Job, states: map<JobId, JobState>, slots: seq<Slot>, now: Time, policy: SchedPolicy)
    returns (ds: seq<Decision>, ruling: Ruling)
    ensures ruling == Rule(rec, states, slots, now, policy) && ds == Admit(rec, states, slots, now, policy)
  {
    hide DepGate, ShortestUnfit, OfferedTo, SomeOfferedFits;
    var jid := rec.spec.jobId;
    if rec.attempts >= policy.maxAttempts && rec.lastError.Some? {
      return [Fail(jid, FailCause.AttemptsExhausted(rec.lastError.value))], Exhausted;
    }
    var gate := GateOf(rec.spec.dependsOn, states, rec.spec.policy.ignoreDepFailure);
    match gate {
      case Broken(dep) => return [Fail(jid, DepFailed(dep))], DependencyBroken(dep);
      case AwaitsDeps(deps) =>
        return if rec.state.Queued? then [Hold(jid, DepWait(deps))] else [], DependencyWait(deps);
      case Open =>
    }
    if rec.BackingOff(now) {
      return [], BackingOff;
    }
    if !OfferedTo(rec, slots) {
      return [], NotOffered;
    }
    if SomeOfferedFits(rec, slots) {
      return if rec.state.Held? then [Unhold(jid)] else [], Fitting;
    }
    ruling := Unsatisfiable;
    ds := RulingDecisions(rec, ruling, slots);
  }

  /** Free in time first, then paid, then free but late. */
  method ChooseSlot(candidates: seq<nat>, rec: Job, slots: seq<Slot>, ledger: Wallet, now: Time, policy: SchedPolicy)
    returns (chosen: Option<nat>)
    requires InRange(candidates, slots)
    ensures chosen == ChooseAmong(candidates, rec, slots, ledger, now, policy)
  {
    hide PickPaid, Soonest, ScanPaid;
    chosen := None;
    var freeOk := Keep(candidates, FreeInTime(rec, slots, now));
    if freeOk != [] {
      chosen := Some(Soonest(freeOk, slots));
    } else if policy.allowPaid {
      chosen := PickPaidSlot(candidates, rec, slots, ledger, now);
    }
    if chosen.None? {
      var freeLate := Keep(candidates, FreeOnes(slots));
      if freeLate != [] {
        chosen := Some(Soonest(freeLate, slots));
      }
    }
  }

  method Sift(snap: Snapshot, wallet: Wallet, now: Time, explainFor: Option<JobId>)
    returns (out: seq<Decision>, pending: seq<Job>, exp: Option<Explanation>)
    ensures out == TriageAll(snap.jobs, snap) && pending == PendingOf(snap.jobs, snap)
    ensures exp == if explainFor.None? then None else AfterLadder(snap.jobs, snap, wallet, now, explainFor.value)
  {
    hide Triage, LadderSays, GoesToAdmission, Tell;
    out, pending, exp := [], [], None;
    for k := 0 to |snap.jobs|
      invariant out == TriageAll(snap.jobs[..k], snap) && pending == PendingOf(snap.jobs[..k], snap)
      invariant exp == if explainFor.None? then None
        else AfterLadder(snap.jobs[..k], snap, wallet, now, explainFor.value)
    {
      assert snap.jobs[..k + 1][..k] == snap.jobs[..k];
      var rec := snap.jobs[k];
      var ds, note := LadderStep(rec, snap);
      out := out + ds;
      if note.None? {
        pending := pending + [rec];
      } else if Some(rec.spec.jobId) == explainFor {
        exp := Some(Tell(rec, Ladder(note.value), [], wallet, now));
      }
    }
    assert snap.jobs[..|snap.jobs|] == snap.jobs;
  }

  method AdmitLoop(pending: seq<Job>, states: map<JobId, JobState>, slots: seq<Slot>, wallet: Wallet, now: Time,
                   policy: SchedPolicy, explainFor: Option<JobId>, said: Option<Explanation>)
    returns (out: seq<Decision>, admitted: seq<Job>, exp: Option<Explanation>)
    requires explainFor.None? ==> said.None?
    ensures out == AdmitAll(pending, states, slots, now, policy)
    ensures admitted == AdmittedOf(pending, states, slots, now, policy)
    ensures exp == if explainFor.None? then None
                   else AfterAdmission(pending, states, slots, wallet, now, policy, explainFor.value, said)
  {
    hide Admit, Rule, Tell;
    out, admitted, exp := [], [], said;
    for k := 0 to |pending|
      invariant out == AdmitAll(pending[..k], states, slots, now, policy)
      invariant admitted == AdmittedOf(pending[..k], states, slots, now, policy)
      invariant exp == if explainFor.None? then None
                       else AfterAdmission(pending[..k], states, slots, wallet, now, policy, explainFor.value, said)
    {
      assert pending[..k + 1][..k] == pending[..k];
      var rec := pending[k];
      var ds, ruling := AdmitStep(rec, states, slots, now, policy);
      out := out + ds;
      if Admitted(ruling) {
        admitted := admitted + [rec];
      } else if Some(rec.spec.jobId) == explainFor {
        exp := Some(Tell(rec, Ruled(ruling), [], wallet, now));
      }
    }
    assert pending[..|pending|] == pending;
  }

  method MatchLoop(recs: seq<Job>, snap: Snapshot, slots: seq<Slot>, wallet: Wallet, now: Time, policy: SchedPolicy,
                   explainFor: Option<JobId>, said: Option<Explanation>)
    returns (out: seq<Decision>, exp: Option<Explanation>)
    requires explainFor.None? ==> said.None?
    ensures out == Reserves(recs, slots, StartMatch(snap, slots, wallet), now, policy)
    ensures exp == if explainFor.None? then None
      else AfterMatching(recs, slots, StartMatch(snap, slots, wallet), wallet, now, policy, explainFor.value, said)
  {
    hide ChooseAmong, Candidates, Usable, ReserveFor, Tell, MatchView.Verdicts, MatchView.MatchWhy, StartMatch, Take;
    var start := StartMatch(snap, slots, wallet);
    var m := start;
    out, exp := [], said;
    for k := 0 to |recs|
      invariant m == MatchAll(recs[..k], slots, start, now, policy) && |m.remaining| == |slots|
      invariant out == Reserves(recs[..k], slots, start, now, policy)
      invariant exp == if explainFor.None? then None
        else AfterMatching(recs[..k], slots, start, wallet, now, policy, explainFor.value, said)
    {
      assert recs[..k + 1][..k] == recs[..k];
      assert forall j :: 0 <= j < k ==> recs[..k + 1][..j] == recs[..k][..j];
      var rec := recs[k];
      var candidates := Candidates(rec, slots, m, now);
      var chosen := ChooseSlot(candidates, rec, slots, m.working, now, policy);
      assert chosen == Choose(rec, slots, m, now, policy);
      if Some(rec.spec.jobId) == explainFor {
        var view := MatchView(rec, slots, m, candidates, chosen, now, policy);
        var verdicts := ExplainMatch(view);
        exp := Some(Tell(rec, view.MatchWhy(), verdicts, wallet, now));
      }
      if chosen.Some? {
        out := out + [ReserveFor(rec, slots, chosen.value)];
        m := TakeSlot(m, rec, slots, chosen.value, now);
      }
    }
    assert recs[..|recs|] == recs;
  }

  /** Spends the chosen slot's key, its provider's room and, if priced, the working wallet. */
  method TakeSlot(m: Match, rec: Job, slots: seq<Slot>, i: nat, now: Time) returns (r: Match)
    requires |m.remaining| == |slots| && i < |slots|
    ensures r == Take(m, rec, slots, i, now)
  {
    var slot := slots[i];
    var remaining := ConsumeRoom(m.remaining, slots, slot.provider);
    var working := m.working;
    var cost := rec.EstCost(slot);
    if !slot.IsFree() && cost.Some? {
      working := working.Commit(rec.spec.jobId, slot.provider, cost.value, now);
    }
    r := Match(remaining, m.usedKeys + {slot.OfferKey(i)}, working);
  }

  /** The whole pass. Asking for an explanation changes no decision, and whoever is in the
      snapshot is explained. */
  method Pass(snap: Snapshot, slots: seq<Slot>, wallet: Wallet, now: Time, policy: SchedPolicy,
              explainFor: Option<JobId>)
    returns (out: seq<Decision>, exp: Option<Explanation>)
    ensures out == Schedule(snap, slots, wallet, now, policy)
    ensures exp == if explainFor.None? then None else Narrated(snap, slots, wallet, now, policy, explainFor.value)
    ensures explainFor.Some? ==>
      (exp.Some? <==> exists i :: 0 <= i < |snap.jobs| && snap.jobs[i].spec.jobId == explainFor.value)
  {
    hide TriageAll, PendingOf, AdmitAll, AdmittedOf, Reserves, Ranked, StartMatch, AfterLadder, AfterAdmission,
      AfterMatching, StatesOf;
    var laddered, pending, said := Sift(snap, wallet, now, explainFor);
    var admitDs, admitted, ruled := AdmitLoop(pending, StatesOf(snap.jobs), slots, wallet, now, policy, explainFor,
      said);
    var reserves, told := MatchLoop(Ranked(admitted, now), snap, slots, wallet, now, policy, explainFor, ruled);
    out, exp := laddered + admitDs + reserves, told;
    if explainFor.Some? {
      EveryJobIsExplained(snap, slots, wallet, now, policy, explainFor.value);
    }
  }
}
