/** The scheduling pass as a function of the snapshot, the slots, the wallet and the clock:
    lifecycle ladder, then admission, then ranked matching. */
module Scheduler {
  import opened Wrappers
  import opened Models
  import opened Budget

  datatype HoldReason = DepWait(pending: seq<JobId>) | NoneFits(unfit: seq<Unfit>)
  datatype FailCause = AttemptsExhausted(error: string) | DepFailed(dep: JobId)

  datatype Decision =
    | Reserve(jobId: JobId, provider: string, offerKey: string, estCost: real, slot: Slot)
    | Hold(jobId: JobId, reason: HoldReason)
    | Unhold(jobId: JobId)
    | Fail(jobId: JobId, cause: FailCause)
    | Requeue(jobId: JobId)
    | StartCancel(jobId: JobId)
    | StartCapture(jobId: JobId)
    | StartReap(jobId: JobId)
    | StartRelease(jobId: JobId)

  // ------------------------------------------------------------------ phase 1: the ladder

  /** Jobs with a cancel request, an open work item, a terminal or live placement are settled
      here; only a queued or held job without a work item goes on to admission. */
  predicate GoesToAdmission(rec: Job, snap: Snapshot) {
    && !(rec.spec.jobId in snap.cancels && !rec.state.Terminal())
    && rec.spec.jobId !in snap.intents
    && rec.state.Pending()
  }

  function Triage(rec: Job, snap: Snapshot): (ds: seq<Decision>)
    ensures |ds| <= 1
    ensures forall d :: d in ds ==> d.jobId == rec.spec.jobId
  {
    var jid := rec.spec.jobId;
    if jid in snap.cancels && !rec.state.Terminal() then
      if jid in snap.intents && snap.intents[jid] == CancelItem then [] else [StartCancel(jid)]
    else if jid in snap.intents then []
    else if rec.state.Terminal() then
      if rec.placement.None? || rec.reaped then []
      else if !rec.Captured() then [StartCapture(jid)]
      else [StartReap(jid)]
    else if rec.Dead() then
      if !rec.Captured() then [StartCapture(jid)]
      else if jid in snap.unreleased then [StartRelease(jid)]
      else [Requeue(jid)]
    else []
  }

  function TriageAll(jobs: seq<Job>, snap: Snapshot): seq<Decision> {
    if jobs == [] then []
    else TriageAll(jobs[..|jobs| - 1], snap) + Triage(jobs[|jobs| - 1], snap)
  }

  function PendingOf(jobs: seq<Job>, snap: Snapshot): (r: seq<Job>)
    ensures forall rec :: rec in r <==> rec in jobs && GoesToAdmission(rec, snap)
  {
    if jobs == [] then []
    else
      var rest := PendingOf(jobs[..|jobs| - 1], snap);
      var rec := jobs[|jobs| - 1];
      if GoesToAdmission(rec, snap) then rest + [rec] else rest
  }

  // ------------------------------------------------------------------ phase 2: admission

  /** The last snapshot entry under each id. */
  function StatesOf(jobs: seq<Job>): (m: map<JobId, JobState>)
    ensures forall id :: id in m <==> exists i :: 0 <= i < |jobs| && jobs[i].spec.jobId == id
  {
    if jobs == [] then map[]
    else
      var n := |jobs| - 1;
      var rest := StatesOf(jobs[..n]);
      assert forall i :: 0 <= i < n ==> jobs[..n][i] == jobs[i];
      rest[jobs[n].spec.jobId := jobs[n].state]
  }

  datatype Gate = Open | AwaitsDeps(deps: seq<JobId>) | Broken(dep: JobId)

  predicate DepWaits(dep: JobId, states: map<JobId, JobState>) {
    dep in states && !states[dep].Terminal()
  }

  /** Failed, cancelled or unknown, under the policy that does not forgive it. */
  predicate DepBreaks(dep: JobId, states: map<JobId, JobState>, forgiving: bool) {
    !forgiving && !(dep in states && states[dep] == Succeeded) && !DepWaits(dep, states)
  }

  function WaitingDeps(deps: seq<JobId>, states: map<JobId, JobState>): seq<JobId> {
    if deps == [] then []
    else
      var rest := WaitingDeps(deps[..|deps| - 1], states);
      if DepWaits(deps[|deps| - 1], states) then rest + [deps[|deps| - 1]] else rest
  }

  /** The dependency gate: the first broken edge decides, else the waiting ones. */
  function DepGate(deps: seq<JobId>, states: map<JobId, JobState>, forgiving: bool): (g: Gate)
    ensures g.Broken? <==> exists dep :: dep in deps && DepBreaks(dep, states, forgiving)
    ensures g.AwaitsDeps? ==> g.deps == WaitingDeps(deps, states) && |g.deps| > 0
    ensures g.Open? ==> WaitingDeps(deps, states) == []
    ensures g.Broken? ==> DepBreaks(g.dep, states, forgiving)
  {
    if deps == [] then Open
    else
      var n := |deps| - 1;
      assert deps == deps[..n] + [deps[n]];
      var prior := DepGate(deps[..n], states, forgiving);
      if prior.Broken? then prior
      else if DepBreaks(deps[n], states, forgiving) then Broken(deps[n])
      else if WaitingDeps(deps, states) == [] then Open
      else AwaitsDeps(WaitingDeps(deps, states))
  }

  predicate OfferedTo(rec: Job, slots: seq<Slot>) {
    exists i :: 0 <= i < |slots| && rec.PinAllows(slots[i])
  }

  predicate SomeOfferedFits(rec: Job, slots: seq<Slot>) {
    exists i :: 0 <= i < |slots| && rec.PinAllows(slots[i]) && slots[i].Fits(rec.spec.resources)
  }

  /** The first of the shortest lists of reasons among the offered slots. */
  function ShortestUnfit(rec: Job, slots: seq<Slot>): (r: Option<seq<Unfit>>)
    ensures r.None? <==> !OfferedTo(rec, slots)
    ensures r.Some? ==> forall i :: 0 <= i < |slots| && rec.PinAllows(slots[i]) ==>
        |r.value| <= |slots[i].capabilities.Satisfies(rec.spec.resources)|
  {
    if slots == [] then None
    else
      var n := |slots| - 1;
      assert forall i :: 0 <= i < n ==> slots[..n][i] == slots[i];
      var prior := ShortestUnfit(rec, slots[..n]);
      var here := slots[n].capabilities.Satisfies(rec.spec.resources);
      if !rec.PinAllows(slots[n]) then prior
      else if prior.None? || |here| < |prior.value| then Some(here)
      else prior
  }

  predicate OutOfAttempts(rec: Job, policy: SchedPolicy) {
    rec.attempts >= policy.maxAttempts && rec.lastError.Some?
  }

  /** What admission says about one pending job. */
  datatype Ruling =
    | Exhausted | DependencyBroken(dep: JobId) | DependencyWait(deps: seq<JobId>)
    | BackingOff | NotOffered | Fitting | Unsatisfiable

  function Rule(rec: Job, states: map<JobId, JobState>, slots: seq<Slot>, now: Time, policy: SchedPolicy): Ruling {
    if OutOfAttempts(rec, policy) then Exhausted
    else
      match DepGate(rec.spec.dependsOn, states, rec.spec.policy.ignoreDepFailure)
      case Broken(dep) => DependencyBroken(dep)
      case AwaitsDeps(deps) => DependencyWait(deps)
      case Open =>
        if rec.BackingOff(now) then BackingOff
        else if !OfferedTo(rec, slots) then NotOffered
        else if SomeOfferedFits(rec, slots) then Fitting
        else Unsatisfiable
  }

  predicate Admitted(r: Ruling) {
    r.NotOffered? || r.Fitting?
  }

  function RulingDecisions(rec: Job, r: Ruling, slots: seq<Slot>): (ds: seq<Decision>)
    ensures |ds| <= 1
    ensures forall d :: d in ds ==> d.jobId == rec.spec.jobId
  {
    var jid := rec.spec.jobId;
    match r
    case Exhausted => [Fail(jid, AttemptsExhausted(if rec.lastError.Some? then rec.lastError.value else ""))]
    case DependencyBroken(dep) => [Fail(jid, DepFailed(dep))]
    case DependencyWait(deps) => if rec.state.Queued? then [Hold(jid, DepWait(deps))] else []
    case BackingOff => []
    case NotOffered => []
    case Fitting => if rec.state.Held? then [Unhold(jid)] else []
    case Unsatisfiable =>
      if rec.state.Held? then []
      else [Hold(jid, NoneFits(ShortestUnfit(rec, slots).GetOr([], (u: seq<Unfit>) => u)))]
  }

  function Admit(rec: Job, states: map<JobId, JobState>, slots: seq<Slot>, now: Time,
                 policy: SchedPolicy): (ds: seq<Decision>)
    ensures |ds| <= 1
    ensures forall d :: d in ds ==> d.jobId == rec.spec.jobId
  {
    RulingDecisions(rec, Rule(rec, states, slots, now, policy), slots)
  }

  function AdmitAll(pending: seq<Job>, states: map<JobId, JobState>, slots: seq<Slot>, now: Time,
                    policy: SchedPolicy): seq<Decision> {
    if pending == [] then []
    else
      AdmitAll(pending[..|pending| - 1], states, slots, now, policy)
      + Admit(pending[|pending| - 1], states, slots, now, policy)
  }

  function AdmittedOf(pending: seq<Job>, states: map<JobId, JobState>, slots: seq<Slot>, now: Time,
                      policy: SchedPolicy): (r: seq<Job>)
    ensures forall rec :: rec in r <==> rec in pending && Admitted(Rule(rec, states, slots, now, policy))
  {
    if pending == [] then []
    else
      var rest := AdmittedOf(pending[..|pending| - 1], states, slots, now, policy);
      var rec := pending[|pending| - 1];
      if Admitted(Rule(rec, states, slots, now, policy)) then rest + [rec] else rest
  }

  // ------------------------------------------------------------------ ranking

  /** Higher priority, then higher urgency, then earlier submission; unknown submission last. */
  predicate RanksBefore(a: Job, b: Job, now: Time) {
    if a.spec.policy.priority != b.spec.policy.priority then
      a.spec.policy.priority > b.spec.policy.priority
    else if a.Urgency(now) != b.Urgency(now) then a.Urgency(now) > b.Urgency(now)
    else a.submittedAt.Some? && (b.submittedAt.None? || a.submittedAt.value < b.submittedAt.value)
  }

  /** `rec` goes behind everything it does not rank before: a stable insertion. */
  function InsertRanked(sorted: seq<Job>, rec: Job, now: Time): seq<Job> {
    if sorted == [] || !RanksBefore(rec, sorted[|sorted| - 1], now) then sorted + [rec]
    else InsertRanked(sorted[..|sorted| - 1], rec, now) + [sorted[|sorted| - 1]]
  }

  function Ranked(recs: seq<Job>, now: Time): seq<Job> {
    if recs == [] then []
    else InsertRanked(Ranked(recs[..|recs| - 1], now), recs[|recs| - 1], now)
  }

  // ------------------------------------------------------------------ phase 3: matching

  /** What the matching loop carries from job to job. */
  datatype Match = Match(remaining: seq<int>, usedKeys: set<string>, working: Wallet)

  function ActiveOn(jobs: seq<Job>, provider: string): nat {
    if jobs == [] then 0
    else
      var rec := jobs[|jobs| - 1];
      ActiveOn(jobs[..|jobs| - 1], provider)
      + (if rec.state.Active() && rec.placement.Some? && rec.placement.value.provider == provider then 1 else 0)
  }

  function InitialRoom(jobs: seq<Job>, slots: seq<Slot>): (r: seq<int>)
    ensures |r| == |slots|
    ensures forall i :: 0 <= i < |slots| ==>
        r[i] == Max(0, slots[i].capacity - ActiveOn(jobs, slots[i].provider))
  {
    seq(|slots|, i requires 0 <= i < |slots| => Max(0, slots[i].capacity - ActiveOn(jobs, slots[i].provider)))
  }

  /** A slot with room and an unused key that fits the job and its pin. */
  predicate Usable(rec: Job, slots: seq<Slot>, m: Match, i: nat) {
    && i < |slots| && i < |m.remaining|
    && m.remaining[i] > 0
    && slots[i].OfferKey(i) !in m.usedKeys
    && slots[i].Fits(rec.spec.resources)
    && rec.PinAllows(slots[i])
  }

  function UsableBy(rec: Job, slots: seq<Slot>, m: Match): nat -> bool {
    (i: nat) => Usable(rec, slots, m, i)
  }

  function Unavoided(rec: Job, slots: seq<Slot>, now: Time): nat -> bool {
    (i: nat) => i < |slots| && !rec.Avoids(slots[i].provider, now)
  }

  predicate InRange(c: seq<nat>, slots: seq<Slot>) {
    forall k :: 0 <= k < |c| ==> c[k] < |slots|
  }

  /** The usable slots outside the job's avoid windows - or all usable ones if none is. */
  function Candidates(rec: Job, slots: seq<Slot>, m: Match, now: Time): (c: seq<nat>)
    ensures InRange(c, slots)
    ensures forall i :: i in c ==> Usable(rec, slots, m, i)
  {
    var fitting := Select(UsableBy(rec, slots, m), |slots|);
    var preferred := Keep(fitting, Unavoided(rec, slots, now));
    if preferred != [] then preferred else fitting
  }

  function FreeInTime(rec: Job, slots: seq<Slot>, now: Time): nat -> bool {
    (i: nat) => i < |slots| && slots[i].IsFree() && rec.MeetsDeadline(slots[i], now)
  }

  function FreeOnes(slots: seq<Slot>): nat -> bool {
    (i: nat) => i < |slots| && slots[i].IsFree()
  }

  /** The first of the candidates with the smallest wait. */
  function Soonest(c: seq<nat>, slots: seq<Slot>): (r: nat)
    requires c != []
    requires InRange(c, slots)
    ensures r in c
    ensures forall i :: i in c ==> slots[r].Wait() <= slots[i].Wait()
  {
    var last := c[|c| - 1];
    if |c| == 1 then last
    else
      var best := Soonest(c[..|c| - 1], slots);
      assert c == c[..|c| - 1] + [last];
      if slots[last].Wait() < slots[best].Wait() then last else best
  }

  /** A paid slot that meets the deadline at an unknown cost nobody bounds. */
  predicate UnknownPaidOk(rec: Job, slot: Slot, ledger: Wallet, now: Time) {
    && !slot.IsFree() && rec.MeetsDeadline(slot, now) && rec.EstCost(slot).None?
    && rec.spec.policy.maxCost.None? && ledger.primary.cap.None?
  }

  /** A paid slot that meets the deadline at a known cost within every ceiling. */
  predicate KnownPaidOk(rec: Job, slot: Slot, ledger: Wallet, now: Time) {
    && !slot.IsFree() && rec.MeetsDeadline(slot, now) && rec.EstCost(slot).Some?
    && (rec.spec.policy.maxCost.None? || rec.EstCost(slot).value <= rec.spec.policy.maxCost.value)
    && ledger.CanAfford(rec.EstCost(slot).value, now)
  }

  /** The scan keeps the first cheapest known-cost slot and the first unknown-cost one. */
  datatype PaidScan = PaidScan(known: Option<nat>, unknown: Option<nat>)

  function ScanPaid(c: seq<nat>, rec: Job, slots: seq<Slot>, ledger: Wallet, now: Time): (r: PaidScan)
    requires InRange(c, slots)
    ensures r.known.Some? ==> r.known.value in c && KnownPaidOk(rec, slots[r.known.value], ledger, now)
    ensures r.unknown.Some? ==> r.unknown.value in c && UnknownPaidOk(rec, slots[r.unknown.value], ledger, now)
    ensures forall i :: i in c && KnownPaidOk(rec, slots[i], ledger, now) ==>
        r.known.Some? && rec.EstCost(slots[r.known.value]).value <= rec.EstCost(slots[i]).value
    ensures forall i :: i in c && UnknownPaidOk(rec, slots[i], ledger, now) ==> r.unknown.Some?
  {
    if c == [] then PaidScan(None, None)
    else
      var last := c[|c| - 1];
      var prior := ScanPaid(c[..|c| - 1], rec, slots, ledger, now);
      assert c == c[..|c| - 1] + [last];
      if UnknownPaidOk(rec, slots[last], ledger, now) then
        if prior.unknown.None? then prior.(unknown := Some(last)) else prior
      else if KnownPaidOk(rec, slots[last], ledger, now)
        && (prior.known.None?
            || rec.EstCost(slots[last]).value < rec.EstCost(slots[prior.known.value]).value) then
        prior.(known := Some(last))
      else prior
  }

  function PickPaid(c: seq<nat>, rec: Job, slots: seq<Slot>, ledger: Wallet, now: Time): Option<nat>
    requires InRange(c, slots)
  {
    var scan := ScanPaid(c, rec, slots, ledger, now);
    if scan.known.Some? then scan.known else scan.unknown
  }

  /** Free in time, else cheapest affordable paid in time, else free but late. */
  function ChooseAmong(c: seq<nat>, rec: Job, slots: seq<Slot>, ledger: Wallet, now: Time,
                       policy: SchedPolicy): (r: Option<nat>)
    requires InRange(c, slots)
    ensures r.Some? ==> r.value in c
  {
    var freeOk := Keep(c, FreeInTime(rec, slots, now));
    var paid := if policy.allowPaid then PickPaid(c, rec, slots, ledger, now) else None;
    var freeLate := Keep(c, FreeOnes(slots));
    if freeOk != [] then Some(Soonest(freeOk, slots))
    else if paid.Some? then paid
    else if freeLate != [] then Some(Soonest(freeLate, slots))
    else None
  }

  function Choose(rec: Job, slots: seq<Slot>, m: Match, now: Time, policy: SchedPolicy): (r: Option<nat>)
    ensures r.Some? ==> Usable(rec, slots, m, r.value)
  {
    ChooseAmong(Candidates(rec, slots, m, now), rec, slots, m.working, now, policy)
  }

  /** Every slot of the chosen provider loses one unit of the room it has left. */
  function Consume(remaining: seq<int>, slots: seq<Slot>, provider: string, n: nat): (r: seq<int>)
    requires n <= |slots| == |remaining|
    ensures |r| == |remaining|
    ensures forall i :: 0 <= i < |remaining| ==>
      r[i] == if i < n && slots[i].provider == provider && remaining[i] > 0 then remaining[i] - 1 else remaining[i]
  {
    seq(|remaining|, i requires 0 <= i < |remaining| =>
      if i < n && slots[i].provider == provider && remaining[i] > 0 then remaining[i] - 1 else remaining[i])
  }

  function Take(m: Match, rec: Job, slots: seq<Slot>, i: nat, now: Time): (r: Match)
    requires |m.remaining| == |slots| && i < |slots|
    ensures |r.remaining| == |slots|
  {
    var slot := slots[i];
    var cost := rec.EstCost(slot);
    Match(
      Consume(m.remaining, slots, slot.provider, |slots|),
      m.usedKeys + {slot.OfferKey(i)},
      if !slot.IsFree() && cost.Some?
      then m.working.Commit(rec.spec.jobId, slot.provider, cost.value, now) else m.working)
  }

  function ReserveFor(rec: Job, slots: seq<Slot>, i: nat): Decision
    requires i < |slots|
  {
    var cost := rec.EstCost(slots[i]);
    Reserve(rec.spec.jobId, slots[i].provider, slots[i].OfferKey(i),
            if cost.Some? then cost.value else 0.0, slots[i])
  }

  /** The state of the loop after every job of `recs`, best-ranked first. */
  function MatchAll(recs: seq<Job>, slots: seq<Slot>, m: Match, now: Time, policy: SchedPolicy): (r: Match)
    requires |m.remaining| == |slots|
    ensures |r.remaining| == |slots|
  {
    if recs == [] then m
    else
      var prior := MatchAll(recs[..|recs| - 1], slots, m, now, policy);
      var rec := recs[|recs| - 1];
      var choice := Choose(rec, slots, prior, now, policy);
      if choice.Some? then Take(prior, rec, slots, choice.value, now) else prior
  }

  /** The slot the k-th ranked job gets. */
  function ChoiceOf(recs: seq<Job>, k: nat, slots: seq<Slot>, m: Match, now: Time,
                    policy: SchedPolicy): (r: Option<nat>)
    requires |m.remaining| == |slots| && k < |recs|
    ensures r.Some? ==> Usable(recs[k], slots, MatchAll(recs[..k], slots, m, now, policy), r.value)
  {
    Choose(recs[k], slots, MatchAll(recs[..k], slots, m, now, policy), now, policy)
  }

  function Reserves(recs: seq<Job>, slots: seq<Slot>, m: Match, now: Time, policy: SchedPolicy): (r: seq<Decision>)
    requires |m.remaining| == |slots|
    ensures forall d :: d in r ==> d.Reserve?
    ensures |r| <= |recs|
  {
    if recs == [] then []
    else
      var n := |recs| - 1;
      var prior := Reserves(recs[..n], slots, m, now, policy);
      var choice := ChoiceOf(recs, n, slots, m, now, policy);
      if choice.Some? then prior + [ReserveFor(recs[n], slots, choice.value)] else prior
  }

  // ------------------------------------------------------------------ the pass

  function ToRank(snap: Snapshot, slots: seq<Slot>, now: Time, policy: SchedPolicy): seq<Job> {
    AdmittedOf(PendingOf(snap.jobs, snap), StatesOf(snap.jobs), slots, now, policy)
  }

  function StartMatch(snap: Snapshot, slots: seq<Slot>, wallet: Wallet): (m: Match)
    ensures |m.remaining| == |slots|
  {
    Match(InitialRoom(snap.jobs, slots), {}, wallet)
  }

  function Schedule(snap: Snapshot, slots: seq<Slot>, wallet: Wallet, now: Time, policy: SchedPolicy): seq<Decision> {
    TriageAll(snap.jobs, snap)
    + AdmitAll(PendingOf(snap.jobs, snap), StatesOf(snap.jobs), slots, now, policy)
    + Reserves(Ranked(ToRank(snap, slots, now, policy), now), slots, StartMatch(snap, slots, wallet), now, policy)
  }
}
