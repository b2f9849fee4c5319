/** The records the scheduling pass decides over: jobs, slots and requirements. */
module Models {
  import opened Wrappers

  /** Seconds since the Unix epoch, UTC. */
  type Time = real
  type JobId = string

  // ------------------------------------------------------------------ requirements

  /** What a job asks for. CUDA versions are the parsed number tuples; `tableVramGb`
      is what the table of known GPU types says about `gpuType`. */
  datatype ResourceSpec = ResourceSpec(
    gpus: int, gpuType: Option<string>, minVramGb: Option<real>, tableVramGb: Option<real>,
    minCuda: Option<seq<nat>>, time: Option<real>)
  {
    predicate WantsGpu() {
      gpus > 0 || gpuType.Some? || minVramGb.Some?
    }

    function EffectiveGpus(): int {
      if WantsGpu() then Max(gpus, 1) else 0
    }

    function VramFloor(): Option<real> {
      if minVramGb.Some? then minVramGb
      else if gpuType.Some? then tableVramGb
      else None
    }
  }

  /** Lexicographic `have >= need` on version tuples. */
  predicate TupleAtLeast(have: seq<nat>, need: seq<nat>) {
    if need == [] then true
    else if have == [] then false
    else have[0] > need[0] || (have[0] == need[0] && TupleAtLeast(have[1..], need[1..]))
  }

  predicate CudaAtLeast(have: Option<seq<nat>>, need: Option<seq<nat>>) {
    have.None? || need.None? || TupleAtLeast(have.value, need.value)
  }

  datatype Unfit =
    | GpuTypeUnavailable | VramTooSmall | WalltimeTooLong | CudaTooOld | TooManyGpus

  /** What a slot offers; an absent field is unknown and never rejects. */
  datatype Capabilities = Capabilities(
    gpuTypes: seq<string>, maxVramGb: Option<real>, maxGpusPerJob: Option<int>,
    cuda: Option<seq<nat>>, maxWalltime: Option<real>)
  {
    /** The reasons these capabilities cannot serve `res`; empty means they can. */
    function Satisfies(res: ResourceSpec): seq<Unfit> {
      (if res.gpuType.Some? && |res.gpuType.value| > 0 && |gpuTypes| > 0
          && res.gpuType.value !in gpuTypes
       then [GpuTypeUnavailable] else [])
      + (if res.VramFloor().Some? && maxVramGb.Some? && res.VramFloor().value > maxVramGb.value
         then [VramTooSmall] else [])
      + (if res.time.Some? && maxWalltime.Some? && res.time.value > maxWalltime.value
         then [WalltimeTooLong] else [])
      + (if !CudaAtLeast(cuda, res.minCuda) then [CudaTooOld] else [])
      + (if res.EffectiveGpus() != 0 && maxGpusPerJob.Some?
            && res.EffectiveGpus() > maxGpusPerJob.value
         then [TooManyGpus] else [])
    }
  }

  // ------------------------------------------------------------------ slots

  datatype Cost = Cost(setup: Option<real>, perHour: Option<real>) {
    /** Free is 0; paid with an unknown run time is unknowable. */
    function Total(time: Option<real>): Option<real> {
      if perHour.None? then Some(0.0)
      else if time.None? then None
      else Some((if setup.Some? then setup.value else 0.0) + perHour.value * (time.value / 3600.0))
    }
  }

  datatype Slot = Slot(
    provider: string, capabilities: Capabilities, cost: Cost, waitS: Option<real>,
    capacity: int, offerRef: Option<string>)
  {
    predicate IsFree() {
      cost.perHour.None?
    }

    predicate Fits(res: ResourceSpec) {
      capabilities.Satisfies(res) == []
    }

    /** An unknown wait counts as ready now. */
    function Wait(): real {
      if waitS.Some? then waitS.value else 0.0
    }

    /** The stamped offer identity, or one made from the slot's position. */
    function OfferKey(idx: nat): string {
      if offerRef.Some? then offerRef.value else provider + "#" + Decimal(idx)
    }
  }

  // ------------------------------------------------------------------ jobs

  datatype JobState = Queued | Held | Placing | Running | Succeeded | Failed | Cancelled {
    predicate Terminal() {
      Succeeded? || Failed? || Cancelled?
    }

    predicate Pending() {
      Queued? || Held?
    }

    predicate Active() {
      Placing? || Running?
    }
  }

  /** The last status a backend or the observer reported; `Lost` is the death marker. */
  datatype JobStatus =
    | Waiting | Provisioning | Starting | InProgress | Done | Broke | Stopped | Lost

  datatype Policy = Policy(
    finishBy: Option<Time>, maxCost: Option<real>, priority: int, ignoreDepFailure: bool)

  datatype JobSpec = JobSpec(
    jobId: JobId, resources: ResourceSpec, policy: Policy, onlyBackend: Option<string>,
    dependsOn: seq<JobId>)

  datatype Placement = Placement(provider: string, costActual: Option<real>)

  datatype Job = Job(
    spec: JobSpec, submittedAt: Option<Time>, state: JobState, placement: Option<Placement>,
    lastStatus: Option<JobStatus>, logsCached: bool, outputsCached: bool, reaped: bool,
    attempts: nat, lastError: Option<string>, avoid: map<string, Time>, notBefore: Option<Time>)
  {
    /** A durable capture exists for this placement. */
    predicate Captured() {
      logsCached || outputsCached
    }

    /** Positive worker-death evidence on a live placement. */
    predicate Dead() {
      state.Running? && lastStatus == Some(Lost)
    }

    predicate BackingOff(now: Time) {
      notBefore.Some? && notBefore.value > now
    }

    /** The provider's avoid window is still open for this job. */
    predicate Avoids(provider: string, now: Time) {
      provider in avoid && now < avoid[provider]
    }

    predicate PinAllows(slot: Slot) {
      spec.onlyBackend.None? || spec.onlyBackend.value == slot.provider
    }

    /** Seconds by which the latest safe start has passed; 0 without a deadline. */
    function Urgency(now: Time): real {
      if spec.policy.finishBy.None? then 0.0
      else
        var est := if spec.resources.time.Some? then spec.resources.time.value else 0.0;
        -((spec.policy.finishBy.value - est) - now)
    }

    /** Optimistic: no deadline, or an unknown run time, counts as met. */
    predicate MeetsDeadline(slot: Slot, now: Time) {
      spec.policy.finishBy.None? || spec.resources.time.None?
      || now + slot.Wait() + spec.resources.time.value <= spec.policy.finishBy.value
    }

    function EstCost(slot: Slot): Option<real> {
      slot.cost.Total(spec.resources.time)
    }
  }

  /** Work items; a reap item releases a terminal placement, or a lost live one. */
  datatype WorkKind = PlaceItem | CancelItem | CaptureItem | ReapItem(lost: bool)

  datatype SchedPolicy = SchedPolicy(allowPaid: bool, maxAttempts: int)

  /** The consistent store view one pass decides over. */
  datatype Snapshot = Snapshot(
    jobs: seq<Job>, intents: map<JobId, WorkKind>, unreleased: set<JobId>, cancels: set<JobId>)
}
