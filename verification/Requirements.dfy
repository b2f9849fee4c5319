/** When a slot can serve a job, requirement by requirement. */
module Requirements {
  import opened Wrappers
  import opened Models

  /** The first version is the second or a later one: the second is its beginning, or they
      first differ where the first is larger. */
  ghost predicate Reaches(have: seq<nat>, need: seq<nat>) {
    need <= have
    || exists k :: 0 <= k < |have| && k < |need| && have[..k] == need[..k] && have[k] > need[k]
  }

  lemma {:induction false} ReachesIff(have: seq<nat>, need: seq<nat>)
    ensures TupleAtLeast(have, need) <==> Reaches(have, need)
  {
    if have != [] && need != [] {
      ReachesIff(have[1..], need[1..]);
      if have[0] == need[0] {
        ReachesFromSecond(have, need);
      } else if have[0] > need[0] {
        assert have[..0] == need[..0];
      } else {
        forall k | 0 <= k < |have| && k < |need| && have[..k] == need[..k] ensures have[k] <= need[k] {
          if k > 0 {
            SameHead(have, need, k);
          }
        }
      }
    }
  }

  lemma SameHead(have: seq<nat>, need: seq<nat>, k: nat)
    requires 0 < k <= |have| && k <= |need| && have[..k] == need[..k]
    ensures have[0] == need[0]
  {
    assert have[..k][0] == need[..k][0];
  }

  lemma {:induction false} ReachesFromSecond(have: seq<nat>, need: seq<nat>)
    requires have != [] && need != [] && have[0] == need[0]
    ensures Reaches(have, need) <==> Reaches(have[1..], need[1..])
  {
    assert have == [have[0]] + have[1..] && need == [need[0]] + need[1..];
    if k :| 0 <= k < |have| && k < |need| && have[..k] == need[..k] && have[k] > need[k] {
      assert have[1..][..k - 1] == have[..k][1..] && need[1..][..k - 1] == need[..k][1..];
      assert have[1..][k - 1] > need[1..][k - 1];
    }
    if k :| 0 <= k < |have[1..]| && k < |need[1..]| && have[1..][..k] == need[1..][..k] && have[1..][k] > need[1..][k] {
      assert have[..k + 1] == [have[0]] + have[1..][..k] && need[..k + 1] == [need[0]] + need[1..][..k];
      assert have[k + 1] > need[k + 1];
    }
  }

  /** The memory asked for, or else known for the type asked for. */
  function MemoryNeed(res: ResourceSpec): Option<real> {
    match res.minVramGb
    case Some(_) => res.minVramGb
    case None => if res.gpuType == None then None else res.tableVramGb
  }

  /** Every requirement is met or cannot be checked: the named GPU type is offered; the video
      memory asked for, or known for the type, is there; the time asked for fits the longest
      run; the CUDA version reaches the one needed; and as many GPUs as asked for - at least
      one, if a type or memory is - may be had at once. */
  ghost predicate Suits(caps: Capabilities, res: ResourceSpec) {
    && (res.gpuType.Some? && res.gpuType.value != "" && caps.gpuTypes != [] ==> res.gpuType.value in caps.gpuTypes)
    && (MemoryNeed(res).Some? && caps.maxVramGb.Some? ==> MemoryNeed(res).value <= caps.maxVramGb.value)
    && (res.time.Some? && caps.maxWalltime.Some? ==> res.time.value <= caps.maxWalltime.value)
    && (res.minCuda.Some? && caps.cuda.Some? ==> Reaches(caps.cuda.value, res.minCuda.value))
    && (caps.maxGpusPerJob.Some? && (res.gpus > 0 || res.gpuType.Some? || res.minVramGb.Some?) ==>
          1 <= caps.maxGpusPerJob.value && res.gpus <= caps.maxGpusPerJob.value)
  }

  /** A slot fits a job exactly when it suits it. */
  lemma FitsIff(slot: Slot, res: ResourceSpec)
    ensures slot.Fits(res) <==> Suits(slot.capabilities, res)
  {
    hide Reaches, TupleAtLeast;
    var caps := slot.capabilities;
    if res.minCuda.Some? && caps.cuda.Some? {
      ReachesIff(caps.cuda.value, res.minCuda.value);
    }
  }

  /** And each reason it is refused for is true: the list names exactly the requirements missed. */
  lemma ReasonsExactly(caps: Capabilities, res: ResourceSpec)
    ensures
      var reasons := caps.Satisfies(res);
      && (GpuTypeUnavailable in reasons <==>
            res.gpuType.Some? && res.gpuType.value != "" && caps.gpuTypes != [] && res.gpuType.value !in caps.gpuTypes)
      && (VramTooSmall in reasons <==>
            MemoryNeed(res).Some? && caps.maxVramGb.Some? && MemoryNeed(res).value > caps.maxVramGb.value)
      && (WalltimeTooLong in reasons <==>
            res.time.Some? && caps.maxWalltime.Some? && res.time.value > caps.maxWalltime.value)
      && (CudaTooOld in reasons <==>
            res.minCuda.Some? && caps.cuda.Some? && !Reaches(caps.cuda.value, res.minCuda.value))
      && (TooManyGpus in reasons <==>
            caps.maxGpusPerJob.Some? && (res.gpus > 0 || res.gpuType.Some? || res.minVramGb.Some?)
            && (res.gpus > caps.maxGpusPerJob.value || caps.maxGpusPerJob.value < 1))
  {
    hide Reaches, TupleAtLeast;
    if res.minCuda.Some? && caps.cuda.Some? {
      ReachesIff(caps.cuda.value, res.minCuda.value);
    }
    var recent := CudaAtLeast(caps.cuda, res.minCuda);
    hide CudaAtLeast;
    AllListed(caps, res, recent);
  }

  /** The list of reasons, one by one. */
  lemma AllListed(caps: Capabilities, res: ResourceSpec, recent: bool)
    requires recent == CudaAtLeast(caps.cuda, res.minCuda)
    ensures forall r :: r in caps.Satisfies(res) <==>
      match r
      case GpuTypeUnavailable =>
        res.gpuType.Some? && |res.gpuType.value| > 0 && |caps.gpuTypes| > 0 && res.gpuType.value !in caps.gpuTypes
      case VramTooSmall => res.VramFloor().Some? && caps.maxVramGb.Some? && res.VramFloor().value > caps.maxVramGb.value
      case WalltimeTooLong => res.time.Some? && caps.maxWalltime.Some? && res.time.value > caps.maxWalltime.value
      case CudaTooOld => !recent
      case TooManyGpus =>
        res.EffectiveGpus() != 0 && caps.maxGpusPerJob.Some? && res.EffectiveGpus() > caps.maxGpusPerJob.value
  {
    hide CudaAtLeast, ResourceSpec.VramFloor, ResourceSpec.EffectiveGpus;
  }

  /** Slots without a stamped offer are told apart by their place in the list. */
  lemma DefaultKeysDiffer(a: Slot, b: Slot, i: nat, k: nat)
    requires a.offerRef.None? && b.offerRef.None? && a.provider == b.provider && i != k
    ensures a.OfferKey(i) != b.OfferKey(k)
  {
    hide Decimal;
    if a.OfferKey(i) == b.OfferKey(k) {
      var prefix := a.provider + "#";
      assert (prefix + Decimal(i))[|prefix|..] == Decimal(i) && (prefix + Decimal(k))[|prefix|..] == Decimal(k);
      DecimalInjective(i, k);
      assert false;
    }
  }
}
