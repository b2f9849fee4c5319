/** Renting from a marketplace: the shared cool-off of dead rentals, the rent / re-rent /
    terminate loop, and the watchdog over a rental that makes no progress. */
module Market {
  import opened Wrappers
  import opened Models

  type InstanceId = string

  /** An offer: the key a retry avoids, and the identity that cools off. */
  datatype Offer = Offer(askKey: string, coolKey: string, fits: bool, hourly: Option<real>)

  // ------------------------------------------------------------------ cool-off

  type Cooloff = map<(string, string), (Time, string)>

  predicate CoolingIn(cooloff: Cooloff, provider: string, key: string, t: Time) {
    (provider, key) in cooloff && t < cooloff[(provider, key)].0
  }

  /** From `now` on, nothing can tell the two apart. */
  ghost predicate SameFrom(a: Cooloff, b: Cooloff, now: Time) {
    forall p, k, t: Time :: t >= now ==> CoolingIn(a, p, k, t) == CoolingIn(b, p, k, t)
  }

  function Marked(cooloff: Cooloff, provider: string, key: string, ttl: real, reason: string, now: Time): Cooloff {
    cooloff[(provider, key) := (now + ttl, reason)]
  }

  /** A mark replaces the one before. It puts an offer back on the market that would still be
      cooling off exactly when it ends before the earlier mark does. */
  lemma MarkShortensIff(cooloff: Cooloff, provider: string, key: string, ttl: real, reason: string, now: Time)
    ensures
      var after := Marked(cooloff, provider, key, ttl, reason, now);
      (exists t :: CoolingIn(cooloff, provider, key, t) && !CoolingIn(after, provider, key, t))
      <==> (provider, key) in cooloff && now + ttl < cooloff[(provider, key)].0
  {
    if (provider, key) in cooloff && now + ttl < cooloff[(provider, key)].0 {
      assert CoolingIn(cooloff, provider, key, now + ttl);
      assert !CoolingIn(Marked(cooloff, provider, key, ttl, reason, now), provider, key, now + ttl);
    }
  }

  /** Shared by every backend section of a provider. */
  class EndpointManager {
    var cooloff: Cooloff

    constructor ()
      ensures cooloff == map[]
    {
      cooloff := map[];
    }

    predicate Cooling(provider: string, key: string, t: Time)
      reads this
    {
      CoolingIn(cooloff, provider, key, t)
    }

    method MarkCooloff(provider: string, key: string, ttl: real, reason: string, now: Time)
      modifies this
      ensures cooloff == Marked(old(cooloff), provider, key, ttl, reason, now)
      ensures forall t :: Cooling(provider, key, t) <==> t < now + ttl
      ensures forall p, k, t :: (p, k) != (provider, key) ==> Cooling(p, k, t) == old(CoolingIn(cooloff, p, k, t))
    {
      cooloff := cooloff[(provider, key) := (now + ttl, reason)];
    }

    /** The reason of an unexpired entry. An expired one is dropped, which no later question
        can tell. */
    method CooloffReason(provider: string, key: string, now: Time) returns (reason: Option<string>)
      modifies this
      ensures reason.Some? <==> old(Cooling(provider, key, now))
      ensures reason.Some? ==> reason.value == old(cooloff)[(provider, key)].1
      ensures SameFrom(cooloff, old(cooloff), now)
    {
      if (provider, key) !in cooloff {
        return None;
      }
      var hit := cooloff[(provider, key)];
      if now < hit.0 {
        return Some(hit.1);
      }
      cooloff := cooloff - {(provider, key)};
      reason := None;
    }
  }

  // ------------------------------------------------------------------ one backend section

  /** How a creation goes; a refusal or a gone offer rents nothing. */
  datatype Creation = Gone | Refused | Created(id: InstanceId)

  /** How the wait behind a creation ends. */
  datatype Ending = Works | DeadRental(reason: string) | Churned | Fails

  /** What the outside does in one attempt: the creation, whether the provisioning hook
      raises, how the wait ends and when, whether terminating works, and the market a
      re-probe then finds (nothing if the probe fails). */
  datatype Try = Try(creation: Creation, hookRaises: bool, ending: Ending, at: Time, terminated: bool,
    market: Option<seq<Offer>>)

  datatype Result = Ok(id: InstanceId) | Err

  /** The instance of this attempt is billing although the attempt did not succeed. */
  predicate Leaks(t: Try) {
    t.creation.Created? && (t.hookRaises || (!t.ending.Works? && !t.terminated))
  }

  function Leaked(tries: seq<Try>): set<InstanceId> {
    set k | 0 <= k < |tries| && Leaks(tries[k]) :: tries[k].creation.id
  }

  function Rented(tries: seq<Try>): seq<InstanceId> {
    if tries == [] then []
    else
      Rented(tries[..|tries| - 1])
      + (if tries[|tries| - 1].creation.Created? then [tries[|tries| - 1].creation.id] else [])
  }

  predicate DeadOnArrival(t: Try) {
    t.creation.Created? && !t.hookRaises && t.ending.DeadRental?
  }

  /** The shared cool-off behind an attempt on `offer`. */
  function AfterTry(cooloff: Cooloff, provider: string, ttl: real, offer: Offer, t: Try): Cooloff {
    if DeadOnArrival(t) && ttl > 0.0 then Marked(cooloff, provider, offer.coolKey, ttl, t.ending.reason, t.at)
      else cooloff
  }

  /** The attempt ended in a way that is tried again. */
  predicate Retried(t: Try) {
    t.creation.Gone? || (t.creation.Created? && !t.hookRaises && (t.ending.DeadRental? || t.ending.Churned?))
  }

  ghost predicate FreshIds(script: seq<Try>, live: set<InstanceId>) {
    && (forall k :: 0 <= k < |script| && script[k].creation.Created? ==> script[k].creation.id !in live)
    && forall i, k :: 0 <= i < k < |script| && script[i].creation.Created? && script[k].creation.Created? ==>
         script[i].creation.id != script[k].creation.id
  }

  ghost predicate ClockRuns(script: seq<Try>) {
    forall i, k :: 0 <= i <= k < |script| ==> script[i].at <= script[k].at
  }

  /** An offer that fits and whose hourly price is not known to be above the limit. */
  predicate WithinLimit(maxHourly: Option<real>, o: Offer) {
    o.fits && (maxHourly.Some? && o.hourly.Some? ==> o.hourly.value <= maxHourly.value)
  }

  /** Every re-rental is of such an offer. */
  ghost predicate LimitKept(maxHourly: Option<real>, offers: seq<Offer>) {
    forall k :: 1 <= k < |offers| ==> WithinLimit(maxHourly, offers[k])
  }

  lemma LimitMore(maxHourly: Option<real>, offers: seq<Offer>, next: Offer)
    requires LimitKept(maxHourly, offers) && next.fits
    requires maxHourly.Some? && next.hourly.Some? ==> next.hourly.value <= maxHourly.value
    ensures LimitKept(maxHourly, offers + [next])
  {
  }

  class Section {
    const manager: EndpointManager
    const provider: string
    const maxHourly: Option<real>
    const provisionAttempts: int
    const cooloffTtl: real
    var live: set<InstanceId>
    var rented: seq<InstanceId>

    constructor (manager: EndpointManager, provider: string, maxHourly: Option<real>, provisionAttempts: int,
                 cooloffTtl: real)
      ensures this.manager == manager && this.provider == provider && live == {} && rented == []
    {
      this.manager, this.provider, this.maxHourly := manager, provider, maxHourly;
      this.provisionAttempts, this.cooloffTtl := provisionAttempts, cooloffTtl;
      live, rented := {}, [];
    }

    predicate TooDear(o: Offer) {
      maxHourly.Some? && o.hourly.Some? && o.hourly.value > maxHourly.value
    }

    /** An offer a placement may take at `now`. */
    predicate Open(o: Offer, now: Time)
      reads manager
    {
      o.fits && !manager.Cooling(provider, o.coolKey, now) && !TooDear(o)
    }

    ghost predicate NothingOpen(market: Option<seq<Offer>>, now: Time)
      reads manager
    {
      market.Some? ==> forall o :: o in market.value ==> !Open(o, now)
    }

    /** The market as this section sees it: what cools off or costs too much does not fit. */
    method Probe(market: seq<Offer>, now: Time) returns (offers: seq<Offer>)
      modifies manager
      ensures |offers| == |market|
      ensures forall i :: 0 <= i < |market| ==> offers[i] == market[i].(fits := offers[i].fits)
      ensures forall i :: 0 <= i < |market| ==>
        (offers[i].fits <==>
          market[i].fits && !manager.Cooling(provider, market[i].coolKey, now)
          && (maxHourly.Some? && market[i].hourly.Some? ==> market[i].hourly.value <= maxHourly.value))
      ensures SameFrom(manager.cooloff, old(manager.cooloff), now)
    {
      offers := market;
      for i := 0 to |market|
        invariant |offers| == |market|
        invariant SameFrom(manager.cooloff, old(manager.cooloff), now)
        invariant forall k :: 0 <= k < i ==>
          offers[k] == market[k].(fits := market[k].fits && !manager.Cooling(provider, market[k].coolKey, now))
        invariant forall k :: i <= k < |market| ==> offers[k] == market[k]
      {
        if offers[i].fits {
          var reason := manager.CooloffReason(provider, offers[i].coolKey, now);
          if reason.Some? {
            offers := offers[i := offers[i].(fits := false)];
          }
        }
      }
      for i := 0 to |market|
        invariant |offers| == |market|
        invariant forall k :: 0 <= k < i ==> offers[k] == market[k].(fits := Open(market[k], now))
        invariant forall k :: i <= k < |market| ==>
          offers[k] == market[k].(fits := market[k].fits && !manager.Cooling(provider, market[k].coolKey, now))
      {
        if TooDear(offers[i]) {
          offers := offers[i := offers[i].(fits := false)];
        }
      }
    }

    /** The first open offer that was not tried yet; only if all were, the first open one. */
    method ReprobeOffer(market: Option<seq<Offer>>, exclude: set<string>, now: Time) returns (r: Option<Offer>)
      modifies manager
      ensures SameFrom(manager.cooloff, old(manager.cooloff), now)
      ensures r.None? && market.Some? ==>
        forall o :: o in market.value && o.fits && !manager.Cooling(provider, o.coolKey, now) ==>
          maxHourly.Some? && o.hourly.Some? && o.hourly.value > maxHourly.value
      ensures r.Some? ==> market.Some? && r.value in market.value && r.value.fits
      ensures r.Some? ==> !manager.Cooling(provider, r.value.coolKey, now)
      ensures r.Some? && maxHourly.Some? && r.value.hourly.Some? ==> r.value.hourly.value <= maxHourly.value
      ensures r.None? <==> NothingOpen(market, now)
      ensures r.Some? ==>
        exists i :: 0 <= i < |market.value| && IsPick(market.value, exclude, now, i) && r.value == market.value[i]
    {
      if market.None? {
        return None;
      }
      var offers := Probe(market.value, now);
      var first := -1;
      for i := 0 to |offers|
        invariant -1 <= first < i
        invariant first == -1 ==> forall k :: 0 <= k < i ==> !offers[k].fits
        invariant first >= 0 ==> offers[first].fits && forall k :: 0 <= k < first ==> !offers[k].fits
        invariant forall k :: 0 <= k < i && offers[k].fits ==> offers[k].askKey in exclude
      {
        if offers[i].fits {
          if offers[i].askKey !in exclude {
            assert IsPick(market.value, exclude, now, i);
            return Some(offers[i]);
          }
          if first == -1 {
            first := i;
          }
        }
      }
      if first == -1 {
        return None;
      }
      assert IsPick(market.value, exclude, now, first);
      r := Some(offers[first]);
    }

    predicate IsPick(market: seq<Offer>, exclude: set<string>, now: Time, i: nat)
      reads manager
    {
      && i < |market| && Open(market[i], now)
      && (if market[i].askKey in exclude
          then forall k :: 0 <= k < |market| && Open(market[k], now) ==> k >= i && market[k].askKey in exclude
          else forall k :: 0 <= k < i && Open(market[k], now) ==> market[k].askKey in exclude)
    }

    /** One rental: on any failure behind the creation the instance is terminated, and a dead
        one cools its offer off. */
    method SubmitOnce(offer: Offer, t: Try) returns (r: Result)
      modifies this`live, this`rented, manager
      ensures rented == old(rented) + Rented([t])
      ensures r == if t.creation.Created? && !t.hookRaises && t.ending.Works? then Ok(t.creation.id) else Err
      ensures live == if t.creation.Created? && (r.Ok? || Leaks(t)) then old(live) + {t.creation.id}
                      else if t.creation.Created? then old(live) - {t.creation.id} else old(live)
      ensures manager.cooloff == AfterTry(old(manager.cooloff), provider, cooloffTtl, offer, t)
    {
      OneRental(t);
      if !t.creation.Created? {
        return Err;
      }
      var id := t.creation.id;
      live := live + {id};
      rented := rented + [id];
      if t.hookRaises {
        return Err;
      }
      if !t.ending.Works? {
        if t.terminated {
          live := live - {id};
        }
        if t.ending.DeadRental? && cooloffTtl > 0.0 {
          manager.MarkCooloff(provider, offer.coolKey, cooloffTtl, t.ending.reason, t.at);
        }
        return Err;
      }
      r := Ok(id);
    }

    /** The staged wait for a rented instance. A dead rental cools its offer off - if the handle
        says which - and is destroyed before the failure goes on; any other failure leaves the
        instance to the release that follows. */
    method ResourceReady(id: InstanceId, coolKey: Option<string>, wait: Ending, terminated: bool,
                         now: Time) returns (ready: bool)
      modifies this`live, manager
      ensures ready <==> wait.Works?
      ensures live == if wait.DeadRental? && terminated then old(live) - {id} else old(live)
      ensures manager.cooloff == if wait.DeadRental? && coolKey.Some? && coolKey.value != "" && cooloffTtl > 0.0
        then Marked(old(manager.cooloff), provider, coolKey.value, cooloffTtl, wait.reason, now)
        else old(manager.cooloff)
    {
      if wait.DeadRental? {
        if coolKey.Some? && coolKey.value != "" && cooloffTtl > 0.0 {
          manager.MarkCooloff(provider, coolKey.value, cooloffTtl, wait.reason, now);
        }
        if terminated {
          live := live - {id};
        }
      }
      ready := wait.Works?;
    }

    /** Rent, and re-rent elsewhere while the rental itself was the problem: at most the
        configured number of rentals, and afterwards the account runs exactly one instance
        more if the submit succeeded and none if it failed - unless some provisioning hook
        raised or some termination failed. No re-rental is of an offer that cools off, whoever
        marked it. */
    method Submit(offer: Offer, script: seq<Try>) returns (r: Result, used: nat, offers: seq<Offer>)
      requires |script| >= Max(1, provisionAttempts) && FreshIds(script, live) && ClockRuns(script)
      modifies this`live, this`rented, manager
      ensures 1 <= used <= Max(1, provisionAttempts) && |offers| == used && offers[0] == offer
      ensures rented == old(rented) + Rented(script[..used])
      ensures |rented| <= |old(rented)| + Max(1, provisionAttempts)
      ensures
        var last := script[used - 1];
        r.Ok? <==> last.creation.Created? && !last.hookRaises && last.ending.Works?
      ensures r.Ok? ==> script[used - 1].creation == Created(r.id)
      ensures r.Ok? ==>
        r.id !in old(live) + Leaked(script[..used]) && live == old(live) + Leaked(script[..used]) + {r.id}
      ensures r.Err? ==> live == old(live) + Leaked(script[..used])
      ensures r.Ok? ==> (live == old(live) + {r.id} <==> forall k :: 0 <= k < used ==> !Leaks(script[k]))
      ensures r.Err? ==> (live == old(live) <==> forall k :: 0 <= k < used ==> !Leaks(script[k]))
      ensures forall k :: 0 <= k < used - 1 ==> Retried(script[k])
      ensures r.Err? && used < Max(1, provisionAttempts) && Retried(script[used - 1]) ==>
        NothingOpen(script[used - 1].market, script[used - 1].at)
      ensures LimitKept(maxHourly, offers)
      ensures Spaced(cooloffTtl, script, offers, used)
      ensures Respected(old(manager.cooloff), provider, cooloffTtl, script, offers, used)
    {
      hide FreshIds, DeadCool, Spaced, Leaked, Rented, IsPick, CoolingIn, SameFrom, NothingOpen;
      hide Respected, Untouched, AfterTry, TooDear, Open, ClockRuns, LimitKept, WithinLimit;
      var attempts := Max(1, provisionAttempts);
      var current, tried: set<string> := offer, {};
      r, used, offers := Err, 0, [];
      NothingYet(script, offer, cooloffTtl, provider, manager.cooloff);
      ghost var cool0, live0 := manager.cooloff, live;
      assert offers + [current] == [offer];
      while true
        invariant used < attempts <= |script| && |offers| == used
        invariant (offers + [current])[0] == offer
        invariant LimitKept(maxHourly, offers + [current])
        invariant rented == old(rented) + Rented(script[..used])
        invariant live == old(live) + Leaked(script[..used])
        invariant forall k :: 0 <= k < used ==> Retried(script[k])
        invariant DeadCool(manager.cooloff, provider, cooloffTtl, script, offers, used)
        invariant Spaced(cooloffTtl, script, offers + [current], used + 1)
        invariant Untouched(cool0, manager.cooloff, provider, cooloffTtl, script, offers, used)
        invariant Respected(cool0, provider, cooloffTtl, script, offers + [current], used + 1)
        decreases attempts - used
      {
        var t := script[used];
        ghost var cool := manager.cooloff;
        AttemptMade(script, used, old(live));
        assert t.creation.Created? ==> live - {t.creation.id} == live;
        r := SubmitOnce(current, t);
        StillCool(cool, provider, cooloffTtl, script, offers, used, current);
        StillUntouched(cool0, cool, provider, cooloffTtl, script, offers, used, current);
        offers := offers + [current];
        used := used + 1;
        NothingLeaksIff(script, used, live0);
        RentalsAreBounded(script[..used]);
        var died := t.creation.Created? && !t.hookRaises && (t.ending.DeadRental? || t.ending.Churned?);
        if r.Ok? || !(t.creation.Gone? || died) {
          return;
        }
        tried := tried + {current.askKey};
        if used >= attempts {
          return;
        }
        ghost var cooler := manager.cooloff;
        var next := ReprobeOffer(t.market, tried, t.at);
        if next.None? {
          return;
        }
        RespectedMore(cool0, cooler, manager.cooloff, provider, cooloffTtl, script, offers, used, next.value);
        LimitMore(maxHourly, offers, next.value);
        SpacedMore(cooler, manager.cooloff, provider, cooloffTtl, script, offers, used, next.value);
        current := next.value;
      }
    }
  }

  /** Whoever was dead on arrival among the first `n` attempts cools off, at every instant from
      then on, until its time is over. */
  ghost predicate DeadCool(cooloff: Cooloff, provider: string, ttl: real, script: seq<Try>, offers: seq<Offer>, n: nat)
    requires n <= |script| && n <= |offers|
  {
    forall i, t: Time ::
      0 <= i < n && DeadOnArrival(script[i]) && ttl > 0.0 && script[n - 1].at <= t < script[i].at + ttl ==>
      CoolingIn(cooloff, provider, offers[i].coolKey, t)
  }

  /** No attempt rents what an earlier one found dead before its cool-off is over. */
  ghost predicate Spaced(ttl: real, script: seq<Try>, offers: seq<Offer>, n: nat)
    requires n <= |offers| && n <= |script| + 1
  {
    forall i, k :: 0 <= i < k < n && DeadOnArrival(script[i]) && ttl > 0.0 && offers[i].coolKey == offers[k].coolKey ==>
      script[k - 1].at >= script[i].at + ttl
  }

  /** One of the first `n` attempts marked the key. */
  ghost predicate MarkedHere(ttl: real, script: seq<Try>, offers: seq<Offer>, n: nat, key: string)
    requires n <= |script| && n <= |offers|
  {
    exists i :: 0 <= i < n && DeadOnArrival(script[i]) && ttl > 0.0 && offers[i].coolKey == key
  }

  /** What the attempts did not mark cools off from then on as it did before them. */
  ghost predicate Untouched(cool0: Cooloff, cool: Cooloff, provider: string, ttl: real, script: seq<Try>,
                            offers: seq<Offer>, n: nat)
    requires n <= |script| && n <= |offers|
  {
    forall key, t: Time :: !MarkedHere(ttl, script, offers, n, key) && (n > 0 ==> t >= script[n - 1].at) ==>
      CoolingIn(cool, provider, key, t) == CoolingIn(cool0, provider, key, t)
  }

  /** No re-rental is of an offer that cools off, by a mark from before the submit, when it is
      picked - unless the submit has marked it again since, and so replaced that mark. */
  ghost predicate Respected(cool0: Cooloff, provider: string, ttl: real, script: seq<Try>, offers: seq<Offer>, n: nat)
    requires n <= |offers| && n <= |script| + 1
  {
    forall k :: 1 <= k < n && !MarkedHere(ttl, script, offers, k, offers[k].coolKey) ==>
      !CoolingIn(cool0, provider, offers[k].coolKey, script[k - 1].at)
  }

  lemma NothingYet(script: seq<Try>, offer: Offer, ttl: real, provider: string, cooloff: Cooloff)
    ensures Rented(script[..0]) == [] && Leaked(script[..0]) == {}
    ensures DeadCool(cooloff, provider, ttl, script, [], 0) && Spaced(ttl, script, [offer], 1)
    ensures forall maxHourly :: LimitKept(maxHourly, [offer])
    ensures Untouched(cooloff, cooloff, provider, ttl, script, [], 0)
      && Respected(cooloff, provider, ttl, script, [offer], 1)
  {
  }

  lemma AttemptMade(script: seq<Try>, n: nat, live: set<InstanceId>)
    requires n < |script| && FreshIds(script, live)
    ensures Rented(script[..n + 1]) == Rented(script[..n]) + Rented([script[n]])
    ensures Leaked(script[..n + 1]) == Leaked(script[..n]) + (if Leaks(script[n]) then {script[n].creation.id} else {})
    ensures script[n].creation.Created? ==> script[n].creation.id !in live + Leaked(script[..n])
  {
    OneRental(script[n]);
    assert script[..n + 1][..n] == script[..n];
    var before, after := Leaked(script[..n]), Leaked(script[..n + 1]);
    var more := if Leaks(script[n]) then {script[n].creation.id} else {};
    forall id ensures id in after <==> id in before + more {
      if id in after {
        var k :| 0 <= k < n + 1 && Leaks(script[..n + 1][k]) && script[..n + 1][k].creation.id == id;
        assert k < n ==> Leaks(script[..n][k]);
      }
      if id in before {
        var k :| 0 <= k < n && Leaks(script[..n][k]) && script[..n][k].creation.id == id;
        assert Leaks(script[..n + 1][k]);
      }
      if id in more {
        assert Leaks(script[..n + 1][n]);
      }
    }
  }

  /** The attempt's own mark, if any, lengthens what already cools off and adds itself. */
  lemma StillCool(cooloff: Cooloff, provider: string, ttl: real, script: seq<Try>, offers: seq<Offer>, n: nat,
                  current: Offer)
    requires n < |script| && n == |offers| && ClockRuns(script)
    requires DeadCool(cooloff, provider, ttl, script, offers, n)
    ensures DeadCool(AfterTry(cooloff, provider, ttl, current, script[n]), provider, ttl, script, offers + [current],
      n + 1)
  {
    var t := script[n];
    var after := AfterTry(cooloff, provider, ttl, current, t);
    forall i, u: Time | 0 <= i < n + 1 && DeadOnArrival(script[i]) && ttl > 0.0 && t.at <= u < script[i].at + ttl
      ensures CoolingIn(after, provider, (offers + [current])[i].coolKey, u)
    {
      assert script[i].at <= t.at;
      if i < n {
        assert script[n - 1].at <= t.at;
        assert CoolingIn(cooloff, provider, offers[i].coolKey, u);
      }
    }
  }

  lemma {:induction false} StillUntouched(cool0: Cooloff, cool: Cooloff, provider: string, ttl: real, script: seq<Try>,
                                          offers: seq<Offer>, n: nat, current: Offer)
    requires n < |script| && n == |offers| && ClockRuns(script)
    requires Untouched(cool0, cool, provider, ttl, script, offers, n)
    ensures
      var after := AfterTry(cool, provider, ttl, current, script[n]);
      Untouched(cool0, after, provider, ttl, script, offers + [current], n + 1)
  {
    hide MarkedHere;
    var after := AfterTry(cool, provider, ttl, current, script[n]);
    forall key, u: Time | !MarkedHere(ttl, script, offers + [current], n + 1, key) && u >= script[n].at
      ensures CoolingIn(after, provider, key, u) == CoolingIn(cool0, provider, key, u)
    {
      MarkedMore(ttl, script, offers, n, current, key);
      assert n > 0 ==> script[n - 1].at <= script[n].at;
      assert CoolingIn(cool, provider, key, u) == CoolingIn(cool0, provider, key, u);
    }
  }

  lemma MarkedMore(ttl: real, script: seq<Try>, offers: seq<Offer>, n: nat, current: Offer, key: string)
    requires n < |script| && n <= |offers|
    ensures MarkedHere(ttl, script, offers, n, key) ==> MarkedHere(ttl, script, offers[..n] + [current], n + 1, key)
    ensures DeadOnArrival(script[n]) && ttl > 0.0 && current.coolKey == key ==>
      MarkedHere(ttl, script, offers[..n] + [current], n + 1, key)
    ensures |offers| == n ==> offers[..n] == offers
  {
    var more := offers[..n] + [current];
    assert more[n] == current;
    if MarkedHere(ttl, script, offers, n, key) {
      var i :| 0 <= i < n && DeadOnArrival(script[i]) && ttl > 0.0 && offers[i].coolKey == key;
      assert more[i] == offers[i];
    }
  }

  /** The pick of a re-probe is open, so nobody's earlier mark on it is running. */
  lemma {:induction false} RespectedMore(cool0: Cooloff, cool: Cooloff, after: Cooloff, provider: string, ttl: real,
                                         script: seq<Try>, offers: seq<Offer>, n: nat, next: Offer)
    requires 0 < n < |script| && n == |offers|
    requires Untouched(cool0, cool, provider, ttl, script, offers, n)
    requires Respected(cool0, provider, ttl, script, offers, n)
    requires SameFrom(after, cool, script[n - 1].at)
    requires !CoolingIn(after, provider, next.coolKey, script[n - 1].at)
    ensures Untouched(cool0, after, provider, ttl, script, offers, n)
    ensures Respected(cool0, provider, ttl, script, offers + [next], n + 1)
  {
    hide CoolingIn, MarkedHere;
    var more := offers + [next];
    forall k | 1 <= k < n + 1 && !MarkedHere(ttl, script, more, k, more[k].coolKey)
      ensures !CoolingIn(cool0, provider, more[k].coolKey, script[k - 1].at)
    {
      MarkedSame(ttl, script, offers, next, k, more[k].coolKey);
    }
  }

  lemma MarkedSame(ttl: real, script: seq<Try>, offers: seq<Offer>, next: Offer, k: nat, key: string)
    requires k <= |script| && k <= |offers|
    ensures MarkedHere(ttl, script, offers + [next], k, key) <==> MarkedHere(ttl, script, offers, k, key)
  {
    var more := offers + [next];
    assert forall i :: 0 <= i < k ==> more[i] == offers[i];
  }

  /** An offer open at the re-probe is past every cool-off of this run. */
  lemma {:induction false} SpacedMore(cool: Cooloff, after: Cooloff, provider: string, ttl: real, script: seq<Try>,
                                      offers: seq<Offer>, n: nat, next: Offer)
    requires 0 < n < |script| && n == |offers| && ClockRuns(script)
    requires DeadCool(cool, provider, ttl, script, offers, n) && Spaced(ttl, script, offers, n)
    requires SameFrom(after, cool, script[n - 1].at)
    requires !CoolingIn(after, provider, next.coolKey, script[n - 1].at)
    ensures DeadCool(after, provider, ttl, script, offers, n) && Spaced(ttl, script, offers + [next], n + 1)
  {
    hide CoolingIn;
    forall i | 0 <= i < n && DeadOnArrival(script[i]) && ttl > 0.0 && offers[i].coolKey == next.coolKey
      ensures script[n - 1].at >= script[i].at + ttl
    {
      assert script[i].at <= script[n - 1].at;
    }
  }

  /** At most one rental an attempt. */
  lemma {:induction false} RentalsAreBounded(tries: seq<Try>)
    ensures |Rented(tries)| <= |tries|
  {
    if tries != [] {
      RentalsAreBounded(tries[..|tries| - 1]);
    }
  }

  /** The account runs no more instances than before exactly when no provisioning hook raised
      behind a rental and every failed rental's termination worked. */
  lemma {:induction false} NothingLeaksIff(script: seq<Try>, n: nat, live: set<InstanceId>)
    requires n <= |script| && FreshIds(script, live)
    ensures live + Leaked(script[..n]) == live <==> forall k :: 0 <= k < n ==> !Leaks(script[k])
    ensures forall id :: id !in Leaked(script[..n]) ==>
      (live + Leaked(script[..n]) + {id} == live + {id} <==> forall k :: 0 <= k < n ==> !Leaks(script[k]))
  {
    hide Leaks;
    var tries := script[..n];
    forall k | 0 <= k < n && Leaks(script[k])
      ensures tries[k] == script[k] && script[k].creation.Created? && script[k].creation.id in Leaked(tries)
        && script[k].creation.id !in live
    {
      assert tries[k] == script[k];
      LeakIsCreated(script[k]);
    }
    if forall k :: 0 <= k < n ==> !Leaks(script[k]) {
      assert Leaked(tries) == {};
    }
  }

  lemma LeakIsCreated(t: Try)
    ensures Leaks(t) ==> t.creation.Created?
  {
  }

  /** A hook that raises leaves its instance billing, though it would have worked and its
      termination too. */
  lemma RaisingHookLeaks(live: set<InstanceId>, id: InstanceId, at: Time)
    requires id !in live
    ensures
      var script := [Try(Created(id), true, Works, at, true, None)];
      FreshIds(script, live) && live + Leaked(script[..1]) == live + {id} != live
  {
    var script := [Try(Created(id), true, Works, at, true, None)];
    NothingLeaksIff(script, 1, live);
    assert script[..1] == script;
    assert Leaks(script[0]);
  }

  lemma {:induction false} OneRental(t: Try)
    ensures Rented([t]) == if t.creation.Created? then [t.creation.id] else []
  {
    assert [t][..0] == [];
  }

  // ------------------------------------------------------------------ the watchdog

  datatype Instance = Instance(status: string, running: bool, sshTarget: Option<string>, sshPort: Option<int>)

  /** One poll of the instance, with the clock read behind it and again for the deadline. */
  datatype Look = Look(seen: Option<Instance>, at: Time, later: Time)

  predicate IsReady(l: Look) {
    l.seen.Some? && l.seen.value.running && l.seen.value.sshTarget.Some?
  }

  /** Two polls that show no difference in status or ssh endpoint. */
  predicate SameSignature(a: Look, b: Look) {
    a.seen.Some? == b.seen.Some?
    && (a.seen.Some? ==> a.seen.value.status == b.seen.value.status && a.seen.value.sshTarget == b.seen.value.sshTarget
                         && a.seen.value.sshPort == b.seen.value.sshPort)
  }

  datatype Watched = Ready(k: nat) | Stalled(k: nat) | TimedOut(k: nat) | StillWaiting

  /** Polls `j` to `k` all show the same, none is ready, and they span the stall time. */
  predicate NoProgress(looks: seq<Look>, j: nat, k: nat, stall: real) {
    && j < k < |looks| && looks[k].at - looks[j].at >= stall
    && (forall i :: j <= i <= k ==> !IsReady(looks[i]))
    && forall i :: j <= i < k ==> SameSignature(looks[i], looks[i + 1])
  }

  /** Wait for the instance to be ready. It is given up as stalled exactly when some stretch
      of polls without progress spans the stall time, at the first poll where one does; and
      as timed out at the first poll past the deadline. */
  method WaitProvisionedWatched(looks: seq<Look>, started: Time, timeout: real, stall: real) returns (w: Watched)
    requires Monotonic(looks)
    ensures !w.StillWaiting? ==> w.k < |looks| && QuietBefore(looks, w.k, started, timeout, stall)
    ensures w.Ready? <==> !w.StillWaiting? && IsReady(looks[w.k])
    ensures w.Stalled? <==> !w.StillWaiting? && !w.Ready? && StalledAt(looks, w.k, stall)
    ensures w.TimedOut? ==> looks[w.k].later >= started + timeout
    ensures w.StillWaiting? ==> QuietBefore(looks, |looks|, started, timeout, stall)
  {
    var k := 0;
    var since := 0.0;
    var before := None;
    ghost var from := 0;
    while k < |looks|
      invariant 0 <= from <= k <= |looks|
      invariant k > 0 ==> from < k && since == looks[from].at
      invariant k > 0 ==> before == if looks[k - 1].seen.None? then None else
        Some((looks[k - 1].seen.value.status, looks[k - 1].seen.value.sshTarget, looks[k - 1].seen.value.sshPort))
      invariant forall i :: from <= i < k - 1 ==> SameSignature(looks[i], looks[i + 1])
      invariant from > 0 ==> !SameSignature(looks[from - 1], looks[from])
      invariant QuietBefore(looks, k, started, timeout, stall)
    {
      var look := looks[k];
      if look.seen.Some? && look.seen.value.sshTarget.Some? && look.seen.value.running {
        return Ready(k);
      }
      var signature := if look.seen.None? then None
                       else Some((look.seen.value.status, look.seen.value.sshTarget, look.seen.value.sshPort));
      if k == 0 || signature != before {
        since, from := look.at, k;
      } else if look.at - since >= stall {
        assert NoProgress(looks, from, k, stall) by {
          assert forall i :: from <= i < k ==> SameSignature(looks[i], looks[i + 1]);
        }
        return Stalled(k);
      }
      OnlyThatRun(looks, from, k, stall);
      if look.later >= started + timeout {
        return TimedOut(k);
      }
      before := signature;
      k := k + 1;
    }
    w := StillWaiting;
  }

  /** Before poll `k` nothing was ready, stalled or overdue. */
  ghost predicate QuietBefore(looks: seq<Look>, k: nat, started: Time, timeout: real, stall: real) {
    && k <= |looks|
    && forall i :: 0 <= i < k ==>
         !IsReady(looks[i]) && looks[i].later < started + timeout && !StalledAt(looks, i, stall)
  }

  ghost predicate StalledAt(looks: seq<Look>, k: nat, stall: real) {
    exists j :: NoProgress(looks, j, k, stall)
  }

  ghost predicate Monotonic(looks: seq<Look>) {
    forall i, k :: 0 <= i <= k < |looks| ==> looks[i].at <= looks[k].at
  }

  /** Only the current run of equal polls can have spanned the stall time at poll `k`. */
  lemma {:induction false} OnlyThatRun(looks: seq<Look>, from: nat, k: nat, stall: real)
    requires from <= k < |looks| && Monotonic(looks)
    requires from > 0 ==> !SameSignature(looks[from - 1], looks[from])
    requires from == k || looks[k].at - looks[from].at < stall
    ensures !StalledAt(looks, k, stall)
  {
    forall j: nat | j < k ensures !NoProgress(looks, j, k, stall) {
      if j < from {
        var i := from - 1;
        assert j <= i < k && !SameSignature(looks[i], looks[i + 1]);
      } else {
        assert looks[from].at <= looks[j].at;
      }
    }
  }
}
