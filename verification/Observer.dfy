/** The observer's silence ladder: what evidence it takes to declare a running job dead. */
module Observer {
  import opened Wrappers
  import opened Models

  // ------------------------------------------------------------------ what a cycle sees

  /** One job as a cycle finds it: its state, whether a work item or a live task owns it,
      whether it is already marked dead, its (known) provider, and its stream - when the cycle
      checks it, and again when the answer of the poll, which takes its time, is in. */
  datatype View = View(
    jobId: JobId, running: bool, busy: bool, lost: bool, provider: Option<string>,
    active: bool, age: Option<real>, lateActive: bool, lateAge: Option<real>)

  /** What a provider's batched poll says about one job. */
  datatype Observation = Observation(result: Option<int>, heartbeatAge: Option<real>, runtimeState: Option<string>)

  datatype Answer = Unreachable | Defective | Answered(byId: map<JobId, Observation>)

  type Poll = string -> Answer

  datatype Settings = Settings(useStreams: bool, cooldown: real, thresholds: map<string, real>, default: real) {
    function Threshold(provider: string): real {
      if provider in thresholds then thresholds[provider] else default
    }
  }

  // ------------------------------------------------------------------ one job in one cycle

  /** A silent job's position on the ladder. */
  datatype Ladder = Ladder(kicked: bool, nextAt: Option<Time>)

  const GROUND := Ladder(false, None)
  const RUNTIME_GONE := "gone"

  datatype Action = StartStream | RestartStream | StopStream | Finish(ok: bool) | MarkDead | Note(state: Option<string>)

  /** An action that writes to the store. */
  predicate Writes(a: Action) {
    a.Finish? || a.MarkDead? || a.Note?
  }

  /** After the first loop: the ladder entry, what was done, whether the job counts as seen,
      and whether it is to be polled. */
  datatype Sifted = Sifted(entry: Option<Ladder>, actions: seq<Action>, seen: bool, poll: bool)

  function Stopped(active: bool): seq<Action> {
    if active then [StopStream] else []
  }

  predicate Waiting(e: Ladder, now: Time) {
    e.nextAt.Some? && now < e.nextAt.value
  }

  function Sift(entry: Option<Ladder>, v: View, now: Time, cfg: Settings): Sifted {
    if !v.running then Sifted(None, Stopped(v.active), false, false)
    else if v.busy then Sifted(entry, [], false, false)
    else if v.lost then Sifted(None, Stopped(v.active), false, false)
    else if v.provider.None? then Sifted(entry, [], false, false)
    else
      var e := if entry.Some? then entry.value else GROUND;
      if !cfg.useStreams then Sifted(Some(e), [], true, !Waiting(e, now))
      else if !v.active then Sifted(entry, [StartStream], true, false)
      else if v.age.None? || v.age.value < cfg.Threshold(v.provider.value) then Sifted(None, [], true, false)
      else if Waiting(e, now) then Sifted(Some(e), [], true, false)
      else if !e.kicked then Sifted(Some(Ladder(true, Some(now + cfg.cooldown))), [RestartStream], true, false)
      else Sifted(Some(e), [], true, true)
  }

  function Bumped(entry: Option<Ladder>, now: Time, cfg: Settings): Ladder {
    (if entry.Some? then entry.value else GROUND).(nextAt := Some(now + cfg.cooldown))
  }

  datatype Judged = Judged(entry: Option<Ladder>, actions: seq<Action>)

  /** The verdict of the poll on one job: a durable result wins, then a fresh heartbeat, then
      positive evidence of death; anything less waits. */
  function Judge(entry: Option<Ladder>, v: View, answer: Answer, now: Time, cfg: Settings): Judged {
    var bump := Some(Bumped(entry, now, cfg));
    if !answer.Answered? || v.jobId !in answer.byId then Judged(bump, [])
    else
      var obs := answer.byId[v.jobId];
      if obs.result.Some? then Judged(None, [Finish(obs.result.value == 0)] + Stopped(v.lateActive))
      else if obs.heartbeatAge.Some? && v.provider.Some?
        && obs.heartbeatAge.value < cfg.Threshold(v.provider.value) then
        Judged(bump, [])
      else if obs.runtimeState == Some(RUNTIME_GONE) then Judged(None, [MarkDead] + Stopped(v.lateActive))
      else Judged(bump, [Note(obs.runtimeState)])
  }

  /** A job's whole turn in a cycle; one that was not seen leaves the ladder. */
  function Turn(entry: Option<Ladder>, view: Option<View>, poll: Poll, now: Time, cfg: Settings): Judged {
    if view.None? then Judged(None, [])
    else
      var v := view.value;
      var s := Sift(entry, v, now, cfg);
      if !s.seen then Judged(None, s.actions)
      else if s.poll && v.provider.Some? then
        var j := Judge(s.entry, v, poll(v.provider.value), now, cfg);
        Judged(j.entry, s.actions + j.actions)
      else Judged(s.entry, s.actions)
  }

  // ------------------------------------------------------------------ evidence over runs

  function ViewOf(views: seq<View>, jid: JobId): (r: Option<View>)
    ensures r.None? <==> forall k :: 0 <= k < |views| ==> views[k].jobId != jid
    ensures r.Some? ==> r.value in views && r.value.jobId == jid
  {
    if views == [] then None
    else
      var n := |views| - 1;
      assert views == views[..n] + [views[n]];
      if views[n].jobId == jid then Some(views[n]) else ViewOf(views[..n], jid)
  }

  /** One cycle's inputs. */
  datatype Cycle = Cycle(views: seq<View>, poll: Poll, now: Time)

  function EntryAfter(cycles: seq<Cycle>, jid: JobId, cfg: Settings): Option<Ladder> {
    if cycles == [] then None
    else
      var c := cycles[|cycles| - 1];
      Turn(EntryAfter(cycles[..|cycles| - 1], jid, cfg), ViewOf(c.views, jid), c.poll, c.now, cfg).entry
  }

  function ActionsAt(cycles: seq<Cycle>, n: nat, jid: JobId, cfg: Settings): seq<Action>
    requires n < |cycles|
  {
    Turn(EntryAfter(cycles[..n], jid, cfg), ViewOf(cycles[n].views, jid), cycles[n].poll, cycles[n].now, cfg).actions
  }

  ghost predicate ClockRuns(cycles: seq<Cycle>) {
    forall i, k :: 0 <= i <= k < |cycles| ==> cycles[i].now <= cycles[k].now
  }

  /** A cycle that finds the job running and ownerless, and - if its stream is up - silent
      beyond the provider's threshold. */
  predicate SeesNoLife(c: Cycle, jid: JobId, cfg: Settings) {
    var view := ViewOf(c.views, jid);
    && view.Some? && view.value.running && !view.value.busy && !view.value.lost && view.value.provider.Some?
    && (view.value.active ==>
          view.value.age.Some? && view.value.age.value >= cfg.Threshold(view.value.provider.value))
  }

  /** The stream was restarted in cycle `m`, and no cycle from then up to `n` saw a sign of
      life. */
  ghost predicate KickedAt(cycles: seq<Cycle>, m: nat, n: nat, jid: JobId, cfg: Settings) {
    && m < n <= |cycles|
    && RestartStream in ActionsAt(cycles, m, jid, cfg)
    && forall i :: m <= i < n ==> SeesNoLife(cycles[i], jid, cfg)
  }

  ghost predicate KickedBefore(cycles: seq<Cycle>, m: nat, n: nat, jid: JobId, cfg: Settings, due: Time) {
    KickedAt(cycles, m, n, jid, cfg) && cycles[m].now + cfg.cooldown <= due
  }

  /** What a prefix of the cycles shows, all of them show. */
  lemma KickedInPrefix(cycles: seq<Cycle>, k: nat, m: nat, n: nat, jid: JobId, cfg: Settings, due: Time)
    requires k <= |cycles| && n <= k && KickedBefore(cycles[..k], m, n, jid, cfg, due)
    ensures KickedBefore(cycles, m, n, jid, cfg, due)
  {
    hide Turn, EntryAfter;
    assert cycles[..k][..m] == cycles[..m];
    assert forall i :: 0 <= i < k ==> cycles[..k][i] == cycles[i];
  }

  lemma {:induction false} KickedOneMore(cycles: seq<Cycle>, m: nat, n: nat, jid: JobId, cfg: Settings, due: Time,
                                         due': Time)
    requires n < |cycles| && KickedBefore(cycles, m, n, jid, cfg, due) && SeesNoLife(cycles[n], jid, cfg)
    requires due <= due' || cycles[m].now + cfg.cooldown <= due'
    ensures KickedBefore(cycles, m, n + 1, jid, cfg, due')
  {
    hide Turn, EntryAfter, SeesNoLife;
  }

  /** While the ladder says kicked, there is such a restart, and the entry's timer is at least
      one cooldown behind it. */
  lemma {:induction false} KickedMeansRestarted(cycles: seq<Cycle>, jid: JobId, cfg: Settings) returns (m: nat)
    requires cfg.useStreams && ClockRuns(cycles)
    requires EntryAfter(cycles, jid, cfg).Some? && EntryAfter(cycles, jid, cfg).value.kicked
    ensures EntryAfter(cycles, jid, cfg).value.nextAt.Some?
    ensures KickedBefore(cycles, m, |cycles|, jid, cfg, EntryAfter(cycles, jid, cfg).value.nextAt.value)
  {
    hide Turn, KickedBefore;
    var n := |cycles| - 1;
    var before := cycles[..n];
    var entry := EntryAfter(before, jid, cfg);
    EntryOrigin(entry, ViewOf(cycles[n].views, jid), cycles[n].poll, cycles[n].now, cfg);
    assert SeesNoLife(cycles[n], jid, cfg);
    if entry.Some? && entry.value.kicked {
      m := KickedMeansRestarted(before, jid, cfg);
      var due := entry.value.nextAt.value;
      KickedInPrefix(cycles, n, m, n, jid, cfg, due);
      assert cycles[m].now <= cycles[n].now by {
        KickedIsEarlier(cycles, m, n, jid, cfg, due);
      }
      KickedOneMore(cycles, m, n, jid, cfg, due, EntryAfter(cycles, jid, cfg).value.nextAt.value);
    } else {
      m := n;
      assert RestartStream in ActionsAt(cycles, n, jid, cfg);
      JustKicked(cycles, n, jid, cfg);
    }
  }

  lemma KickedIsEarlier(cycles: seq<Cycle>, m: nat, n: nat, jid: JobId, cfg: Settings, due: Time)
    requires KickedBefore(cycles, m, n, jid, cfg, due)
    ensures m < n
  {
  }

  lemma JustKicked(cycles: seq<Cycle>, n: nat, jid: JobId, cfg: Settings)
    requires n < |cycles| && RestartStream in ActionsAt(cycles, n, jid, cfg) && SeesNoLife(cycles[n], jid, cfg)
    ensures KickedBefore(cycles, n, n + 1, jid, cfg, cycles[n].now + cfg.cooldown)
  {
  }

  /** Where a kicked entry comes from: this cycle's restart, or an earlier kicked entry whose
      timer was kept or moved a cooldown past now; either way the job showed no life. */
  lemma EntryOrigin(entry: Option<Ladder>, view: Option<View>, poll: Poll, now: Time, cfg: Settings)
    requires cfg.useStreams
    ensures
      var t := Turn(entry, view, poll, now, cfg);
      t.entry.Some? && t.entry.value.kicked ==>
        && view.Some? && view.value.running && !view.value.busy && !view.value.lost && view.value.provider.Some?
        && (view.value.active ==>
              view.value.age.Some? && view.value.age.value >= cfg.Threshold(view.value.provider.value))
        && (if entry.Some? && entry.value.kicked
            then t.entry.value.nextAt == entry.value.nextAt || t.entry.value.nextAt == Some(now + cfg.cooldown)
            else RestartStream in t.actions && t.entry.value.nextAt == Some(now + cfg.cooldown))
  {
  }

  /** A kill in one turn: the job was polled, silent, past its timer and kicked, and the
      provider said gone with neither a result nor a fresh heartbeat. */
  lemma KillInTurn(entry: Option<Ladder>, view: Option<View>, poll: Poll, now: Time, cfg: Settings)
    requires cfg.useStreams && MarkDead in Turn(entry, view, poll, now, cfg).actions
    ensures view.Some? && entry.Some? && entry.value.kicked && !Waiting(entry.value, now)
    ensures view.value.running && !view.value.busy && !view.value.lost && view.value.active && view.value.provider.Some?
    ensures view.value.age.Some? && view.value.age.value >= cfg.Threshold(view.value.provider.value)
    ensures GoneFor(poll(view.value.provider.value), view.value.jobId, cfg.Threshold(view.value.provider.value))
  {
  }

  /** The provider reports the worker gone, with no result and no heartbeat under the limit. */
  predicate GoneFor(answer: Answer, jid: JobId, limit: real) {
    && answer.Answered? && jid in answer.byId
    && answer.byId[jid].runtimeState == Some(RUNTIME_GONE)
    && answer.byId[jid].result.None?
    && (answer.byId[jid].heartbeatAge.Some? ==> answer.byId[jid].heartbeatAge.value >= limit)
  }

  /** Death-evidence safety: a cycle declares a job dead only if its stream was silent beyond
      the threshold when checked, the stream had been restarted at least a cooldown before
      with no sign of life seen by any cycle since, and the provider positively reports the
      worker gone with no result and no fresh heartbeat. */
  lemma DeathNeedsEvidence(cycles: seq<Cycle>, n: nat, jid: JobId, cfg: Settings) returns (m: nat)
    requires cfg.useStreams && ClockRuns(cycles) && n < |cycles|
    requires MarkDead in ActionsAt(cycles, n, jid, cfg)
    ensures
      var view := ViewOf(cycles[n].views, jid);
      && view.Some? && view.value.active && view.value.provider.Some?
      && view.value.age.Some? && view.value.age.value >= cfg.Threshold(view.value.provider.value)
      && GoneFor(cycles[n].poll(view.value.provider.value), jid, cfg.Threshold(view.value.provider.value))
    ensures KickedAt(cycles, m, n, jid, cfg) && cycles[m].now + cfg.cooldown <= cycles[n].now
  {
    hide Turn, Judge, Sift, EntryAfter;
    var entry := EntryAfter(cycles[..n], jid, cfg);
    KillInTurn(entry, ViewOf(cycles[n].views, jid), cycles[n].poll, cycles[n].now, cfg);
    m := KickedMeansRestarted(cycles[..n], jid, cfg);
    KickedInPrefix(cycles, n, m, n, jid, cfg, entry.value.nextAt.value);
  }

  /** When a cycle polls for a job: it is running and nothing owns it, its timer is up, and - if
      streams are used - its stream, connected and restarted before, was silent when checked. */
  predicate Due(entry: Option<Ladder>, v: View, now: Time, cfg: Settings) {
    && v.running && !v.busy && !v.lost && v.provider.Some?
    && !Waiting(if entry.Some? then entry.value else GROUND, now)
    && (cfg.useStreams ==>
          && v.active && v.age.Some? && v.age.value >= cfg.Threshold(v.provider.value)
          && entry.Some? && entry.value.kicked)
  }

  /** The stream has spoken by the time the answer of the poll is judged. */
  predicate LiveWhenJudged(v: View, cfg: Settings) {
    v.lateActive && v.lateAge.Some? && v.provider.Some? && v.lateAge.value < cfg.Threshold(v.provider.value)
  }

  /** A cycle declares a job dead exactly when it polled for it and the answer is gone. What the
      stream has said since the check has no part in it. */
  lemma DeadIff(cycles: seq<Cycle>, n: nat, jid: JobId, cfg: Settings)
    requires n < |cycles| && ViewOf(cycles[n].views, jid).Some?
    ensures
      var v := ViewOf(cycles[n].views, jid).value;
      MarkDead in ActionsAt(cycles, n, jid, cfg)
      <==> Due(EntryAfter(cycles[..n], jid, cfg), v, cycles[n].now, cfg)
           && GoneFor(cycles[n].poll(v.provider.value), jid, cfg.Threshold(v.provider.value))
  {
    hide EntryAfter, ViewOf;
    var c := cycles[n];
    TurnKillsIff(EntryAfter(cycles[..n], jid, cfg), ViewOf(c.views, jid).value, c.poll, c.now, cfg);
  }

  lemma TurnKillsIff(entry: Option<Ladder>, v: View, poll: Poll, now: Time, cfg: Settings)
    ensures MarkDead in Turn(entry, Some(v), poll, now, cfg).actions
      <==> Due(entry, v, now, cfg) && GoneFor(poll(v.provider.value), v.jobId, cfg.Threshold(v.provider.value))
  {
  }

  /** What a cycle does about a job's stream: started where there is none; restarted once it has
      been silent as long as the provider's limit says, if the ladder has not restarted it yet
      and its timer is up; stopped where one is left of a job that no longer runs or was lost,
      and of one whose end the poll has just brought. */
  lemma StreamsTended(entry: Option<Ladder>, v: View, poll: Poll, now: Time, cfg: Settings)
    ensures
      var acts := Turn(entry, Some(v), poll, now, cfg).actions;
      var ours := v.running && !v.busy && !v.lost && v.provider.Some? && cfg.useStreams;
      var limit := if v.provider.Some? && v.provider.value in cfg.thresholds then cfg.thresholds[v.provider.value]
                   else cfg.default;
      && (StartStream in acts <==> ours && !v.active)
      && (RestartStream in acts <==>
            && ours && v.active && v.age.Some? && v.age.value >= limit
            && (entry.Some? ==> !entry.value.kicked && (entry.value.nextAt.Some? ==> entry.value.nextAt.value <= now)))
      && (StopStream in acts <==>
            || (v.active && (!v.running || (!v.busy && v.lost)))
            || (Due(entry, v, now, cfg) && v.lateActive
                && (Settles(poll(v.provider.value), v.jobId) || GoneFor(poll(v.provider.value), v.jobId, limit))))
  {
  }

  /** The poll brings the job's durable result. */
  predicate Settles(answer: Answer, jid: JobId) {
    answer.Answered? && jid in answer.byId && answer.byId[jid].result.Some?
  }

  /** So a live stream does not veto a death at every rung: silent long enough when the second
      cycle checks, and heard from while the poll is under way, the job is declared dead. */
  lemma {:induction false} LiveStreamDies(jid: JobId, p: string, cfg: Settings)
    requires cfg.useStreams && cfg.cooldown >= 0.0 && cfg.Threshold(p) > 0.0
    ensures
      var v := View(jid, true, false, false, Some(p), true, Some(cfg.Threshold(p)), true, Some(0.0));
      var gone := Answered(map[jid := Observation(None, None, Some(RUNTIME_GONE))]);
      var cycles := [Cycle([v], _ => gone, 0.0), Cycle([v], _ => gone, cfg.cooldown)];
      LiveWhenJudged(v, cfg) && MarkDead in ActionsAt(cycles, 1, jid, cfg)
  {
    var v := View(jid, true, false, false, Some(p), true, Some(cfg.Threshold(p)), true, Some(0.0));
    var gone := Answered(map[jid := Observation(None, None, Some(RUNTIME_GONE))]);
    var cycles := [Cycle([v], _ => gone, 0.0), Cycle([v], _ => gone, cfg.cooldown)];
    assert [v][..0] == [];
    assert ViewOf([v], jid) == Some(v);
    assert cycles[..1][..0] == [];
    assert EntryAfter(cycles[..0], jid, cfg) == None;
    assert EntryAfter(cycles[..1], jid, cfg) == Some(Ladder(true, Some(cfg.cooldown)));
    DeadIff(cycles, 1, jid, cfg);
  }

  /** A poll that could not reach the provider, or failed, writes nothing about its jobs: it
      only moves their timers. */
  lemma UnreachableWritesNothing(entry: Option<Ladder>, v: View, poll: Poll, now: Time, cfg: Settings)
    requires v.provider.Some? && !poll(v.provider.value).Answered?
    ensures forall a :: a in Turn(entry, Some(v), poll, now, cfg).actions ==> !Writes(a)
    ensures
      var s, t := Sift(entry, v, now, cfg), Turn(entry, Some(v), poll, now, cfg);
      s.poll && s.seen ==> t.entry == Some(s.entry.value.(nextAt := Some(now + cfg.cooldown)))
  {
  }

  /** A durable result always settles the job, even against a report that it is gone. */
  lemma ResultWins(entry: Option<Ladder>, v: View, answer: Answer, now: Time, cfg: Settings)
    requires answer.Answered? && v.jobId in answer.byId && answer.byId[v.jobId].result.Some?
    ensures forall a :: a in Judge(entry, v, answer, now, cfg).actions && Writes(a)
              <==> a == Finish(answer.byId[v.jobId].result.value == 0)
  {
  }

  // ------------------------------------------------------------------ the cycle

  datatype Deed = Deed(jobId: JobId, action: Action)

  function Tag(jid: JobId, actions: seq<Action>): (r: seq<Deed>)
    ensures |r| == |actions| && forall k :: 0 <= k < |r| ==> r[k] == Deed(jid, actions[k])
  {
    seq(|actions|, k requires 0 <= k < |actions| => Deed(jid, actions[k]))
  }

  /** What was done for one job, in order. */
  function DoneFor(done: seq<Deed>, jid: JobId): seq<Action> {
    if done == [] then []
    else
      DoneFor(done[..|done| - 1], jid)
      + (if done[|done| - 1].jobId == jid then [done[|done| - 1].action] else [])
  }

  lemma {:induction false} DoneMore(done: seq<Deed>, owner: JobId, actions: seq<Action>, jid: JobId)
    ensures DoneFor(done + Tag(owner, actions), jid)
      == if jid == owner then DoneFor(done, jid) + actions else DoneFor(done, jid)
  {
    hide DoneFor, Tag;
    if actions == [] {
      assert done + Tag(owner, actions) == done;
    } else {
      var n := |actions| - 1;
      var prior := done + Tag(owner, actions[..n]);
      DoneMore(done, owner, actions[..n], jid);
      TagSplit(done, owner, actions);
      OneDone(prior, Deed(owner, actions[n]), jid);
      assert actions == actions[..n] + [actions[n]];
      assert DoneFor(done, jid) + actions == DoneFor(done, jid) + actions[..n] + [actions[n]];
    }
  }

  lemma TagSplit(done: seq<Deed>, owner: JobId, actions: seq<Action>)
    requires actions != []
    ensures
      var n := |actions| - 1;
      done + Tag(owner, actions) == done + Tag(owner, actions[..n]) + [Deed(owner, actions[n])]
  {
  }

  lemma {:induction false} OneDone(done: seq<Deed>, d: Deed, jid: JobId)
    ensures DoneFor(done + [d], jid) == if d.jobId == jid then DoneFor(done, jid) + [d.action] else DoneFor(done, jid)
  {
    assert (done + [d])[..|done|] == done;
  }

  ghost predicate UniqueViews(views: seq<View>) {
    forall i, k :: 0 <= i < k < |views| ==> views[i].jobId != views[k].jobId
  }

  /** A job after the first loop, if that has come past it. */
  function Mid(entry: Option<Ladder>, view: Option<View>, now: Time, cfg: Settings): Sifted {
    if view.None? then Sifted(entry, [], false, false) else Sift(entry, view.value, now, cfg)
  }

  /** A job after the unseen ones have left the ladder. */
  function Base(entry: Option<Ladder>, view: Option<View>, now: Time, cfg: Settings): Judged {
    var s := Mid(entry, view, now, cfg);
    Judged(if s.seen then s.entry else None, s.actions)
  }

  predicate Polled(entry: Option<Ladder>, view: Option<View>, now: Time, cfg: Settings) {
    view.Some? && Sift(entry, view.value, now, cfg).poll
  }

  lemma {:induction false} TurnInParts(entry: Option<Ladder>, view: Option<View>, poll: Poll, now: Time, cfg: Settings)
    ensures Polled(entry, view, now, cfg) ==> view.value.provider.Some? && Mid(entry, view, now, cfg).seen
    ensures Turn(entry, view, poll, now, cfg) ==
      var base := Base(entry, view, now, cfg);
      if Polled(entry, view, now, cfg) then
        var j := Judge(base.entry, view.value, poll(view.value.provider.value), now, cfg);
        Judged(j.entry, base.actions + j.actions)
      else base
  {
    hide Judge;
  }

  lemma {:induction false} KeepUnique(views: seq<View>, p: View -> bool)
    requires UniqueViews(views)
    ensures UniqueViews(Keep(views, p))
  {
    if views != [] {
      var n := |views| - 1;
      KeepUnique(views[..n], p);
      var rest := Keep(views[..n], p);
      forall k | 0 <= k < |rest| ensures rest[k].jobId != views[n].jobId {
        assert rest[k] in rest;
        assert rest[k] in views[..n];
      }
    }
  }

  lemma {:induction false} ViewAt(views: seq<View>, k: nat)
    requires UniqueViews(views) && k < |views|
    ensures ViewOf(views, views[k].jobId) == Some(views[k])
  {
    var n := |views| - 1;
    if k < n {
      ViewAt(views[..n], k);
    }
  }

  lemma {:induction false} ViewIn(views: seq<View>, v: View)
    requires UniqueViews(views) && v in views
    ensures ViewOf(views, v.jobId) == Some(v)
  {
    var k :| 0 <= k < |views| && views[k] == v;
    ViewAt(views, k);
  }

  class Watcher {
    var ladder: map<JobId, Ladder>
    const cfg: Settings

    constructor (cfg: Settings)
      ensures this.cfg == cfg && forall j :: Entry(j) == None
    {
      this.cfg := cfg;
      ladder := map[];
    }

    function Entry(jid: JobId): Option<Ladder>
      reads this
    {
      if jid in ladder then Some(ladder[jid]) else None
    }

    method SetEntry(jid: JobId, entry: Option<Ladder>)
      modifies this
      ensures Entry(jid) == entry
      ensures forall j :: j != jid ==> Entry(j) == old(Entry(j))
    {
      ladder := if entry.Some? then ladder[jid := entry.value] else ladder - {jid};
    }

    /** The first loop: every job's entry, its actions and whether it was seen; and the views
        of the jobs to be polled. */
    method SiftAll(views: seq<View>, now: Time) returns (done: seq<Deed>, seen: set<JobId>, pending: seq<View>)
      requires UniqueViews(views)
      modifies this
      ensures UniqueViews(pending)
      ensures forall j :: SiftedSo(old(Entry(j)), ViewOf(views, j), now, cfg, Entry(j), DoneFor(done, j), j in seen,
        ViewOf(pending, j))
    {
      hide Sift, DoneFor, UniqueViews, ViewOf, SiftedSo;
      done, seen, pending := [], {}, [];
      assert views[..0] == [];
      NothingSifted(now, cfg);
      for i := 0 to |views|
        invariant UniqueViews(pending)
        invariant forall j ::
          SiftedSo(old(Entry(j)), ViewOf(views[..i], j), now, cfg, Entry(j), DoneFor(done, j), j in seen,
            ViewOf(pending, j))
      {
        var v := views[i];
        FirstLook(views, i);
        NotYet(old(Entry(v.jobId)), now, cfg, Entry(v.jobId), DoneFor(done, v.jobId), v.jobId in seen,
          ViewOf(pending, v.jobId));
        var s := Sift(Entry(v.jobId), v, now, cfg);
        SiftedNow(Entry(v.jobId), v, now, cfg);
        SetEntry(v.jobId, s.entry);
        DoneForAll(done, v.jobId, s.actions);
        assert [] + s.actions == s.actions;
        done := done + Tag(v.jobId, s.actions);
        if s.seen {
          seen := seen + {v.jobId};
        }
        if s.poll {
          PendingMore(pending, v);
          pending := pending + [v];
        }
      }
      assert views[..|views|] == views;
    }

    /** One provider's batch of silent jobs, judged by one answer. */
    method RunLadder(batch: seq<View>, answer: Answer, now: Time, done0: seq<Deed>) returns (done: seq<Deed>)
      requires UniqueViews(batch)
      modifies this
      ensures forall j :: JudgedSo(old(Entry(j)), DoneFor(done0, j), ViewOf(batch, j), answer, now, cfg, Entry(j),
        DoneFor(done, j))
    {
      hide Judge, DoneFor, UniqueViews, ViewOf, JudgedSo;
      done := done0;
      assert batch[..0] == [];
      NothingJudged(answer, now, cfg);
      for k := 0 to |batch|
        invariant forall j ::
          JudgedSo(old(Entry(j)), DoneFor(done0, j), ViewOf(batch[..k], j), answer, now, cfg, Entry(j),
            DoneFor(done, j))
      {
        var v := batch[k];
        FirstLook(batch, k);
        NotJudged(old(Entry(v.jobId)), DoneFor(done0, v.jobId), answer, now, cfg, Entry(v.jobId),
          DoneFor(done, v.jobId));
        var verdict := Judge(Entry(v.jobId), v, answer, now, cfg);
        JudgedNow(Entry(v.jobId), DoneFor(done, v.jobId), v, answer, now, cfg);
        SetEntry(v.jobId, verdict.entry);
        DoneForAll(done, v.jobId, verdict.actions);
        done := done + Tag(v.jobId, verdict.actions);
      }
      assert batch[..|batch|] == batch;
    }

    /** One observation round: sift, drop the unseen, then one poll for each provider with
        silent jobs. Every job gets exactly its turn. */
    method Cycle(views: seq<View>, poll: Poll, now: Time) returns (done: seq<Deed>)
      requires UniqueViews(views)
      modifies this
      ensures forall j :: Judged(Entry(j), DoneFor(done, j)) == Turn(old(Entry(j)), ViewOf(views, j), poll, now, cfg)
    {
      hide Judge, Sift, Turn, DoneFor, UniqueViews, ViewOf, TurnedSo, JudgedSo, SiftedSo;
      var seen, left;
      done, seen, left := SiftAll(views, now);
      ghost var sifted := ladder;
      ladder := map j | j in ladder && j in seen :: ladder[j];
      forall j ensures TurnedSo(old(Entry(j)), ViewOf(views, j), ViewOf(left, j), poll, now, cfg, Entry(j),
        DoneFor(done, j)) {
        var was := if j in sifted then Some(sifted[j]) else None;
        Dropped(old(Entry(j)), ViewOf(views, j), ViewOf(left, j), poll, now, cfg, was, DoneFor(done, j), j in seen);
      }
      while left != []
        invariant UniqueViews(left)
        invariant forall j ::
          TurnedSo(old(Entry(j)), ViewOf(views, j), ViewOf(left, j), poll, now, cfg, Entry(j), DoneFor(done, j))
        decreases |left|
      {
        var first := left[0];
        Partition(left, first.provider);
        var batch, rest := Keep(left, From(first.provider)), Keep(left, NotFrom(first.provider));
        ghost var before := ladder;
        ghost var done0 := done;
        if first.provider.Some? {
          done := RunLadder(batch, poll(first.provider.value), now, done);
        }
        forall j ensures TurnedSo(old(Entry(j)), ViewOf(views, j), ViewOf(rest, j), poll, now, cfg, Entry(j),
          DoneFor(done, j)) {
          var was := if j in before then Some(before[j]) else None;
          BatchDone(old(Entry(j)), ViewOf(views, j), ViewOf(left, j), ViewOf(batch, j), ViewOf(rest, j),
            first.provider, poll, now, cfg, was, DoneFor(done0, j), Entry(j), DoneFor(done, j));
        }
        left := rest;
      }
      forall j ensures Judged(Entry(j), DoneFor(done, j)) == Turn(old(Entry(j)), ViewOf(views, j), poll, now, cfg) {
        NobodyWaits(old(Entry(j)), ViewOf(views, j), j, poll, now, cfg, Entry(j), DoneFor(done, j));
      }
    }
  }

  function From(p: Option<string>): View -> bool {
    (v: View) => v.provider == p
  }

  function NotFrom(p: Option<string>): View -> bool {
    (v: View) => v.provider != p
  }

  /** A batch taken out by provider leaves the others, and shrinks what is left. */
  lemma {:induction false} Partition(left: seq<View>, p: Option<string>)
    requires UniqueViews(left) && left != [] && left[0].provider == p
    ensures UniqueViews(Keep(left, From(p))) && UniqueViews(Keep(left, NotFrom(p)))
    ensures |Keep(left, NotFrom(p))| < |left|
    ensures forall j ::
      ViewOf(Keep(left, From(p)), j)
      == if ViewOf(left, j).Some? && ViewOf(left, j).value.provider == p then ViewOf(left, j) else None
    ensures forall j ::
      ViewOf(Keep(left, NotFrom(p)), j)
      == if ViewOf(left, j).Some? && ViewOf(left, j).value.provider != p then ViewOf(left, j) else None
  {
    KeepViews(left, From(p));
    KeepViews(left, NotFrom(p));
    KeepFewer(left, NotFrom(p), 0);
  }

  lemma {:induction false} KeepViews(left: seq<View>, p: View -> bool)
    requires UniqueViews(left)
    ensures UniqueViews(Keep(left, p))
    ensures forall j ::
      ViewOf(Keep(left, p), j)
      == if ViewOf(left, j).Some? && p(ViewOf(left, j).value) then ViewOf(left, j) else None
  {
    hide UniqueViews;
    KeepUnique(left, p);
    var kept := Keep(left, p);
    forall j ensures ViewOf(kept, j) == if ViewOf(left, j).Some? && p(ViewOf(left, j).value) then ViewOf(left, j)
      else None {
      if ViewOf(kept, j).Some? {
        ViewIn(left, ViewOf(kept, j).value);
      } else if ViewOf(left, j).Some? && p(ViewOf(left, j).value) {
        ViewIn(kept, ViewOf(left, j).value);
      }
    }
  }

  lemma {:induction false} KeepFewer(left: seq<View>, p: View -> bool, k: nat)
    requires k < |left| && !p(left[k])
    ensures |Keep(left, p)| < |left|
  {
    var n := |left| - 1;
    if k < n {
      KeepFewer(left[..n], p, k);
    } else {
      KeepAtMost(left[..n], p);
    }
  }

  lemma {:induction false} KeepAtMost(left: seq<View>, p: View -> bool)
    ensures |Keep(left, p)| <= |left|
  {
    if left != [] {
      KeepAtMost(left[..|left| - 1], p);
    }
  }

  /** A job's standing within one batch. */
  predicate JudgedSo(entry0: Option<Ladder>, actions0: seq<Action>, view: Option<View>, answer: Answer, now: Time,
                     cfg: Settings, entry: Option<Ladder>, actions: seq<Action>) {
    if view.None? then entry == entry0 && actions == actions0
    else entry == Judge(entry0, view.value, answer, now, cfg).entry
         && actions == actions0 + Judge(entry0, view.value, answer, now, cfg).actions
  }

  lemma NothingJudged(answer: Answer, now: Time, cfg: Settings)
    ensures forall j, e: Option<Ladder>, a: seq<Action> :: JudgedSo(e, a, ViewOf([], j), answer, now, cfg, e, a)
  {
  }

  lemma NotJudged(entry0: Option<Ladder>, actions0: seq<Action>, answer: Answer, now: Time, cfg: Settings,
                  entry: Option<Ladder>, actions: seq<Action>)
    requires JudgedSo(entry0, actions0, None, answer, now, cfg, entry, actions)
    ensures entry == entry0 && actions == actions0
  {
  }

  lemma {:induction false} JudgedNow(entry: Option<Ladder>, actions: seq<Action>, v: View, answer: Answer, now: Time,
                                     cfg: Settings)
    ensures
      var verdict := Judge(entry, v, answer, now, cfg);
      JudgedSo(entry, actions, Some(v), answer, now, cfg, verdict.entry, actions + verdict.actions)
  {
    hide Judge;
  }

  /** A job's standing in the cycle: still waiting for its poll, or through with its turn. */
  predicate TurnedSo(entry0: Option<Ladder>, view: Option<View>, waiting: Option<View>, poll: Poll, now: Time,
                     cfg: Settings, entry: Option<Ladder>, actions: seq<Action>) {
    if waiting.Some? then
      waiting == view && Polled(entry0, view, now, cfg) && Judged(entry, actions) == Base(entry0, view, now, cfg)
    else Judged(entry, actions) == Turn(entry0, view, poll, now, cfg)
  }

  lemma {:induction false} Dropped(entry0: Option<Ladder>, view: Option<View>, pending: Option<View>, poll: Poll,
                                   now: Time, cfg: Settings, entry: Option<Ladder>, actions: seq<Action>, seen: bool)
    requires SiftedSo(entry0, view, now, cfg, entry, actions, seen, pending)
    ensures TurnedSo(entry0, view, pending, poll, now, cfg, if seen then entry else None, actions)
  {
    hide Sift, Turn, Judge;
    TurnInParts(entry0, view, poll, now, cfg);
  }

  lemma {:induction false} BatchDone(entry0: Option<Ladder>, view: Option<View>, left: Option<View>,
                                     batch: Option<View>, rest: Option<View>, p: Option<string>, poll: Poll, now: Time,
                                     cfg: Settings, was: Option<Ladder>, acted: seq<Action>, entry: Option<Ladder>,
                                     actions: seq<Action>)
    requires TurnedSo(entry0, view, left, poll, now, cfg, was, acted)
    requires batch == if left.Some? && left.value.provider == p then left else None
    requires rest == if left.Some? && left.value.provider != p then left else None
    requires p.Some? ==> JudgedSo(was, acted, batch, poll(p.value), now, cfg, entry, actions)
    requires p.None? ==> entry == was && actions == acted
    ensures TurnedSo(entry0, view, rest, poll, now, cfg, entry, actions)
  {
    hide Sift, Turn, Judge;
    TurnInParts(entry0, view, poll, now, cfg);
  }

  lemma {:induction false} NobodyWaits(entry0: Option<Ladder>, view: Option<View>, j: JobId, poll: Poll, now: Time,
                                       cfg: Settings, entry: Option<Ladder>, actions: seq<Action>)
    requires TurnedSo(entry0, view, ViewOf([], j), poll, now, cfg, entry, actions)
    ensures Judged(entry, actions) == Turn(entry0, view, poll, now, cfg)
  {
    hide Turn;
  }

  /** A job's standing after the first loop has or has not come past it. */
  predicate SiftedSo(entry0: Option<Ladder>, view: Option<View>, now: Time, cfg: Settings,
                     entry: Option<Ladder>, actions: seq<Action>, seen: bool, pending: Option<View>) {
    var s := Mid(entry0, view, now, cfg);
    && entry == s.entry && actions == s.actions && seen == s.seen
    && pending == if Polled(entry0, view, now, cfg) then view else None
  }

  lemma NothingSifted(now: Time, cfg: Settings)
    ensures UniqueViews([])
    ensures forall j, e: Option<Ladder> :: SiftedSo(e, ViewOf([], j), now, cfg, e, DoneFor([], j), false, ViewOf([], j))
  {
  }

  lemma NotYet(entry0: Option<Ladder>, now: Time, cfg: Settings, entry: Option<Ladder>, actions: seq<Action>,
               seen: bool, pending: Option<View>)
    requires SiftedSo(entry0, None, now, cfg, entry, actions, seen, pending)
    ensures entry == entry0 && actions == [] && !seen && pending.None?
  {
  }

  lemma {:induction false} SiftedNow(entry: Option<Ladder>, v: View, now: Time, cfg: Settings)
    ensures
      var s := Sift(entry, v, now, cfg);
      SiftedSo(entry, Some(v), now, cfg, s.entry, s.actions, s.seen, if s.poll then Some(v) else None)
  {
    hide Sift;
  }

  lemma DoneForAll(done: seq<Deed>, owner: JobId, actions: seq<Action>)
    ensures forall j ::
      DoneFor(done + Tag(owner, actions), j)
      == if j == owner then DoneFor(done, j) + actions else DoneFor(done, j)
  {
    forall j ensures DoneFor(done + Tag(owner, actions), j)
      == if j == owner then DoneFor(done, j) + actions else DoneFor(done, j)
    {
      DoneMore(done, owner, actions, j);
    }
  }

  lemma {:induction false} FirstLook(views: seq<View>, i: nat)
    requires UniqueViews(views) && i < |views|
    ensures ViewOf(views[..i], views[i].jobId).None?
    ensures forall j :: ViewOf(views[..i + 1], j) == if j == views[i].jobId then Some(views[i])
      else ViewOf(views[..i], j)
  {
    assert views[..i + 1][..i] == views[..i];
  }

  lemma {:induction false} PendingMore(pending: seq<View>, v: View)
    requires UniqueViews(pending) && ViewOf(pending, v.jobId).None?
    ensures UniqueViews(pending + [v])
    ensures forall j :: ViewOf(pending + [v], j) == if j == v.jobId then Some(v) else ViewOf(pending, j)
  {
    assert (pending + [v])[..|pending|] == pending;
  }
}
