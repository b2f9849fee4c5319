/** An observation round against the store: each writing action is a step of the run relation. */
module Rounds {
  import opened Wrappers
  import opened Models
  import opened Kernel
  import opened Invariant
  import opened Observer
  import R = Runs

  /** The status a runtime state is shown as; other states show nothing. */
  function Shown(state: Option<string>): Option<JobStatus> {
    if state == Some("alive") then Some(InProgress)
    else if state == Some("queued") then Some(JobStatus.Waiting)
    else None
  }

  function StepOf(d: Deed, now: Time): Option<Step> {
    match d.action
    case Finish(ok) => Some(Step.Finish(d.jobId, ok, now))
    case MarkDead => Some(WorkerDead(d.jobId))
    case Note(state) => if Shown(state).Some? then Some(ShowStatus(d.jobId, Shown(state).value)) else None
    case _ => None
  }

  /** The store after a round's actions. */
  function Written(s: Store, done: seq<Deed>, now: Time): Store {
    if done == [] then s
    else
      var before := Written(s, done[..|done| - 1], now);
      var step := StepOf(done[|done| - 1], now);
      if step.None? || step.value.jid !in before.cells then before else StepOn(before, step.value)
  }

  /** Whatever a round observes, the store stays sound. */
  lemma {:induction false} RoundKeeps(s: Store, done: seq<Deed>, now: Time)
    requires StoreOk(s)
    ensures StoreOk(Written(s, done, now))
  {
    hide StoreOk, StepOn;
    if done != [] {
      var n := |done| - 1;
      RoundKeeps(s, done[..n], now);
      var step := StepOf(done[n], now);
      if step.Some? && step.value.jid in Written(s, done[..n], now).cells {
        StepOnKeeps(Written(s, done[..n], now), step.value);
      }
    }
  }

  /** `done` is a round over `views`: each job had its turn. */
  ghost predicate IsRound(done: seq<Deed>, before: map<JobId, Ladder>, views: seq<View>, poll: Poll, now: Time,
                          cfg: Settings) {
    forall j :: DoneFor(done, j)
      == Turn(if j in before then Some(before[j]) else None, ViewOf(views, j), poll, now, cfg).actions
  }

  lemma {:induction false} DeedIsDone(done: seq<Deed>, k: nat)
    requires k < |done|
    ensures done[k].action in DoneFor(done, done[k].jobId)
  {
    var n := |done| - 1;
    if k < n {
      DeedIsDone(done[..n], k);
    }
  }

  lemma {:induction false} NothingWritten(s: Store, done: seq<Deed>, now: Time)
    requires forall k :: 0 <= k < |done| ==> !Writes(done[k].action)
    ensures Written(s, done, now) == s
  {
    hide StepOn;
    if done != [] {
      NothingWritten(s, done[..|done| - 1], now);
    }
  }

  /** A round in which no provider answers - unreachable, or failing - leaves the store as it
      was: no marker, no transition. */
  lemma {:induction false} UnreachableRoundChangesNothing(s: Store, done: seq<Deed>, before: map<JobId, Ladder>,
                                                          views: seq<View>, poll: Poll, now: Time, cfg: Settings)
    requires IsRound(done, before, views, poll, now, cfg)
    requires forall p :: !poll(p).Answered?
    ensures Written(s, done, now) == s
  {
    hide DoneFor, Turn, Written;
    forall k | 0 <= k < |done| ensures !Writes(done[k].action) {
      var j := done[k].jobId;
      DeedIsDone(done, k);
      SilentTurn(if j in before then Some(before[j]) else None, ViewOf(views, j), poll, now, cfg);
    }
    NothingWritten(s, done, now);
  }

  lemma {:induction false} SilentTurn(entry: Option<Ladder>, view: Option<View>, poll: Poll, now: Time, cfg: Settings)
    requires forall p :: !poll(p).Answered?
    ensures forall a :: a in Turn(entry, view, poll, now, cfg).actions ==> !Writes(a)
  {
    if view.Some? && view.value.provider.Some? {
      UnreachableWritesNothing(entry, view.value, poll, now, cfg);
    }
  }

  /** A job is marked lost in the store only by a round that declared it dead. */
  lemma {:induction false} OnlyDeathsMarkLost(s: Store, done: seq<Deed>, now: Time, jid: JobId)
    requires StoreOk(s) && jid in s.cells && s.cells[jid].rec.lastStatus != Some(Lost)
    ensures jid in Written(s, done, now).cells
    ensures Written(s, done, now).cells[jid].rec.lastStatus == Some(Lost) ==> Deed(jid, MarkDead) in done
  {
    hide StoreOk, StepOn, R.CellStep;
    if done != [] {
      var n := |done| - 1;
      OnlyDeathsMarkLost(s, done[..n], now, jid);
      assert done == done[..n] + [done[n]];
      var before := Written(s, done[..n], now);
      var step := StepOf(done[n], now);
      if step.Some? && step.value.jid in before.cells {
        R.StepOnFrame(before, step.value);
        ObservedStatus(before.cells[step.value.jid], done[n], now);
      }
    }
  }

  lemma {:induction false} ObservedStatus(c: Cell, d: Deed, now: Time)
    requires StepOf(d, now).Some?
    ensures R.OfOneJob(StepOf(d, now).value) && StepOf(d, now).value.jid == d.jobId
    ensures R.CellStep(c, StepOf(d, now).value).rec.lastStatus == Some(Lost) ==>
      c.rec.lastStatus == Some(Lost) || d.action.MarkDead?
  {
  }

  // ------------------------------------------------------------------ what becomes of each job

  /** A job's rows after the actions about it. */
  function AfterActions(c: Cell, jid: JobId, actions: seq<Observer.Action>, now: Time): Cell {
    if actions == [] then c
    else
      var before := AfterActions(c, jid, actions[..|actions| - 1], now);
      var step := StepOf(Deed(jid, actions[|actions| - 1]), now);
      if step.None? then before else R.CellStep(before, step.value)
  }

  /** A round changes a job's rows by the actions about that job alone. */
  lemma {:induction false} WrittenCell(s: Store, done: seq<Deed>, now: Time, jid: JobId)
    requires jid in s.cells
    ensures jid in Written(s, done, now).cells
    ensures Written(s, done, now).cells[jid] == AfterActions(s.cells[jid], jid, DoneFor(done, jid), now)
  {
    hide StepOn, R.CellStep, StepOf;
    if done != [] {
      var n := |done| - 1;
      WrittenCell(s, done[..n], now, jid);
      var before := Written(s, done[..n], now);
      var mine := DoneFor(done[..n], jid);
      StepOfOneJob(done[n], now);
      var step := StepOf(done[n], now);
      if step.Some? && step.value.jid in before.cells {
        R.StepOnFrame(before, step.value);
      }
      if done[n].jobId == jid {
        assert (mine + [done[n].action])[..|mine|] == mine;
      } else {
        assert mine + [] == mine;
      }
    }
  }

  lemma StepOfOneJob(d: Deed, now: Time)
    ensures StepOf(d, now).Some? ==> R.OfOneJob(StepOf(d, now).value) && StepOf(d, now).value.jid == d.jobId
  {
  }

  lemma {:induction false} AfterOne(c: Cell, jid: JobId, a: Observer.Action, now: Time)
    ensures AfterActions(c, jid, [a], now)
      == if StepOf(Deed(jid, a), now).Some? then R.CellStep(c, StepOf(Deed(jid, a), now).value) else c
  {
    hide R.CellStep, StepOf;
    assert [a][..0] == [];
  }

  /** Starting, restarting and stopping a stream writes nothing. */
  lemma {:induction false} AfterStop(c: Cell, jid: JobId, a: Observer.Action, active: bool, now: Time)
    ensures AfterActions(c, jid, [a] + Observer.Stopped(active), now) == AfterActions(c, jid, [a], now)
  {
    hide R.CellStep;
    if active {
      assert ([a] + [StopStream])[..1] == [a];
    } else {
      assert [a] + [] == [a];
    }
  }

  /** A running job's record once its answer is in: a result ends it, the result zero well;
      a heartbeat under the limit changes nothing; a worker gone marks it lost; any other
      runtime state is at most shown. */
  function Told(rec: Job, obs: Observation, limit: real): Job {
    match obs.result
    case Some(code) =>
      if code == 0 then rec.(state := Succeeded, lastStatus := Some(Done))
      else rec.(state := Failed, lastStatus := Some(Broke))
    case None =>
      if obs.heartbeatAge.Some? && obs.heartbeatAge.value < limit then rec
      else if obs.runtimeState == Some("gone") then rec.(lastStatus := Some(Lost))
      else if obs.runtimeState == Some("alive") then rec.(lastStatus := Some(InProgress))
      else if obs.runtimeState == Some("queued") then rec.(lastStatus := Some(JobStatus.Waiting))
      else rec
  }

  /** What such an answer adds to the log: the finish, or the worker's death. */
  function LoggedFor(obs: Observation, limit: real): seq<Kernel.Action> {
    if obs.result.Some? then [AFinish(obs.result.value == 0)]
    else if obs.runtimeState == Some("gone") && (obs.heartbeatAge.Some? ==> obs.heartbeatAge.value >= limit)
    then [AWorkerDead]
    else []
  }

  /** The rows afterwards are as the answer, if there is one, says. */
  predicate SaidOf(c: Cell, c': Cell, said: Option<Observation>, limit: real) {
    match said
    case None => c' == c
    case Some(obs) => c' == c.(rec := Told(c.rec, obs, limit), trace := c.trace + LoggedFor(obs, limit))
  }

  lemma {:induction false} JudgedCell(c: Cell, jid: JobId, entry: Option<Ladder>, v: View, answer: Answer, now: Time,
                                      cfg: Settings)
    requires c.rec.state.Running? && v.jobId == jid && v.provider.Some?
    ensures
      var c' := AfterActions(c, jid, Judge(entry, v, answer, now, cfg).actions, now);
      var said := if answer.Answered? && jid in answer.byId then Some(answer.byId[jid]) else None;
      SaidOf(c, c', said, cfg.Threshold(v.provider.value))
  {
    hide AfterActions, StepOf, R.CellStep;
    NoActions(c, jid, now);
    if answer.Answered? && jid in answer.byId {
      var obs := answer.byId[jid];
      if obs.result.Some? {
        AfterFinish(c, jid, obs.result.value == 0, v.lateActive, now);
      } else {
        AfterDead(c, jid, v.lateActive, now);
        AfterNote(c, jid, obs.runtimeState, now);
      }
    }
  }

  lemma {:induction false} AfterFinish(c: Cell, jid: JobId, ok: bool, active: bool, now: Time)
    requires c.rec.state.Running?
    ensures AfterActions(c, jid, [Observer.Action.Finish(ok)] + Observer.Stopped(active), now)
      == c.(rec := c.rec.(state := if ok then Succeeded else Failed, lastStatus := Some(if ok then Done else Broke)),
            trace := c.trace + [AFinish(ok)])
  {
    hide AfterActions;
    AfterOne(c, jid, Observer.Action.Finish(ok), now);
    AfterStop(c, jid, Observer.Action.Finish(ok), active, now);
  }

  lemma {:induction false} AfterDead(c: Cell, jid: JobId, active: bool, now: Time)
    requires c.rec.state.Running?
    ensures AfterActions(c, jid, [MarkDead] + Observer.Stopped(active), now)
      == c.(rec := c.rec.(lastStatus := Some(Lost)), trace := c.trace + [AWorkerDead])
  {
    hide AfterActions;
    AfterOne(c, jid, MarkDead, now);
    AfterStop(c, jid, MarkDead, active, now);
  }

  lemma {:induction false} AfterNote(c: Cell, jid: JobId, state: Option<string>, now: Time)
    ensures AfterActions(c, jid, [Note(state)], now)
      == if Shown(state).Some? then c.(rec := c.rec.(lastStatus := Shown(state))) else c
  {
    hide AfterActions;
    AfterOne(c, jid, Note(state), now);
  }

  lemma {:induction false} SiftWritesNothing(c: Cell, jid: JobId, entry: Option<Ladder>, v: View, now: Time,
                                             cfg: Settings)
    ensures AfterActions(c, jid, Sift(entry, v, now, cfg).actions, now) == c
    ensures Sift(entry, v, now, cfg).poll <==> Due(entry, v, now, cfg)
    ensures Due(entry, v, now, cfg) ==> Sift(entry, v, now, cfg).seen && Sift(entry, v, now, cfg).actions == []
  {
    hide R.CellStep;
    var actions := Sift(entry, v, now, cfg).actions;
    if actions != [] {
      assert actions == [actions[0]];
      AfterOne(c, jid, actions[0], now);
    }
  }

  lemma {:induction false} TurnCell(c: Cell, jid: JobId, entry: Option<Ladder>, view: Option<View>, poll: Poll,
                                    now: Time, cfg: Settings)
    requires c.rec.state.Running? && (view.Some? ==> view.value.jobId == jid)
    ensures
      var c' := AfterActions(c, jid, Turn(entry, view, poll, now, cfg).actions, now);
      if view.Some? && Due(entry, view.value, now, cfg) then
        var answer := poll(view.value.provider.value);
        var said := if answer.Answered? && jid in answer.byId then Some(answer.byId[jid]) else None;
        SaidOf(c, c', said, cfg.Threshold(view.value.provider.value))
      else c' == c
  {
    hide Sift, Judge, AfterActions, Due, SaidOf;
    if view.Some? {
      var v := view.value;
      SiftWritesNothing(c, jid, entry, v, now, cfg);
      if Due(entry, v, now, cfg) {
        DueHasProvider(entry, v, now, cfg);
        var j := Judge(Sift(entry, v, now, cfg).entry, v, poll(v.provider.value), now, cfg);
        assert [] + j.actions == j.actions;
        JudgedCell(c, jid, Sift(entry, v, now, cfg).entry, v, poll(v.provider.value), now, cfg);
      }
    } else {
      NoActions(c, jid, now);
    }
  }

  lemma DueHasProvider(entry: Option<Ladder>, v: View, now: Time, cfg: Settings)
    requires Due(entry, v, now, cfg)
    ensures v.provider.Some?
  {
  }

  lemma NoActions(c: Cell, jid: JobId, now: Time)
    ensures AfterActions(c, jid, [], now) == c
  {
  }

  /** What a round makes of a running job: if it was due for the poll and its provider answered
      about it, its record and its log are what the answer tells; otherwise its rows are as they
      were. */
  lemma {:induction false} RoundTells(s: Store, done: seq<Deed>, before: map<JobId, Ladder>, views: seq<View>,
                                      poll: Poll,
                                      now: Time, cfg: Settings, jid: JobId)
    requires IsRound(done, before, views, poll, now, cfg)
    requires jid in s.cells && s.cells[jid].rec.state.Running?
    ensures jid in Written(s, done, now).cells
    ensures
      var entry := if jid in before then Some(before[jid]) else None;
      var view := ViewOf(views, jid);
      var c, c' := s.cells[jid], Written(s, done, now).cells[jid];
      if view.Some? && Due(entry, view.value, now, cfg) then
        var p := view.value.provider.value;
        var limit := if p in cfg.thresholds then cfg.thresholds[p] else cfg.default;
        var answer := poll(p);
        SaidOf(c, c', if answer.Answered? && jid in answer.byId then Some(answer.byId[jid]) else None, limit)
      else c' == c
  {
    hide Written, DoneFor, Turn, AfterActions, SaidOf, Due;
    WrittenCell(s, done, now, jid);
    TurnCell(s.cells[jid], jid, if jid in before then Some(before[jid]) else None, ViewOf(views, jid), poll, now, cfg);
  }
}
