/** The durable state and everything that changes it: the enacted decisions of a pass and the
    completions of work items, the observer and the client. Each change is one
    compare-and-swap on a job's rows, skipped when its guard no longer holds. */
module Kernel {
  import opened Wrappers
  import opened Models
  import opened Budget
  import opened Scheduler

  /** The tokens of the per-job event log. */
  datatype Action =
    | ASubmit | AReserve | AHold | AUnhold | AFail | ARequeue | ARollback | AProvision | AActivate
    | AFinish(ok: bool) | AWorkerDead | ACancel | ACancelFailed | ACapture | ACaptureSacrificed | AReap | AReleaseLost

  /** One job's rows: its record, its open work item, the providers on which a resource of
      this job is recorded and not yet released, and its event log. */
  datatype Cell = Cell(rec: Job, item: Option<WorkKind>, minted: set<string>, trace: seq<Action>) {
    function Log(a: Action): Cell {
      this.(trace := trace + [a])
    }

    /** The estimate a live placement has reserved in the ledger. */
    function LivePaid(): Option<real> {
      if rec.state.Active() && rec.placement.Some? then rec.placement.value.costActual else None
    }
  }

  datatype Store = Store(cells: map<JobId, Cell>, day: seq<Entry>, week: seq<Entry>, cancels: set<JobId>) {
    function Put(jid: JobId, c: Cell): Store {
      this.(cells := cells[jid := c])
    }

    /** Reserve an amount in both windows. */
    function Commit(jid: JobId, provider: string, amount: real, now: Time): Store {
      var e := Entry(jid, provider, amount, Committed, now);
      this.(day := day + [e], week := week + [e])
    }

    /** Turn the job's earliest reservation into a spend, in both windows. */
    function Settle(jid: JobId, amount: real, now: Time): Store {
      this.(day := RealizeRows(day, jid, amount, now), week := RealizeRows(week, jid, amount, now))
    }

    function SettleIf(paid: Option<real>, jid: JobId, amount: real, now: Time): Store {
      if paid.Some? then Settle(jid, amount, now) else this
    }
  }

  const EMPTY := Store(map[], [], [], {})

  const REQUEUE_BACKOFF_S: real := 30.0

  // ------------------------------------------------------------------ enacting decisions

  /** The provisioning of the current placement: since the last reserve. */
  function Provisioned(trace: seq<Action>): bool {
    trace != [] && (trace[|trace| - 1] == AProvision
                    || (trace[|trace| - 1] != AReserve && Provisioned(trace[..|trace| - 1])))
  }

  function EnactOnCell(c: Cell, d: Decision, now: Time): Cell {
    match d
    case Reserve(jid, provider, _, est, _) =>
      if !c.rec.state.Pending() then c
      else c.(rec := c.rec.(state := Placing,
                            placement := Some(Placement(provider, if est > 0.0 then Some(est) else None))),
              item := Some(PlaceItem)).Log(AReserve)
    case Hold(_, _) => if !c.rec.state.Queued? then c else c.(rec := c.rec.(state := Held)).Log(AHold)
    case Unhold(_) => if !c.rec.state.Held? then c else c.(rec := c.rec.(state := Queued)).Log(AUnhold)
    case Fail(_, _) =>
      if !c.rec.state.Pending() then c
      else c.(rec := c.rec.(state := Failed, lastStatus := Some(Broke))).Log(AFail)
    case Requeue(_) =>
      if c.minted != {} || !c.rec.state.Running? then c
      else c.(rec := c.rec.(state := Queued, placement := None, lastStatus := None, logsCached := false,
                            outputsCached := false, reaped := false,
                            notBefore := Some(now + REQUEUE_BACKOFF_S))).Log(ARequeue)
    case StartCancel(_) => c.(item := Some(CancelItem))
    case StartCapture(_) => c.(item := Some(CaptureItem))
    case StartReap(_) => c.(item := Some(ReapItem(false)))
    case StartRelease(_) => c.(item := Some(ReapItem(true)))
  }

  function Enact(s: Store, d: Decision, now: Time): Store {
    if d.jobId !in s.cells then s
    else
      var c := s.cells[d.jobId];
      var s' := s.Put(d.jobId, EnactOnCell(c, d, now));
      if d.Reserve? && c.rec.state.Pending() && d.estCost > 0.0 then
        s'.Commit(d.jobId, d.provider, d.estCost, now)
      else if d.Requeue? && c.minted == {} && c.rec.state.Running? then
        s'.SettleIf(c.LivePaid(), d.jobId, 0.0, now)
      else s'
  }

  function EnactAll(s: Store, ds: seq<Decision>, now: Time): Store {
    if ds == [] then s else Enact(EnactAll(s, ds[..|ds| - 1], now), ds[|ds| - 1], now)
  }

  // ------------------------------------------------------------------ the pass

  predicate Enumerates(order: seq<JobId>, keys: set<JobId>) {
    && (forall i :: 0 <= i < |order| ==> order[i] in keys)
    && (forall i, j :: 0 <= i < j < |order| ==> order[i] != order[j])
    && (forall k :: k in keys ==> k in order)
  }

  function RecordsOf(s: Store, order: seq<JobId>): (r: seq<Job>)
    requires forall i :: 0 <= i < |order| ==> order[i] in s.cells
    ensures |r| == |order| && forall i :: 0 <= i < |order| ==> r[i] == s.cells[order[i]].rec
  {
    seq(|order|, i requires 0 <= i < |order| => s.cells[order[i]].rec)
  }

  function SnapshotOf(s: Store, order: seq<JobId>): Snapshot
    requires forall i :: 0 <= i < |order| ==> order[i] in s.cells
  {
    Snapshot(RecordsOf(s, order),
             map j | j in s.cells && s.cells[j].item.Some? :: s.cells[j].item.value,
             set j | j in s.cells && s.cells[j].minted != {} :: j,
             s.cancels)
  }

  /** What one pass is configured with: the two caps, resolved for it, and the tick policy. */
  datatype Config = Config(dayCap: Option<real>, weekCap: Option<real>, policy: SchedPolicy)

  function RowsIn(w: Window, rows: seq<Entry>, now: Time): seq<Entry> {
    Keep(rows, (e: Entry) => SameWindow(w, e.at, now))
  }

  /** The budget view of one pass: the day window, and the week window if it is capped. */
  function WalletOf(s: Store, cfg: Config, now: Time): Wallet {
    Wallet(BudgetLedger(Day, cfg.dayCap, RowsIn(Day, s.day, now)),
           if cfg.weekCap.None? then None
           else Some(BudgetLedger(Week, cfg.weekCap, RowsIn(Week, s.week, now))))
  }

  /** Adopting the open work items of `adopts` restarts their tasks; an adopted cancel item also
      records its request again. */
  function Adopted(s: Store, adopts: set<JobId>): set<JobId> {
    set j | j in s.cells && j in adopts && s.cells[j].item.Some?
  }

  function Adopt(s: Store, adopts: set<JobId>): Store {
    s.(cancels := s.cancels + set j | j in s.cells && j in adopts && s.cells[j].item == Some(CancelItem))
  }

  /** A placing job without a work item and without a live task. */
  predicate Stranded(s: Store, jid: JobId, live: set<JobId>) {
    jid in s.cells && s.cells[jid].rec.state.Placing? && s.cells[jid].item.None? && jid !in live
  }

  function RecoverCell(c: Cell): Cell {
    c.(rec := c.rec.(state := Queued, placement := None)).Log(ARollback)
  }

  /** A stranded job is rolled back. */
  function Recover(s: Store, jid: JobId, live: set<JobId>, now: Time): Store {
    if !Stranded(s, jid, live) then s
    else s.Put(jid, RecoverCell(s.cells[jid])).SettleIf(s.cells[jid].LivePaid(), jid, 0.0, now)
  }

  function RecoverAll(s: Store, order: seq<JobId>, live: set<JobId>, now: Time): (r: Store)
    ensures r.cells.Keys == s.cells.Keys
  {
    if order == [] then s
    else Recover(RecoverAll(s, order[..|order| - 1], live, now), order[|order| - 1], live, now)
  }

  function DecisionsOn(s: Store, order: seq<JobId>, slots: seq<Slot>, now: Time, cfg: Config): seq<Decision>
    requires Enumerates(order, s.cells.Keys)
  {
    Schedule(SnapshotOf(s, order), slots, WalletOf(s, cfg, now), now, cfg.policy)
  }

  function Pass(s: Store, order: seq<JobId>, slots: seq<Slot>, now: Time, cfg: Config): Store
    requires Enumerates(order, s.cells.Keys)
  {
    EnactAll(s, DecisionsOn(s, order, slots, now, cfg), now)
  }

  // ------------------------------------------------------------------ everything else

  /** How a failed placement is booked before its retry. */
  datatype Bookkeeping = Bookkeeping(countAttempt: Option<string>, avoidUntil: Option<Time>, backoffUntil: Time)

  function Book(rec: Job, b: Bookkeeping): Job {
    var r := if b.countAttempt.None? then rec
             else rec.(attempts := rec.attempts + 1, lastError := b.countAttempt, notBefore := Some(b.backoffUntil));
    if b.avoidUntil.None? || rec.placement.None? then r
    else r.(avoid := r.avoid[rec.placement.value.provider := b.avoidUntil.value])
  }

  datatype Step =
    | Submit(spec: JobSpec, at: Time)
    | AskCancel(jid: JobId)
    | Tick(order: seq<JobId>, slots: seq<Slot>, now: Time, cfg: Config, live: set<JobId>, adopts: set<JobId>)
    | Provision(jid: JobId)
    | Activate(jid: JobId)
    | Unwind(jid: JobId, booked: Option<Bookkeeping>, now: Time)
    | Defer(jid: JobId, until: Time, now: Time)
    | CaptureDone(jid: JobId, sacrificed: bool)
    | ReapDone(jid: JobId)
    | CancelDone(jid: JobId, now: Time)
    | CancelFails(jid: JobId)
    | Finish(jid: JobId, ok: bool, now: Time)
    | WorkerDead(jid: JobId)
    | ShowStatus(jid: JobId, status: JobStatus)
    | Restart

  predicate PlaceUnderWay(c: Cell) {
    c.rec.state.Placing? && c.item == Some(PlaceItem)
  }

  /** The rent stage found or made the resource: recorded with its event, once a placement. */
  function ProvisionCell(c: Cell): Cell {
    if !PlaceUnderWay(c) || c.rec.placement.None? || Provisioned(c.trace) then c
    else c.(minted := c.minted + {c.rec.placement.value.provider}).Log(AProvision)
  }

  function ActivateCell(c: Cell): Cell {
    if !PlaceUnderWay(c) || !Provisioned(c.trace) then c
    else c.(rec := c.rec.(state := Running), item := None).Log(AActivate)
  }

  /** Nothing left to shop: back to the queue with a pacing timer, nothing counted. */
  function DeferCell(c: Cell, until: Time): Cell {
    c.(rec := c.rec.(state := Queued, placement := None, notBefore := Some(until)), item := None).Log(ARollback)
  }

  /** Unwinding a placement: rolled back while nothing is provisioned, else activated - dead
      unless a cancel preempted it - so that the dead-placement ladder can release it. */
  function UnwindCell(c: Cell, booked: Option<Bookkeeping>): Cell {
    var rec := if booked.Some? then Book(c.rec, booked.value) else c.rec;
    if !Provisioned(c.trace) then
      c.(rec := rec.(state := Queued, placement := None), item := None).Log(ARollback)
    else
      c.(rec := rec.(state := Running, lastStatus := if booked.Some? then Some(Lost) else rec.lastStatus),
         item := None).Log(AActivate)
  }

  function UnwindStore(s: Store, jid: JobId, booked: Option<Bookkeeping>, now: Time): Store
    requires jid in s.cells
  {
    var c := s.cells[jid];
    var s' := s.Put(jid, UnwindCell(c, booked));
    if Provisioned(c.trace) then s' else s'.SettleIf(c.LivePaid(), jid, 0.0, now)
  }

  /** A durable capture, or a sacrificed one, marks the record; off a live or ended placement
      the item just closes. */
  function CaptureCell(c: Cell, sacrificed: bool): Cell {
    if c.item != Some(CaptureItem) then c
    else
      var noted := if sacrificed then c.Log(ACaptureSacrificed) else c;
      if !(c.rec.state.Terminal() || c.rec.state.Running?) then noted.(item := None)
      else noted.(rec := c.rec.(logsCached := true, outputsCached := true), item := None).Log(ACapture)
  }

  /** A confirmed release; booked only if the job is still where the item's mode expects it. */
  function ReapCell(c: Cell): Cell {
    if !(c.item.Some? && c.item.value.ReapItem?) then c
    else
      var released := if c.rec.placement.None? then c.minted else c.minted - {c.rec.placement.value.provider};
      if !c.item.value.lost && c.rec.state.Terminal() then
        c.(rec := c.rec.(reaped := true), item := None, minted := released).Log(AReap)
      else if c.item.value.lost && c.rec.state.Running? then
        c.(item := None, minted := released).Log(AReleaseLost)
      else c.(item := None)
  }

  function CancelCell(c: Cell): Cell {
    c.(rec := c.rec.(state := Cancelled, lastStatus := Some(Stopped)), item := None).Log(ACancel)
  }

  /** The cancelled placement is charged what it had reserved. */
  function CancelStore(s: Store, jid: JobId, now: Time): Store
    requires jid in s.cells
  {
    var paid := s.cells[jid].LivePaid();
    s.Put(jid, CancelCell(s.cells[jid])).SettleIf(paid, jid, if paid.Some? then paid.value else 0.0, now)
  }

  /** A cancel item runs out: an unfinished placement is unwound first, then the job ends. */
  function CancelDoneStore(s: Store, jid: JobId, now: Time): Store
    requires jid in s.cells
  {
    var c := s.cells[jid];
    if c.item != Some(CancelItem) then s
    else if c.rec.state.Terminal() then s.Put(jid, c.(item := None)).(cancels := s.cancels - {jid})
    else
      var settled := if c.rec.state.Placing? then UnwindStore(s, jid, None, now) else s;
      CancelStore(settled, jid, now).(cancels := s.cancels - {jid})
  }

  /** A cancel that could not be honoured closes its item and leaves the job where it is - a
      placing one too, if unwinding it was what failed. */
  function CancelFailsStore(s: Store, jid: JobId): Store
    requires jid in s.cells
  {
    var c := s.cells[jid];
    if c.item != Some(CancelItem) then s
    else s.Put(jid, c.(item := None).Log(ACancelFailed)).(cancels := s.cancels - {jid})
  }

  function FinishCell(c: Cell, ok: bool): Cell {
    c.(rec := c.rec.(state := if ok then Succeeded else Failed,
                     lastStatus := Some(if ok then Done else Broke))).Log(AFinish(ok))
  }

  function DeadCell(c: Cell): Cell {
    if !c.rec.state.Running? then c else c.(rec := c.rec.(lastStatus := Some(Lost))).Log(AWorkerDead)
  }

  /** Display data: written without an event, and never as the death marker. */
  function ShowCell(c: Cell, status: JobStatus): Cell {
    if status == Lost then c else c.(rec := c.rec.(lastStatus := Some(status)))
  }

  function StepOn(s: Store, step: Step): Store
    requires !step.Submit? && !step.AskCancel? && !step.Tick? && !step.Restart?
    requires step.jid in s.cells
  {
    var jid := step.jid;
    var c := s.cells[jid];
    match step
    case Provision(_) => s.Put(jid, ProvisionCell(c))
    case Activate(_) => s.Put(jid, ActivateCell(c))
    case Unwind(_, booked, now) => if PlaceUnderWay(c) then UnwindStore(s, jid, booked, now) else s
    case Defer(_, until, now) =>
      if PlaceUnderWay(c) then s.Put(jid, DeferCell(c, until)).SettleIf(c.LivePaid(), jid, 0.0, now) else s
    case CaptureDone(_, sacrificed) => s.Put(jid, CaptureCell(c, sacrificed))
    case ReapDone(_) => s.Put(jid, ReapCell(c))
    case CancelDone(_, now) => CancelDoneStore(s, jid, now)
    case CancelFails(_) => CancelFailsStore(s, jid)
    case Finish(_, ok, now) =>
      if c.rec.state.Running? then
        s.Put(jid, FinishCell(c, ok))
         .SettleIf(c.LivePaid(), jid, if c.LivePaid().Some? then c.LivePaid().value else 0.0, now)
      else s
    case WorkerDead(_) => s.Put(jid, DeadCell(c))
    case ShowStatus(_, status) => s.Put(jid, ShowCell(c, status))
  }

  function NewCell(spec: JobSpec, at: Time): Cell {
    Cell(Job(spec, Some(at), Queued, None, None, false, false, false, 0, None, map[], None), None, {}, [ASubmit])
  }

  /** One pass as the engine runs it: adopt, recover, decide, enact. */
  function Round(s: Store, order: seq<JobId>, slots: seq<Slot>, now: Time, cfg: Config, live: set<JobId>,
                 adopts: set<JobId>): Store
    requires Enumerates(order, s.cells.Keys)
  {
    Pass(RecoverAll(Adopt(s, adopts), order, live, now), order, slots, now, cfg)
  }

  function Next(s: Store, step: Step): Store {
    match step
    case Submit(spec, at) =>
      if spec.jobId in s.cells then s
      else s.Put(spec.jobId, NewCell(spec, at))
    case AskCancel(jid) => s.(cancels := s.cancels + {jid})
    case Restart => s.(cancels := {})
    case Tick(order, slots, now, cfg, live, adopts) =>
      if !Enumerates(order, s.cells.Keys) then s else Round(s, order, slots, now, cfg, live, adopts)
    case _ => if step.jid in s.cells then StepOn(s, step) else s
  }

  /** The store after a whole run. */
  function Run(steps: seq<Step>): Store {
    if steps == [] then EMPTY else Next(Run(steps[..|steps| - 1]), steps[|steps| - 1])
  }
}
