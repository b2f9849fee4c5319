/** The budget ledger: calendar windows, affordability, commit and realize. */
module Budget {
  import opened Wrappers
  import opened Models

  datatype Kind = Committed | Spent
  datatype Entry = Entry(jobId: JobId, provider: string, amount: real, kind: Kind, at: Time)
  datatype Window = Day | Week

  /** UTC calendar day, counted from the epoch. */
  function DayOf(t: Time): int {
    (t / 86400.0).Floor
  }

  /** Day 0 of the epoch is a Thursday, so Monday-based (ISO) weeks start at day -3. Two
      days share an ISO year and week number exactly when they share this number. */
  function WeekOf(t: Time): int {
    (DayOf(t) + 3) / 7
  }

  predicate SameWindow(w: Window, a: Time, b: Time) {
    match w
    case Day => DayOf(a) == DayOf(b)
    case Week => WeekOf(a) == WeekOf(b)
  }

  /** Everything charged or reserved in `w`'s window around `now`. */
  function TotalOf(w: Window, entries: seq<Entry>, now: Time): real {
    if entries == [] then 0.0
    else
      var e := entries[|entries| - 1];
      TotalOf(w, entries[..|entries| - 1], now) + (if SameWindow(w, e.at, now) then e.amount else 0.0)
  }

  /** When calendar window `k` opens: a day at midnight UTC, a week at midnight of its Monday.
      Day 4 of the epoch, 1970-01-05, is a Monday. */
  function Opens(w: Window, k: int): Time {
    match w
    case Day => 86400.0 * k as real
    case Week => 86400.0 * (7 * k + 4) as real
  }

  /** The amounts of the rows dated from `from` up to, but not at, `until`. */
  function SumBetween(entries: seq<Entry>, from: Time, until: Time): real {
    if entries == [] then 0.0
    else
      var e := entries[|entries| - 1];
      SumBetween(entries[..|entries| - 1], from, until) + (if from <= e.at < until then e.amount else 0.0)
  }

  datatype BudgetLedger = BudgetLedger(window: Window, cap: Option<real>, entries: seq<Entry>) {
    function InWindowTotal(now: Time): real {
      TotalOf(window, entries, now)
    }

    predicate CanAfford(amount: real, now: Time) {
      cap.None? || InWindowTotal(now) + amount <= cap.value
    }

    function Commit(jobId: JobId, provider: string, amount: real, now: Time): BudgetLedger {
      this.(entries := entries + [Entry(jobId, provider, amount, Committed, now)])
    }

    function Realize(jobId: JobId, actual: real, now: Time): BudgetLedger {
      this.(entries := RealizeRows(entries, jobId, actual, now))
    }

    /** No calendar window holds more than the cap. */
    ghost predicate UnderCap() {
      cap.Some? ==> forall k: int :: SumBetween(entries, Opens(window, k), Opens(window, k + 1)) <= cap.value
    }

    /** No instant sees more than the cap in its window. */
    ghost predicate UnderCapAlways() {
      cap.Some? ==> forall t: Time :: InWindowTotal(t) <= cap.value
    }
  }

  /** A primary-window ledger that may also enforce a secondary window. */
  datatype Wallet = Wallet(primary: BudgetLedger, secondary: Option<BudgetLedger>) {
    predicate CanAfford(amount: real, now: Time) {
      primary.CanAfford(amount, now) && (secondary.None? || secondary.value.CanAfford(amount, now))
    }

    function Commit(jobId: JobId, provider: string, amount: real, now: Time): Wallet {
      Wallet(primary.Commit(jobId, provider, amount, now),
             if secondary.None? then None
             else Some(secondary.value.Commit(jobId, provider, amount, now)))
    }
  }

  // ------------------------------------------------------------------ realize

  predicate IsCommitted(e: Entry, jobId: JobId) {
    e.jobId == jobId && e.kind == Committed
  }

  /** `i` is the row a realize of `jobId` turns into a spend: committed for that job, no
      other such row is earlier, and none at the same time stands before it. */
  predicate IsEarliestCommitted(entries: seq<Entry>, jobId: JobId, i: nat) {
    && i < |entries| && IsCommitted(entries[i], jobId)
    && (forall k :: 0 <= k < |entries| && IsCommitted(entries[k], jobId) ==>
          entries[i].at <= entries[k].at)
    && (forall k :: 0 <= k < i && IsCommitted(entries[k], jobId) ==> entries[i].at < entries[k].at)
  }

  predicate HasCommitted(entries: seq<Entry>, jobId: JobId) {
    exists k :: 0 <= k < |entries| && IsCommitted(entries[k], jobId)
  }

  /** The scan that finds that row. */
  function EarliestCommitted(entries: seq<Entry>, jobId: JobId): (r: Option<nat>)
    ensures r.None? <==> !HasCommitted(entries, jobId)
    ensures r.Some? ==> IsEarliestCommitted(entries, jobId, r.value)
  {
    if entries == [] then None
    else
      var n := |entries| - 1;
      var prior := EarliestCommitted(entries[..n], jobId);
      assert forall k :: 0 <= k < n ==> entries[..n][k] == entries[k];
      if IsCommitted(entries[n], jobId) && (prior.None? || entries[n].at < entries[prior.value].at)
      then Some(n) else prior
  }

  function RealizeRows(entries: seq<Entry>, jobId: JobId, actual: real, now: Time): seq<Entry> {
    match EarliestCommitted(entries, jobId)
    case None => entries + [Entry(jobId, "", actual, Spent, now)]
    case Some(i) => entries[i := Entry(jobId, entries[i].provider, actual, Spent, entries[i].at)]
  }

  /** The ledger's own scan: one pass that keeps the best index and time seen so far. */
  method Realize(ledger: BudgetLedger, jobId: JobId, actual: real, now: Time)
    returns (r: BudgetLedger)
    ensures r == ledger.Realize(jobId, actual, now)
  {
    var committedIdx: Option<nat> := None;
    var committedAt: Time := 0.0;
    for i := 0 to |ledger.entries|
      invariant committedIdx == EarliestCommitted(ledger.entries[..i], jobId)
      invariant committedIdx.Some? ==> committedAt == ledger.entries[committedIdx.value].at
    {
      assert ledger.entries[..i + 1][..i] == ledger.entries[..i];
      var e := ledger.entries[i];
      if e.jobId == jobId && e.kind == Committed {
        if committedIdx.None? || e.at < committedAt {
          committedIdx, committedAt := Some(i), e.at;
        }
      }
    }
    assert ledger.entries[..|ledger.entries|] == ledger.entries;
    if committedIdx.None? {
      return ledger.(entries := ledger.entries + [Entry(jobId, "", actual, Spent, now)]);
    }
    var original := ledger.entries[committedIdx.value];
    r := ledger.(entries := ledger.entries[committedIdx.value
           := Entry(jobId, original.provider, actual, Spent, original.at)]);
  }

  // ------------------------------------------------------------------ totals

  lemma {:induction false} TotalAppend(w: Window, entries: seq<Entry>, e: Entry, t: Time)
    ensures TotalOf(w, entries + [e], t)
         == TotalOf(w, entries, t) + (if SameWindow(w, e.at, t) then e.amount else 0.0)
  {
    assert (entries + [e])[..|entries|] == entries;
  }

  /** Replacing one row moves a window's total by the difference in that row. */
  lemma {:induction false} TotalReplace(w: Window, entries: seq<Entry>, i: nat, e: Entry, t: Time)
    requires i < |entries| && entries[i].at == e.at
    ensures TotalOf(w, entries[i := e], t)
         == TotalOf(w, entries, t) + (if SameWindow(w, e.at, t) then e.amount - entries[i].amount else 0.0)
  {
    var n := |entries| - 1;
    if i == n {
      assert entries[i := e][..n] == entries[..n];
    } else {
      assert entries[i := e][..n] == entries[..n][i := e];
      TotalReplace(w, entries[..n], i, e, t);
    }
  }

  lemma {:induction false} TotalSameWindow(w: Window, entries: seq<Entry>, a: Time, b: Time)
    requires SameWindow(w, a, b)
    ensures TotalOf(w, entries, a) == TotalOf(w, entries, b)
  {
    if entries != [] {
      TotalSameWindow(w, entries[..|entries| - 1], a, b);
    }
  }

  // ------------------------------------------------------------------ calendar windows

  /** The calendar window an instant lies in. */
  lemma WindowAt(w: Window, t: Time) returns (k: int)
    ensures Opens(w, k) <= t < Opens(w, k + 1)
  {
    k := match w case Day => DayOf(t) case Week => WeekOf(t) - 1;
  }

  lemma SameWindowMeans(w: Window, a: Time, b: Time, k: int)
    requires Opens(w, k) <= b < Opens(w, k + 1)
    ensures SameWindow(w, a, b) <==> Opens(w, k) <= a < Opens(w, k + 1)
  {
    assert DayOf(b) == (if w.Day? then k else DayOf(b));
    assert w.Week? ==> 7 * k + 4 <= DayOf(b) < 7 * k + 11;
    assert DayOf(a) as real * 86400.0 <= a < (DayOf(a) + 1) as real * 86400.0;
  }

  /** What a total counts is what is dated within the calendar window around the instant. */
  lemma {:induction false} TotalIsSum(w: Window, entries: seq<Entry>, t: Time, k: int)
    requires Opens(w, k) <= t < Opens(w, k + 1)
    ensures TotalOf(w, entries, t) == SumBetween(entries, Opens(w, k), Opens(w, k + 1))
  {
    hide SameWindow;
    if entries != [] {
      TotalIsSum(w, entries[..|entries| - 1], t, k);
      SameWindowMeans(w, entries[|entries| - 1].at, t, k);
    }
  }

  /** An amount is affordable exactly when it fits under the cap next to what is dated within
      the calendar window of now. */
  lemma CanAffordIff(ledger: BudgetLedger, amount: real, now: Time, k: int)
    requires Opens(ledger.window, k) <= now < Opens(ledger.window, k + 1)
    ensures ledger.CanAfford(amount, now) <==>
      ledger.cap.None?
      || SumBetween(ledger.entries, Opens(ledger.window, k), Opens(ledger.window, k + 1)) + amount <= ledger.cap.value
  {
    TotalIsSum(ledger.window, ledger.entries, now, k);
  }

  lemma UnderCapIff(ledger: BudgetLedger)
    ensures ledger.UnderCap() <==> ledger.UnderCapAlways()
  {
    hide Opens, SameWindow, TotalOf, SumBetween;
    if ledger.cap.Some? {
      if ledger.UnderCap() {
        forall t: Time ensures ledger.InWindowTotal(t) <= ledger.cap.value {
          var k := WindowAt(ledger.window, t);
          TotalIsSum(ledger.window, ledger.entries, t, k);
        }
      }
      if ledger.UnderCapAlways() {
        forall k: int
          ensures SumBetween(ledger.entries, Opens(ledger.window, k), Opens(ledger.window, k + 1)) <= ledger.cap.value
        {
          var t := Opens(ledger.window, k);
          OpensInOrder(ledger.window, k);
          TotalIsSum(ledger.window, ledger.entries, t, k);
          assert ledger.InWindowTotal(t) <= ledger.cap.value;
        }
      }
    }
  }

  lemma OpensInOrder(w: Window, k: int)
    ensures Opens(w, k) < Opens(w, k + 1)
  {
  }

  // ------------------------------------------------------------------ budget over runs

  /** A guarded commit keeps every window of every instant under the cap. */
  lemma CommitKeepsCap(ledger: BudgetLedger, jobId: JobId, provider: string, amount: real, now: Time)
    requires ledger.UnderCap() && ledger.CanAfford(amount, now)
    ensures ledger.Commit(jobId, provider, amount, now).UnderCap()
  {
    hide BudgetLedger.UnderCap, SameWindow;
    var e := Entry(jobId, provider, amount, Committed, now);
    UnderCapIff(ledger);
    UnderCapIff(ledger.Commit(jobId, provider, amount, now));
    forall t: Time ensures ledger.cap.Some? ==> TotalOf(ledger.window, ledger.entries + [e], t) <= ledger.cap.value {
      TotalAppend(ledger.window, ledger.entries, e, t);
      if SameWindow(ledger.window, now, t) {
        TotalSameWindow(ledger.window, ledger.entries, now, t);
      }
      assert ledger.InWindowTotal(t) == TotalOf(ledger.window, ledger.entries, t);
    }
  }

  /** What a realize does to one window's total: the earliest reservation is replaced by the
      actual in the window it was made in, or a stray actual lands in the window of `now`. */
  lemma RealizeTotal(w: Window, entries: seq<Entry>, jobId: JobId, actual: real, now: Time, t: Time)
    ensures TotalOf(w, RealizeRows(entries, jobId, actual, now), t) == TotalOf(w, entries, t)
         + match EarliestCommitted(entries, jobId)
           case None => if SameWindow(w, now, t) then actual else 0.0
           case Some(i) => if SameWindow(w, entries[i].at, t) then actual - entries[i].amount else 0.0
  {
    match EarliestCommitted(entries, jobId)
    case None => TotalAppend(w, entries, Entry(jobId, "", actual, Spent, now), t);
    case Some(i) =>
      TotalReplace(w, entries, i, Entry(jobId, entries[i].provider, actual, Spent, entries[i].at), t);
  }

  /** One realize keeps every window under the cap exactly when the actual fits where it
      lands: next to the other rows of the reservation's window, or - with no reservation to
      replace - on top of the window of `now`. */
  lemma RealizeKeepsCapIff(ledger: BudgetLedger, jobId: JobId, actual: real, now: Time)
    requires ledger.UnderCap() && ledger.cap.Some?
    ensures ledger.Realize(jobId, actual, now).UnderCap() <==>
      match EarliestCommitted(ledger.entries, jobId)
      case None => ledger.CanAfford(actual, now)
      case Some(i) => ledger.CanAfford(actual - ledger.entries[i].amount, ledger.entries[i].at)
  {
    hide BudgetLedger.UnderCap, SameWindow;
    var after := ledger.Realize(jobId, actual, now);
    UnderCapIff(ledger);
    UnderCapIff(after);
    var r := EarliestCommitted(ledger.entries, jobId);
    var where := if r.None? then now else ledger.entries[r.value].at;
    forall t: Time ensures after.InWindowTotal(t) == ledger.InWindowTotal(t)
      + (if SameWindow(ledger.window, where, t)
         then (if r.None? then actual else actual - ledger.entries[r.value].amount) else 0.0)
    {
      RealizeTotal(ledger.window, ledger.entries, jobId, actual, now, t);
    }
    forall t: Time | SameWindow(ledger.window, where, t)
      ensures ledger.InWindowTotal(t) == ledger.InWindowTotal(where)
    {
      TotalSameWindow(ledger.window, ledger.entries, where, t);
    }
    assert SameWindow(ledger.window, where, where) by {
      SameAsItself(ledger.window, where);
    }
    assert after.InWindowTotal(where) == after.InWindowTotal(where);
  }

  lemma SameAsItself(w: Window, t: Time)
    ensures SameWindow(w, t, t)
  {
  }

  /** Spending at most what was reserved therefore never breaks a cap. */
  lemma RealizeWithinReservationKeepsCap(ledger: BudgetLedger, jobId: JobId, actual: real, now: Time)
    requires ledger.UnderCap()
    requires EarliestCommitted(ledger.entries, jobId).Some?
    requires actual <= ledger.entries[EarliestCommitted(ledger.entries, jobId).value].amount
    ensures ledger.Realize(jobId, actual, now).UnderCap()
  {
    hide BudgetLedger.UnderCap;
    UnderCapIff(ledger);
    UnderCapIff(ledger.Realize(jobId, actual, now));
    if ledger.cap.Some? {
      RealizeKeepsCapIff(ledger, jobId, actual, now);
      var at := ledger.entries[EarliestCommitted(ledger.entries, jobId).value].at;
      assert ledger.InWindowTotal(at) <= ledger.cap.value;
    }
  }

  datatype LedgerOp =
    | DoCommit(jobId: JobId, provider: string, amount: real, at: Time)
    | DoRealize(jobId: JobId, amount: real, at: Time)

  function Apply(ledger: BudgetLedger, op: LedgerOp): BudgetLedger {
    match op
    case DoCommit(j, p, a, t) => ledger.Commit(j, p, a, t)
    case DoRealize(j, a, t) => ledger.Realize(j, a, t)
  }

  /** A commit is made only when affordable, a realize only of an existing reservation and
      for no more than it. */
  predicate Disciplined(ledger: BudgetLedger, op: LedgerOp) {
    match op
    case DoCommit(_, _, a, t) => ledger.CanAfford(a, t)
    case DoRealize(j, a, _) =>
      var r := EarliestCommitted(ledger.entries, j);
      r.Some? && a <= ledger.entries[r.value].amount
  }

  function Replay(ledger: BudgetLedger, ops: seq<LedgerOp>): BudgetLedger
    decreases |ops|
  {
    if ops == [] then ledger else Replay(Apply(ledger, ops[0]), ops[1..])
  }

  predicate AllDisciplined(ledger: BudgetLedger, ops: seq<LedgerOp>)
    decreases |ops|
  {
    ops == [] || (Disciplined(ledger, ops[0]) && AllDisciplined(Apply(ledger, ops[0]), ops[1..]))
  }

  /** Any disciplined sequence, at any instants, keeps every calendar window under its cap. */
  lemma {:induction false} BudgetOverRuns(ledger: BudgetLedger, ops: seq<LedgerOp>)
    requires ledger.UnderCap() && AllDisciplined(ledger, ops)
    ensures Replay(ledger, ops).UnderCap()
    decreases |ops|
  {
    hide BudgetLedger.UnderCap;
    if ops != [] {
      match ops[0] {
        case DoCommit(j, p, a, t) => CommitKeepsCap(ledger, j, p, a, t);
        case DoRealize(j, a, t) => RealizeWithinReservationKeepsCap(ledger, j, a, t);
      }
      BudgetOverRuns(Apply(ledger, ops[0]), ops[1..]);
    }
  }

  ghost predicate SameTotals(w: Window, a: seq<Entry>, b: seq<Entry>) {
    forall t: Time :: TotalOf(w, a, t) == TotalOf(w, b, t)
  }

  /** Commit followed by a void (a zero realize) leaves every window total as it was exactly
      when the row the void picks carries the amount and the window of the new commit (or
      neither carries anything). An older reservation of the same job is picked first. */
  lemma CommitThenVoid(w: Window, entries: seq<Entry>, jobId: JobId, provider: string, amount: real, now: Time,
                       later: Time)
    ensures
      var committed := entries + [Entry(jobId, provider, amount, Committed, now)];
      var picked := EarliestCommitted(committed, jobId).value;
      SameTotals(w, RealizeRows(committed, jobId, 0.0, later), entries)
      <==> (committed[picked].amount == amount
            && (amount == 0.0 || SameWindow(w, committed[picked].at, now)))
  {
    var e := Entry(jobId, provider, amount, Committed, now);
    var committed := entries + [e];
    assert IsCommitted(committed[|entries|], jobId);
    var picked := EarliestCommitted(committed, jobId).value;
    var after := RealizeRows(committed, jobId, 0.0, later);
    forall t: Time ensures TotalOf(w, after, t) - TotalOf(w, entries, t)
      == (if SameWindow(w, now, t) then amount else 0.0)
       - (if SameWindow(w, committed[picked].at, t) then committed[picked].amount else 0.0)
    {
      TotalAppend(w, entries, e, t);
      RealizeTotal(w, committed, jobId, 0.0, later, t);
    }
    var back := committed[picked];
    if back.amount == amount && (amount == 0.0 || SameWindow(w, back.at, now)) {
      assert SameTotals(w, after, entries);
    } else {
      assert TotalOf(w, after, now) != TotalOf(w, entries, now)
          || TotalOf(w, after, back.at) != TotalOf(w, entries, back.at);
    }
  }

  /** In particular it does so for a job with no reservation open. */
  lemma {:induction false} CommitThenVoidOfFreshJob(w: Window, entries: seq<Entry>, jobId: JobId, provider: string,
                                                    amount: real, now: Time, later: Time, t: Time)
    requires !HasCommitted(entries, jobId)
    ensures TotalOf(w, RealizeRows(entries + [Entry(jobId, provider, amount, Committed, now)],
                                   jobId, 0.0, later), t)
         == TotalOf(w, entries, t)
  {
    var committed := entries + [Entry(jobId, provider, amount, Committed, now)];
    assert IsCommitted(committed[|entries|], jobId);
    var picked := EarliestCommitted(committed, jobId).value;
    assert IsEarliestCommitted(committed, jobId, picked);
    CommitThenVoid(w, entries, jobId, provider, amount, now, later);
  }

  /** A job with an older reservation open: the void closes that one, and the new commit keeps
      counting on its own day. */
  lemma VoidPicksTheOlder(jobId: JobId, provider: string, later: Time)
    ensures
      var entries := [Entry(jobId, provider, 3.0, Committed, 0.0)];
      var after := RealizeRows(entries + [Entry(jobId, provider, 5.0, Committed, 86400.0)], jobId, 0.0, later);
      && !SameTotals(Day, after, entries)
      && TotalOf(Day, entries, 86400.0) == 0.0 && TotalOf(Day, after, 86400.0) == 5.0
  {
    var first := Entry(jobId, provider, 3.0, Committed, 0.0);
    var entries, more := [first], Entry(jobId, provider, 5.0, Committed, 86400.0);
    var committed := entries + [more];
    assert IsCommitted(committed[0], jobId);
    var picked := EarliestCommitted(committed, jobId).value;
    assert IsEarliestCommitted(committed, jobId, picked);
    CommitThenVoid(Day, entries, jobId, provider, 5.0, 86400.0, later);
    RealizeTotal(Day, committed, jobId, 0.0, later, 86400.0);
    TotalAppend(Day, entries, more, 86400.0);
    TotalAppend(Day, [], first, 86400.0);
    assert [] + [first] == entries;
  }
}
