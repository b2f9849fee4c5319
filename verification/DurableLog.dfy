/** The durable log of a job's stream: an attempt-segmented file with a sidecar resume point,
    written so that a process may die between any two effects, or halfway through a write. */
module DurableLog {
  import opened Wrappers
  import opened LineParser

  /** The segment separator that opens an attempt. */
  function Header(attempt: nat): (h: Bytes)
    ensures |h| > 0
  {
    "----- omnirun attempt " + Decimal(attempt) + " -----\n"
  }

  /** The sidecar: `offset` bytes of the attempt's stream are in the file below `filePos`. */
  datatype Resume = Resume(attempt: nat, offset: nat, filePos: nat)
  datatype Disk = Disk(file: Bytes, side: Option<Resume>)

  /** The effects on disk: appending, cutting (or zero-filling) to a size, and the atomic
      replacement of the sidecar. */
  datatype Op = Write(data: Bytes) | Truncate(size: nat) | Save(resume: Resume)

  function Apply(d: Disk, op: Op): Disk {
    match op
    case Write(data) => d.(file := d.file + data)
    case Truncate(size) =>
      d.(file := if size <= |d.file| then d.file[..size] else d.file + seq(size - |d.file|, _ => '\0'))
    case Save(r) => d.(side := Some(r))
  }

  function ApplyAll(d: Disk, ops: seq<Op>): Disk {
    if ops == [] then d else Apply(ApplyAll(d, ops[..|ops| - 1]), ops[|ops| - 1])
  }

  /** What becomes of a batch of effects: all done, or the process dies after `done` of them,
      with `torn` bytes of the next one if that is a write. */
  datatype Fate = Completes | Dies(done: nat, torn: nat)

  function Effect(d: Disk, ops: seq<Op>, fate: Fate): Disk {
    match fate
    case Completes => ApplyAll(d, ops)
    case Dies(done, torn) =>
      if done >= |ops| then ApplyAll(d, ops)
      else
        var mid := ApplyAll(d, ops[..done]);
        if ops[done].Write? then
          Apply(mid, Write(ops[done].data[..if torn < |ops[done].data| then torn else |ops[done].data|]))
        else mid
  }

  /** Connecting: a new attempt gets its header below everything; the same attempt drops what
      the sidecar does not vouch for. */
  predicate Resumes(d: Disk, attempt: nat) {
    d.side.Some? && d.side.value.attempt == attempt
  }

  function ConnectOps(d: Disk, attempt: nat): seq<Op> {
    if Resumes(d, attempt) then [Truncate(d.side.value.filePos)]
    else [Write(Header(attempt)), Save(Resume(attempt, 0, |d.file| + |Header(attempt)|))]
  }

  function ChunkOps(d: Disk, r: Resume, chunk: Bytes): seq<Op> {
    [Write(chunk), Save(Resume(r.attempt, r.offset + |chunk|, |d.file| + |chunk|))]
  }

  // ------------------------------------------------------------------ the machine

  /** Byte `i` of the canonical stream of an attempt. */
  type Source = (nat, nat) -> Byte

  function Stream(src: Source, attempt: nat, from: nat, n: nat): (b: Bytes)
    ensures |b| == n
    ensures forall i :: 0 <= i < n ==> b[i] == src(attempt, from + i)
  {
    seq(n, i requires 0 <= i < n => src(attempt, from + i))
  }

  /** The disk, the open connection's resume point, and the latest attempt started. */
  datatype State = State(disk: Disk, conn: Option<Resume>, latest: nat)

  const FRESH := State(Disk([], None), None, 0)

  datatype Event = Connect(attempt: nat, fate: Fate) | Chunk(n: nat, fate: Fate) | Hangup

  /** Attempts count activations of the job, so they never go down. */
  predicate Legal(s: State, e: Event) {
    e.Connect? ==> e.attempt >= s.latest
  }

  function Next(s: State, e: Event, src: Source): State {
    match e
    case Connect(attempt, fate) =>
      var d := Effect(s.disk, ConnectOps(s.disk, attempt), fate);
      State(d, if fate.Completes? then d.side else None, attempt)
    case Chunk(n, fate) =>
      if s.conn.None? then s
      else
        var r := s.conn.value;
        var d := Effect(s.disk, ChunkOps(s.disk, r, Stream(src, r.attempt, r.offset, n)), fate);
        State(d, if fate.Completes? then d.side else None, s.latest)
    case Hangup => s.(conn := None)
  }

  function Run(events: seq<Event>, src: Source): State {
    if events == [] then FRESH else Next(Run(events[..|events| - 1], src), events[|events| - 1], src)
  }

  ghost predicate AllLegal(events: seq<Event>, src: Source) {
    forall k :: 0 <= k < |events| ==> Legal(Run(events[..k], src), events[k])
  }

  // ------------------------------------------------------------------ the shape of the file

  /** One segment: the first `head` bytes of an attempt's header, then the first `body` bytes
      of its stream. */
  datatype Seg = Seg(attempt: nat, head: nat, body: nat)

  predicate SegOk(g: Seg) {
    g.head <= |Header(g.attempt)| && (g.body > 0 ==> g.head == |Header(g.attempt)|)
  }

  function SegBytes(g: Seg, src: Source): Bytes
    requires SegOk(g)
  {
    Header(g.attempt)[..g.head] + Stream(src, g.attempt, 0, g.body)
  }

  predicate SegsOk(segs: seq<Seg>) {
    forall k :: 0 <= k < |segs| ==> SegOk(segs[k])
  }

  function Render(segs: seq<Seg>, src: Source): Bytes
    requires SegsOk(segs)
  {
    if segs == [] then [] else Render(segs[..|segs| - 1], src) + SegBytes(segs[|segs| - 1], src)
  }

  /** Attempts in order, and an attempt's stream bytes only in the last of its segments. */
  predicate InOrder(segs: seq<Seg>, latest: nat) {
    && (forall k :: 0 <= k < |segs| ==> segs[k].attempt <= latest)
    && forall j, k :: 0 <= j < k < |segs| ==>
         segs[j].attempt <= segs[k].attempt && (segs[j].attempt == segs[k].attempt ==> segs[j].body == 0)
  }

  /** Segment `i` is the one the sidecar vouches for: it holds the whole header and at least
      `offset` bytes, `filePos` is where those end, and everything behind it is header only. */
  predicate Vouched(segs: seq<Seg>, r: Resume, i: nat, src: Source)
    requires SegsOk(segs)
  {
    && i < |segs|
    && segs[i].attempt == r.attempt && segs[i].head == |Header(r.attempt)| && r.offset <= segs[i].body
    && r.filePos == |Render(segs[..i], src)| + |Header(r.attempt)| + r.offset
    && forall k :: i < k < |segs| ==> segs[k].body == 0 && segs[k].attempt > r.attempt
  }

  ghost predicate Ok(s: State, segs: seq<Seg>, src: Source) {
    && SegsOk(segs) && InOrder(segs, s.latest)
    && s.disk.file == Render(segs, src)
    && (s.disk.side.None? ==> forall k :: 0 <= k < |segs| ==> segs[k].body == 0)
    && (s.disk.side.Some? ==> exists i :: 0 <= i < |segs| && Vouched(segs, s.disk.side.value, i, src))
    && (s.conn.Some? ==> s.conn == s.disk.side && Caught(segs, s.conn.value, src, |s.disk.file|))
  }

  /** While connected, file and sidecar agree to the byte. */
  predicate Caught(segs: seq<Seg>, r: Resume, src: Source, size: nat)
    requires SegsOk(segs)
  {
    && segs != [] && Vouched(segs, r, |segs| - 1, src)
    && segs[|segs| - 1].body == r.offset && r.filePos == size
  }

  // ------------------------------------------------------------------ each effect keeps it

  lemma {:induction false} RenderAppend(segs: seq<Seg>, g: Seg, src: Source)
    requires SegsOk(segs) && SegOk(g)
    ensures SegsOk(segs + [g]) && Render(segs + [g], src) == Render(segs, src) + SegBytes(g, src)
  {
    assert (segs + [g])[..|segs|] == segs;
  }

  lemma {:induction false} RenderPrefix(segs: seq<Seg>, i: nat, src: Source)
    requires SegsOk(segs) && i <= |segs|
    ensures Render(segs[..i], src) <= Render(segs, src)
  {
    if i == |segs| {
      assert segs[..i] == segs;
    } else {
      assert segs[..|segs| - 1][..i] == segs[..i];
      RenderPrefix(segs[..|segs| - 1], i, src);
    }
  }

  lemma StreamPrefix(src: Source, attempt: nat, k: nat, n: nat)
    requires k <= n
    ensures Stream(src, attempt, 0, n) == Stream(src, attempt, 0, k) + Stream(src, attempt, k, n - k)
    ensures Stream(src, attempt, 0, n)[..k] == Stream(src, attempt, 0, k)
  {
  }

  /** What the vouched prefix of the file is. */
  lemma VouchedPrefix(segs: seq<Seg>, r: Resume, i: nat, src: Source)
    requires SegsOk(segs) && Vouched(segs, r, i, src)
    ensures r.filePos <= |Render(segs, src)|
    ensures Render(segs, src)[..r.filePos]
         == Render(segs[..i], src) + Header(r.attempt) + Stream(src, r.attempt, 0, r.offset)
  {
    hide Render, Stream, Header;
    var g := segs[i];
    var here := Render(segs[..i + 1], src);
    assert segs[..i + 1] == segs[..i] + [g];
    RenderAppend(segs[..i], g, src);
    RenderPrefix(segs, i + 1, src);
    StreamPrefix(src, g.attempt, r.offset, g.body);
    assert Header(g.attempt)[..g.head] == Header(g.attempt);
    var want := Render(segs[..i], src) + Header(r.attempt) + Stream(src, r.attempt, 0, r.offset);
    assert here == want + Stream(src, g.attempt, r.offset, g.body - r.offset);
    assert |want| == r.filePos;
  }

  function Short(n: nat, limit: nat): nat {
    if n < limit then n else limit
  }

  /** What a batch of a write and a save comes to, for each fate. */
  lemma WriteThenSave(d: Disk, data: Bytes, r: Resume, fate: Fate)
    ensures Effect(d, [Write(data), Save(r)], fate) ==
      match fate
      case Completes => Disk(d.file + data, Some(r))
      case Dies(done, torn) =>
        if done == 0 then d.(file := d.file + data[..Short(torn, |data|)])
        else if done == 1 then d.(file := d.file + data)
        else Disk(d.file + data, Some(r))
  {
    var ops := [Write(data), Save(r)];
    assert ops[..1] == [Write(data)] && ops[..0] == [];
    assert [Write(data)][..0] == [];
    assert ApplyAll(d, []) == d;
    assert ApplyAll(d, [Write(data)]) == d.(file := d.file + data);
    assert ApplyAll(d, ops) == Disk(d.file + data, Some(r));
  }

  lemma OneCut(d: Disk, size: nat, fate: Fate)
    requires size <= |d.file|
    ensures Effect(d, [Truncate(size)], fate) ==
      if fate.Dies? && fate.done == 0 then d else d.(file := d.file[..size])
  {
    assert [Truncate(size)][..0] == [];
    assert ApplyAll(d, []) == d;
    assert ApplyAll(d, [Truncate(size)]) == d.(file := d.file[..size]);
  }

  lemma NewSegInOrder(segs: seq<Seg>, latest: nat, attempt: nat, h: nat)
    requires InOrder(segs, latest) && attempt >= latest
    requires forall k :: 0 <= k < |segs| && segs[k].attempt == attempt ==> segs[k].body == 0
    ensures InOrder(segs + [Seg(attempt, h, 0)], attempt)
  {
  }

  /** A new attempt finds its number on header-only segments at most. */
  lemma {:induction false} NewAttemptIsBare(s: State, segs: seq<Seg>, attempt: nat, src: Source)
    requires Ok(s, segs, src) && attempt >= s.latest && !Resumes(s.disk, attempt)
    ensures forall k :: 0 <= k < |segs| && segs[k].attempt == attempt ==> segs[k].body == 0
  {
    hide Render, Header, Stream;
    if s.disk.side.Some? {
      var i :| 0 <= i < |segs| && Vouched(segs, s.disk.side.value, i, src);
      assert forall k :: 0 <= k < i ==> segs[k].attempt <= segs[i].attempt;
      assert segs[i].attempt != attempt && segs[i].attempt <= attempt;
    }
  }

  lemma StillVouched(segs: seq<Seg>, r: Resume, i: nat, g: Seg, src: Source)
    requires SegsOk(segs) && SegOk(g) && Vouched(segs, r, i, src) && g.body == 0 && g.attempt > r.attempt
    ensures SegsOk(segs + [g]) && Vouched(segs + [g], r, i, src)
  {
    hide Render, Header;
    assert (segs + [g])[..i] == segs[..i];
  }

  lemma {:induction false} HeaderBytes(attempt: nat, h: nat, src: Source)
    requires h <= |Header(attempt)|
    ensures SegOk(Seg(attempt, h, 0)) && SegBytes(Seg(attempt, h, 0), src) == Header(attempt)[..h]
  {
    hide Header, Stream;
  }

  /** A segment of a new attempt, however much of its header got written. */
  lemma SegAppended(s: State, segs: seq<Seg>, attempt: nat, h: nat, src: Source)
    requires Ok(s, segs, src) && attempt >= s.latest && !Resumes(s.disk, attempt) && h <= |Header(attempt)|
    ensures
      var segs' := segs + [Seg(attempt, h, 0)];
      && Ok(State(s.disk.(file := s.disk.file + Header(attempt)[..h]), None, attempt), segs', src)
      && (h == |Header(attempt)| ==>
            var r := Resume(attempt, 0, |s.disk.file| + h);
            Ok(State(Disk(s.disk.file + Header(attempt), Some(r)), Some(r), attempt), segs', src))
  {
    hide Render, Header, Stream, InOrder, SegBytes, SegOk;
    var g := Seg(attempt, h, 0);
    var segs' := segs + [g];
    HeaderBytes(attempt, h, src);
    RenderAppend(segs, g, src);
    NewAttemptIsBare(s, segs, attempt, src);
    NewSegInOrder(segs, s.latest, attempt, h);
    if s.disk.side.Some? {
      var r := s.disk.side.value;
      var i :| 0 <= i < |segs| && Vouched(segs, r, i, src);
      SideIsEarlier(s, segs, i, src);
      StillVouched(segs, r, i, g, src);
    }
    if h == |Header(attempt)| {
      assert Header(attempt)[..h] == Header(attempt);
      assert segs'[..|segs|] == segs;
      assert Vouched(segs', Resume(attempt, 0, |s.disk.file| + h), |segs|, src);
    }
  }

  lemma {:induction false} SideIsEarlier(s: State, segs: seq<Seg>, i: nat, src: Source)
    requires Ok(s, segs, src) && s.disk.side.Some? && Vouched(segs, s.disk.side.value, i, src)
    ensures s.disk.side.value.attempt <= s.latest
  {
    hide Render, Header, Stream;
  }

  /** Cutting back to what the sidecar vouches for. */
  lemma {:induction false} TailDropped(s: State, segs: seq<Seg>, attempt: nat, src: Source) returns (segs': seq<Seg>)
    requires Ok(s, segs, src) && attempt >= s.latest && Resumes(s.disk, attempt)
    ensures
      var r := s.disk.side.value;
      && r.filePos <= |s.disk.file|
      && Ok(State(s.disk.(file := s.disk.file[..r.filePos]), Some(r), attempt), segs', src)
      && Ok(State(s.disk, None, attempt), segs, src)
  {
    hide Render, Header, Stream;
    var r := s.disk.side.value;
    var i :| 0 <= i < |segs| && Vouched(segs, r, i, src);
    VouchedPrefix(segs, r, i, src);
    var g := segs[i].(body := r.offset);
    segs' := segs[..i] + [g];
    RenderAppend(segs[..i], g, src);
    assert Header(g.attempt)[..g.head] == Header(g.attempt);
    assert segs'[..i] == segs[..i];
    assert Vouched(segs', r, i, src);
    assert forall k :: 0 <= k < i ==> segs'[k] == segs[k];
  }

  /** The last segment with `t` more bytes of its stream. */
  function Grown(segs: seq<Seg>, t: nat): seq<Seg>
    requires segs != []
  {
    var g := segs[|segs| - 1];
    segs[..|segs| - 1] + [g.(body := g.body + t)]
  }

  lemma {:induction false} SegGrows(g: Seg, t: nat, src: Source)
    requires SegOk(g) && g.head == |Header(g.attempt)|
    ensures SegOk(g.(body := g.body + t))
    ensures SegBytes(g.(body := g.body + t), src) == SegBytes(g, src) + Stream(src, g.attempt, g.body, t)
  {
    hide Header, Stream;
    StreamPrefix(src, g.attempt, g.body, g.body + t);
    Regroup(Header(g.attempt)[..g.head], Stream(src, g.attempt, 0, g.body), Stream(src, g.attempt, g.body, t));
  }

  lemma {:induction false} GrownBytes(segs: seq<Seg>, t: nat, src: Source)
    requires SegsOk(segs) && segs != [] && segs[|segs| - 1].head == |Header(segs[|segs| - 1].attempt)|
    ensures SegsOk(Grown(segs, t))
    ensures
      var g := segs[|segs| - 1];
      Render(Grown(segs, t), src) == Render(segs, src) + Stream(src, g.attempt, g.body, t)
  {
    hide Render, Header, Stream, SegBytes, SegOk;
    var n := |segs| - 1;
    var g := segs[n];
    assert segs == segs[..n] + [g];
    SegGrows(g, t, src);
    RenderAppend(segs[..n], g, src);
    RenderAppend(segs[..n], g.(body := g.body + t), src);
    Regroup(Render(segs[..n], src), SegBytes(g, src), Stream(src, g.attempt, g.body, t));
  }

  lemma {:induction false} GrownVouched(segs: seq<Seg>, r: Resume, t: nat, src: Source)
    requires SegsOk(segs) && segs != [] && SegsOk(Grown(segs, t)) && Vouched(segs, r, |segs| - 1, src)
    requires segs[|segs| - 1].body == r.offset
    ensures Vouched(Grown(segs, t), r, |segs| - 1, src)
    ensures Vouched(Grown(segs, t), Resume(r.attempt, r.offset + t, r.filePos + t), |segs| - 1, src)
  {
    hide Render, Header, Stream;
    assert Grown(segs, t)[..|segs| - 1] == segs[..|segs| - 1];
  }

  lemma {:induction false} GrownInOrder(segs: seq<Seg>, latest: nat, t: nat)
    requires InOrder(segs, latest) && segs != []
    ensures InOrder(Grown(segs, t), latest)
  {
    var n := |segs| - 1;
    assert forall k :: 0 <= k < n ==> Grown(segs, t)[k] == segs[k];
    assert Grown(segs, t)[n].attempt == segs[n].attempt;
  }

  /** More of the attempt's stream behind the bytes that are there. */
  lemma BodyGrown(s: State, segs: seq<Seg>, t: nat, src: Source) returns (segs': seq<Seg>)
    requires Ok(s, segs, src) && s.conn.Some?
    ensures
      var r := s.conn.value;
      var file' := s.disk.file + Stream(src, r.attempt, r.offset, t);
      var r' := Resume(r.attempt, r.offset + t, |s.disk.file| + t);
      && Ok(State(s.disk.(file := file'), None, s.latest), segs', src)
      && Ok(State(Disk(file', Some(r')), Some(r'), s.latest), segs', src)
  {
    hide Render, Header, Stream, SegOk, InOrder;
    var r := s.conn.value;
    segs' := Grown(segs, t);
    GrownInOrder(segs, s.latest, t);
    GrownBytes(segs, t, src);
    GrownVouched(segs, r, t, src);
    assert |segs'| == |segs| && segs'[|segs| - 1].body == r.offset + t;
  }

  /** Every event, with every fate, keeps the shape. */
  lemma NextOk(s: State, segs: seq<Seg>, e: Event, src: Source) returns (segs': seq<Seg>)
    requires Ok(s, segs, src) && Legal(s, e)
    ensures Ok(Next(s, e, src), segs', src)
  {
    hide Ok, Header, Stream, Effect, Render;
    segs' := segs;
    match e
    case Hangup => Disconnected(s, segs, src);
    case Connect(attempt, fate) =>
      if Resumes(s.disk, attempt) {
        var cut := TailDropped(s, segs, attempt, src);
        OneCut(s.disk, s.disk.side.value.filePos, fate);
        if fate.Dies? && fate.done == 0 {
        } else {
          segs' := cut;
          Disconnected(State(s.disk.(file := s.disk.file[..s.disk.side.value.filePos]), s.disk.side, attempt), cut,
            src);
        }
      } else {
        var h := Header(attempt);
        var size := if fate.Dies? && fate.done == 0 then Short(fate.torn, |h|) else |h|;
        var r := Resume(attempt, 0, |s.disk.file| + |h|);
        WriteThenSave(s.disk, h, r, fate);
        SegAppended(s, segs, attempt, size, src);
        assert h[..|h|] == h;
        Disconnected(State(Disk(s.disk.file + h, Some(r)), Some(r), attempt), segs + [Seg(attempt, |h|, 0)], src) by {
          SegAppended(s, segs, attempt, |h|, src);
        }
        segs' := segs + [Seg(attempt, size, 0)];
      }
    case Chunk(n, fate) =>
      if s.conn.Some? {
        var r := s.conn.value;
        var data := Stream(src, r.attempt, r.offset, n);
        var t := if fate.Dies? && fate.done == 0 then Short(fate.torn, n) else n;
        var r' := Resume(r.attempt, r.offset + n, |s.disk.file| + n);
        WriteThenSave(s.disk, data, r', fate);
        segs' := BodyGrown(s, segs, t, src);
        assert data[..t] == Stream(src, r.attempt, r.offset, t) by {
          StreamCut(src, r.attempt, r.offset, t, n);
        }
        if !(fate.Dies? && fate.done == 0) {
          Disconnected(State(Disk(s.disk.file + data, Some(r')), Some(r'), s.latest), segs', src);
        }
      }
  }

  lemma StreamCut(src: Source, attempt: nat, from: nat, t: nat, n: nat)
    requires t <= n
    ensures Stream(src, attempt, from, n)[..t] == Stream(src, attempt, from, t)
    ensures t == n ==> Stream(src, attempt, from, n)[..t] == Stream(src, attempt, from, n)
  {
  }

  lemma Disconnected(s: State, segs: seq<Seg>, src: Source)
    requires Ok(s, segs, src)
    ensures Ok(s.(conn := None), segs, src)
  {
  }

  // ------------------------------------------------------------------ whole runs

  /** What any run leaves on disk, crashes included: whole or torn headers, each attempt's
      stream from its first byte on, attempts in order, and no stream byte twice - only a
      header may stand more than once. */
  lemma {:induction false} RunLog(events: seq<Event>, src: Source) returns (segs: seq<Seg>)
    requires AllLegal(events, src)
    ensures Ok(Run(events, src), segs, src)
  {
    hide Next, Legal;
    if events == [] {
      segs := [];
      assert Ok(FRESH, [], src);
    } else {
      hide Ok;
      var n := |events| - 1;
      assert forall k :: 0 <= k < n ==> events[..n][..k] == events[..k];
      var before := RunLog(events[..n], src);
      assert Legal(Run(events[..n], src), events[n]);
      segs := NextOk(Run(events[..n], src), before, events[n], src);
    }
  }

  /** What the sidecar vouches for: below `filePos` the file is earlier content, then the
      attempt's header, then exactly the first `offset` bytes of the attempt's stream. */
  lemma {:induction false} PersistedContent(events: seq<Event>, src: Source) returns (earlier: Bytes)
    requires AllLegal(events, src)
    ensures
      var d := Run(events, src).disk;
      d.side.Some? ==>
        && d.side.value.filePos <= |d.file|
        && d.file[..d.side.value.filePos]
           == earlier + Header(d.side.value.attempt) + Stream(src, d.side.value.attempt, 0, d.side.value.offset)
  {
    hide Run, Render, Header, Stream, AllLegal;
    var segs := RunLog(events, src);
    var s := Run(events, src);
    earlier := [];
    if s.disk.side.Some? {
      var r := s.disk.side.value;
      var i :| 0 <= i < |segs| && Vouched(segs, r, i, src);
      VouchedPrefix(segs, r, i, src);
      earlier := Render(segs[..i], src);
    }
  }

  /** `d'` still holds, unchanged and vouched for, what `d` vouched for. */
  ghost predicate KeepsPersisted(d: Disk, d': Disk) {
    d.side.Some? && d.side.value.filePos <= |d.file| ==>
      && d'.side.Some? && d.side.value.filePos <= d'.side.value.filePos <= |d'.file|
      && d'.file[..d.side.value.filePos] == d.file[..d.side.value.filePos]
  }

  lemma PersistedOk(s: State, segs: seq<Seg>, src: Source)
    requires Ok(s, segs, src)
    ensures s.disk.side.Some? ==> s.disk.side.value.filePos <= |s.disk.file|
    ensures s.conn.Some? ==> s.disk.side == s.conn && s.conn.value.filePos == |s.disk.file|
  {
    hide Render, Header, Stream;
    if s.disk.side.Some? {
      var i :| 0 <= i < |segs| && Vouched(segs, s.disk.side.value, i, src);
      VouchedPrefix(segs, s.disk.side.value, i, src);
    }
  }

  lemma NextKeepsPersisted(s: State, segs: seq<Seg>, e: Event, src: Source)
    requires Ok(s, segs, src) && Legal(s, e)
    ensures KeepsPersisted(s.disk, Next(s, e, src).disk)
  {
    hide Ok, Header, Stream, Effect, Render;
    PersistedOk(s, segs, src);
    match e
    case Hangup =>
    case Connect(attempt, fate) =>
      if Resumes(s.disk, attempt) {
        OneCut(s.disk, s.disk.side.value.filePos, fate);
      } else {
        WriteThenSave(s.disk, Header(attempt), Resume(attempt, 0, |s.disk.file| + |Header(attempt)|), fate);
      }
    case Chunk(n, fate) =>
      if s.conn.Some? {
        var r := s.conn.value;
        WriteThenSave(s.disk, Stream(src, r.attempt, r.offset, n),
          Resume(r.attempt, r.offset + n, |s.disk.file| + n), fate);
      }
  }

  /** Between any two moments of a run the persisted prefix is neither changed nor shortened. */
  lemma {:induction false} PersistedStays(events: seq<Event>, i: nat, k: nat, src: Source)
    requires AllLegal(events, src) && i <= k <= |events|
    ensures KeepsPersisted(Run(events[..i], src).disk, Run(events[..k], src).disk)
  {
    hide Run, Next, Legal, Ok;
    var prior := RunLog(LegalPrefix(events, i, src), src);
    PersistedOk(Run(events[..i], src), prior, src);
    if i < k {
      PersistedStays(events, i, k - 1, src);
      var segs := RunLog(LegalPrefix(events, k - 1, src), src);
      assert Legal(Run(events[..k - 1], src), events[k - 1]);
      NextKeepsPersisted(Run(events[..k - 1], src), segs, events[k - 1], src);
      RunStep(events[..k], src);
      assert events[..k][..k - 1] == events[..k - 1];
    }
  }

  ghost function LegalPrefix(events: seq<Event>, k: nat, src: Source): (r: seq<Event>)
    requires AllLegal(events, src) && k <= |events|
    ensures r == events[..k] && AllLegal(r, src)
  {
    assert forall j :: 0 <= j < k ==> events[..k][..j] == events[..j];
    events[..k]
  }

  lemma RunStep(events: seq<Event>, src: Source)
    requires events != []
    ensures Run(events, src) == Next(Run(events[..|events| - 1], src), events[|events| - 1], src)
  {
  }

  /** A header does repeat when the process dies between writing it and saving the sidecar. */
  lemma HeaderMayRepeat(src: Source)
    ensures
      var events := [Connect(1, Dies(1, 0)), Connect(1, Completes)];
      && AllLegal(events, src)
      && Run(events, src).disk == Disk(Header(1) + Header(1), Some(Resume(1, 0, |Header(1) + Header(1)|)))
  {
    hide Header, Effect;
    var events := [Connect(1, Dies(1, 0)), Connect(1, Completes)];
    var h := Header(1);
    assert events[..0] == [] && events[..1] == [Connect(1, Dies(1, 0))] && events[..2] == events;
    var d0 := Disk([], None);
    WriteThenSave(d0, h, Resume(1, 0, |h|), Dies(1, 0));
    assert [] + h == h;
    assert Run(events[..1], src) == State(Disk(h, None), None, 1) by {
      assert [Connect(1, Dies(1, 0))][..0] == [];
    }
    WriteThenSave(Disk(h, None), h, Resume(1, 0, |h| + |h|), Completes);
  }
}
