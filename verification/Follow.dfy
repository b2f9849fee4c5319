/** Fan-out of one stream state: replay from the durable file up to the boundary taken at
    subscription, then a bounded queue; too slow a follower is cut off with a marker. */
module Follow {
  import opened Wrappers
  import opened LineParser

  const DROPPED_LINE: Bytes := "----- omnirun " + "follow dropped: " + "consumer too " + "slow -----"
  const DROPPED_MARKER: Bytes := [NL] + DROPPED_LINE + [NL]
  const READ_CHUNK: nat := 65536

  /** A queue item: some bytes, or the end. `got` is what the follower has been given so far;
      `early` notes that it subscribed before the state first connected, `lossy` that ending it
      pushed a chunk out of a full queue. */
  datatype Follower = Follower(
    from: nat, early: bool, boundary: nat, pos: nat, queue: seq<Option<Bytes>>, listening: bool, dropped: bool,
    got: Bytes, ended: bool, lossy: bool)

  function Offer(f: Follower, data: Bytes, cap: nat): Follower {
    if !f.listening then f
    else if |f.queue| < cap then f.(queue := f.queue + [Some(data)])
    else f.(listening := false, dropped := true, queue := [Some(DROPPED_MARKER), None])
  }

  /** Ending a follower: a full queue gives up its oldest item for the end. */
  function EndOf(f: Follower, cap: nat): Follower {
    if !f.listening then f
    else if |f.queue| < cap then f.(queue := f.queue + [None], listening := false)
    else f.(queue := (if f.queue == [] then [] else f.queue[1..]) + [None], listening := false, lossy := true)
  }

  function Least(a: nat, b: nat): nat {
    if a < b then a else b
  }

  /** What one read of the file brings: nothing past its end. */
  function ReadAt(file: Bytes, pos: nat, limit: nat): (data: Bytes)
    ensures |data| <= limit
    ensures pos + limit <= |file| ==> data == file[pos..pos + limit]
  {
    if pos >= |file| then [] else file[pos..Least(pos + limit, |file|)]
  }

  /** One step of the follower itself. */
  function Pull(f: Follower, file: Bytes): Follower {
    if f.ended then f
    else if f.pos < f.boundary then
      var data := ReadAt(file, f.pos, Least(READ_CHUNK, f.boundary - f.pos));
      if data == [] then f.(pos := f.boundary) else f.(pos := f.pos + |data|, got := f.got + data)
    else if f.queue == [] then f
    else
      match f.queue[0]
      case None => f.(queue := f.queue[1..], ended := true, listening := false)
      case Some(data) => f.(queue := f.queue[1..], got := f.got + data)
  }

  /** The stream state: the file, the position the state has written to, whether it has
      connected yet and where in the file it did, and its followers. */
  datatype Hub = Hub(
    file: Bytes, writePos: nat, connected: bool, origin: nat, stopped: bool, followers: seq<Follower>)

  function OfferAll(fs: seq<Follower>, data: Bytes, cap: nat): (r: seq<Follower>)
    ensures |r| == |fs| && forall i :: 0 <= i < |fs| ==> r[i] == Offer(fs[i], data, cap)
  {
    seq(|fs|, i requires 0 <= i < |fs| => Offer(fs[i], data, cap))
  }

  function EndAll(fs: seq<Follower>, cap: nat): (r: seq<Follower>)
    ensures |r| == |fs| && forall i :: 0 <= i < |fs| ==> r[i] == EndOf(fs[i], cap)
  {
    seq(|fs|, i requires 0 <= i < |fs| => EndOf(fs[i], cap))
  }

  datatype Event =
    | FirstConnect(resumeAt: Option<nat>, header: Bytes)
    | Append(data: Bytes)
    | TornAppend(data: Bytes)
    | Reconnect
    | Subscribe(from: nat)
    | Step(i: nat)
    | Stop

  /** Bytes written, accounted for, and offered to everyone. */
  function Appended(h: Hub, data: Bytes, cap: nat): Hub {
    h.(file := h.file + data, writePos := |h.file| + |data|, followers := OfferAll(h.followers, data, cap))
  }

  /** Where in the file a first connect begins: a new attempt below what is there, a resumed
      one at its sidecar's position. */
  function OriginOf(resumeAt: Option<nat>, file: Bytes): nat {
    if resumeAt.None? then |file| else Least(resumeAt.value, |file|)
  }

  /** The state attached to its file, with nothing of this connection written yet. */
  function Attach(h: Hub, resumeAt: Option<nat>): Hub {
    var p := OriginOf(resumeAt, h.file);
    h.(file := h.file[..p], writePos := p, connected := true, origin := p)
  }

  /** A follower that takes its boundary from what the state has written by now. */
  function Joined(h: Hub, from: nat): Follower {
    Follower(from, !h.connected, h.writePos, from, [], true, false, [], false, false)
  }

  function Next(h: Hub, e: Event, cap: nat): Hub {
    match e
    case FirstConnect(resumeAt, header) =>
      if h.connected || h.stopped then h
      else if resumeAt.None? then Appended(Attach(h, None), header, cap)
      else Attach(h, resumeAt)
    case Append(data) => if h.connected && !h.stopped && |h.file| == h.writePos then Appended(h, data, cap) else h
    case TornAppend(data) => if !h.stopped then h.(file := h.file + data) else h
    case Reconnect => if h.connected && !h.stopped && h.writePos <= |h.file| then h.(file := h.file[..h.writePos])
      else h
    case Subscribe(from) =>
      if h.stopped then h else h.(followers := h.followers + [Joined(h, from)])
    case Step(i) => if i < |h.followers| then h.(followers := h.followers[i := Pull(h.followers[i], h.file)]) else h
    case Stop => h.(stopped := true, followers := EndAll(h.followers, cap))
  }

  function Run(h: Hub, events: seq<Event>, cap: nat): Hub {
    if events == [] then h else Next(Run(h, events[..|events| - 1], cap), events[|events| - 1], cap)
  }

  // ------------------------------------------------------------------ one follower's account

  /** The bytes waiting in a queue, up to the end item. */
  function Pending(queue: seq<Option<Bytes>>): Bytes {
    if queue == [] || queue[0].None? then [] else queue[0].value + Pending(queue[1..])
  }

  predicate AllData(queue: seq<Option<Bytes>>) {
    forall k :: 0 <= k < |queue| ==> queue[k].Some?
  }

  predicate Closed(queue: seq<Option<Bytes>>) {
    queue != [] && queue[|queue| - 1].None? && AllData(queue[..|queue| - 1])
  }

  /** The part of the file still to be replayed. */
  function ToReplay(f: Follower, file: Bytes): Bytes
    requires f.boundary <= |file|
  {
    if f.pos < f.boundary then file[f.pos..f.boundary] else []
  }

  /** Where what a follower hears begins: where it asked, if that had been written; and for one
      that subscribed before the state connected, where the state connects. */
  function StartOf(f: Follower, origin: nat): nat {
    if f.early then origin else Least(f.from, f.boundary)
  }

  /** What a follower got, will replay and has queued. */
  function Owed(f: Follower, file: Bytes): Bytes
    requires f.boundary <= |file|
  {
    f.got + ToReplay(f, file) + Pending(f.queue)
  }

  /** The account of a follower that was neither dropped nor cut at its end: what it is owed is
      exactly the file from its start on. */
  predicate InStep(f: Follower, start: nat, file: Bytes, writePos: nat)
    requires f.boundary <= writePos <= |file|
  {
    && start <= writePos && Owed(f, file) == file[start..writePos]
    && (f.listening ==> AllData(f.queue) && !f.ended)
    && (AllData(f.queue) || Closed(f.queue))
  }

  /** The account of a dropped one: a stretch of the file, then the marker. */
  predicate CutOff(f: Follower, start: nat, file: Bytes, writePos: nat)
    requires f.boundary <= writePos <= |file|
  {
    && !f.listening
    && var heard := f.got + ToReplay(f, file);
       if f.queue == [Some(DROPPED_MARKER), None] then Stretch(heard, start, file, writePos)
       else
         && f.pos >= f.boundary && (f.queue == [None] || f.queue == [])
         && |heard| >= |DROPPED_MARKER|
         && heard[|heard| - |DROPPED_MARKER|..] == DROPPED_MARKER
         && Stretch(heard[..|heard| - |DROPPED_MARKER|], start, file, writePos)
  }

  /** Consecutive bytes of the file from `start`, none beyond what is written. */
  predicate Stretch(b: Bytes, start: nat, file: Bytes, writePos: nat)
    requires writePos <= |file|
  {
    start + |b| <= writePos && b == file[start..start + |b|]
  }

  predicate FollowerOk(f: Follower, start: nat, file: Bytes, writePos: nat)
    requires writePos <= |file|
  {
    f.boundary <= writePos
    && (f.lossy || (if f.dropped then CutOff(f, start, file, writePos) else InStep(f, start, file, writePos)))
  }

  /** Subscribed before the first connect: nothing to replay, nothing queued yet. */
  predicate Idle(f: Follower) {
    f.early && f.boundary == 0 && f.queue == [] && f.listening && !f.dropped && f.got == [] && !f.ended && !f.lossy
  }

  /** Before the first connect nothing counts as written. */
  ghost predicate Unconnected(h: Hub) {
    && h.writePos == 0 && h.origin == 0
    && (!h.stopped ==> forall i :: 0 <= i < |h.followers| ==> Idle(h.followers[i]))
  }

  ghost predicate HubOk(h: Hub) {
    && h.writePos <= |h.file| && (!h.connected ==> Unconnected(h))
    && (forall i :: 0 <= i < |h.followers| ==>
         FollowerOk(h.followers[i], StartOf(h.followers[i], h.origin), h.file, h.writePos))
    && (!h.stopped ==> forall i :: 0 <= i < |h.followers| ==> Running(h.followers[i]))
  }

  /** While the state runs, a follower is served or has been dropped; only the state's end
      may cost one a chunk. */
  predicate Running(f: Follower) {
    !f.lossy && (f.listening || f.dropped)
  }

  // ------------------------------------------------------------------ the steps keep it

  lemma {:induction false} PendingAppend(queue: seq<Option<Bytes>>, data: Bytes)
    requires AllData(queue)
    ensures Pending(queue + [Some(data)]) == Pending(queue) + data
    ensures Pending(queue + [None]) == Pending(queue)
  {
    if queue == [] {
      assert [Some(data)][1..] == [];
    } else {
      assert (queue + [Some(data)])[1..] == queue[1..] + [Some(data)];
      assert (queue + [None])[1..] == queue[1..] + [None];
      PendingAppend(queue[1..], data);
    }
  }

  /** A follower's account does not depend on the file beyond what is written. */
  lemma SameFile(f: Follower, start: nat, file: Bytes, file': Bytes, writePos: nat)
    requires writePos <= |file| && writePos <= |file'| && file[..writePos] == file'[..writePos]
    requires FollowerOk(f, start, file, writePos)
    ensures FollowerOk(f, start, file', writePos)
  {
    hide DROPPED_MARKER, Pending, ToReplay, Stretch;
    SameToReplay(f, file, file', writePos);
    if f.lossy {
    } else if f.dropped {
      var heard := f.got + ToReplay(f, file);
      if f.queue == [Some(DROPPED_MARKER), None] {
        SameStretchOf(heard, start, file, file', writePos);
      } else {
        SameStretchOf(heard[..|heard| - |DROPPED_MARKER|], start, file, file', writePos);
      }
    } else {
      Slices(file, file', writePos, start, writePos);
    }
  }

  lemma {:induction false} SameToReplay(f: Follower, file: Bytes, file': Bytes, writePos: nat)
    requires f.boundary <= writePos <= |file| && writePos <= |file'| && file[..writePos] == file'[..writePos]
    ensures ToReplay(f, file') == ToReplay(f, file)
  {
    Slices(file, file', writePos, f.pos, f.boundary);
  }

  lemma {:induction false} SameStretchOf(b: Bytes, start: nat, file: Bytes, file': Bytes, writePos: nat)
    requires writePos <= |file| && writePos <= |file'| && file[..writePos] == file'[..writePos]
    requires Stretch(b, start, file, writePos)
    ensures Stretch(b, start, file', writePos)
  {
    Slices(file, file', writePos, start, start + |b|);
  }

  lemma {:induction false} Slices(file: Bytes, file': Bytes, writePos: nat, a: nat, b: nat)
    requires writePos <= |file| && writePos <= |file'| && file[..writePos] == file'[..writePos]
    ensures a <= b <= writePos ==> file[a..b] == file'[a..b]
  {
    if a <= b <= writePos {
      assert file[a..b] == file[..writePos][a..b];
      assert file'[a..b] == file'[..writePos][a..b];
    }
  }

  /** What an in-step follower got or will replay is a stretch of the file. */
  lemma HeardIsStretch(f: Follower, start: nat, file: Bytes, writePos: nat)
    requires f.boundary <= writePos <= |file| && InStep(f, start, file, writePos)
    ensures Stretch(f.got + ToReplay(f, file), start, file, writePos)
  {
    hide Pending;
    var heard := f.got + ToReplay(f, file);
    var whole := file[start..writePos];
    assert heard == (heard + Pending(f.queue))[..|heard|] == whole[..|heard|];
    assert whole[..|heard|] == file[start..start + |heard|];
  }

  lemma {:induction false} StretchStays(b: Bytes, start: nat, file: Bytes, data: Bytes)
    requires Stretch(b, start, file, |file|)
    ensures Stretch(b, start, file + data, |file| + |data|)
  {
    Slices(file, file + data, |file|, start, start + |b|);
  }

  lemma {:induction false} ReplayStays(f: Follower, file: Bytes, data: Bytes)
    requires f.boundary <= |file|
    ensures ToReplay(f, file + data) == ToReplay(f, file)
  {
    Slices(file, file + data, |file|, f.pos, f.boundary);
  }

  /** More bytes, offered to a follower: queued, or the follower is cut off. */
  lemma OfferedOk(f: Follower, start: nat, file: Bytes, data: Bytes, cap: nat)
    requires FollowerOk(f, start, file, |file|) && Running(f)
    ensures FollowerOk(Offer(f, data, cap), start, file + data, |file| + |data|)
  {
    hide DROPPED_MARKER, Pending, ToReplay, Stretch;
    ReplayStays(f, file, data);
    if f.dropped {
      CutOffStays(f, start, file, data);
    } else {
      HeardIsStretch(f, start, file, |file|);
      StretchStays(f.got + ToReplay(f, file), start, file, data);
      if |f.queue| < cap {
        QueuedOk(f, start, file, data);
      } else {
        SameReplay(f, Offer(f, data, cap), file + data);
      }
    }
  }

  lemma SameReplay(f: Follower, g: Follower, file: Bytes)
    requires f.boundary == g.boundary <= |file| && f.pos == g.pos
    ensures ToReplay(f, file) == ToReplay(g, file)
  {
  }

  lemma {:induction false} CutOffStays(f: Follower, start: nat, file: Bytes, data: Bytes)
    requires f.boundary <= |file| && CutOff(f, start, file, |file|)
    ensures CutOff(f, start, file + data, |file| + |data|)
  {
    hide DROPPED_MARKER, ToReplay, Stretch;
    ReplayStays(f, file, data);
    var heard := f.got + ToReplay(f, file);
    if f.queue == [Some(DROPPED_MARKER), None] {
      StretchStays(heard, start, file, data);
    } else {
      StretchStays(heard[..|heard| - |DROPPED_MARKER|], start, file, data);
    }
  }

  lemma QueuedOk(f: Follower, start: nat, file: Bytes, data: Bytes)
    requires f.boundary <= |file| && InStep(f, start, file, |file|) && f.listening
    ensures InStep(f.(queue := f.queue + [Some(data)]), start, file + data, |file| + |data|)
  {
    hide Pending, ToReplay;
    var g := f.(queue := f.queue + [Some(data)]);
    var file' := file + data;
    ReplayStays(f, file, data);
    SameReplay(f, g, file');
    PendingAppend(f.queue, data);
    Regroup(f.got + ToReplay(f, file), Pending(f.queue), data);
    assert file'[start..|file'|] == file[start..|file|] + data;
  }

  /** One step of the follower: a read of the file, or one item of the queue. */
  lemma {:induction false} PulledOk(f: Follower, start: nat, file: Bytes, writePos: nat)
    requires writePos <= |file| && FollowerOk(f, start, file, writePos)
    ensures FollowerOk(Pull(f, file), start, file, writePos)
  {
    hide DROPPED_MARKER;
    if f.ended || f.lossy {
    } else if f.pos < f.boundary {
      ReplayedOk(f, start, file, writePos);
    } else if f.dropped {
      MarkerOk(f, start, file, writePos);
    } else if f.queue != [] {
      DequeuedOk(f, start, file, writePos);
    }
  }

  lemma {:induction false} ReplayedOk(f: Follower, start: nat, file: Bytes, writePos: nat)
    requires writePos <= |file| && FollowerOk(f, start, file, writePos) && !f.lossy && !f.ended && f.pos < f.boundary
    ensures FollowerOk(Pull(f, file), start, file, writePos)
  {
    hide DROPPED_MARKER, Pending, Stretch;
    var g := Pull(f, file);
    var n := |g.got| - |f.got|;
    assert n > 0 && g.got == f.got + file[f.pos..f.pos + n];
    assert file[f.pos..f.boundary] == file[f.pos..f.pos + n] + ToReplay(g, file);
    assert g.got + ToReplay(g, file) == f.got + ToReplay(f, file);
  }

  lemma Apart(a: Bytes, b: Bytes)
    ensures (a + b)[..|a + b| - |b|] == a && (a + b)[|a + b| - |b|..] == b
  {
  }

  lemma NothingToReplay(f: Follower, file: Bytes)
    requires f.boundary <= |file| && f.pos >= f.boundary
    ensures ToReplay(f, file) == []
  {
  }

  lemma {:induction false} MarkerOk(f: Follower, start: nat, file: Bytes, writePos: nat)
    requires writePos <= |file| && FollowerOk(f, start, file, writePos)
    requires f.dropped && !f.lossy && !f.ended && f.pos >= f.boundary
    ensures FollowerOk(Pull(f, file), start, file, writePos)
  {
    hide DROPPED_MARKER, Stretch, Pending, ToReplay, InStep;
    var g := Pull(f, file);
    assert ToReplay(f, file) == [] && ToReplay(g, file) == [] by {
      NothingToReplay(f, file);
      NothingToReplay(g, file);
    }
    assert f.got + [] == f.got && g.got + [] == g.got;
    if f.queue == [Some(DROPPED_MARKER), None] {
      assert g.queue == [None] && g.got == f.got + DROPPED_MARKER;
      Apart(f.got, DROPPED_MARKER);
    } else {
      assert g.got == f.got && (g.queue == [None] || g.queue == []);
    }
  }

  lemma {:induction false} DequeuedOk(f: Follower, start: nat, file: Bytes, writePos: nat)
    requires writePos <= |file| && FollowerOk(f, start, file, writePos) && !f.dropped && !f.lossy && !f.ended
    requires f.pos >= f.boundary && f.queue != []
    ensures FollowerOk(Pull(f, file), start, file, writePos)
  {
    hide Pending, ToReplay, Stretch, CutOff, AllData, Closed;
    var g := Pull(f, file);
    NothingToReplay(f, file);
    NothingToReplay(g, file);
    QueueRest(f.queue);
    assert f.got + [] == f.got && g.got + [] == g.got;
    if f.queue[0].Some? {
      Regroup(f.got, f.queue[0].value, Pending(f.queue[1..]));
    }
  }

  /** What taking the first item off a queue leaves. */
  lemma QueueRest(queue: seq<Option<Bytes>>)
    requires queue != [] && (AllData(queue) || Closed(queue))
    ensures queue[0].Some? ==> Pending(queue) == queue[0].value + Pending(queue[1..])
    ensures queue[0].None? ==> queue[1..] == [] && Pending(queue) == [] && Pending(queue[1..]) == []
    ensures AllData(queue) ==> queue[0].Some? && AllData(queue[1..])
    ensures AllData(queue[1..]) || Closed(queue[1..])
  {
    if Closed(queue) && |queue| > 1 {
      assert queue[..|queue| - 1][0] == queue[0];
      assert queue[1..][..|queue| - 2] == queue[..|queue| - 1][1..];
    }
  }

  lemma EndedOk(f: Follower, start: nat, file: Bytes, writePos: nat, cap: nat)
    requires writePos <= |file| && FollowerOk(f, start, file, writePos)
    ensures FollowerOk(EndOf(f, cap), start, file, writePos)
  {
    if f.listening && !f.lossy && !f.dropped && |f.queue| < cap {
      var g := EndOf(f, cap);
      PendingAppend(f.queue, []);
      SameReplay(f, g, file);
      assert g.queue[..|g.queue| - 1] == f.queue;
    }
  }

  lemma {:induction false} SubscribedOk(h: Hub, from: nat)
    requires HubOk(h) && !h.stopped
    ensures HubOk(Next(h, Subscribe(from), 0))
  {
    hide FollowerOk;
    var h' := Next(h, Subscribe(from), 0);
    var f := Joined(h, from);
    JoinedOk(h, from);
    forall i | 0 <= i < |h'.followers|
      ensures FollowerOk(h'.followers[i], StartOf(h'.followers[i], h'.origin), h'.file, h'.writePos)
    {
      assert i < |h.followers| ==> h'.followers[i] == h.followers[i];
    }
  }

  lemma {:induction false} JoinedOk(h: Hub, from: nat)
    requires h.writePos <= |h.file| && (!h.connected ==> h.writePos == 0 && h.origin == 0)
    ensures FollowerOk(Joined(h, from), StartOf(Joined(h, from), h.origin), h.file, h.writePos)
  {
    var f := Joined(h, from);
    assert Owed(f, h.file) == h.file[StartOf(f, h.origin)..h.writePos];
  }

  lemma {:induction false} AppendedOk(h: Hub, data: Bytes, cap: nat)
    requires HubOk(h) && h.connected && !h.stopped && |h.file| == h.writePos
    ensures HubOk(Appended(h, data, cap))
  {
    hide FollowerOk, Offer;
    var h' := Appended(h, data, cap);
    forall i | 0 <= i < |h'.followers|
      ensures FollowerOk(h'.followers[i], StartOf(h'.followers[i], h'.origin), h'.file, h'.writePos)
      ensures Running(h'.followers[i])
    {
      OfferedOk(h.followers[i], StartOf(h.followers[i], h.origin), h.file, data, cap);
      OfferKeeps(h.followers[i], data, cap);
    }
  }

  /** Who a follower is: what it asked for, and when. */
  predicate SameFollower(f: Follower, g: Follower) {
    f.from == g.from && f.early == g.early && f.boundary == g.boundary
  }

  lemma OfferKeeps(f: Follower, data: Bytes, cap: nat)
    ensures SameFollower(f, Offer(f, data, cap))
    ensures Running(f) ==> Running(Offer(f, data, cap))
  {
  }

  lemma PullKeeps(f: Follower, file: Bytes)
    ensures SameFollower(f, Pull(f, file)) && Pull(f, file).lossy == f.lossy
    ensures Idle(f) ==> Pull(f, file) == f
  {
  }

  lemma EndKeeps(f: Follower, cap: nat)
    ensures SameFollower(f, EndOf(f, cap))
  {
  }

  lemma {:induction false} PullRuns(f: Follower, start: nat, file: Bytes, writePos: nat)
    requires writePos <= |file| && FollowerOk(f, start, file, writePos) && Running(f)
    ensures Running(Pull(f, file))
  {
    hide Pending, Stretch, ToReplay;
  }

  lemma {:induction false} RewrittenOk(h: Hub, h': Hub)
    requires HubOk(h) && h' == h.(file := h'.file)
    requires h.writePos <= |h'.file| && h.file[..h.writePos] == h'.file[..h.writePos]
    ensures HubOk(h')
  {
    hide FollowerOk;
    forall i | 0 <= i < |h.followers|
      ensures FollowerOk(h'.followers[i], StartOf(h'.followers[i], h'.origin), h'.file, h'.writePos)
    {
      SameFile(h.followers[i], StartOf(h.followers[i], h.origin), h.file, h'.file, h.writePos);
    }
  }

  /** Whoever subscribed before the first connect begins where that begins. */
  lemma {:induction false} AttachedOk(h: Hub, resumeAt: Option<nat>)
    requires HubOk(h) && !h.connected && !h.stopped
    ensures HubOk(Attach(h, resumeAt))
  {
    hide FollowerOk;
    var h' := Attach(h, resumeAt);
    forall i | 0 <= i < |h'.followers|
      ensures FollowerOk(h'.followers[i], StartOf(h'.followers[i], h'.origin), h'.file, h'.writePos)
    {
      IdleOk(h.followers[i], h'.file);
    }
  }

  lemma {:induction false} IdleOk(f: Follower, file: Bytes)
    requires Idle(f)
    ensures FollowerOk(f, |file|, file, |file|)
  {
    assert Owed(f, file) == [] == file[|file|..|file|];
  }

  lemma {:induction false} SteppedOk(h: Hub, i: nat)
    requires HubOk(h) && i < |h.followers|
    ensures HubOk(h.(followers := h.followers[i := Pull(h.followers[i], h.file)]))
  {
    hide FollowerOk, Pull, Running, Idle;
    var f := h.followers[i];
    PulledOk(f, StartOf(f, h.origin), h.file, h.writePos);
    PullKeeps(f, h.file);
    if !h.stopped {
      PullRuns(f, StartOf(f, h.origin), h.file, h.writePos);
    }
  }

  lemma {:induction false} StoppedOk(h: Hub, cap: nat)
    requires HubOk(h)
    ensures HubOk(Next(h, Stop, cap))
  {
    hide FollowerOk, EndOf;
    var h' := Next(h, Stop, cap);
    forall i | 0 <= i < |h'.followers|
      ensures FollowerOk(h'.followers[i], StartOf(h'.followers[i], h'.origin), h'.file, h'.writePos)
    {
      EndedOk(h.followers[i], StartOf(h.followers[i], h.origin), h.file, h.writePos, cap);
      EndKeeps(h.followers[i], cap);
    }
  }

  lemma {:induction false} NextOk(h: Hub, e: Event, cap: nat)
    requires HubOk(h)
    ensures HubOk(Next(h, e, cap))
  {
    hide HubOk, Pull, OfferAll, EndAll;
    HubBounds(h);
    match e
    case FirstConnect(resumeAt, header) =>
      if !h.connected && !h.stopped {
        AttachedOk(h, resumeAt);
        if resumeAt.None? {
          AppendedOk(Attach(h, None), header, cap);
        }
      }
    case Append(data) =>
      if h.connected && !h.stopped && |h.file| == h.writePos {
        AppendedOk(h, data, cap);
      }
    case TornAppend(data) =>
      if !h.stopped {
        RewrittenOk(h, Next(h, e, cap));
      }
    case Reconnect =>
      if h.connected && !h.stopped && h.writePos <= |h.file| {
        RewrittenOk(h, Next(h, e, cap));
      }
    case Subscribe(from) =>
      if !h.stopped {
        SubscribedOk(h, from);
      }
    case Step(i) =>
      if i < |h.followers| {
        SteppedOk(h, i);
      }
    case Stop =>
      StoppedOk(h, cap);
  }

  lemma HubBounds(h: Hub)
    requires HubOk(h)
    ensures h.writePos <= |h.file|
  {
  }

  // ------------------------------------------------------------------ whole runs

  lemma {:induction false} RunOk(h: Hub, events: seq<Event>, cap: nat)
    requires HubOk(h)
    ensures HubOk(Run(h, events, cap))
  {
    hide HubOk, Next;
    if events != [] {
      RunOk(h, events[..|events| - 1], cap);
      NextOk(Run(h, events[..|events| - 1], cap), events[|events| - 1], cap);
    }
  }

  /** What a follower has been given: a stretch of the file from its start, perhaps closed by
      the drop marker. */
  ghost predicate Contiguous(f: Follower, start: nat, file: Bytes, writePos: nat)
    requires writePos <= |file|
  {
    Stretch(f.got, start, file, writePos)
    || (f.dropped && |f.got| >= |DROPPED_MARKER| && f.got[|f.got| - |DROPPED_MARKER|..] == DROPPED_MARKER
        && Stretch(f.got[..|f.got| - |DROPPED_MARKER|], start, file, writePos))
  }

  lemma AccountsAreContiguous(f: Follower, start: nat, file: Bytes, writePos: nat)
    requires writePos <= |file| && FollowerOk(f, start, file, writePos) && !f.lossy
    ensures Contiguous(f, start, file, writePos)
    ensures !f.dropped ==> Stretch(f.got, start, file, writePos)
    ensures !f.dropped && f.pos >= f.boundary && Pending(f.queue) == [] ==> f.got == file[start..writePos]
  {
    hide DROPPED_MARKER, Pending;
    if !f.dropped {
      HeardIsStretch(f, start, file, writePos);
      Shorter(f.got, ToReplay(f, file), start, file, writePos);
    } else if f.queue == [Some(DROPPED_MARKER), None] {
      Shorter(f.got, ToReplay(f, file), start, file, writePos);
    } else {
      assert f.got + ToReplay(f, file) == f.got;
    }
  }

  lemma Shorter(a: Bytes, b: Bytes, start: nat, file: Bytes, writePos: nat)
    requires writePos <= |file| && Stretch(a + b, start, file, writePos)
    ensures Stretch(a, start, file, writePos)
  {
    assert a == (a + b)[..|a|];
  }

  /** Whether what a follower hears begins where it asked: the state had written that much
      when it subscribed - or, before the first connect, that is where the connect begins. */
  predicate StartsAsAsked(f: Follower, origin: nat) {
    if f.early then f.from == origin else f.from <= f.boundary
  }

  /** Follower contiguity: under any interleaving of first connect, appends, torn appends,
      reconnects, other followers and its own steps, a follower has been given consecutive
      bytes of the durable file, at most cut off by the marker; one with nothing left to read
      has been given everything written. What it is owed is the file from the offset it asked
      for exactly when it starts as asked. The one exception is a follower ended with a full
      queue. */
  lemma FollowersAreContiguous(h: Hub, events: seq<Event>, cap: nat, i: nat)
    requires HubOk(h) && i < |Run(h, events, cap).followers|
    requires !Run(h, events, cap).followers[i].lossy
    ensures
      var end := Run(h, events, cap);
      var f := end.followers[i];
      var start := StartOf(f, end.origin);
      && f.boundary <= end.writePos <= |end.file|
      && Contiguous(f, start, end.file, end.writePos)
      && (!f.dropped ==> Stretch(f.got, start, end.file, end.writePos))
      && (!f.dropped && f.pos >= f.boundary && Pending(f.queue) == [] ==>
            f.got == end.file[start..end.writePos])
      && (start == f.from <==> StartsAsAsked(f, end.origin))
      && (!f.dropped && f.from <= end.writePos ==>
            (Owed(f, end.file) == end.file[f.from..end.writePos] <==> StartsAsAsked(f, end.origin)))
  {
    hide FollowerOk, Contiguous, Stretch, Run, Pending, Owed;
    RunOk(h, events, cap);
    var end := Run(h, events, cap);
    var f := end.followers[i];
    AccountsAreContiguous(f, StartOf(f, end.origin), end.file, end.writePos);
    if !f.dropped {
      OwedFromStart(f, StartOf(f, end.origin), end.file, end.writePos);
    }
    assert f.boundary <= end.writePos by {
      StepsBehind(f, StartOf(f, end.origin), end.file, end.writePos);
    }
  }

  lemma StepsBehind(f: Follower, start: nat, file: Bytes, writePos: nat)
    requires writePos <= |file| && FollowerOk(f, start, file, writePos)
    ensures f.boundary <= writePos
  {
  }

  lemma OwedFromStart(f: Follower, start: nat, file: Bytes, writePos: nat)
    requires writePos <= |file| && FollowerOk(f, start, file, writePos) && !f.lossy && !f.dropped
    ensures f.boundary <= writePos && start <= writePos
    ensures f.from <= writePos ==> (Owed(f, file) == file[f.from..writePos] <==> start == f.from)
  {
    hide Owed;
    if f.from <= writePos {
      assert |file[f.from..writePos]| == writePos - f.from;
    }
  }

  // ------------------------------------------------------------------ before the first connect

  /** Where a connected state began stays, and so does who its followers are. */
  lemma {:induction false} RunKeeps(h: Hub, events: seq<Event>, cap: nat)
    requires h.connected
    ensures
      var end := Run(h, events, cap);
      && end.connected && end.origin == h.origin && |end.followers| >= |h.followers|
      && forall i :: 0 <= i < |h.followers| ==> SameFollower(h.followers[i], end.followers[i])
  {
    hide Next, SameFollower;
    if events == [] {
      forall i | 0 <= i < |h.followers| ensures SameFollower(h.followers[i], h.followers[i]) {
        Itself(h.followers[i]);
      }
    } else {
      var n := |events| - 1;
      RunKeeps(h, events[..n], cap);
      var mid := Run(h, events[..n], cap);
      NextKeeps(mid, events[n], cap);
      forall i | 0 <= i < |h.followers| ensures SameFollower(h.followers[i], Run(h, events, cap).followers[i]) {
        SameAgain(h.followers[i], mid.followers[i], Run(h, events, cap).followers[i]);
      }
    }
  }

  lemma Itself(f: Follower)
    ensures SameFollower(f, f)
  {
  }

  lemma SameAgain(f: Follower, g: Follower, k: Follower)
    requires SameFollower(f, g) && SameFollower(g, k)
    ensures SameFollower(f, k)
  {
  }

  lemma NextKeeps(h: Hub, e: Event, cap: nat)
    ensures |Next(h, e, cap).followers| >= |h.followers|
    ensures forall i :: 0 <= i < |h.followers| ==> SameFollower(h.followers[i], Next(h, e, cap).followers[i])
    ensures h.connected ==> Next(h, e, cap).connected && Next(h, e, cap).origin == h.origin
  {
    hide Offer, Pull, EndOf, SameFollower;
    forall i | 0 <= i < |h.followers| ensures SameFollower(h.followers[i], Next(h, e, cap).followers[i]) {
      var f := h.followers[i];
      Itself(f);
      PullKeeps(f, h.file);
      EndKeeps(f, cap);
      if e.FirstConnect? {
        OfferKeeps(f, e.header, cap);
      } else if e.Append? {
        OfferKeeps(f, e.data, cap);
      }
    }
  }

  /** A follower that is there before the first connect - of a new attempt or a resumed one - is
      owed the file from the offset it asked for exactly when that is where the connect begins:
      the end of what is there, or the sidecar's position. */
  lemma {:induction false} EarlyFollowerIff(h: Hub, i: nat, resumeAt: Option<nat>, header: Bytes, events: seq<Event>,
                                            cap: nat)
    requires HubOk(h) && !h.connected && !h.stopped && i < |h.followers|
    ensures
      var end := Run(Next(h, FirstConnect(resumeAt, header), cap), events, cap);
      && i < |end.followers| && end.origin == OriginOf(resumeAt, h.file)
      && var f, from := end.followers[i], h.followers[i].from;
      && f.from == from
      && (!f.dropped && !f.lossy ==>
            && f.boundary <= end.writePos <= |end.file| && end.origin <= end.writePos
            && Owed(f, end.file) == end.file[end.origin..end.writePos]
            && (from <= end.writePos ==>
                  (Owed(f, end.file) == end.file[from..end.writePos] <==> from == OriginOf(resumeAt, h.file))))
  {
    hide HubOk, Run, Offer, FollowerOk, Owed, Idle;
    NobodyServedYet(h, i);
    var begun := Next(h, FirstConnect(resumeAt, header), cap);
    NextOk(h, FirstConnect(resumeAt, header), cap);
    RunOk(begun, events, cap);
    NextKeeps(h, FirstConnect(resumeAt, header), cap);
    RunKeeps(begun, events, cap);
    var end := Run(begun, events, cap);
    var f := end.followers[i];
    SameAgain(h.followers[i], begun.followers[i], f);
    HubFollower(end, i);
    if !f.dropped && !f.lossy {
      InStepOwes(f, end.origin, end.file, end.writePos);
      OwedFromStart(f, end.origin, end.file, end.writePos);
    }
  }

  lemma NobodyServedYet(h: Hub, i: nat)
    requires HubOk(h) && !h.connected && !h.stopped && i < |h.followers|
    ensures h.followers[i].early && h.followers[i].boundary == 0
  {
  }

  lemma HubFollower(h: Hub, i: nat)
    requires HubOk(h) && i < |h.followers|
    ensures h.writePos <= |h.file|
    ensures FollowerOk(h.followers[i], StartOf(h.followers[i], h.origin), h.file, h.writePos)
  {
  }

  lemma InStepOwes(f: Follower, start: nat, file: Bytes, writePos: nat)
    requires writePos <= |file| && FollowerOk(f, start, file, writePos) && !f.lossy && !f.dropped
    ensures f.boundary <= writePos && start <= writePos && Owed(f, file) == file[start..writePos]
  {
  }

  /** So subscribing from the beginning before a new attempt connects misses all the file
      holds: the follower's first bytes are the attempt's header. */
  lemma EarlyFollowerMisses(file: Bytes, header: Bytes, cap: nat)
    requires file != [] && cap > 0
    ensures
      var h := Hub(file, 0, false, 0, false, []);
      var end := Run(h, [Subscribe(0), FirstConnect(None, header), Step(0)], cap);
      && HubOk(h) && |end.followers| == 1 && end.followers[0].got == header
      && end.file == file + header
  {
    var events := [Subscribe(0), FirstConnect(None, header), Step(0)];
    var h := Hub(file, 0, false, 0, false, []);
    assert events[..2] == [Subscribe(0), FirstConnect(None, header)];
    assert events[..2][..1] == [Subscribe(0)];
    assert [Subscribe(0)][..0] == [];
    assert Run(h, [], cap) == h;
    var h1 := Run(h, [Subscribe(0)], cap);
    assert h1 == Next(h, Subscribe(0), cap);
    var h2 := Run(h, events[..2], cap);
    assert h2 == Next(h1, FirstConnect(None, header), cap);
    assert file[..|file|] == file;
    assert h2.followers[0].queue == [Some(header)];
  }

  /** Ending a follower keeps everything queued for it exactly when its queue has room (or
      what gives way is empty). */
  lemma EndKeepsQueueIff(f: Follower, cap: nat)
    requires f.listening && f.queue != [] && AllData(f.queue) && |f.queue| <= cap
    ensures Pending(EndOf(f, cap).queue) == Pending(f.queue) <==> |f.queue| < cap || f.queue[0].value == []
  {
    if |f.queue| < cap {
      PendingAppend(f.queue, []);
    } else {
      PendingAppend(f.queue[1..], []);
      assert |Pending(f.queue)| == |f.queue[0].value| + |Pending(f.queue[1..])|;
    }
  }

  // ------------------------------------------------------------------ slow followers

  /** What one event may make of a follower's queue: it never grows past its bound; and a
      follower is cut off only by a chunk that finds its queue full, and always then. */
  lemma {:induction false} CutOffIffFull(h: Hub, e: Event, cap: nat, i: nat)
    requires i < |h.followers| && h.followers[i].listening && !h.followers[i].dropped
    requires cap >= 2 && |h.followers[i].queue| <= cap
    ensures i < |Next(h, e, cap).followers|
    ensures
      var f, f' := h.followers[i], Next(h, e, cap).followers[i];
      && |f'.queue| <= cap
      && (f'.dropped <==> Chunk(h, e) && |f.queue| == cap)
      && (f'.dropped ==> f'.queue == [Some(DROPPED_MARKER), None])
  {
    hide Pull;
    PullShrinks(h.followers[i], h.file);
  }

  lemma PullShrinks(f: Follower, file: Bytes)
    ensures |Pull(f, file).queue| <= |f.queue| && Pull(f, file).dropped == f.dropped
  {
  }

  /** The event offers bytes to the followers. */
  predicate Chunk(h: Hub, e: Event) {
    match e
    case FirstConnect(resumeAt, _) => !h.connected && !h.stopped && resumeAt.None?
    case Append(_) => h.connected && !h.stopped && |h.file| == h.writePos
    case _ => false
  }

  ghost predicate Bounded(h: Hub, cap: nat) {
    forall i :: 0 <= i < |h.followers| ==> |h.followers[i].queue| <= cap
  }

  /** No reader, however slow, makes the state keep more than the bound for it. */
  lemma {:induction false} QueuesAreBounded(h: Hub, events: seq<Event>, cap: nat)
    requires cap >= 2 && Bounded(h, cap)
    ensures Bounded(Run(h, events, cap), cap)
  {
    hide Next, Bounded;
    if events != [] {
      var n := |events| - 1;
      QueuesAreBounded(h, events[..n], cap);
      NextIsBounded(Run(h, events[..n], cap), events[n], cap);
    }
  }

  lemma {:induction false} NextIsBounded(h: Hub, e: Event, cap: nat)
    requires cap >= 2 && Bounded(h, cap)
    ensures Bounded(Next(h, e, cap), cap)
  {
    hide Pull, Offer, EndOf;
    forall i | 0 <= i < |Next(h, e, cap).followers| ensures |Next(h, e, cap).followers[i].queue| <= cap {
      if i < |h.followers| {
        var f := h.followers[i];
        PullShrinks(f, h.file);
        EndFits(f, cap);
        if e.FirstConnect? {
          OfferFits(f, e.header, cap);
        } else if e.Append? {
          OfferFits(f, e.data, cap);
        }
      }
    }
  }

  lemma OfferFits(f: Follower, data: Bytes, cap: nat)
    requires cap >= 2 && |f.queue| <= cap
    ensures |Offer(f, data, cap).queue| <= cap
  {
  }

  lemma EndFits(f: Follower, cap: nat)
    requires cap >= 2 && |f.queue| <= cap
    ensures |EndOf(f, cap).queue| <= cap
  {
  }

  // ------------------------------------------------------------------ the loops

  class Fanout {
    var followers: seq<Follower>
    const cap: nat

    /** Room for the marker and the end, whatever was asked for. */
    constructor (followQueue: int)
      ensures followers == [] && cap == Max(2, followQueue)
    {
      followers := [];
      cap := Max(2, followQueue);
    }

    /** Offer a chunk to every listening follower; one whose queue is full is cut off. */
    method Publish(data: Bytes)
      modifies this`followers
      ensures followers == OfferAll(old(followers), data, cap)
    {
      var i := 0;
      while i < |followers|
        invariant 0 <= i <= |followers| == |old(followers)|
        invariant forall k :: 0 <= k < i ==> followers[k] == Offer(old(followers)[k], data, cap)
        invariant forall k :: i <= k < |followers| ==> followers[k] == old(followers)[k]
      {
        var f := followers[i];
        if f.listening {
          if |f.queue| < cap {
            followers := followers[i := f.(queue := f.queue + [Some(data)])];
          } else {
            var drained := f.queue;
            while drained != []
              decreases |drained|
            {
              drained := drained[1..];
            }
            var closed := drained + [Some(DROPPED_MARKER)] + [None];
            followers := followers[i := f.(listening := false, dropped := true, queue := closed)];
          }
        }
        i := i + 1;
      }
      assert followers == OfferAll(old(followers), data, cap);
    }

    /** End every follower; a full queue gives up its oldest item. */
    method EndFollowers()
      modifies this`followers
      ensures followers == EndAll(old(followers), cap)
    {
      var i := 0;
      while i < |followers|
        invariant 0 <= i <= |followers| == |old(followers)|
        invariant forall k :: 0 <= k < i ==> followers[k] == EndOf(old(followers)[k], cap)
        invariant forall k :: i <= k < |followers| ==> followers[k] == old(followers)[k]
      {
        var f := followers[i];
        if f.listening {
          if |f.queue| < cap {
            followers := followers[i := f.(queue := f.queue + [None], listening := false)];
          } else {
            var rest := if f.queue == [] then [] else f.queue[1..];
            followers := followers[i := f.(queue := rest + [None], listening := false, lossy := true)];
          }
        }
        i := i + 1;
      }
      assert followers == EndAll(old(followers), cap);
    }
  }
}
