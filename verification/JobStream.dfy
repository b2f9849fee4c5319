/** One connection of a job's stream: durable append, resume point, fan-out and line parsing,
    chunk by chunk. */
module JobStream {
  import opened Wrappers
  import opened LineParser
  import opened DurableLog
  import Follow

  function ResumeOf(d: Disk): Resume {
    if d.side.Some? then d.side.value else Resume(0, 0, 0)
  }

  /** The effects of a connection that delivers `chunks` before it ends. */
  function ConnectionOps(d: Disk, attempt: nat, chunks: seq<Bytes>): seq<Op> {
    if chunks == [] then ConnectOps(d, attempt)
    else
      var prior := ConnectionOps(d, attempt, chunks[..|chunks| - 1]);
      var chunk := chunks[|chunks| - 1];
      if chunk == [] then prior
      else prior + ChunkOps(ApplyAll(d, prior), ResumeOf(ApplyAll(d, prior)), chunk)
  }

  /** What the followers of the state are offered: a new attempt's header, then every chunk. */
  function Offered(fs: seq<Follow.Follower>, header: Option<Bytes>, chunks: seq<Bytes>,
                   cap: nat): seq<Follow.Follower> {
    if chunks == [] then (if header.None? then fs else Follow.OfferAll(fs, header.value, cap))
    else
      var prior := Offered(fs, header, chunks[..|chunks| - 1], cap);
      if chunks[|chunks| - 1] == [] then prior else Follow.OfferAll(prior, chunks[|chunks| - 1], cap)
  }

  // ------------------------------------------------------------------ the connection is a run

  lemma {:induction false} ApplyMore(d: Disk, a: seq<Op>, b: seq<Op>)
    ensures ApplyAll(d, a + b) == ApplyAll(ApplyAll(d, a), b)
  {
    if b == [] {
      assert a + b == a;
    } else {
      assert (a + b)[..|a + b| - 1] == a + b[..|b| - 1];
      ApplyMore(d, a, b[..|b| - 1]);
    }
  }

  /** The events of the log's machine that a connection stands for. */
  function EventsOf(attempt: nat, chunks: seq<Bytes>): seq<Event> {
    if chunks == [] then [Connect(attempt, Completes)]
    else
      var prior := EventsOf(attempt, chunks[..|chunks| - 1]);
      if chunks[|chunks| - 1] == [] then prior else prior + [Chunk(|chunks[|chunks| - 1]|, Completes)]
  }

  function From(s: State, events: seq<Event>, src: Source): State {
    if events == [] then s else Next(From(s, events[..|events| - 1], src), events[|events| - 1], src)
  }

  /** Where a connection of `attempt` asks the provider to begin. */
  function OffsetFor(d: Disk, attempt: nat): nat {
    if Resumes(d, attempt) then d.side.value.offset else 0
  }

  /** If the provider streams the attempt's bytes from the offset it was asked for, the effects
      of the connection are those of the log's machine, completed one by one. */
  lemma {:induction false} ConnectionIsRun(s: State, attempt: nat, chunks: seq<Bytes>, src: Source)
    requires Flat(chunks) == Stream(src, attempt, OffsetFor(s.disk, attempt), |Flat(chunks)|)
    ensures
      var d := ApplyAll(s.disk, ConnectionOps(s.disk, attempt, chunks));
      && From(s, EventsOf(attempt, chunks), src) == State(d, d.side, attempt)
      && d.side.Some? && d.side.value.attempt == attempt
      && d.side.value.offset == OffsetFor(s.disk, attempt) + |Flat(chunks)|
  {
    hide Header, Stream, Next;
    if chunks == [] {
      Opened(s, attempt, src);
    } else {
      var n := |chunks| - 1;
      var chunk := chunks[n];
      var offset := OffsetFor(s.disk, attempt);
      assert Flat(chunks)[..|Flat(chunks[..n])|] == Flat(chunks[..n]);
      StreamCut(src, attempt, offset, |Flat(chunks[..n])|, |Flat(chunks)|);
      ConnectionIsRun(s, attempt, chunks[..n], src);
      if chunk == [] {
        assert Flat(chunks) == Flat(chunks[..n]);
      } else {
        assert chunk == Flat(chunks)[|Flat(chunks[..n])|..];
        StreamRest(src, attempt, offset, |Flat(chunks[..n])|, |Flat(chunks)|);
        var prior := ConnectionOps(s.disk, attempt, chunks[..n]);
        var events := EventsOf(attempt, chunks[..n]);
        var d := ApplyAll(s.disk, prior);
        ApplyMore(s.disk, prior, ChunkOps(d, ResumeOf(d), chunk));
        assert (events + [Chunk(|chunk|, Completes)])[..|events|] == events;
        Delivered(State(d, d.side, attempt), chunk, src);
      }
    }
  }

  lemma {:induction false} Opened(s: State, attempt: nat, src: Source)
    ensures
      var d := ApplyAll(s.disk, ConnectOps(s.disk, attempt));
      && From(s, [Connect(attempt, Completes)], src) == State(d, d.side, attempt)
      && d.side.Some? && d.side.value.attempt == attempt && d.side.value.offset == OffsetFor(s.disk, attempt)
  {
    hide Header, Stream;
    assert [Connect(attempt, Completes)][..0] == [];
    if !Resumes(s.disk, attempt) {
      WriteThenSave(s.disk, Header(attempt), Resume(attempt, 0, |s.disk.file| + |Header(attempt)|), Completes);
    } else {
      assert ConnectOps(s.disk, attempt)[..0] == [];
      assert ApplyAll(s.disk, []) == s.disk;
    }
  }

  lemma {:induction false} Delivered(s: State, chunk: Bytes, src: Source)
    requires s.conn.Some? && s.conn == s.disk.side
    requires chunk == Stream(src, s.conn.value.attempt, s.conn.value.offset, |chunk|)
    ensures
      var d := ApplyAll(s.disk, ChunkOps(s.disk, ResumeOf(s.disk), chunk));
      && Next(s, Chunk(|chunk|, Completes), src) == State(d, d.side, s.latest)
      && d.side.Some? && d.side.value.attempt == s.conn.value.attempt
      && d.side.value.offset == s.conn.value.offset + |chunk|
  {
    hide Stream;
    var r := s.conn.value;
    WriteThenSave(s.disk, chunk, Resume(r.attempt, r.offset + |chunk|, |s.disk.file| + |chunk|), Completes);
  }

  lemma StreamRest(src: Source, attempt: nat, from: nat, k: nat, n: nat)
    requires k <= n
    ensures Stream(src, attempt, from, n)[k..] == Stream(src, attempt, from + k, n - k)
  {
  }

  // ------------------------------------------------------------------ the connection is a run of the fan-out

  /** What opening is to the followers' state: the first connect of a new attempt or a resumed
      one, or a reconnect. */
  function OpeningOf(d: Disk, attempt: nat, connected: bool): Follow.Event {
    if connected then Follow.Reconnect
    else if Resumes(d, attempt) then Follow.FirstConnect(Some(d.side.value.filePos), [])
    else Follow.FirstConnect(None, Header(attempt))
  }

  function HubEvents(opening: Follow.Event, chunks: seq<Bytes>): seq<Follow.Event> {
    if chunks == [] then [opening]
    else
      var prior := HubEvents(opening, chunks[..|chunks| - 1]);
      if chunks[|chunks| - 1] == [] then prior else prior + [Follow.Append(chunks[|chunks| - 1])]
  }

  lemma {:induction false} HubOpens(h: Follow.Hub, opening: Follow.Event, cap: nat)
    ensures Follow.Run(h, HubEvents(opening, []), cap) == Follow.Next(h, opening, cap)
  {
    hide Follow.Next;
    assert [opening][..0] == [];
  }

  lemma {:induction false} HubTakes(h: Follow.Hub, opening: Follow.Event, chunks: seq<Bytes>, k: nat, cap: nat)
    requires k < |chunks|
    ensures
      var before := Follow.Run(h, HubEvents(opening, chunks[..k]), cap);
      Follow.Run(h, HubEvents(opening, chunks[..k + 1]), cap)
      == if chunks[k] == [] then before else Follow.Next(before, Follow.Append(chunks[k]), cap)
  {
    hide Follow.Next;
    assert chunks[..k + 1][..k] == chunks[..k];
    var prior := HubEvents(opening, chunks[..k]);
    assert (prior + [Follow.Append(chunks[k])])[..|prior|] == prior;
  }

  // ------------------------------------------------------------------ the stream

  class Streamer {
    var file: Bytes
    var side: Option<Resume>
    var writePos: nat
    const fanout: Follow.Fanout
    const parser: Parser
    ghost var effects: seq<Op>
    ghost var connected: bool
    ghost var origin: nat

    /** The stream state as its followers see it. */
    ghost function Hub(): Follow.Hub
      reads this, fanout
    {
      Follow.Hub(file, writePos, connected, origin, false, fanout.followers)
    }

    /** Once connected, the sidecar stands where the state has written to. */
    ghost predicate Attached(attempt: nat)
      reads this
    {
      && (side.Some? ==> side.value.filePos <= |file|)
      && (connected ==> Resumes(OnDisk(), attempt) && side.value.filePos == writePos)
    }

    function OnDisk(): Disk
      reads this
    {
      Disk(file, side)
    }

    constructor (fanout: Follow.Fanout, parser: Parser, file: Bytes, side: Option<Resume>)
      ensures this.fanout == fanout && this.parser == parser && OnDisk() == Disk(file, side) && effects == []
      ensures Hub() == Follow.Hub(file, 0, false, 0, false, fanout.followers)
    {
      this.fanout, this.parser := fanout, parser;
      this.file, this.side := file, side;
      writePos, effects, connected, origin := 0, [], false, 0;
    }

    method WriteAndFlush(data: Bytes)
      modifies this`file, this`effects
      ensures OnDisk() == Apply(old(OnDisk()), Write(data)) && effects == old(effects) + [Write(data)]
    {
      file := file + data;
      effects := effects + [Write(data)];
    }

    method TruncateTo(size: nat)
      modifies this`file, this`effects
      ensures OnDisk() == Apply(old(OnDisk()), Truncate(size)) && effects == old(effects) + [Truncate(size)]
    {
      file := if size <= |file| then file[..size] else file + seq(size - |file|, _ => '\0');
      effects := effects + [Truncate(size)];
    }

    method SaveResume(r: Resume)
      modifies this`side, this`effects
      ensures OnDisk() == Apply(old(OnDisk()), Save(r)) && effects == old(effects) + [Save(r)]
    {
      side := Some(r);
      effects := effects + [Save(r)];
    }

    /** Opening: a header for a new attempt, or back to the resume point. */
    method Open(attempt: nat) returns (resume: Resume)
      requires parser.Valid() && !parser.exited
      modifies this, fanout, parser
      ensures OnDisk() == ApplyAll(old(OnDisk()), ConnectOps(old(OnDisk()), attempt))
      ensures effects == old(effects) + ConnectOps(old(OnDisk()), attempt)
      ensures side == Some(resume) && writePos == |file| && resume.attempt == attempt && resume.filePos == |file|
      ensures fanout.followers == if Resumes(old(OnDisk()), attempt) then old(fanout.followers)
                                  else Follow.OfferAll(old(fanout.followers), Header(attempt), fanout.cap)
      ensures parser.Valid() && parser.seen == if Resumes(old(OnDisk()), attempt) then old(parser.seen) else []
      ensures connected
      ensures old(Attached(attempt)) ==>
        Hub() == Follow.Next(old(Hub()), OpeningOf(old(OnDisk()), attempt, old(connected)), fanout.cap)
    {
      hide Header, Parser.Valid, Follow.OfferAll, ApplyAll;
      ghost var d0 := OnDisk();
      if !connected {
        var resumeAt := if Resumes(d0, attempt) then Some(side.value.filePos) else None;
        connected, origin := true, Follow.OriginOf(resumeAt, file);
      }
      assert file[..|file|] == file;
      if side.None? || side.value.attempt != attempt {
        var h := Header(attempt);
        WriteAndFlush(h);
        resume := Resume(attempt, 0, |file|);
        SaveResume(resume);
        writePos := resume.filePos;
        parser.Reset();
        fanout.Publish(h);
        TwoOps(d0, Write(h), Save(resume));
      } else {
        resume := side.value;
        TruncateTo(resume.filePos);
        writePos := resume.filePos;
        OneOp(d0, Truncate(resume.filePos));
      }
    }

    /** One chunk: appended, accounted for, offered and parsed, in that order. */
    method TakeChunk(resume: Resume, chunk: Bytes) returns (next: Resume)
      requires parser.Valid() && side == Some(resume)
      modifies this, fanout, parser
      ensures OnDisk() == ApplyAll(old(OnDisk()), ChunkOps(old(OnDisk()), resume, chunk))
      ensures effects == old(effects) + ChunkOps(old(OnDisk()), resume, chunk)
      ensures side == Some(next) && writePos == |file| && next.attempt == resume.attempt && next.filePos == |file|
      ensures fanout.followers == Follow.OfferAll(old(fanout.followers), chunk, fanout.cap)
      ensures parser.Valid() && parser.seen == old(parser.seen) + chunk
      ensures connected == old(connected) && origin == old(origin)
      ensures old(connected) && old(writePos) == |old(file)| ==>
        Hub() == Follow.Next(old(Hub()), Follow.Append(chunk), fanout.cap)
    {
      hide Parser.Valid, Follow.OfferAll, ApplyAll;
      ghost var d0 := OnDisk();
      WriteAndFlush(chunk);
      next := Resume(resume.attempt, resume.offset + |chunk|, |file|);
      SaveResume(next);
      writePos := next.filePos;
      fanout.Publish(chunk);
      parser.Ingest(chunk);
      TwoOps(d0, Write(chunk), Save(next));
    }

    /** Connect once, then take every chunk until the stream ends or is lost. */
    method ConnectOnce(attempt: nat, chunks: seq<Bytes>) returns (got: bool)
      requires parser.Valid() && !parser.exited
      modifies this, fanout, parser
      ensures OnDisk() == ApplyAll(old(OnDisk()), ConnectionOps(old(OnDisk()), attempt, chunks))
      ensures effects == old(effects) + ConnectionOps(old(OnDisk()), attempt, chunks)
      ensures writePos == |file|
      ensures fanout.followers == Offered(old(fanout.followers),
        if Resumes(old(OnDisk()), attempt) then None else Some(Header(attempt)), chunks, fanout.cap)
      ensures parser.Valid()
      ensures parser.seen == (if Resumes(old(OnDisk()), attempt) then old(parser.seen) else []) + Flat(chunks)
      ensures got <==> Flat(chunks) != []
      ensures connected
      ensures old(Attached(attempt)) ==>
        && Hub() == Follow.Run(old(Hub()), HubEvents(OpeningOf(old(OnDisk()), attempt, old(connected)), chunks),
          fanout.cap)
        && Attached(attempt)
        && (old(Follow.HubOk(Hub())) ==> Follow.HubOk(Hub()))
    {
      hide Header, Parser.Valid, Follow.OfferAll, Follow.Next, ApplyAll, ConnectOps, ChunkOps, ConnectionOps, Offered,
        Flat;
      hide Follow.Run, Follow.HubOk, HubEvents, OpeningOf;
      ghost var d0, fs0, ops0 := OnDisk(), fanout.followers, effects;
      ghost var seen0 := if Resumes(d0, attempt) then parser.seen else [];
      ghost var header := if Resumes(d0, attempt) then None else Some(Header(attempt));
      ghost var h0, opening, attached := Hub(), OpeningOf(d0, attempt, connected), Attached(attempt);
      var resume := Open(attempt);
      got := false;
      NoChunksYet(d0, attempt, fs0, header, fanout.cap);
      HubOpens(h0, opening, fanout.cap);
      assert chunks[..0] == [];
      for k := 0 to |chunks|
        invariant OnDisk() == ApplyAll(d0, ConnectionOps(d0, attempt, chunks[..k]))
        invariant effects == ops0 + ConnectionOps(d0, attempt, chunks[..k])
        invariant side == Some(resume) && writePos == |file| && connected
        invariant resume.attempt == attempt && resume.filePos == |file|
        invariant attached ==> Hub() == Follow.Run(h0, HubEvents(opening, chunks[..k]), fanout.cap)
        invariant fanout.followers == Offered(fs0, header, chunks[..k], fanout.cap)
        invariant parser.Valid() && parser.seen == seen0 + Flat(chunks[..k])
        invariant got <==> Flat(chunks[..k]) != []
      {
        var chunk := chunks[k];
        OneMoreChunk(d0, attempt, fs0, header, chunks, k, fanout.cap);
        HubTakes(h0, opening, chunks, k, fanout.cap);
        if chunk != [] {
          Regroup(ops0, ConnectionOps(d0, attempt, chunks[..k]), ChunkOps(OnDisk(), resume, chunk));
          Regroup(seen0, Flat(chunks[..k]), chunk);
          resume := TakeChunk(resume, chunk);
          got := true;
        }
      }
      assert chunks[..|chunks|] == chunks;
      if attached && Follow.HubOk(h0) {
        Follow.RunOk(h0, HubEvents(opening, chunks), fanout.cap);
      }
    }
  }

  lemma NoChunksYet(d0: Disk, attempt: nat, fs0: seq<Follow.Follower>, header: Option<Bytes>, cap: nat)
    ensures ConnectionOps(d0, attempt, []) == ConnectOps(d0, attempt) && Flat([]) == []
    ensures Offered(fs0, header, [], cap) == if header.None? then fs0 else Follow.OfferAll(fs0, header.value, cap)
  {
  }

  /** What one more chunk adds to each account of a connection. */
  lemma OneMoreChunk(d0: Disk, attempt: nat, fs0: seq<Follow.Follower>, header: Option<Bytes>, chunks: seq<Bytes>,
                     k: nat, cap: nat)
    requires k < |chunks|
    ensures
      var chunk, before, after := chunks[k], chunks[..k], chunks[..k + 1];
      var d := ApplyAll(d0, ConnectionOps(d0, attempt, before));
      && Flat(after) == Flat(before) + chunk
      && (chunk == [] ==>
            ConnectionOps(d0, attempt, after) == ConnectionOps(d0, attempt, before)
            && Offered(fs0, header, after, cap) == Offered(fs0, header, before, cap))
      && (chunk != [] ==>
            && ConnectionOps(d0, attempt, after) == ConnectionOps(d0, attempt, before) + ChunkOps(d, ResumeOf(d), chunk)
            && ApplyAll(d0, ConnectionOps(d0, attempt, after)) == ApplyAll(d, ChunkOps(d, ResumeOf(d), chunk))
            && Offered(fs0, header, after, cap) == Follow.OfferAll(Offered(fs0, header, before, cap), chunk, cap))
  {
    hide ApplyAll, ConnectOps, ChunkOps, Follow.OfferAll;
    assert chunks[..k + 1][..k] == chunks[..k];
    var d := ApplyAll(d0, ConnectionOps(d0, attempt, chunks[..k]));
    ApplyMore(d0, ConnectionOps(d0, attempt, chunks[..k]), ChunkOps(d, ResumeOf(d), chunks[k]));
  }

  lemma {:induction false} OneOp(d: Disk, a: Op)
    ensures ApplyAll(d, [a]) == Apply(d, a)
  {
    assert [a][..0] == [];
  }

  lemma TwoOps(d: Disk, a: Op, b: Op)
    ensures ApplyAll(d, [a, b]) == Apply(Apply(d, a), b)
  {
    assert [a, b][..1] == [a];
    OneOp(d, a);
  }
}
