/** A followed log as it is served: the follower's bytes framed as they arrive, counted from the
    offset the client asked for. */
module Serving {
  import opened Wrappers
  import opened LineParser
  import opened Follow
  import opened Sse

  // ------------------------------------------------------------------ the follower as served

  /** What one step hands to follower `i`, event by event. */
  function Pulls(h: Hub, events: seq<Event>, cap: nat, i: nat): seq<Bytes> {
    if events == [] then []
    else
      var n := |events| - 1;
      var before := Run(h, events[..n], cap);
      Pulls(h, events[..n], cap, i)
      + (if events[n] == Step(i) && i < |before.followers| then [Pulled(before.followers[i], before.file)] else [])
  }

  function Pulled(f: Follower, file: Bytes): Bytes {
    var g := Pull(f, file);
    if |f.got| <= |g.got| then g.got[|f.got|..] else []
  }

  lemma PulledIsMore(f: Follower, file: Bytes)
    ensures Pull(f, file).got == f.got + Pulled(f, file)
  {
  }

  /** Only its own steps give a follower anything. */
  lemma {:induction false} OthersGiveNothing(h: Hub, e: Event, cap: nat, i: nat)
    requires i < |Next(h, e, cap).followers| && e != Step(i)
    ensures Next(h, e, cap).followers[i].got == if i < |h.followers| then h.followers[i].got else []
  {
    hide Pull;
  }

  lemma {:induction false} PullsAreGot(h: Hub, events: seq<Event>, cap: nat, i: nat)
    requires |h.followers| <= i < |Run(h, events, cap).followers|
    ensures Flat(Pulls(h, events, cap, i)) == Run(h, events, cap).followers[i].got
  {
    hide Next, Pull, Pulled;
    var n := |events| - 1;
    var before := Run(h, events[..n], cap);
    var pulls := Pulls(h, events[..n], cap, i);
    if i < |before.followers| {
      PullsAreGot(h, events[..n], cap, i);
    } else {
      NothingPulled(h, events[..n], cap, i);
    }
    if events[n] == Step(i) {
      StepGives(before, cap, i);
      assert (pulls + [Pulled(before.followers[i], before.file)])[..|pulls|] == pulls;
    } else {
      OthersGiveNothing(before, events[n], cap, i);
      assert Pulls(h, events, cap, i) == pulls;
    }
  }

  lemma StepGives(h: Hub, cap: nat, i: nat)
    requires i < |Next(h, Step(i), cap).followers|
    ensures i < |h.followers|
    ensures Next(h, Step(i), cap).followers[i].got == h.followers[i].got + Pulled(h.followers[i], h.file)
  {
    PulledIsMore(h.followers[i], h.file);
  }

  lemma {:induction false} NothingPulled(h: Hub, events: seq<Event>, cap: nat, i: nat)
    requires i >= |Run(h, events, cap).followers|
    ensures Pulls(h, events, cap, i) == []
  {
    hide Next;
    if events != [] {
      var n := |events| - 1;
      NextKeeps(Run(h, events[..n], cap), events[n], cap);
      NothingPulled(h, events[..n], cap, i);
    }
  }

  /** The bridge takes what the follow yields and counts from the offset the client asked for. */
  method ServeFollower(h: Hub, events: seq<Event>, cap: nat, i: nat) returns (frames: seq<Frame>)
    requires |h.followers| <= i < |Run(h, events, cap).followers|
    ensures frames == Frames(Run(h, events, cap).followers[i].got, Run(h, events, cap).followers[i].from)
  {
    PullsAreGot(h, events, cap, i);
    frames := SseFollow(Pulls(h, events, cap, i), Run(h, events, cap).followers[i].from);
  }

  // ------------------------------------------------------------------ frames tell their place

  lemma {:induction false} LastId(b: Bytes, offset: nat)
    ensures Frames(b, offset) == [] <==> b == []
    ensures b != [] ==> Frames(b, offset)[|Frames(b, offset)| - 1].id == offset + |b|
  {
    hide Spans, TailStart, Frames;
    FrameCount(b, offset);
    TailAfterSpans(b);
    if Spans(b) != [] {
      LineId(b, offset, |Spans(b)| - 1);
    }
  }

  /** A line never holds a newline. */
  lemma {:induction false} FirstLineIsPlain(b: Bytes, offset: nat)
    requires b != []
    ensures Frames(b, offset) != [] && NL !in Frames(b, offset)[0].line
  {
    hide Spans, TailStart, Frames;
    LastId(b, offset);
    FrameCount(b, offset);
    if Spans(b) != [] {
      LineId(b, offset, 0);
      LinesMakeUpTheBytes(b);
      assert Frames(b, offset)[0].line == LinesAt(b, Spans(b))[0];
    }
  }

  /** The same bytes with more in front of them are never framed alike. */
  lemma {:induction false} MoreInFront(z: Bytes, x: Bytes, offset: nat)
    requires z != [] && x != []
    ensures Frames(x, offset + |z|) != Frames(z + x, offset)
  {
    hide Frames;
    LastId(x, offset + |z|);
    LastId(z + x, offset);
    IdsAreOffsets(x, offset + |z|, 0);
    IdsAreOffsets(z + x, offset, 0);
    FirstLineIsPlain(x, offset + |z|);
    assert (z + x)[|z + x| - 1] == x[|x| - 1];
  }

  /** What a client that resumes at `id` is served of a log: the file from there, or from where
      the state had written by then, counted from `id`. */
  function Resumed(file: Bytes, boundary: nat, writePos: nat, id: nat): seq<Frame>
    requires boundary <= writePos <= |file|
  {
    Frames(file[Least(id, boundary)..writePos], id)
  }

  /** Resuming at `id` yields what follows `seen` exactly when they are the same - or nothing
      follows and nothing is written behind `id`. */
  lemma {:induction false} ResumedIff(file: Bytes, boundary: nat, writePos: nat, seen: nat, id: nat)
    requires seen <= boundary <= writePos <= |file|
    ensures Resumed(file, boundary, writePos, id) == Frames(file[seen..writePos], seen)
      <==> id == seen || (seen == writePos && writePos <= id)
  {
    hide Frames;
    var a := Least(id, boundary);
    var x, y := file[a..writePos], file[seen..writePos];
    LastId(x, id);
    LastId(y, seen);
    if a == id && id != seen && x != [] && y != [] {
      if seen < id {
        assert y == file[seen..id] + x;
        MoreInFront(file[seen..id], x, seen);
      } else {
        assert x == file[id..seen] + y;
        MoreInFront(file[id..seen], y, id);
      }
    }
  }

  // ------------------------------------------------------------------ resuming

  /** How much of the log a client has that was served `k + 1` lines of `b` from `start` on. */
  function SeenAfter(b: Bytes, start: nat, k: nat): nat
    requires k < |Spans(b)|
  {
    start + Spans(b)[k].to + 1
  }

  /** The ids of complete lines: right exactly when counted from where the bytes begin. Resuming
      at one gives what the client has not seen exactly then, or when nothing is left to see. */
  lemma {:induction false} ResumesIff(heard: Bytes, from: nat, start: nat, file: Bytes, boundary: nat, writePos: nat,
                                      k: nat)
    requires boundary <= writePos <= |file| && Stretch(heard, start, file, writePos) && start + |heard| <= boundary
    requires k < |Spans(heard)|
    ensures
      var id := Frames(heard, from)[k].id;
      var seen := SeenAfter(heard, start, k);
      && start < seen <= start + |heard|
      && (id == seen <==> from == start)
      && |Frames(file[start..writePos], start)| > k
      && Frames(file[start..writePos], start)[k + 1..] == Frames(file[seen..writePos], seen)
      && (Resumed(file, boundary, writePos, id) == Frames(file[start..writePos], start)[k + 1..]
          <==> from == start || (seen == writePos && writePos <= id))
  {
    hide Frames, Spans, Resumed;
    LineId(heard, from, k);
    LineId(heard, start, k);
    var id, seen := Frames(heard, from)[k].id, SeenAfter(heard, start, k);
    var end := start + |heard|;
    ResumesInGrownLog(heard, file[end..writePos], start, k);
    assert heard + file[end..writePos] == file[start..writePos];
    assert file[start..writePos][seen - start..] == file[seen..writePos];
    ResumedIff(file, boundary, writePos, seen, id);
  }

  /** A client served by a follower that was neither dropped nor cut at its end, and resuming
      at the id of a complete line when the state has written up to `boundary`, however much
      the log grows behind it: it gets exactly what it has not seen if and only if its follow
      started as asked, or there is nothing left to see. */
  lemma {:induction false} ResumesWhereServed(h: Hub, events: seq<Event>, cap: nat, i: nat, k: nat, boundary: nat)
    requires HubOk(h) && i < |Run(h, events, cap).followers|
    requires
      var end := Run(h, events, cap);
      var f := end.followers[i];
      !f.lossy && !f.dropped && k < |Spans(f.got)| && StartOf(f, end.origin) + |f.got| <= boundary <= end.writePos
    ensures
      var end := Run(h, events, cap);
      var f := end.followers[i];
      var start, id := StartOf(f, end.origin), Frames(f.got, f.from)[k].id;
      var seen := SeenAfter(f.got, start, k);
      && end.writePos <= |end.file| && start < seen <= end.writePos
      && (id == seen <==> StartsAsAsked(f, end.origin))
      && |Frames(end.file[start..end.writePos], start)| > k
      && (Resumed(end.file, boundary, end.writePos, id) == Frames(end.file[start..end.writePos], start)[k + 1..]
          <==> StartsAsAsked(f, end.origin) || (seen == end.writePos && end.writePos <= id))
  {
    hide HubOk, Run, Frames, Spans, Resumed, Stretch, Contiguous, Owed, StartsAsAsked;
    FollowersAreContiguous(h, events, cap, i);
    var end := Run(h, events, cap);
    var f := end.followers[i];
    ResumesIff(f.got, f.from, StartOf(f, end.origin), end.file, boundary, end.writePos, k);
  }

  // ------------------------------------------------------------------ the failing inputs

  /** Asking from beyond what is written: the one line of content is served under an id past
      the end of the file, and resuming there misses the line that follows. */
  lemma {:induction false} AheadOfTheLog()
    ensures
      var h := Hub([], 0, false, 0, false, []);
      var served := [FirstConnect(None, "H\n"), Subscribe(9), Append("x\n"), Step(0)];
      var end := Run(h, served + [Append("y\n")], 2);
      && HubOk(h) && |end.followers| == 1 && end.file == "H\nx\ny\n" && end.writePos == 6
      && end.followers[0].got == "x\n" && end.followers[0].from == 9 && end.followers[0].boundary == 2
      && Frames(end.followers[0].got, 9) == [Frame(11, "x")]
      && Frames(end.file[4..], 4) == [Frame(6, "y")]
      && Resumed(end.file, end.writePos, end.writePos, 11) == []
  {
    hide Next, Frames, Resumed;
    var h := Hub([], 0, false, 0, false, []);
    var events := [FirstConnect(None, "H\n"), Subscribe(9), Append("x\n"), Step(0), Append("y\n")];
    assert [FirstConnect(None, "H\n"), Subscribe(9), Append("x\n"), Step(0)] + [Append("y\n")] == events;
    assert events[..4][..3] == events[..3] && events[..3][..2] == events[..2] && events[..2][..1] == events[..1];
    assert events[..1][..0] == [];
    var f := Follower(9, false, 2, 9, [], true, false, [], false, false);
    FirstHeader(h);
    assert Run(h, events[..1], 2) == Hub("H\n", 2, true, 0, false, []);
    JoinsAhead();
    assert Run(h, events[..2], 2) == Hub("H\n", 2, true, 0, false, [f]);
    Offered(Hub("H\n", 2, true, 0, false, [f]), "x\n");
    assert Run(h, events[..3], 2) == Hub("H\n" + "x\n", 4, true, 0, false, [f.(queue := [Some("x\n")])]);
    Taken(Run(h, events[..3], 2), "x\n");
    var g := f.(got := [] + "x\n");
    assert Run(h, events[..4], 2) == Hub("H\n" + "x\n", 4, true, 0, false, [g]);
    Offered(Run(h, events[..4], 2), "y\n");
    assert Run(h, events, 2) == Hub("H\n" + "x\n" + "y\n", 6, true, 0, false, [g.(queue := [Some("y\n")])]);
    OneLine("x", 9);
    OneLine("y", 4);
    assert "x" + [NL] == "x\n" && "y" + [NL] == "y\n";
    assert Run(h, events, 2).file[4..] == "y\n";
    NothingBehind(Run(h, events, 2).file, 11);
  }

  lemma FirstHeader(h: Hub)
    requires h == Hub([], 0, false, 0, false, [])
    ensures Next(h, FirstConnect(None, "H\n"), 2) == Hub("H\n", 2, true, 0, false, [])
  {
    assert [] + "H\n" == "H\n";
  }

  lemma JoinsAhead()
    ensures Next(Hub("H\n", 2, true, 0, false, []), Subscribe(9), 2)
         == Hub("H\n", 2, true, 0, false, [Follower(9, false, 2, 9, [], true, false, [], false, false)])
  {
  }

  lemma Offered(h: Hub, data: Bytes)
    requires h.connected && !h.stopped && h.writePos == |h.file| && |h.followers| == 1
    requires h.followers[0].listening && h.followers[0].queue == []
    ensures Next(h, Append(data), 2)
         == h.(file := h.file + data, writePos := |h.file| + |data|,
           followers := [h.followers[0].(queue := [Some(data)])])
  {
    assert h.followers[0].queue + [Some(data)] == [Some(data)];
    assert OfferAll(h.followers, data, 2) == [Offer(h.followers[0], data, 2)];
  }

  lemma Taken(h: Hub, data: Bytes)
    requires |h.followers| == 1 && h.followers[0].queue == [Some(data)]
    requires !h.followers[0].ended && h.followers[0].pos >= h.followers[0].boundary
    ensures Next(h, Step(0), 2)
         == h.(followers := [h.followers[0].(queue := [], got := h.followers[0].got + data)])
  {
    assert h.followers[0].queue[1..] == [];
    assert h.followers[0 := Pull(h.followers[0], h.file)] == [Pull(h.followers[0], h.file)];
  }

  lemma NothingBehind(file: Bytes, id: nat)
    requires id >= |file|
    ensures Resumed(file, |file|, |file|, id) == []
  {
    LastId(file[|file|..|file|], id);
  }

  lemma {:induction false} OneLine(line: Bytes, offset: nat)
    requires NL !in line
    ensures Frames(line + [NL], offset) == [Frame(offset + |line| + 1, line)]
  {
    NextLine([], line);
    assert [] + line + [NL] == line + [NL];
  }

  // ------------------------------------------------------------------ after a drop

  /** The drop marker is framed like log content. Its first newline ends whatever line the bytes
      were in, its second one the marker's own line. */
  lemma {:induction false} MarkerFrames(heard: Bytes, from: nat)
    ensures
      var n, frames := |Spans(heard)|, Frames(heard + DROPPED_MARKER, from);
      && |frames| == n + 2 && |Frames(heard, from)| >= n && frames[..n] == Frames(heard, from)[..n]
      && frames[n] == Frame(from + |heard| + 1, heard[TailStart(heard)..])
      && frames[n + 1] == Frame(from + |heard| + |DROPPED_MARKER|, DROPPED_LINE)
  {
    hide Spans, TailStart, Frames, DROPPED_LINE, DROPPED_MARKER;
    MarkerIsALine();
    MarkerSpans(heard);
    var n, b := |Spans(heard)|, heard + DROPPED_MARKER;
    FrameCount(b, from);
    FrameCount(heard, from);
    LineId(b, from, n);
    LineId(b, from, n + 1);
    assert b[TailStart(heard)..|heard|] == heard[TailStart(heard)..];
    assert b[|heard| + 1..|heard| + 1 + |DROPPED_LINE|] == DROPPED_LINE;
    forall k | 0 <= k < n ensures Frames(b, from)[k] == Frames(heard, from)[k] {
      LineId(b, from, k);
      LineId(heard, from, k);
      var s := Spans(heard)[k];
      assert b[s.from..s.to] == heard[s.from..s.to];
    }
  }

  lemma {:induction false} MarkerSpans(heard: Bytes)
    ensures
      var b := heard + DROPPED_MARKER;
      && Spans(b) == Spans(heard) + [Span(TailStart(heard), |heard|), Span(|heard| + 1, |heard| + 1 + |DROPPED_LINE|)]
      && TailStart(b) == |b|
  {
    hide Spans, TailStart, DROPPED_LINE, DROPPED_MARKER;
    MarkerIsALine();
    assert heard + DROPPED_MARKER == heard + [NL] + DROPPED_LINE + [NL];
    NewlineEnds(heard);
    NextLine(heard + [NL], DROPPED_LINE);
  }

  lemma MarkerIsALine()
    ensures NL !in DROPPED_LINE
    ensures DROPPED_MARKER == [NL] + DROPPED_LINE + [NL]
  {
    assert NL !in "----- omnirun " && NL !in "follow dropped: " && NL !in "consumer too " && NL !in "slow -----";
  }

  /** The marker's two frames count bytes the log does not have: the first shows the line it cut
      as if it were whole, under an id one past the bytes given; the second lies the marker's
      length past them. Every earlier id is covered by the bytes given, and resuming there is
      right as without a drop. Resuming at one of the two skips as much of the log as they
      count too far, as far as that much is written; it yields what a reader from the cut line
      on gets exactly when the id happens to be there, or nothing is left. */
  lemma {:induction false} DropOvershoots(got: Bytes, heard: Bytes, from: nat, start: nat, file: Bytes, boundary: nat,
                                          writePos: nat, k: nat)
    requires writePos <= |file| && got == heard + DROPPED_MARKER && Stretch(heard, start, file, writePos)
    requires start + |heard| <= boundary <= writePos
    requires k < |Frames(got, from)|
    ensures
      var id := Frames(got, from)[k].id;
      var cut := start + TailStart(heard);
      && |Frames(got, from)| == |Spans(heard)| + 2
      && (id <= from + |heard| <==> k < |Spans(heard)|)
      && (k < |Spans(heard)| ==>
            && k < |Frames(file[start..writePos], start)|
            && (Resumed(file, boundary, writePos, id) == Frames(file[start..writePos], start)[k + 1..]
                <==> from == start || (SeenAfter(heard, start, k) == writePos && writePos <= id)))
      && (k >= |Spans(heard)| ==>
            && id == from + |heard| + (if k == |Spans(heard)| then 1 else |DROPPED_MARKER|)
            && (Resumed(file, boundary, writePos, id) == Frames(file[cut..writePos], cut)
                <==> id == cut || (cut == writePos && writePos <= id)))
  {
    hide Frames, Spans, TailStart, Resumed, Stretch;
    MarkerFrames(heard, from);
    assert |Spans(heard)| <= k ==> k == |Spans(heard)| || k == |Spans(heard)| + 1;
    if k < |Spans(heard)| {
      LineId(heard, from, k);
      ResumesIff(heard, from, start, file, boundary, writePos, k);
      assert Frames(got, from)[k] == Frames(got, from)[..|Spans(heard)|][k] == Frames(heard, from)[k];
    } else {
      StretchEnds(heard, start, file, writePos);
      ResumedIff(file, boundary, writePos, start + TailStart(heard), Frames(got, from)[k].id);
    }
  }

  lemma StretchEnds(b: Bytes, start: nat, file: Bytes, writePos: nat)
    requires writePos <= |file| && Stretch(b, start, file, writePos)
    ensures start + |b| <= writePos
  {
  }

  /** So a dropped client whose follow started where it asked, and that resumes at the last id
      it was given, misses as many bytes as the marker has, or all that were written since. */
  lemma {:induction false} DropSkips(got: Bytes, heard: Bytes, from: nat, file: Bytes, boundary: nat, writePos: nat)
    requires writePos <= |file| && got == heard + DROPPED_MARKER && Stretch(heard, from, file, writePos)
    requires from + |heard| <= boundary <= writePos
    ensures
      var frames := Frames(got, from);
      var skipped := Least(|DROPPED_MARKER|, boundary - (from + |heard|));
      && frames != []
      && var id := frames[|frames| - 1].id;
      && Resumed(file, boundary, writePos, id) == Frames(file[from + |heard| + skipped..writePos], id)
      && file[from..writePos] == heard + file[from + |heard|..from + |heard| + skipped]
        + file[from + |heard| + skipped..writePos]
  {
    hide Frames, Spans, TailStart, DROPPED_LINE, DROPPED_MARKER, Stretch;
    MarkerIsALine();
    MarkerFrames(heard, from);
    var skipped := Least(|DROPPED_MARKER|, boundary - (from + |heard|));
    StretchParts(heard, from, file, writePos, skipped);
  }

  lemma StretchParts(b: Bytes, start: nat, file: Bytes, writePos: nat, more: nat)
    requires writePos <= |file| && Stretch(b, start, file, writePos) && start + |b| + more <= writePos
    ensures file[start..writePos] == b + file[start + |b|..start + |b| + more] + file[start + |b| + more..writePos]
  {
  }
}
