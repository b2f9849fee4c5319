/** Server-sent log frames: one frame a line, its id the byte offset behind the line. */
module Sse {
  import opened LineParser

  datatype Frame = Frame(id: nat, line: Bytes)

  /** The frames of complete lines of `b`, which stands at `offset` in the log. */
  function LineFrames(b: Bytes, spans: seq<Span>, offset: nat): (r: seq<Frame>)
    requires forall k :: 0 <= k < |spans| ==> spans[k].from <= spans[k].to < |b|
    ensures |r| == |spans|
    ensures forall k :: 0 <= k < |spans| ==> r[k] == Frame(offset + spans[k].to + 1, b[spans[k].from..spans[k].to])
  {
    seq(|spans|, k requires 0 <= k < |spans| => Frame(offset + spans[k].to + 1, b[spans[k].from..spans[k].to]))
  }

  /** All frames: the complete lines, and what follows the last newline if anything does. */
  function Frames(b: Bytes, offset: nat): seq<Frame> {
    LineFrames(b, Spans(b), offset) + TailFrame(b, offset)
  }

  function TailFrame(b: Bytes, offset: nat): seq<Frame> {
    if TailStart(b) < |b| then [Frame(offset + |b|, b[TailStart(b)..])] else []
  }

  // ------------------------------------------------------------------ what the ids are

  /** Spans follow each other: each line starts behind the newline of the one before. */
  lemma {:induction false} SpansAbut(b: Bytes, k: nat)
    requires k < |Spans(b)|
    ensures Spans(b)[k].from == if k == 0 then 0 else Spans(b)[k - 1].to + 1
    ensures b[Spans(b)[k].to] == NL
    ensures TailStart(b) == Spans(b)[|Spans(b)| - 1].to + 1
  {
    var n := |b| - 1;
    var init := b[..n];
    if b[n] == NL {
      TailAfterSpans(init);
      if k < |Spans(init)| {
        SpansAbut(init, k);
      }
    } else {
      SpansAbut(init, k);
    }
  }

  lemma {:induction false} TailAfterSpans(b: Bytes)
    ensures TailStart(b) == if Spans(b) == [] then 0 else Spans(b)[|Spans(b)| - 1].to + 1
  {
    if b != [] && b[|b| - 1] != NL {
      TailAfterSpans(b[..|b| - 1]);
    }
  }

  lemma {:induction false} LineId(b: Bytes, offset: nat, k: nat)
    requires k < |Spans(b)|
    ensures k < |Frames(b, offset)|
    ensures Frames(b, offset)[k] == Frame(offset + Spans(b)[k].to + 1, b[Spans(b)[k].from..Spans(b)[k].to])
  {
    hide Spans, TailStart;
  }

  /** Where frame `k` begins: at the id before it. */
  function StartOfFrame(b: Bytes, offset: nat, k: nat): nat
    requires k < |Frames(b, offset)|
  {
    if k == 0 then offset else Frames(b, offset)[k - 1].id
  }

  lemma {:induction false} FrameStart(b: Bytes, offset: nat, k: nat)
    requires k < |Frames(b, offset)|
    ensures StartOfFrame(b, offset, k) == offset + (if k < |Spans(b)| then Spans(b)[k].from else TailStart(b))
  {
    hide Spans, TailStart, Frames;
    TailAfterSpans(b);
    FrameCount(b, offset);
    if k < |Spans(b)| {
      SpansAbut(b, k);
    }
    if k > 0 {
      LineId(b, offset, k - 1);
    }
  }

  lemma {:induction false} FrameCount(b: Bytes, offset: nat)
    ensures |Frames(b, offset)| == |Spans(b)| + (if TailStart(b) < |b| then 1 else 0)
    ensures TailStart(b) < |b| ==> Frames(b, offset)[|Spans(b)|] == Frame(offset + |b|, b[TailStart(b)..])
  {
    hide Spans, TailStart;
  }

  /** Ids strictly increase, and each is the offset of the byte behind its line: the content
      between two ids is the line and, for a complete one, its newline. */
  lemma IdsAreOffsets(b: Bytes, offset: nat, k: nat)
    requires k < |Frames(b, offset)|
    ensures
      var fs := Frames(b, offset);
      var start := StartOfFrame(b, offset, k);
      && offset <= start < fs[k].id <= offset + |b|
      && (b[start - offset..fs[k].id - offset] == fs[k].line + [NL]
          || (k == |fs| - 1 && fs[k].id == offset + |b| && b[start - offset..] == fs[k].line))
  {
    hide Spans, TailStart, Frames, StartOfFrame;
    FrameStart(b, offset, k);
    FrameCount(b, offset);
    if k < |Spans(b)| {
      LineId(b, offset, k);
      SpansAbut(b, k);
      var s := Spans(b)[k];
      assert b[s.from..s.to + 1] == b[s.from..s.to] + [NL];
    }
  }

  // ------------------------------------------------------------------ resuming

  /** `ours` are the spans from `k` on, seen from `cut`. */
  ghost predicate ShiftedSpans(ours: seq<Span>, theirs: seq<Span>, k: nat, cut: nat) {
    && k + |ours| == |theirs|
    && forall j :: 0 <= j < |ours| ==> theirs[k + j].from == ours[j].from + cut && theirs[k + j].to == ours[j].to + cut
  }

  /** What cutting at `cut`, behind line `k`, does to the lines. */
  ghost predicate CutsCleanly(b: Bytes, cut: nat, k: nat) {
    && cut <= |b|
    && ShiftedSpans(Spans(b[cut..]), Spans(b), k + 1, cut)
    && cut <= TailStart(b) == TailStart(b[cut..]) + cut
  }

  lemma CutsMore(init: Bytes, c: Byte, cut: nat, k: nat)
    requires CutsCleanly(init, cut, k)
    ensures CutsCleanly(init + [c], cut, k)
  {
    hide Spans, TailStart;
    assert (init + [c])[cut..] == init[cut..] + [c];
    if c == NL {
      NewlineEnds(init);
      NewlineEnds(init[cut..]);
    } else {
      NoNewline(init, [c]);
      NoNewline(init[cut..], [c]);
    }
  }

  lemma {:induction false} CutsAtEnd(init: Bytes)
    ensures CutsCleanly(init + [NL], |init| + 1, |Spans(init)|)
  {
    hide Spans, TailStart;
    NewlineEnds(init);
    assert (init + [NL])[|init| + 1..] == [];
    assert Spans([]) == [] && TailStart([]) == 0 by {
      NoLines();
    }
  }

  lemma NoLines()
    ensures Spans([]) == [] && TailStart([]) == 0
  {
  }

  /** Cutting the bytes behind a newline cuts the lines there. */
  lemma {:induction false} SpansBehind(b: Bytes, cut: nat, k: nat)
    requires k < |Spans(b)| && cut == Spans(b)[k].to + 1
    ensures CutsCleanly(b, cut, k)
  {
    hide CutsCleanly, TailStart;
    var n := |b| - 1;
    var init := b[..n];
    assert b == init + [b[n]];
    if b[n] == NL && k == |Spans(init)| {
      CutsAtEnd(init);
    } else {
      SpansBehind(init, cut, k);
      CutsMore(init, b[n], cut, k);
    }
  }

  lemma DropFront<T>(a: seq<T>, b: seq<T>, k: nat)
    requires k <= |a|
    ensures (a + b)[k..] == a[k..] + b
  {
  }

  lemma {:induction false} SameTail(b: Bytes, offset: nat, cut: nat)
    requires cut <= |b| && TailStart(b) >= cut && TailStart(b[cut..]) == TailStart(b) - cut
    ensures TailFrame(b[cut..], offset + cut) == TailFrame(b, offset)
  {
    hide TailStart;
    assert b[cut..][TailStart(b) - cut..] == b[TailStart(b)..];
  }

  /** Restarting at the id of a complete line yields exactly the remaining frames. */
  lemma {:induction false} ResumesAtLine(b: Bytes, offset: nat, k: nat)
    requires k < |Spans(b)|
    ensures
      var id := Frames(b, offset)[k].id;
      offset <= id <= offset + |b| && Frames(b[id - offset..], id) == Frames(b, offset)[k + 1..]
  {
    hide Spans, TailStart, LineFrames;
    LineId(b, offset, k);
    var cut := Spans(b)[k].to + 1;
    SpansBehind(b, cut, k);
    ShiftedFrames(b, offset, cut, Spans(b)[k + 1..], Spans(b[cut..]));
    LaterFrames(b, Spans(b), offset, k + 1);
    SameTail(b, offset, cut);
    DropFront(LineFrames(b, Spans(b), offset), TailFrame(b, offset), k + 1);
  }

  /** Lines of the rest of `b` are lines of `b`, further along. */
  lemma ShiftedFrames(b: Bytes, offset: nat, cut: nat, theirs: seq<Span>, ours: seq<Span>)
    requires cut <= |b| && |theirs| == |ours|
    requires forall j :: 0 <= j < |theirs| ==> theirs[j].from <= theirs[j].to < |b|
    requires forall j :: 0 <= j < |ours| ==> ours[j].from <= ours[j].to < |b| - cut
    requires forall j :: 0 <= j < |ours| ==> theirs[j].from == ours[j].from + cut && theirs[j].to == ours[j].to + cut
    ensures LineFrames(b[cut..], ours, offset + cut) == LineFrames(b, theirs, offset)
  {
    forall j | 0 <= j < |ours| ensures b[cut..][ours[j].from..ours[j].to] == b[theirs[j].from..theirs[j].to] {
    }
  }

  lemma LaterFrames(b: Bytes, spans: seq<Span>, offset: nat, k: nat)
    requires k <= |spans| && forall j :: 0 <= j < |spans| ==> spans[j].from <= spans[j].to < |b|
    ensures LineFrames(b, spans[k..], offset) == LineFrames(b, spans, offset)[k..]
  {
  }

  /** So does restarting at any emitted id. */
  lemma ResumesExactly(b: Bytes, offset: nat, k: nat)
    requires k < |Frames(b, offset)|
    ensures
      var id := Frames(b, offset)[k].id;
      offset <= id <= offset + |b| && Frames(b[id - offset..], id) == Frames(b, offset)[k + 1..]
  {
    if k < |Spans(b)| {
      ResumesAtLine(b, offset, k);
    } else {
      assert b[|b|..] == [];
    }
  }

  /** A log that has grown since keeps the frames of its complete lines. */
  lemma {:induction false} LinesStay(b: Bytes, more: Bytes)
    ensures Spans(b) <= Spans(b + more)
  {
    if more == [] {
      assert b + more == b;
    } else {
      assert (b + more)[..|b + more| - 1] == b + more[..|more| - 1];
      LinesStay(b, more[..|more| - 1]);
    }
  }

  /** Resuming at a complete line's id in the grown log gives what a fresh read would give
      from there. */
  lemma ResumesInGrownLog(b: Bytes, more: Bytes, offset: nat, k: nat)
    requires k < |Spans(b)|
    ensures
      var id := Frames(b, offset)[k].id;
      && offset <= id <= offset + |b + more| && |Frames(b + more, offset)| > k
      && Frames(b + more, offset)[k] == Frames(b, offset)[k]
      && Frames((b + more)[id - offset..], id) == Frames(b + more, offset)[k + 1..]
  {
    hide Spans, TailStart;
    LinesStay(b, more);
    ResumesAtLine(b + more, offset, k);
    var s := Spans(b)[k];
    assert (b + more)[s.from..s.to] == b[s.from..s.to];
  }

  // ------------------------------------------------------------------ the two servers

  lemma FramesKept(b: Bytes, b': Bytes, spans: seq<Span>, offset: nat)
    requires b <= b' && forall k :: 0 <= k < |spans| ==> spans[k].from <= spans[k].to < |b|
    ensures LineFrames(b', spans, offset) == LineFrames(b, spans, offset)
  {
    forall k | 0 <= k < |spans| ensures b'[spans[k].from..spans[k].to] == b[spans[k].from..spans[k].to] {
    }
  }

  /** The lines of `b` are out and the rest of it is in the buffer. */
  ghost predicate Bridged(b: Bytes, offset: nat, pos: nat, buf: Bytes, frames: seq<Frame>) {
    && |buf| <= |b| && pos == offset + |b| - |buf| && buf == b[|b| - |buf|..]
    && TailStart(b[..|b| - |buf|]) == |b| - |buf|
    && frames == LineFrames(b, Spans(b[..|b| - |buf|]), offset)
  }

  lemma BridgeMore(b: Bytes, chunk: Bytes, offset: nat, pos: nat, buf: Bytes, frames: seq<Frame>)
    requires Bridged(b, offset, pos, buf, frames)
    ensures Bridged(b + chunk, offset, pos, buf + chunk, frames)
  {
    hide Spans, TailStart;
    var done := b[..|b| - |buf|];
    assert (b + chunk)[..|done|] == done;
    assert (b + chunk)[|done|..] == buf + chunk;
    FramesKept(b, b + chunk, Spans(done), offset);
  }

  lemma BridgeLine(b: Bytes, offset: nat, pos: nat, buf: Bytes, frames: seq<Frame>, nl: int)
    requires Bridged(b, offset, pos, buf, frames)
    requires 0 <= nl < |buf| && buf[nl] == NL && NL !in buf[..nl]
    ensures Bridged(b, offset, pos + nl + 1, buf[nl + 1..], frames + [Frame(pos + nl + 1, buf[..nl])])
  {
    hide Spans, TailStart;
    var done := b[..|b| - |buf|];
    var line := buf[..nl];
    assert b[..|done| + nl + 1] == done + line + [NL];
    NextLine(done, line);
    assert b[|done|..|done| + nl] == line;
    assert b[|done| + nl + 1..] == buf[nl + 1..];
  }

  /** When nothing but an unfinished line is left, it is the last frame. */
  lemma BridgeEnds(b: Bytes, offset: nat, pos: nat, buf: Bytes, frames: seq<Frame>)
    requires Bridged(b, offset, pos, buf, frames) && NL !in buf
    ensures Frames(b, offset) == frames + (if buf == [] then [] else [Frame(pos + |buf|, buf)])
  {
    hide Spans, TailStart;
    var done := b[..|b| - |buf|];
    assert b == done + buf;
    NoNewline(done, buf);
  }

  lemma NothingBridged(offset: nat)
    ensures Bridged([], offset, offset, [], [])
  {
  }

  /** Replay of a file: line by line, each with its newline, to the end. */
  method SseFile(content: Bytes, offset: nat) returns (frames: seq<Frame>)
    ensures frames == if offset <= |content| then Frames(content[offset..], offset) else []
  {
    hide Frames, Spans, TailStart, LineFrames, Bridged;
    frames := [];
    if offset > |content| {
      return;
    }
    var pos: nat := offset;
    WholeFileAhead(content[offset..], offset);
    while pos < |content|
      invariant pos <= |content| && Bridged(content[offset..], offset, pos, content[pos..], frames)
      decreases |content| - pos
    {
      var nl := FindNewline(content[pos..]);
      if nl < 0 {
        BridgeEnds(content[offset..], offset, pos, content[pos..], frames);
        frames := frames + [Frame(|content|, content[pos..])];
        return;
      }
      var raw := content[pos..pos + nl + 1];
      BridgeLine(content[offset..], offset, pos, content[pos..], frames, nl);
      assert raw[..|raw| - 1] == content[pos..][..nl] && content[pos..][nl + 1..] == content[pos + nl + 1..];
      pos := pos + |raw|;
      frames := frames + [Frame(pos, raw[..|raw| - 1])];
    }
    BridgeEnds(content[offset..], offset, pos, content[pos..], frames);
  }

  lemma {:induction false} WholeFileAhead(b: Bytes, offset: nat)
    ensures Bridged(b, offset, offset, b, [])
  {
    assert b[0..] == b;
  }

  /** The bridge of a live follow: whatever the chunks, line frames as they complete, and the
      unfinished rest when the follow ends. */
  method SseFollow(chunks: seq<Bytes>, offset: nat) returns (frames: seq<Frame>)
    ensures frames == Frames(Flat(chunks), offset)
  {
    hide Frames, Spans, TailStart, LineFrames, Bridged;
    var pos: nat := offset;
    var buf := [];
    frames := [];
    NothingBridged(offset);
    for k := 0 to |chunks|
      invariant Bridged(Flat(chunks[..k]), offset, pos, buf, frames) && NL !in buf
    {
      assert chunks[..k + 1][..k] == chunks[..k];
      ghost var b := Flat(chunks[..k + 1]);
      BridgeMore(Flat(chunks[..k]), chunks[k], offset, pos, buf, frames);
      buf := buf + chunks[k];
      while true
        invariant Bridged(b, offset, pos, buf, frames)
        decreases |buf|
      {
        var nl := FindNewline(buf);
        if nl < 0 {
          break;
        }
        BridgeLine(b, offset, pos, buf, frames, nl);
        var line := buf[..nl];
        buf := buf[nl + 1..];
        pos := pos + nl + 1;
        frames := frames + [Frame(pos, line)];
      }
    }
    assert chunks[..|chunks|] == chunks;
    BridgeEnds(Flat(chunks), offset, pos, buf, frames);
    if buf != [] {
      pos := pos + |buf|;
      frames := frames + [Frame(pos, buf)];
    }
  }
}
