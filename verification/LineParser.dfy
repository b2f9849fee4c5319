/** The incremental line parser of a job's stream: which lines it hands on, for every way the
    bytes may be cut into chunks. */
module LineParser {

  type Byte = char
  type Bytes = seq<Byte>

  /** The bytes of all chunks. */
  function Flat(chunks: seq<Bytes>): Bytes {
    if chunks == [] then [] else Flat(chunks[..|chunks| - 1]) + chunks[|chunks| - 1]
  }

  const NL: Byte := '\n'
  const MAX_LINE: nat := 65536

  /** Where the unfinished last line begins: behind the last newline. */
  function TailStart(b: Bytes): (s: nat)
    ensures s <= |b|
    ensures s == 0 || b[s - 1] == NL
    ensures forall k :: s <= k < |b| ==> b[k] != NL
  {
    if b == [] then 0
    else if b[|b| - 1] == NL then |b|
    else TailStart(b[..|b| - 1])
  }

  /** A complete line: the bytes `from..to`, with its newline at `to`. */
  datatype Span = Span(from: nat, to: nat)

  function Spans(b: Bytes): (r: seq<Span>)
    ensures forall k :: 0 <= k < |r| ==> r[k].from <= r[k].to < |b|
  {
    if b == [] then []
    else
      var n := |b| - 1;
      if b[n] == NL then Spans(b[..n]) + [Span(TailStart(b[..n]), n)] else Spans(b[..n])
  }

  /** Some chunk ended inside the line after more than the limit of it had come in. */
  predicate Overrun(cuts: set<nat>, s: Span) {
    exists p :: p in cuts && s.from + MAX_LINE < p <= s.to
  }

  function SurvivorsOf(b: Bytes, spans: seq<Span>, cuts: set<nat>): seq<Bytes>
    requires forall k :: 0 <= k < |spans| ==> spans[k].from <= spans[k].to < |b|
  {
    if spans == [] then []
    else
      var s := spans[|spans| - 1];
      SurvivorsOf(b, spans[..|spans| - 1], cuts) + (if Overrun(cuts, s) then [] else [b[s.from..s.to]])
  }

  /** The complete lines of `b` but those some chunk boundary of `cuts` overran. */
  function Survivors(b: Bytes, cuts: set<nat>): seq<Bytes> {
    SurvivorsOf(b, Spans(b), cuts)
  }

  // ------------------------------------------------------------------ more bytes, more cuts

  /** Bytes without a newline complete no line. */
  lemma {:induction false} NoNewline(b: Bytes, more: Bytes)
    requires forall k :: 0 <= k < |more| ==> more[k] != NL
    ensures Spans(b + more) == Spans(b) && TailStart(b + more) == TailStart(b)
  {
    if more == [] {
      assert b + more == b;
    } else {
      var n := |more| - 1;
      assert (b + more)[..|b + more| - 1] == b + more[..n];
      NoNewline(b, more[..n]);
    }
  }

  /** The line that ends with the next newline starts where the unfinished one did. */
  lemma {:induction false} NextLine(b: Bytes, line: Bytes)
    requires forall k :: 0 <= k < |line| ==> line[k] != NL
    ensures Spans(b + line + [NL]) == Spans(b) + [Span(TailStart(b), |b| + |line|)]
    ensures TailStart(b + line + [NL]) == |b| + |line| + 1
  {
    NoNewline(b, line);
    assert (b + line + [NL])[..|b| + |line|] == b + line;
  }

  /** Complete lines are settled: neither later bytes nor later cuts touch them. */
  lemma {:induction false} Settled(b: Bytes, b': Bytes, spans: seq<Span>, cuts: set<nat>, cuts': set<nat>)
    requires b <= b'
    requires forall k :: 0 <= k < |spans| ==> spans[k].from <= spans[k].to < |b|
    requires cuts <= cuts' && forall p :: p in cuts' && p !in cuts ==> p >= |b|
    ensures SurvivorsOf(b', spans, cuts') == SurvivorsOf(b, spans, cuts)
  {
    if spans != [] {
      var s := spans[|spans| - 1];
      Settled(b, b', spans[..|spans| - 1], cuts, cuts');
      assert Overrun(cuts', s) == Overrun(cuts, s);
      assert b'[s.from..s.to] == b[s.from..s.to];
    }
  }

  lemma {:induction false} SurvivorsGrow(b: Bytes, line: Bytes, cuts: set<nat>)
    requires forall k :: 0 <= k < |line| ==> line[k] != NL
    ensures
      var b' := b + line + [NL];
      var s := Span(TailStart(b), |b| + |line|);
      Survivors(b', cuts) == Survivors(b, cuts) + (if Overrun(cuts, s) then [] else [b'[s.from..s.to]])
  {
    NextLine(b, line);
    var b' := b + line + [NL];
    Settled(b, b', Spans(b), cuts, cuts);
    assert (Spans(b) + [Span(TailStart(b), |b| + |line|)])[..|Spans(b)|] == Spans(b);
  }

  // ------------------------------------------------------------------ what survives

  /** A line within the limit is never lost, however the bytes were cut. */
  lemma ShortLinesSurvive(cuts: set<nat>, s: Span)
    requires s.to - s.from <= MAX_LINE
    ensures !Overrun(cuts, s)
  {
  }

  /** `parsed` is `lines` without some of its over-long members, in order, each left whole. */
  ghost predicate KeepsShort(lines: seq<Bytes>, parsed: seq<Bytes>) {
    if lines == [] then parsed == []
    else
      var n := |lines| - 1;
      || (parsed != [] && parsed[|parsed| - 1] == lines[n] && KeepsShort(lines[..n], parsed[..|parsed| - 1]))
      || (|lines[n]| > MAX_LINE && KeepsShort(lines[..n], parsed))
  }

  function LinesAt(b: Bytes, spans: seq<Span>): (r: seq<Bytes>)
    requires forall k :: 0 <= k < |spans| ==> spans[k].from <= spans[k].to < |b|
    ensures |r| == |spans|
    ensures forall k :: 0 <= k < |spans| ==> r[k] == b[spans[k].from..spans[k].to]
  {
    seq(|spans|, k requires 0 <= k < |spans| => b[spans[k].from..spans[k].to])
  }

  /** Every line of at most the limit is parsed exactly once and in order, and a longer one is
      parsed whole or not at all - for every chunking. */
  lemma {:induction false} ParsedInOrder(b: Bytes, spans: seq<Span>, cuts: set<nat>)
    requires forall k :: 0 <= k < |spans| ==> spans[k].from <= spans[k].to < |b|
    ensures KeepsShort(LinesAt(b, spans), SurvivorsOf(b, spans, cuts))
  {
    if spans != [] {
      var n := |spans| - 1;
      ParsedInOrder(b, spans[..n], cuts);
      assert LinesAt(b, spans)[..n] == LinesAt(b, spans[..n]);
      var prior := SurvivorsOf(b, spans[..n], cuts);
      var last := b[spans[n].from..spans[n].to];
      assert LinesAt(b, spans)[n] == last;
      if Overrun(cuts, spans[n]) {
        assert |last| > MAX_LINE && prior + [] == prior;
      } else {
        assert (prior + [last])[..|prior|] == prior;
      }
    }
  }

  /** With every line within the limit, how the bytes were cut does not matter at all. */
  lemma {:induction false} ChunkingDoesNotMatter(b: Bytes, spans: seq<Span>, cuts: set<nat>)
    requires forall k :: 0 <= k < |spans| ==> spans[k].from <= spans[k].to < |b|
    requires forall k :: 0 <= k < |spans| ==> spans[k].to - spans[k].from <= MAX_LINE
    ensures SurvivorsOf(b, spans, cuts) == LinesAt(b, spans)
  {
    if spans != [] {
      var n := |spans| - 1;
      ChunkingDoesNotMatter(b, spans[..n], cuts);
      ShortLinesSurvive(cuts, spans[n]);
      assert LinesAt(b, spans) == LinesAt(b, spans[..n]) + [b[spans[n].from..spans[n].to]];
    }
  }

  /** Splitting at newlines and putting the newlines back gives the bytes again. */
  function Joined(lines: seq<Bytes>): Bytes {
    if lines == [] then [] else Joined(lines[..|lines| - 1]) + lines[|lines| - 1] + [NL]
  }

  lemma SameLines(b: Bytes, b': Bytes, spans: seq<Span>)
    requires b <= b' && forall k :: 0 <= k < |spans| ==> spans[k].from <= spans[k].to < |b|
    ensures LinesAt(b', spans) == LinesAt(b, spans)
  {
    forall k | 0 <= k < |spans| ensures b'[spans[k].from..spans[k].to] == b[spans[k].from..spans[k].to] {
    }
  }

  /** The lines of `b`, put together with their newlines and the unfinished rest, are `b`. */
  ghost predicate MadeUp(b: Bytes) {
    && Joined(LinesAt(b, Spans(b))) + b[TailStart(b)..] == b
    && forall k :: 0 <= k < |Spans(b)| ==> NL !in LinesAt(b, Spans(b))[k]
  }

  lemma {:induction false} LinesMakeUpTheBytes(b: Bytes)
    ensures MadeUp(b)
  {
    hide MadeUp;
    if b == [] {
      assert MadeUp([]) by {
        NothingMadeUp();
      }
    } else {
      var n := |b| - 1;
      LinesMakeUpTheBytes(b[..n]);
      assert b == b[..n] + [b[n]];
      if b[n] == NL {
        LineEnds(b[..n]);
      } else {
        LineGoesOn(b[..n], b[n]);
      }
    }
  }

  lemma NothingMadeUp()
    ensures MadeUp([])
  {
  }

  lemma {:induction false} LineEnds(init: Bytes)
    requires MadeUp(init)
    ensures MadeUp(init + [NL])
  {
    hide Spans, TailStart, Joined, LinesAt;
    var b := init + [NL];
    var lines := LinesAt(init, Spans(init));
    var line := init[TailStart(init)..];
    NewlineEnds(init);
    LinesWithLast(init, Spans(init), TailStart(init));
    SameLines(init, b, Spans(init));
    assert LinesAt(b, Spans(b)) == lines + [line];
    assert Joined(lines + [line]) == Joined(lines) + line + [NL] by {
      JoinedMore(lines, line);
    }
    assert b[TailStart(b)..] == [];
  }

  lemma {:induction false} NewlineEnds(init: Bytes)
    ensures Spans(init + [NL]) == Spans(init) + [Span(TailStart(init), |init|)]
    ensures TailStart(init + [NL]) == |init| + 1
  {
    assert (init + [NL])[..|init|] == init;
  }

  lemma {:induction false} LinesWithLast(init: Bytes, spans: seq<Span>, from: nat)
    requires from <= |init| && forall k :: 0 <= k < |spans| ==> spans[k].from <= spans[k].to < |init|
    ensures LinesAt(init + [NL], spans + [Span(from, |init|)]) == LinesAt(init + [NL], spans) + [init[from..]]
  {
    assert (init + [NL])[from..|init|] == init[from..];
  }

  lemma {:induction false} JoinedMore(lines: seq<Bytes>, line: Bytes)
    ensures Joined(lines + [line]) == Joined(lines) + line + [NL]
  {
    assert (lines + [line])[..|lines|] == lines;
  }

  lemma {:induction false} LineGoesOn(init: Bytes, c: Byte)
    requires c != NL && MadeUp(init)
    ensures MadeUp(init + [c])
  {
    hide TailStart, Spans, Joined;
    var b := init + [c];
    NoNewline(init, [c]);
    SameLines(init, b, Spans(init));
    assert b[TailStart(b)..] == init[TailStart(init)..] + [c];
  }

  // ------------------------------------------------------------------ the parser

  datatype Sentinel = Exit(code: int) | Phase(name: Bytes) | Begin | Other

  /** The parsing half of a stream's state. `parsed` collects the lines given to the sentinel
      parser; `seen` and `cuts` are the bytes so far and where chunks ended. */
  class Parser {
    const sentinel: Bytes -> Sentinel
    var lineBuf: Bytes
    var skipLine: bool
    var exited: bool
    var parsed: seq<Bytes>
    ghost var seen: Bytes
    ghost var cuts: set<nat>

    /** Exactly the lines no cut overran were parsed, an exit is known exactly if one of them
        is an exit sentinel, and the buffer is bounded. */
    ghost predicate Valid()
      reads this
    {
      && |lineBuf| <= MAX_LINE
      && Stands(seen, |seen|, lineBuf, skipLine, parsed, cuts)
      && (exited <==> SawExit(sentinel, parsed))
    }

    constructor (sentinel: Bytes -> Sentinel)
      ensures Valid() && seen == [] && cuts == {} && this.sentinel == sentinel
    {
      hide Stands, SawExit;
      NothingSeen(sentinel);
      this.sentinel := sentinel;
      lineBuf, skipLine, exited, parsed := [], false, false, [];
      seen, cuts := [], {};
    }

    /** A new attempt starts with nothing buffered. */
    method Reset()
      requires Valid() && !exited
      modifies this
      ensures Valid() && !exited && seen == [] && cuts == {}
    {
      hide Stands, SawExit;
      NothingSeen(sentinel);
      lineBuf, skipLine, parsed := [], false, [];
      seen, cuts := [], {};
    }

    /** Take in one chunk, which is a cut more. */
    method Ingest(chunk: Bytes)
      requires Valid()
      modifies this
      ensures Valid()
      ensures seen == old(seen) + chunk && cuts == old(cuts) + {|seen|}
    {
      hide Stands, SawExit;
      ghost var all := seen + chunk;
      ghost var base: nat := |seen|;
      ChunkArrives(seen, chunk, lineBuf, skipLine, parsed, cuts);
      lineBuf := lineBuf + chunk;
      while true
        invariant base <= |all| && Stands(all, base, lineBuf, skipLine, parsed, cuts)
        invariant exited <==> SawExit(sentinel, parsed)
        invariant seen == old(seen) && cuts == old(cuts)
        decreases |lineBuf|
      {
        var nl := FindNewline(lineBuf);
        if nl < 0 {
          NoMoreLines(all, base, lineBuf, skipLine, parsed, cuts);
          if |lineBuf| > MAX_LINE {
            lineBuf := [];
            skipLine := true;
          }
          seen, cuts := all, cuts + {|all|};
          return;
        }
        var line := lineBuf[..nl];
        LineDone(all, base, lineBuf, skipLine, parsed, cuts, nl);
        base := |all| - |lineBuf| + nl + 1;
        lineBuf := lineBuf[nl + 1..];
        if skipLine {
          skipLine := false;
        } else {
          ExitSeen(sentinel, parsed, line);
          if sentinel(line).Exit? {
            exited := true;
          }
          parsed := parsed + [line];
        }
      }
    }
  }

  lemma NothingSeen(sentinel: Bytes -> Sentinel)
    ensures Stands([], 0, [], false, [], {}) && !SawExit(sentinel, [])
  {
  }

  predicate SawExit(sentinel: Bytes -> Sentinel, parsed: seq<Bytes>) {
    exists k :: 0 <= k < |parsed| && sentinel(parsed[k]).Exit?
  }

  lemma ExitSeen(sentinel: Bytes -> Sentinel, parsed: seq<Bytes>, line: Bytes)
    ensures SawExit(sentinel, parsed + [line]) <==> SawExit(sentinel, parsed) || sentinel(line).Exit?
  {
    var more := parsed + [line];
    if sentinel(line).Exit? {
      assert sentinel(more[|parsed|]).Exit?;
    }
    if SawExit(sentinel, parsed) {
      var k :| 0 <= k < |parsed| && sentinel(parsed[k]).Exit?;
      assert sentinel(more[k]).Exit?;
    }
  }

  /** Where the parser stands: the lines of `all[..base]` are done, the buffer is the rest of
      `all` from the current line on - or, while an overrun line is being discarded, what is
      left of it. */
  ghost predicate Stands(all: Bytes, base: nat, buf: Bytes, skip: bool, parsed: seq<Bytes>, cuts: set<nat>) {
    && base <= |all| && |buf| <= |all|
    && buf == all[|all| - |buf|..]
    && TailStart(all[..base]) <= |all| - |buf| <= base
    && (forall p :: p in cuts ==> p <= base)
    && (skip <==> exists p :: p in cuts && TailStart(all[..base]) + MAX_LINE < p)
    && (!skip ==> |all| - |buf| == TailStart(all[..base]))
    && parsed == Survivors(all[..base], cuts)
  }

  lemma ChunkArrives(seen: Bytes, chunk: Bytes, buf: Bytes, skip: bool, parsed: seq<Bytes>, cuts: set<nat>)
    requires Stands(seen, |seen|, buf, skip, parsed, cuts)
    ensures Stands(seen + chunk, |seen|, buf + chunk, skip, parsed, cuts)
  {
    hide TailStart, Survivors;
    assert (seen + chunk)[..|seen|] == seen[..|seen|];
    assert (seen + chunk)[|seen| - |buf|..] == buf + chunk;
  }

  /** With no newline left, the rest of the bytes and the chunk's end change no line. */
  lemma NoMoreLines(all: Bytes, base: nat, buf: Bytes, skip: bool, parsed: seq<Bytes>, cuts: set<nat>)
    requires Stands(all, base, buf, skip, parsed, cuts) && NL !in buf
    ensures
      var long := |buf| > MAX_LINE;
      Stands(all, |all|, if long then [] else buf, skip || long, parsed, cuts + {|all|})
  {
    hide TailStart, Spans, Survivors;
    assert all[..|all|] == all;
    Unfinished(all, base, buf, cuts);
  }

  lemma {:induction false} Unfinished(all: Bytes, base: nat, buf: Bytes, cuts: set<nat>)
    requires base <= |all| && |buf| <= |all| && buf == all[|all| - |buf|..]
    requires |all| - |buf| <= base && NL !in buf
    ensures TailStart(all) == TailStart(all[..base])
    ensures Survivors(all, cuts + {|all|}) == Survivors(all[..base], cuts)
  {
    hide TailStart, Spans, SurvivorsOf;
    var more := all[base..];
    QuietRest(all, base, buf);
    assert all == all[..base] + more;
    NoNewline(all[..base], more);
    Settled(all[..base], all, Spans(all[..base]), cuts, cuts + {|all|});
  }

  lemma {:induction false} QuietRest(all: Bytes, base: nat, buf: Bytes)
    requires base <= |all| && |buf| <= |all| && buf == all[|all| - |buf|..]
    requires |all| - |buf| <= base && NL !in buf
    ensures forall k :: 0 <= k < |all[base..]| ==> all[base..][k] != NL
  {
    forall k | 0 <= k < |all[base..]| ensures all[base..][k] != NL {
      assert all[base..][k] == buf[base + k - (|all| - |buf|)];
    }
  }

  /** The newline at `nl` in the buffer ends the line that began behind the previous one. */
  lemma LineDone(all: Bytes, base: nat, buf: Bytes, skip: bool, parsed: seq<Bytes>, cuts: set<nat>, nl: int)
    requires Stands(all, base, buf, skip, parsed, cuts)
    requires 0 <= nl < |buf| && buf[nl] == NL && NL !in buf[..nl]
    ensures
      var end := |all| - |buf| + nl;
      0 <= end && Stands(all, end + 1, buf[nl + 1..], false, if skip then parsed else parsed + [buf[..nl]], cuts)
  {
    hide TailStart, Survivors, Spans;
    var q := |all| - |buf|;
    var start, end := TailStart(all[..base]), q + nl;
    LineSpan(all, base, buf, nl);
    var line := all[base..end];
    SurvivorsGrow(all[..base], line, cuts);
    NextLine(all[..base], line);
    assert Overrun(cuts, Span(start, end)) <==> skip;
    assert all[..end + 1][start..end] == all[start..end];
    assert buf[..nl] == all[q..end] && buf[nl + 1..] == all[end + 1..];
  }

  lemma {:induction false} LineSpan(all: Bytes, base: nat, buf: Bytes, nl: int)
    requires base <= |all| && |buf| <= |all| && buf == all[|all| - |buf|..]
    requires TailStart(all[..base]) <= |all| - |buf| <= base
    requires 0 <= nl < |buf| && buf[nl] == NL && NL !in buf[..nl]
    ensures
      var end := |all| - |buf| + nl;
      && base <= end < |all|
      && (forall k :: 0 <= k < |all[base..end]| ==> all[base..end][k] != NL)
      && all[..end + 1] == all[..base] + all[base..end] + [NL]
  {
    hide TailStart;
    var q := |all| - |buf|;
    var end := q + nl;
    assert all[end] == NL;
    assert base <= end by {
      assert forall k :: TailStart(all[..base]) <= k < base ==> all[..base][k] != NL && all[..base][k] == all[k];
    }
    forall k | 0 <= k < |all[base..end]| ensures all[base..end][k] != NL {
      assert all[base..end][k] == all[base + k] == buf[..nl][base + k - q];
    }
  }

  /** Position of the first newline, or -1. */
  method FindNewline(b: Bytes) returns (nl: int)
    ensures -1 <= nl < |b|
    ensures nl < 0 ==> NL !in b
    ensures nl >= 0 ==> b[nl] == NL && NL !in b[..nl]
  {
    nl := 0;
    while nl < |b|
      invariant 0 <= nl <= |b| && NL !in b[..nl]
    {
      if b[nl] == NL {
        return;
      }
      nl := nl + 1;
    }
    nl := -1;
  }
}
