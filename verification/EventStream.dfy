/** What a client that follows the event-stream rules (WHATWG HTML, sections 9.2.5 and 9.2.6)
    makes of the frames. */
module EventStream {
  import opened Wrappers
  import opened Sse

  /** One dispatched message. */
  datatype Message = Message(lastId: string, data: string)

  /** The interpreter between two characters: the line so far, whether a CR just ended one,
      the data and last-id buffers, and the messages dispatched. */
  datatype Reader = Reader(line: string, afterCr: bool, data: string, lastId: string, out: seq<Message>)

  const START := Reader("", false, "", "", [])

  function FieldEnd(line: string): (n: nat)
    ensures n <= |line| && ':' !in line[..n] && (n < |line| ==> line[n] == ':')
  {
    if line == "" || line[0] == ':' then 0
    else
      assert line == [line[0]] + line[1..];
      1 + FieldEnd(line[1..])
  }

  function ValueAfter(line: string, colon: nat): string
    requires colon <= |line|
  {
    if colon == |line| then ""
    else if colon + 1 < |line| && line[colon + 1] == ' ' then line[colon + 2..]
    else line[colon + 1..]
  }

  /** An empty line dispatches; a line that starts with a colon is a comment; other lines set
      a field, and unknown fields are ignored. */
  function EndLine(r: Reader): Reader {
    var line := r.line;
    if line == "" then
      if r.data == "" then r.(line := "")
      else r.(line := "", data := "",
              out := r.out + [Message(r.lastId, if r.data[|r.data| - 1] == '\n' then r.data[..|r.data| - 1]
                else r.data)])
    else
      var colon := FieldEnd(line);
      var field, value := line[..colon], ValueAfter(line, colon);
      if colon == 0 then r.(line := "")
      else if field == "data" then r.(line := "", data := r.data + value + "\n")
      else if field == "id" && '\0' !in value then r.(line := "", lastId := value)
      else r.(line := "")
  }

  /** Lines end with LF, CR or CR LF. */
  function Read(r: Reader, c: char): Reader {
    if c == '\n' then (if r.afterCr then r.(afterCr := false) else EndLine(r))
    else if c == '\r' then EndLine(r.(afterCr := false)).(afterCr := true)
    else r.(line := r.line + [c], afterCr := false)
  }

  function ReadAll(r: Reader, text: string): Reader {
    if text == "" then r else Read(ReadAll(r, text[..|text| - 1]), text[|text| - 1])
  }

  // ------------------------------------------------------------------ what is sent

  function FrameText(f: Frame): string {
    "id: " + Decimal(f.id) + "\n" + "data: " + f.line + "\n\n"
  }

  function TextOf(frames: seq<Frame>): string {
    if frames == [] then "" else TextOf(frames[..|frames| - 1]) + FrameText(frames[|frames| - 1])
  }

  function MessagesOf(frames: seq<Frame>): (m: seq<Message>)
    ensures |m| == |frames| && forall k :: 0 <= k < |frames| ==> m[k] == Message(Decimal(frames[k].id), frames[k].line)
  {
    seq(|frames|, k requires 0 <= k < |frames| => Message(Decimal(frames[k].id), frames[k].line))
  }

  // ------------------------------------------------------------------ reading a frame

  lemma {:induction false} ReadMore(r: Reader, a: string, b: string)
    ensures ReadAll(r, a + b) == ReadAll(ReadAll(r, a), b)
  {
    if b == "" {
      assert a + b == a;
    } else {
      assert (a + b)[..|a + b| - 1] == a + b[..|b| - 1];
      ReadMore(r, a, b[..|b| - 1]);
    }
  }

  predicate OneLine(line: string) {
    '\n' !in line && '\r' !in line
  }

  lemma {:induction false} ReadLineBody(r: Reader, line: string)
    requires OneLine(line) && !r.afterCr
    ensures ReadAll(r, line) == r.(line := r.line + line)
  {
    if line == "" {
      assert r.line + line == r.line;
    } else {
      var n := |line| - 1;
      assert line == line[..n] + [line[n]];
      ReadLineBody(r, line[..n]);
      assert r.line + line == r.line + line[..n] + [line[n]];
    }
  }

  /** A whole line within one terminator is processed as that line. */
  lemma {:induction false} ReadLine(r: Reader, line: string)
    requires OneLine(line) && !r.afterCr && r.line == ""
    ensures ReadAll(r, line + "\n") == EndLine(r.(line := line))
  {
    hide EndLine;
    ReadLineBody(r, line);
    assert (line + "\n")[..|line|] == line;
    assert "" + line == line;
  }

  lemma FieldOf(name: string, value: string)
    requires name != "" && ':' !in name
    ensures FieldEnd(name + ": " + value) == |name|
    ensures ValueAfter(name + ": " + value, |name|) == value
    ensures (name + ": " + value)[..|name|] == name
  {
    var line := name + ": " + value;
    assert line[|name|] == ':';
    assert forall k :: 0 <= k < |name| ==> line[k] == name[k] && name[k] in name;
    var n := FieldEnd(line);
    assert forall k :: 0 <= k < n ==> line[..n][k] == line[k] && line[k] != ':';
  }

  lemma FieldLine(r: Reader, name: string, value: string)
    requires name != "" && ':' !in name
    ensures EndLine(r.(line := name + ": " + value)) ==
      if name == "data" then r.(line := "", data := r.data + value + "\n")
      else if name == "id" && '\0' !in value then r.(line := "", lastId := value)
      else r.(line := "")
  {
    hide FieldEnd, ValueAfter;
    FieldOf(name, value);
  }

  predicate AtRest(r: Reader) {
    r.line == "" && !r.afterCr && r.data == ""
  }

  lemma IdLine(r: Reader, id: nat)
    requires AtRest(r)
    ensures ReadAll(r, "id: " + Decimal(id) + "\n") == r.(lastId := Decimal(id))
  {
    hide EndLine, Decimal;
    ReadLine(r, "id: " + Decimal(id));
    assert "id" + ": " + Decimal(id) == "id: " + Decimal(id);
    FieldLine(r, "id", Decimal(id));
  }

  lemma DataLine(r: Reader, line: string)
    requires AtRest(r) && OneLine(line)
    ensures ReadAll(r, "data: " + line + "\n") == r.(data := line + "\n")
  {
    hide EndLine;
    ReadLine(r, "data: " + line);
    assert "data" + ": " + line == "data: " + line;
    FieldLine(r, "data", line);
    assert r.data + line + "\n" == line + "\n";
  }

  lemma {:induction false} BlankLine(r: Reader, line: string)
    requires r.line == "" && !r.afterCr && r.data == line + "\n"
    ensures ReadAll(r, "\n") == r.(data := "", out := r.out + [Message(r.lastId, line)])
  {
    ReadLine(r, "");
    assert "" + "\n" == "\n";
    assert r.(line := "") == r;
    assert (line + "\n")[..|line|] == line;
  }

  /** One frame of a line without CR is read back as one message: its id and its line. */
  lemma ReadFrame(r: Reader, f: Frame)
    requires AtRest(r) && OneLine(f.line)
    ensures ReadAll(r, FrameText(f)) == r.(lastId := Decimal(f.id), out := r.out + [Message(Decimal(f.id), f.line)])
  {
    hide ReadAll, Decimal;
    var a, b, c := "id: " + Decimal(f.id) + "\n", "data: " + f.line + "\n", "\n";
    assert FrameText(f) == a + b + c;
    ReadMore(r, a + b, c);
    ReadMore(r, a, b);
    IdLine(r, f.id);
    var r1 := r.(lastId := Decimal(f.id));
    DataLine(r1, f.line);
    BlankLine(r1.(data := f.line + "\n"), f.line);
  }

  lemma {:induction false} ReadFrames(frames: seq<Frame>)
    requires forall k :: 0 <= k < |frames| ==> OneLine(frames[k].line)
    ensures AtRest(ReadAll(START, TextOf(frames)))
    ensures ReadAll(START, TextOf(frames)).out == MessagesOf(frames)
  {
    hide FrameText;
    if frames != [] {
      var n := |frames| - 1;
      ReadFrames(frames[..n]);
      ReadMore(START, TextOf(frames[..n]), FrameText(frames[n]));
      ReadFrame(ReadAll(START, TextOf(frames[..n])), frames[n]);
      assert MessagesOf(frames) == MessagesOf(frames[..n]) + [Message(Decimal(frames[n].id), frames[n].line)];
    }
  }

  // ------------------------------------------------------------------ carriage returns

  predicate NoCr(r: Reader) {
    '\r' !in r.line && '\r' !in r.data && forall k :: 0 <= k < |r.out| ==> '\r' !in r.out[k].data
  }

  lemma {:induction false} EndLineHasNoCr(r: Reader)
    requires NoCr(r)
    ensures NoCr(EndLine(r))
  {
    hide FieldEnd;
    var value := ValueAfter(r.line, FieldEnd(r.line));
    assert forall c :: c in value ==> c in r.line;
  }

  /** No message ever carries a CR: it always ends a line. */
  lemma {:induction false} MessagesHaveNoCr(text: string)
    ensures NoCr(ReadAll(START, text))
  {
    hide EndLine;
    if text != "" {
      var before := ReadAll(START, text[..|text| - 1]);
      MessagesHaveNoCr(text[..|text| - 1]);
      EndLineHasNoCr(before);
      EndLineHasNoCr(before.(afterCr := false));
    }
  }

  /** Frames are read back as they were sent - every id and every line, empty lines included -
      exactly when no line contains a CR: such a line arrives cut at the CR. */
  lemma {:induction false} ReadBackIff(frames: seq<Frame>)
    requires forall k :: 0 <= k < |frames| ==> '\n' !in frames[k].line
    ensures ReadAll(START, TextOf(frames)).out == MessagesOf(frames)
      <==> forall k :: 0 <= k < |frames| ==> '\r' !in frames[k].line
  {
    hide TextOf, ReadAll;
    MessagesHaveNoCr(TextOf(frames));
    assert forall k :: 0 <= k < |frames| ==> MessagesOf(frames)[k].data == frames[k].line;
    if forall k :: 0 <= k < |frames| ==> '\r' !in frames[k].line {
      ReadFrames(frames);
    }
  }

  /** A line with a CR in it arrives as what stands before the CR. */
  lemma {:induction false} CutAtTheReturn()
    ensures ReadAll(START, TextOf([Frame(4, "a\rb")])).out == [Message("4", "a")] != MessagesOf([Frame(4, "a\rb")])
  {
    hide EndLine, ReadAll;
    var f := Frame(4, "a\rb");
    var a, b, c, d, e := "id: 4\n", "data: a", "\r", "b\n", "\n";
    assert Decimal(4) == "4";
    assert TextOf([f]) == FrameText(f) == a + b + c + d + e by {
      assert [f][..0] == [];
      assert "" + FrameText(f) == FrameText(f);
    }
    ReadMore(START, a + b + c + d, e);
    ReadMore(START, a + b + c, d);
    ReadMore(START, a + b, c);
    ReadMore(START, a, b);
    IdLine(START, 4);
    assert "id: " + Decimal(4) + "\n" == a;
    var r1 := START.(lastId := "4");
    ReadLineBody(r1, b);
    var r2 := r1.(line := b);
    assert r1.line + b == b;
    ReturnEnds(r2);
    FieldLine(r2, "data", "a");
    assert "data" + ": " + "a" == b;
    var r3 := r1.(data := "a" + "\n", afterCr := true);
    assert r1.data + "a" + "\n" == "a" + "\n";
    AfterReturn(r3);
    BlankLine(r3.(afterCr := false), "a");
    assert [] + [Message("4", "a")] == [Message("4", "a")];
  }

  lemma {:induction false} ReturnEnds(r: Reader)
    requires !r.afterCr
    ensures ReadAll(r, "\r") == EndLine(r).(afterCr := true)
  {
    assert "\r"[..0] == "";
  }

  /** A field nobody knows is ignored. */
  lemma {:induction false} AfterReturn(r: Reader)
    requires r.line == "" && r.afterCr
    ensures ReadAll(r, "b\n") == r.(afterCr := false)
  {
    assert "b\n"[..1] == "b" && "b"[..0] == "";
    assert ReadAll(r, "b") == r.(line := "b", afterCr := false);
    assert FieldEnd("b") == 1;
  }
}
