/** The here-document a job's command travels in: a terminator that is no line of the command,
    and the command read back. */
module Heredoc {
  import opened Wrappers

  const BASE: string := "OMNIRUN_CMD_EOF"

  /** The candidates, in the order they are tried. */
  function Candidate(i: nat): (d: string)
    ensures d != ""
  {
    if i == 0 then BASE else BASE + "_" + Decimal(i)
  }

  // ------------------------------------------------------------------ lines

  /** The characters at which `splitlines` ends a line. */
  predicate Boundary(c: char) {
    c in {'\n', '\r', '\U{b}', '\U{c}', '\U{1c}', '\U{1d}', '\U{1e}', '\U{85}', '\U{2028}', '\U{2029}'}
  }

  /** By code: line feed to carriage return, three separators, next line, and the two Unicode ones. */
  lemma BoundariesByCode(c: char)
    ensures Boundary(c) <==> 10 <= c as int <= 13 || 28 <= c as int <= 30 || c as int in {133, 8232, 8233}
  {
  }

  function FirstBoundary(s: string): (n: nat)
    ensures n <= |s| && (n < |s| ==> Boundary(s[n]))
    ensures forall k :: 0 <= k < n ==> !Boundary(s[k])
  {
    if s == "" || Boundary(s[0]) then 0 else 1 + FirstBoundary(s[1..])
  }

  /** Lines without their ends; CR LF is one end, and nothing follows the last end. */
  function SplitLines(s: string): seq<string>
    decreases |s|
  {
    if s == "" then []
    else
      var n := FirstBoundary(s);
      if n == |s| then [s]
      else if s[n] == '\r' && n + 1 < |s| && s[n + 1] == '\n' then [s[..n]] + SplitLines(s[n + 2..])
      else [s[..n]] + SplitLines(s[n + 1..])
  }

  function FirstNl(s: string): (n: nat)
    ensures n <= |s| && '\n' !in s[..n] && (n < |s| ==> s[n] == '\n')
  {
    if s == "" || s[0] == '\n' then 0
    else
      assert forall k :: 0 < k < |s| ==> s[k] == s[1..][k - 1];
      assert forall k :: 1 <= k <= 1 + FirstNl(s[1..]) ==> s[..k] == [s[0]] + s[1..][..k - 1];
      1 + FirstNl(s[1..])
  }

  /** The lines a shell sees: what lies between newlines. */
  function ShellLines(s: string): seq<string>
    decreases |s|
  {
    var n := FirstNl(s);
    if n == |s| then [s] else [s[..n]] + ShellLines(s[n + 1..])
  }

  /** A shell line without any of those characters is also one of the split lines, though the
      two ways of splitting differ. */
  lemma {:induction false} ShellLineIsSplitLine(s: string, line: string)
    requires line in ShellLines(s) && line != "" && forall k :: 0 <= k < |line| ==> !Boundary(line[k])
    ensures line in SplitLines(s)
    decreases |s|
  {
    hide FirstBoundary, FirstNl, Boundary;
    var n, m := FirstBoundary(s), FirstNl(s);
    BoundaryFirst(s);
    if s == "" || n == |s| {
      assert s == "" ==> ShellLines(s) == [""];
    } else if n == m {
      if line != s[..m] {
        ShellLineIsSplitLine(s[m + 1..], line);
      }
    } else {
      assert line != s[..m] by {
        assert Boundary(s[..m][n]);
      }
      assert m < |s| && line in ShellLines(s[m + 1..]);
      if s[n] == '\r' && s[n + 1] == '\n' {
        NextNl(s, n + 1);
        ShellLineIsSplitLine(s[n + 2..], line);
      } else {
        LaterNl(s, n);
        ShellLineIsSplitLine(s[n + 1..], line);
      }
    }
  }

  lemma {:induction false} BoundaryFirst(s: string)
    ensures FirstBoundary(s) <= FirstNl(s)
    ensures FirstBoundary(s) < |s| && s[FirstBoundary(s)] == '\n' ==> FirstBoundary(s) == FirstNl(s)
    ensures FirstBoundary(s) < |s| && s[FirstBoundary(s)] != '\n' ==> FirstBoundary(s) < FirstNl(s)
  {
    var n, m := FirstBoundary(s), FirstNl(s);
    assert forall k :: 0 <= k < m ==> s[..m][k] == s[k];
    assert m < |s| ==> Boundary(s[m]);
  }

  lemma {:induction false} NextNl(s: string, k: nat)
    requires k < |s| && s[k] == '\n' && k <= FirstNl(s)
    ensures FirstNl(s) == k
  {
    var m := FirstNl(s);
    assert forall j :: 0 <= j < m ==> s[..m][j] == s[j] && s[j] != '\n';
  }

  /** Behind a position before the first newline, the shell's later lines are the same. */
  lemma {:induction false} LaterNl(s: string, n: nat)
    requires n < FirstNl(s) < |s|
    ensures ShellLines(s[n + 1..]) == [s[n + 1..][..FirstNl(s) - n - 1]] + ShellLines(s[FirstNl(s) + 1..])
  {
    hide FirstNl, ShellLines;
    var m := FirstNl(s);
    var rest := s[n + 1..];
    var k := m - n - 1;
    forall j | 0 <= j < k ensures rest[j] != '\n' {
      assert rest[j] == s[..m][n + 1 + j];
    }
    assert rest[k] == s[m];
    FirstNlAt(rest, k);
    assert rest[k + 1..] == s[m + 1..];
    LineAtNl(rest);
  }

  lemma {:induction false} LineAtNl(s: string)
    requires FirstNl(s) < |s|
    ensures ShellLines(s) == [s[..FirstNl(s)]] + ShellLines(s[FirstNl(s) + 1..])
  {
    hide FirstNl;
  }

  lemma {:induction false} FirstNlAt(s: string, k: nat)
    requires k < |s| && s[k] == '\n' && forall j :: 0 <= j < k ==> s[j] != '\n'
    ensures FirstNl(s) == k
  {
    var m := FirstNl(s);
    assert forall j :: 0 <= j < m ==> s[..m][j] == s[j] && s[j] != '\n';
  }

  // ------------------------------------------------------------------ the search

  lemma CandidatesDiffer(i: nat, j: nat)
    requires Candidate(i) == Candidate(j)
    ensures i == j
  {
    hide Decimal;
    if i > 0 && j > 0 {
      assert Candidate(i)[|BASE| + 1..] == Decimal(i);
      assert Candidate(j)[|BASE| + 1..] == Decimal(j);
      DecimalInjective(i, j);
    }
  }

  /** The first candidate that is no line of the body. The search ends because every candidate
      it rejects is another one of finitely many lines. */
  method HeredocDelim(body: string) returns (delim: string)
    ensures delim !in SplitLines(body)
    ensures exists i: nat :: delim == Candidate(i) && forall k :: 0 <= k < i ==> Candidate(k) in SplitLines(body)
  {
    hide Candidate, SplitLines;
    var lines := SplitLines(body);
    ghost var left := set k | 0 <= k < |lines| :: lines[k];
    var i := 0;
    delim := BASE;
    FirstCandidate();
    while delim in lines
      invariant delim == Candidate(i)
      invariant forall k :: 0 <= k < i ==> Candidate(k) in lines
      invariant forall x :: x in left <==> x in lines && forall k :: 0 <= k < i ==> x != Candidate(k)
      decreases |left|
    {
      forall k | 0 <= k < i ensures Candidate(k) != Candidate(i) {
        if Candidate(k) == Candidate(i) {
          CandidatesDiffer(k, i);
        }
      }
      assert delim in left;
      left := left - {delim};
      i := i + 1;
      delim := BASE + "_" + Decimal(i);
      LaterCandidate(i);
    }
  }

  lemma FirstCandidate()
    ensures Candidate(0) == BASE
  {
  }

  lemma LaterCandidate(i: nat)
    requires i > 0
    ensures Candidate(i) == BASE + "_" + Decimal(i)
  {
  }

  lemma CandidatesArePlain(i: nat)
    ensures forall k :: 0 <= k < |Candidate(i)| ==> !Boundary(Candidate(i)[k])
  {
  }

  // ------------------------------------------------------------------ reading back

  /** The here-document rule of POSIX.1-2017, Shell Command Language, section 2.7.4, for a
      quoted delimiter: the lines up to the one that is exactly the delimiter, unexpanded;
      nothing if there is none. With it, what follows. */
  function ReadHereDoc(text: string, delim: string): Option<(string, string)>
    decreases |text|
  {
    var n := FirstNl(text);
    if n == |text| then None
    else if text[..n] == delim then Some(("", text[n + 1..]))
    else
      match ReadHereDoc(text[n + 1..], delim)
      case None => None
      case Some((body, rest)) => Some((text[..n + 1] + body, rest))
  }

  /** What stands behind a command: the end of its last line, the delimiter's line, the rest. */
  function Ending(delim: string, tail: string): string {
    "\n" + (delim + "\n" + tail)
  }

  /** The text a shell reads behind the opening line. */
  function Sent(command: string, delim: string, tail: string): string {
    command + Ending(delim, tail)
  }

  lemma Front(a: string, r: string, n: nat)
    requires n <= |a| && r != ""
    ensures (a + r)[..n] == a[..n]
    ensures n < |a| ==> (a + r)[n] == a[n] && (a + r)[n + 1..] == a[n + 1..] + r
    ensures n == |a| ==> (a + r)[n] == r[0] && (a + r)[n + 1..] == r[1..]
    ensures (a + r)[..n + 1] == a[..n] + [(a + r)[n]]
  {
  }

  /** The first line of the text is the first line of the command. */
  lemma {:induction false} FirstSentLine(command: string, delim: string, tail: string)
    ensures FirstNl(Sent(command, delim, tail)) == FirstNl(command) < |Sent(command, delim, tail)|
    ensures Sent(command, delim, tail)[..FirstNl(command)] == command[..FirstNl(command)]
    ensures Sent(command, delim, tail)[..FirstNl(command) + 1] == command[..FirstNl(command)] + "\n"
    ensures Sent(command, delim, tail)[FirstNl(command) + 1..]
         == if FirstNl(command) == |command| then delim + "\n" + tail
           else Sent(command[FirstNl(command) + 1..], delim, tail)
  {
    hide FirstNl, Ending;
    var text, n := Sent(command, delim, tail), FirstNl(command);
    var e := Ending(delim, tail);
    assert e != "" && e[0] == '\n' && e[1..] == delim + "\n" + tail by {
      EndingBegins(delim, tail);
    }
    Front(command, e, n);
    FirstNlWithin(command, e);
  }

  lemma EndingBegins(delim: string, tail: string)
    ensures Ending(delim, tail) != "" && Ending(delim, tail)[0] == '\n'
      && Ending(delim, tail)[1..] == delim + "\n" + tail
  {
  }

  lemma FirstNlWithin(a: string, r: string)
    requires r != "" && r[0] == '\n'
    ensures FirstNl(a + r) == FirstNl(a)
  {
    hide FirstNl;
    var n := FirstNl(a);
    forall k | 0 <= k < n ensures (a + r)[k] != '\n' {
      assert (a + r)[k] == a[..n][k];
    }
    FirstNlAt(a + r, n);
  }

  lemma {:induction false} OneRead(text: string, delim: string)
    requires FirstNl(text) < |text|
    ensures
      var n := FirstNl(text);
      ReadHereDoc(text, delim) ==
        if text[..n] == delim then Some(("", text[n + 1..]))
        else match ReadHereDoc(text[n + 1..], delim)
             case None => None
             case Some((body, rest)) => Some((text[..n + 1] + body, rest))
  {
    hide FirstNl;
  }

  /** A command behind a here-document opening is read back whole, with one newline, exactly
      when the delimiter is no line of it. */
  lemma {:induction false} ReadsBackIff(command: string, delim: string, tail: string)
    requires '\n' !in delim
    ensures ReadHereDoc(Sent(command, delim, tail), delim) == Some((command + "\n", tail))
      <==> delim !in ShellLines(command)
    decreases |command|
  {
    hide FirstNl, ReadHereDoc, Sent;
    var n := FirstNl(command);
    FirstSentLine(command, delim, tail);
    OneRead(Sent(command, delim, tail), delim);
    if n == |command| {
      LastLine(delim, tail);
      assert command[..n] == command && command + "\n" + "" == command + "\n";
      assert |delim + "\n" + tail| > |tail|;
    } else {
      var rest := command[n + 1..];
      ReadsBackIff(rest, delim, tail);
      LongerSent(rest, delim, tail);
      CommandSplit(command, n);
      SameBehind(command[..n] + "\n", ReadHereDoc(Sent(rest, delim, tail), delim), rest + "\n", tail);
    }
  }

  lemma {:induction false} LongerSent(rest: string, delim: string, tail: string)
    ensures Sent(rest, delim, tail) != tail
  {
    assert |Sent(rest, delim, tail)| > |tail|;
  }

  lemma CommandSplit(command: string, n: nat)
    requires n < |command| && command[n] == '\n'
    ensures command[..n] + "\n" + (command[n + 1..] + "\n") == command + "\n"
  {
  }

  lemma SameBehind(front: string, read: Option<(string, string)>, body: string, tail: string)
    ensures (match read case None => None case Some((b, r)) => Some((front + b, r))) == Some((front + body, tail))
      <==> read == Some((body, tail))
  {
    if read.Some? && front + read.value.0 == front + body {
      assert read.value.0 == (front + read.value.0)[|front|..] == (front + body)[|front|..] == body;
    }
  }

  lemma LastLine(delim: string, tail: string)
    requires '\n' !in delim
    ensures ReadHereDoc(delim + "\n" + tail, delim) == Some(("", tail))
  {
    var text := delim + "\n" + tail;
    FirstNlAt(text, |delim|);
    assert text[..|delim|] == delim && text[|delim| + 1..] == tail;
  }

  /** The block: an evaluated command substitution over the quoted here-document. */
  function Opening(delim: string): string {
    "eval \"$(cat <<'" + delim + "'\n"
  }

  const CLOSING: string := ")\"\n"

  /** The printed block, for every command: its first line opens the here-document, and the
      shell reads the body back as the command and one newline, with just the closing behind. */
  method CommandBlock(command: string) returns (block: string, delim: string)
    ensures block == Opening(delim) + command + "\n" + delim + "\n" + CLOSING
    ensures '\n' !in delim
    ensures ReadHereDoc(block[|Opening(delim)|..], delim) == Some((command + "\n", CLOSING))
  {
    hide SplitLines, ShellLines, Candidate, ReadHereDoc, Boundary;
    delim := HeredocDelim(command);
    block := Opening(delim) + command + "\n" + delim + "\n" + CLOSING;
    ghost var i: nat :| delim == Candidate(i);
    CandidatesArePlain(i);
    assert '\n' !in delim by {
      PlainHasNoNl(delim);
    }
    if delim in ShellLines(command) {
      NotEmpty(i);
      ShellLineIsSplitLine(command, delim);
      assert false;
    }
    BlockIs(command, delim);
    ReadsBackIff(command, delim, CLOSING);
  }

  lemma {:induction false} BlockIs(command: string, delim: string)
    ensures (Opening(delim) + command + "\n" + delim + "\n" + CLOSING)[|Opening(delim)|..]
      == Sent(command, delim, CLOSING)
  {
    hide Opening;
    assert Opening(delim) + command + "\n" + delim + "\n" + CLOSING == Opening(delim) + Sent(command, delim, CLOSING);
  }

  lemma NotEmpty(i: nat)
    ensures Candidate(i) != ""
  {
  }

  lemma PlainHasNoNl(s: string)
    requires forall k :: 0 <= k < |s| ==> !Boundary(s[k])
    ensures '\n' !in s
  {
  }
}
