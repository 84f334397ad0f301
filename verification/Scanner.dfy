/** Model of the token loop that pkg/hosts/hosts.go and pkg/helm/manifest.go drive:
    a split function sees a growing window of the input, which arrives in chunks of
    any size, and the window never exceeds MAX_TOKEN. */
module Scanner {

  const MAX_TOKEN: nat := 65536

  datatype Split = NeedMore | Token(advance: nat, text: string)

  /** What the loop needs of a split function: it makes progress within the data, and
      more data does not change a token once there is one. */
  ghost predicate Stable(split: (string, bool) -> Split) {
    && split("", true) == NeedMore && split("", false) == NeedMore
    && (forall data: string, eof: bool | split(data, eof).Token? :: 0 < split(data, eof).advance <= |data|)
    && (forall data: string, longer: string, eof: bool | data <= longer && split(data, false).Token? ::
          split(longer, eof) == split(data, false))
  }

  function Window(rest: string): string {
    if |rest| < MAX_TOKEN then rest else rest[..MAX_TOKEN]
  }

  /** The next token of the remaining input, or NeedMore when there is none. */
  function Next(split: (string, bool) -> Split, rest: string): Split {
    var first := split(Window(rest), false);
    if first.NeedMore? && |rest| < MAX_TOKEN then split(rest, true) else first
  }

  ghost function Tokens(split: (string, bool) -> Split, rest: string): seq<string>
    requires Stable(split)
    decreases |rest|
  {
    var t := Next(split, rest);
    if t.NeedMore? then [] else [t.text] + Tokens(split, rest[t.advance..])
  }

  /** A prefix of the remaining input that has a token has the same one. */
  lemma PrefixDecides(split: (string, bool) -> Split, buf: string, rest: string)
    requires Stable(split) && buf <= rest && |buf| <= MAX_TOKEN && split(buf, false).Token?
    ensures Next(split, rest) == split(buf, false)
  {
    assert buf <= Window(rest);
  }

  lemma EndDecides(split: (string, bool) -> Split, rest: string)
    requires Stable(split) && |rest| < MAX_TOKEN
    ensures Next(split, rest) == split(rest, true)
  {
    assert rest <= rest;
  }

  ghost predicate Ready(buf: string, tail: string, eof: bool, rest: string) {
    buf + tail == rest && |buf| <= MAX_TOKEN && (eof ==> tail == "" && |buf| < MAX_TOKEN)
  }

  lemma Advance(buf: string, tail: string, eof: bool, rest: string, n: nat)
    requires Ready(buf, tail, eof, rest) && n <= |buf|
    ensures n <= |rest| && Ready(buf[n..], tail, eof, rest[n..])
  {
    assert (buf + tail)[n..] == buf[n..] + tail;
  }

  lemma BufferDecides(split: (string, bool) -> Split, buf: string, tail: string, eof: bool, rest: string)
    requires Stable(split) && Ready(buf, tail, eof, rest) && split(buf, eof).Token?
    ensures Next(split, rest) == split(buf, eof) && 0 < split(buf, eof).advance <= |buf|
  {
    if eof {
      assert buf == rest;
      EndDecides(split, rest);
    } else {
      assert buf <= rest;
      PrefixDecides(split, buf, rest);
    }
  }

  /** The step taken when the buffer holds a token. */
  lemma TokenTaken(split: (string, bool) -> Split, buf: string, tail: string, eof: bool, rest: string,
      done: seq<string>)
    requires Stable(split) && Ready(buf, tail, eof, rest) && split(buf, eof).Token?
    ensures var t := split(buf, eof);
      && 0 < t.advance <= |buf| <= |rest| && Ready(buf[t.advance..], tail, eof, rest[t.advance..])
      && done + Tokens(split, rest) == (done + [t.text]) + Tokens(split, rest[t.advance..])
  {
    var t := split(buf, eof);
    BufferDecides(split, buf, tail, eof, rest);
    Advance(buf, tail, eof, rest, t.advance);
    var more := Tokens(split, rest[t.advance..]);
    assert Tokens(split, rest) == [t.text] + more;
    assert done + ([t.text] + more) == (done + [t.text]) + more;
  }

  lemma NothingLeft(split: (string, bool) -> Split, buf: string, tail: string, eof: bool, rest: string)
    requires Stable(split) && Ready(buf, tail, eof, rest) && split(buf, eof).NeedMore? && (eof || |buf| == MAX_TOKEN)
    ensures Tokens(split, rest) == []
  {
    if eof {
      assert buf == rest;
      EndDecides(split, rest);
    } else {
      assert Window(rest) == buf;
    }
  }

  lemma ReadMore(buf: string, tail: string, n: nat, rest: string)
    requires Ready(buf, tail, false, rest) && n <= |tail| && |buf| + n <= MAX_TOKEN
    ensures Ready(buf + tail[..n], tail[n..], false, rest)
  {
    assert tail == tail[..n] + tail[n..];
  }

  /** The loop of Scan.  `chunk` says how much each read delivers, between one
      character and all that fits; the tokens do not depend on it. */
  method ScanAll(split: (string, bool) -> Split, input: string, chunk: nat -> nat) returns (tokens: seq<string>)
    requires Stable(split)
    ensures tokens == Tokens(split, input)
  {
    tokens := [];
    var buf, tail, eof, k := "", input, false, 0;
    ghost var rest := input;
    while true
      invariant Ready(buf, tail, eof, rest)
      invariant tokens + Tokens(split, rest) == Tokens(split, input)
      decreases |rest|, |tail|, !eof
    {
      var next := split(buf, eof);
      if next.Token? {
        TokenTaken(split, buf, tail, eof, rest, tokens);
        tokens := tokens + [next.text];
        buf := buf[next.advance..];
        rest := rest[next.advance..];
      } else if eof || |buf| == MAX_TOKEN {
        NothingLeft(split, buf, tail, eof, rest);
        return;
      } else if tail == "" {
        eof := true;
      } else {
        var n := 1 + chunk(k);
        if n > MAX_TOKEN - |buf| { n := MAX_TOKEN - |buf|; }
        if n > |tail| { n := |tail|; }
        ReadMore(buf, tail, n, rest);
        buf, tail, k := buf + tail[..n], tail[n..], k + 1;
      }
    }
  }

  // ---------------------------------------------------------------- separators

  predicate OccursAt(s: string, sep: string, j: int) {
    0 <= j && j + |sep| <= |s| && s[j..j + |sep|] == sep
  }

  /** The first occurrence of a separator, or -1. */
  function Find(s: string, sep: string): (i: int)
    requires sep != ""
    ensures i == -1 || OccursAt(s, sep, i)
  {
    if |s| < |sep| then -1
    else if s[..|sep|] == sep then 0
    else
      var i := Find(s[1..], sep);
      assert i >= 0 ==> s[1..][i..i + |sep|] == s[i + 1..i + 1 + |sep|];
      if i < 0 then -1 else i + 1
  }

  lemma {:induction false} FindIsFirst(s: string, sep: string, j: nat)
    requires sep != "" && OccursAt(s, sep, j)
    ensures 0 <= Find(s, sep) <= j
  {
    if s[..|sep|] != sep {
      assert s[1..][j - 1..j - 1 + |sep|] == s[j..j + |sep|];
      FindIsFirst(s[1..], sep, j - 1);
    }
  }

  lemma OccursInLonger(s: string, more: string, sep: string, j: nat)
    requires j + |sep| <= |s|
    ensures OccursAt(s + more, sep, j) <==> OccursAt(s, sep, j)
  {
    assert (s + more)[j..j + |sep|] == s[j..j + |sep|];
  }

  /** A prefix has the same first occurrence, if that lies within it. */
  lemma FindInPrefix(w: string, more: string, sep: string)
    requires sep != ""
    ensures var i := Find(w + more, sep); Find(w, sep) == if 0 <= i <= |w| - |sep| then i else -1
  {
    var i, j := Find(w + more, sep), Find(w, sep);
    if j >= 0 {
      OccursInLonger(w, more, sep, j);
      FindIsFirst(w + more, sep, j);
    }
    if 0 <= i <= |w| - |sep| {
      OccursInLonger(w, more, sep, i);
      FindIsFirst(w, sep, i);
    }
  }

  /** What follows the first n characters. */
  function After(s: string, n: nat): string
    requires n <= |s|
  {
    s[n..]
  }

  function SplitOn(sep: string, data: string, eof: bool): Split
    requires sep != ""
  {
    var i := Find(data, sep);
    if i >= 0 then Token(i + |sep|, data[..i])
    else if eof && data != "" then Token(|data|, data)
    else NeedMore
  }

  lemma SplitOnIsStable(sep: string, data: string, longer: string, eof: bool)
    requires sep != "" && data <= longer && SplitOn(sep, data, false).Token?
    ensures SplitOn(sep, longer, eof) == SplitOn(sep, data, false)
  {
    assert longer == data + longer[|data|..];
    FindInPrefix(data, longer[|data|..], sep);
    var i := Find(data, sep);
    assert longer[..i] == data[..i];
  }

  // ---------------------------------------------------------------- lines

  function DropCR(line: string): string {
    if line != "" && line[|line| - 1] == '\r' then line[..|line| - 1] else line
  }

  function ScanLines(data: string, eof: bool): Split {
    match SplitOn("\n", data, eof)
    case NeedMore => NeedMore
    case Token(advance, text) => Token(advance, DropCR(text))
  }

  lemma ScanLinesIsStable()
    ensures Stable(ScanLines)
  {
    forall data: string, longer: string, eof: bool | data <= longer && ScanLines(data, false).Token?
      ensures ScanLines(longer, eof) == ScanLines(data, false)
    {
      SplitOnIsStable("\n", data, longer, eof);
    }
  }

  /** The lines of a text, each without its end and one carriage return before it,
      up to the first that is too long. */
  function Lines(s: string): seq<string>
    decreases |s|
  {
    var i := Find(s, "\n");
    if 0 <= i < MAX_TOKEN then [DropCR(s[..i])] + Lines(After(s, i + 1))
    else if i < 0 && 0 < |s| < MAX_TOKEN then [DropCR(s)]
    else []
  }

  /** The lines as they stand in the text, whatever their length. */
  function RawLines(s: string): seq<string>
    decreases |s|
  {
    var i := Find(s, "\n");
    if s == "" then [] else if i < 0 then [s] else [s[..i]] + RawLines(After(s, i + 1))
  }

  lemma WindowFind(s: string, sep: string)
    requires sep != ""
    ensures var i := Find(s, sep); Find(Window(s), sep) == if 0 <= i <= MAX_TOKEN - |sep| then i else -1
  {
    var w := Window(s);
    assert s == w + s[|w|..];
    FindInPrefix(w, s[|w|..], sep);
  }

  /** What SplitOn makes of the window, and of the whole at the end of input. */
  lemma FirstPart(sep: string, s: string)
    requires sep != ""
    ensures SplitOn(sep, Window(s), false)
      == if 0 <= Find(s, sep) <= MAX_TOKEN - |sep| then Token(Find(s, sep) + |sep|, s[..Find(s, sep)]) else NeedMore
    ensures Find(s, sep) < 0 ==> SplitOn(sep, s, true) == if s == "" then NeedMore else Token(|s|, s)
  {
    WindowFind(s, sep);
    var i := Find(s, sep);
    if 0 <= i <= MAX_TOKEN - |sep| { assert Window(s)[..i] == s[..i]; }
  }

  lemma FirstLine(s: string)
    ensures var i := Find(s, "\n");
      Next(ScanLines, s) ==
        if 0 <= i < MAX_TOKEN then Token(i + 1, DropCR(s[..i]))
        else if i < 0 && 0 < |s| < MAX_TOKEN then Token(|s|, DropCR(s))
        else NeedMore
  {
    FirstPart("\n", s);
    var i := Find(s, "\n");
    assert ScanLines(Window(s), false) == if 0 <= i < MAX_TOKEN then Token(i + 1, DropCR(s[..i])) else NeedMore;
  }

  lemma {:induction false} TokensAreLines(s: string)
    requires Stable(ScanLines)
    ensures Tokens(ScanLines, s) == Lines(s)
    decreases |s|
  {
    FirstLine(s);
    var i := Find(s, "\n");
    if 0 <= i < MAX_TOKEN {
      TokensAreLines(s[i + 1..]);
    } else if i < 0 && 0 < |s| < MAX_TOKEN {
      assert s[|s|..] == "";
      TokensAreLines("");
    }
  }

  method ScanLinesOf(input: string, chunk: nat -> nat) returns (lines: seq<string>)
    ensures lines == Lines(input)
  {
    ScanLinesIsStable();
    lines := ScanAll(ScanLines, input, chunk);
    TokensAreLines(input);
  }

  lemma LinesOfLine(line: string, more: string)
    requires Plain(line)
    ensures Lines(line + "\n" + more) == [DropCR(line)] + Lines(more)
  {
    var s := line + "\n" + more;
    assert s[|line|..|line| + 1] == "\n";
    FindIsFirst(s, "\n", |line|);
    var i := Find(s, "\n");
    assert s[i..i + 1][0] == s[i];
    assert forall k | 0 <= k < |line| :: s[k] == line[k];
    assert s[..i] == line && s[i + 1..] == more;
  }

  predicate Plain(line: string) {
    '\n' !in line && |line| < MAX_TOKEN
  }

  lemma BeforeFirst(s: string, k: nat)
    requires k < |s| && s[k] == '\n'
    ensures 0 <= Find(s, "\n") <= k
  {
    assert s[k..k + 1] == "\n";
    FindIsFirst(s, "\n", k);
  }

  lemma FirstIsPlain(s: string)
    ensures var i := Find(s, "\n"); '\n' !in if i < 0 then s else s[..i]
  {
    var i := Find(s, "\n");
    var first := if i < 0 then s else s[..i];
    if '\n' in first {
      var k :| 0 <= k < |first| && first[k] == '\n';
      BeforeFirst(s, k);
    }
  }

  lemma {:induction false} LinesArePlain(s: string)
    ensures forall l | l in Lines(s) :: Plain(l)
    decreases |s|
  {
    var i := Find(s, "\n");
    FirstIsPlain(s);
    if 0 <= i < MAX_TOKEN {
      LinesArePlain(s[i + 1..]);
      assert Plain(DropCR(s[..i]));
    }
  }
}
