/** Model of pkg/hosts/hosts.go: reading, writing and removing the managed block of
    the hosts file. */
module Hosts {
  import opened Common
  import opened Scanner

  datatype Entry = Entry(ip: string, hostname: string)

  const BEGIN_MARKER := "# BEGIN kubikles-managed"
  const END_MARKER := "# END kubikles-managed"

  // ---------------------------------------------------------------- white space

  predicate IsSpace(c: char) {
    || '\t' <= c <= '\r' || c == ' '
    || c == '\U{85}' || c == '\U{A0}' || c == '\U{1680}' || c == '\U{2028}' || c == '\U{2029}'
    || c == '\U{202F}' || c == '\U{205F}' || c == '\U{3000}'
    || '\U{2000}' <= c <= '\U{200A}'
  }

  predicate Solid(s: string) {
    forall i | 0 <= i < |s| :: !IsSpace(s[i])
  }

  function TrimLeft(s: string): (t: string)
    ensures |t| <= |s| && (t != "" ==> !IsSpace(t[0]))
  {
    if s != "" && IsSpace(s[0]) then TrimLeft(s[1..]) else s
  }

  function TrimRight(s: string): string {
    if s != "" && IsSpace(s[|s| - 1]) then TrimRight(s[..|s| - 1]) else s
  }

  function TrimSpace(s: string): string {
    TrimLeft(TrimRight(s))
  }

  /** The characters before the first space. */
  function Word(s: string): (w: string)
    ensures w <= s && Solid(w) && (s != "" && !IsSpace(s[0]) ==> w != "")
    ensures |w| < |s| ==> IsSpace(s[|w|])
  {
    if s == "" || IsSpace(s[0]) then "" else [s[0]] + Word(s[1..])
  }

  function Fields(s: string): seq<string>
    decreases |s|
  {
    var t := TrimLeft(s);
    if t == "" then [] else [Word(t)] + Fields(t[|Word(t)|..])
  }

  // ---------------------------------------------------------------- reading and removing

  datatype Kind = Begin | End | Other

  function KindOf(line: string): Kind {
    if BEGIN_MARKER <= TrimSpace(line) then Begin
    else if END_MARKER <= TrimSpace(line) then End
    else Other
  }

  /** The entry of one line, if it has one. */
  function EntryOf(line: string): seq<Entry> {
    var t := TrimSpace(line);
    if t == "" || t[0] == '#' then []
    else
      var parts := Fields(t);
      if |parts| >= 2 then [Entry(parts[0], parts[1])] else []
  }

  /** Whether the line after this one is in the managed block. */
  function InBlockAfter(line: string, inBlock: bool): bool {
    match KindOf(line)
    case Begin => true
    case End => false
    case Other => inBlock
  }

  function Parsed(lines: seq<string>, inBlock: bool): seq<Entry> {
    if lines == [] then []
    else
      var here := if inBlock && KindOf(lines[0]).Other? then EntryOf(lines[0]) else [];
      here + Parsed(lines[1..], InBlockAfter(lines[0], inBlock))
  }

  function Kept(lines: seq<string>, inBlock: bool): seq<string> {
    if lines == [] then []
    else
      var here := if !inBlock && KindOf(lines[0]).Other? then [lines[0]] else [];
      here + Kept(lines[1..], InBlockAfter(lines[0], inBlock))
  }

  /** Lines as text, each with its end. */
  function Text(lines: seq<string>): string {
    if lines == [] then "" else Text(lines[..|lines| - 1]) + lines[|lines| - 1] + "\n"
  }

  function TrimNewlines(s: string): string {
    if s != "" && s[|s| - 1] == '\n' then TrimNewlines(s[..|s| - 1]) else s
  }

  function Tidied(s: string): string {
    var t := TrimNewlines(s);
    if t == "" then "" else t + "\n"
  }

  function Parse(content: string): seq<Entry> {
    Parsed(Lines(content), false)
  }

  function Removed(content: string): string {
    Tidied(Text(Kept(Lines(content), false)))
  }

  lemma OneMoreParsed(lines: seq<string>, i: nat, inBlock: bool, entries: seq<Entry>)
    requires i < |lines|
    ensures entries + Parsed(lines[i..], inBlock)
         == (if inBlock && KindOf(lines[i]).Other? then entries + EntryOf(lines[i]) else entries)
              + Parsed(lines[i + 1..], InBlockAfter(lines[i], inBlock))
  {
    assert lines[i..][1..] == lines[i + 1..];
  }

  method ParseManagedEntries(content: string, chunk: nat -> nat) returns (entries: seq<Entry>)
    ensures entries == Parse(content)
  {
    var lines := ScanLinesOf(content, chunk);
    var inManagedBlock := false;
    entries := [];
    for i := 0 to |lines|
      invariant entries + Parsed(lines[i..], inManagedBlock) == Parse(content)
    {
      OneMoreParsed(lines, i, inManagedBlock, entries);
      match KindOf(lines[i]) {
        case Begin => inManagedBlock := true;
        case End => inManagedBlock := false;
        case Other =>
          if inManagedBlock {
            entries := entries + EntryOf(lines[i]);
          }
      }
    }
  }

  lemma OneMoreKept(lines: seq<string>, i: nat, inBlock: bool, kept: seq<string>)
    requires i < |lines|
    ensures kept + Kept(lines[i..], inBlock)
         == (if !inBlock && KindOf(lines[i]).Other? then kept + [lines[i]] else kept)
              + Kept(lines[i + 1..], InBlockAfter(lines[i], inBlock))
    ensures Text(kept + [lines[i]]) == Text(kept) + lines[i] + "\n"
  {
    assert lines[i..][1..] == lines[i + 1..];
    assert (kept + [lines[i]])[..|kept|] == kept;
  }

  method RemoveExistingManagedBlock(content: string, chunk: nat -> nat) returns (result: string)
    ensures result == Removed(content)
  {
    var lines := ScanLinesOf(content, chunk);
    var inManagedBlock := false;
    result := "";
    ghost var kept := [];
    for i := 0 to |lines|
      invariant kept + Kept(lines[i..], inManagedBlock) == Kept(lines, false) && result == Text(kept)
    {
      OneMoreKept(lines, i, inManagedBlock, kept);
      match KindOf(lines[i]) {
        case Begin => inManagedBlock := true;
        case End => inManagedBlock := false;
        case Other =>
          if !inManagedBlock {
            result := result + lines[i];
            result := result + "\n";
            kept := kept + [lines[i]];
          }
      }
    }
    assert kept + [] == kept;
    result := TrimNewlines(result);
    if result != "" {
      result := result + "\n";
    }
  }

  // ---------------------------------------------------------------- writing

  function EntryLine(e: Entry): string {
    e.ip + " " + e.hostname
  }

  function EntryLines(entries: seq<Entry>): seq<string> {
    seq(|entries|, i requires 0 <= i < |entries| => EntryLine(entries[i]))
  }

  function BlockLines(entries: seq<Entry>): seq<string> {
    if entries == [] then [] else ["", BEGIN_MARKER] + EntryLines(entries) + [END_MARKER]
  }

  lemma OneMoreLine(lines: seq<string>, l: string)
    ensures Text(lines + [l]) == Text(lines) + l + "\n"
  {
    assert (lines + [l])[..|lines|] == lines;
  }

  lemma LineWritten(sb: string, e: Entry)
    ensures sb + e.ip + " " + e.hostname + "\n" == sb + EntryLine(e) + "\n"
  {
    ConcatAssoc(sb, e.ip, " ");
    ConcatAssoc(sb, e.ip + " ", e.hostname);
  }

  lemma OneMoreEntryLine(before: seq<string>, entries: seq<Entry>, i: nat)
    requires i < |entries|
    ensures before + EntryLines(entries[..i + 1]) == before + EntryLines(entries[..i]) + [EntryLine(entries[i])]
  {
    assert EntryLines(entries[..i + 1]) == EntryLines(entries[..i]) + [EntryLine(entries[i])];
    ConcatAssoc(before, EntryLines(entries[..i]), [EntryLine(entries[i])]);
  }

  /** The loop over the entries, after the lines already written. */
  method WriteEntries(written: string, entries: seq<Entry>, ghost before: seq<string>) returns (sb: string)
    requires written == Text(before)
    ensures sb == Text(before + EntryLines(entries))
  {
    sb := written;
    ghost var lines := before;
    assert before + EntryLines([]) == before;
    for i := 0 to |entries|
      invariant sb == Text(lines) && lines == before + EntryLines(entries[..i])
    {
      var e := entries[i];
      OneMoreLine(lines, EntryLine(e));
      LineWritten(sb, e);
      lines := lines + [EntryLine(e)];
      OneMoreEntryLine(before, entries, i);
      sb := sb + e.ip;
      sb := sb + " ";
      sb := sb + e.hostname;
      sb := sb + "\n";
    }
    assert entries[..|entries|] == entries;
  }

  lemma HeadWritten()
    ensures "\n" + BEGIN_MARKER + "\n" == Text(["", BEGIN_MARKER])
  {
    OneMoreLine([], "");
    OneMoreLine([""], BEGIN_MARKER);
    assert [] + [""] == [""] && [""] + [BEGIN_MARKER] == ["", BEGIN_MARKER] && "" + "" + "\n" == "\n";
  }

  method BuildEntriesContent(entries: seq<Entry>) returns (sb: string)
    ensures sb == Text(BlockLines(entries))
  {
    if |entries| == 0 {
      return "";
    }
    sb := "\n";
    sb := sb + BEGIN_MARKER;
    sb := sb + "\n";
    HeadWritten();
    sb := WriteEntries(sb, entries, ["", BEGIN_MARKER]);
    OneMoreLine(["", BEGIN_MARKER] + EntryLines(entries), END_MARKER);
    sb := sb + END_MARKER;
    sb := sb + "\n";
  }

  /** The edit of AddEntries: the block is written anew at the end. */
  function Updated(content: string, entries: seq<Entry>): string {
    Removed(content) + Text(BlockLines(entries))
  }

  // ---------------------------------------------------------------- text and its lines

  ghost predicate AllPlain(lines: seq<string>) {
    forall l | l in lines :: Plain(l)
  }

  function DropCRs(lines: seq<string>): seq<string> {
    if lines == [] then [] else [DropCR(lines[0])] + DropCRs(lines[1..])
  }

  lemma {:induction false} TextConcat(a: seq<string>, b: seq<string>)
    ensures Text(a + b) == Text(a) + Text(b)
  {
    if b == [] {
      assert a + b == a;
    } else {
      var n := |b| - 1;
      assert (a + b)[..|a| + n] == a + b[..n];
      TextConcat(a, b[..n]);
      assert Text(a) + (Text(b[..n]) + b[n] + "\n") == Text(a) + Text(b[..n]) + b[n] + "\n";
    }
  }

  lemma TextFront(first: string, rest: seq<string>, more: string)
    ensures Text([first] + rest) + more == first + "\n" + (Text(rest) + more)
  {
    TextConcat([first], rest);
    assert [first][..0] == [] && Text([first]) == "" + first + "\n";
    assert "" + first == first;
    assert first + "\n" + Text(rest) + more == first + "\n" + (Text(rest) + more);
  }

  lemma FirstLineOfText(first: string, rest: seq<string>, more: string)
    requires Plain(first)
    ensures Lines(Text([first] + rest) + more) == [DropCR(first)] + Lines(Text(rest) + more)
  {
    TextFront(first, rest, more);
    LinesOfLine(first, Text(rest) + more);
  }

  lemma MoreLinesOfText(first: string, rest: seq<string>, more: string)
    requires Plain(first) && Lines(Text(rest) + more) == DropCRs(rest) + Lines(more)
    ensures Lines(Text([first] + rest) + more) == DropCRs([first] + rest) + Lines(more)
  {
    FirstLineOfText(first, rest, more);
    FirstDropped(first, rest);
    ConcatAssoc([DropCR(first)], DropCRs(rest), Lines(more));
  }

  lemma FirstDropped(first: string, rest: seq<string>)
    ensures DropCRs([first] + rest) == [DropCR(first)] + DropCRs(rest)
  {
    assert ([first] + rest)[1..] == rest;
  }

  lemma {:induction false} LinesOfText(lines: seq<string>, more: string)
    requires AllPlain(lines)
    ensures Lines(Text(lines) + more) == DropCRs(lines) + Lines(more)
  {
    if lines == [] {
      assert "" + more == more;
    } else {
      LinesOfText(lines[1..], more);
      MoreLinesOfText(lines[0], lines[1..], more);
      assert lines == [lines[0]] + lines[1..];
    }
  }

  function DropTail(lines: seq<string>): seq<string> {
    if lines != [] && lines[|lines| - 1] == "" then DropTail(lines[..|lines| - 1]) else lines
  }

  ghost predicate NoNewlines(lines: seq<string>) {
    forall l | l in lines :: '\n' !in l
  }

  lemma PlainHasNoNewlines(lines: seq<string>)
    requires AllPlain(lines)
    ensures NoNewlines(lines)
  {
    forall l | l in lines ensures '\n' !in l {
      assert Plain(l);
    }
  }

  lemma LastLineStays(before: string, last: string)
    requires last != "" && '\n' !in last
    ensures Tidied(before + last + "\n") == before + last + "\n"
  {
    var t := before + last;
    assert t[|t| - 1] == last[|last| - 1] && last[|last| - 1] in last && TrimNewlines(t) == t;
    assert (t + "\n")[..|t|] == t;
  }

  /** Trimming the newlines of a text drops its empty lines at the end. */
  lemma {:induction false} TidiedText(lines: seq<string>)
    requires NoNewlines(lines)
    ensures Tidied(Text(lines)) == Text(DropTail(lines))
  {
    if lines != [] {
      var n := |lines| - 1;
      var last, before := lines[n], Text(lines[..n]);
      if last == "" {
        assert Text(lines) == before + "\n" && Text(lines)[..|before|] == before;
        TidiedText(lines[..n]);
      } else {
        assert last in lines;
        LastLineStays(before, last);
      }
    }
  }

  /** The lines that stay. */
  function Staying(content: string): seq<string> {
    DropTail(Kept(Lines(content), false))
  }

  ghost predicate Unmarked(lines: seq<string>) {
    forall l | l in lines :: Plain(l) && KindOf(l).Other?
  }

  lemma {:induction false} KeptIsUnmarked(lines: seq<string>, inBlock: bool)
    requires AllPlain(lines)
    ensures Unmarked(Kept(lines, inBlock))
  {
    if lines != [] {
      KeptIsUnmarked(lines[1..], InBlockAfter(lines[0], inBlock));
    }
  }

  lemma {:induction false} DropTailIsPrefix(lines: seq<string>)
    ensures DropTail(lines) <= lines && DropTail(lines + [""]) == DropTail(lines)
    ensures forall l | l in lines && l != "" :: l in DropTail(lines)
  {
    assert (lines + [""])[..|lines|] == lines;
    if lines != [] && lines[|lines| - 1] == "" {
      DropTailIsPrefix(lines[..|lines| - 1]);
    }
  }

  lemma RemovedIsText(content: string)
    ensures Removed(content) == Text(Staying(content)) && Unmarked(Staying(content))
  {
    LinesArePlain(content);
    KeptIsUnmarked(Lines(content), false);
    assert AllPlain(Kept(Lines(content), false));
    PlainHasNoNewlines(Kept(Lines(content), false));
    TidiedText(Kept(Lines(content), false));
    DropTailIsPrefix(Kept(Lines(content), false));
  }

  lemma DropCRKeepsKind(line: string)
    ensures KindOf(DropCR(line)) == KindOf(line) && (Plain(line) ==> Plain(DropCR(line)))
  {
    if line != "" && line[|line| - 1] == '\r' {
      assert TrimRight(line) == TrimRight(DropCR(line));
    }
  }

  lemma {:induction false} DropCRsKeepUnmarked(lines: seq<string>)
    requires Unmarked(lines)
    ensures Unmarked(DropCRs(lines))
  {
    if lines != [] {
      DropCRKeepsKind(lines[0]);
      DropCRsKeepUnmarked(lines[1..]);
    }
  }

  lemma FirstUnmarked(lines: seq<string>, more: seq<string>)
    requires Unmarked(lines) && lines != []
    ensures Unmarked(lines[1..])
    ensures Kept(lines + more, false) == [lines[0]] + Kept(lines[1..] + more, false)
    ensures Parsed(lines + more, false) == Parsed(lines[1..] + more, false)
  {
    assert (lines + more)[1..] == lines[1..] + more && lines[0] in lines;
  }

  lemma {:induction false} UnmarkedThen(lines: seq<string>, more: seq<string>)
    requires Unmarked(lines)
    ensures Kept(lines + more, false) == lines + Kept(more, false)
    ensures Parsed(lines + more, false) == Parsed(more, false)
  {
    if lines == [] {
      assert lines + more == more;
    } else {
      FirstUnmarked(lines, more);
      UnmarkedThen(lines[1..], more);
      ConcatAssoc([lines[0]], lines[1..], Kept(more, false));
      assert lines == [lines[0]] + lines[1..];
    }
  }

  /** What is read back, and what stays, when more text follows the cleaned one. */
  lemma AfterRemoved(content: string, more: string)
    ensures var stay := DropCRs(Staying(content));
      && Unmarked(stay)
      && Kept(Lines(Removed(content) + more), false) == stay + Kept(Lines(more), false)
      && Parse(Removed(content) + more) == Parse(more)
  {
    RemovedIsText(content);
    LinesOfText(Staying(content), more);
    DropCRsKeepUnmarked(Staying(content));
    UnmarkedThen(DropCRs(Staying(content)), Lines(more));
  }

  /** A cleaned file has no managed entries, whatever it contained. */
  lemma RemovedHasNoEntries(content: string)
    ensures Parse(Removed(content)) == []
  {
    AfterRemoved(content, "");
    assert Removed(content) + "" == Removed(content);
  }

  lemma RemovedTwice(content: string)
    ensures Removed(Removed(content)) == Text(DropTail(DropCRs(Staying(content))))
  {
    var stay := DropCRs(Staying(content));
    AfterRemoved(content, "");
    assert Removed(content) + "" == Removed(content) && stay + [] == stay;
    assert AllPlain(stay);
    PlainHasNoNewlines(stay);
    TidiedText(stay);
  }

  // ---------------------------------------------------------------- idempotence

  predicate EndsInCR(line: string) {
    line != "" && line[|line| - 1] == '\r'
  }

  lemma FirstDroppedShortens(first: string, rest: seq<string>)
    ensures |Text([first] + rest)| == |first| + 1 + |Text(rest)|
    ensures |Text(DropCRs([first] + rest))| == |DropCR(first)| + 1 + |Text(DropCRs(rest))|
  {
    FirstDropped(first, rest);
    TextFront(first, rest, "");
    TextFront(DropCR(first), DropCRs(rest), "");
  }

  lemma {:induction false} DropCRsShortens(lines: seq<string>)
    ensures |Text(DropCRs(lines))| <= |Text(lines)|
    ensures if (forall l | l in lines :: !EndsInCR(l))
      then DropCRs(lines) == lines else |Text(DropCRs(lines))| < |Text(lines)|
  {
    if lines != [] {
      var first, rest := lines[0], lines[1..];
      DropCRsShortens(rest);
      FirstDroppedShortens(first, rest);
      assert lines == [first] + rest;
      assert (forall l | l in lines :: !EndsInCR(l)) <==> !EndsInCR(first) && forall l | l in rest :: !EndsInCR(l);
    }
  }

  lemma {:induction false} DropTailShortens(lines: seq<string>)
    ensures |Text(DropTail(lines))| <= |Text(lines)|
  {
    if lines != [] && lines[|lines| - 1] == "" {
      DropTailShortens(lines[..|lines| - 1]);
    }
  }

  lemma {:induction false} DropTailTwice(lines: seq<string>)
    ensures DropTail(DropTail(lines)) == DropTail(lines)
  {
    if lines != [] && lines[|lines| - 1] == "" {
      DropTailTwice(lines[..|lines| - 1]);
    }
  }

  /** No line outside managed blocks ends in two or more carriage returns: the
      scanner drops one each time the text is read. */
  ghost predicate OneCRAtMost(content: string) {
    forall l | l in Kept(Lines(content), false) :: !EndsInCR(l)
  }

  /** Cleaning a cleaned file changes nothing, exactly when no kept line still ends
      in a carriage return. */
  lemma RemoveIsIdempotent(content: string)
    ensures Removed(Removed(content)) == Removed(content) <==> OneCRAtMost(content)
  {
    var kept, stay := Kept(Lines(content), false), Staying(content);
    RemovedIsText(content);
    RemovedTwice(content);
    DropTailIsPrefix(kept);
    DropTailTwice(kept);
    DropCRsShortens(stay);
    DropTailShortens(DropCRs(stay));
    assert OneCRAtMost(content) <==> forall l | l in stay :: !EndsInCR(l);
  }

  lemma ShortLineIsOther(line: string)
    requires |line| < |END_MARKER|
    ensures KindOf(line).Other?
  {
    TrimShortens(line);
  }

  lemma LoneLine(line: string)
    requires Plain(line)
    ensures Lines(line + "\n" + "") == [DropCR(line)]
  {
    LinesOfLine(line, "");
    assert Find("", "\n") == -1;
  }

  lemma LoneLineIsKept(line: string)
    requires Plain(line) && KindOf(line).Other?
    ensures Kept([line], false) == [line]
  {
    UnmarkedThen([line], []);
    assert [line] + [] == [line];
  }

  /** The condition is not always met: each cleaning takes another carriage return. */
  lemma DoubleCRIsNotStable()
    ensures var content := "x\r\r\n"; Removed(Removed(content)) != Removed(content)
  {
    DoubleCRIsKept("x\r\r\n", "x\r\r", "x\r");
    RemoveIsIdempotent("x\r\r\n");
  }

  /** A line alone, and what is left of it. */
  lemma DoubleCRIsKept(content: string, line: string, left: string)
    requires content == line + "\n" + "" && Plain(line) && left == DropCR(line) && EndsInCR(left)
    requires |left| < |END_MARKER|
    ensures !OneCRAtMost(content)
  {
    LoneLine(line);
    ShortLineIsOther(left);
    LoneLineIsKept(left);
    assert left in Kept(Lines(content), false);
  }

  // ---------------------------------------------------------------- entries

  /** An entry that a line can hold. */
  predicate ValidEntry(e: Entry) {
    && e.ip != "" && e.hostname != "" && Solid(e.ip) && Solid(e.hostname)
    && e.ip[0] != '#' && |EntryLine(e)| < MAX_TOKEN
  }

  ghost predicate AllValid(entries: seq<Entry>) {
    forall e | e in entries :: ValidEntry(e)
  }

  lemma {:induction false} WordThenSpace(w: string, more: string)
    requires Solid(w) && (more == "" || IsSpace(more[0]))
    ensures Word(w + more) == w
  {
    if w == "" {
      assert w + more == more;
    } else {
      assert (w + more)[1..] == w[1..] + more;
      assert Solid(w[1..]);
      WordThenSpace(w[1..], more);
    }
  }

  lemma FieldsOfLine(e: Entry)
    requires ValidEntry(e)
    ensures Fields(EntryLine(e)) == [e.ip, e.hostname]
  {
    var line, tail := EntryLine(e), " " + e.hostname;
    assert line == e.ip + tail;
    WordThenSpace(e.ip, tail);
    assert line[|e.ip|..] == tail && tail[1..] == e.hostname;
    assert TrimLeft(tail) == e.hostname;
    WordThenSpace(e.hostname, "");
    assert e.hostname + "" == e.hostname && e.hostname[|e.hostname|..] == "";
    assert Fields(tail) == [e.hostname];
  }

  ghost predicate Holds(line: string, e: Entry) {
    KindOf(line).Other? && EntryOf(line) == [e] && Plain(line) && DropCR(line) == line
  }

  lemma EntryLineHolds(e: Entry)
    requires ValidEntry(e)
    ensures Holds(EntryLine(e), e)
  {
    var l := EntryLine(e);
    assert l[0] == e.ip[0] && l[|l| - 1] == e.hostname[|e.hostname| - 1];
    assert TrimSpace(l) == l;
    FieldsOfLine(e);
    forall i | 0 <= i < |l| ensures l[i] != '\n' {
      if i < |e.ip| { assert l[i] == e.ip[i]; }
      if i > |e.ip| { assert l[i] == e.hostname[i - |e.ip| - 1]; }
    }
  }

  ghost predicate AllHold(lines: seq<string>, entries: seq<Entry>) {
    |lines| == |entries| && forall i | 0 <= i < |lines| :: Holds(lines[i], entries[i])
  }

  lemma FirstHolds(lines: seq<string>, entries: seq<Entry>, more: seq<string>)
    requires AllHold(lines, entries) && lines != []
    ensures AllHold(lines[1..], entries[1..])
    ensures DropCRs(lines) == [lines[0]] + DropCRs(lines[1..])
    ensures Parsed(lines + more, true) == [entries[0]] + Parsed(lines[1..] + more, true)
    ensures Kept(lines + more, true) == Kept(lines[1..] + more, true)
  {
    var all := lines + more;
    assert all[1..] == lines[1..] + more && all[0] == lines[0];
    assert Holds(lines[0], entries[0]);
  }

  lemma {:induction false} LinesThatHold(lines: seq<string>, entries: seq<Entry>, more: seq<string>)
    requires AllHold(lines, entries)
    ensures DropCRs(lines) == lines
    ensures Parsed(lines + more, true) == entries + Parsed(more, true)
    ensures Kept(lines + more, true) == Kept(more, true)
  {
    if lines == [] {
      assert lines + more == more;
    } else {
      FirstHolds(lines, entries, more);
      LinesThatHold(lines[1..], entries[1..], more);
      ConcatAssoc([entries[0]], entries[1..], Parsed(more, true));
      assert lines == [lines[0]] + lines[1..] && entries == [entries[0]] + entries[1..];
    }
  }

  lemma EntryLinesAreRead(entries: seq<Entry>, more: seq<string>)
    requires AllValid(entries)
    ensures var ls := EntryLines(entries);
      && AllPlain(ls) && DropCRs(ls) == ls
      && Parsed(ls + more, true) == entries + Parsed(more, true) && Kept(ls + more, true) == Kept(more, true)
  {
    var ls := EntryLines(entries);
    forall i | 0 <= i < |ls| ensures Holds(ls[i], entries[i]) {
      assert entries[i] in entries;
      EntryLineHolds(entries[i]);
    }
    LinesThatHold(ls, entries, more);
  }

  lemma {:induction false} DropCRsConcat(a: seq<string>, b: seq<string>)
    ensures DropCRs(a + b) == DropCRs(a) + DropCRs(b)
  {
    if a == [] {
      assert a + b == b;
    } else {
      assert (a + b)[1..] == a[1..] + b;
      DropCRsConcat(a[1..], b);
    }
  }

  lemma MarkersAreTrimmed()
    ensures TrimSpace(BEGIN_MARKER) == BEGIN_MARKER && TrimSpace(END_MARKER) == END_MARKER
    ensures DropCR(BEGIN_MARKER) == BEGIN_MARKER && DropCR(END_MARKER) == END_MARKER
  {
  }

  lemma MarkersArePlain()
    ensures AllPlain(["", BEGIN_MARKER]) && AllPlain([END_MARKER])
  {
    assert Plain("") && Plain(BEGIN_MARKER) && Plain(END_MARKER);
  }

  /** The markers and the empty line before them are read as such. */
  lemma MarkersAreRead()
    ensures KindOf(BEGIN_MARKER).Begin? && KindOf(END_MARKER).End? && KindOf("").Other?
    ensures AllPlain(["", BEGIN_MARKER]) && AllPlain([END_MARKER])
    ensures DropCRs(["", BEGIN_MARKER]) == ["", BEGIN_MARKER] && DropCRs([END_MARKER]) == [END_MARKER]
  {
    MarkersAreTrimmed();
    MarkersArePlain();
    assert ["", BEGIN_MARKER][1..] == [BEGIN_MARKER] && [BEGIN_MARKER][1..] == [];
    assert DropCRs([BEGIN_MARKER]) == [BEGIN_MARKER];
  }

  lemma BlockLinesAreLines(entries: seq<Entry>)
    requires AllValid(entries) && entries != []
    ensures Lines(Text(BlockLines(entries))) == BlockLines(entries)
  {
    var head, ls, end := ["", BEGIN_MARKER], EntryLines(entries), [END_MARKER];
    MarkersAreRead();
    EntryLinesAreRead(entries, []);
    assert AllPlain(head + ls + end);
    LinesOfText(BlockLines(entries), "");
    assert Text(BlockLines(entries)) + "" == Text(BlockLines(entries));
    DropCRsConcat(head + ls, end);
    DropCRsConcat(head, ls);
    assert Lines("") == [] && BlockLines(entries) + [] == BlockLines(entries);
  }

  lemma AfterBegin(lines: seq<string>)
    ensures Parsed(["", BEGIN_MARKER] + lines, false) == Parsed(lines, true)
    ensures Kept(["", BEGIN_MARKER] + lines, false) == [""] + Kept(lines, true)
  {
    MarkersAreRead();
    var all := ["", BEGIN_MARKER] + lines;
    var tail := all[1..];
    assert tail == [BEGIN_MARKER] + lines && tail[1..] == lines;
    assert Parsed(tail, false) == Parsed(lines, true) && Kept(tail, false) == Kept(lines, true);
  }

  lemma AtEnd()
    ensures Parsed([END_MARKER], true) == [] && Kept([END_MARKER], true) == []
  {
    MarkersAreRead();
    assert [END_MARKER][1..] == [];
  }

  lemma BlockIsRead(entries: seq<Entry>)
    requires AllValid(entries) && entries != []
    ensures Parse(Text(BlockLines(entries))) == entries
    ensures Kept(Lines(Text(BlockLines(entries))), false) == [""]
  {
    var ls := EntryLines(entries) + [END_MARKER];
    BlockLinesAreLines(entries);
    EntryLinesAreRead(entries, [END_MARKER]);
    AtEnd();
    AfterBegin(ls);
    assert BlockLines(entries) == ["", BEGIN_MARKER] + ls;
  }

  /** Everything ever read from a hosts file is a valid entry. */
  lemma {:induction false} ParsedEntriesAreValid(lines: seq<string>, inBlock: bool)
    requires AllPlain(lines)
    ensures AllValid(Parsed(lines, inBlock))
  {
    if lines != [] {
      ParsedEntriesAreValid(lines[1..], InBlockAfter(lines[0], inBlock));
      EntryOfIsValid(lines[0]);
    }
  }

  lemma {:induction false} TrimShortens(s: string)
    ensures |TrimRight(s)| <= |s|
  {
    if s != "" && IsSpace(s[|s| - 1]) { TrimShortens(s[..|s| - 1]); }
  }

  lemma EntryOfIsValid(line: string)
    requires Plain(line)
    ensures AllValid(EntryOf(line))
  {
    var t := TrimSpace(line);
    TrimShortens(line);
    if t != "" && t[0] != '#' {
      var w := Word(t);
      var rest := t[|w|..];
      assert TrimLeft(t) == t && w[0] == t[0];
      if |Fields(t)| >= 2 {
        var u := TrimLeft(rest);
        assert Fields(t) == [w] + Fields(rest);
        assert Fields(t)[1] == Word(u) && u != "";
        assert IsSpace(rest[0]) && u == TrimLeft(rest[1..]);
      }
    }
  }

  // ---------------------------------------------------------------- main results

  /** Reading back an update gives the entries written, exactly when each of them
      fits on a line of its own. */
  lemma UpdateIsReadBack(content: string, entries: seq<Entry>)
    ensures Parse(Updated(content, entries)) == entries <==> AllValid(entries)
  {
    LinesArePlain(Updated(content, entries));
    ParsedEntriesAreValid(Lines(Updated(content, entries)), false);
    if AllValid(entries) {
      AfterRemoved(content, Text(BlockLines(entries)));
      if entries != [] { BlockIsRead(entries); }
    }
  }

  /** Removing undoes an update: the block leaves nothing behind. */
  lemma RemoveUndoesUpdate(content: string, entries: seq<Entry>)
    requires AllValid(entries)
    ensures Removed(Updated(content, entries)) == Removed(Removed(content))
    ensures OneCRAtMost(content) ==> Removed(Updated(content, entries)) == Removed(content)
  {
    RemoveIsIdempotent(content);
    if entries == [] {
      assert Removed(content) + "" == Removed(content);
    } else {
      var stay := DropCRs(Staying(content));
      AfterRemoved(content, Text(BlockLines(entries)));
      BlockIsRead(entries);
      RemovedTwice(content);
      assert AllPlain(stay + [""]);
      TidiedText(stay + [""]);
      DropTailIsPrefix(stay);
    }
  }

  /** An update replaces the one before it, exactly when no kept line still ends in
      a carriage return. */
  lemma UpdateReplaces(content: string, e1: seq<Entry>, e2: seq<Entry>)
    requires AllValid(e1)
    ensures Updated(Updated(content, e1), e2) == Updated(content, e2) <==> OneCRAtMost(content)
  {
    RemoveUndoesUpdate(content, e1);
    RemoveIsIdempotent(content);
    var block := Text(BlockLines(e2));
    if Removed(Removed(content)) + block == Removed(content) + block {
      SameSuffix(Removed(Removed(content)), Removed(content), block);
    }
  }

  lemma SameSuffix(a: string, b: string, c: string)
    requires a + c == b + c
    ensures a == b
  {
    assert |a| == |b|;
    assert (a + c)[..|a|] == a && (b + c)[..|b|] == b;
  }

  lemma EndThen(more: seq<string>)
    ensures Parsed([END_MARKER] + more, true) == Parsed(more, false)
      && Kept([END_MARKER] + more, true) == Kept(more, false)
  {
    MarkersAreRead();
    assert ([END_MARKER] + more)[1..] == more;
  }

  lemma FourParts<T>(a: seq<T>, b: seq<T>, c: seq<T>, d: seq<T>)
    ensures a + b + c + d == a + (b + (c + d))
  {
    ConcatAssoc(b, c, d);
    ConcatAssoc(a, b, c + d);
    ConcatAssoc(a + b, c, d);
  }

  lemma BlockSplit(entries: seq<Entry>, more: seq<string>)
    requires entries != []
    ensures BlockLines(entries) + more == ["", BEGIN_MARKER] + (EntryLines(entries) + ([END_MARKER] + more))
  {
    FourParts(["", BEGIN_MARKER], EntryLines(entries), [END_MARKER], more);
  }

  /** A block in the middle of a file leaves one empty line and what follows it. */
  lemma BlockThen(entries: seq<Entry>, more: seq<string>)
    requires AllValid(entries) && entries != []
    ensures Kept(BlockLines(entries) + more, false) == [""] + Kept(more, false)
  {
    BlockSplit(entries, more);
    EndThen(more);
    EntryLinesAreRead(entries, [END_MARKER] + more);
    AfterBegin(EntryLines(entries) + ([END_MARKER] + more));
  }

  lemma BlockInText(before: seq<string>, entries: seq<Entry>, after: seq<string>)
    requires AllPlain(before) && AllPlain(after) && AllValid(entries) && entries != []
    ensures Lines(Text(before) + (Text(BlockLines(entries)) + Text(after)))
      == DropCRs(before) + (BlockLines(entries) + DropCRs(after))
  {
    LinesOfText(after, "");
    assert Text(after) + "" == Text(after) && DropCRs(after) + Lines("") == DropCRs(after);
    BlockIsPlain(entries);
    LinesOfText(BlockLines(entries), Text(after));
    LinesOfText(before, Text(BlockLines(entries)) + Text(after));
  }

  lemma BlockIsPlain(entries: seq<Entry>)
    requires AllValid(entries) && entries != []
    ensures AllPlain(BlockLines(entries)) && DropCRs(BlockLines(entries)) == BlockLines(entries)
  {
    MarkersAreRead();
    EntryLinesAreRead(entries, []);
    DropCRsConcat(["", BEGIN_MARKER] + EntryLines(entries), [END_MARKER]);
    DropCRsConcat(["", BEGIN_MARKER], EntryLines(entries));
  }

  /** The lines outside the managed block survive, in order, when the block is removed,
      also those that somebody added after it. */
  lemma OtherLinesSurvive(before: seq<string>, entries: seq<Entry>, after: seq<string>)
    requires Unmarked(before) && Unmarked(after) && AllValid(entries) && entries != []
    ensures Removed(Text(before) + (Text(BlockLines(entries)) + Text(after)))
         == Text(DropTail(DropCRs(before) + ([""] + DropCRs(after))))
  {
    var content := Text(before) + (Text(BlockLines(entries)) + Text(after));
    BlockInText(before, entries, after);
    DropCRsKeepUnmarked(before);
    DropCRsKeepUnmarked(after);
    UnmarkedThen(DropCRs(before), BlockLines(entries) + DropCRs(after));
    BlockThen(entries, DropCRs(after));
    UnmarkedThen(DropCRs(after), []);
    assert DropCRs(after) + [] == DropCRs(after);
    PlainHasNoNewlines(DropCRs(before) + ([""] + DropCRs(after)));
    TidiedText(DropCRs(before) + ([""] + DropCRs(after)));
  }

  /** A line over the scanner's limit ends the reading, so everything from it on is
      lost when the file is cleaned or updated. */
  lemma LongLineLosesTheRest(before: seq<string>, long: string, more: string)
    requires Unmarked(before) && '\n' !in long && |long| >= MAX_TOKEN
    ensures Removed(Text(before) + (long + "\n" + more)) == Text(DropTail(DropCRs(before)))
  {
    LinesOfText(before, long + "\n" + more);
    LongLine(long, more);
    DropCRsKeepUnmarked(before);
    UnmarkedThen(DropCRs(before), []);
    assert DropCRs(before) + [] == DropCRs(before);
    PlainHasNoNewlines(DropCRs(before));
    TidiedText(DropCRs(before));
  }

  lemma LongLine(long: string, more: string)
    requires '\n' !in long && |long| >= MAX_TOKEN
    ensures Lines(long + "\n" + more) == []
  {
    var s := long + "\n" + more;
    assert s[|long|..|long| + 1] == "\n";
    FindIsFirst(s, "\n", |long|);
    var i := Find(s, "\n");
    assert s[i..i + 1][0] == s[i];
    assert forall k | 0 <= k < |long| :: s[k] == long[k];
  }

  // ---------------------------------------------------------------- what a long line costs

  /** The lines before the first one over the scanner's limit. */
  function Short(raw: seq<string>): seq<string> {
    if raw == [] || |raw[0]| >= MAX_TOKEN then [] else [raw[0]] + Short(raw[1..])
  }

  /** That line and all after it. */
  function FromLong(raw: seq<string>): seq<string> {
    if raw == [] || |raw[0]| >= MAX_TOKEN then raw else FromLong(raw[1..])
  }

  lemma {:induction false} ShortAndRest(raw: seq<string>)
    ensures raw == Short(raw) + FromLong(raw)
    ensures FromLong(raw) == [] <==> forall l | l in raw :: |l| < MAX_TOKEN
  {
    if raw != [] && |raw[0]| < MAX_TOKEN {
      ShortAndRest(raw[1..]);
      ConcatAssoc([raw[0]], Short(raw[1..]), FromLong(raw[1..]));
      assert raw == [raw[0]] + raw[1..];
    }
  }

  /** Reading stops at the first line that is too long. */
  lemma {:induction false} ReadingStopsAtALongLine(content: string)
    ensures Lines(content) == DropCRs(Short(RawLines(content)))
    decreases |content|
  {
    var i := Find(content, "\n");
    if content != "" && i < MAX_TOKEN {
      if i < 0 {
        assert [content][1..] == [];
      } else {
        var first, rest := content[..i], After(content, i + 1);
        ReadingStopsAtALongLine(rest);
        FirstDropped(first, Short(RawLines(rest)));
        assert ([first] + RawLines(rest))[1..] == RawLines(rest);
      }
    }
  }

  lemma {:induction false} DropCRsSameLength(lines: seq<string>)
    ensures |DropCRs(lines)| == |lines|
  {
    if lines != [] { DropCRsSameLength(lines[1..]); }
  }

  /** All lines of the file as a reader without a limit would see them. */
  function AllLines(content: string): seq<string> {
    DropCRs(RawLines(content))
  }

  /** Every line is read if and only if none is over the limit. */
  lemma EveryLineIsReadIff(content: string)
    ensures Lines(content) == AllLines(content) <==> forall l | l in RawLines(content) :: |l| < MAX_TOKEN
  {
    var raw := RawLines(content);
    ReadingStopsAtALongLine(content);
    ShortAndRest(raw);
    DropCRsSameLength(raw);
    DropCRsSameLength(Short(raw));
    if FromLong(raw) == [] { assert Short(raw) + [] == Short(raw); }
  }

  /** Whether what follows these lines is in the managed block. */
  function InBlock(lines: seq<string>, inBlock: bool): bool {
    if lines == [] then inBlock else InBlock(lines[1..], InBlockAfter(lines[0], inBlock))
  }

  /** That is, whether the last marker, if there is any, begins a block. */
  lemma {:induction false} LastMarkerDecides(lines: seq<string>, k: nat, inBlock: bool)
    requires k < |lines| && !KindOf(lines[k]).Other?
    requires forall j | k < j < |lines| :: KindOf(lines[j]).Other?
    ensures InBlock(lines, inBlock) == KindOf(lines[k]).Begin?
  {
    if k == 0 {
      NoMarkerNoChange(lines[1..], InBlockAfter(lines[0], inBlock));
    } else {
      LastMarkerDecides(lines[1..], k - 1, InBlockAfter(lines[0], inBlock));
    }
  }

  lemma {:induction false} NoMarkerNoChange(lines: seq<string>, inBlock: bool)
    requires forall j | 0 <= j < |lines| :: KindOf(lines[j]).Other?
    ensures InBlock(lines, inBlock) == inBlock
  {
    if lines != [] { NoMarkerNoChange(lines[1..], inBlock); }
  }

  lemma FirstKept(first: string, rest: seq<string>, inBlock: bool)
    ensures Kept([first] + rest, inBlock)
         == (if !inBlock && KindOf(first).Other? then [first] else []) + Kept(rest, InBlockAfter(first, inBlock))
  {
    assert ([first] + rest)[1..] == rest;
  }

  lemma FirstParsed(first: string, rest: seq<string>, inBlock: bool)
    ensures Parsed([first] + rest, inBlock)
         == (if inBlock && KindOf(first).Other? then EntryOf(first) else [])
           + Parsed(rest, InBlockAfter(first, inBlock))
  {
    assert ([first] + rest)[1..] == rest;
  }

  lemma FirstInBlock(first: string, rest: seq<string>, inBlock: bool)
    ensures InBlock([first] + rest, inBlock) == InBlock(rest, InBlockAfter(first, inBlock))
  {
    assert ([first] + rest)[1..] == rest;
  }

  lemma OneMoreKeptByParts(first: string, rest: seq<string>, b: seq<string>, inBlock: bool)
    requires var next := InBlockAfter(first, inBlock);
      Kept(rest + b, next) == Kept(rest, next) + Kept(b, InBlock(rest, next))
    ensures Kept([first] + rest + b, inBlock)
      == Kept([first] + rest, inBlock) + Kept(b, InBlock([first] + rest, inBlock))
  {
    var next := InBlockAfter(first, inBlock);
    var here := if !inBlock && KindOf(first).Other? then [first] else [];
    FirstKept(first, rest, inBlock);
    FirstKept(first, rest + b, inBlock);
    FirstInBlock(first, rest, inBlock);
    ConcatAssoc([first], rest, b);
    ConcatAssoc(here, Kept(rest, next), Kept(b, InBlock(rest, next)));
  }

  lemma OneMoreParsedByParts(first: string, rest: seq<string>, b: seq<string>, inBlock: bool)
    requires var next := InBlockAfter(first, inBlock);
      Parsed(rest + b, next) == Parsed(rest, next) + Parsed(b, InBlock(rest, next))
    ensures Parsed([first] + rest + b, inBlock)
      == Parsed([first] + rest, inBlock) + Parsed(b, InBlock([first] + rest, inBlock))
  {
    var next := InBlockAfter(first, inBlock);
    var here := if inBlock && KindOf(first).Other? then EntryOf(first) else [];
    FirstParsed(first, rest, inBlock);
    FirstParsed(first, rest + b, inBlock);
    FirstInBlock(first, rest, inBlock);
    ConcatAssoc([first], rest, b);
    ConcatAssoc(here, Parsed(rest, next), Parsed(b, InBlock(rest, next)));
  }

  /** What is kept and read from a text in two parts. */
  lemma {:induction false} PartByPart(a: seq<string>, b: seq<string>, inBlock: bool)
    ensures Kept(a + b, inBlock) == Kept(a, inBlock) + Kept(b, InBlock(a, inBlock))
    ensures Parsed(a + b, inBlock) == Parsed(a, inBlock) + Parsed(b, InBlock(a, inBlock))
  {
    if a == [] {
      assert a + b == b;
    } else {
      PartByPart(a[1..], b, InBlockAfter(a[0], inBlock));
      OneMoreKeptByParts(a[0], a[1..], b, inBlock);
      OneMoreParsedByParts(a[0], a[1..], b, inBlock);
      assert a == [a[0]] + a[1..];
    }
  }

  /** The lines outside managed blocks from the first long line on. */
  function Lost(content: string): seq<string> {
    Kept(DropCRs(FromLong(RawLines(content))), InBlock(Lines(content), false))
  }

  /** The entries in managed blocks from the first long line on. */
  function Unseen(content: string): seq<Entry> {
    Parsed(DropCRs(FromLong(RawLines(content))), InBlock(Lines(content), false))
  }

  /** What is kept and read, together with what is not, is all there is; and nothing
      is lost or unseen in a file without long lines. */
  lemma LongLinesCost(content: string)
    ensures Kept(AllLines(content), false) == Kept(Lines(content), false) + Lost(content)
    ensures Parsed(AllLines(content), false) == Parse(content) + Unseen(content)
    ensures (forall l | l in RawLines(content) :: |l| < MAX_TOKEN) ==> Lost(content) == [] && Unseen(content) == []
  {
    var raw := RawLines(content);
    ShortAndRest(raw);
    ReadingStopsAtALongLine(content);
    DropCRsConcat(Short(raw), FromLong(raw));
    PartByPart(DropCRs(Short(raw)), DropCRs(FromLong(raw)), false);
  }

  /** Main result for reading: every entry of the file is found if and only if no
      entry stands in a managed block from the first long line on. */
  lemma EveryEntryIsFoundIff(content: string)
    ensures Parse(content) == Parsed(AllLines(content), false) <==> Unseen(content) == []
  {
    LongLinesCost(content);
    assert Parse(content) + [] == Parse(content);
  }

  lemma {:induction false} RawHasNoNewlines(s: string)
    ensures NoNewlines(RawLines(s))
    decreases |s|
  {
    FirstIsPlain(s);
    var i := Find(s, "\n");
    if s != "" && i >= 0 {
      RawHasNoNewlines(After(s, i + 1));
    }
  }

  lemma {:induction false} DropCRsAddNoNewlines(lines: seq<string>)
    requires NoNewlines(lines)
    ensures NoNewlines(DropCRs(lines))
  {
    if lines != [] {
      assert '\n' !in lines[0];
      DropCRsAddNoNewlines(lines[1..]);
    }
  }

  lemma {:induction false} KeptIsPart(lines: seq<string>, inBlock: bool)
    ensures forall l | l in Kept(lines, inBlock) :: l in lines
  {
    if lines != [] {
      KeptIsPart(lines[1..], InBlockAfter(lines[0], inBlock));
    }
  }

  predicate AllEmpty(lines: seq<string>) {
    forall i | 0 <= i < |lines| :: lines[i] == ""
  }

  /** Empty lines at the end make no difference, any other line does. */
  lemma {:induction false} DropTailIff(a: seq<string>, b: seq<string>)
    ensures if AllEmpty(b) then DropTail(a + b) == DropTail(a) else |Text(DropTail(a + b))| > |Text(DropTail(a))|
    decreases |b|
  {
    if b == [] {
      assert a + b == a;
    } else {
      var init, last := b[..|b| - 1], b[|b| - 1];
      assert (a + b)[..|a + b| - 1] == a + init && b == init + [last];
      assert AllEmpty(b) <==> AllEmpty(init) && last == "" by {
        assert forall i | 0 <= i < |init| :: init[i] == b[i];
      }
      if last == "" {
        assert (a + b)[|a + b| - 1] == "" && DropTail(a + b) == DropTail(a + init);
        DropTailIff(a, init);
      } else {
        TextConcat(a, b);
        TextConcat(init, [last]);
        DropTailShortens(a);
        assert [last][..0] == [] && Text([last]) == "" + last + "\n";
      }
    }
  }

  /** Main result for removing: the file keeps every line outside managed blocks if
      and only if nothing but empty lines stands there from the first long line on. */
  lemma EveryOtherLineStaysIff(content: string)
    ensures Removed(content) == Tidied(Text(Kept(AllLines(content), false))) <==> AllEmpty(Lost(content))
  {
    var kept, all := Kept(Lines(content), false), Kept(AllLines(content), false);
    LongLinesCost(content);
    RawHasNoNewlines(content);
    DropCRsAddNoNewlines(RawLines(content));
    KeptIsPart(AllLines(content), false);
    assert NoNewlines(all);
    TidiedText(all);
    RemovedIsText(content);
    DropTailIff(kept, Lost(content));
  }

  // ---------------------------------------------------------------- what a line says

  predicate Blank(s: string) {
    forall i | 0 <= i < |s| :: IsSpace(s[i])
  }

  /** What is dropped on the left is blank. */
  lemma {:induction false} TrimLeftDrops(s: string) returns (pre: string)
    ensures Blank(pre) && s == pre + TrimLeft(s)
  {
    pre := "";
    if s != "" && IsSpace(s[0]) {
      pre := TrimLeftDrops(s[1..]);
      pre := [s[0]] + pre;
    }
  }

  lemma {:induction false} TrimRightDrops(s: string) returns (post: string)
    ensures Blank(post) && s == TrimRight(s) + post
  {
    post := "";
    if s != "" && IsSpace(s[|s| - 1]) {
      post := TrimRightDrops(s[..|s| - 1]);
      post := post + [s[|s| - 1]];
    }
  }

  lemma TrimSpaceDrops(s: string) returns (pre: string, post: string)
    ensures Blank(pre) && Blank(post) && s == pre + (TrimSpace(s) + post)
  {
    post := TrimRightDrops(s);
    pre := TrimLeftDrops(TrimRight(s));
    assert pre + TrimSpace(s) + post == pre + (TrimSpace(s) + post);
  }

  lemma {:induction false} TrimLeftSkips(pre: string, more: string)
    requires Blank(pre) && (more != "" ==> !IsSpace(more[0]))
    ensures TrimLeft(pre + more) == more
  {
    if pre == "" {
      assert pre + more == more;
    } else {
      TrimLeftSkips(pre[1..], more);
      assert (pre + more)[1..] == pre[1..] + more;
    }
  }

  /** Only what follows the last solid character can be trimmed on the right. */
  lemma {:induction false} TrimRightStops(a: string, more: string) returns (kept: string)
    requires a != "" && !IsSpace(a[|a| - 1])
    ensures kept <= more && TrimRight(a + more) == a + kept
  {
    kept := more;
    if more == "" {
      assert a + more == a;
    } else if IsSpace(more[|more| - 1]) {
      kept := TrimRightStops(a, more[..|more| - 1]);
      assert (a + more)[..|a + more| - 1] == a + more[..|more| - 1];
    }
  }

  lemma TrimSpaceOf(pre: string, core: string, more: string) returns (kept: string)
    requires Blank(pre) && core != "" && !IsSpace(core[0]) && !IsSpace(core[|core| - 1])
    ensures kept <= more && TrimSpace(pre + (core + more)) == core + kept
  {
    assert pre + (core + more) == pre + core + more;
    kept := TrimRightStops(pre + core, more);
    TrimLeftSkips(pre, core + kept);
    assert pre + core + kept == pre + (core + kept);
  }

  /** The marker stands in the line after spaces only; anything may follow it. */
  ghost predicate Marks(line: string, marker: string) {
    exists pre: string, more: string :: Blank(pre) && line == pre + (marker + more)
  }

  lemma TrimmedMarks(line: string, marker: string)
    requires marker != "" && !IsSpace(marker[0]) && !IsSpace(marker[|marker| - 1])
    ensures marker <= TrimSpace(line) <==> Marks(line, marker)
  {
    if Marks(line, marker) {
      var pre: string, more: string :| Blank(pre) && line == pre + (marker + more);
      var kept := TrimSpaceOf(pre, marker, more);
    }
    if marker <= TrimSpace(line) {
      var pre, post := TrimSpaceDrops(line);
      var more := TrimSpace(line)[|marker|..] + post;
      assert TrimSpace(line) + post == marker + more;
      assert Blank(pre) && line == pre + (marker + more);
    }
  }

  /** A line is a marker exactly when the marker stands in it, however far indented and
      whatever follows. */
  lemma KindOfIff(line: string)
    ensures KindOf(line).Begin? <==> Marks(line, BEGIN_MARKER)
    ensures KindOf(line).End? <==> Marks(line, END_MARKER)
  {
    TrimmedMarks(line, BEGIN_MARKER);
    TrimmedMarks(line, END_MARKER);
    assert BEGIN_MARKER[2] == 'B' && END_MARKER[2] == 'E';
  }

  predicate IsWord(w: string) {
    w != "" && Solid(w)
  }

  /** An address, not beginning with '#', a gap, and a name; a gap follows or nothing. */
  ghost predicate Stands(line: string, e: Entry, pre: string, gap: string, more: string) {
    && line == pre + (e.ip + (gap + (e.hostname + more))) && Blank(pre) && Blank(gap) && gap != ""
    && IsWord(e.ip) && IsWord(e.hostname) && e.ip[0] != '#' && (more != "" ==> IsSpace(more[0]))
  }

  ghost predicate BeginsWith(line: string, e: Entry) {
    exists pre, gap, more :: Stands(line, e, pre, gap, more)
  }

  lemma FirstField(w: string, more: string)
    requires IsWord(w) && (more != "" ==> IsSpace(more[0]))
    ensures Fields(w + more) == [w] + Fields(more)
  {
    WordThenSpace(w, more);
    assert (w + more)[0] == w[0] && (w + more)[|w|..] == more;
  }

  lemma FieldsSkip(gap: string, more: string)
    requires Blank(gap) && (more != "" ==> !IsSpace(more[0]))
    ensures Fields(gap + more) == Fields(more)
  {
    TrimLeftSkips(gap, more);
  }

  lemma TwoFields(ip: string, gap: string, name: string, more: string)
    requires IsWord(ip) && Blank(gap) && gap != "" && IsWord(name) && (more != "" ==> IsSpace(more[0]))
    ensures Fields(ip + (gap + (name + more))) == [ip] + ([name] + Fields(more))
  {
    FirstField(ip, gap + (name + more));
    FieldsSkip(gap, name + more);
    FirstField(name, more);
  }

  lemma EntryIsRead(line: string, e: Entry, pre: string, gap: string, more: string)
    requires Stands(line, e, pre, gap, more)
    ensures EntryOf(line) == [e]
  {
    var core := e.ip + (gap + e.hostname);
    assert e.ip + (gap + (e.hostname + more)) == core + more;
    assert core[0] == e.ip[0] && core[|core| - 1] == e.hostname[|e.hostname| - 1];
    var kept := TrimSpaceOf(pre, core, more);
    assert core + kept == e.ip + (gap + (e.hostname + kept));
    TwoFields(e.ip, gap, e.hostname, kept);
  }

  /** The first word of a text and what follows it. */
  lemma FirstWord(t: string) returns (w: string, more: string)
    requires t != "" && !IsSpace(t[0])
    ensures t == w + more && IsWord(w) && (more != "" ==> IsSpace(more[0])) && Fields(t) == [w] + Fields(more)
  {
    w, more := Word(t), t[|Word(t)|..];
    FirstField(w, more);
  }

  lemma EntryStands(line: string, e: Entry) returns (pre: string, gap: string, more: string)
    requires EntryOf(line) == [e]
    ensures Stands(line, e, pre, gap, more)
  {
    var post;
    pre, post := TrimSpaceDrops(line);
    var t := TrimSpace(line);
    var ip, rest := FirstWord(t);
    gap := TrimLeftDrops(rest);
    var u := TrimLeft(rest);
    assert Fields(rest) != [];
    var name, more' := FirstWord(u);
    FieldsSkip(gap, u);
    more := more' + post;
    assert e == Entry(ip, name);
    assert t + post == ip + (gap + (name + more));
  }

  /** A line gives the entry exactly when it begins with it: comments and lines of one
      word give none, and whatever follows the name does not count. */
  lemma EntryOfIff(line: string, e: Entry)
    ensures EntryOf(line) == [e] <==> BeginsWith(line, e)
  {
    if BeginsWith(line, e) {
      var pre, gap, more :| Stands(line, e, pre, gap, more);
      EntryIsRead(line, e, pre, gap, more);
    }
    if EntryOf(line) == [e] {
      var pre, gap, more := EntryStands(line, e);
    }
  }

  // ---------------------------------------------------------------- host names

  predicate IsAlnum(c: char) {
    'a' <= c <= 'z' || 'A' <= c <= 'Z' || '0' <= c <= '9'
  }

  predicate IsLabel(s: string) {
    && 1 <= |s| <= 63 && IsAlnum(s[0]) && IsAlnum(s[|s| - 1])
    && forall i | 0 <= i < |s| :: IsAlnum(s[i]) || s[i] == '-'
  }

  /** Labels with dots between them. */
  predicate AreLabels(s: string)
    decreases |s|
  {
    var i := Find(s, ".");
    if i < 0 then IsLabel(s) else IsLabel(s[..i]) && AreLabels(After(s, i + 1))
  }

  predicate ValidHostname(hostname: string) {
    hostname != "" && |hostname| <= 253 && AreLabels(hostname)
  }

  method ValidateEntries(entries: seq<Entry>) returns (ok: bool)
    ensures ok <==> forall e | e in entries :: ValidHostname(e.hostname)
  {
    for i := 0 to |entries|
      invariant forall e | e in entries[..i] :: ValidHostname(e.hostname)
    {
      if !ValidHostname(entries[i].hostname) {
        return false;
      }
      assert entries[..i + 1] == entries[..i] + [entries[i]];
    }
    assert entries[..|entries|] == entries;
    return true;
  }

  /** The characters next to a dot or to an end. */
  predicate AtEdge(s: string, i: int)
    requires 0 <= i < |s|
  {
    i == 0 || i == |s| - 1 || s[i - 1] == '.' || s[i + 1] == '.'
  }

  predicate RightAt(s: string, i: int)
    requires 0 <= i < |s|
  {
    IsAlnum(s[i]) || (!AtEdge(s, i) && (s[i] == '-' || s[i] == '.'))
  }

  ghost predicate RightCharacters(s: string) {
    forall i | 0 <= i < |s| :: RightAt(s, i)
  }

  ghost predicate DotAmong(s: string, i: int)
    requires 0 <= i && i + 64 <= |s|
  {
    exists k :: i <= k < i + 64 && s[k] == '.'
  }

  ghost predicate ShortLabels(s: string) {
    forall i | 0 <= i && i + 64 <= |s| :: DotAmong(s, i)
  }

  lemma OneLabelIff(s: string)
    requires '.' !in s && s != ""
    ensures IsLabel(s) <==> RightCharacters(s) && ShortLabels(s)
  {
    if |s| >= 64 { assert !DotAmong(s, 0); }
    if RightCharacters(s) {
      assert RightAt(s, 0) && RightAt(s, |s| - 1);
      forall k | 0 <= k < |s| ensures IsAlnum(s[k]) || s[k] == '-' {
        assert RightAt(s, k);
      }
    }
  }

  lemma CharactersByParts(s: string, i: nat)
    requires 0 < i < |s| - 1 && s[i] == '.'
    ensures RightCharacters(s) <==> RightCharacters(s[..i]) && RightCharacters(s[i + 1..])
  {
    var a, b := s[..i], s[i + 1..];
    forall k | 0 <= k < i ensures AtEdge(s, k) <==> AtEdge(a, k) {
    }
    forall k | 0 <= k < |b| ensures AtEdge(s, i + 1 + k) <==> AtEdge(b, k) {
    }
    if RightCharacters(a) && RightCharacters(b) {
      assert RightAt(a, i - 1) && RightAt(b, 0);
      forall k | 0 <= k < |s| ensures RightAt(s, k) {
        if k < i { assert s[k] == a[k] && RightAt(a, k); }
        if k > i {
          assert RightAt(b, k - i - 1) && (AtEdge(s, i + 1 + (k - i - 1)) <==> AtEdge(b, k - i - 1));
        }
        if k == i { assert s[i - 1] == a[i - 1] && s[i + 1] == b[0]; }
      }
    }
    if RightCharacters(s) {
      forall k | 0 <= k < i ensures RightAt(a, k) {
        assert RightAt(s, k);
      }
      forall k | 0 <= k < |b| ensures RightAt(b, k) {
        assert RightAt(s, i + 1 + k);
        assert AtEdge(s, i + 1 + k) <==> AtEdge(b, k);
      }
    }
  }

  lemma LengthsByParts(s: string, i: nat)
    requires i < |s| && s[i] == '.'
    ensures ShortLabels(s) <==> ShortLabels(s[..i]) && ShortLabels(s[i + 1..])
  {
    var a, b := s[..i], s[i + 1..];
    forall k: int | 0 <= k && k + 64 <= i ensures DotAmong(s, k) <==> DotAmong(a, k) {
      if DotAmong(s, k) { var j :| k <= j < k + 64 && s[j] == '.'; assert a[j] == '.'; }
      if DotAmong(a, k) { var j :| k <= j < k + 64 && a[j] == '.'; assert s[j] == '.'; }
    }
    forall k: int | 0 <= k && k + 64 <= |b| ensures DotAmong(s, i + 1 + k) <==> DotAmong(b, k) {
      if DotAmong(s, i + 1 + k) { var j :| i + 1 + k <= j < i + 65 + k && s[j] == '.'; assert b[j - i - 1] == '.'; }
      if DotAmong(b, k) { var j :| k <= j < k + 64 && b[j] == '.'; assert s[i + 1 + j] == '.'; }
    }
    forall k: int | k <= i < k + 64 && 0 <= k && k + 64 <= |s| ensures DotAmong(s, k) {
      assert s[i] == '.';
    }
    if ShortLabels(a) && ShortLabels(b) {
      forall k: int | 0 <= k && k + 64 <= |s| ensures DotAmong(s, k) {
        if k > i { assert DotAmong(b, k - i - 1); }
      }
    }
    if ShortLabels(s) {
      forall k: int | 0 <= k && k + 64 <= |b| ensures DotAmong(b, k) {
        assert DotAmong(s, i + 1 + k);
      }
    }
  }

  lemma {:induction false} AreLabelsIff(s: string)
    requires s != ""
    ensures AreLabels(s) <==> RightCharacters(s) && ShortLabels(s)
    decreases |s|
  {
    var i := Find(s, ".");
    FirstDot(s);
    if i < 0 {
      OneLabelIff(s);
    } else if 0 < i < |s| - 1 {
      AreLabelsIff(After(s, i + 1));
      OneLabelIff(s[..i]);
      CharactersByParts(s, i);
      LengthsByParts(s, i);
    } else {
      assert !RightAt(s, i);
      assert AreLabels("") == IsLabel("") == false;
    }
  }

  lemma FirstDot(s: string)
    ensures var i := Find(s, "."); if i < 0 then '.' !in s else i < |s| && s[i] == '.' && '.' !in s[..i]
  {
    var i := Find(s, ".");
    var first := if i < 0 then s else s[..i];
    if '.' in first {
      var k :| 0 <= k < |first| && first[k] == '.';
      DotIsFound(s, k);
    }
    if i >= 0 { assert s[i] == s[i..i + 1][0]; }
  }

  lemma DotIsFound(s: string, k: nat)
    requires k < |s| && s[k] == '.'
    ensures 0 <= Find(s, ".") <= k
  {
    assert s[k..k + 1] == ".";
    FindIsFirst(s, ".", k);
  }

  /** The accepted names, character by character: letters, digits, hyphens and dots, only
      letters and digits next to a dot or an end, at most 253 in all and at most 63 without
      a dot. */
  lemma ValidHostnameIff(hostname: string)
    ensures ValidHostname(hostname) <==>
      1 <= |hostname| <= 253 && RightCharacters(hostname) && ShortLabels(hostname)
  {
    if hostname != "" { AreLabelsIff(hostname); }
  }

  lemma SolidParts(s: string, i: nat)
    requires i < |s| && Solid(s[..i]) && !IsSpace(s[i]) && Solid(s[i + 1..])
    ensures Solid(s)
  {
    forall k | 0 <= k < |s| ensures !IsSpace(s[k]) {
      if k < i { assert s[k] == s[..i][k]; }
      if k > i { assert s[k] == s[i + 1..][k - i - 1]; }
    }
  }

  lemma LabelIsSolid(s: string)
    requires IsLabel(s)
    ensures Solid(s)
  {
  }

  lemma {:induction false} LabelsAreSolid(s: string)
    requires AreLabels(s)
    ensures Solid(s)
    decreases |s|
  {
    var i := Find(s, ".");
    if i < 0 {
      LabelIsSolid(s);
    } else {
      LabelIsSolid(s[..i]);
      LabelsAreSolid(After(s, i + 1));
      assert s[i] == s[i..i + 1][0];
      SolidParts(s, i);
    }
  }

  /** Every accepted host name can be written for the local address and read back. */
  lemma ValidHostnameFits(hostname: string)
    requires ValidHostname(hostname)
    ensures ValidEntry(Entry("127.0.0.1", hostname))
  {
    LabelsAreSolid(hostname);
  }
}
