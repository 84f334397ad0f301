/** Model of the streaming tool loop in pkg/ai/anthropic_api.go and
    pkg/ai/anthropic_tools.go. */
module ToolLoop {
  import opened Common
  import opened ToolParams

  // ---------------------------------------------------------------- data model

  datatype ToolCall = ToolCall(id: string, name: string, input: string)

  /** What a tool result says: the client is missing, the input could not be parsed,
      or the tool's own output. */
  datatype ResultText = NoClient | ParseError(error: string) | Output(text: string)

  datatype BlockKind =
    | Text(text: string)
    | ToolUse(call: ToolCall)
    | ToolResult(useId: string, content: ResultText, isError: bool)

  /** A content block with its cache marker; a thinking block cannot carry one. */
  datatype Block = Block(kind: BlockKind, marked: bool) | Thinking(thought: string)

  datatype Role = User | Assistant

  datatype Message = Message(role: Role, content: seq<Block>)

  datatype Usage = Usage(input: nat, output: nat, cacheRead: nat, cacheCreation: nat)

  datatype StreamError = ExceededMaximumToolUseIterations

  datatype StreamEvent =
    | TextEvent(text: string)
    | ToolUseEvent(call: ToolCall)
    | ToolResultEvent(id: string, name: string, result: ResultText, isError: bool)
    | ErrorEvent(error: StreamError)
    | DoneEvent(usage: Usage)

  /** What comes of running one tool call. */
  datatype ToolReturn = BadInput(error: string) | Returned(result: string, isError: bool)

  /** Everything the outside decides about one turn: cancellation, how the stream
      ends, the text that arrives, the message it makes, and what each tool returns. */
  datatype Turn = Turn(
    cancelledBefore: bool,
    streamFails: bool,
    cancelledAfter: bool,
    chunks: seq<string>,
    content: seq<Block>,
    usage: Usage,
    results: nat -> ToolReturn)

  datatype Outcome = Finished | NoKey | Cancelled | StreamFailed

  const MAX_TOOL_LOOPS: nat := 25

  // ---------------------------------------------------------------- cache markers

  function ClearedBlock(b: Block): Block {
    if b.Block? then b.(marked := false) else b
  }

  function ClearedContent(content: seq<Block>): seq<Block> {
    seq(|content|, j requires 0 <= j < |content| => ClearedBlock(content[j]))
  }

  function Cleared(messages: seq<Message>): seq<Message> {
    seq(|messages|, i requires 0 <= i < |messages| => messages[i].(content := ClearedContent(messages[i].content)))
  }

  /** The last block of a message that can carry a marker, or -1. */
  function LastCacheable(content: seq<Block>): (j: int)
    ensures -1 <= j < |content| && (j >= 0 ==> content[j].Block?)
    ensures forall k | j < k < |content| :: !content[k].Block?
  {
    if content == [] then -1
    else if content[|content| - 1].Block? then |content| - 1
    else LastCacheable(content[..|content| - 1])
  }

  function MarkedMessage(m: Message): Message {
    var j := LastCacheable(m.content);
    if j >= 0 then m.(content := m.content[j := m.content[j].(marked := true)]) else m
  }

  function MarkAt(messages: seq<Message>, i: int): seq<Message> {
    if 0 <= i < |messages| then messages[i := MarkedMessage(messages[i])] else messages
  }

  function Writer(n: nat): int {
    if n >= 3 then n - 2 else -1
  }

  function Reader(n: nat): int {
    if n >= 5 then n - 4 else -1
  }

  function Breakpoints(messages: seq<Message>): seq<Message> {
    MarkAt(MarkAt(Cleared(messages), Writer(|messages|)), Reader(|messages|))
  }

  predicate IsMarked(messages: seq<Message>, i: int, j: int) {
    0 <= i < |messages| && 0 <= j < |messages[i].content| && messages[i].content[j].Block?
      && messages[i].content[j].marked
  }

  lemma MarkAtMarks(messages: seq<Message>, i: int)
    ensures |MarkAt(messages, i)| == |messages|
    ensures forall k | 0 <= k < |messages| ::
      MarkAt(messages, i)[k].role == messages[k].role && |MarkAt(messages, i)[k].content| == |messages[k].content|
      && LastCacheable(MarkAt(messages, i)[k].content) == LastCacheable(messages[k].content)
    ensures forall k, j :: IsMarked(MarkAt(messages, i), k, j) <==>
      IsMarked(messages, k, j) || (k == i && 0 <= k < |messages| && j >= 0 && j == LastCacheable(messages[k].content))
  {
    if 0 <= i < |messages| {
      SameKindsSameLast(messages[i].content, MarkedMessage(messages[i]).content);
    }
  }

  /** Where a message may be marked depends only on the kinds of its blocks. */
  lemma SameKindsSameLast(a: seq<Block>, b: seq<Block>)
    requires |a| == |b| && forall j | 0 <= j < |a| :: a[j].Block? == b[j].Block?
    ensures LastCacheable(a) == LastCacheable(b)
  {
    var i, j := LastCacheable(a), LastCacheable(b);
    assert j >= 0 ==> a[j].Block?;
    assert i >= 0 ==> b[i].Block?;
  }

  /** Main result about one request: the marked blocks are exactly the writer, in the
      last message but one, and the reader, two messages before it.  No marker from
      an earlier request survives. */
  lemma MarkersAreWriterAndReader(messages: seq<Message>, i: int, j: int)
    ensures IsMarked(Breakpoints(messages), i, j) <==>
      0 <= i < |messages| && 0 <= j == LastCacheable(messages[i].content)
        && ((i == |messages| - 2 && |messages| >= 3) || (i == |messages| - 4 && |messages| >= 5))
  {
    var c, n := Cleared(messages), |messages|;
    assert !IsMarked(c, i, j);
    MarkAtMarks(c, Writer(n));
    MarkAtMarks(MarkAt(c, Writer(n)), Reader(n));
    if 0 <= i < n {
      SameKindsSameLast(messages[i].content, c[i].content);
    }
  }

  function MarkedBlocks(messages: seq<Message>): set<(int, int)> {
    set i, j | 0 <= i < |messages| && 0 <= j < |messages[i].content| && IsMarked(messages, i, j) :: (i, j)
  }

  lemma AtMostTwo(s: set<(int, int)>, a: (int, int), b: (int, int))
    requires s <= {a, b}
    ensures |s| <= 2
  {
    var t := {a, b} - s;
    assert {a, b} == s + t;
  }

  /** With the system block and the last tool a request never has more than the four
      markers the service allows. */
  lemma AtMostFourMarkers(messages: seq<Message>, tools: seq<Tool>, system: bool)
    requires MarkedTools(tools) <= {|tools| - 1}
    ensures |MarkedBlocks(Breakpoints(messages))| <= 2
    ensures |MarkedBlocks(Breakpoints(messages))| + |MarkedTools(tools)| + (if system then 1 else 0) <= 4
  {
    var n, ms := |messages|, Breakpoints(messages);
    var w := (Writer(n), if n >= 3 then LastCacheable(messages[n - 2].content) else -1);
    var r := (Reader(n), if n >= 5 then LastCacheable(messages[n - 4].content) else -1);
    forall p | p in MarkedBlocks(ms) ensures p == w || p == r {
      assert IsMarked(ms, p.0, p.1);
      MarkersAreWriterAndReader(messages, p.0, p.1);
    }
    AtMostTwo(MarkedBlocks(ms), w, r);
    assert MarkedTools(tools) == {} || MarkedTools(tools) == {|tools| - 1};
  }

  /** The cascade: when two messages are added, the block that was written is the
      block that is read, and everything before the new messages is the same text. */
  lemma ReaderFollowsWriter(messages: seq<Message>, both: seq<Message>)
    requires |both| == 2
    ensures Cascaded(Breakpoints(messages), Breakpoints(messages + both))
  {
    var n, w := |messages|, Writer(|messages|);
    BreakpointsKeepText(messages);
    BreakpointsKeepText(messages + both);
    ClearedConcat(messages, both);
    forall j
      ensures n >= 3 ==> (IsMarked(Breakpoints(messages), w, j) <==> IsMarked(Breakpoints(messages + both), w, j))
    {
      MarkersAreWriterAndReader(messages, w, j);
      MarkersAreWriterAndReader(messages + both, w, j);
    }
  }

  /** The second request continues the first: two messages more, the same text before
      them, and what the first wrote is what the second reads. */
  ghost predicate Cascaded(before: seq<Message>, after: seq<Message>) {
    && |after| == |before| + 2 && Cleared(before) <= Cleared(after)
    && (|before| >= 3 ==> Reader(|after|) == Writer(|before|))
    && forall j :: |before| >= 3 ==> (IsMarked(before, Writer(|before|), j) <==> IsMarked(after, Reader(|after|), j))
  }

  lemma ClearedConcat(a: seq<Message>, b: seq<Message>)
    ensures Cleared(a + b) == Cleared(a) + Cleared(b)
  {
  }

  lemma MarkAtKeepsText(messages: seq<Message>, i: int)
    ensures Cleared(MarkAt(messages, i)) == Cleared(messages)
  {
    if 0 <= i < |messages| {
      assert ClearedContent(MarkedMessage(messages[i]).content) == ClearedContent(messages[i].content);
    }
  }

  /** Marking changes nothing but markers. */
  lemma BreakpointsKeepText(messages: seq<Message>)
    ensures Cleared(Breakpoints(messages)) == Cleared(messages) && |Breakpoints(messages)| == |messages|
  {
    var c := Cleared(messages);
    MarkAtKeepsText(c, Writer(|messages|));
    MarkAtKeepsText(MarkAt(c, Writer(|messages|)), Reader(|messages|));
    ClearedTwice(messages);
  }

  lemma ClearedTwice(messages: seq<Message>)
    ensures Cleared(Cleared(messages)) == Cleared(messages)
  {
    forall i | 0 <= i < |messages|
      ensures ClearedContent(ClearedContent(messages[i].content)) == ClearedContent(messages[i].content)
    {
    }
  }

  // ---------------------------------------------------------------- the messages, changed in place

  /** The same blocks, apart from their markers. */
  ghost predicate SameButMarkers(a: seq<Block>, b: seq<Block>) {
    && |a| == |b|
    && forall j | 0 <= j < |a| :: if a[j].Block? then b[j].Block? && b[j].kind == a[j].kind else b[j] == a[j]
  }

  lemma ClearedAreSame(a: seq<Block>, b: seq<Block>)
    requires ClearedContent(a) == ClearedContent(b)
    ensures SameButMarkers(a, b)
  {
    assert |ClearedContent(a)| == |a| && |ClearedContent(b)| == |b|;
    forall j | 0 <= j < |a| ensures ClearedBlock(a[j]) == ClearedBlock(b[j]) {
      assert ClearedContent(a)[j] == ClearedContent(b)[j];
    }
  }

  /** The same messages, apart from markers. */
  ghost predicate OnlyMarkersDiffer(a: seq<Message>, b: seq<Message>) {
    |a| == |b| && forall i | 0 <= i < |a| :: a[i].role == b[i].role && SameButMarkers(a[i].content, b[i].content)
  }

  lemma PassChangesOnlyMarkers(messages: seq<Message>)
    ensures OnlyMarkersDiffer(messages, Breakpoints(messages))
  {
    BreakpointsKeepText(messages);
    var after := Breakpoints(messages);
    forall i | 0 <= i < |messages|
      ensures after[i].role == messages[i].role && SameButMarkers(messages[i].content, after[i].content)
    {
      assert Cleared(after)[i] == Cleared(messages)[i];
      ClearedAreSame(messages[i].content, after[i].content);
    }
  }

  class Conversation {
    var messages: seq<Message>

    constructor (initial: seq<Message>)
      ensures messages == initial
    {
      messages := initial;
    }

    method MarkMessageCacheBreakpoint(i: nat)
      requires i < |messages|
      modifies this
      ensures messages == MarkAt(old(messages), i)
    {
      var content := messages[i].content;
      var bi := |content| - 1;
      while bi >= 0
        invariant -1 <= bi < |content|
        invariant LastCacheable(content) == LastCacheable(content[..bi + 1])
      {
        assert content[..bi + 1][..bi] == content[..bi];
        if content[bi].Block? {
          messages := messages[i := messages[i].(content := content[bi := content[bi].(marked := true)])];
          return;
        }
        bi := bi - 1;
      }
      assert messages[i := messages[i]] == messages;
    }

    method ClearMarkers()
      modifies this
      ensures messages == Cleared(old(messages))
    {
      ghost var before := messages;
      for mi := 0 to |messages|
        invariant |messages| == |before|
        invariant forall k | 0 <= k < |before| ::
          messages[k] == if k < mi then before[k].(content := ClearedContent(before[k].content)) else before[k]
      {
        var content := messages[mi].content;
        for bi := 0 to |content|
          invariant |content| == |before[mi].content|
          invariant forall j | 0 <= j < |content| ::
            content[j] == if j < bi then ClearedBlock(before[mi].content[j]) else before[mi].content[j]
        {
          if content[bi].Block? {
            content := content[bi := content[bi].(marked := false)];
          }
        }
        assert content == ClearedContent(before[mi].content);
        messages := messages[mi := messages[mi].(content := content)];
      }
    }

    method ApplyMessageCacheBreakpoints()
      modifies this
      ensures messages == Breakpoints(old(messages)) && OnlyMarkersDiffer(old(messages), messages)
    {
      PassChangesOnlyMarkers(messages);
      ClearMarkers();
      var n := |messages|;
      if n >= 3 {
        MarkMessageCacheBreakpoint(n - 2);
      }
      if n >= 5 {
        MarkMessageCacheBreakpoint(n - 4);
      }
    }

    method Append(m: Message)
      modifies this
      ensures messages == old(messages) + [m]
    {
      messages := messages + [m];
    }
  }

  // ---------------------------------------------------------------- one turn

  datatype ChatRole = UserRole | AssistantRole | OtherRole

  datatype ChatMessage = ChatMessage(role: ChatRole, content: string)

  function TextMessage(role: Role, text: string): Message {
    Message(role, [Block(Text(text), false)])
  }

  /** What the history of a session becomes; other roles are dropped. */
  function Converted(history: seq<ChatMessage>): seq<Message> {
    if history == [] then []
    else
      var m := history[|history| - 1];
      var before := Converted(history[..|history| - 1]);
      if m.role.UserRole? then before + [TextMessage(User, m.content)]
      else if m.role.AssistantRole? then before + [TextMessage(Assistant, m.content)]
      else before
  }

  predicate IsChat(m: ChatMessage) {
    !m.role.OtherRole?
  }

  function ChatsAt(history: seq<ChatMessage>): seq<int> {
    if history == [] then []
    else
      var n := |history| - 1;
      ChatsAt(history[..n]) + if IsChat(history[n]) then [n] else []
  }

  /** The message says the same in the same role. */
  ghost predicate Says(m: Message, c: ChatMessage) {
    && |m.content| == 1 && m.content[0].Block? && m.content[0].kind == Text(c.content)
    && (c.role.UserRole? ==> m.role == User) && (c.role.AssistantRole? ==> m.role == Assistant)
  }

  ghost predicate AllSay(messages: seq<Message>, history: seq<ChatMessage>, at: seq<int>)
    requires AllHave(history, IsChat, at)
  {
    |messages| == |at| && forall j | 0 <= j < |at| :: Says(messages[j], history[at[j]])
  }

  lemma AllSaySnoc(messages: seq<Message>, history: seq<ChatMessage>, at: seq<int>, c: ChatMessage, m: Message)
    requires AllHave(history, IsChat, at) && AllSay(messages, history, at) && IsChat(c) && Says(m, c)
    ensures AllHave(history + [c], IsChat, at + [|history|])
      && AllSay(messages + [m], history + [c], at + [|history|])
  {
    forall j | 0 <= j < |at| ensures (history + [c])[at[j]] == history[at[j]] {
    }
  }

  lemma AllSayStill(messages: seq<Message>, history: seq<ChatMessage>, at: seq<int>, c: ChatMessage)
    requires AllHave(history, IsChat, at) && AllSay(messages, history, at)
    ensures AllHave(history + [c], IsChat, at) && AllSay(messages, history + [c], at)
  {
    forall j | 0 <= j < |at| ensures (history + [c])[at[j]] == history[at[j]] {
    }
  }

  /** The user's and the assistant's messages are sent in order, in their roles, and no
      others. */
  lemma {:induction false} ChatsAreSent(history: seq<ChatMessage>)
    ensures Picks(history, IsChat, ChatsAt(history)) && AllSay(Converted(history), history, ChatsAt(history))
  {
    if history != [] {
      var n := |history| - 1;
      var before, c, at, sent := history[..n], history[n], ChatsAt(history[..n]), Converted(history[..n]);
      ChatsAreSent(before);
      assert before + [c] == history && at + [] == at;
      if IsChat(c) {
        AllSaySnoc(sent, before, at, c, TextMessage(if c.role.UserRole? then User else Assistant, c.content));
      } else {
        AllSayStill(sent, before, at, c);
      }
      PicksSnoc(before, IsChat, at, c);
    }
  }

  method ConvertHistory(history: seq<ChatMessage>, newMessage: string) returns (messages: seq<Message>)
    ensures messages == Converted(history) + [TextMessage(User, newMessage)]
  {
    messages := [];
    for i := 0 to |history|
      invariant messages == Converted(history[..i])
    {
      assert history[..i + 1][..i] == history[..i];
      if history[i].role.UserRole? {
        messages := messages + [TextMessage(User, history[i].content)];
      } else if history[i].role.AssistantRole? {
        messages := messages + [TextMessage(Assistant, history[i].content)];
      }
    }
    assert history[..|history|] == history;
    messages := messages + [TextMessage(User, newMessage)];
  }

  /** A history of questions and answers is sent whole: message by message, with the
      same roles and texts. */
  lemma {:induction false} HistoryIsSentWhole(history: seq<ChatMessage>, i: nat)
    requires forall m | m in history :: !m.role.OtherRole?
    requires i < |history|
    ensures |Converted(history)| == |history|
    ensures Converted(history)[i]
      == TextMessage(if history[i].role.UserRole? then User else Assistant, history[i].content)
    decreases |history|
  {
    var n := |history| - 1;
    assert history[n] in history;
    if n > 0 {
      HistoryIsSentWhole(history[..n], if i < n then i else 0);
    }
  }

  function ToolCalls(content: seq<Block>): seq<ToolCall> {
    if content == [] then []
    else
      var b := content[|content| - 1];
      ToolCalls(content[..|content| - 1]) + if b.Block? && b.kind.ToolUse? then [b.kind.call] else []
  }

  predicate IsToolUse(b: Block) {
    b.Block? && b.kind.ToolUse?
  }

  /** The calls of all tool_use blocks, in order. */
  ghost predicate AreTheCalls(content: seq<Block>, calls: seq<ToolCall>) {
    exists at: seq<int> :: Picks(content, IsToolUse, at) && AreCallsAt(content, at, calls)
  }

  ghost predicate AreCallsAt(content: seq<Block>, at: seq<int>, calls: seq<ToolCall>)
    requires AllHave(content, IsToolUse, at)
  {
    |calls| == |at| && forall j | 0 <= j < |at| :: calls[j] == content[at[j]].kind.call
  }

  function UsesAt(content: seq<Block>): seq<int> {
    if content == [] then []
    else
      var n := |content| - 1;
      UsesAt(content[..n]) + if IsToolUse(content[n]) then [n] else []
  }

  lemma CallsAtSnoc(content: seq<Block>, at: seq<int>, calls: seq<ToolCall>, b: Block)
    requires Picks(content, IsToolUse, at) && AreCallsAt(content, at, calls)
    ensures var at' := at + if IsToolUse(b) then [|content|] else [];
      && Picks(content + [b], IsToolUse, at')
      && AreCallsAt(content + [b], at', calls + if IsToolUse(b) then [b.kind.call] else [])
  {
    PicksSnoc(content, IsToolUse, at, b);
    assert at + [] == at && calls + [] == calls;
    forall j | 0 <= j < |at| ensures (content + [b])[at[j]] == content[at[j]] {
    }
  }

  lemma {:induction false} CallsAreAtUses(content: seq<Block>)
    ensures Picks(content, IsToolUse, UsesAt(content)) && AreCallsAt(content, UsesAt(content), ToolCalls(content))
  {
    if content != [] {
      var n := |content| - 1;
      CallsAreAtUses(content[..n]);
      CallsAtSnoc(content[..n], UsesAt(content[..n]), ToolCalls(content[..n]), content[n]);
      assert content[..n] + [content[n]] == content;
    }
  }

  lemma ToolCallsAreThose(content: seq<Block>)
    ensures AreTheCalls(content, ToolCalls(content))
  {
    CallsAreAtUses(content);
  }

  method ExtractToolUses(content: seq<Block>) returns (calls: seq<ToolCall>)
    ensures calls == ToolCalls(content) && AreTheCalls(content, calls)
  {
    calls := [];
    for i := 0 to |content|
      invariant calls == ToolCalls(content[..i])
    {
      assert content[..i + 1][..i] == content[..i];
      if content[i].Block? && content[i].kind.ToolUse? {
        calls := calls + [content[i].kind.call];
      }
    }
    assert content[..|content|] == content;
    ToolCallsAreThose(content);
  }

  /** The text and error flag of one result. */
  function ResultOf(hasClient: bool, r: ToolReturn): (ResultText, bool) {
    if !hasClient then (NoClient, true)
    else
      match r
      case BadInput(error) => (ParseError(error), true)
      case Returned(result, isError) => (Output(result), isError)
  }

  function ResultBlock(hasClient: bool, call: ToolCall, r: ToolReturn): Block {
    Block(ToolResult(call.id, ResultOf(hasClient, r).0, ResultOf(hasClient, r).1), false)
  }

  function ResultEvent(hasClient: bool, call: ToolCall, r: ToolReturn): StreamEvent {
    ToolResultEvent(call.id, call.name, ResultOf(hasClient, r).0, ResultOf(hasClient, r).1)
  }

  method ExecuteToolsAndBuildResult(hasClient: bool, calls: seq<ToolCall>, results: nat -> ToolReturn)
    returns (m: Message, events: seq<StreamEvent>)
    ensures m.role == User && |m.content| == |calls| == |events|
    ensures forall j | 0 <= j < |calls| :: m.content[j] == ResultBlock(hasClient, calls[j], results(j))
    ensures forall j | 0 <= j < |calls| :: events[j] == ResultEvent(hasClient, calls[j], results(j))
  {
    var blocks := [];
    events := [];
    for i := 0 to |calls|
      invariant |blocks| == |events| == i
      invariant forall j | 0 <= j < i :: blocks[j] == ResultBlock(hasClient, calls[j], results(j))
      invariant forall j | 0 <= j < i :: events[j] == ResultEvent(hasClient, calls[j], results(j))
    {
      var text, isError;
      if !hasClient {
        text, isError := NoClient, true;
      } else {
        match results(i) {
          case BadInput(error) => text, isError := ParseError(error), true;
          case Returned(result, failed) => text, isError := Output(result), failed;
        }
      }
      blocks := blocks + [Block(ToolResult(calls[i].id, text, isError), false)];
      events := events + [ToolResultEvent(calls[i].id, calls[i].name, text, isError)];
    }
    m := Message(User, blocks);
  }

  /** The block answers the call with what the tool returned. */
  ghost predicate IsAnswer(b: Block, hasClient: bool, id: string, r: ToolReturn) {
    && b.Block? && b.kind.ToolResult? && b.kind.useId == id
    && (!hasClient ==> b.kind.content == NoClient && b.kind.isError)
    && (hasClient && r.BadInput? ==> b.kind.content == ParseError(r.error) && b.kind.isError)
    && (hasClient && r.Returned? ==> b.kind.content == Output(r.result) && b.kind.isError == r.isError)
  }

  /** The message answers the tool_use blocks one for one, in order, by id. */
  ghost predicate AnswersAt(m: Message, hasClient: bool, content: seq<Block>, at: seq<int>, results: nat -> ToolReturn)
    requires AllHave(content, IsToolUse, at)
  {
    && m.role == User && |m.content| == |at|
    && forall j | 0 <= j < |at| :: IsAnswer(m.content[j], hasClient, content[at[j]].kind.call.id, results(j))
  }

  ghost predicate Answers(m: Message, hasClient: bool, content: seq<Block>, results: nat -> ToolReturn) {
    exists at: seq<int> :: Picks(content, IsToolUse, at) && AnswersAt(m, hasClient, content, at, results)
  }

  function TextEvents(chunks: seq<string>): seq<StreamEvent> {
    if chunks == [] then []
    else
      var c := chunks[|chunks| - 1];
      TextEvents(chunks[..|chunks| - 1]) + if c != "" then [TextEvent(c)] else []
  }

  function CallEvents(calls: seq<ToolCall>): seq<StreamEvent> {
    seq(|calls|, j requires 0 <= j < |calls| => ToolUseEvent(calls[j]))
  }

  function ResultEvents(hasClient: bool, calls: seq<ToolCall>, results: nat -> ToolReturn): seq<StreamEvent> {
    seq(|calls|, j requires 0 <= j < |calls| => ResultEvent(hasClient, calls[j], results(j)))
  }

  function ResultMessage(hasClient: bool, calls: seq<ToolCall>, results: nat -> ToolReturn): Message {
    Message(User, seq(|calls|, j requires 0 <= j < |calls| => ResultBlock(hasClient, calls[j], results(j))))
  }

  function TurnEvents(hasClient: bool, t: Turn): seq<StreamEvent> {
    TextEvents(t.chunks) + (CallEvents(ToolCalls(t.content)) + ResultEvents(hasClient, ToolCalls(t.content), t.results))
  }

  /** How a turn ends: another one follows, or the whole loop is over. */
  datatype TurnEnd = GoOn | Over(outcome: Outcome)

  function EndOf(t: Turn): TurnEnd {
    if t.cancelledBefore then Over(Cancelled)
    else if t.streamFails then Over(StreamFailed)
    else if ToolCalls(t.content) == [] then Over(Finished)
    else if t.cancelledAfter then Over(Cancelled)
    else GoOn
  }

  /** What the last turn emits, when `total` was used before it. */
  function LastEvents(t: Turn, total: Usage): seq<StreamEvent> {
    if t.cancelledBefore then []
    else if EndOf(t) == Over(Finished) then TextEvents(t.chunks) + [DoneEvent(AddUsage(total, t.usage))]
    else TextEvents(t.chunks)
  }

  // ---------------------------------------------------------------- the whole loop

  function EventsOf(hasClient: bool, turns: nat -> Turn, rounds: nat): seq<StreamEvent> {
    if rounds == 0 then [] else EventsOf(hasClient, turns, rounds - 1) + TurnEvents(hasClient, turns(rounds - 1))
  }

  /** What a turn adds: the assistant's message and the results of its tools. */
  function NewMessages(hasClient: bool, t: Turn): seq<Message> {
    [Message(Assistant, t.content), ResultMessage(hasClient, ToolCalls(t.content), t.results)]
  }

  /** The messages, apart from markers, after so many rounds. */
  function Grown(start: seq<Message>, hasClient: bool, turns: nat -> Turn, rounds: nat): seq<Message> {
    if rounds == 0 then start
    else
      var t := turns(rounds - 1);
      Grown(start, hasClient, turns, rounds - 1)
        + NewMessages(hasClient, t)
  }

  function AddUsage(a: Usage, b: Usage): (sum: Usage)
    ensures sum.input == a.input + b.input && sum.output == a.output + b.output
    ensures sum.cacheRead == a.cacheRead + b.cacheRead && sum.cacheCreation == a.cacheCreation + b.cacheCreation
  {
    Usage(a.input + b.input, a.output + b.output, a.cacheRead + b.cacheRead, a.cacheCreation + b.cacheCreation)
  }

  function UsageOf(turns: nat -> Turn, n: nat): Usage {
    if n == 0 then Usage(0, 0, 0, 0) else AddUsage(UsageOf(turns, n - 1), turns(n - 1).usage)
  }

  const TOO_MANY := ErrorEvent(ExceededMaximumToolUseIterations)

  ghost predicate AllGoOn(turns: nat -> Turn, rounds: nat) {
    forall j | 0 <= j < rounds :: EndOf(turns(j)).GoOn?
  }

  /** How the loop ends after so many full rounds: the outcome, how many requests
      were sent in all, and what is emitted after the rounds. */
  ghost predicate Ends(turns: nat -> Turn, rounds: nat, outcome: Outcome, sent: nat, tail: seq<StreamEvent>) {
    && rounds <= MAX_TOOL_LOOPS && AllGoOn(turns, rounds)
    && if rounds == MAX_TOOL_LOOPS
       then outcome == Finished && sent == rounds && tail == [TOO_MANY, DoneEvent(UsageOf(turns, rounds))]
       else EndOf(turns(rounds)) == Over(outcome) && tail == LastEvents(turns(rounds), UsageOf(turns, rounds))
            && sent == if turns(rounds).cancelledBefore then rounds else rounds + 1
  }

  function RequestAt(start: seq<Message>, hasClient: bool, turns: nat -> Turn, k: nat): seq<Message> {
    Breakpoints(Grown(start, hasClient, turns, k))
  }

  function Requests(start: seq<Message>, hasClient: bool, turns: nat -> Turn): nat -> seq<Message> {
    (k: nat) => RequestAt(start, hasClient, turns, k)
  }

  ghost predicate Follows<T>(s: seq<T>, f: nat -> T) {
    forall k | 0 <= k < |s| :: s[k] == f(k)
  }

  /** Each request carries the messages grown so far with fresh markers. */
  ghost predicate SentSoFar(start: seq<Message>, hasClient: bool, turns: nat -> Turn, requests: seq<seq<Message>>) {
    Follows(requests, Requests(start, hasClient, turns))
  }

  /** The loop's messages are the grown ones, apart from markers. */
  ghost predicate InStep(start: seq<Message>, hasClient: bool, turns: nat -> Turn, k: nat, messages: seq<Message>) {
    Cleared(messages) == Cleared(Grown(start, hasClient, turns, k))
  }

  method StreamTexts(chunks: seq<string>) returns (events: seq<StreamEvent>)
    ensures events == TextEvents(chunks)
  {
    events := [];
    for i := 0 to |chunks|
      invariant events == TextEvents(chunks[..i])
    {
      assert chunks[..i + 1][..i] == chunks[..i];
      if chunks[i] != "" {
        events := events + [TextEvent(chunks[i])];
      }
    }
    assert chunks[..|chunks|] == chunks;
  }

  method SurfaceCalls(calls: seq<ToolCall>) returns (events: seq<StreamEvent>)
    ensures events == CallEvents(calls)
  {
    events := [];
    for i := 0 to |calls|
      invariant |events| == i && forall j | 0 <= j < i :: events[j] == ToolUseEvent(calls[j])
    {
      events := events + [ToolUseEvent(calls[i])];
    }
  }

  /** Markers are cleared first, so earlier ones make no difference. */
  lemma BreakpointsIgnoreMarkers(a: seq<Message>, b: seq<Message>)
    requires Cleared(a) == Cleared(b)
    ensures Breakpoints(a) == Breakpoints(b)
  {
    assert |Cleared(a)| == |a| && |Cleared(b)| == |b|;
  }

  lemma OneRound(start: seq<Message>, hasClient: bool, turns: nat -> Turn, k: nat, messages: seq<Message>)
    requires InStep(start, hasClient, turns, k, messages)
    ensures Breakpoints(messages) == RequestAt(start, hasClient, turns, k)
    ensures InStep(start, hasClient, turns, k + 1, Breakpoints(messages) + NewMessages(hasClient, turns(k)))
  {
    var both := NewMessages(hasClient, turns(k));
    BreakpointsIgnoreMarkers(messages, Grown(start, hasClient, turns, k));
    BreakpointsKeepText(messages);
    ClearedConcat(Breakpoints(messages), both);
    ClearedConcat(Grown(start, hasClient, turns, k), both);
  }

  /** Surfaces the calls, runs them, and appends the message and the results. */
  method RunTools(conversation: Conversation, hasClient: bool, t: Turn, calls: seq<ToolCall>)
    returns (shown: seq<StreamEvent>)
    requires calls == ToolCalls(t.content)
    modifies conversation
    ensures shown == CallEvents(calls) + ResultEvents(hasClient, calls, t.results)
    ensures conversation.messages == old(conversation.messages) + NewMessages(hasClient, t)
  {
    var surfaced := SurfaceCalls(calls);
    conversation.Append(Message(Assistant, t.content));
    var results, answered := ExecuteToolsAndBuildResult(hasClient, calls, t.results);
    conversation.Append(results);
    assert results == ResultMessage(hasClient, calls, t.results);
    assert answered == ResultEvents(hasClient, calls, t.results);
    assert old(conversation.messages) + [Message(Assistant, t.content)] + [results]
      == old(conversation.messages) + [Message(Assistant, t.content), results];
    shown := surfaced + answered;
  }

  method RunTurn(conversation: Conversation, hasClient: bool, t: Turn, total: Usage)
    returns (end: TurnEnd, request: seq<seq<Message>>, events: seq<StreamEvent>, total': Usage)
    modifies conversation
    ensures end == EndOf(t)
    ensures request == if t.cancelledBefore then [] else [Breakpoints(old(conversation.messages))]
    ensures events == if end.GoOn? then TurnEvents(hasClient, t) else LastEvents(t, total)
    ensures end.GoOn? ==> total' == AddUsage(total, t.usage)
    ensures end.GoOn? ==> conversation.messages == Breakpoints(old(conversation.messages)) + NewMessages(hasClient, t)
  {
    request, events, total' := [], [], total;
    if t.cancelledBefore {
      return Over(Cancelled), request, events, total';
    }
    conversation.ApplyMessageCacheBreakpoints();
    request := [conversation.messages];
    events := StreamTexts(t.chunks);
    if t.streamFails {
      return Over(StreamFailed), request, events, total';
    }
    total' := AddUsage(total, t.usage);
    var calls := ExtractToolUses(t.content);
    if |calls| == 0 {
      events := events + [DoneEvent(total')];
      return Over(Finished), request, events, total';
    }
    if t.cancelledAfter {
      return Over(Cancelled), request, events, total';
    }
    var shown := RunTools(conversation, hasClient, t, calls);
    events := events + shown;
    end := GoOn;
  }

  lemma MoreSent(start: seq<Message>, hasClient: bool, turns: nat -> Turn, requests: seq<seq<Message>>,
      request: seq<seq<Message>>)
    requires SentSoFar(start, hasClient, turns, requests)
    requires request == [] || request == [RequestAt(start, hasClient, turns, |requests|)]
    ensures SentSoFar(start, hasClient, turns, requests + request)
  {
    OneMoreFollows(requests, request, Requests(start, hasClient, turns));
  }

  lemma OneMoreFollows<T>(s: seq<T>, x: seq<T>, f: nat -> T)
    requires Follows(s, f) && (x == [] || x == [f(|s|)])
    ensures Follows(s + x, f)
  {
  }

  lemma OneMoreGoesOn(turns: nat -> Turn, rounds: nat)
    requires AllGoOn(turns, rounds) && EndOf(turns(rounds)).GoOn?
    ensures AllGoOn(turns, rounds + 1)
  {
  }

  lemma TwoMore(events: seq<StreamEvent>, a: StreamEvent, b: StreamEvent)
    ensures events + [a] + [b] == events + [a, b]
  {
  }

  method RunRound(conversation: Conversation, hasClient: bool, turns: nat -> Turn, k: nat, total: Usage,
      ghost start: seq<Message>)
    returns (end: TurnEnd, request: seq<seq<Message>>, events: seq<StreamEvent>, total': Usage)
    requires InStep(start, hasClient, turns, k, conversation.messages)
    modifies conversation
    ensures end == EndOf(turns(k))
    ensures request == if turns(k).cancelledBefore then [] else [RequestAt(start, hasClient, turns, k)]
    ensures events == if end.GoOn? then TurnEvents(hasClient, turns(k)) else LastEvents(turns(k), total)
    ensures end.GoOn? ==>
      total' == AddUsage(total, turns(k).usage) && InStep(start, hasClient, turns, k + 1, conversation.messages)
  {
    OneRound(start, hasClient, turns, k, conversation.messages);
    end, request, events, total' := RunTurn(conversation, hasClient, turns(k), total);
  }

  /** The loop of SendMessage.  The ghost result names what is emitted after the full
      rounds, so that events == EventsOf(rounds) + tail. */
  method SendMessage(hasKey: bool, hasClient: bool, history: seq<ChatMessage>, newMessage: string, turns: nat -> Turn)
    returns (outcome: Outcome, events: seq<StreamEvent>, requests: seq<seq<Message>>, rounds: nat,
      ghost tail: seq<StreamEvent>)
    ensures !hasKey ==> outcome == NoKey && events == [] && requests == []
    ensures hasKey ==>
      events == EventsOf(hasClient, turns, rounds) + tail && Ends(turns, rounds, outcome, |requests|, tail)
    ensures SentSoFar(Converted(history) + [TextMessage(User, newMessage)], hasClient, turns, requests)
  {
    events, requests, rounds, tail := [], [], 0, [];
    if !hasKey {
      return NoKey, events, requests, rounds, tail;
    }
    var start := ConvertHistory(history, newMessage);
    outcome, events, requests, rounds, tail := RunRounds(hasClient, start, turns);
  }

  /** Where the loop is after so many full rounds. */
  ghost predicate Underway(start: seq<Message>, hasClient: bool, turns: nat -> Turn, rounds: nat,
    events: seq<StreamEvent>, requests: seq<seq<Message>>, total: Usage)
  {
    && rounds <= MAX_TOOL_LOOPS && AllGoOn(turns, rounds) && |requests| == rounds && total == UsageOf(turns, rounds)
    && events == EventsOf(hasClient, turns, rounds) && SentSoFar(start, hasClient, turns, requests)
  }

  /** What the loop has done when it returns. */
  ghost predicate Ended(start: seq<Message>, hasClient: bool, turns: nat -> Turn, rounds: nat, outcome: Outcome,
    events: seq<StreamEvent>, requests: seq<seq<Message>>, tail: seq<StreamEvent>)
  {
    && events == EventsOf(hasClient, turns, rounds) + tail && Ends(turns, rounds, outcome, |requests|, tail)
    && SentSoFar(start, hasClient, turns, requests)
  }

  lemma NothingDoneYet(start: seq<Message>, hasClient: bool, turns: nat -> Turn)
    ensures Underway(start, hasClient, turns, 0, [], [], Usage(0, 0, 0, 0)) && InStep(start, hasClient, turns, 0, start)
  {
  }

  lemma NextRound(start: seq<Message>, hasClient: bool, turns: nat -> Turn, k: nat,
    events: seq<StreamEvent>, requests: seq<seq<Message>>, total: Usage, request: seq<seq<Message>>)
    requires Underway(start, hasClient, turns, k, events, requests, total) && k < MAX_TOOL_LOOPS
    requires request == if turns(k).cancelledBefore then [] else [RequestAt(start, hasClient, turns, k)]
    ensures EndOf(turns(k)).GoOn? ==>
      Underway(start, hasClient, turns, k + 1, events + TurnEvents(hasClient, turns(k)),
               requests + request, AddUsage(total, turns(k).usage))
    ensures EndOf(turns(k)).Over? ==> var tail := LastEvents(turns(k), total);
      Ended(start, hasClient, turns, k, EndOf(turns(k)).outcome, events + tail, requests + request, tail)
  {
    MoreSent(start, hasClient, turns, requests, request);
    if EndOf(turns(k)).GoOn? { OneMoreGoesOn(turns, k); }
  }

  lemma LimitReached(start: seq<Message>, hasClient: bool, turns: nat -> Turn, k: nat,
    events: seq<StreamEvent>, requests: seq<seq<Message>>, total: Usage)
    requires Underway(start, hasClient, turns, k, events, requests, total) && k >= MAX_TOOL_LOOPS
    ensures Ended(start, hasClient, turns, k, Finished, events + [TOO_MANY] + [DoneEvent(total)], requests,
      [TOO_MANY, DoneEvent(total)])
  {
    TwoMore(events, TOO_MANY, DoneEvent(total));
  }

  /** One more round of the loop. */
  method RunNext(conversation: Conversation, hasClient: bool, turns: nat -> Turn, k: nat,
      before: seq<StreamEvent>, sent: seq<seq<Message>>, used: Usage, ghost start: seq<Message>)
    returns (end: TurnEnd, events: seq<StreamEvent>, requests: seq<seq<Message>>, total: Usage,
      ghost tail: seq<StreamEvent>)
    requires Underway(start, hasClient, turns, k, before, sent, used) && k < MAX_TOOL_LOOPS
    requires InStep(start, hasClient, turns, k, conversation.messages)
    modifies conversation
    ensures end.GoOn? ==> Underway(start, hasClient, turns, k + 1, events, requests, total)
    ensures end.GoOn? ==> InStep(start, hasClient, turns, k + 1, conversation.messages)
    ensures end.Over? ==> Ended(start, hasClient, turns, k, end.outcome, events, requests, tail)
  {
    var request, emitted;
    end, request, emitted, total := RunRound(conversation, hasClient, turns, k, used, start);
    NextRound(start, hasClient, turns, k, before, sent, used, request);
    events, requests, tail := before + emitted, sent + request, emitted;
  }

  method RunRounds(hasClient: bool, start: seq<Message>, turns: nat -> Turn)
    returns (outcome: Outcome, events: seq<StreamEvent>, requests: seq<seq<Message>>, rounds: nat,
      ghost tail: seq<StreamEvent>)
    ensures Ended(start, hasClient, turns, rounds, outcome, events, requests, tail)
  {
    NothingDoneYet(start, hasClient, turns);
    var conversation := new Conversation(start);
    var total := Usage(0, 0, 0, 0);
    events, requests, rounds := [], [], 0;
    while rounds < MAX_TOOL_LOOPS
      invariant Underway(start, hasClient, turns, rounds, events, requests, total)
      invariant fresh(conversation) && InStep(start, hasClient, turns, rounds, conversation.messages)
      decreases MAX_TOOL_LOOPS - rounds
    {
      var end;
      end, events, requests, total, tail :=
        RunNext(conversation, hasClient, turns, rounds, events, requests, total, start);
      if end.Over? {
        return end.outcome, events, requests, rounds, tail;
      }
      rounds := rounds + 1;
    }
    tail := [TOO_MANY, DoneEvent(total)];
    LimitReached(start, hasClient, turns, rounds, events, requests, total);
    events := events + [TOO_MANY] + [DoneEvent(total)];
    outcome := Finished;
  }

  // ---------------------------------------------------------------- properties of every request

  /** No request of a run has more than two marked blocks of messages, and none more
      than four markers in all. */
  lemma EveryRequestIsWithinBudget(start: seq<Message>, hasClient: bool, turns: nat -> Turn,
    requests: seq<seq<Message>>, k: nat, names: seq<string>, allowed: set<string>, system: bool)
    requires SentSoFar(start, hasClient, turns, requests) && k < |requests|
    ensures var tools := LastMarked(AllowedTools(names, allowed));
      && |MarkedBlocks(requests[k])| <= 2
      && |MarkedBlocks(requests[k])| + |MarkedTools(tools)| + (if system then 1 else 0) <= 4
  {
    LastToolIsMarked(names, allowed);
    AtMostFourMarkers(Grown(start, hasClient, turns, k), LastMarked(AllowedTools(names, allowed)), system);
  }

  /** From one request to the next the markers cascade. */
  lemma CacheCascades(start: seq<Message>, hasClient: bool, turns: nat -> Turn, requests: seq<seq<Message>>, k: nat)
    requires SentSoFar(start, hasClient, turns, requests) && k + 1 < |requests|
    ensures Cascaded(requests[k], requests[k + 1])
  {
    RequestIs(start, hasClient, turns, requests, k);
    RequestIs(start, hasClient, turns, requests, k + 1);
    ReaderFollowsWriter(Grown(start, hasClient, turns, k), NewMessages(hasClient, turns(k)));
  }

  lemma RequestIs(start: seq<Message>, hasClient: bool, turns: nat -> Turn, requests: seq<seq<Message>>, k: nat)
    requires SentSoFar(start, hasClient, turns, requests) && k < |requests|
    ensures requests[k] == Breakpoints(Grown(start, hasClient, turns, k))
  {
    assert requests[k] == Requests(start, hasClient, turns)(k);
  }

  lemma ResultsAnswer(hasClient: bool, t: Turn)
    ensures Answers(NewMessages(hasClient, t)[1], hasClient, t.content, t.results)
  {
    var calls, m, at := ToolCalls(t.content), NewMessages(hasClient, t)[1], UsesAt(t.content);
    CallsAreAtUses(t.content);
    assert m == ResultMessage(hasClient, calls, t.results);
    forall j | 0 <= j < |at|
      ensures IsAnswer(m.content[j], hasClient, t.content[at[j]].kind.call.id, t.results(j))
    {
      assert m.content[j] == ResultBlock(hasClient, calls[j], t.results(j));
      assert calls[j] == t.content[at[j]].kind.call;
    }
    assert AnswersAt(m, hasClient, t.content, at, t.results);
  }

  lemma MarkersDoNotMatter(a: Message, b: Message, hasClient: bool, content: seq<Block>, results: nat -> ToolReturn)
    requires a.role == b.role && SameButMarkers(a.content, b.content) && Answers(a, hasClient, content, results)
    ensures Answers(b, hasClient, content, results)
  {
    var at: seq<int> :| Picks(content, IsToolUse, at) && AnswersAt(a, hasClient, content, at, results);
    forall j | 0 <= j < |at|
      ensures IsAnswer(b.content[j], hasClient, content[at[j]].kind.call.id, results(j))
    {
      assert IsAnswer(a.content[j], hasClient, content[at[j]].kind.call.id, results(j));
    }
    assert AnswersAt(b, hasClient, content, at, results);
  }

  /** The next request ends with the message of the turn before it, apart from markers,
      and a message that answers all its tool_use blocks one for one, in order, by id,
      with what the tools returned. */
  lemma ResultsAnswerCalls(start: seq<Message>, hasClient: bool, turns: nat -> Turn, requests: seq<seq<Message>>,
      k: nat)
    requires SentSoFar(start, hasClient, turns, requests) && k + 1 < |requests|
    ensures var after, t := requests[k + 1], turns(k);
      && |after| >= 2
      && after[|after| - 2].role == Assistant && SameButMarkers(t.content, after[|after| - 2].content)
      && Answers(after[|after| - 1], hasClient, t.content, t.results)
  {
    var grown := Grown(start, hasClient, turns, k + 1);
    var n, after := |grown|, requests[k + 1];
    RequestIs(start, hasClient, turns, requests, k + 1);
    BreakpointsKeepText(grown);
    ResultsAnswer(hasClient, turns(k));
    var both := NewMessages(hasClient, turns(k));
    assert grown[n - 1] == both[1] && grown[n - 2] == both[0];
    assert Cleared(after)[n - 1] == Cleared(grown)[n - 1] && Cleared(after)[n - 2] == Cleared(grown)[n - 2];
    ClearedAreSame(both[0].content, after[n - 2].content);
    ClearedAreSame(both[1].content, after[n - 1].content);
    MarkersDoNotMatter(both[1], after[n - 1], hasClient, turns(k).content, turns(k).results);
  }

  // ---------------------------------------------------------------- the stream of events

  ghost predicate NoneDone(events: seq<StreamEvent>) {
    forall i | 0 <= i < |events| :: !events[i].DoneEvent?
  }

  /** Exactly one terminal event, at the end. */
  ghost predicate OneDoneAtTheEnd(events: seq<StreamEvent>) {
    events != [] && events[|events| - 1].DoneEvent? && NoneDone(events[..|events| - 1])
  }

  lemma {:induction false} TextEventsAreNotDone(chunks: seq<string>)
    ensures NoneDone(TextEvents(chunks))
  {
    if chunks != [] { TextEventsAreNotDone(chunks[..|chunks| - 1]); }
  }

  lemma TurnIsNotDone(hasClient: bool, t: Turn)
    ensures NoneDone(TurnEvents(hasClient, t))
  {
    var calls := ToolCalls(t.content);
    TextEventsAreNotDone(t.chunks);
    var answers := ResultEvents(hasClient, calls, t.results);
    forall j | 0 <= j < |answers| ensures !answers[j].DoneEvent? {
      assert answers[j] == ResultEvent(hasClient, calls[j], t.results(j));
    }
    NoneDoneConcat(CallEvents(calls), answers);
    NoneDoneConcat(TextEvents(t.chunks), CallEvents(calls) + answers);
  }

  lemma NoneDoneConcat(a: seq<StreamEvent>, b: seq<StreamEvent>)
    requires NoneDone(a) && NoneDone(b)
    ensures NoneDone(a + b)
  {
  }

  lemma {:induction false} RoundsAreNotDone(hasClient: bool, turns: nat -> Turn, rounds: nat)
    ensures NoneDone(EventsOf(hasClient, turns, rounds))
  {
    if rounds > 0 {
      RoundsAreNotDone(hasClient, turns, rounds - 1);
      TurnIsNotDone(hasClient, turns(rounds - 1));
      NoneDoneConcat(EventsOf(hasClient, turns, rounds - 1), TurnEvents(hasClient, turns(rounds - 1)));
    }
  }

  ghost predicate Protocol(outcome: Outcome, events: seq<StreamEvent>) {
    if outcome.Finished? then OneDoneAtTheEnd(events) else NoneDone(events)
  }

  lemma DoneAppended(events: seq<StreamEvent>, usage: Usage)
    requires NoneDone(events)
    ensures OneDoneAtTheEnd(events + [DoneEvent(usage)])
  {
    assert (events + [DoneEvent(usage)])[..|events|] == events;
  }

  /** A stream that finishes ends in its only Done; one that fails has none. */
  lemma StreamProtocol(hasClient: bool, turns: nat -> Turn, rounds: nat, outcome: Outcome, sent: nat,
      tail: seq<StreamEvent>)
    requires Ends(turns, rounds, outcome, sent, tail)
    ensures Protocol(outcome, EventsOf(hasClient, turns, rounds) + tail)
  {
    var before := EventsOf(hasClient, turns, rounds);
    RoundsAreNotDone(hasClient, turns, rounds);
    if rounds == MAX_TOOL_LOOPS {
      NoneDoneConcat(before, [TOO_MANY]);
      DoneAppended(before + [TOO_MANY], UsageOf(turns, rounds));
      assert before + tail == before + [TOO_MANY] + [DoneEvent(UsageOf(turns, rounds))];
    } else {
      LastTurnProtocol(before, turns(rounds), UsageOf(turns, rounds));
    }
  }

  lemma LastTurnProtocol(before: seq<StreamEvent>, t: Turn, total: Usage)
    requires NoneDone(before) && EndOf(t).Over?
    ensures Protocol(EndOf(t).outcome, before + LastEvents(t, total))
  {
    var texts := TextEvents(t.chunks);
    TextEventsAreNotDone(t.chunks);
    NoneDoneConcat(before, texts);
    if EndOf(t) == Over(Finished) {
      DoneAppended(before + texts, AddUsage(total, t.usage));
      assert before + (texts + [DoneEvent(AddUsage(total, t.usage))])
        == before + texts + [DoneEvent(AddUsage(total, t.usage))];
    } else if t.cancelledBefore {
      assert before + [] == before;
    }
  }

  // ---------------------------------------------------------------- what is shown

  function Together(chunks: seq<string>): string {
    if chunks == [] then "" else Together(chunks[..|chunks| - 1]) + chunks[|chunks| - 1]
  }

  function TextIn(e: StreamEvent): string {
    if e.TextEvent? then e.text else ""
  }

  /** The texts of the events, put together. */
  function ShownText(events: seq<StreamEvent>): string {
    if events == [] then "" else ShownText(events[..|events| - 1]) + TextIn(events[|events| - 1])
  }

  lemma {:induction false} ShownConcat(a: seq<StreamEvent>, b: seq<StreamEvent>)
    ensures ShownText(a + b) == ShownText(a) + ShownText(b)
    decreases |b|
  {
    if b == [] {
      assert a + b == a;
    } else {
      var init, last := b[..|b| - 1], b[|b| - 1];
      ShownConcat(a, init);
      assert (a + b)[..|a + b| - 1] == a + init && (a + b)[|a + b| - 1] == last;
      ConcatAssoc(ShownText(a), ShownText(init), TextIn(last));
    }
  }

  lemma {:induction false} NothingShown(events: seq<StreamEvent>)
    requires forall i | 0 <= i < |events| :: !events[i].TextEvent?
    ensures ShownText(events) == ""
  {
    if events != [] { NothingShown(events[..|events| - 1]); }
  }

  /** Every chunk is shown, in order, and nothing else; empty ones need no event. */
  lemma {:induction false} ChunksAreShown(chunks: seq<string>)
    ensures ShownText(TextEvents(chunks)) == Together(chunks)
    ensures forall i | 0 <= i < |TextEvents(chunks)| ::
      TextEvents(chunks)[i].TextEvent? && TextEvents(chunks)[i].text != ""
  {
    if chunks != [] {
      var before, c := chunks[..|chunks| - 1], chunks[|chunks| - 1];
      ChunksAreShown(before);
      if c != "" {
        assert (TextEvents(before) + [TextEvent(c)])[..|TextEvents(before)|] == TextEvents(before);
      } else {
        assert TextEvents(before) + [] == TextEvents(before) && Together(before) + c == Together(before);
      }
    }
  }

  /** The event reports what the tool returned for the call. */
  ghost predicate IsReport(e: StreamEvent, hasClient: bool, call: ToolCall, r: ToolReturn) {
    && e.ToolResultEvent? && e.id == call.id && e.name == call.name
    && (!hasClient ==> e.result == NoClient && e.isError)
    && (hasClient && r.BadInput? ==> e.result == ParseError(r.error) && e.isError)
    && (hasClient && r.Returned? ==> e.result == Output(r.result) && e.isError == r.isError)
  }

  lemma CallIsShown(hasClient: bool, calls: seq<ToolCall>, results: nat -> ToolReturn, j: nat)
    requires j < |calls|
    ensures CallEvents(calls)[j] == ToolUseEvent(calls[j])
    ensures IsReport(ResultEvents(hasClient, calls, results)[j], hasClient, calls[j], results(j))
  {
    assert ResultEvents(hasClient, calls, results)[j] == ResultEvent(hasClient, calls[j], results(j));
  }

  /** A turn with tools shows its text, then each of its tool_use blocks in order, then
      the result of each in order. */
  lemma TurnIsShown(hasClient: bool, t: Turn)
    ensures var texts, at := TextEvents(t.chunks), UsesAt(t.content);
      var uses, reports := CallEvents(ToolCalls(t.content)), ResultEvents(hasClient, ToolCalls(t.content), t.results);
      && TurnEvents(hasClient, t) == texts + (uses + reports)
      && ShownText(texts) == Together(t.chunks)
      && Picks(t.content, IsToolUse, at) && |uses| == |reports| == |at|
      && (forall j | 0 <= j < |at| :: uses[j] == ToolUseEvent(t.content[at[j]].kind.call))
      && forall j | 0 <= j < |at| :: IsReport(reports[j], hasClient, t.content[at[j]].kind.call, t.results(j))
  {
    var calls, at := ToolCalls(t.content), UsesAt(t.content);
    ChunksAreShown(t.chunks);
    CallsAreAtUses(t.content);
    forall j | 0 <= j < |at|
      ensures CallEvents(calls)[j] == ToolUseEvent(t.content[at[j]].kind.call)
      ensures IsReport(ResultEvents(hasClient, calls, t.results)[j], hasClient, t.content[at[j]].kind.call,
        t.results(j))
    {
      CallIsShown(hasClient, calls, t.results, j);
    }
  }

  lemma TurnText(hasClient: bool, t: Turn)
    ensures ShownText(TurnEvents(hasClient, t)) == Together(t.chunks)
  {
    var calls := ToolCalls(t.content);
    var uses, reports := CallEvents(calls), ResultEvents(hasClient, calls, t.results);
    ChunksAreShown(t.chunks);
    forall i | 0 <= i < |reports| ensures !reports[i].TextEvent? {
      assert reports[i] == ResultEvent(hasClient, calls[i], t.results(i));
    }
    NothingShown(uses + reports);
    ShownConcat(TextEvents(t.chunks), uses + reports);
    assert Together(t.chunks) + "" == Together(t.chunks);
  }

  /** All chunks of the first n turns. */
  function AllChunks(turns: nat -> Turn, n: nat): string {
    if n == 0 then "" else AllChunks(turns, n - 1) + Together(turns(n - 1).chunks)
  }

  lemma {:induction false} RoundsText(hasClient: bool, turns: nat -> Turn, rounds: nat)
    ensures ShownText(EventsOf(hasClient, turns, rounds)) == AllChunks(turns, rounds)
  {
    if rounds > 0 {
      var k: nat := rounds - 1;
      RoundsText(hasClient, turns, k);
      NextRoundText(hasClient, turns, k);
    }
  }

  lemma OneMoreRound(hasClient: bool, turns: nat -> Turn, k: nat)
    returns (before: seq<StreamEvent>, turn: seq<StreamEvent>, text: string)
    ensures before == EventsOf(hasClient, turns, k) && EventsOf(hasClient, turns, k + 1) == before + turn
    ensures ShownText(turn) == text && AllChunks(turns, k + 1) == AllChunks(turns, k) + text
  {
    before, turn := EventsOf(hasClient, turns, k), TurnEvents(hasClient, turns(k));
    text := Together(turns(k).chunks);
    TurnText(hasClient, turns(k));
  }

  lemma NextRoundText(hasClient: bool, turns: nat -> Turn, k: nat)
    requires ShownText(EventsOf(hasClient, turns, k)) == AllChunks(turns, k)
    ensures ShownText(EventsOf(hasClient, turns, k + 1)) == AllChunks(turns, k + 1)
  {
    var before, turn, text := OneMoreRound(hasClient, turns, k);
    BothShown(before, turn, AllChunks(turns, k), text);
  }

  lemma BothShown(a: seq<StreamEvent>, b: seq<StreamEvent>, x: string, y: string)
    requires ShownText(a) == x && ShownText(b) == y
    ensures ShownText(a + b) == x + y
  {
    ShownConcat(a, b);
  }

  lemma LastText(t: Turn, total: Usage)
    ensures ShownText(LastEvents(t, total)) == if t.cancelledBefore then "" else Together(t.chunks)
  {
    var done := DoneEvent(AddUsage(total, t.usage));
    ChunksAreShown(t.chunks);
    ShownConcat(TextEvents(t.chunks), [done]);
    NothingShown([done]);
    assert Together(t.chunks) + "" == Together(t.chunks);
  }

  lemma TailText(turns: nat -> Turn, rounds: nat, outcome: Outcome, sent: nat, tail: seq<StreamEvent>)
    requires Ends(turns, rounds, outcome, sent, tail)
    ensures sent == rounds || sent == rounds + 1
    ensures ShownText(tail) == if sent == rounds then "" else Together(turns(rounds).chunks)
  {
    if rounds == MAX_TOOL_LOOPS {
      NothingShown(tail);
    } else {
      LastText(turns(rounds), UsageOf(turns, rounds));
    }
  }

  /** Main result for the text: what a run shows is exactly what the requests it sent
      have streamed, however it ends. */
  lemma EverythingStreamedIsShown(hasClient: bool, turns: nat -> Turn, rounds: nat, outcome: Outcome, sent: nat,
      tail: seq<StreamEvent>)
    requires Ends(turns, rounds, outcome, sent, tail)
    ensures ShownText(EventsOf(hasClient, turns, rounds) + tail) == AllChunks(turns, sent)
  {
    RoundsText(hasClient, turns, rounds);
    TailText(turns, rounds, outcome, sent, tail);
    AllThatWasSent(EventsOf(hasClient, turns, rounds), tail, turns, rounds, sent);
  }

  lemma AllThatWasSent(before: seq<StreamEvent>, tail: seq<StreamEvent>, turns: nat -> Turn, rounds: nat, sent: nat)
    requires ShownText(before) == AllChunks(turns, rounds) && (sent == rounds || sent == rounds + 1)
    requires ShownText(tail) == if sent == rounds then "" else Together(turns(rounds).chunks)
    ensures ShownText(before + tail) == AllChunks(turns, sent)
  {
    var x, y := ChunksOf(turns, rounds, sent);
    BothShown(before, tail, x, y);
  }

  lemma ChunksOf(turns: nat -> Turn, rounds: nat, sent: nat) returns (x: string, y: string)
    requires sent == rounds || sent == rounds + 1
    ensures x == AllChunks(turns, rounds) && y == if sent == rounds then "" else Together(turns(rounds).chunks)
    ensures AllChunks(turns, sent) == x + y
  {
    x, y := AllChunks(turns, rounds), if sent == rounds then "" else Together(turns(rounds).chunks);
    if sent == rounds { assert x + y == x; }
  }

  ghost predicate UsesTools(t: Turn) {
    exists i :: 0 <= i < |t.content| && IsToolUse(t.content[i])
  }

  lemma UsesToolsIff(t: Turn)
    ensures UsesTools(t) <==> ToolCalls(t.content) != []
  {
    var at := UsesAt(t.content);
    CallsAreAtUses(t.content);
    if at != [] { assert IsToolUse(t.content[at[0]]); }
    if UsesTools(t) {
      var i :| 0 <= i < |t.content| && IsToolUse(t.content[i]);
      assert Among(i, at);
    }
  }

  /** The sum over the first n turns. */
  function Sum(f: nat -> nat, n: nat): nat {
    if n == 0 then 0 else Sum(f, n - 1) + f(n - 1)
  }

  /** The usage that the last event reports adds up all turns. */
  lemma {:induction false} UsageAddsUp(turns: nat -> Turn, n: nat)
    ensures UsageOf(turns, n).input == Sum(k => turns(k).usage.input, n)
    ensures UsageOf(turns, n).output == Sum(k => turns(k).usage.output, n)
    ensures UsageOf(turns, n).cacheRead == Sum(k => turns(k).usage.cacheRead, n)
    ensures UsageOf(turns, n).cacheCreation == Sum(k => turns(k).usage.cacheCreation, n)
  {
    if n > 0 { UsageAddsUp(turns, n - 1); }
  }

  lemma RoundsUseTools(turns: nat -> Turn, rounds: nat)
    requires AllGoOn(turns, rounds)
    ensures forall j | 0 <= j < rounds :: var t := turns(j);
      !t.cancelledBefore && !t.streamFails && !t.cancelledAfter && UsesTools(t)
  {
    forall j | 0 <= j < rounds
      ensures !turns(j).cancelledBefore && !turns(j).streamFails && !turns(j).cancelledAfter && UsesTools(turns(j))
    {
      assert EndOf(turns(j)).GoOn?;
      UsesToolsIff(turns(j));
    }
  }

  /** How a run ends: every round but the last was a whole turn with tools, and the last
      one decides.  A turn without tools finishes with the usage of all turns; after 25
      rounds the run finishes with an error notice. */
  lemma EndingIsEarned(turns: nat -> Turn, rounds: nat, outcome: Outcome, sent: nat, tail: seq<StreamEvent>)
    requires Ends(turns, rounds, outcome, sent, tail)
    ensures rounds <= 25
    ensures forall j | 0 <= j < rounds :: var t := turns(j);
      !t.cancelledBefore && !t.streamFails && !t.cancelledAfter && UsesTools(t)
    ensures rounds == 25 ==>
      && outcome == Finished && sent == 25
      && tail == [ErrorEvent(ExceededMaximumToolUseIterations), DoneEvent(UsageOf(turns, 25))]
    ensures rounds < 25 ==> LastTurnDecides(turns(rounds), UsageOf(turns, rounds + 1), outcome, sent - rounds, tail)
  {
    RoundsUseTools(turns, rounds);
    if rounds < 25 { LastTurn(turns, rounds, outcome, sent, tail); }
  }

  ghost predicate LastTurnDecides(t: Turn, total: Usage, outcome: Outcome, sent: int, tail: seq<StreamEvent>) {
    && (t.cancelledBefore ==> outcome == Cancelled && sent == 0 && tail == [])
    && (!t.cancelledBefore ==> sent == 1)
    && (!t.cancelledBefore && t.streamFails ==> outcome == StreamFailed)
    && (!t.cancelledBefore && !t.streamFails && UsesTools(t) ==> t.cancelledAfter && outcome == Cancelled)
    && (!t.cancelledBefore && !t.streamFails && !UsesTools(t) ==>
          outcome == Finished && tail != [] && tail[|tail| - 1] == DoneEvent(total))
  }

  lemma LastTurn(turns: nat -> Turn, rounds: nat, outcome: Outcome, sent: nat, tail: seq<StreamEvent>)
    requires Ends(turns, rounds, outcome, sent, tail) && rounds < MAX_TOOL_LOOPS
    ensures LastTurnDecides(turns(rounds), UsageOf(turns, rounds + 1), outcome, sent - rounds, tail)
  {
    UsesToolsIff(turns(rounds));
  }

  /** What a caller of SendMessage can rely on. */
  method Ask(hasKey: bool, hasClient: bool, history: seq<ChatMessage>, newMessage: string, turns: nat -> Turn)
    returns (outcome: Outcome, events: seq<StreamEvent>)
    ensures Protocol(outcome, events)
  {
    var requests, rounds;
    ghost var tail;
    outcome, events, requests, rounds, tail := SendMessage(hasKey, hasClient, history, newMessage, turns);
    if hasKey { StreamProtocol(hasClient, turns, rounds, outcome, |requests|, tail); }
  }
}
