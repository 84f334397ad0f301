/** Model of the argument list that pkg/ai/codex_cli.go builds for the MCP server and
    of the loop in main.go that parses it. */
module McpArgs {
  import opened Common

  /** What the server is told.  A list that was never given is None; a list that was
      given as empty is Some([]). */
  datatype Settings = Settings(context: string, tools: Option<seq<string>>, commands: Option<seq<string>>)

  const MCP_PREFIX := "mcp__kubikles__"
  const DEFAULTS := Settings("", None, None)

  // ---------------------------------------------------------------- joining and splitting

  function Join(parts: seq<string>, sep: char): string {
    if parts == [] then ""
    else if |parts| == 1 then parts[0]
    else parts[0] + [sep] + Join(parts[1..], sep)
  }

  function Split(s: string, sep: char): (parts: seq<string>)
    ensures parts != []
  {
    if s == "" then [""]
    else if s[0] == sep then [""] + Split(s[1..], sep)
    else
      var rest := Split(s[1..], sep);
      [[s[0]] + rest[0]] + rest[1..]
  }

  ghost predicate Free(parts: seq<string>, sep: char) {
    forall p | p in parts :: sep !in p
  }

  lemma {:induction false} PartsAreFree(s: string, sep: char)
    ensures Free(Split(s, sep), sep)
  {
    if s != "" { PartsAreFree(s[1..], sep); }
  }

  lemma {:induction false} SplitPart(p: string, sep: char)
    requires sep !in p
    ensures Split(p, sep) == [p]
  {
    if p != "" {
      SplitPart(p[1..], sep);
      assert p == [p[0]] + p[1..];
    }
  }

  lemma {:induction false} SplitFirst(p: string, more: string, sep: char)
    requires sep !in p
    ensures Split(p + [sep] + more, sep) == [p] + Split(more, sep)
  {
    var s := p + [sep] + more;
    if p == "" {
      assert s[1..] == more;
    } else {
      SplitFirst(p[1..], more, sep);
      assert s[1..] == p[1..] + [sep] + more;
      assert p == [p[0]] + p[1..];
    }
  }

  lemma {:induction false} SplitUndoesJoin(parts: seq<string>, sep: char)
    requires parts != [] && Free(parts, sep)
    ensures Split(Join(parts, sep), sep) == parts
  {
    if |parts| == 1 {
      SplitPart(parts[0], sep);
    } else {
      SplitUndoesJoin(parts[1..], sep);
      SplitFirst(parts[0], Join(parts[1..], sep), sep);
    }
  }

  /** Splitting recovers a list exactly when it is not empty and no part of it
      contains the separator. */
  lemma SplitUndoesJoinIff(parts: seq<string>, sep: char)
    ensures Split(Join(parts, sep), sep) == parts <==> parts != [] && Free(parts, sep)
  {
    PartsAreFree(Join(parts, sep), sep);
    if parts != [] && Free(parts, sep) { SplitUndoesJoin(parts, sep); }
  }

  // ---------------------------------------------------------------- the writer

  function ShortNames(tools: seq<string>): seq<string> {
    if tools == [] then []
    else
      var t := tools[|tools| - 1];
      ShortNames(tools[..|tools| - 1]) + if MCP_PREFIX <= t then [t[|MCP_PREFIX|..]] else []
  }

  predicate IsServers(tool: string) {
    MCP_PREFIX <= tool
  }

  function ServersAt(tools: seq<string>): seq<int> {
    if tools == [] then []
    else
      var n := |tools| - 1;
      ServersAt(tools[..n]) + if IsServers(tools[n]) then [n] else []
  }

  ghost predicate AreShortFor(tools: seq<string>, at: seq<int>, names: seq<string>)
    requires AllHave(tools, IsServers, at)
  {
    |names| == |at| && forall j | 0 <= j < |at| :: MCP_PREFIX + names[j] == tools[at[j]]
  }

  lemma ShortNamesSnoc(tools: seq<string>, at: seq<int>, names: seq<string>, tool: string)
    requires AllHave(tools, IsServers, at) && AreShortFor(tools, at, names)
    ensures var at' := if IsServers(tool) then at + [|tools|] else at;
      && AllHave(tools + [tool], IsServers, at')
      && AreShortFor(tools + [tool], at', if IsServers(tool) then names + [tool[|MCP_PREFIX|..]] else names)
  {
    forall j | 0 <= j < |at| ensures (tools + [tool])[at[j]] == tools[at[j]] {
    }
  }

  /** The names passed on are those of the server's tools, in order, without the prefix. */
  lemma {:induction false} ShortNamesInOrder(tools: seq<string>)
    ensures Picks(tools, IsServers, ServersAt(tools)) && AreShortFor(tools, ServersAt(tools), ShortNames(tools))
  {
    if tools != [] {
      var n := |tools| - 1;
      var before, at, names := tools[..n], ServersAt(tools[..n]), ShortNames(tools[..n]);
      ShortNamesInOrder(before);
      assert before + [tools[n]] == tools && at + [] == at && names + [] == names;
      ShortNamesSnoc(before, at, names, tools[n]);
      PicksSnoc(before, IsServers, at, tools[n]);
    }
  }

  /** Each flag is followed by its value: the context and the tools if there are any,
      the commands always. */
  ghost predicate Says(args: seq<string>, context: string, names: seq<string>, commands: seq<string>) {
    var a, b := if context != "" then 2 else 0, if names != [] then 2 else 0;
    && |args| == 3 + a + b && args[0] == "--mcp-server"
    && (context != "" ==> args[1] == "--k8s-context" && args[2] == context)
    && (names != [] ==> args[1 + a] == "--allowed-tools" && args[2 + a] == Join(names, ','))
    && args[1 + a + b] == "--allowed-commands" && args[2 + a + b] == Join(commands, '|')
  }

  function Args(context: string, names: seq<string>, commands: seq<string>): seq<string> {
    (if context != "" then ["--k8s-context", context] else [])
      + ((if names != [] then ["--allowed-tools", Join(names, ',')] else [])
        + ["--allowed-commands", Join(commands, '|')])
  }

  lemma ArgsSay(context: string, names: seq<string>, commands: seq<string>)
    ensures Says(["--mcp-server"] + Args(context, names, commands), context, names, commands)
  {
  }

  method BuildArgs(context: string, allowedTools: seq<string>, allowedCommands: seq<string>)
    returns (mcpArgs: seq<string>)
    ensures mcpArgs == ["--mcp-server"] + Args(context, ShortNames(allowedTools), allowedCommands)
    ensures Says(mcpArgs, context, ShortNames(allowedTools), allowedCommands)
  {
    mcpArgs := ["--mcp-server"];
    if context != "" {
      mcpArgs := mcpArgs + ["--k8s-context", context];
    }
    var shortNames := [];
    for i := 0 to |allowedTools|
      invariant shortNames == ShortNames(allowedTools[..i])
    {
      assert allowedTools[..i + 1][..i] == allowedTools[..i];
      var t := allowedTools[i];
      if MCP_PREFIX <= t {
        shortNames := shortNames + [t[|MCP_PREFIX|..]];
      }
    }
    assert allowedTools[..|allowedTools|] == allowedTools;
    if |shortNames| > 0 {
      mcpArgs := mcpArgs + ["--allowed-tools", Join(shortNames, ',')];
    }
    mcpArgs := mcpArgs + ["--allowed-commands", Join(allowedCommands, '|')];
    ArgsSay(context, shortNames, allowedCommands);
  }

  // ---------------------------------------------------------------- the parser

  function CommandList(value: string): seq<string> {
    if value != "" then Split(value, '|') else []
  }

  predicate IsFlag(s: string) {
    s == "--k8s-context" || s == "--allowed-tools" || s == "--allowed-commands"
  }

  function Set(s: Settings, flag: string, value: string): Settings
    requires IsFlag(flag)
  {
    if flag == "--k8s-context" then s.(context := value)
    else if flag == "--allowed-tools" then s.(tools := Some(Split(value, ',')))
    else s.(commands := Some(CommandList(value)))
  }

  /** The settings after reading the remaining arguments. */
  function Parsed(args: seq<string>, s: Settings): Settings
    decreases |args|
  {
    if args == [] then s
    else if |args| > 1 && IsFlag(args[0]) then Parsed(args[2..], Set(s, args[0], args[1]))
    else Parsed(args[1..], s)
  }

  /** The program's own arguments: its path, the mode, and the rest. */
  method ParseArgs(osArgs: seq<string>) returns (r: Option<Settings>)
    ensures r == if |osArgs| > 1 && osArgs[1] == "--mcp-server" then Some(Parsed(osArgs[2..], DEFAULTS)) else None
  {
    if |osArgs| > 1 && osArgs[1] == "--mcp-server" {
      var s := DEFAULTS;
      var i := 2;
      while i < |osArgs|
        invariant 2 <= i <= |osArgs|
        invariant Parsed(osArgs[i..], s) == Parsed(osArgs[2..], DEFAULTS)
      {
        assert osArgs[i..][1..] == osArgs[i + 1..];
        assert i + 1 < |osArgs| ==> osArgs[i..][2..] == osArgs[i + 2..];
        if osArgs[i] == "--k8s-context" && i + 1 < |osArgs| {
          s := s.(context := osArgs[i + 1]);
          i := i + 1;
        } else if osArgs[i] == "--allowed-tools" && i + 1 < |osArgs| {
          s := s.(tools := Some(Split(osArgs[i + 1], ',')));
          i := i + 1;
        } else if osArgs[i] == "--allowed-commands" && i + 1 < |osArgs| {
          var value := osArgs[i + 1];
          if value != "" {
            s := s.(commands := Some(Split(value, '|')));
          } else {
            s := s.(commands := Some([]));
          }
          i := i + 1;
        }
        i := i + 1;
      }
      return Some(s);
    }
    return None;
  }

  // ---------------------------------------------------------------- main result

  lemma OneFlag(flag: string, value: string, more: seq<string>, s: Settings)
    requires IsFlag(flag)
    ensures Parsed([flag, value] + more, s) == Parsed(more, Set(s, flag, value))
  {
    assert ([flag, value] + more)[2..] == more;
  }

  /** An argument that is no flag is skipped, and so is one that nothing follows. */
  lemma OthersAreSkipped(arg: string, more: seq<string>, s: Settings)
    requires more == [] || arg !in ["--k8s-context", "--allowed-tools", "--allowed-commands"]
    ensures Parsed([arg] + more, s) == Parsed(more, s)
  {
    assert ([arg] + more)[1..] == more;
  }

  /** Of two values for a flag the later one counts. */
  lemma LaterValueCounts(flag: string, first: string, second: string, more: seq<string>, s: Settings)
    requires flag in ["--k8s-context", "--allowed-tools", "--allowed-commands"]
    ensures Parsed([flag, first] + ([flag, second] + more), s) == Parsed([flag, second] + more, s)
  {
    OneFlag(flag, first, [flag, second] + more, s);
    OneFlag(flag, second, more, s);
    OneFlag(flag, second, more, Set(s, flag, first));
  }

  /** What comes back, whatever the values look like. */
  lemma ParsedArgs(context: string, names: seq<string>, commands: seq<string>)
    ensures Parsed(Args(context, names, commands), DEFAULTS)
      == Settings(context, if names == [] then None else Some(Split(Join(names, ','), ',')),
                  Some(CommandList(Join(commands, '|'))))
  {
    var last := ["--allowed-commands", Join(commands, '|')];
    var middle := (if names != [] then ["--allowed-tools", Join(names, ',')] else []) + last;
    var s := DEFAULTS.(context := context);
    assert Parsed(Args(context, names, commands), DEFAULTS) == Parsed(middle, s) by {
      if context != "" { OneFlag("--k8s-context", context, middle, DEFAULTS); }
      assert [] + middle == middle;
    }
    var s' := s.(tools := if names == [] then None else Some(Split(Join(names, ','), ',')));
    assert Parsed(middle, s) == Parsed(last, s') by {
      if names != [] { OneFlag("--allowed-tools", Join(names, ','), last, s); }
      assert [] + last == last;
    }
    OneFlag("--allowed-commands", Join(commands, '|'), [], s');
    assert last + [] == last;
  }

  lemma JoinIsEmpty(parts: seq<string>, sep: char)
    ensures Join(parts, sep) == "" <==> parts == [] || parts == [""]
  {
    if |parts| > 1 { assert sep in Join(parts, sep); }
  }

  /** Main result: the server gets the context, the short tool names and the command
      list it was built with, exactly when no tool name contains a comma, no command
      a bar, and the command list is not one empty command.  No tools are given as
      no list at all, no commands as an explicitly empty list. */
  lemma RoundTrip(context: string, tools: seq<string>, commands: seq<string>)
    ensures var names := ShortNames(tools);
      Parsed(Args(context, names, commands), DEFAULTS)
        == Settings(context, if names == [] then None else Some(names), Some(commands))
      <==> Free(names, ',') && commands != [""] && Free(commands, '|')
  {
    var names := ShortNames(tools);
    ParsedArgs(context, names, commands);
    SplitUndoesJoinIff(names, ',');
    SplitUndoesJoinIff(commands, '|');
    JoinIsEmpty(commands, '|');
  }

  /** The names passed on are those of the tools with the server's prefix. */
  lemma {:induction false} ShortNamesAreTheServersTools(tools: seq<string>, name: string)
    ensures name in ShortNames(tools) <==> MCP_PREFIX + name in tools
  {
    if tools != [] {
      var n := |tools| - 1;
      ShortNamesAreTheServersTools(tools[..n], name);
      assert tools == tools[..n] + [tools[n]];
      if MCP_PREFIX <= tools[n] { assert tools[n] == MCP_PREFIX + tools[n][|MCP_PREFIX|..]; }
      assert (MCP_PREFIX + name)[|MCP_PREFIX|..] == name;
    }
  }
}
