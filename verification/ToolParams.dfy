/** Model of the list of tools that a request offers (pkg/ai/anthropic_tools.go). */
module ToolParams {
  import opened Common

  datatype Tool = Tool(name: string, marked: bool)

  /** An allowed name without the prefix of the MCP server; a bare name stays. */
  function Bare(name: string, prefix: string): string {
    if prefix <= name then name[|prefix|..] else name
  }

  function AllowSet(allowedTools: seq<string>, prefix: string): set<string> {
    set t | t in allowedTools :: Bare(t, prefix)
  }

  lemma AllowSetSnoc(allowedTools: seq<string>, t: string, prefix: string)
    ensures AllowSet(allowedTools + [t], prefix) == AllowSet(allowedTools, prefix) + {Bare(t, prefix)}
  {
    var more := allowedTools + [t];
    assert t in more && forall x | x in allowedTools :: x in more;
  }

  method MakeAllowSet(allowedTools: seq<string>, prefix: string) returns (allowed: set<string>)
    ensures allowed == AllowSet(allowedTools, prefix)
  {
    allowed := {};
    for i := 0 to |allowedTools|
      invariant allowed == AllowSet(allowedTools[..i], prefix)
    {
      AllowSetSnoc(allowedTools[..i], allowedTools[i], prefix);
      assert allowedTools[..i + 1] == allowedTools[..i] + [allowedTools[i]];
      if prefix <= allowedTools[i] {
        allowed := allowed + {allowedTools[i][|prefix|..]};
      } else {
        allowed := allowed + {allowedTools[i]};
      }
    }
    assert allowedTools[..|allowedTools|] == allowedTools;
  }

  /** A name is let through if and only if it is allowed with the prefix in front, or as
      it is, unless it begins with the prefix itself. */
  lemma AllowedIff(name: string, allowedTools: seq<string>, prefix: string)
    ensures name in AllowSet(allowedTools, prefix) <==>
      prefix + name in allowedTools || (name in allowedTools && !(prefix <= name))
  {
    if name in AllowSet(allowedTools, prefix) {
      var t :| t in allowedTools && Bare(t, prefix) == name;
      assert prefix <= t ==> t == prefix + name;
    }
    if prefix + name in allowedTools {
      assert (prefix + name)[|prefix|..] == name && Bare(prefix + name, prefix) == name;
    }
    if name in allowedTools && !(prefix <= name) {
      assert Bare(name, prefix) == name;
    }
  }

  function AllowedTools(names: seq<string>, allowed: set<string>): seq<Tool> {
    if names == [] then []
    else
      var name := names[|names| - 1];
      AllowedTools(names[..|names| - 1], allowed) + if name in allowed then [Tool(name, false)] else []
  }

  function IsAllowed(allowed: set<string>): string -> bool {
    (name: string) => name in allowed
  }

  function AllowedAt(names: seq<string>, allowed: set<string>): seq<int> {
    if names == [] then []
    else
      var n := |names| - 1;
      AllowedAt(names[..n], allowed) + if names[n] in allowed then [n] else []
  }

  /** The tools stand for the names at these places. */
  ghost predicate AreToolsAt(names: seq<string>, at: seq<int>, tools: seq<Tool>)
    requires forall j | 0 <= j < |at| :: 0 <= at[j] < |names|
  {
    |tools| == |at| && forall j | 0 <= j < |at| :: tools[j].name == names[at[j]]
  }

  lemma AllowedAtSnoc(names: seq<string>, allowed: set<string>, at: seq<int>, name: string)
    requires Picks(names, IsAllowed(allowed), at)
    ensures Picks(names + [name], IsAllowed(allowed), at + if name in allowed then [|names|] else [])
  {
    PicksSnoc(names, IsAllowed(allowed), at, name);
    assert at + [] == at && IsAllowed(allowed)(name) == (name in allowed);
  }

  lemma ToolsAtSnoc(names: seq<string>, at: seq<int>, tools: seq<Tool>, name: string, isAllowed: bool)
    requires (forall j | 0 <= j < |at| :: 0 <= at[j] < |names|) && AreToolsAt(names, at, tools)
    ensures var at' := at + if isAllowed then [|names|] else [];
      && (forall j | 0 <= j < |at'| :: 0 <= at'[j] < |names + [name]|)
      && AreToolsAt(names + [name], at', tools + if isAllowed then [Tool(name, false)] else [])
  {
  }

  /** The allowed tools, each once for each time it is known, in order. */
  lemma {:induction false} AllowedToolsInOrder(names: seq<string>, allowed: set<string>)
    ensures Picks(names, IsAllowed(allowed), AllowedAt(names, allowed))
    ensures AreToolsAt(names, AllowedAt(names, allowed), AllowedTools(names, allowed))
  {
    if names != [] {
      var n := |names| - 1;
      var before, name := names[..n], names[n];
      AllowedToolsInOrder(before, allowed);
      AllowedAtSnoc(before, allowed, AllowedAt(before, allowed), name);
      ToolsAtSnoc(before, AllowedAt(before, allowed), AllowedTools(before, allowed), name, name in allowed);
      assert before + [name] == names;
    }
  }

  function LastMarked(tools: seq<Tool>): seq<Tool> {
    if tools == [] then [] else tools[|tools| - 1 := tools[|tools| - 1].(marked := true)]
  }

  method BuildToolParams(names: seq<string>, allowedTools: seq<string>, prefix: string) returns (tools: seq<Tool>)
    ensures tools == LastMarked(AllowedTools(names, AllowSet(allowedTools, prefix)))
    ensures var at := AllowedAt(names, AllowSet(allowedTools, prefix));
      Picks(names, IsAllowed(AllowSet(allowedTools, prefix)), at) && AreToolsAt(names, at, tools)
  {
    AllowedToolsInOrder(names, AllowSet(allowedTools, prefix));
    var allowed := MakeAllowSet(allowedTools, prefix);
    tools := [];
    for i := 0 to |names|
      invariant tools == AllowedTools(names[..i], allowed)
    {
      assert names[..i + 1][..i] == names[..i];
      if names[i] in allowed {
        tools := tools + [Tool(names[i], false)];
      }
    }
    assert names[..|names|] == names;
    if |tools| > 0 {
      tools := tools[|tools| - 1 := tools[|tools| - 1].(marked := true)];
    }
  }

  lemma {:induction false} AllowedToolsAreUnmarked(names: seq<string>, allowed: set<string>)
    ensures forall t | t in AllowedTools(names, allowed) :: !t.marked && t.name in allowed && t.name in names
    ensures forall name | name in names && name in allowed :: Tool(name, false) in AllowedTools(names, allowed)
  {
    if names != [] {
      AllowedToolsAreUnmarked(names[..|names| - 1], allowed);
    }
  }

  function Names(tools: seq<Tool>): set<string> {
    set t | t in tools :: t.name
  }

  lemma MarkingKeepsNames(tools: seq<Tool>)
    ensures Names(LastMarked(tools)) == Names(tools)
  {
    if tools != [] {
      var n, marked := |tools| - 1, LastMarked(tools);
      assert forall i | 0 <= i < n :: marked[i] == tools[i];
      assert marked[n].name == tools[n].name;
      forall t | t in tools ensures t.name in Names(marked) {
        var i :| 0 <= i < |tools| && tools[i] == t;
        assert marked[i] in marked && marked[i].name == t.name;
      }
      forall t | t in marked ensures t.name in Names(tools) {
        var i :| 0 <= i < |tools| && marked[i] == t;
        assert tools[i] in tools && tools[i].name == t.name;
      }
    }
  }

  /** A known tool is offered if and only if it is allowed with the prefix in front, or
      by its bare name. */
  lemma OfferedIff(names: seq<string>, allowedTools: seq<string>, prefix: string, name: string)
    ensures name in Names(LastMarked(AllowedTools(names, AllowSet(allowedTools, prefix)))) <==>
      name in names && (prefix + name in allowedTools || (name in allowedTools && !(prefix <= name)))
  {
    var allowed := AllowSet(allowedTools, prefix);
    AllowedToolsAreUnmarked(names, allowed);
    MarkingKeepsNames(AllowedTools(names, allowed));
    AllowedIff(name, allowedTools, prefix);
    if name in names && name in allowed {
      assert Tool(name, false) in AllowedTools(names, allowed);
    }
  }

  function MarkedTools(tools: seq<Tool>): set<int> {
    set i | 0 <= i < |tools| && tools[i].marked
  }

  /** Of the tools sent only the last is marked. */
  lemma LastToolIsMarked(names: seq<string>, allowed: set<string>)
    ensures var tools := LastMarked(AllowedTools(names, allowed));
      MarkedTools(tools) == if tools == [] then {} else {|tools| - 1}
  {
    AllowedToolsAreUnmarked(names, allowed);
    var before := AllowedTools(names, allowed);
    assert forall i | 0 <= i < |before| :: before[i] in before;
  }
}
