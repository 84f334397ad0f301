/** Model of the type printer and of the reader of printed types in
    cmd/gen-dispatcher/main.go. */
module GenDispatcher {
  import opened Scanner

  /** Type expressions as the printer tells them apart.  `Other` is any node it has no
      case for (channels, functions, generic types), with the type inside it. */
  datatype TypeExpr =
    | Ident(name: string)
    | Selector(pkg: string, name: string)
    | Star(x: TypeExpr)
    | Array(elt: TypeExpr)
    | Map(key: TypeExpr, value: TypeExpr)
    | Interface
    | Ellipsis(elt: TypeExpr)
    | Other(inner: TypeExpr)

  predicate IsIdent(s: string) {
    s != "" && forall i | 0 <= i < |s| :: s[i] != '.' && s[i] != '*' && s[i] != '[' && s[i] != ']'
  }

  predicate WellFormed(t: TypeExpr) {
    match t
    case Ident(name) => IsIdent(name)
    case Selector(pkg, name) => IsIdent(pkg) && IsIdent(name)
    case Star(x) => WellFormed(x)
    case Array(elt) => WellFormed(elt)
    case Map(key, value) => WellFormed(key) && WellFormed(value)
    case Interface => true
    case Ellipsis(elt) => WellFormed(elt)
    case Other(inner) => WellFormed(inner)
  }

  /** Every package named in the type. */
  function Packages(t: TypeExpr): set<string> {
    match t
    case Ident(_) => {}
    case Selector(pkg, _) => {pkg}
    case Star(x) => Packages(x)
    case Array(elt) => Packages(elt)
    case Map(key, value) => Packages(key) + Packages(value)
    case Interface => {}
    case Ellipsis(elt) => Packages(elt)
    case Other(inner) => Packages(inner)
  }

  /** The packages outside variadic and unsupported parts. */
  function Visible(t: TypeExpr): set<string> {
    match t
    case Ident(_) => {}
    case Selector(pkg, _) => {pkg}
    case Star(x) => Visible(x)
    case Array(elt) => Visible(elt)
    case Map(key, value) => Visible(key) + Visible(value)
    case Interface => {}
    case Ellipsis(_) => {}
    case Other(_) => {}
  }

  /** Nothing variadic or unsupported anywhere. */
  predicate Supported(t: TypeExpr) {
    match t
    case Star(x) => Supported(x)
    case Array(elt) => Supported(elt)
    case Map(key, value) => Supported(key) && Supported(value)
    case Ellipsis(_) => false
    case Other(_) => false
    case _ => true
  }

  // ---------------------------------------------------------------- the printer

  function Text(t: TypeExpr): string {
    match t
    case Ident(name) => name
    case Selector(pkg, name) => pkg + "." + name
    case Star(x) => "*" + Text(x)
    case Array(elt) => "[]" + Text(elt)
    case Map(key, value) => "map[" + (Text(key) + ("]" + Text(value)))
    case Interface => "interface{}"
    case Ellipsis(elt) => "..." + Text(elt)
    case Other(_) => "interface{}"
  }

  method WriteExpr(buf: string, t: TypeExpr) returns (buf': string)
    ensures buf' == buf + Text(t)
    decreases t
  {
    buf' := buf;
    match t {
      case Ident(name) => buf' := buf' + name;
      case Selector(pkg, name) =>
        buf' := buf' + pkg;
        buf' := buf' + ".";
        buf' := buf' + name;
      case Star(x) =>
        buf' := buf' + "*";
        buf' := WriteExpr(buf', x);
      case Array(elt) =>
        buf' := buf' + "[]";
        buf' := WriteExpr(buf', elt);
      case Map(key, value) =>
        buf' := buf' + "map[";
        buf' := WriteExpr(buf', key);
        buf' := buf' + "]";
        buf' := WriteExpr(buf', value);
      case Interface => buf' := buf' + "interface{}";
      case Ellipsis(elt) =>
        buf' := buf' + "...";
        buf' := WriteExpr(buf', elt);
      case Other(_) => buf' := buf' + "interface{}";
    }
  }

  // ---------------------------------------------------------------- the reader

  function Deeper(c: char, depth: nat): nat
    requires depth > 0
  {
    if c == '[' then depth + 1 else if c == ']' then depth - 1 else depth
  }

  /** How many characters until the brackets are closed, or the text ends. */
  function Close(s: string, depth: nat): (n: nat)
    ensures n <= |s| && (n < |s| && depth > 0 ==> n > 0)
  {
    if s == "" || depth == 0 then 0 else 1 + Close(s[1..], Deeper(s[0], depth))
  }

  /** The key and the value of a printed map type; nothing if it is not closed. */
  function MapParts(s: string): (parts: (string, string))
    requires "map[" <= s
    ensures |parts.0| < |s| && |parts.1| < |s|
  {
    var n := Close(s[4..], 1);
    if 4 + n < |s| then (s[4..][..n - 1], s[4..][n..]) else ("", "")
  }

  function LeafRef(s: string): set<string> {
    var i := Find(s, ".");
    if i > 0 then {s[..i]} else {}
  }

  function Refs(s: string): set<string>
    decreases |s|
  {
    if "*" <= s then Refs(s[1..])
    else if "[]" <= s then Refs(s[2..])
    else if "map[" <= s then Refs(MapParts(s).0) + Refs(MapParts(s).1)
    else LeafRef(s)
  }

  method FindClose(s: string) returns (i: nat)
    requires "map[" <= s
    ensures i == 4 + Close(s[4..], 1)
  {
    var depth := 1;
    i := 4;
    while i < |s| && depth > 0
      invariant 4 <= i <= |s| && 0 <= depth
      invariant i + Close(s[i..], depth) == 4 + Close(s[4..], 1)
      decreases |s| - i
    {
      assert s[i..][1..] == s[i + 1..];
      if s[i] == '[' {
        depth := depth + 1;
      } else if s[i] == ']' {
        depth := depth - 1;
      }
      i := i + 1;
    }
  }

  method ExtractPkgRefs(typeStr: string, refs: set<string>) returns (refs': set<string>)
    ensures refs' == refs + Refs(typeStr)
    decreases |typeStr|
  {
    var s := typeStr;
    refs' := refs;
    while true
      invariant Refs(s) == Refs(typeStr) && |s| <= |typeStr|
      decreases |s|
    {
      if "*" <= s {
        s := s[1..];
      } else if "[]" <= s {
        s := s[2..];
      } else if "map[" <= s {
        var i := FindClose(s);
        if i < |s| {
          assert s[4..][..i - 4 - 1] == s[4..i - 1] && s[4..][i - 4..] == s[i..];
          refs' := ExtractPkgRefs(s[4..i - 1], refs');
          refs' := ExtractPkgRefs(s[i..], refs');
        }
        return;
      } else {
        break;
      }
    }
    var idx := Find(s, ".");
    if idx > 0 {
      refs' := refs' + {s[..idx]};
    }
  }

  // ---------------------------------------------------------------- balanced brackets

  lemma {:induction false} CloseSkips(w: string, more: string, depth: nat)
    requires depth > 0 && forall i | 0 <= i < |w| :: w[i] != '[' && w[i] != ']'
    ensures Close(w + more, depth) == |w| + Close(more, depth)
  {
    if w == "" {
      assert w + more == more;
    } else {
      assert (w + more)[1..] == w[1..] + more;
      CloseSkips(w[1..], more, depth);
    }
  }

  lemma CloseSteps(c: char, more: string, depth: nat)
    requires depth > 0
    ensures Close([c] + more, depth) == 1 + Close(more, Deeper(c, depth))
  {
    assert ([c] + more)[1..] == more;
  }

  /** A text that opens and closes its own brackets: the search passes over it. */
  ghost predicate Balanced(x: string) {
    forall more: string, depth: nat | depth > 0 :: Close(x + more, depth) == |x| + Close(more, depth)
  }

  lemma PlainIsBalanced(w: string)
    requires forall i | 0 <= i < |w| :: w[i] != '[' && w[i] != ']'
    ensures Balanced(w)
  {
    forall more: string, depth: nat | depth > 0 ensures Close(w + more, depth) == |w| + Close(more, depth) {
      CloseSkips(w, more, depth);
    }
  }

  lemma ConcatIsBalanced(a: string, b: string)
    requires Balanced(a) && Balanced(b)
    ensures Balanced(a + b)
  {
    forall more: string, depth: nat | depth > 0 ensures Close(a + b + more, depth) == |a + b| + Close(more, depth) {
      assert a + b + more == a + (b + more);
    }
  }

  lemma BracketsAreBalanced(a: string)
    requires Balanced(a)
    ensures Balanced("[" + a + "]")
  {
    var x := "[" + a + "]";
    forall more: string, depth: nat | depth > 0 ensures Close(x + more, depth) == |x| + Close(more, depth) {
      assert x + more == "[" + (a + ("]" + more));
      CloseSteps('[', a + ("]" + more), depth);
      assert Close(a + ("]" + more), depth + 1) == |a| + Close("]" + more, depth + 1);
      CloseSteps(']', more, depth + 1);
    }
  }

  lemma PrefixedIsBalanced(w: string, x: string)
    requires Balanced(x) && forall i | 0 <= i < |w| :: w[i] != '[' && w[i] != ']'
    ensures Balanced(w + x)
  {
    PlainIsBalanced(w);
    ConcatIsBalanced(w, x);
  }

  lemma SliceIsBalanced(x: string)
    requires Balanced(x)
    ensures Balanced("[]" + x)
  {
    PlainIsBalanced("");
    BracketsAreBalanced("");
    assert "[" + "" + "]" == "[]";
    ConcatIsBalanced("[]", x);
  }

  lemma MapIsBalanced(k: string, v: string)
    requires Balanced(k) && Balanced(v)
    ensures Balanced("map[" + (k + ("]" + v)))
  {
    BracketsAreBalanced(k);
    ConcatIsBalanced("[" + k + "]", v);
    PrefixedIsBalanced("map", "[" + k + "]" + v);
    assert "map[" + (k + ("]" + v)) == "map" + ("[" + k + "]" + v);
  }

  lemma {:induction false} TextIsBalanced(t: TypeExpr)
    requires WellFormed(t)
    ensures Balanced(Text(t))
    decreases t
  {
    match t
    case Star(x) =>
      TextIsBalanced(x);
      PrefixedIsBalanced("*", Text(x));
    case Array(elt) =>
      TextIsBalanced(elt);
      SliceIsBalanced(Text(elt));
    case Map(key, value) =>
      TextIsBalanced(key);
      TextIsBalanced(value);
      MapIsBalanced(Text(key), Text(value));
    case Ellipsis(elt) =>
      TextIsBalanced(elt);
      PrefixedIsBalanced("...", Text(elt));
    case _ => PlainIsBalanced(Text(t));
  }

  // ---------------------------------------------------------------- main results

  lemma {:induction false} TextIsNotEmpty(t: TypeExpr)
    requires WellFormed(t)
    ensures Text(t) != ""
  {
  }

  lemma MapPartsOfMap(k: string, v: string)
    requires v != "" && Balanced(k)
    ensures MapParts("map[" + (k + ("]" + v))) == (k, v)
  {
    var s := "map[" + (k + ("]" + v));
    var inner := s[4..];
    assert inner == k + ("]" + v);
    assert Close(k + ("]" + v), 1) == |k| + Close("]" + v, 1);
    CloseSteps(']', v, 1);
    assert inner[..|k|] == k && inner[|k| + 1..] == v;
  }

  predicate NoBrackets(s: string) {
    forall i | 0 <= i < |s| :: s[i] != '*' && s[i] != '[' && s[i] != ']'
  }

  lemma PrefixHasNoBrackets(w: string, s: string)
    requires w <= s && NoBrackets(s)
    ensures NoBrackets(w)
  {
    assert forall i | 0 <= i < |w| :: w[i] == s[i];
  }

  lemma RefsOfLeaf(s: string)
    requires NoBrackets(s)
    ensures Refs(s) == LeafRef(s)
  {
    assert "*"[0] == '*' && "[]"[0] == '[' && "map["[3] == '[';
    if "*" <= s { PrefixHasNoBrackets("*", s); }
    if "[]" <= s { PrefixHasNoBrackets("[]", s); }
    if "map[" <= s { PrefixHasNoBrackets("map[", s); }
  }

  lemma {:induction false} NoDot(s: string)
    requires forall i | 0 <= i < |s| :: s[i] != '.'
    ensures Find(s, ".") == -1
  {
    if s != "" {
      assert s[..1][0] == s[0];
      NoDot(s[1..]);
    }
  }

  lemma RefsOfName(s: string)
    requires IsIdent(s)
    ensures Refs(s) == {}
  {
    RefsOfLeaf(s);
    NoDot(s);
  }

  lemma FirstDot(pkg: string, name: string)
    requires IsIdent(pkg)
    ensures Find(pkg + ("." + name), ".") == |pkg|
  {
    var s := pkg + ("." + name);
    NoDot(pkg);
    assert s[|pkg|..|pkg| + 1] == ".";
    FindIsFirst(s, ".", |pkg|);
    FindInPrefix(pkg, "." + name, ".");
  }

  lemma RefsOfSelector(pkg: string, name: string)
    requires IsIdent(pkg) && IsIdent(name)
    ensures Refs(pkg + "." + name) == {pkg}
  {
    var s := pkg + ("." + name);
    assert NoBrackets(pkg) && NoBrackets(name) && NoBrackets(".");
    RefsOfLeaf(s);
    FirstDot(pkg, name);
    assert s == pkg + "." + name && s[..|pkg|] == pkg;
  }

  /** A variadic type begins with a dot, so nothing of it is looked at. */
  lemma RefsOfVariadic(x: string)
    ensures Refs("..." + x) == {}
  {
    var s := "..." + x;
    assert s[0] == '.' && s[0..1] == ".";
    FindIsFirst(s, ".", 0);
  }

  /** Main result: reading a printed type finds exactly its visible packages. */
  lemma {:induction false} ReaderAgreesWithPrinter(t: TypeExpr)
    requires WellFormed(t)
    ensures Refs(Text(t)) == Visible(t)
    decreases t
  {
    match t
    case Ident(name) => RefsOfName(name);
    case Selector(pkg, name) => RefsOfSelector(pkg, name);
    case Star(x) =>
      assert Text(t)[1..] == Text(x);
      ReaderAgreesWithPrinter(x);
    case Array(elt) =>
      assert Text(t)[2..] == Text(elt);
      ReaderAgreesWithPrinter(elt);
    case Map(key, value) =>
      TextIsBalanced(key);
      TextIsNotEmpty(value);
      MapPartsOfMap(Text(key), Text(value));
      ReaderAgreesWithPrinter(key);
      ReaderAgreesWithPrinter(value);
    case Ellipsis(elt) =>
      RefsOfVariadic(Text(elt));
    case Interface => RefsOfName("interface{}");
    case Other(_) => RefsOfName("interface{}");
  }

  lemma {:induction false} SupportedIsVisible(t: TypeExpr)
    requires Supported(t)
    ensures Visible(t) == Packages(t)
  {
    match t
    case Star(x) => SupportedIsVisible(x);
    case Array(elt) => SupportedIsVisible(elt);
    case Map(key, value) => SupportedIsVisible(key); SupportedIsVisible(value);
    case _ =>
  }

  /** For the type of a parameter, which is variadic at most at the top, the reader
      finds every package unless the parameter is variadic and names one. */
  lemma ParameterPackagesAreFound(t: TypeExpr)
    requires WellFormed(t) && Supported(if t.Ellipsis? then t.elt else t)
    ensures Refs(Text(t)) == Packages(t) <==> !(t.Ellipsis? && Packages(t) != {})
  {
    ReaderAgreesWithPrinter(t);
    if !t.Ellipsis? { SupportedIsVisible(t); }
  }

  // ---------------------------------------------------------------- all parameters of a program

  function AllRefs(types: seq<string>): set<string> {
    if types == [] then {} else AllRefs(types[..|types| - 1]) + Refs(types[|types| - 1])
  }

  method CollectPackageRefs(types: seq<string>) returns (refs: set<string>)
    ensures refs == AllRefs(types)
  {
    refs := {};
    for i := 0 to |types|
      invariant refs == AllRefs(types[..i])
    {
      assert types[..i + 1][..i] == types[..i];
      refs := ExtractPkgRefs(types[i], refs);
    }
    assert types[..|types|] == types;
  }

  /** The packages collected from the printed types of all parameters are those that
      the parameters name, outside variadic and unsupported parts. */
  lemma {:induction false} CollectedPackagesAreTheVisibleOnes(params: seq<TypeExpr>, types: seq<string>, pkg: string)
    requires |types| == |params| && forall i | 0 <= i < |params| :: WellFormed(params[i]) && types[i] == Text(params[i])
    ensures pkg in AllRefs(types) <==> exists i :: 0 <= i < |params| && pkg in Visible(params[i])
  {
    if params != [] {
      var n := |params| - 1;
      CollectedPackagesAreTheVisibleOnes(params[..n], types[..n], pkg);
      ReaderAgreesWithPrinter(params[n]);
      assert forall i | 0 <= i < n :: params[..n][i] == params[i];
    }
  }

  // ---------------------------------------------------------------- printing loses nothing

  const INTERFACE := "interface{}"

  /** A type that can be told from its text: nothing variadic or unsupported, and no name
      that reads like the empty interface. */
  predicate Printable(t: TypeExpr) {
    match t
    case Ident(name) => IsIdent(name) && name != INTERFACE
    case Selector(pkg, name) => IsIdent(pkg) && IsIdent(name)
    case Star(x) => Printable(x)
    case Array(elt) => Printable(elt)
    case Map(key, value) => Printable(key) && Printable(value)
    case Interface => true
    case Ellipsis(_) => false
    case Other(_) => false
  }

  /** The type that a text denotes. */
  function Denoted(s: string): TypeExpr
    decreases |s|
  {
    if "*" <= s then Star(Denoted(s[1..]))
    else if "[]" <= s then Array(Denoted(s[2..]))
    else if "map[" <= s then Map(Denoted(MapParts(s).0), Denoted(MapParts(s).1))
    else if s == INTERFACE then Interface
    else Leaf(s)
  }

  lemma PrintableIsWellFormed(t: TypeExpr)
    requires Printable(t)
    ensures WellFormed(t)
  {
  }

  lemma LeafHasNoPrefix(s: string)
    requires NoBrackets(s)
    ensures !("*" <= s) && !("[]" <= s) && !("map[" <= s)
  {
    assert "*"[0] == '*' && "[]"[0] == '[' && "map["[3] == '[';
    if "*" <= s { PrefixHasNoBrackets("*", s); }
    if "[]" <= s { PrefixHasNoBrackets("[]", s); }
    if "map[" <= s { PrefixHasNoBrackets("map[", s); }
  }

  function Leaf(s: string): TypeExpr {
    var i := Find(s, ".");
    if i >= 0 then Selector(s[..i], s[i + 1..]) else Ident(s)
  }

  lemma LeafIsDenoted(s: string)
    requires NoBrackets(s)
    ensures Denoted(s) == if s == INTERFACE then Interface else Leaf(s)
  {
    LeafHasNoPrefix(s);
  }

  lemma NoDotInInterface(i: nat)
    requires i < |INTERFACE|
    ensures INTERFACE[i] != '.'
  {
  }

  lemma SelectorLeaf(pkg: string, name: string)
    requires IsIdent(pkg) && IsIdent(name)
    ensures var s := pkg + ("." + name); Leaf(s) == Selector(pkg, name) && s[|pkg|] == '.' && NoBrackets(s)
  {
    FirstDot(pkg, name);
    var s := pkg + ("." + name);
    assert s[..|pkg|] == pkg && s[|pkg| + 1..] == name;
  }

  lemma SelectorIsDenoted(pkg: string, name: string)
    requires IsIdent(pkg) && IsIdent(name)
    ensures Denoted(pkg + "." + name) == Selector(pkg, name)
  {
    var s := pkg + ("." + name);
    SelectorLeaf(pkg, name);
    if s == INTERFACE { NoDotInInterface(|pkg|); }
    LeafIsDenoted(s);
    assert s == pkg + "." + name;
  }

  lemma StarIsDenoted(x: string)
    ensures Denoted("*" + x) == Star(Denoted(x))
  {
    assert ("*" + x)[1..] == x;
  }

  lemma ArrayIsDenoted(x: string)
    ensures Denoted("[]" + x) == Array(Denoted(x))
  {
    var s := "[]" + x;
    assert s[0] == '[' && s[2..] == x && !("*" <= s);
  }

  lemma MapIsDenoted(k: string, v: string)
    requires v != "" && Balanced(k)
    ensures Denoted("map[" + (k + ("]" + v))) == Map(Denoted(k), Denoted(v))
  {
    var s := "map[" + (k + ("]" + v));
    MapPartsOfMap(k, v);
    assert s[0] == 'm' && !("*" <= s) && !("[]" <= s);
  }

  /** Main result for the printer: the text of a type denotes that very type, the key and
      the value of a map in their places. */
  lemma {:induction false} TextDenotesTheType(t: TypeExpr)
    requires Printable(t)
    ensures Denoted(Text(t)) == t
    decreases t
  {
    match t
    case Ident(name) =>
      NoDot(name);
      LeafIsDenoted(name);
    case Selector(pkg, name) => SelectorIsDenoted(pkg, name);
    case Star(x) =>
      TextDenotesTheType(x);
      StarIsDenoted(Text(x));
    case Array(elt) =>
      TextDenotesTheType(elt);
      ArrayIsDenoted(Text(elt));
    case Map(key, value) =>
      TextDenotesTheType(key);
      TextDenotesTheType(value);
      PrintedMapIsDenoted(key, value);
    case Interface => LeafIsDenoted(INTERFACE);
  }

  lemma PrintedMapIsDenoted(key: TypeExpr, value: TypeExpr)
    requires Printable(key) && Printable(value)
    ensures Denoted(Text(Map(key, value))) == Map(Denoted(Text(key)), Denoted(Text(value)))
  {
    PrintableIsWellFormed(key);
    PrintableIsWellFormed(value);
    TextIsBalanced(key);
    TextIsNotEmpty(value);
    MapIsDenoted(Text(key), Text(value));
  }
}
