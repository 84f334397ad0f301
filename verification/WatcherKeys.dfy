/** The string keys that tie watchers, watch loops and coalesced events together
    (app_watchermgr.go, app_watchers.go, eventcoalescer.go). */
module WatcherKeys {

  /** What a watcher watches: a built-in resource type, or a custom resource by
      group, version and plural name. */
  datatype Kind = Builtin(resourceType: string) | Custom(group: string, version: string, resource: string)

  /** The resource type string that events of this kind carry. */
  function TypeName(k: Kind): string {
    match k
    case Builtin(t) => t
    case Custom(g, v, r) => "crd:" + g + "/" + v + "/" + r
  }

  /** The key built by Subscribe and by SubscribeCRD. */
  function ManagerKey(k: Kind, namespace: string): string {
    match k
    case Builtin(t) => t + ":" + namespace
    case Custom(g, v, r) => "crd:" + g + "/" + v + "/" + r + ":" + namespace
  }

  /** The key each watch loop derives again from its own parameters. */
  function LoopKey(k: Kind, namespace: string): string {
    TypeName(k) + ":" + namespace
  }

  function EventKey(resourceType: string, namespace: string, name: string): string {
    resourceType + ":" + namespace + ":" + name
  }

  predicate Plain(s: string) {
    ':' !in s && '/' !in s
  }

  predicate Usual(k: Kind) {
    match k
    case Builtin(t) => Plain(t)
    case Custom(g, v, r) => Plain(g) && Plain(v) && Plain(r)
  }

  lemma LoopKeyIsManagerKey(k: Kind, namespace: string)
    ensures LoopKey(k, namespace) == ManagerKey(k, namespace)
  {
  }

  /** A separator that the left part does not contain splits in one way only. */
  lemma SplitAt(c: char, a: string, b: string, a': string, b': string)
    requires c !in a && c !in a' && a + [c] + b == a' + [c] + b'
    ensures a == a' && b == b'
  {
    var s := a + [c] + b;
    assert s[|a|] == c && s == a' + [c] + b' && s[|a'|] == c;
    assert forall i | 0 <= i < |a| :: s[i] == a[i] != c;
    assert forall i | 0 <= i < |a'| :: s[i] == a'[i] != c;
    assert a == s[..|a|] && a' == s[..|a|];
    assert b == s[|a| + 1..] && b' == s[|a| + 1..];
  }

  function Gvr(g: string, v: string, r: string): string {
    g + "/" + v + "/" + r
  }

  lemma GvrInjective(g: string, v: string, r: string, g': string, v': string, r': string)
    requires Plain(g) && Plain(v) && Plain(g') && Plain(v')
    requires Gvr(g, v, r) == Gvr(g', v', r')
    ensures g == g' && v == v' && r == r'
  {
    assert Gvr(g, v, r) == g + ['/'] + (v + ['/'] + r);
    assert Gvr(g', v', r') == g' + ['/'] + (v' + ['/'] + r');
    SplitAt('/', g, v + ['/'] + r, g', v' + ['/'] + r');
    SplitAt('/', v, r, v', r');
  }

  /** A type name followed by ':' and a rest whose part up to the next ':' has no
      '/' determines the kind, although custom type names contain ':' themselves. */
  lemma TypeThenRest(k: Kind, ns: string, tail: string, k': Kind, ns': string, tail': string)
    requires Usual(k) && Usual(k') && Plain(ns) && Plain(ns')
    requires TypeName(k) + [':'] + (ns + [':'] + tail) == TypeName(k') + [':'] + (ns' + [':'] + tail')
    ensures k == k' && ns == ns' && tail == tail'
  {
    var rest, rest' := ns + [':'] + tail, ns' + [':'] + tail';
    if k.Builtin? && k'.Builtin? {
      SplitAt(':', k.resourceType, rest, k'.resourceType, rest');
    } else if k.Custom? && k'.Custom? {
      var t, t' := Gvr(k.group, k.version, k.resource), Gvr(k'.group, k'.version, k'.resource);
      CustomShape(k, rest);
      CustomShape(k', rest');
      SplitAt(':', "crd", t + [':'] + rest, "crd", t' + [':'] + rest');
      SplitAt(':', t, rest, t', rest');
      GvrInjective(k.group, k.version, k.resource, k'.group, k'.version, k'.resource);
    } else if k.Builtin? {
      BuiltinIsNotCustom(k, ns, tail, k', rest');
    } else {
      BuiltinIsNotCustom(k', ns', tail', k, rest);
    }
    SplitAt(':', ns, tail, ns', tail');
  }

  lemma CustomShape(k: Kind, rest: string)
    requires k.Custom?
    ensures TypeName(k) + [':'] + rest == "crd" + [':'] + (Gvr(k.group, k.version, k.resource) + [':'] + rest)
    ensures Usual(k) ==> ':' !in Gvr(k.group, k.version, k.resource)
    ensures '/' in Gvr(k.group, k.version, k.resource)
  {
    assert "crd:" == "crd" + [':'];
    assert Gvr(k.group, k.version, k.resource)[|k.group|] == '/';
  }

  lemma BuiltinIsNotCustom(b: Kind, ns: string, tail: string, c: Kind, rest: string)
    requires b.Builtin? && c.Custom? && Usual(b) && Usual(c) && Plain(ns)
    ensures TypeName(b) + [':'] + (ns + [':'] + tail) != TypeName(c) + [':'] + rest
  {
    var t := Gvr(c.group, c.version, c.resource);
    CustomShape(c, rest);
    if b.resourceType + [':'] + (ns + [':'] + tail) == "crd" + [':'] + (t + [':'] + rest) {
      SplitAt(':', b.resourceType, ns + [':'] + tail, "crd", t + [':'] + rest);
      FirstDiffers(':', ns, tail, t, rest);
    }
  }

  /** The contrapositive of SplitAt. */
  lemma FirstDiffers(c: char, a: string, b: string, a': string, b': string)
    requires c !in a && c !in a' && a != a'
    ensures a + [c] + b != a' + [c] + b'
  {
    if a + [c] + b == a' + [c] + b' {
      SplitAt(c, a, b, a', b');
    }
  }

  lemma EventKeyShape(t: string, ns: string, name: string)
    ensures EventKey(t, ns, name) == t + [':'] + (ns + [':'] + name)
  {
    assert ":" == [':'];
  }

  lemma LoopKeyShape(k: Kind, ns: string)
    ensures LoopKey(k, ns) + [':'] == TypeName(k) + [':'] + (ns + [':'] + "")
  {
    assert ns + [':'] + "" == ns + [':'];
  }

  /** Events are coalesced only when they concern the same resource, even though
      resource names may contain ':' and custom type names always do. */
  lemma EventKeyInjective(k: Kind, ns: string, name: string, k': Kind, ns': string, name': string)
    requires Usual(k) && Usual(k') && Plain(ns) && Plain(ns')
    requires EventKey(TypeName(k), ns, name) == EventKey(TypeName(k'), ns', name')
    ensures k == k' && ns == ns' && name == name'
  {
    EventKeyShape(TypeName(k), ns, name);
    EventKeyShape(TypeName(k'), ns', name');
    TypeThenRest(k, ns, name, k', ns', name');
  }

  /** Two subscriptions share a watcher only when they watch the same thing. */
  lemma ManagerKeyInjective(k: Kind, ns: string, k': Kind, ns': string)
    requires Usual(k) && Usual(k') && Plain(ns) && Plain(ns')
    requires ManagerKey(k, ns) == ManagerKey(k', ns')
    ensures k == k' && ns == ns'
  {
    LoopKeyIsManagerKey(k, ns);
    LoopKeyIsManagerKey(k', ns');
    LoopKeyShape(k, ns);
    LoopKeyShape(k', ns');
    TypeThenRest(k, ns, "", k', ns', "");
  }

  /** The namespace condition is needed: with ':' in a namespace, events of two
      different resources share a key; with '/' and ':' a built-in watcher can
      take the key of a custom one. */
  lemma KeysCollideOutsideTheConditions()
    ensures EventKey("pods", "a:b", "c") == EventKey("pods", "a", "b:c")
    ensures ManagerKey(Builtin("crd"), "g/v/r:ns") == ManagerKey(Custom("g", "v", "r"), "ns")
  {
    assert "a:b" == "a" + ":" + "b" && "b:c" == "b" + ":" + "c";
    assert "g/v/r:ns" == "g" + "/" + "v" + "/" + "r" + ":" + "ns" && "crd:" == "crd" + ":";
  }
}
