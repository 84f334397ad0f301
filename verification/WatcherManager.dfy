/** Model of app_watchermgr.go: reference-counted watchers, delayed cleanup,
    stop and restart, with cleanup callbacks that may run late. */
module WatcherManager {
  import opened Common
  import opened GoTimers
  import WatcherKeys

  // ---------------------------------------------------------------- data model

  datatype Watcher = Watcher(refCount: int, context: nat, cleanupTimer: Option<nat>, resourceVersion: string,
    isCRD: bool)

  datatype Access = Sub | Unsub

  /** `running` maps every loop context that has not been cancelled to the key of
      the loop that was started with it.  `created` and `cleaned` are the
      performance counters; `stopped` counts the watchers removed by StopAll.
      `since` records the accesses to each key since its watcher was created. */
  datatype State = State(
    watchers: map<string, Watcher>,
    running: map<nat, string>,
    nextContext: nat,
    timers: Timers<string>,
    created: nat,
    cleaned: nat,
    stopped: nat,
    since: map<string, seq<Access>>)

  /** Besides the manager's own operations: timers expire, and loops note the version
      they have seen, also a loop that a restart has already cancelled. */
  datatype Step =
    | Subscribe(key: string, isCRD: bool)
    | Unsubscribe(key: string)
    | Expire(id: nat)
    | Cleanup(id: nat)
    | StopAll
    | RestartAll(renewed: map<string, nat>, next: nat)
    | SetVersion(key: string, version: string)

  function Init(): State {
    State(map[], map[], 0, NoTimers(), 0, 0, 0, map[])
  }

  // ---------------------------------------------------------------- atomic steps

  function Accessed(s: State, key: string, a: Access): map<string, seq<Access>> {
    s.since[key := (if key in s.watchers && key in s.since then s.since[key] else []) + [a]]
  }

  function SubscribeStep(s: State, key: string, isCRD: bool): State {
    if key in s.watchers then
      var w := s.watchers[key];
      s.(watchers := s.watchers[key := w.(refCount := w.refCount + 1, cleanupTimer := None)],
         timers := s.timers.Stop(w.cleanupTimer),
         since := Accessed(s, key, Sub))
    else
      s.(watchers := s.watchers[key := Watcher(1, s.nextContext, None, "", isCRD)],
         running := s.running[s.nextContext := key],
         nextContext := s.nextContext + 1,
         created := s.created + 1,
         since := Accessed(s, key, Sub))
  }

  function UnsubscribeStep(s: State, key: string): State {
    if key !in s.watchers then s
    else
      var w := s.watchers[key];
      var w' := w.(refCount := w.refCount - 1);
      if w'.refCount <= 0 then
        s.(watchers := s.watchers[key := w'.(cleanupTimer := Some(s.timers.next))],
           timers := s.timers.AfterFunc(key),
           since := Accessed(s, key, Unsub))
      else
        s.(watchers := s.watchers[key := w'], since := Accessed(s, key, Unsub))
  }

  function CleanupStep(s: State, id: nat): State
    requires id in s.timers.due
  {
    var key := s.timers.due[id];
    var s' := s.(timers := s.timers.Begin(id));
    if key in s.watchers && s.watchers[key].refCount <= 0 then
      s'.(watchers := s.watchers - {key}, running := s.running - {s.watchers[key].context}, cleaned := s.cleaned + 1)
    else s'
  }

  function Contexts(ws: map<string, Watcher>, keys: set<string>): set<nat> {
    set k | k in keys && k in ws :: ws[k].context
  }

  function CleanupHandles(ws: map<string, Watcher>, keys: set<string>): set<nat> {
    set k | k in keys && k in ws && ws[k].cleanupTimer.Some? :: ws[k].cleanupTimer.value
  }

  function StopEach(t: Timers<string>, handles: set<nat>): Timers<string> {
    t.(armed := t.armed - handles)
  }

  /** The loops and cleanup timers of the watchers in `gone` are stopped. */
  function StopWatchers(s: State, gone: set<string>): State {
    s.(running := s.running - Contexts(s.watchers, gone),
       timers := StopEach(s.timers, CleanupHandles(s.watchers, gone)))
  }

  function StopAllStep(s: State): State {
    StopWatchers(s, s.watchers.Keys).(watchers := map[], stopped := s.stopped + |s.watchers|)
  }

  /** The watchers RestartAll reconnects: those somebody is subscribed to. */
  function InUse(ws: map<string, Watcher>): set<string> {
    set k | k in ws && ws[k].refCount > 0
  }

  /** `renewed` gives some watchers a new context, no two the same. */
  ghost predicate NewContexts(s: State, renewed: map<string, nat>, next: nat) {
    && renewed.Keys <= s.watchers.Keys
    && (forall k | k in renewed :: s.nextContext <= renewed[k] < next)
    && (forall k, k' | k in renewed && k' in renewed && k != k' :: renewed[k] != renewed[k'])
    && s.nextContext <= next
  }

  function Reconnect(ws: map<string, Watcher>, renewed: map<string, nat>): map<string, Watcher> {
    map k | k in ws :: if k in renewed then ws[k].(context := renewed[k], resourceVersion := "") else ws[k]
  }

  ghost function RestartStep(s: State, renewed: map<string, nat>, next: nat): State {
    s.(watchers := Reconnect(s.watchers, renewed),
       running := (s.running - Contexts(s.watchers, renewed.Keys)) + Inverse(renewed),
       nextContext := next)
  }

  ghost function Inverse(renewed: map<string, nat>): map<nat, string> {
    map c | c in renewed.Values :: (var k :| k in renewed && renewed[k] == c; k)
  }

  /** A loop of the key notes the version it has seen, or forgets it. */
  function SetVersionStep(s: State, key: string, version: string): State
    requires key in s.watchers
  {
    s.(watchers := s.watchers[key := s.watchers[key].(resourceVersion := version)])
  }

  ghost predicate Enabled(s: State, step: Step) {
    match step
    case Expire(id) => id in s.timers.armed
    case Cleanup(id) => id in s.timers.due
    case RestartAll(renewed, next) => NewContexts(s, renewed, next) && renewed.Keys == InUse(s.watchers)
    case SetVersion(key, _) => key in s.watchers
    case _ => true
  }

  ghost function Next(s: State, step: Step): State
    requires Enabled(s, step)
  {
    match step
    case Subscribe(key, isCRD) => SubscribeStep(s, key, isCRD)
    case Unsubscribe(key) => UnsubscribeStep(s, key)
    case Expire(id) => s.(timers := s.timers.Expire(id))
    case Cleanup(id) => CleanupStep(s, id)
    case StopAll => StopAllStep(s)
    case RestartAll(renewed, next) => RestartStep(s, renewed, next)
    case SetVersion(key, version) => SetVersionStep(s, key, version)
  }

  /** A version is kept for its watcher alone. */
  lemma VersionIsKept(s: State, key: string, version: string)
    requires key in s.watchers
    ensures var s' := Next(s, SetVersion(key, version));
      && s' == s.(watchers := s'.watchers) && s'.watchers.Keys == s.watchers.Keys
      && s'.watchers[key] == s.watchers[key].(resourceVersion := version)
      && forall other | other in s.watchers && other != key :: s'.watchers[other] == s.watchers[other]
  {
  }

  ghost predicate Feasible(s: State, steps: seq<Step>)
    decreases |steps|
  {
    steps == [] || (Enabled(s, steps[0]) && Feasible(Next(s, steps[0]), steps[1..]))
  }

  ghost function Exec(s: State, steps: seq<Step>): State
    requires Feasible(s, steps)
    decreases |steps|
  {
    if steps == [] then s else Exec(Next(s, steps[0]), steps[1..])
  }

  // ---------------------------------------------------------------- who owns which loop

  /** Watchers and uncancelled contexts correspond one to one: a watcher's context
      is uncancelled and drives the loop of that very key, and every uncancelled
      context is the context of the watcher of its loop's key. */
  ghost predicate Owned(s: State) {
    && (forall k | k in s.watchers :: s.watchers[k].context in s.running && s.running[s.watchers[k].context] == k)
    && (forall c | c in s.running :: s.running[c] in s.watchers && s.watchers[s.running[c]].context == c)
    && (forall c | c in s.running :: c < s.nextContext)
  }

  lemma SubscribeKeepsOwned(s: State, key: string, isCRD: bool)
    requires Owned(s)
    ensures Owned(SubscribeStep(s, key, isCRD))
  {
  }

  lemma CleanupKeepsOwned(s: State, id: nat)
    requires Owned(s) && id in s.timers.due
    ensures Owned(CleanupStep(s, id))
  {
  }

  lemma NextKeepsOwned(s: State, step: Step)
    requires Owned(s) && Enabled(s, step)
    ensures Owned(Next(s, step))
  {
    match step
    case Subscribe(key, isCRD) => SubscribeKeepsOwned(s, key, isCRD);
    case Cleanup(id) => CleanupKeepsOwned(s, id);
    case RestartAll(renewed, next) => RestartKeepsOwned(s, renewed, next);
    case StopAll => StopAllKeepsOwned(s);
    case _ =>
  }

  lemma StopAllKeepsOwned(s: State)
    requires Owned(s)
    ensures Owned(StopAllStep(s)) && StopAllStep(s).running == map[]
  {
    assert forall k | k in s.watchers :: s.watchers[k].context in Contexts(s.watchers, s.watchers.Keys);
    assert forall c | c in s.running :: c in Contexts(s.watchers, s.watchers.Keys);
  }

  lemma RestartedWatcherOwns(s: State, renewed: map<string, nat>, next: nat, k: string)
    requires Owned(s) && NewContexts(s, renewed, next) && k in s.watchers
    ensures var s' := RestartStep(s, renewed, next);
      s'.watchers[k].context in s'.running && s'.running[s'.watchers[k].context] == k
  {
    var cancelled := Contexts(s.watchers, renewed.Keys);
    if k in renewed {
      assert renewed[k] in renewed.Values;
    } else {
      assert s.watchers[k].context !in cancelled;
      assert s.watchers[k].context !in renewed.Values;
    }
  }

  lemma RestartedContextIsOwned(s: State, renewed: map<string, nat>, next: nat, c: nat)
    requires Owned(s) && NewContexts(s, renewed, next) && c in RestartStep(s, renewed, next).running
    ensures var s' := RestartStep(s, renewed, next);
      s'.running[c] in s'.watchers && s'.watchers[s'.running[c]].context == c && c < s'.nextContext
  {
    var s' := RestartStep(s, renewed, next);
    assert forall k | k in renewed :: s.watchers[k].context in Contexts(s.watchers, renewed.Keys);
    if c in renewed.Values {
      assert s'.running[c] in renewed && renewed[s'.running[c]] == c;
    } else {
      assert s'.running[c] == s.running[c];
    }
  }

  lemma RestartKeepsOwned(s: State, renewed: map<string, nat>, next: nat)
    requires Owned(s) && NewContexts(s, renewed, next)
    ensures Owned(RestartStep(s, renewed, next))
  {
    var s' := RestartStep(s, renewed, next);
    forall k | k in s'.watchers
      ensures s'.watchers[k].context in s'.running && s'.running[s'.watchers[k].context] == k
    {
      RestartedWatcherOwns(s, renewed, next, k);
    }
    forall c | c in s'.running
      ensures s'.running[c] in s'.watchers && s'.watchers[s'.running[c]].context == c && c < s'.nextContext
    {
      RestartedContextIsOwned(s, renewed, next, c);
    }
  }

  /** A restart gives every watcher in use a fresh loop without a version, cancels the
      loop it had, and leaves unused watchers as they are. */
  lemma RestartRenewsUsedWatchers(s: State, renewed: map<string, nat>, next: nat)
    requires Owned(s) && Enabled(s, RestartAll(renewed, next))
    ensures var s' := Next(s, RestartAll(renewed, next));
      && s'.watchers.Keys == s.watchers.Keys
      && forall k | k in s.watchers :: var w, w' := s.watchers[k], s'.watchers[k];
           if w.refCount > 0
           then w' == w.(context := w'.context, resourceVersion := "") && w'.context !in s.running
             && w.context !in s'.running
           else w' == w
  {
    var s' := Next(s, RestartAll(renewed, next));
    var cancelled := Contexts(s.watchers, renewed.Keys);
    forall k | k in renewed ensures s.watchers[k].context !in s'.running && renewed[k] !in s.running {
      assert s.watchers[k].context in cancelled;
      assert s.watchers[k].context !in renewed.Values;
    }
  }

  // ---------------------------------------------------------------- reference counts

  /** Subscribes minus unsubscribes. */
  function Balance(accesses: seq<Access>): int
    decreases |accesses|
  {
    if accesses == [] then 0
    else Balance(accesses[..|accesses| - 1]) + if accesses[|accesses| - 1].Sub? then 1 else -1
  }

  ghost predicate IsCounted(s: State, key: string)
    requires key in s.watchers
  {
    key in s.since && s.watchers[key].refCount == Balance(s.since[key])
  }

  ghost predicate Counted(s: State) {
    forall k | k in s.watchers :: IsCounted(s, k)
  }

  lemma OneMoreAccess(accesses: seq<Access>, a: Access)
    ensures Balance(accesses + [a]) == Balance(accesses) + if a.Sub? then 1 else -1
  {
    assert (accesses + [a])[..|accesses|] == accesses;
  }

  lemma SubscribeCounts(s: State, key: string, isCRD: bool)
    requires key in s.watchers ==> IsCounted(s, key)
    ensures IsCounted(SubscribeStep(s, key, isCRD), key)
  {
    OneMoreAccess(if key in s.watchers then s.since[key] else [], Sub);
  }

  lemma SubscribeKeepsCounted(s: State, key: string, isCRD: bool)
    requires Counted(s)
    ensures Counted(SubscribeStep(s, key, isCRD))
  {
    var s' := SubscribeStep(s, key, isCRD);
    SubscribeCounts(s, key, isCRD);
    forall k | k in s'.watchers ensures IsCounted(s', k) {
      if k != key { assert IsCounted(s, k) && s'.watchers[k] == s.watchers[k] && s'.since[k] == s.since[k]; }
    }
  }

  lemma UnsubscribeKeepsCounted(s: State, key: string)
    requires Counted(s)
    ensures Counted(UnsubscribeStep(s, key))
  {
    if key in s.watchers { OneMoreAccess(s.since[key], Unsub); }
  }

  lemma NextKeepsCounted(s: State, step: Step)
    requires Counted(s) && Enabled(s, step)
    ensures Counted(Next(s, step))
  {
    match step
    case Subscribe(key, isCRD) => SubscribeKeepsCounted(s, key, isCRD);
    case Unsubscribe(key) => UnsubscribeKeepsCounted(s, key);
    case _ =>
  }

  // ---------------------------------------------------------------- what each call does

  ghost predicate OthersStay(s: State, s': State, key: string) {
    forall k | k != key ::
      (k in s'.watchers <==> k in s.watchers) && (k in s.watchers ==> s'.watchers[k] == s.watchers[k])
  }

  /** A subscribe to a watched key adds one to its count, keeps its loop and its version,
      and stops the cleanup it remembers; to another key it makes a watcher with a loop of
      its own and no version. */
  lemma SubscribeWatches(s: State, key: string, isCRD: bool)
    ensures var s' := Next(s, Subscribe(key, isCRD));
      && key in s'.watchers && s'.watchers[key].cleanupTimer == None && OthersStay(s, s', key)
      && (key in s.watchers ==>
            && s'.watchers[key] == s.watchers[key].(refCount := s.watchers[key].refCount + 1, cleanupTimer := None)
            && s'.running == s.running && s'.timers.due == s.timers.due
            && (s.watchers[key].cleanupTimer.Some? ==> s.watchers[key].cleanupTimer.value !in s'.timers.armed))
      && (key !in s.watchers ==>
            && s'.watchers[key].refCount == 1 && s'.watchers[key].resourceVersion == ""
            && s'.watchers[key].isCRD == isCRD && s'.timers == s.timers
            && s'.watchers[key].context == s.nextContext && s'.running == s.running[s.nextContext := key])
  {
  }

  /** An unsubscribe takes one from the count; at zero or below it arms a cleanup of the
      key and remembers it. */
  lemma UnsubscribeArmsTheCleanup(s: State, key: string)
    requires key in s.watchers
    ensures var s', w := Next(s, Unsubscribe(key)), s.watchers[key];
      && key in s'.watchers && OthersStay(s, s', key) && s'.running == s.running && s'.timers.due == s.timers.due
      && (w.refCount > 1 ==> s'.watchers[key] == w.(refCount := w.refCount - 1) && s'.timers == s.timers)
      && (w.refCount <= 1 ==>
            && s'.watchers[key] == w.(refCount := w.refCount - 1, cleanupTimer := Some(s.timers.next))
            && s'.timers.armed == s.timers.armed[s.timers.next := key])
  {
  }

  /** So a subscribe right after it leaves that cleanup stopped. */
  lemma ResubscribeStopsTheCleanup(s: State, key: string, isCRD: bool)
    requires key in s.watchers && s.watchers[key].refCount <= 1
    ensures var s1 := Next(s, Unsubscribe(key));
      s.timers.next in s1.timers.armed && s.timers.next !in Next(s1, Subscribe(key, isCRD)).timers.armed
  {
    UnsubscribeArmsTheCleanup(s, key);
    SubscribeWatches(Next(s, Unsubscribe(key)), key, isCRD);
  }

  /** StopAll leaves no watcher, no loop, and no cleanup that a watcher remembered. */
  lemma StopAllStopsEverything(s: State)
    requires Owned(s)
    ensures var s' := Next(s, StopAll);
      && s'.watchers == map[] && s'.running == map[] && s'.timers.due == s.timers.due
      && forall k | k in s.watchers && s.watchers[k].cleanupTimer.Some? ::
           s.watchers[k].cleanupTimer.value !in s'.timers.armed
  {
    var s' := Next(s, StopAll);
    assert forall c | c in s.running :: c == s.watchers[s.running[c]].context;
    forall c | c in s.running ensures c in Contexts(s.watchers, s.watchers.Keys) {
      assert s.running[c] in s.watchers.Keys;
    }
    assert s'.running == map[];
    forall k | k in s.watchers && s.watchers[k].cleanupTimer.Some?
      ensures s.watchers[k].cleanupTimer.value in CleanupHandles(s.watchers, s.watchers.Keys)
    {
      assert k in s.watchers.Keys;
    }
  }

  /** `created` counts the subscribes that made a watcher, `cleaned` the cleanups that
      removed one. */
  lemma CountersCountThat(s: State, step: Step)
    requires Enabled(s, step)
    ensures Next(s, step).created
      == s.created + if step.Subscribe? && step.key !in s.watchers then 1 else 0
    ensures Next(s, step).cleaned
      == s.cleaned + if step.Cleanup? && Next(s, step).watchers != s.watchers then 1 else 0
  {
    if step.Cleanup? {
      var key := s.timers.due[step.id];
      if key in s.watchers && s.watchers[key].refCount <= 0 { assert key !in Next(s, step).watchers; }
    }
  }

  // ---------------------------------------------------------------- counters

  ghost predicate Accounted(s: State) {
    s.created == |s.watchers| + s.cleaned + s.stopped
  }

  lemma NextKeepsAccounted(s: State, step: Step)
    requires Accounted(s) && Enabled(s, step)
    ensures Accounted(Next(s, step))
  {
    match step
    case Subscribe(key, isCRD) => SubscribeKeepsAccounted(s, key, isCRD);
    case Unsubscribe(key) => UnsubscribeKeepsKeys(s, key);
    case Expire(_) =>
    case Cleanup(id) => CleanupKeepsAccounted(s, id);
    case StopAll => StopAllKeepsAccounted(s);
    case RestartAll(renewed, next) => RestartKeepsAccounted(s, renewed, next);
    case SetVersion(key, version) => SameKeysSameSize(SetVersionStep(s, key, version).watchers, s.watchers);
  }

  lemma SameKeysSameSize<V, W>(a: map<string, V>, b: map<string, W>)
    requires a.Keys == b.Keys
    ensures |a| == |b|
  {
    assert |a| == |a.Keys| && |b| == |b.Keys|;
  }

  lemma SubscribeKeepsAccounted(s: State, key: string, isCRD: bool)
    requires Accounted(s)
    ensures Accounted(SubscribeStep(s, key, isCRD))
  {
    assert SubscribeStep(s, key, isCRD).watchers.Keys == s.watchers.Keys + {key};
  }

  lemma StopAllKeepsAccounted(s: State)
    requires Accounted(s)
    ensures Accounted(StopAllStep(s))
  {
    assert |StopAllStep(s).watchers| == 0;
  }

  lemma RestartKeepsAccounted(s: State, renewed: map<string, nat>, next: nat)
    requires Accounted(s)
    ensures Accounted(RestartStep(s, renewed, next))
  {
    SameKeysSameSize(Reconnect(s.watchers, renewed), s.watchers);
  }

  lemma UnsubscribeKeepsKeys(s: State, key: string)
    ensures UnsubscribeStep(s, key).watchers.Keys == s.watchers.Keys
  {
  }

  lemma CleanupKeepsAccounted(s: State, id: nat)
    requires Accounted(s) && id in s.timers.due
    ensures Accounted(CleanupStep(s, id))
  {
    assert (s.watchers - {s.timers.due[id]}).Keys == s.watchers.Keys - {s.timers.due[id]};
  }

  // ---------------------------------------------------------------- no watcher leaks

  /** The outstanding cleanup callbacks for `key`. */
  function CleanupsFor(t: Timers<string>, key: string): set<nat> {
    (set id | id in t.armed && t.armed[id] == key) + (set id | id in t.due && t.due[id] == key)
  }

  /** The handle a watcher remembers is that of one of its own cleanup timers. */
  ghost predicate Handles(s: State) {
    && s.timers.Valid()
    && forall k | k in s.watchers && s.watchers[k].cleanupTimer.Some? ::
        var id := s.watchers[k].cleanupTimer.value;
        id < s.timers.next && (id in s.timers.armed ==> s.timers.armed[id] == k)
  }

  lemma NextKeepsHandles(s: State, step: Step)
    requires Handles(s) && Enabled(s, step)
    ensures Handles(Next(s, step))
  {
    match step
    case Subscribe(key, isCRD) => SubscribeKeepsHandles(s, key, isCRD);
    case Unsubscribe(key) => UnsubscribeKeepsHandles(s, key);
    case _ =>
  }

  lemma SubscribeKeepsHandles(s: State, key: string, isCRD: bool)
    requires Handles(s)
    ensures Handles(SubscribeStep(s, key, isCRD))
  {
  }

  lemma UnsubscribeKeepsHandles(s: State, key: string)
    requires Handles(s)
    ensures Handles(UnsubscribeStep(s, key))
  {
  }

  /** A watcher that lost its last subscriber has a cleanup callback outstanding;
      each further unsubscribe adds one, because each arms a timer of its own. */
  ghost predicate WillBeCleaned(s: State) {
    forall k | k in s.watchers :: Enough(s.watchers[k].refCount, s.timers, k)
  }

  ghost predicate Enough(refCount: int, t: Timers<string>, key: string) {
    refCount <= 0 ==> |CleanupsFor(t, key)| >= 1 - refCount
  }

  lemma StopDropsOne(t: Timers<string>, handle: Option<nat>, key: string)
    requires t.Valid()
    ensures |CleanupsFor(t.Stop(handle), key)| >= |CleanupsFor(t, key)| - (if handle.Some? then 1 else 0)
  {
    if handle.Some? {
      var before, after := CleanupsFor(t, key), CleanupsFor(t.Stop(handle), key);
      assert before - {handle.value} <= after;
      SubsetSize(before - {handle.value}, after);
    }
  }

  lemma {:induction false} SubsetSize(a: set<nat>, b: set<nat>)
    requires a <= b
    ensures |a| <= |b|
  {
    if a != {} {
      var x :| x in a;
      SubsetSize(a - {x}, b - {x});
    }
  }

  lemma AfterFuncAddsOne(t: Timers<string>, key: string, k: string)
    requires t.Valid()
    ensures CleanupsFor(t.AfterFunc(key), k) == CleanupsFor(t, k) + (if k == key then {t.next} else {})
    ensures t.next !in CleanupsFor(t, k)
  {
  }

  lemma ExpireKeepsAll(t: Timers<string>, id: nat, k: string)
    requires t.Valid() && id in t.armed
    ensures CleanupsFor(t.Expire(id), k) == CleanupsFor(t, k)
  {
  }

  lemma BeginDropsOwn(t: Timers<string>, id: nat, k: string)
    requires t.Valid() && id in t.due
    ensures t.due[id] != k ==> CleanupsFor(t.Begin(id), k) == CleanupsFor(t, k)
  {
  }

  lemma StopSparesOthers(t: Timers<string>, handle: Option<nat>, key: string, k: string)
    requires t.Valid() && k != key
    requires handle.Some? && handle.value in t.armed ==> t.armed[handle.value] == key
    ensures CleanupsFor(t.Stop(handle), k) == CleanupsFor(t, k)
  {
  }

  lemma SubscribeKeepsEnough(s: State, key: string, isCRD: bool, k: string)
    requires Handles(s) && WillBeCleaned(s) && k in SubscribeStep(s, key, isCRD).watchers
    ensures var s' := SubscribeStep(s, key, isCRD); Enough(s'.watchers[k].refCount, s'.timers, k)
  {
    if key in s.watchers {
      var handle := s.watchers[key].cleanupTimer;
      if k == key {
        StopDropsOne(s.timers, handle, k);
      } else {
        StopSparesOthers(s.timers, handle, key, k);
      }
    }
  }

  lemma UnsubscribeKeepsEnough(s: State, key: string, k: string)
    requires Handles(s) && WillBeCleaned(s) && k in UnsubscribeStep(s, key).watchers
    ensures var s' := UnsubscribeStep(s, key); Enough(s'.watchers[k].refCount, s'.timers, k)
  {
    AfterFuncAddsOne(s.timers, key, k);
    assert Enough(s.watchers[k].refCount, s.timers, k);
  }

  lemma CleanupKeepsEnough(s: State, id: nat, k: string)
    requires Handles(s) && WillBeCleaned(s) && id in s.timers.due && k in CleanupStep(s, id).watchers
    ensures var s' := CleanupStep(s, id); Enough(s'.watchers[k].refCount, s'.timers, k)
  {
    BeginDropsOwn(s.timers, id, k);
    assert Enough(s.watchers[k].refCount, s.timers, k);
  }

  lemma NextKeepsWillBeCleaned(s: State, step: Step)
    requires Handles(s) && WillBeCleaned(s) && Enabled(s, step)
    ensures WillBeCleaned(Next(s, step))
  {
    var s' := Next(s, step);
    forall k | k in s'.watchers
      ensures Enough(s'.watchers[k].refCount, s'.timers, k)
    {
      match step
      case Subscribe(key, isCRD) => SubscribeKeepsEnough(s, key, isCRD, k);
      case Unsubscribe(key) => UnsubscribeKeepsEnough(s, key, k);
      case Expire(id) => ExpireKeepsAll(s.timers, id, k);
      case Cleanup(id) => CleanupKeepsEnough(s, id, k);
      case StopAll =>
      case RestartAll(_, _) => assert Enough(s.watchers[k].refCount, s.timers, k);
      case SetVersion(_, _) => assert Enough(s.watchers[k].refCount, s.timers, k);
    }
  }

  // ---------------------------------------------------------------- every run

  ghost predicate Invariant(s: State) {
    Owned(s) && Counted(s) && Accounted(s) && Handles(s) && WillBeCleaned(s)
  }

  lemma NextKeepsInvariant(s: State, step: Step)
    requires Invariant(s) && Enabled(s, step)
    ensures Invariant(Next(s, step))
  {
    NextKeepsOwned(s, step);
    NextKeepsCounted(s, step);
    NextKeepsAccounted(s, step);
    NextKeepsHandles(s, step);
    NextKeepsWillBeCleaned(s, step);
  }

  /** Main result: the correspondence of watchers and loops, the reference counts,
      the counters and the pending cleanups hold after every run, whatever the
      clients do and however late the cleanup callbacks run. */
  lemma {:induction false} EveryRunKeepsInvariant(s: State, steps: seq<Step>)
    requires Invariant(s) && Feasible(s, steps)
    ensures Invariant(Exec(s, steps))
    decreases |steps|
  {
    if steps != [] {
      NextKeepsInvariant(s, steps[0]);
      EveryRunKeepsInvariant(Next(s, steps[0]), steps[1..]);
    }
  }

  lemma InitInvariant()
    ensures Invariant(Init())
  {
  }

  /** So it holds in every state a new manager can come to. */
  lemma EveryRunFromTheStart(steps: seq<Step>)
    requires Feasible(Init(), steps)
    ensures Invariant(Exec(Init(), steps))
  {
    InitInvariant();
    EveryRunKeepsInvariant(Init(), steps);
  }

  function UnsubscribesOf(steps: seq<Step>, key: string): nat
    decreases |steps|
  {
    if steps == [] then 0 else (if steps[0] == Unsubscribe(key) then 1 else 0) + UnsubscribesOf(steps[1..], key)
  }

  lemma NextServes(s: State, step: Step, key: string, owed: nat)
    requires Enabled(s, step) && !step.StopAll?
    requires key in s.watchers && s.watchers[key].refCount > owed + (if step == Unsubscribe(key) then 1 else 0)
    ensures key in Next(s, step).watchers && Next(s, step).watchers[key].refCount > owed
  {
  }

  /** As long as fewer clients leave than are subscribed, and short of StopAll, no
      cleanup, restart or late callback takes the watcher or its loop away. */
  lemma {:induction false} SubscribersKeepTheirLoop(s: State, steps: seq<Step>, key: string)
    requires Invariant(s) && Feasible(s, steps)
    requires key in s.watchers && s.watchers[key].refCount > UnsubscribesOf(steps, key)
    requires forall step | step in steps :: !step.StopAll?
    ensures var s' := Exec(s, steps);
      && key in s'.watchers && s'.watchers[key].refCount > 0
      && s'.watchers[key].context in s'.running && s'.running[s'.watchers[key].context] == key
    decreases |steps|
  {
    if steps != [] {
      assert !steps[0].StopAll?;
      NextServes(s, steps[0], key, UnsubscribesOf(steps[1..], key));
      NextKeepsInvariant(s, steps[0]);
      SubscribersKeepTheirLoop(Next(s, steps[0]), steps[1..], key);
    }
  }

  lemma CleanupIsOutstanding(s: State, key: string)
    requires WillBeCleaned(s) && key in s.watchers && s.watchers[key].refCount <= 0
    ensures CleanupsFor(s.timers, key) != {}
  {
    assert Enough(s.watchers[key].refCount, s.timers, key);
  }

  lemma CleanupRemovesUnused(s: State, id: nat)
    requires Owned(s) && id in s.timers.due
    requires var key := s.timers.due[id]; key in s.watchers && s.watchers[key].refCount <= 0
    ensures Cleans(s, CleanupStep(s, id), s.timers.due[id])
  {
    var key := s.timers.due[id];
    assert forall c | c in s.running && s.running[c] == key :: c == s.watchers[key].context;
  }

  /** A watcher nobody is subscribed to has a callback on its way, and when one
      runs with still nobody subscribed it removes that watcher, cancels that loop
      and touches nothing else.  With a subscriber it changes nothing. */
  lemma UnusedWatcherIsCleaned(s: State, key: string)
    requires Owned(s) && WillBeCleaned(s) && key in s.watchers && s.watchers[key].refCount <= 0
    ensures CleanupsFor(s.timers, key) != {}
    ensures forall id | id in s.timers.due && s.timers.due[id] == key :: Cleans(s, Next(s, Cleanup(id)), key)
  {
    CleanupIsOutstanding(s, key);
    forall id | id in s.timers.due && s.timers.due[id] == key ensures Cleans(s, Next(s, Cleanup(id)), key) {
      CleanupRemovesUnused(s, id);
    }
  }

  ghost predicate Cleans(s: State, s': State, key: string)
    requires key in s.watchers
  {
    && s'.watchers == s.watchers - {key}
    && s'.running == s.running - {s.watchers[key].context}
    && (forall c | c in s'.running :: s'.running[c] != key)
  }

  /** The step is a cleanup that removes the key's watcher. */
  ghost predicate CleansUp(s: State, step: Step, key: string)
    requires Enabled(s, step)
  {
    step.Cleanup? && key in s.watchers && key !in Next(s, step).watchers
  }

  /** Along the run, cleanups remove the key's watcher through this timer only: not
      while it is armed, and so not before its delay has passed. */
  ghost predicate OnlyThrough(s: State, steps: seq<Step>, key: string, timer: nat)
    requires Feasible(s, steps)
    decreases |steps|
  {
    steps == [] ||
    ((CleansUp(s, steps[0], key) ==> steps[0].id == timer) && OnlyThrough(Next(s, steps[0]), steps[1..], key, timer))
  }

  /** No run without another unsubscribe of the key cuts the delay of this timer. */
  ghost predicate DelayIsKept(s: State, key: string, timer: nat) {
    forall steps: seq<Step> | Feasible(s, steps) && Unsubscribe(key) !in steps :: OnlyThrough(s, steps, key, timer)
  }

  lemma UnsubscribeAddsNoOther(s: State, other: string, key: string)
    requires s.timers.Valid() && other != key
    ensures UnsubscribeStep(s, other).timers.Valid()
    ensures CleanupsFor(UnsubscribeStep(s, other).timers, key) <= CleanupsFor(s.timers, key)
  {
  }

  lemma ExpireAddsNone(t: Timers<string>, id: nat, key: string)
    requires t.Valid() && id in t.armed
    ensures t.Expire(id).Valid() && CleanupsFor(t.Expire(id), key) <= CleanupsFor(t, key)
  {
  }

  lemma StoppingAddsNone(t: Timers<string>, handles: set<nat>, handle: Option<nat>, id: nat, key: string)
    requires t.Valid()
    ensures StopEach(t, handles).Valid() && CleanupsFor(StopEach(t, handles), key) <= CleanupsFor(t, key)
    ensures t.Stop(handle).Valid() && CleanupsFor(t.Stop(handle), key) <= CleanupsFor(t, key)
    ensures t.Begin(id).Valid() && CleanupsFor(t.Begin(id), key) <= CleanupsFor(t, key)
  {
  }

  lemma NextAddsNoCleanup(s: State, step: Step, key: string)
    requires s.timers.Valid() && Enabled(s, step) && step != Unsubscribe(key)
    ensures Next(s, step).timers.Valid()
    ensures CleanupsFor(Next(s, step).timers, key) <= CleanupsFor(s.timers, key)
  {
    match step
    case Subscribe(k, _) =>
      StoppingAddsNone(s.timers, {}, if k in s.watchers then s.watchers[k].cleanupTimer else None, 0, key);
    case Unsubscribe(other) => UnsubscribeAddsNoOther(s, other, key);
    case Expire(id) => ExpireAddsNone(s.timers, id, key);
    case Cleanup(id) => StoppingAddsNone(s.timers, {}, None, id, key);
    case StopAll => StoppingAddsNone(s.timers, CleanupHandles(s.watchers, s.watchers.Keys), None, 0, key);
    case _ =>
  }

  lemma {:induction false} OneCleanupOnly(s: State, steps: seq<Step>, key: string, timer: nat)
    requires s.timers.Valid() && CleanupsFor(s.timers, key) <= {timer}
    requires Feasible(s, steps) && Unsubscribe(key) !in steps
    ensures OnlyThrough(s, steps, key, timer)
    decreases |steps|
  {
    if steps != [] {
      var step := steps[0];
      assert step in steps;
      NextAddsNoCleanup(s, step, key);
      if CleansUp(s, step, key) {
        assert step.id in CleanupsFor(s.timers, key);
      }
      OneCleanupOnly(Next(s, step), steps[1..], key, timer);
    }
  }

  /** Another cleanup of an unused watcher that is outstanding can remove it. */
  lemma AnotherCleanupCuts(s: State, key: string, timer: nat, other: nat)
    requires s.timers.Valid() && key in s.watchers && s.watchers[key].refCount <= 0
    requires other in CleanupsFor(s.timers, key) && other != timer
    ensures !DelayIsKept(s, key, timer)
  {
    if other in s.timers.due {
      DueCleanupCuts(s, key, timer, other);
      assert Feasible(s, [Cleanup(other)]);
    } else {
      var s' := Next(s, Expire(other));
      DueCleanupCuts(s', key, timer, other);
      FirstStep(s, Expire(other), [Cleanup(other)]);
      assert ([Expire(other)] + [Cleanup(other)])[1..] == [Cleanup(other)];
      assert !OnlyThrough(s, [Expire(other)] + [Cleanup(other)], key, timer);
    }
  }

  lemma DueCleanupCuts(s: State, key: string, timer: nat, other: nat)
    requires key in s.watchers && s.watchers[key].refCount <= 0
    requires other in s.timers.due && s.timers.due[other] == key && other != timer
    ensures Feasible(s, [Cleanup(other)]) && !OnlyThrough(s, [Cleanup(other)], key, timer)
  {
    assert [Cleanup(other)][1..] == [];
    assert key !in Next(s, Cleanup(other)).watchers;
    assert CleansUp(s, Cleanup(other), key);
  }

  lemma FirstStep(s: State, step: Step, rest: seq<Step>)
    requires Enabled(s, step) && Feasible(Next(s, step), rest)
    ensures Feasible(s, [step] + rest) && Exec(s, [step] + rest) == Exec(Next(s, step), rest)
  {
    assert ([step] + rest)[1..] == rest;
  }

  /** Main result: the unsubscribe that leaves a watcher unused gives it its full
      delay in every later run, if and only if no cleanup of the key was outstanding
      before it. */
  lemma DelayIsKeptIff(s: State, key: string)
    requires s.timers.Valid() && key in s.watchers && s.watchers[key].refCount <= 1
    ensures DelayIsKept(Next(s, Unsubscribe(key)), key, s.timers.next) <==> CleanupsFor(s.timers, key) == {}
  {
    var s' := Next(s, Unsubscribe(key));
    assert CleanupsFor(s'.timers, key) == CleanupsFor(s.timers, key) + {s.timers.next};
    if CleanupsFor(s.timers, key) == {} {
      forall steps: seq<Step> | Feasible(s', steps) && Unsubscribe(key) !in steps
        ensures OnlyThrough(s', steps, key, s.timers.next)
      {
        OneCleanupOnly(s', steps, key, s.timers.next);
      }
    } else {
      var other :| other in CleanupsFor(s.timers, key);
      AnotherCleanupCuts(s', key, s.timers.next, other);
    }
  }

  /** It does happen: a callback that was already started when its timer was stopped
      removes the watcher although the timer armed by the latest unsubscribe has not
      expired. */
  lemma LateCallbackCutsTheDelay(key: string)
    ensures var steps := [Subscribe(key, false)] + ([Unsubscribe(key)] + ([Expire(0)] + ([Subscribe(key, false)]
        + ([Unsubscribe(key)] + ([Cleanup(0)] + [])))));
      && Feasible(Init(), steps)
      && key !in Exec(Init(), steps).watchers
      && 1 in Exec(Init(), steps).timers.armed && Exec(Init(), steps).timers.armed[1] == key
  {
    var s1 := Next(Init(), Subscribe(key, false));
    var s2 := Next(s1, Unsubscribe(key));
    var s3 := Next(s2, Expire(0));
    var s4 := Next(s3, Subscribe(key, false));
    var s5 := Next(s4, Unsubscribe(key));
    var s6 := Next(s5, Cleanup(0));
    assert s5.timers.armed == map[1 := key] && s5.timers.due == map[0 := key];
    assert key !in s6.watchers && s6.timers.armed == map[1 := key];
    FirstStep(s5, Cleanup(0), []);
    var r4 := [Cleanup(0)] + [];
    FirstStep(s4, Unsubscribe(key), r4);
    FirstStep(s3, Subscribe(key, false), [Unsubscribe(key)] + r4);
    var r2 := [Subscribe(key, false)] + ([Unsubscribe(key)] + r4);
    FirstStep(s2, Expire(0), r2);
    FirstStep(s1, Unsubscribe(key), [Expire(0)] + r2);
    FirstStep(Init(), Subscribe(key, false), [Unsubscribe(key)] + ([Expire(0)] + r2));
  }

  // ---------------------------------------------------------------- the code

  /** What is left of StopAll once the loops are stopped. */
  lemma StoppedLoops(s0: State, s1: State)
    requires s1 == StopWatchers(s0, s0.watchers.Keys)
    ensures s1.(watchers := map[], stopped := s1.stopped + |s1.watchers|) == Next(s0, Step.StopAll)
  {
  }

  class Manager {
    var watchers: map<string, Watcher>
    var running: map<nat, string>
    var nextContext: nat
    var timers: Timers<string>
    var totalCreated: nat
    var totalCleaned: nat
    ghost var stopped: nat
    ghost var since: map<string, seq<Access>>

    ghost function View(): State
      reads this
    {
      State(watchers, running, nextContext, timers, totalCreated, totalCleaned, stopped, since)
    }

    constructor ()
      ensures View() == Init()
    {
      watchers, running, nextContext, timers := map[], map[], 0, NoTimers();
      totalCreated, totalCleaned, stopped, since := 0, 0, 0, map[];
    }

    /** Subscribe and SubscribeCRD differ in the key they build and the loop they start. */
    method Subscribe(kind: WatcherKeys.Kind, namespace: string) returns (key: string)
      modifies this
      ensures key == WatcherKeys.ManagerKey(kind, namespace)
      ensures View() == Next(old(View()), Step.Subscribe(key, kind.Custom?))
    {
      key := WatcherKeys.ManagerKey(kind, namespace);
      since := Accessed(View(), key, Sub);
      if key in watchers {
        var w := watchers[key];
        if w.cleanupTimer.Some? {
          timers := timers.Stop(w.cleanupTimer);
          w := w.(cleanupTimer := None);
        }
        watchers := watchers[key := w.(refCount := w.refCount + 1)];
        return;
      }
      var context := nextContext;
      nextContext := nextContext + 1;
      watchers := watchers[key := Watcher(1, context, None, "", kind.Custom?)];
      totalCreated := totalCreated + 1;
      running := running[context := WatcherKeys.LoopKey(kind, namespace)];
      WatcherKeys.LoopKeyIsManagerKey(kind, namespace);
    }

    method Unsubscribe(key: string)
      modifies this
      ensures View() == Next(old(View()), Step.Unsubscribe(key))
    {
      if key !in watchers { return; }
      since := Accessed(View(), key, Unsub);
      var w := watchers[key];
      w := w.(refCount := w.refCount - 1);
      watchers := watchers[key := w];
      if w.refCount <= 0 {
        watchers := watchers[key := w.(cleanupTimer := Some(timers.next))];
        timers := timers.AfterFunc(key);
      }
    }

    /** The callback of cleanup timer `id` gets the lock. */
    method Cleanup(id: nat)
      requires id in timers.due
      modifies this
      ensures View() == Next(old(View()), Step.Cleanup(id))
    {
      var key := timers.due[id];
      timers := timers.Begin(id);
      if key !in watchers { return; }
      if watchers[key].refCount > 0 { return; }
      running := running - {watchers[key].context};
      watchers := watchers - {key};
      totalCleaned := totalCleaned + 1;
    }

    method StopOne(key: string)
      requires key in watchers
      modifies this`running, this`timers
      ensures View() == StopWatcher(old(View()), key)
    {
      if watchers[key].cleanupTimer.Some? {
        timers := timers.Stop(watchers[key].cleanupTimer);
      }
      running := running - {watchers[key].context};
    }

    method StopLoops()
      modifies this`running, this`timers
      ensures View() == StopWatchers(old(View()), watchers.Keys)
    {
      var left := watchers.Keys;
      ghost var s0, gone := View(), {};
      NothingStopped(s0);
      while left != {}
        invariant left <= s0.watchers.Keys && gone == s0.watchers.Keys - left
        invariant View() == StopWatchers(s0, gone)
        decreases left
      {
        var key :| key in left;
        OneMoreWatcherStopped(s0, gone, key);
        StopOne(key);
        left, gone := left - {key}, gone + {key};
      }
      assert gone == watchers.Keys;
    }

    method StopAll()
      modifies this
      ensures View() == Next(old(View()), Step.StopAll)
    {
      ghost var s0 := View();
      StopLoops();
      ghost var s1 := View();
      StoppedLoops(s0, s1);
      stopped := stopped + |watchers|;
      watchers := map[];
      assert View() == s1.(watchers := map[], stopped := s1.stopped + |s1.watchers|);
    }

    method RestartOne(key: string)
      requires key in watchers
      modifies this`watchers, this`running, this`nextContext
      ensures View() == Restarted(old(View()), old(nextContext), key)
    {
      var w := watchers[key];
      running := running - {w.context};
      w := w.(resourceVersion := "");
      var context := nextContext;
      nextContext := nextContext + 1;
      w := w.(context := context);
      watchers := watchers[key := w];
      running := running[context := key];
    }

    method RestartAll() returns (ghost renewed: map<string, nat>)
      requires Owned(View())
      modifies this
      ensures Enabled(old(View()), Step.RestartAll(renewed, nextContext))
      ensures View() == Next(old(View()), Step.RestartAll(renewed, nextContext))
    {
      var left := watchers.Keys;
      ghost var s0 := View();
      renewed := map[];
      NothingRestarted(s0);
      while left != {}
        invariant left <= s0.watchers.Keys
        invariant RestartedSoFar(s0, renewed, left, View())
        decreases left
      {
        var key :| key in left;
        ghost var s := View();
        KeyOfRestarted(s0, renewed, left, s, key);
        if watchers[key].refCount > 0 {
          OneMoreRestarted(s0, renewed, left, s, key);
          renewed := renewed[key := nextContext];
          RestartOne(key);
        } else {
          NoMoreRestarted(s0, renewed, left, s, key);
        }
        left := left - {key};
      }
    }
  }

  lemma OneMoreStopped(ws: map<string, Watcher>, keys: set<string>, key: string)
    requires key in ws
    ensures Contexts(ws, keys + {key}) == Contexts(ws, keys) + {ws[key].context}
    ensures CleanupHandles(ws, keys + {key})
         == CleanupHandles(ws, keys) + (if ws[key].cleanupTimer.Some? then {ws[key].cleanupTimer.value} else {})
  {
  }

  lemma OneMoreHandle(t: Timers<string>, handles: set<nat>, h: Option<nat>)
    ensures StopEach(t, handles).Stop(h) == StopEach(t, handles + (if h.Some? then {h.value} else {}))
  {
  }

  function StopWatcher(s: State, key: string): State
    requires key in s.watchers
  {
    s.(running := s.running - {s.watchers[key].context}, timers := s.timers.Stop(s.watchers[key].cleanupTimer))
  }

  lemma NothingStopped(s: State)
    ensures StopWatchers(s, {}) == s
  {
    assert s.running - {} == s.running && s.timers.armed - {} == s.timers.armed;
    assert Contexts(s.watchers, {}) == {} && CleanupHandles(s.watchers, {}) == {};
  }

  lemma OneMoreWatcherStopped(s: State, gone: set<string>, key: string)
    requires key in s.watchers
    ensures StopWatcher(StopWatchers(s, gone), key) == StopWatchers(s, gone + {key})
  {
    OneMoreStopped(s.watchers, gone, key);
    OneMoreHandle(s.timers, CleanupHandles(s.watchers, gone), s.watchers[key].cleanupTimer);
    var c := Contexts(s.watchers, gone);
    assert (s.running - c) - {s.watchers[key].context} == s.running - (c + {s.watchers[key].context});
  }

  /** RestartAll's progress: it has renewed the watchers in use outside `left`. */
  ghost predicate RestartedSoFar(s0: State, renewed: map<string, nat>, left: set<string>, s: State) {
    && Owned(s0)
    && renewed.Keys == InUse(s0.watchers) - left
    && NewContexts(s0, renewed, s.nextContext)
    && s == RestartStep(s0, renewed, s.nextContext)
  }

  lemma NothingRestarted(s: State)
    requires Owned(s)
    ensures RestartedSoFar(s, map[], s.watchers.Keys, s)
  {
    assert Reconnect(s.watchers, map[]) == s.watchers;
  }

  lemma KeyOfRestarted(s0: State, renewed: map<string, nat>, left: set<string>, s: State, key: string)
    requires RestartedSoFar(s0, renewed, left, s) && key in left && left <= s0.watchers.Keys
    ensures key in s.watchers && s.watchers[key] == s0.watchers[key] && key !in renewed
  {
  }

  lemma NoMoreRestarted(s0: State, renewed: map<string, nat>, left: set<string>, s: State, key: string)
    requires RestartedSoFar(s0, renewed, left, s) && key in s0.watchers && s0.watchers[key].refCount <= 0
    ensures RestartedSoFar(s0, renewed, left - {key}, s)
  {
    assert InUse(s0.watchers) - (left - {key}) == InUse(s0.watchers) - left;
  }

  ghost function Restarted(s: State, next: nat, key: string): State
    requires key in s.watchers
  {
    s.(watchers := s.watchers[key := s.watchers[key].(context := next, resourceVersion := "")],
       running := (s.running - {s.watchers[key].context})[next := key],
       nextContext := next + 1)
  }

  lemma OneMoreNewContext(s0: State, renewed: map<string, nat>, next: nat, key: string)
    requires NewContexts(s0, renewed, next) && key in s0.watchers && key !in renewed
    ensures NewContexts(s0, renewed[key := next], next + 1)
  {
  }

  lemma OneMoreRestartStep(s0: State, renewed: map<string, nat>, next: nat, key: string)
    requires Owned(s0) && NewContexts(s0, renewed, next) && key in s0.watchers && key !in renewed
    ensures RestartStep(s0, renewed[key := next], next + 1) == Restarted(RestartStep(s0, renewed, next), next, key)
  {
    var c := s0.watchers[key].context;
    assert forall k | k in renewed :: renewed[k] != c && renewed[k] != next;
    InverseUpdate(renewed, key, next);
    assert renewed[key := next].Keys == renewed.Keys + {key};
    OneMoreStopped(s0.watchers, renewed.Keys, key);
    OneMoreReconnected(s0.watchers, renewed, next, key);
    OneMoreRunning(s0.running, Contexts(s0.watchers, renewed.Keys), Inverse(renewed), c, next, key);
  }

  lemma OneLessLeft(all: set<string>, left: set<string>, key: string)
    requires key in all && key in left
    ensures all - (left - {key}) == (all - left) + {key}
  {
  }

  lemma OneMoreRestarted(s0: State, renewed: map<string, nat>, left: set<string>, s: State, key: string)
    requires RestartedSoFar(s0, renewed, left, s) && key in left && left <= s0.watchers.Keys && key in s.watchers
    requires s.watchers[key] == s0.watchers[key] && s0.watchers[key].refCount > 0 && key !in renewed
    ensures RestartedSoFar(s0, renewed[key := s.nextContext], left - {key}, Restarted(s, s.nextContext, key))
  {
    OneMoreNewContext(s0, renewed, s.nextContext, key);
    OneMoreRestartStep(s0, renewed, s.nextContext, key);
    OneLessLeft(InUse(s0.watchers), left, key);
    assert renewed[key := s.nextContext].Keys == renewed.Keys + {key};
  }

  lemma OneMoreReconnected(ws: map<string, Watcher>, renewed: map<string, nat>, next: nat, key: string)
    requires key in ws && key !in renewed
    ensures Reconnect(ws, renewed)[key] == ws[key]
    ensures Reconnect(ws, renewed[key := next])
         == Reconnect(ws, renewed)[key := ws[key].(context := next, resourceVersion := "")]
  {
  }

  lemma OneMoreRunning(running: map<nat, string>, cancelled: set<nat>, started: map<nat, string>, c: nat, next: nat,
      key: string)
    requires c !in started && next !in started
    ensures (running - (cancelled + {c})) + started[next := key]
      == (((running - cancelled) + started) - {c})[next := key]
  {
  }

  lemma InverseUpdate(renewed: map<string, nat>, key: string, context: nat)
    requires forall k, k' | k in renewed && k' in renewed && k != k' :: renewed[k] != renewed[k']
    requires key !in renewed && context !in renewed.Values
    ensures Inverse(renewed[key := context]) == Inverse(renewed)[context := key]
  {
    var more := renewed[key := context];
    assert more.Values == renewed.Values + {context} by {
      assert more[key] == context;
      forall c | c in renewed.Values ensures c in more.Values {
        var k :| k in renewed && renewed[k] == c;
        assert more[k] == c;
      }
    }
  }
}
