/** Model of portforward.go: the registry of port-forward configurations with its
    reverse index from local ports to configurations, the free-port searches, and
    what is saved and loaded. */
module PortForward {

  // ---------------------------------------------------------------- data model

  datatype Config = Config(
    id: string,
    context: string,
    namespace: string,
    resourceType: string,
    resourceName: string,
    localPort: int,
    remotePort: int,
    labelText: string,
    favorite: bool,
    autoStart: bool,
    keepAlive: bool,
    https: bool,
    createdAt: int)

  /** A running forward keeps its own copy of the configuration. */
  datatype Active = Active(config: Config, status: string, error: string)

  /** `deleting` holds the id, and the local port read for it, of each DeleteConfig
      call that has let go of the lock to stop its forward.  It then takes the steps
      Stop and FinishDelete, each under the lock on its own. */
  datatype State = State(
    configs: map<string, Config>,
    active: map<string, Active>,
    usedPorts: map<int, string>,
    deleting: multiset<(string, int)>)

  const EMPTY := State(map[], map[], map[], multiset{})

  datatype Result = Ok(config: Config) | NotFound | PortInUse | AlreadyRunning | PortTaken | NotRunning

  datatype Step =
    | Add(config: Config, newId: string, now: int)
    | Update(config: Config)
    | Delete(id: string)
    | BeginDelete(id: string)
    | FinishDelete(id: string, port: int)
    | Start(id: string, open: bool)
    | Stop(id: string)
    | SetStatus(id: string, status: string, error: string)

  // ---------------------------------------------------------------- operations

  function Stamped(c: Config, newId: string, now: int): Config {
    c.(id := if c.id == "" then newId else c.id, createdAt := now)
  }

  /** No other configuration holds the local port. */
  predicate PortFree(s: State, c: Config) {
    c.localPort in s.usedPorts ==> s.usedPorts[c.localPort] == c.id
  }

  function Put(s: State, c: Config): State {
    s.(configs := s.configs[c.id := c], usedPorts := s.usedPorts[c.localPort := c.id])
  }

  function Added(s: State, c: Config): State {
    if PortFree(s, c) then Put(s, c) else s
  }

  predicate CanUpdate(s: State, c: Config) {
    c.id in s.configs && (s.configs[c.id].localPort == c.localPort || PortFree(s, c))
  }

  function Updated(s: State, c: Config): State {
    if !CanUpdate(s, c) then s
    else
      var existing := s.configs[c.id];
      var c' := c.(createdAt := existing.createdAt);
      if existing.localPort == c.localPort then s.(configs := s.configs[c.id := c'])
      else s.(configs := s.configs[c.id := c'], usedPorts := (s.usedPorts - {existing.localPort})[c.localPort := c.id])
  }

  /** The part of DeleteConfig after the forward is stopped, with the port read before. */
  function Forget(s: State, id: string, port: int): State {
    s.(configs := s.configs - {id}, usedPorts := s.usedPorts - {port})
  }

  /** A whole DeleteConfig call. */
  function Deleted(s: State, id: string): State {
    if id in s.configs then Forget(s.(active := s.active - {id}), id, s.configs[id].localPort) else s
  }

  function Started(s: State, id: string, open: bool): State {
    if id in s.configs && id !in s.active && open
    then s.(active := s.active[id := Active(s.configs[id], "starting", "")])
    else s
  }

  function WithStatus(s: State, id: string, status: string, error: string): State {
    if id in s.active then s.(active := s.active[id := s.active[id].(status := status, error := error)]) else s
  }

  predicate Enabled(s: State, step: Step) {
    match step
    case Add(c, newId, _) => newId != ""
    case BeginDelete(id) => id in s.configs && id in s.active
    case FinishDelete(id, port) => (id, port) in s.deleting
    case _ => true
  }

  function Next(s: State, step: Step): State {
    match step
    case Add(c, newId, now) => Added(s, Stamped(c, newId, now))
    case Update(c) => Updated(s, c)
    case Delete(id) => Deleted(s, id)
    case BeginDelete(id) =>
      if id in s.configs then s.(deleting := s.deleting + multiset{(id, s.configs[id].localPort)}) else s
    case FinishDelete(id, port) => Forget(s, id, port).(deleting := s.deleting - multiset{(id, port)})
    case Start(id, open) => Started(s, id, open)
    case Stop(id) => s.(active := s.active - {id})
    case SetStatus(id, status, error) => WithStatus(s, id, status, error)
  }

  ghost predicate Feasible(s: State, steps: seq<Step>)
    decreases |steps|
  {
    steps == [] || (Enabled(s, steps[0]) && Feasible(Next(s, steps[0]), steps[1..]))
  }

  ghost function Exec(s: State, steps: seq<Step>): State
    decreases |steps|
  {
    if steps == [] then s else Exec(Next(s, steps[0]), steps[1..])
  }

  /** A running forward shows the status and error given last; nothing else changes. */
  lemma StatusIsShown(s: State, id: string, status: string, error: string)
    ensures var s' := Next(s, SetStatus(id, status, error));
      && s'.configs == s.configs && s'.usedPorts == s.usedPorts && s'.active.Keys == s.active.Keys
      && (id in s.active ==> s'.active[id] == Active(s.active[id].config, status, error))
      && forall other | other in s.active && other != id :: s'.active[other] == s.active[other]
  {
  }

  // ---------------------------------------------------------------- the registry

  /** Every configuration is stored under its id, and its port maps back to it. */
  ghost predicate Registered(s: State) {
    forall id | id in s.configs ::
      s.configs[id].id == id && s.configs[id].localPort in s.usedPorts && s.usedPorts[s.configs[id].localPort] == id
  }

  /** ... and no port is reserved for anything else. */
  ghost predicate Exact(s: State) {
    && Registered(s)
    && forall p | p in s.usedPorts :: s.usedPorts[p] in s.configs && s.configs[s.usedPorts[p]].localPort == p
  }

  lemma NoTwoShareAPort(s: State, id: string, id': string)
    requires Registered(s) && id in s.configs && id' in s.configs && id != id'
    ensures s.configs[id].localPort != s.configs[id'].localPort
  {
    assert s.usedPorts[s.configs[id].localPort] == id;
  }

  /** What DeleteConfig needs of the time it spends without the lock. */
  ghost predicate OthersAvoid(s: State, id: string, port: int) {
    forall other | other in s.configs && other != id :: s.configs[other].localPort != port
  }

  lemma ForgetKeepsRegistered(s: State, id: string, port: int)
    requires Registered(s)
    ensures Registered(Forget(s, id, port)) <==> OthersAvoid(s, id, port)
  {
    var s' := Forget(s, id, port);
    if other :| other in s.configs && other != id && s.configs[other].localPort == port {
      assert other in s'.configs && port !in s'.usedPorts;
    }
  }

  lemma ForgetKeepsExact(s: State, id: string, port: int)
    requires Exact(s)
    ensures Exact(Forget(s, id, port)) <==>
      OthersAvoid(s, id, port) && (id in s.configs ==> s.configs[id].localPort == port)
  {
    ForgetKeepsRegistered(s, id, port);
    var s' := Forget(s, id, port);
    if OthersAvoid(s, id, port) && id in s.configs && s.configs[id].localPort != port {
      assert s.configs[id].localPort in s'.usedPorts && id !in s'.configs;
    }
  }

  lemma AddKeepsRegistered(s: State, c: Config)
    requires Registered(s)
    ensures Registered(Added(s, c))
  {
  }

  /** AddConfig never gives back the port of a configuration it replaces. */
  lemma AddKeepsExact(s: State, c: Config)
    requires Exact(s)
    ensures Exact(Added(s, c)) <==>
      (PortFree(s, c) && c.id in s.configs ==> s.configs[c.id].localPort == c.localPort)
  {
    var s' := Added(s, c);
    if PortFree(s, c) && c.id in s.configs && s.configs[c.id].localPort != c.localPort {
      var p := s.configs[c.id].localPort;
      assert p in s'.usedPorts && s'.usedPorts[p] == c.id && s'.configs[c.id].localPort != p;
    }
  }

  lemma UpdateKeepsOthers(s: State, c: Config, id: string)
    requires Registered(s) && id in s.configs && CanUpdate(s, c)
    ensures var s' := Updated(s, c);
      && id in s'.configs && s'.configs[id].id == id
      && s'.configs[id].localPort in s'.usedPorts && s'.usedPorts[s'.configs[id].localPort] == id
  {
    if id != c.id { NoTwoShareAPort(s, id, c.id); }
  }

  lemma UpdateKeepsPorts(s: State, c: Config, p: int)
    requires Exact(s) && CanUpdate(s, c) && p in Updated(s, c).usedPorts
    ensures var s' := Updated(s, c); s'.usedPorts[p] in s'.configs && s'.configs[s'.usedPorts[p]].localPort == p
  {
  }

  lemma UpdateKeepsRegistered(s: State, c: Config)
    requires Registered(s)
    ensures Registered(Updated(s, c)) && (Exact(s) ==> Exact(Updated(s, c)))
  {
    var s' := Updated(s, c);
    if CanUpdate(s, c) {
      assert s'.configs.Keys == s.configs.Keys;
      forall id | id in s'.configs
        ensures s'.configs[id].id == id && s'.configs[id].localPort in s'.usedPorts
          && s'.usedPorts[s'.configs[id].localPort] == id
      {
        UpdateKeepsOthers(s, c, id);
      }
      if Exact(s) {
        forall p | p in s'.usedPorts
          ensures s'.usedPorts[p] in s'.configs && s'.configs[s'.usedPorts[p]].localPort == p
        {
          UpdateKeepsPorts(s, c, p);
        }
      }
    }
  }

  lemma DeleteKeepsRegistered(s: State, id: string)
    requires Registered(s)
    ensures Registered(Deleted(s, id)) && (Exact(s) ==> Exact(Deleted(s, id)))
  {
    if id in s.configs {
      var s' := s.(active := s.active - {id});
      ForgetKeepsRegistered(s', id, s.configs[id].localPort);
      if Exact(s) { ForgetKeepsExact(s', id, s.configs[id].localPort); }
    }
  }

  /** Each delayed deletion finds its port in nobody else's hands. */
  ghost predicate Undisturbed(s: State, steps: seq<Step>)
    decreases |steps|
  {
    steps == [] ||
    ((steps[0].FinishDelete? ==> OthersAvoid(s, steps[0].id, steps[0].port))
     && Undisturbed(Next(s, steps[0]), steps[1..]))
  }

  lemma NextKeepsRegistered(s: State, step: Step)
    requires Registered(s)
    ensures Registered(Next(s, step)) <==> (step.FinishDelete? ==> OthersAvoid(s, step.id, step.port))
  {
    match step
    case Add(c, newId, now) => AddKeepsRegistered(s, Stamped(c, newId, now));
    case Update(c) => UpdateKeepsRegistered(s, c);
    case Delete(id) => DeleteKeepsRegistered(s, id);
    case FinishDelete(id, port) => ForgetKeepsRegistered(s, id, port);
    case _ =>
  }

  /** Main result: in every run, as long as no deletion is disturbed while it is
      without the lock, every port maps back to its configuration. */
  lemma {:induction false} EveryRunIsRegistered(s: State, steps: seq<Step>)
    requires Registered(s) && Undisturbed(s, steps)
    ensures Registered(Exec(s, steps))
    decreases |steps|
  {
    if steps != [] {
      NextKeepsRegistered(s, steps[0]);
      EveryRunIsRegistered(Next(s, steps[0]), steps[1..]);
    }
  }

  // ---------------------------------------------------------------- deletions left alone

  /** Every deletion under way still finds its configuration on the port it read. */
  ghost predicate Held(s: State) {
    forall d | d in s.deleting :: d.0 in s.configs && s.configs[d.0].localPort == d.1
  }

  /** The step does not move, replace or delete this configuration. */
  ghost predicate LeavesAlone(s: State, step: Step, id: string)
    requires id in s.configs
  {
    match step
    case Add(c, newId, now) => Stamped(c, newId, now).id == id ==> c.localPort == s.configs[id].localPort
    case Update(c) => c.id == id ==> c.localPort == s.configs[id].localPort
    case Delete(other) => other != id
    case FinishDelete(other, _) => other != id
    case _ => true
  }

  /** The deletions that are still under way after the step. */
  ghost function StillDeleting(s: State, step: Step): multiset<(string, int)> {
    if step.FinishDelete? then s.deleting - multiset{(step.id, step.port)} else s.deleting
  }

  /** From BeginDelete on, nobody else touches a configuration that is being deleted. */
  ghost predicate AllLeftAlone(s: State, steps: seq<Step>)
    decreases |steps|
  {
    steps == [] ||
    ((forall d | d in StillDeleting(s, steps[0]) && d.0 in s.configs :: LeavesAlone(s, steps[0], d.0))
     && AllLeftAlone(Next(s, steps[0]), steps[1..]))
  }

  lemma LeftAloneIsHeld(s: State, step: Step, id: string)
    requires Registered(s) && id in s.configs && LeavesAlone(s, step, id)
    ensures id in Next(s, step).configs && Next(s, step).configs[id].localPort == s.configs[id].localPort
  {
  }

  lemma BegunOrStillDeleting(s: State, step: Step, d: (string, int))
    requires Enabled(s, step) && d in Next(s, step).deleting
    ensures d in StillDeleting(s, step) || (step.BeginDelete? && d == (step.id, s.configs[step.id].localPort))
    ensures d in StillDeleting(s, step) ==> d in s.deleting
  {
  }

  lemma HeldIsUndisturbed(s: State, id: string, port: int)
    requires Registered(s) && id in s.configs && s.configs[id].localPort == port
    ensures OthersAvoid(s, id, port)
  {
    forall other | other in s.configs && other != id ensures s.configs[other].localPort != port {
      NoTwoShareAPort(s, other, id);
    }
  }

  lemma NextKeepsHeld(s: State, step: Step)
    requires Registered(s) && Held(s) && Enabled(s, step)
    requires forall d | d in StillDeleting(s, step) && d.0 in s.configs :: LeavesAlone(s, step, d.0)
    ensures Held(Next(s, step)) && (step.FinishDelete? ==> OthersAvoid(s, step.id, step.port))
  {
    var s' := Next(s, step);
    forall d | d in s'.deleting ensures d.0 in s'.configs && s'.configs[d.0].localPort == d.1 {
      BegunOrStillDeleting(s, step, d);
      if d in StillDeleting(s, step) { LeftAloneIsHeld(s, step, d.0); }
    }
    if step.FinishDelete? {
      assert (step.id, step.port) in s.deleting;
      HeldIsUndisturbed(s, step.id, step.port);
    }
  }

  /** Main result for callers: if from BeginDelete on nobody else moves, replaces or
      deletes a configuration that is being deleted, no deletion is disturbed. */
  lemma {:induction false} LeftAloneIsUndisturbed(s: State, steps: seq<Step>)
    requires Registered(s) && Held(s) && Feasible(s, steps) && AllLeftAlone(s, steps)
    ensures Undisturbed(s, steps) && Registered(Exec(s, steps)) && Held(Exec(s, steps))
    decreases |steps|
  {
    if steps != [] {
      NextKeepsHeld(s, steps[0]);
      NextKeepsRegistered(s, steps[0]);
      LeftAloneIsUndisturbed(Next(s, steps[0]), steps[1..]);
    }
  }

  // ---------------------------------------------------------------- the exact index

  /** No deletion is disturbed, and no addition moves an existing configuration. */
  ghost predicate Orderly(s: State, step: Step) {
    match step
    case Add(c, newId, now) =>
      var stamped := Stamped(c, newId, now);
      PortFree(s, stamped) && stamped.id in s.configs ==> s.configs[stamped.id].localPort == stamped.localPort
    case FinishDelete(id, port) => OthersAvoid(s, id, port) && (id in s.configs ==> s.configs[id].localPort == port)
    case _ => true
  }

  /** One step keeps the index exact if and only if it is orderly. */
  lemma NextKeepsExact(s: State, step: Step)
    requires Exact(s)
    ensures Exact(Next(s, step)) <==> Orderly(s, step)
  {
    match step
    case Add(c, newId, now) => AddKeepsExact(s, Stamped(c, newId, now));
    case Update(c) => UpdateKeepsRegistered(s, c);
    case Delete(id) => DeleteKeepsRegistered(s, id);
    case FinishDelete(id, port) => ForgetKeepsExact(s, id, port);
    case _ =>
  }

  ghost predicate ExactThroughout(s: State, steps: seq<Step>)
    decreases |steps|
  {
    Exact(s) && (steps == [] || ExactThroughout(Next(s, steps[0]), steps[1..]))
  }

  ghost predicate AllOrderly(s: State, steps: seq<Step>)
    decreases |steps|
  {
    steps == [] || (Orderly(s, steps[0]) && AllOrderly(Next(s, steps[0]), steps[1..]))
  }

  /** Main result for the index: it is the exact inverse throughout a run if and only
      if every step of the run is orderly. */
  lemma {:induction false} ExactThroughoutIff(s: State, steps: seq<Step>)
    requires Exact(s)
    ensures ExactThroughout(s, steps) <==> AllOrderly(s, steps)
    decreases |steps|
  {
    if steps != [] {
      NextKeepsExact(s, steps[0]);
      if Orderly(s, steps[0]) { ExactThroughoutIff(Next(s, steps[0]), steps[1..]); }
    }
  }

  /** A run that stays registered is exactly one whose deletions are undisturbed. */
  ghost predicate RegisteredThroughout(s: State, steps: seq<Step>)
    decreases |steps|
  {
    Registered(s) && (steps == [] || RegisteredThroughout(Next(s, steps[0]), steps[1..]))
  }

  lemma {:induction false} RegisteredThroughoutIff(s: State, steps: seq<Step>)
    requires Registered(s)
    ensures RegisteredThroughout(s, steps) <==> Undisturbed(s, steps)
    decreases |steps|
  {
    if steps != [] {
      NextKeepsRegistered(s, steps[0]);
      if Registered(Next(s, steps[0])) { RegisteredThroughoutIff(Next(s, steps[0]), steps[1..]); }
    }
  }

  lemma FirstStep(s: State, step: Step, rest: seq<Step>)
    requires Enabled(s, step) && Feasible(Next(s, step), rest)
    ensures Feasible(s, [step] + rest) && Exec(s, [step] + rest) == Exec(Next(s, step), rest)
  {
    assert ([step] + rest)[1..] == rest;
  }

  /** The state in which a, on port p, is being deleted and has moved to p + 1. */
  function Moved(a: Config): State {
    State(map[a.id := a.(localPort := a.localPort + 1)], map[], map[a.localPort + 1 := a.id],
      multiset{(a.id, a.localPort)})
  }

  /** a alone, on its port. */
  function Alone(a: Config): State {
    State(map[a.id := a], map[], map[a.localPort := a.id], multiset{})
  }

  lemma AloneAtFirst(a: Config, rest: seq<Step>)
    requires a.id != "" && Feasible(Alone(a), rest)
    ensures exists steps :: Feasible(EMPTY, steps) && Exec(EMPTY, steps) == Exec(Alone(a), rest)
  {
    assert Stamped(a, a.id, a.createdAt) == a;
    assert Next(EMPTY, Add(a, a.id, a.createdAt)) == Alone(a);
    FirstStep(EMPTY, Add(a, a.id, a.createdAt), rest);
  }

  /** a is running, and a call is about to stop and delete it. */
  function Deleting(a: Config): State {
    Alone(a).(active := map[a.id := Active(a, "starting", "")], deleting := multiset{(a.id, a.localPort)})
  }

  lemma DeletingAfterStart(a: Config, rest: seq<Step>)
    requires a.id != "" && Feasible(Deleting(a), rest)
    ensures exists steps :: Feasible(EMPTY, steps) && Exec(EMPTY, steps) == Exec(Deleting(a), rest)
  {
    var s1 := Alone(a);
    var s2 := s1.(active := map[a.id := Active(a, "starting", "")]);
    assert Next(s1, Start(a.id, true)) == s2;
    assert Next(s2, BeginDelete(a.id)) == Deleting(a);
    FirstStep(s2, BeginDelete(a.id), rest);
    FirstStep(s1, Start(a.id, true), [BeginDelete(a.id)] + rest);
    AloneAtFirst(a, [Start(a.id, true)] + ([BeginDelete(a.id)] + rest));
  }

  lemma MovedWhileDeleted(a: Config, rest: seq<Step>)
    requires a.id != "" && Feasible(Moved(a), rest)
    ensures exists steps :: Feasible(EMPTY, steps) && Exec(EMPTY, steps) == Exec(Moved(a), rest)
  {
    var moved := a.(localPort := a.localPort + 1);
    var stopped := Deleting(a).(active := map[]);
    assert Next(Deleting(a), Stop(a.id)) == stopped;
    assert Next(stopped, Update(moved)) == Moved(a);
    FirstStep(stopped, Update(moved), rest);
    FirstStep(Deleting(a), Stop(a.id), [Update(moved)] + rest);
    DeletingAfterStart(a, [Stop(a.id)] + ([Update(moved)] + rest));
  }

  lemma TwoTakeThePort(a: Config, b: Config, c: Config)
    requires a.id != "" && b.id != "" && c.id != "" && a.id != b.id && b.id != c.id && a.id != c.id
    requires a.localPort == b.localPort == c.localPort
    ensures exists steps :: Feasible(Moved(a), steps) && Exec(Moved(a), steps).configs == map[b.id := b, c.id := c]
  {
    var p := a.localPort;
    var s4 := Moved(a);
    assert Stamped(b, b.id, b.createdAt) == b && Stamped(c, c.id, c.createdAt) == c;
    var s5 := s4.(configs := s4.configs[b.id := b], usedPorts := s4.usedPorts[p := b.id]);
    assert Next(s4, Add(b, b.id, b.createdAt)) == s5;
    var s6 := Next(s5, FinishDelete(a.id, a.localPort));
    assert s6.configs == map[b.id := b] && s6.usedPorts == map[p + 1 := a.id];
    var s7 := Next(s6, Add(c, c.id, c.createdAt));
    assert s7.configs == map[b.id := b, c.id := c];
    FirstStep(s6, Add(c, c.id, c.createdAt), []);
    FirstStep(s5, FinishDelete(a.id, a.localPort), [Add(c, c.id, c.createdAt)] + []);
    FirstStep(s4, Add(b, b.id, b.createdAt), [FinishDelete(a.id, a.localPort)] + ([Add(c, c.id, c.createdAt)] + []));
  }

  /** The condition is needed.  While a is being deleted it is moved to another port
      and b takes its old one; the deletion then frees b's port, and c gets it too. */
  lemma DisturbedDeleteSharesAPort(a: Config, b: Config, c: Config)
    requires a.id != "" && b.id != "" && c.id != "" && a.id != b.id && b.id != c.id && a.id != c.id
    requires a.localPort == b.localPort == c.localPort
    ensures exists steps :: Feasible(EMPTY, steps) && Exec(EMPTY, steps).configs == map[b.id := b, c.id := c]
  {
    TwoTakeThePort(a, b, c);
    var steps :| Feasible(Moved(a), steps) && Exec(Moved(a), steps).configs == map[b.id := b, c.id := c];
    MovedWhileDeleted(a, steps);
  }

  /** Adding a new configuration and deleting it again leaves no trace, whether or
      not its forward was started in between. */
  lemma AddThenDelete(s: State, c: Config, open: bool)
    requires Registered(s) && c.id !in s.configs && c.id !in s.active && c.id !in s.usedPorts.Values
    ensures var s' := Added(s, c);
      && (PortFree(s, c) <==> c.id in s'.configs)
      && Deleted(s', c.id) == s
      && Deleted(Started(s', c.id, open), c.id) == s
  {
    if c.localPort in s.usedPorts {
      assert s.usedPorts[c.localPort] in s.usedPorts.Values;
    } else {
      var s' := Added(s, c);
      assert s'.configs - {c.id} == s.configs && s'.usedPorts - {c.localPort} == s.usedPorts;
      assert s'.active - {c.id} == s.active && Started(s', c.id, open).active - {c.id} == s.active;
    }
  }

  // ---------------------------------------------------------------- configurations left behind by ingress forwarding

  predicate IsOrphan(c: Config, context: string) {
    c.context == context && "Ingress " <= c.labelText
  }

  function Orphans(s: State, context: string): set<string> {
    set id | id in s.configs && IsOrphan(s.configs[id], context)
  }

  function DeletedAll(s: State, ids: set<string>): State {
    s.(configs := s.configs - ids, active := s.active - ids,
       usedPorts := s.usedPorts - (set id | id in ids && id in s.configs :: s.configs[id].localPort))
  }

  /** CleanupIngressConfigs. */
  function Cleaned(s: State, context: string): State {
    DeletedAll(s, Orphans(s, context))
  }

  lemma OneMoreDeleted(s: State, ids: set<string>, id: string)
    requires id in s.configs && id !in ids
    ensures Deleted(DeletedAll(s, ids), id) == DeletedAll(s, ids + {id})
  {
    var s1, s2 := Deleted(DeletedAll(s, ids), id), DeletedAll(s, ids + {id});
    assert s1.configs == s2.configs && s1.active == s2.active;
    assert s1.usedPorts == s2.usedPorts;
  }

  lemma CleanedKeepsTheRest(s: State, context: string)
    requires Registered(s)
    ensures var s' := Cleaned(s, context);
      && Registered(s') && (Exact(s) ==> Exact(s'))
      && (forall id | id in s.configs ::
            if s.configs[id].context == context && "Ingress " <= s.configs[id].labelText
            then id !in s'.configs && id !in s'.active
            else id in s'.configs && s'.configs[id] == s.configs[id] && (id in s.active <==> id in s'.active))
      && s'.configs.Keys <= s.configs.Keys
  {
    var s' := Cleaned(s, context);
    forall id | id in s'.configs ensures s.configs[id].localPort in s'.usedPorts {
      forall other | other in Orphans(s, context) && other in s.configs
        ensures s.configs[other].localPort != s.configs[id].localPort
      {
        NoTwoShareAPort(s, id, other);
      }
    }
    if Exact(s) {
      forall p | p in s'.usedPorts ensures s'.usedPorts[p] in s'.configs {
        assert s.configs[s.usedPorts[p]].localPort == p;
      }
    }
  }

  // ---------------------------------------------------------------- free ports

  const WELL_KNOWN: set<int> := {
    20, 21, 22, 23, 25, 53, 80, 110, 143, 443, 465, 587, 993, 995, 1024, 1433, 1521, 3000, 3306,
    3389, 5000, 5432, 5672, 6379, 8000, 8080, 8443, 8888, 9000, 9090, 27017}

  const FIRST_PORT := 10000
  const LAST_PORT := 65535

  /** `open` says which ports the system lets us listen on. */
  predicate Usable(s: State, open: int -> bool, port: int) {
    port !in WELL_KNOWN && port !in s.usedPorts && open(port)
  }

  /** The lowest usable port of the range, or 0 when there is none. */
  ghost predicate IsLowest(s: State, open: int -> bool, port: int) {
    if port == 0 then forall p | FIRST_PORT <= p < LAST_PORT :: !Usable(s, open, p)
    else
      && FIRST_PORT <= port < LAST_PORT && Usable(s, open, port)
      && forall p | FIRST_PORT <= p < port :: !Usable(s, open, p)
  }

  ghost predicate IsFirstDraw(s: State, draws: seq<nat>, open: int -> bool, k: int)
    requires 0 <= k < |draws|
  {
    Usable(s, open, FIRST_PORT + draws[k]) && forall j | 0 <= j < k :: !Usable(s, open, FIRST_PORT + draws[j])
  }

  /** A port from either search is accepted by AddConfig for any configuration. */
  lemma FoundPortIsAccepted(s: State, open: int -> bool, port: int, c: Config)
    requires Usable(s, open, port) && c.localPort == port
    ensures Added(s, c).configs == s.configs[c.id := c]
    ensures Registered(s) ==> Registered(Added(s, c))
    ensures Exact(s) && c.id !in s.configs ==> Exact(Added(s, c))
  {
    if Registered(s) { AddKeepsRegistered(s, c); }
    if Exact(s) { AddKeepsExact(s, c); }
  }

  // ---------------------------------------------------------------- saving and loading

  /** The file lists every configuration once, in whatever order the map gave. */
  ghost predicate Lists(file: seq<Config>, configs: map<string, Config>) {
    && (forall c | c in file :: c.id in configs && configs[c.id] == c)
    && (forall id | id in configs :: configs[id] in file)
    && (forall i, j | 0 <= i < j < |file| :: file[i].id != file[j].id)
  }

  /** The state after loading the first entries of a file. */
  function Loaded(file: seq<Config>): State
    decreases |file|
  {
    if file == [] then EMPTY
    else Put(Loaded(file[..|file| - 1]), file[|file| - 1])
  }

  lemma {:induction false} LoadedParts(file: seq<Config>, i: nat)
    requires i < |file|
    requires forall j, k | 0 <= j < k < |file| :: file[j].id != file[k].id && file[j].localPort != file[k].localPort
    ensures file[i].id in Loaded(file).configs && Loaded(file).configs[file[i].id] == file[i]
    ensures file[i].localPort in Loaded(file).usedPorts && Loaded(file).usedPorts[file[i].localPort] == file[i].id
    decreases |file|
  {
    var n := |file| - 1;
    if i < n {
      LoadedParts(file[..n], i);
      assert file[i].id != file[n].id;
    }
  }

  lemma {:induction false} LoadedOnlyParts(file: seq<Config>)
    ensures forall id | id in Loaded(file).configs ::
      Loaded(file).configs[id] in file && Loaded(file).configs[id].id == id
    ensures forall p | p in Loaded(file).usedPorts :: exists c :: c in file && c.localPort == p
    decreases |file|
  {
    if file != [] {
      var n := |file| - 1;
      LoadedOnlyParts(file[..n]);
      assert file[n] in file && forall c | c in file[..n] :: c in file;
    }
  }

  lemma DistinctPorts(s: State, file: seq<Config>)
    requires Registered(s) && Lists(file, s.configs)
    ensures forall j, k | 0 <= j < k < |file| :: file[j].id != file[k].id && file[j].localPort != file[k].localPort
  {
    forall j, k | 0 <= j < k < |file| ensures file[j].localPort != file[k].localPort {
      assert file[j] in file && file[k] in file;
      NoTwoShareAPort(s, file[j].id, file[k].id);
    }
  }

  lemma LoadedEntry(s: State, file: seq<Config>, c: Config)
    requires Registered(s) && Lists(file, s.configs) && c in file
    ensures var l := Loaded(file);
      c.id in l.configs && l.configs[c.id] == c && c.localPort in l.usedPorts && l.usedPorts[c.localPort] == c.id
  {
    DistinctPorts(s, file);
    var i :| 0 <= i < |file| && file[i] == c;
    LoadedParts(file, i);
  }

  lemma LoadedConfigs(s: State, file: seq<Config>)
    requires Registered(s) && Lists(file, s.configs)
    ensures Loaded(file).configs == s.configs
  {
    LoadedOnlyParts(file);
    forall id | id in s.configs ensures id in Loaded(file).configs && Loaded(file).configs[id] == s.configs[id] {
      LoadedEntry(s, file, s.configs[id]);
    }
  }

  lemma LoadedPorts(s: State, file: seq<Config>, p: int)
    requires Registered(s) && Lists(file, s.configs) && p in Loaded(file).usedPorts
    ensures exists id :: id in s.configs && s.configs[id].localPort == p && Loaded(file).usedPorts[p] == id
  {
    LoadedOnlyParts(file);
    var c :| c in file && c.localPort == p;
    LoadedEntry(s, file, c);
    assert c.id in s.configs && s.configs[c.id] == c;
  }

  lemma ExactIndexIsUnique(s: State, s': State)
    requires Exact(s) && Exact(s') && s.configs == s'.configs
    ensures s.usedPorts == s'.usedPorts
  {
    forall p | p in s.usedPorts ensures p in s'.usedPorts && s'.usedPorts[p] == s.usedPorts[p] {
      assert s.configs[s.usedPorts[p]].localPort == p;
    }
    forall p | p in s'.usedPorts ensures p in s.usedPorts {
      assert s'.configs[s'.usedPorts[p]].localPort == p;
    }
  }

  /** Loading what was saved gives the same configurations in whatever order they
      were written, and an exact index: reservations that had leaked are gone. */
  lemma LoadRestoresSaved(s: State, file: seq<Config>)
    requires Registered(s) && Lists(file, s.configs)
    ensures Loaded(file).configs == s.configs && Exact(Loaded(file))
    ensures Exact(s) ==> Loaded(file).usedPorts == s.usedPorts
  {
    var l := Loaded(file);
    LoadedConfigs(s, file);
    forall id | id in s.configs
      ensures s.configs[id].localPort in l.usedPorts && l.usedPorts[s.configs[id].localPort] == id
    {
      LoadedEntry(s, file, s.configs[id]);
    }
    forall p | p in l.usedPorts ensures l.usedPorts[p] in s.configs && s.configs[l.usedPorts[p]].localPort == p {
      LoadedPorts(s, file, p);
    }
    if Exact(s) { ExactIndexIsUnique(s, l); }
  }

  // ---------------------------------------------------------------- the mutable manager

  class PortForwardManager {
    var configs: map<string, Config>
    var active: map<string, Active>
    var usedPorts: map<int, string>

    /** What the manager holds while no deletion is waiting for its forward to stop. */
    ghost function View(): State
      reads this
    {
      State(configs, active, usedPorts, multiset{})
    }

    constructor (file: seq<Config>)
      ensures View() == Loaded(file)
    {
      configs, active, usedPorts := map[], map[], map[];
      new;
      LoadConfigs(file);
    }

    method LoadConfigs(file: seq<Config>)
      requires View() == Loaded([])
      modifies this
      ensures View() == Loaded(file)
    {
      for i := 0 to |file|
        invariant View() == Loaded(file[..i])
      {
        assert file[..i + 1][..i] == file[..i];
        configs := configs[file[i].id := file[i]];
        usedPorts := usedPorts[file[i].localPort := file[i].id];
      }
      assert file[..|file|] == file;
    }

    method SaveConfigs() returns (file: seq<Config>)
      requires Registered(View())
      ensures Lists(file, configs)
    {
      file := [];
      var left := configs.Keys;
      while left != {}
        invariant left <= configs.Keys
        invariant forall c | c in file :: c.id in configs && configs[c.id] == c && c.id !in left
        invariant forall id | id in configs :: id in left || configs[id] in file
        invariant forall i, j | 0 <= i < j < |file| :: file[i].id != file[j].id
        decreases left
      {
        var id :| id in left;
        assert forall i | 0 <= i < |file| :: file[i] in file && file[i].id != id;
        file := file + [configs[id]];
        left := left - {id};
      }
    }

    method AddConfig(cfg: Config, newId: string, now: int) returns (r: Result)
      modifies this`configs, this`usedPorts
      ensures var c := Stamped(cfg, newId, now);
        && View() == Added(old(View()), c) == Next(old(View()), Step.Add(cfg, newId, now))
        && r == if PortFree(old(View()), c) then Ok(c) else PortInUse
      ensures r.Ok? ==>
        && r.config.id == (if cfg.id == "" then newId else cfg.id) && r.config.createdAt == now
        && r.config.(id := cfg.id, createdAt := cfg.createdAt) == cfg
        && configs == old(configs)[r.config.id := r.config]
        && usedPorts == old(usedPorts)[cfg.localPort := r.config.id]
      ensures !r.Ok? ==> View() == old(View())
      ensures r.Ok? <==> cfg.localPort in old(usedPorts) ==>
        old(usedPorts)[cfg.localPort] == if cfg.id == "" then newId else cfg.id
    {
      var c := cfg;
      if c.id == "" {
        c := c.(id := newId);
      }
      c := c.(createdAt := now);
      if c.localPort in usedPorts && usedPorts[c.localPort] != c.id {
        return PortInUse;
      }
      configs := configs[c.id := c];
      usedPorts := usedPorts[c.localPort := c.id];
      return Ok(c);
    }

    method UpdateConfig(cfg: Config) returns (r: Result)
      modifies this`configs, this`usedPorts
      ensures View() == Updated(old(View()), cfg) == Next(old(View()), Step.Update(cfg))
      ensures r.Ok? <==> CanUpdate(old(View()), cfg)
      ensures r == NotFound <==> cfg.id !in old(configs)
      ensures r.Ok? ==>
        && r.config.createdAt == old(configs)[cfg.id].createdAt && r.config.(createdAt := cfg.createdAt) == cfg
        && configs == old(configs)[cfg.id := r.config]
      ensures r == PortInUse <==>
        && cfg.id in old(configs) && old(configs)[cfg.id].localPort != cfg.localPort
        && cfg.localPort in old(usedPorts) && old(usedPorts)[cfg.localPort] != cfg.id
      ensures !r.Ok? ==> View() == old(View())
    {
      if cfg.id !in configs {
        return NotFound;
      }
      var existing := configs[cfg.id];
      if existing.localPort != cfg.localPort {
        if cfg.localPort in usedPorts && usedPorts[cfg.localPort] != cfg.id {
          return PortInUse;
        }
        usedPorts := usedPorts - {existing.localPort};
        usedPorts := usedPorts[cfg.localPort := cfg.id];
      }
      var c := cfg.(createdAt := existing.createdAt);
      configs := configs[cfg.id := c];
      return Ok(c);
    }

    method Start(id: string, open: bool) returns (r: Result)
      modifies this`active
      ensures View() == Started(old(View()), id, open) == Next(old(View()), Step.Start(id, open))
      ensures r.Ok? <==> id in configs && id !in old(active) && open
      ensures r.Ok? ==> active == old(active)[id := Active(configs[id], "starting", "")] && r.config == configs[id]
      ensures !r.Ok? ==> active == old(active)
    {
      if id !in configs {
        return NotFound;
      }
      if id in active {
        return AlreadyRunning;
      }
      if !open {
        return PortTaken;
      }
      active := active[id := Active(configs[id], "starting", "")];
      return Ok(configs[id]);
    }

    method Stop(id: string) returns (r: Result)
      modifies this`active
      ensures View() == old(View()).(active := old(active) - {id}) == Next(old(View()), Step.Stop(id))
      ensures r == NotRunning <==> id !in old(active)
    {
      if id !in active {
        return NotRunning;
      }
      r := Ok(active[id].config);
      active := active - {id};
    }

    method DeleteConfig(id: string) returns (r: Result)
      modifies this
      ensures View() == Deleted(old(View()), id) == Next(old(View()), Step.Delete(id))
      ensures r == NotFound <==> id !in old(configs)
    {
      if id !in configs {
        return NotFound;
      }
      var c := configs[id];
      if id in active {
        var _ := Stop(id);
      }
      assert active == old(active) - {id};
      usedPorts := usedPorts - {c.localPort};
      configs := configs - {id};
      return Ok(c);
    }

    method CleanupIngressConfigs(context: string)
      modifies this
      ensures View() == Cleaned(old(View()), context)
    {
      var left := configs.Keys;
      var toDelete := {};
      while left != {}
        invariant left <= configs.Keys
        invariant toDelete == set id | id in configs && id !in left && IsOrphan(configs[id], context)
        decreases left
      {
        var id :| id in left;
        if configs[id].context == context && "Ingress " <= configs[id].labelText {
          toDelete := toDelete + {id};
        }
        left := left - {id};
      }
      ghost var s0, gone := View(), {};
      assert toDelete == Orphans(s0, context) && DeletedAll(s0, {}) == s0;
      while toDelete != {}
        invariant toDelete !! gone && toDelete + gone == Orphans(s0, context)
        invariant View() == DeletedAll(s0, gone)
        decreases toDelete
      {
        var id :| id in toDelete;
        OneMoreDeleted(s0, gone, id);
        var _ := DeleteConfig(id);
        toDelete, gone := toDelete - {id}, gone + {id};
      }
      assert gone == Orphans(s0, context);
    }

    /** A port that is not well known, that nobody holds and that can be opened; or 0, and
        then there is no such port from 10000 to 65534. */
    ghost predicate IsUsableOrNone(port: int, open: int -> bool)
      reads this
    {
      if port == 0
      then forall p | 10000 <= p < 65535 :: p in WELL_KNOWN || p in usedPorts || !open(p)
      else port !in WELL_KNOWN && port !in usedPorts && open(port)
    }

    method LowestPort(open: int -> bool) returns (port: int)
      ensures IsLowest(View(), open, port) && IsUsableOrNone(port, open)
    {
      port := FIRST_PORT;
      while port < LAST_PORT
        invariant FIRST_PORT <= port <= LAST_PORT
        invariant forall p | FIRST_PORT <= p < port :: !Usable(View(), open, p)
        invariant forall p | FIRST_PORT <= p < port :: p in WELL_KNOWN || p in usedPorts || !open(p)
      {
        if port !in WELL_KNOWN {
          if port !in usedPorts && open(port) {
            return;
          }
        }
        port := port + 1;
      }
      port := 0;
    }

    method GetAvailablePort(preferred: int, open: int -> bool) returns (port: int)
      ensures if preferred > 0 && Usable(View(), open, preferred)
        then port == preferred else IsLowest(View(), open, port)
      ensures IsUsableOrNone(port, open)
    {
      if preferred > 0 && preferred !in WELL_KNOWN && open(preferred) {
        if preferred !in usedPorts {
          return preferred;
        }
      }
      port := LowestPort(open);
    }

    /** `draws` are the random numbers below 50000, at most 100 of them used. */
    method GetRandomAvailablePort(draws: seq<nat>, open: int -> bool) returns (port: int)
      requires |draws| == 100 && forall d | d in draws :: d < 50000
      ensures (exists k :: 0 <= k < 100 && IsFirstDraw(View(), draws, open, k) && port == FIRST_PORT + draws[k])
        || ((forall k | 0 <= k < 100 :: !Usable(View(), open, FIRST_PORT + draws[k])) && IsLowest(View(), open, port))
      ensures IsUsableOrNone(port, open)
    {
      var i := 0;
      while i < 100
        invariant 0 <= i <= 100
        invariant forall j | 0 <= j < i :: !Usable(View(), open, FIRST_PORT + draws[j])
      {
        port := FIRST_PORT + draws[i];
        if port in WELL_KNOWN || port in usedPorts || !open(port) {
          i := i + 1;
        } else {
          assert IsFirstDraw(View(), draws, open, i);
          return;
        }
      }
      port := LowestPort(open);
    }
  }
}
