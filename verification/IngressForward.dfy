/** Model of ingressforward.go on top of the port-forward manager and the hosts
    file: a start made of several steps that must undo itself when one fails. */
module IngressForward {
  import opened PortForward
  import Hosts

  // ---------------------------------------------------------------- data model

  datatype Controller = Controller(namespace: string, name: string, kind: string, httpPort: int, httpsPort: int)

  datatype IngressState = IngressState(
    active: bool,
    status: string,
    error: string,
    context: string,
    localHTTPPort: int,
    localHTTPSPort: int,
    hostnames: seq<string>,
    portForwardIDs: seq<string>,
    hostsFileUpdated: bool)

  const STOPPED := IngressState(false, "stopped", "", "", 0, 0, [], [], false)

  datatype Hostnames = Collected(names: seq<string>) | CollectFailed(error: string)

  /** Everything a start gets from outside: the cluster, the system's ports, new ids,
      the clock, and whether the hosts file may be written. */
  datatype World = World(
    context: string,
    hostnames: Hostnames,
    free8443: bool,
    free8080: bool,
    open: int -> bool,
    httpsId: string,
    httpId: string,
    now: int,
    startable: string -> bool,
    hostsWritable: bool)

  // ---------------------------------------------------------------- what a start may leave behind

  function IdSet(ids: seq<string>): set<string> {
    set id | id in ids
  }

  /** Deleting these configurations leads back to the base. */
  ghost predicate LeadsBack(s: State, ids: set<string>, base: State) {
    DeletedAll(s, ids) == base
  }

  /** An id nobody has used. */
  ghost predicate Unused(s: State, id: string) {
    id != "" && id !in s.configs && id !in s.active && id !in s.usedPorts.Values
  }

  lemma NothingAdded(s: State)
    ensures LeadsBack(s, {}, s)
  {
    assert s.configs - {} == s.configs && s.active - {} == s.active;
    assert DeletedAll(s, {}).usedPorts == s.usedPorts;
  }

  function PortsOf(s: State, ids: set<string>): set<int> {
    set id | id in ids && id in s.configs :: s.configs[id].localPort
  }

  lemma PortsOfOneMore(s: State, s': State, ids: set<string>, c: Config)
    requires c.id !in s.configs && s'.configs == s.configs[c.id := c]
    ensures PortsOf(s', ids + {c.id}) == PortsOf(s, ids) + {c.localPort}
  {
    var ids' := ids + {c.id};
    assert c.id in ids' && c.id in s'.configs && s'.configs[c.id].localPort == c.localPort;
    forall id | id in ids && id in s.configs ensures id in ids' && s'.configs[id] == s.configs[id] {
    }
  }

  lemma AddedLeadsBack(s: State, ids: set<string>, base: State, c: Config)
    requires LeadsBack(s, ids, base) && Unused(s, c.id) && PortFree(s, c)
    ensures LeadsBack(Added(s, c), ids + {c.id}, base)
  {
    assert forall p | p in s.usedPorts :: s.usedPorts[p] in s.usedPorts.Values && s.usedPorts[p] != c.id;
    var s', ids' := Added(s, c), ids + {c.id};
    assert s'.configs - ids' == s.configs - ids && s'.active - ids' == s.active - ids;
    PortsOfOneMore(s, s', ids, c);
    var ports := PortsOf(s, ids);
    assert s'.usedPorts - (ports + {c.localPort}) == s.usedPorts - ports;
  }

  lemma StillUnused(s: State, c: Config, id: string)
    requires Unused(s, id) && id != c.id
    ensures Unused(Added(s, c), id)
  {
  }

  lemma StartedLeadsBack(s: State, ids: set<string>, base: State, id: string, open: bool)
    requires LeadsBack(s, ids, base) && id in ids
    ensures LeadsBack(Started(s, id, open), ids, base)
  {
    assert Started(s, id, open).active - ids == s.active - ids;
  }

  /** Stopping and deleting one more id, whether or not it still exists. */
  lemma OneMoreUndone(s: State, ids: set<string>, id: string)
    ensures var s1 := DeletedAll(s, ids);
      Deleted(s1.(active := s1.active - {id}), id) == DeletedAll(s, ids + {id})
  {
    var s1 := DeletedAll(s, ids);
    var s2, s3 := Deleted(s1.(active := s1.active - {id}), id), DeletedAll(s, ids + {id});
    assert s2.configs == s3.configs && s2.active == s3.active;
    assert s2.usedPorts == s3.usedPorts;
  }

  // ---------------------------------------------------------------- the hosts file

  /** Each host name, in order, for the local address. */
  function LocalEntries(hostnames: seq<string>): (entries: seq<Hosts.Entry>)
    ensures |entries| == |hostnames|
    ensures forall i | 0 <= i < |hostnames| :: entries[i].ip == "127.0.0.1" && entries[i].hostname == hostnames[i]
  {
    seq(|hostnames|, i requires 0 <= i < |hostnames| => Hosts.Entry("127.0.0.1", hostnames[i]))
  }

  ghost predicate AllHostnamesValid(hostnames: seq<string>) {
    forall h | h in hostnames :: Hosts.ValidHostname(h)
  }

  lemma LocalEntriesValid(names: seq<string>)
    ensures (forall e | e in LocalEntries(names) :: Hosts.ValidHostname(e.hostname)) <==> AllHostnamesValid(names)
  {
    var entries := LocalEntries(names);
    assert forall i | 0 <= i < |names| :: entries[i] in entries && entries[i].hostname == names[i];
  }

  class HostsFile {
    var content: string

    constructor (text: string)
      ensures content == text
    {
      content := text;
    }

    /** AddEntriesWithPortRedirect, without the packet filter. */
    method AddEntries(entries: seq<Hosts.Entry>, writable: bool, chunk: nat -> nat) returns (ok: bool)
      modifies this
      ensures ok <==> entries == [] || (writable && forall e | e in entries :: Hosts.ValidHostname(e.hostname))
      ensures content == if ok && entries != [] then Hosts.Updated(old(content), entries) else old(content)
    {
      if |entries| == 0 {
        return true;
      }
      var valid := Hosts.ValidateEntries(entries);
      if !valid || !writable {
        return false;
      }
      var cleaned := Hosts.RemoveExistingManagedBlock(content, chunk);
      var block := Hosts.BuildEntriesContent(entries);
      content := cleaned + block;
      return true;
    }

    method RemoveEntries(writable: bool, chunk: nat -> nat) returns (ok: bool)
      modifies this
      ensures ok <==> writable || Hosts.Removed(old(content)) == old(content)
      ensures content == if ok then Hosts.Removed(old(content)) else old(content)
    {
      var cleaned := Hosts.RemoveExistingManagedBlock(content, chunk);
      if content == cleaned {
        return true;
      }
      if !writable {
        return false;
      }
      content := cleaned;
      return true;
    }
  }

  /** What a start wrote to the hosts file is gone after a stop: only the removal
      that any edit begins with remains. */
  lemma StopCleansHosts(content: string, hostnames: seq<string>)
    requires AllHostnamesValid(hostnames)
    ensures var started := Hosts.Updated(content, LocalEntries(hostnames));
      && Hosts.Parse(started) == LocalEntries(hostnames)
      && Hosts.Removed(started) == Hosts.Removed(Hosts.Removed(content))
      && Hosts.Parse(Hosts.Removed(started)) == []
  {
    var entries := LocalEntries(hostnames);
    forall e | e in entries ensures Hosts.ValidEntry(e) {
      Hosts.ValidHostnameFits(e.hostname);
    }
    Hosts.UpdateIsReadBack(content, entries);
    Hosts.RemoveUndoesUpdate(content, entries);
    Hosts.RemovedHasNoEntries(Hosts.Updated(content, entries));
  }

  /** The configuration of one forward to the controller. */
  function ForwardConfig(controller: Controller, context: string, id: string, local: int, remote: int, https: bool,
      now: int): (c: Config)
    ensures IsOrphan(c, context) && c.keepAlive && c.id == id
    ensures c.labelText == (if https then "Ingress HTTPS (" else "Ingress HTTP (") + controller.kind + ")"
  {
    var title := if https then "Ingress HTTPS (" else "Ingress HTTP (";
    Config(id, context, controller.namespace, "service", controller.name, local, remote,
      title + controller.kind + ")", false, false, true, https, now)
  }

  /** The port for HTTPS: 8443 or, when that is taken, the lowest usable one. */
  ghost predicate RightPort(w: World, s: State, port: int) {
    if w.free8443 then port == 8443 else IsLowest(s, w.open, port)
  }

  lemma OnlyOneRightPort(w: World, s: State, port: int, port': int)
    requires RightPort(w, s, port) && RightPort(w, s, port')
    ensures port == port' && port != 8080
  {
  }

  /** HTTP is forwarded if 8080 is free and the controller has a port for it. */
  predicate AddsHTTP(controller: Controller, w: World, s: State) {
    w.free8080 && controller.httpPort > 0 && 8080 !in s.usedPorts
  }

  function IdsToAdd(controller: Controller, w: World, s: State): (ids: seq<string>)
    ensures |ids| <= 2 && (|ids| == 2 ==> ids == [w.httpsId, w.httpId])
  {
    (if controller.httpsPort > 0 then [w.httpsId] else []) + if AddsHTTP(controller, w, s) then [w.httpId] else []
  }

  /** The forwards can be added and started: HTTPS, if the controller has a port for it,
      on a port nobody holds, and at least one of the two. */
  predicate Succeeds(controller: Controller, w: World, s: State, port: int) {
    && (controller.httpsPort > 0 ==> port !in s.usedPorts && w.startable(w.httpsId))
    && (AddsHTTP(controller, w, s) ==> w.startable(w.httpId))
    && (controller.httpsPort > 0 || AddsHTTP(controller, w, s))
  }

  /** Distinct configurations, none of them running. */
  predicate StartableAll(s: State, ids: seq<string>) {
    && (forall i | 0 <= i < |ids| :: ids[i] in s.configs && ids[i] !in s.active)
    && forall i, j | 0 <= i < j < |ids| :: ids[i] != ids[j]
  }

  lemma AddedAreStartable(controller: Controller, w: World, base: State, s: State)
    requires Unused(base, w.httpsId) && Unused(base, w.httpId) && w.httpsId != w.httpId && s.active == base.active
    requires controller.httpsPort > 0 ==> w.httpsId in s.configs
    requires AddsHTTP(controller, w, base) ==> w.httpId in s.configs
    ensures StartableAll(s, IdsToAdd(controller, w, base))
  {
  }

  lemma UnusedPortIsFree(s: State, c: Config)
    requires Unused(s, c.id)
    ensures PortFree(s, c) <==> c.localPort !in s.usedPorts
  {
    if c.localPort in s.usedPorts { assert s.usedPorts[c.localPort] in s.usedPorts.Values; }
  }

  // ---------------------------------------------------------------- the manager

  class IngressForwardManager {
    const pf: PortForwardManager
    const hosts: HostsFile
    var state: IngressState

    constructor (pf: PortForwardManager, hosts: HostsFile)
      ensures this.pf == pf && this.hosts == hosts && state == STOPPED
    {
      this.pf, this.hosts, state := pf, hosts, STOPPED;
    }

    /** While not active, nothing is remembered that a stop would have to undo. */
    ghost predicate Valid()
      reads this
    {
      !state.active ==> state.portForwardIDs == [] && !state.hostsFileUpdated
    }

    method SetError(error: string)
      modifies this`state
      ensures state == old(state).(status := "error", error := error, active := false)
    {
      state := state.(status := "error");
      state := state.(error := error);
      state := state.(active := false);
    }

    /** Adds one configuration and remembers its id. */
    method AddForward(c: Config, ids: seq<string>, ghost base: State) returns (ids': seq<string>, ok: bool)
      requires Registered(pf.View()) && LeadsBack(pf.View(), IdSet(ids), base) && Unused(pf.View(), c.id)
      modifies pf`configs, pf`usedPorts
      ensures Registered(pf.View()) && LeadsBack(pf.View(), IdSet(ids'), base)
      ensures pf.View() == Added(old(pf.View()), c)
      ensures ok <==> c.localPort !in old(pf.usedPorts)
      ensures ids' == if ok then ids + [c.id] else ids
    {
      ghost var s := pf.View();
      UnusedPortIsFree(s, c);
      var r := pf.AddConfig(c, "", c.createdAt);
      AddKeepsRegistered(s, c);
      ids', ok := ids, r.Ok?;
      if ok {
        AddedLeadsBack(s, IdSet(ids), base, c);
        assert IdSet(ids + [c.id]) == IdSet(ids) + {c.id};
        ids' := ids + [r.config.id];
      }
    }

    /** A service forward to the controller in the context, kept alive. */
    ghost predicate ToController(controller: Controller, w: World, id: string)
      reads pf
      requires id in pf.configs
    {
      var c := pf.configs[id];
      && c.id == id && c.context == w.context && c.keepAlive && c.createdAt == w.now && "Ingress " <= c.labelText
      && c.resourceType == "service" && c.namespace == controller.namespace && c.resourceName == controller.name
      && !c.favorite && !c.autoStart
    }

    /** HTTPS: from the local port to the controller's port for it. */
    ghost predicate ForwardsHTTPS(controller: Controller, w: World, ids: seq<string>, port: int)
      reads pf
    {
      w.httpsId in ids ==>
        && controller.httpsPort > 0 && w.httpsId in pf.configs && ToController(controller, w, w.httpsId)
        && pf.configs[w.httpsId].localPort == port
        && pf.configs[w.httpsId].remotePort == controller.httpsPort && pf.configs[w.httpsId].https
        && pf.configs[w.httpsId].labelText == "Ingress HTTPS (" + controller.kind + ")"
    }

    /** HTTP: from 8080, if it is free, to the controller's port for it. */
    ghost predicate ForwardsHTTP(controller: Controller, w: World, ids: seq<string>)
      reads pf
    {
      w.httpId in ids ==>
        && controller.httpPort > 0 && w.free8080 && w.httpId in pf.configs && ToController(controller, w, w.httpId)
        && pf.configs[w.httpId].localPort == 8080
        && pf.configs[w.httpId].remotePort == controller.httpPort && !pf.configs[w.httpId].https
        && pf.configs[w.httpId].labelText == "Ingress HTTP (" + controller.kind + ")"
    }

    /** The added configurations: to the controller's ports, from the chosen ones. */
    ghost predicate ForwardsTo(controller: Controller, w: World, ids: seq<string>, httpsPort: int)
      reads pf
    {
      ForwardsHTTPS(controller, w, ids, httpsPort) && ForwardsHTTP(controller, w, ids)
    }

    method ChooseHTTPSPort(w: World) returns (port: int)
      ensures RightPort(w, pf.View(), port)
      ensures if w.free8443 then port == 8443 else pf.IsUsableOrNone(port, w.open)
    {
      port := 8443;
      if !w.free8443 {
        port := pf.GetAvailablePort(8443, w.open);
      }
    }

    /** The configuration for HTTPS, if the controller has such a port. */
    method AddHTTPS(controller: Controller, w: World, port: int) returns (ids: seq<string>, failed: bool)
      requires Registered(pf.View()) && Unused(pf.View(), w.httpsId)
      requires Unused(pf.View(), w.httpId) && w.httpsId != w.httpId
      modifies pf`configs, pf`usedPorts
      ensures Registered(pf.View()) && LeadsBack(pf.View(), IdSet(ids), old(pf.View()))
      ensures failed ==> ids == []
      ensures !failed ==> ids == if controller.httpsPort > 0 then [w.httpsId] else []
      ensures Unused(pf.View(), w.httpId) && ForwardsHTTPS(controller, w, ids, port)
      ensures failed <==> controller.httpsPort > 0 && port in old(pf.usedPorts)
      ensures forall p | p != port :: p in pf.usedPorts <==> p in old(pf.usedPorts)
      ensures pf.active == old(pf.active)
    {
      ghost var base := pf.View();
      ids, failed := [], false;
      NothingAdded(base);
      if controller.httpsPort > 0 {
        var c := ForwardConfig(controller, w.context, w.httpsId, port, controller.httpsPort, true, w.now);
        StillUnused(base, c, w.httpId);
        var ok;
        ids, ok := AddForward(c, ids, base);
        failed := !ok;
        assert [] + [w.httpsId] == [w.httpsId];
      }
    }

    /** The configuration for HTTP, which is optional. */
    method AddHTTP(controller: Controller, w: World, ids: seq<string>, port: int, ghost base: State)
      returns (ids': seq<string>)
      requires Registered(pf.View()) && LeadsBack(pf.View(), IdSet(ids), base) && Unused(pf.View(), w.httpId)
      requires port == (if w.free8080 then 8080 else 0) && w.httpId !in ids
      modifies pf`configs, pf`usedPorts
      ensures Registered(pf.View()) && LeadsBack(pf.View(), IdSet(ids'), base)
      ensures ids' == if AddsHTTP(controller, w, old(pf.View())) then ids + [w.httpId] else ids
      ensures pf.active == old(pf.active)
      ensures ForwardsHTTP(controller, w, ids')
      ensures forall id | id in old(pf.configs) :: id in pf.configs && pf.configs[id] == old(pf.configs[id])
    {
      ids' := ids;
      if port > 0 && controller.httpPort > 0 {
        var c := ForwardConfig(controller, w.context, w.httpId, port, controller.httpPort, false, w.now);
        var added;
        ids', added := AddForward(c, ids, base);
      }
    }

    /** Chooses the local ports and adds a configuration for each. */
    method AddForwards(controller: Controller, w: World) returns (ids: seq<string>, failed: bool)
      requires Registered(pf.View()) && Unused(pf.View(), w.httpsId)
      requires Unused(pf.View(), w.httpId) && w.httpsId != w.httpId
      modifies this`state, pf`configs, pf`usedPorts
      ensures Registered(pf.View()) && LeadsBack(pf.View(), IdSet(ids), old(pf.View()))
      ensures failed ==> ids == []
      ensures failed <==> controller.httpsPort > 0 && state.localHTTPSPort in old(pf.usedPorts)
      ensures !failed ==> ids == IdsToAdd(controller, w, old(pf.View()))
      ensures pf.active == old(pf.active)
      ensures state == old(state).(localHTTPPort := state.localHTTPPort, localHTTPSPort := state.localHTTPSPort)
      ensures state.localHTTPPort == if w.free8080 then 8080 else 0
      ensures RightPort(w, old(pf.View()), state.localHTTPSPort)
      ensures ForwardsTo(controller, w, ids, state.localHTTPSPort)
      ensures w.httpsId in ids ==> RightPort(w, old(pf.View()), pf.configs[w.httpsId].localPort)
    {
      ghost var base := pf.View();
      var localHTTPSPort := ChooseHTTPSPort(w);
      var localHTTPPort := 0;
      if w.free8080 {
        localHTTPPort := 8080;
      }
      state := state.(localHTTPPort := localHTTPPort, localHTTPSPort := localHTTPSPort);
      OnlyOneRightPort(w, base, localHTTPSPort, localHTTPSPort);
      ids, failed := AddHTTPS(controller, w, localHTTPSPort);
      if failed {
        return;
      }
      ids := AddHTTP(controller, w, ids, localHTTPPort, base);
    }

    /** Stop: undoes the forwards it remembers, and the hosts file if it was changed. */
    method Stop(writable: bool, chunk: nat -> nat)
      modifies this, pf, hosts
      ensures if old(state.active) then state == STOPPED else state == old(state)
      ensures pf.View() ==
        if old(state.active) then DeletedAll(old(pf.View()), IdSet(old(state.portForwardIDs))) else old(pf.View())
      ensures hosts.content ==
        if old(state.active) && old(state.hostsFileUpdated) && writable
        then Hosts.Removed(old(hosts.content)) else old(hosts.content)
    {
      if !state.active {
        return;
      }
      var portForwardIDs, hostsFileUpdated := state.portForwardIDs, state.hostsFileUpdated;
      ghost var s0 := pf.View();
      NothingAdded(s0);
      for i := 0 to |portForwardIDs|
        invariant pf.View() == DeletedAll(s0, IdSet(portForwardIDs[..i]))
        invariant state == old(state) && hosts.content == old(hosts.content)
      {
        OneMoreUndone(s0, IdSet(portForwardIDs[..i]), portForwardIDs[i]);
        assert IdSet(portForwardIDs[..i + 1]) == IdSet(portForwardIDs[..i]) + {portForwardIDs[i]};
        var _ := pf.Stop(portForwardIDs[i]);
        var _ := pf.DeleteConfig(portForwardIDs[i]);
      }
      assert portForwardIDs[..|portForwardIDs|] == portForwardIDs;
      if hostsFileUpdated {
        var _ := hosts.RemoveEntries(writable, chunk);
      }
      state := STOPPED;
    }

    /** Starts the forwards in turn; at the first failure everything is undone. */
    method StartForwards(w: World, chunk: nat -> nat, ghost base: State) returns (ok: bool)
      requires state.active && LeadsBack(pf.View(), IdSet(state.portForwardIDs), base) && !state.hostsFileUpdated
      modifies this, pf, hosts
      ensures hosts.content == old(hosts.content)
      ensures ok ==> state == old(state) && LeadsBack(pf.View(), IdSet(state.portForwardIDs), base)
      ensures ok ==> pf.configs == old(pf.configs) && pf.usedPorts == old(pf.usedPorts)
      ensures ok ==> forall id | id in state.portForwardIDs :: id in pf.active
      ensures StartableAll(old(pf.View()), old(state.portForwardIDs)) ==>
        (ok <==> forall i | 0 <= i < |old(state.portForwardIDs)| :: w.startable(old(state.portForwardIDs)[i]))
      ensures !ok ==> pf.View() == base && state.status == "error"
      ensures !ok ==> !state.active && state.portForwardIDs == [] && !state.hostsFileUpdated
    {
      var ids := state.portForwardIDs;
      for i := 0 to |ids|
        invariant state == old(state) && hosts.content == old(hosts.content)
        invariant pf.configs == old(pf.configs) && pf.usedPorts == old(pf.usedPorts)
        invariant LeadsBack(pf.View(), IdSet(ids), base)
        invariant forall j | 0 <= j < i :: ids[j] in pf.active && w.startable(ids[j])
        invariant forall id | id in pf.active :: id in old(pf.active) || id in ids[..i]
      {
        StartedLeadsBack(pf.View(), IdSet(ids), base, ids[i], w.startable(ids[i]));
        var r := pf.Start(ids[i], w.startable(ids[i]));
        if !r.Ok? {
          Stop(w.hostsWritable, chunk);
          SetError("failed to start port forward");
          return false;
        }
      }
      return true;
    }

    /** Writes the host names; a failure leaves the forwards running. */
    method UpdateHosts(w: World, chunk: nat -> nat)
      requires state.active && w.hostnames.Collected? && w.hostnames.names != []
      modifies this, hosts
      ensures var ok := w.hostsWritable && AllHostnamesValid(w.hostnames.names);
        && hosts.content
          == (if ok then Hosts.Updated(old(hosts.content), LocalEntries(w.hostnames.names)) else old(hosts.content))
        && state.hostsFileUpdated == ok
        && state.active && state.portForwardIDs == old(state.portForwardIDs) && state.hostnames == old(state.hostnames)
        && state.context == old(state.context)
        && state.localHTTPSPort == (if ok then 443 else old(state.localHTTPSPort))
        && state.localHTTPPort == (if ok && old(state.localHTTPPort) > 0 then 80 else old(state.localHTTPPort))
    {
      var entries := LocalEntries(w.hostnames.names);
      LocalEntriesValid(w.hostnames.names);
      var ok := hosts.AddEntries(entries, w.hostsWritable, chunk);
      if !ok {
        state := state.(hostsFileUpdated := false, error := "Port forwarding active but hosts file update failed");
      } else {
        state := state.(hostsFileUpdated := true);
        state := state.(localHTTPSPort := 443);
        if state.localHTTPPort > 0 {
          state := state.(localHTTPPort := 80);
        }
      }
    }

    /** Starts what was added, then writes the hosts file. */
    method GoLive(w: World, chunk: nat -> nat, ghost base: State) returns (ok: bool)
      requires state.active && LeadsBack(pf.View(), IdSet(state.portForwardIDs), base) && !state.hostsFileUpdated
      requires w.hostnames.Collected? && w.hostnames.names != []
      modifies this, pf, hosts
      ensures !ok ==> pf.View() == base && hosts.content == old(hosts.content)
      ensures !ok ==> Valid() && !state.active && state.status == "error"
      ensures ok ==> state.active && state.status == "running" && state.portForwardIDs == old(state.portForwardIDs)
      ensures ok ==> pf.configs == old(pf.configs) && LeadsBack(pf.View(), IdSet(state.portForwardIDs), base)
      ensures ok ==> forall id | id in state.portForwardIDs :: id in pf.active
      ensures ok ==> HostsWritten(w, old(hosts.content))
      ensures ok ==> state.hostnames == old(state.hostnames) && state.context == old(state.context)
      ensures ok ==> state.localHTTPSPort == if state.hostsFileUpdated then 443 else old(state.localHTTPSPort)
      ensures ok && state.hostsFileUpdated && old(state.localHTTPPort) > 0 ==> state.localHTTPPort == 80
      ensures ok && !(state.hostsFileUpdated && old(state.localHTTPPort) > 0) ==>
        state.localHTTPPort == old(state.localHTTPPort)
      ensures StartableAll(old(pf.View()), old(state.portForwardIDs)) ==>
        (ok <==> forall i | 0 <= i < |old(state.portForwardIDs)| :: w.startable(old(state.portForwardIDs)[i]))
    {
      ok := StartForwards(w, chunk, base);
      if ok {
        UpdateHosts(w, chunk);
        state := state.(status := "running");
      }
    }

    /** Adds the forwards; without any there is nothing to start. */
    method Prepare(controller: Controller, w: World) returns (ok: bool)
      requires state.active && state.portForwardIDs == [] && !state.hostsFileUpdated
      requires w.hostnames.Collected?
      requires Registered(pf.View()) && Unused(pf.View(), w.httpsId) && Unused(pf.View(), w.httpId)
        && w.httpsId != w.httpId
      modifies this`state, pf`configs, pf`usedPorts
      ensures RightPort(w, old(pf.View()), state.localHTTPSPort)
      ensures ok <==>
        && !(controller.httpsPort > 0 && state.localHTTPSPort in old(pf.usedPorts))
        && IdsToAdd(controller, w, old(pf.View())) != []
      ensures !ok ==> pf.View() == old(pf.View()) && Valid() && !state.active && state.status == "error"
      ensures ok ==> LeadsBack(pf.View(), IdSet(state.portForwardIDs), old(pf.View()))
      ensures ok ==> ForwardsTo(controller, w, state.portForwardIDs, state.localHTTPSPort)
      ensures ok ==> StartableAll(pf.View(), state.portForwardIDs)
      ensures ok ==> state == old(state).(
        hostnames := w.hostnames.names, portForwardIDs := IdsToAdd(controller, w, old(pf.View())),
        localHTTPPort := if w.free8080 then 8080 else 0, localHTTPSPort := state.localHTTPSPort)
    {
      ghost var base := pf.View();
      state := state.(hostnames := w.hostnames.names);
      var ids, failed := AddForwards(controller, w);
      if failed || |ids| == 0 {
        SetError(if failed then "failed to create HTTPS port forward config" else "failed to create any port forwards");
        NothingLeftToUndo(pf.View(), base);
        return false;
      }
      AddedAreStartable(controller, w, base, pf.View());
      state := state.(portForwardIDs := ids);
      ok := true;
    }

    /** The rest of Start, once there are host names to forward. */
    method Launch(controller: Controller, w: World, chunk: nat -> nat) returns (ok: bool, ghost port: int)
      requires state.active && state.portForwardIDs == [] && !state.hostsFileUpdated
      requires w.hostnames.Collected? && w.hostnames.names != []
      requires Registered(pf.View()) && Unused(pf.View(), w.httpsId) && Unused(pf.View(), w.httpId)
        && w.httpsId != w.httpId
      modifies this, pf, hosts
      ensures RightPort(w, old(pf.View()), port) && (ok <==> Succeeds(controller, w, old(pf.View()), port))
      ensures !ok ==> pf.View() == old(pf.View()) && hosts.content == old(hosts.content)
      ensures !ok ==> Valid() && !state.active && state.status == "error"
      ensures ok ==> Running(w) && LeadsBack(pf.View(), IdSet(state.portForwardIDs), old(pf.View()))
      ensures ok ==> state.portForwardIDs == IdsToAdd(controller, w, old(pf.View()))
      ensures ok ==> ForwardsTo(controller, w, state.portForwardIDs, port) && ShowsPorts(w, port)
      ensures ok ==> HostsWritten(w, old(hosts.content))
      ensures ok ==> state.hostnames == w.hostnames.names && state.context == old(state.context)
    {
      ghost var base := pf.View();
      ok := Prepare(controller, w);
      port := state.localHTTPSPort;
      if ok {
        ok := GoLive(w, chunk, base);
      }
      assert ok ==> ForwardsTo(controller, w, state.portForwardIDs, port);
    }

    /** The ports the state shows: the standard ones once the hosts file is written. */
    ghost predicate ShowsPorts(w: World, httpsPort: int)
      reads this
    {
      && state.localHTTPSPort == (if state.hostsFileUpdated then 443 else httpsPort)
      && state.localHTTPPort == if !w.free8080 then 0 else if state.hostsFileUpdated then 80 else 8080
    }

    /** The hosts file after a start that succeeded. */
    ghost predicate HostsWritten(w: World, before: string)
      reads this, hosts
      requires w.hostnames.Collected?
    {
      && state.hostsFileUpdated == (w.hostsWritable && AllHostnamesValid(w.hostnames.names))
      && hosts.content ==
         if state.hostsFileUpdated then Hosts.Updated(before, LocalEntries(w.hostnames.names)) else before
    }

    /** Main result for Start: whatever fails after the orphan cleanup, the forwards
        are exactly those the cleanup left; and after a success they are those plus
        running forwards whose removal leads back there. */
    method Start(controller: Controller, w: World, chunk: nat -> nat) returns (ok: bool, ghost port: int)
      requires Valid() && Registered(pf.View())
      requires Unused(pf.View(), w.httpsId) && Unused(pf.View(), w.httpId) && w.httpsId != w.httpId
      modifies this, pf, hosts
      ensures Valid()
      ensures old(state.active) ==>
        !ok && state == old(state) && pf.View() == old(pf.View()) && hosts.content == old(hosts.content)
      ensures !old(state.active) && !ok ==>
        && pf.View() == Cleaned(old(pf.View()), w.context) && hosts.content == old(hosts.content)
        && !state.active && state.status == "error"
      ensures ok ==> Running(w) && LeadsBack(pf.View(), IdSet(state.portForwardIDs), Cleaned(old(pf.View()), w.context))
      ensures ok ==> !old(state.active) && w.hostnames.Collected? && w.hostnames.names != []
      ensures !old(state.active) && w.hostnames.Collected? && w.hostnames.names != [] ==>
        var s := Cleaned(old(pf.View()), w.context);
        RightPort(w, s, port) && (ok <==> Succeeds(controller, w, s, port))
      ensures ok ==> ForwardsTo(controller, w, state.portForwardIDs, port) && ShowsPorts(w, port)
      ensures ok ==> state.portForwardIDs == IdsToAdd(controller, w, Cleaned(old(pf.View()), w.context))
      ensures ok ==> state.hostnames == w.hostnames.names && state.context == w.context
      ensures ok ==> HostsWritten(w, old(hosts.content))
    {
      port := 0;
      if state.active {
        return false, port;
      }
      state := state.(status := "starting", active := true, error := "", context := w.context);
      ghost var s0 := pf.View();
      CleanedKeepsTheRest(s0, w.context);
      UnusedInCleaned(s0, w.context, w.httpsId);
      UnusedInCleaned(s0, w.context, w.httpId);
      pf.CleanupIngressConfigs(w.context);
      if w.hostnames.CollectFailed? {
        SetError("failed to collect hostnames");
        return false, port;
      }
      if |w.hostnames.names| == 0 {
        SetError("no ingress hostnames found in cluster");
        return false, port;
      }
      ok, port := Launch(controller, w, chunk);
    }

    /** A start followed by a stop, with nothing in between: the forwards are those the
        orphan cleanup left, whether the start succeeded or not, and the hosts file is
        as it was or cleaned. */
    method StartThenStop(controller: Controller, w: World, removable: bool, chunk: nat -> nat)
      requires Valid() && !state.active && Registered(pf.View())
      requires Unused(pf.View(), w.httpsId) && Unused(pf.View(), w.httpId) && w.httpsId != w.httpId
      modifies this, pf, hosts
      ensures !state.active && pf.View() == Cleaned(old(pf.View()), w.context)
      ensures removable ==>
        hosts.content == old(hosts.content) || hosts.content == Hosts.Removed(Hosts.Removed(old(hosts.content)))
    {
      var ok, _ := Start(controller, w, chunk);
      if ok && state.hostsFileUpdated {
        StopCleansHosts(old(hosts.content), w.hostnames.names);
      }
      Stop(removable, chunk);
    }

    ghost predicate Running(w: World)
      reads this, pf
    {
      && state.active && state.status == "running" && state.portForwardIDs != []
      && IdSet(state.portForwardIDs) <= {w.httpsId, w.httpId}
      && forall id | id in state.portForwardIDs :: id in pf.active
    }

    /** RefreshHostnames. */
    method RefreshHostnames(hostnames: Hostnames, writable: bool, chunk: nat -> nat) returns (ok: bool)
      requires Valid()
      modifies this, hosts
      ensures Valid()
      ensures ok <==>
        && old(state.active) && hostnames.Collected?
        && (hostnames.names == [] || (writable && AllHostnamesValid(hostnames.names)))
      ensures ok ==> state == old(state).(hostnames := hostnames.names, hostsFileUpdated := true)
      ensures hosts.content ==
        if ok && hostnames.names != [] then Hosts.Updated(old(hosts.content), LocalEntries(hostnames.names))
        else old(hosts.content)
      ensures !ok ==> state == old(state)
    {
      if !state.active || hostnames.CollectFailed? {
        return false;
      }
      LocalEntriesValid(hostnames.names);
      ok := hosts.AddEntries(LocalEntries(hostnames.names), writable, chunk);
      if !ok {
        return false;
      }
      state := state.(hostnames := hostnames.names, hostsFileUpdated := true);
    }
  }

  /** The orphan cleanup of the next start does what a stop that never came would have
      done: after a crash it leads back to the same configurations. */
  lemma CrashIsCleanedUp(s0: State, s: State, ids: set<string>, context: string)
    requires LeadsBack(s, ids, Cleaned(s0, context))
    requires forall id | id in ids :: id in s.configs && IsOrphan(s.configs[id], context)
    ensures Cleaned(s, context) == Cleaned(s0, context)
  {
    var base := Cleaned(s0, context);
    assert forall id | id in base.configs :: base.configs[id] == s.configs[id] && !IsOrphan(base.configs[id], context);
    assert Orphans(s, context) == ids;
  }

  lemma UnusedInCleaned(s: State, context: string, id: string)
    requires Unused(s, id)
    ensures Unused(Cleaned(s, context), id)
  {
  }

  lemma NothingLeftToUndo(s: State, base: State)
    requires LeadsBack(s, IdSet([]), base)
    ensures s == base
  {
    assert IdSet([]) == {};
    NothingAdded(s);
  }
}
