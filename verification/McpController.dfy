/** The manager and the controller as objects; a raised error is the answer `None` or `false`. */
module McpController {
  import opened Outcomes
  import opened ToolRegistry
  import opened McpServers

  class Manager {
    var servers: map<string, Server>
    var tools: seq<Tool>
    var connections: nat
    var closed: bool

    ghost function Value(): Roster
      reads this
    {
      Roster(servers, tools, connections, closed)
    }

    constructor ()
      ensures Value() == Roster(map[], [], 0, false)
    {
      servers, tools, connections, closed := map[], [], 0, false;
    }

    /** The servers are closed one by one but stay on the table. */
    method Close()
      modifies this`closed
      ensures Value() == old(Value()).(closed := true)
    {
      closed := true;
    }

    /** `connect` is what connecting and listing came to: the tool names, or a failure. */
    method Add(name: string, settings: Settings, connect: Option<seq<string>>) returns (added: Option<seq<Tool>>)
      modifies this
      ensures Connects(old(Value()), name, connect) ==>
                && added == Some(Batch(connect.value, old(connections)))
                && Value() == Installed(old(Value()), name, settings, connect.value)
      ensures !Connects(old(Value()), name, connect) ==> added == None && Value() == old(Value())
    {
      if closed || name in servers || connect.None? {
        return None;
      }
      var existing := NameSet(tools);
      var batch := Batch(connect.value, connections);
      for i := 0 to |batch|
        invariant Value() == old(Value())
        invariant forall k :: 0 <= k < i ==> connect.value[k] !in existing
      {
        if batch[i].name in existing {
          assert connect.value[i] in connect.value;
          return None;
        }
      }
      servers := servers[name := Server(settings, connections, connect.value)];
      tools := tools + batch;
      connections := connections + 1;
      added := Some(batch);
    }

    method Remove(name: string) returns (names: Option<seq<string>>)
      modifies this
      ensures name in old(servers) ==>
                names == Some(old(servers)[name].toolNames) && Value() == Disconnected(old(Value()), name)
      ensures name !in old(servers) ==> names == None && Value() == old(Value())
    {
      if name !in servers {
        return None;
      }
      var connected := servers[name];
      servers := servers - {name};
      tools := KeepOthers(tools, connected.connection);
      names := Some(connected.toolNames);
    }

    /** The registry moves first, and may refuse; the manager follows without suspending. */
    method Restart(registry: Registry, name: string, connect: Option<seq<string>>) returns (ok: bool)
      requires registry.Valid()
      modifies this, registry
      ensures registry.Valid()
      ensures var (next, done) :=
                McpServers.Restart(Tables(old(registry.Value()), old(Value()), map[], map[]), name, connect);
              ok == done && registry.Value() == next.catalog && Value() == next.roster
    {
      if name !in servers || connect.None? {
        return false;
      }
      var connected := servers[name];
      var batch := Batch(connect.value, connections);
      ok := registry.Replace(connected.toolNames, batch);
      if !ok {
        return;
      }
      Swap(name, connect.value, batch);
    }

    /** The new connection takes the place of the old one and of its tools. */
    method Swap(name: string, listed: seq<string>, batch: seq<Tool>)
      requires name in servers && batch == Batch(listed, connections)
      modifies this
      ensures Value() == Installed(Disconnected(old(Value()), name), name, old(servers)[name].settings, listed)
    {
      var connected := servers[name];
      var kept := KeepOthers(tools, connected.connection);
      tools := kept + batch;
      servers := servers[name := Server(connected.settings, connections, listed)];
      connections := connections + 1;
      assert servers == (old(servers) - {name})[name := servers[name]];
    }
  }

  method KeepOthers(tools: seq<Tool>, connection: nat) returns (kept: seq<Tool>)
    ensures kept == Unowned(tools, connection)
  {
    kept := [];
    for i := 0 to |tools|
      invariant kept == Unowned(tools[..i], connection)
    {
      assert tools[..i + 1][..i] == tools[..i];
      if tools[i].connection != connection {
        kept := kept + [tools[i]];
      }
    }
    assert tools[..|tools|] == tools;
  }

  /** The controller; `saved` is the server table of the settings file. */
  class Controller {
    const manager: Manager
    const registry: Registry
    var configs: map<string, Settings>
    var saved: map<string, Settings>

    ghost function Value(): Tables
      reads this, manager, registry
    {
      Tables(registry.Value(), manager.Value(), configs, saved)
    }

    constructor (manager: Manager, registry: Registry, configs: map<string, Settings>, saved: map<string, Settings>)
      ensures this.manager == manager && this.registry == registry && this.configs == configs && this.saved == saved
    {
      this.manager, this.registry, this.configs, this.saved := manager, registry, configs, saved;
    }

    /** `persists` says whether the settings file can be read and written. */
    method Persist(name: string, server: Option<Settings>, persists: bool) returns (ok: bool)
      modifies this`saved
      ensures ok == persists
      ensures saved == if !persists then old(saved)
                       else if server.Some? then old(saved)[name := server.value] else old(saved) - {name}
    {
      if persists {
        saved := if server.Some? then saved[name := server.value] else saved - {name};
      }
      ok := persists;
    }

    method Add(name: string, settings: Settings, connect: Option<seq<string>>, persists: bool) returns (ok: bool)
      requires registry.Valid()
      modifies this, manager, registry
      ensures registry.Valid() && (Value(), ok) == McpServers.Add(old(Value()), name, settings, connect, persists)
    {
      if name == "" || settings.command == "" {
        return false;
      }
      var added := manager.Add(name, settings, connect);
      if added.None? {
        return false;
      }
      ok := registry.Add(added.value);
      if !ok {
        var names := manager.Remove(name);
        return;
      }
      ok := Persist(name, Some(settings), persists);
      if !ok {
        BatchNames(connect.value, old(manager.connections));
        registry.Remove(Names(added.value));
        var names := manager.Remove(name);
        return;
      }
      configs := configs[name := settings];
    }

    method Remove(name: string, persists: bool, reconnect: Option<seq<string>>) returns (ok: bool)
      requires registry.Valid()
      modifies this, manager, registry
      ensures registry.Valid() && (Value(), ok) == McpServers.Remove(old(Value()), name, persists, reconnect)
    {
      if name !in configs {
        return false;
      }
      var settings := configs[name];
      var names := manager.Remove(name);
      if names.None? {
        return false;
      }
      registry.Remove(names.value);
      ok := Persist(name, None, persists);
      if !ok {
        var added := manager.Add(name, settings, reconnect);
        if added.Some? {
          var registered := registry.Add(added.value);
        }
        return;
      }
      configs := configs - {name};
    }

    method Restart(name: string, connect: Option<seq<string>>) returns (ok: bool)
      requires registry.Valid()
      modifies manager, registry
      ensures registry.Valid() && (Value(), ok) == McpServers.Restart(old(Value()), name, connect)
    {
      ok := manager.Restart(registry, name, connect);
    }
  }
}
