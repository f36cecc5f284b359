/**
 When each operation of the MCP controller succeeds, and what success means: for the server it is about,
 for its tools, and for everything else (`app/mcp.py`, `Manager` in `tools/mcp/client.py`).
 */
module McpEffects {
  import opened Outcomes
  import opened ToolRegistry
  import opened McpServers

  /** The names under which a server's own connection offers tools. */
  function OwnTools(t: Tables, name: string): set<string>
    requires name in t.roster.servers
  {
    set tool | tool in t.roster.tools && tool.connection == t.roster.servers[name].connection :: tool.name
  }

  /** What a server lists can be taken: no name is empty, repeated, or held by someone else. */
  predicate CanBeTaken(t: Tables, listed: seq<string>, own: set<string>) {
    && (forall i, j :: 0 <= i < j < |listed| ==> listed[i] != listed[j])
    && forall n :: n in listed ==> n != "" && (n in t.catalog.tools ==> n in own)
  }

  /** `gone` leaves the registry and the manager, `come` joins both under `connection`, and nothing else moves. */
  ghost predicate ToolsChange(t: Tables, next: Tables, gone: set<string>, come: seq<string>, connection: nat) {
    && (forall n :: n in next.catalog.tools <==> (n in t.catalog.tools && n !in gone) || n in come)
    && (forall n :: n in t.catalog.tools && n !in gone ==>
                      n in next.catalog.tools && next.catalog.tools[n] == t.catalog.tools[n])
    && (forall n :: n in come ==> n in next.catalog.tools && next.catalog.tools[n] == Tool(n, connection))
    && (forall tool :: tool in next.roster.tools <==>
                         || (tool in t.roster.tools && tool.name !in gone)
                         || (tool.connection == connection && tool.name in come))
    && next.catalog.order == Without(t.catalog.order, gone) + come
    && (forall n :: n in next.catalog.order <==> n in next.catalog.tools) && Distinct(next.catalog.order)
  }

  /** The settings of the controller and of the file. */
  predicate Remembers(next: Tables, configs: map<string, Settings>) {
    next.configs == configs && next.saved == configs
  }

  // ----- Helpers -----

  lemma {:induction false} IndexValues(items: seq<Tool>)
    ensures forall n :: n in Index(items) ==> Index(items)[n] in items && Index(items)[n].name == n
    ensures forall tool :: tool in items ==> tool.name in Index(items)
  {
    if items != [] {
      IndexValues(items[..|items| - 1]);
      assert items == items[..|items| - 1] + [items[|items| - 1]];
    }
  }

  lemma BatchTools(listed: seq<string>, connection: nat)
    ensures forall tool :: tool in Batch(listed, connection) <==> tool.connection == connection && tool.name in listed
    ensures forall n :: n in Index(Batch(listed, connection)) <==> n in listed
    ensures forall n :: n in listed ==> Index(Batch(listed, connection))[n] == Tool(n, connection)
  {
    var batch := Batch(listed, connection);
    IndexValues(batch);
    forall tool: Tool | tool.connection == connection && tool.name in listed
      ensures tool in batch
    {
      var i :| 0 <= i < |listed| && listed[i] == tool.name;
      assert batch[i] == tool;
    }
    forall n | n in listed
      ensures n in Index(batch)
    {
      assert Tool(n, connection) in batch;
    }
  }

  lemma TakenFits(t: Tables, listed: seq<string>, own: set<string>, connection: nat)
    ensures Fits(Batch(listed, connection), t.catalog.tools.Keys - own) <==> CanBeTaken(t, listed, own)
  {
    FittingBatch(t.roster.(connections := connection), listed, t.catalog.tools.Keys - own);
    assert forall n :: n in listed <==> n in AsSet(listed);
  }

  lemma OwnAre(t: Tables, name: string, base: map<string, Tool>)
    requires Agree(t, base) && name in t.roster.servers
    ensures OwnTools(t, name) == AsSet(t.roster.servers[name].toolNames)
    ensures forall tool :: tool in t.roster.tools ==>
                             (tool.name in OwnTools(t, name) <==> tool.connection == t.roster.servers[name].connection)
  {
    var connection := t.roster.servers[name].connection;
    assert ServerOk(t.roster, t.roster.servers[name]);
    OwnedNames(t.roster.tools, connection);
    OwnedHolds(t.roster.tools, connection);
    forall a, b | a in t.roster.tools && b in t.roster.tools && a.name == b.name
      ensures a == b
    {
      var i :| 0 <= i < |t.roster.tools| && t.roster.tools[i] == a;
      var j :| 0 <= j < |t.roster.tools| && t.roster.tools[j] == b;
      assert Names(t.roster.tools)[i] == Names(t.roster.tools)[j];
    }
  }

  lemma {:induction false} OwnedHolds(tools: seq<Tool>, connection: nat)
    ensures forall tool :: tool in tools && tool.connection == connection ==> tool in Owned(tools, connection)
  {
    if tools != [] {
      var front, last := tools[..|tools| - 1], tools[|tools| - 1];
      OwnedHolds(front, connection);
      assert tools == front + [last];
      OwnedPush(front, last, connection);
    }
  }

  lemma CoherentOrder(next: Tables, base: map<string, Tool>)
    requires Agree(next, base)
    ensures (forall n :: n in next.catalog.order <==> n in next.catalog.tools) && Distinct(next.catalog.order)
  {
    assert forall n :: n in next.catalog.order <==> n in AsSet(next.catalog.order);
  }

  // ----- Add -----

  predicate CanAdd(t: Tables, name: string, settings: Settings, connect: Option<seq<string>>, persists: bool) {
    && name != "" && settings.command != "" && !t.roster.closed && name !in t.configs
    && connect.Some? && CanBeTaken(t, connect.value, {}) && persists
  }

  lemma AddSucceedsExactly(t: Tables, name: string, settings: Settings, connect: Option<seq<string>>, persists: bool,
                           base: map<string, Tool>)
    requires Agree(t, base)
    ensures Add(t, name, settings, connect, persists).1 <==> CanAdd(t, name, settings, connect, persists)
  {
    assert name in t.roster.servers <==> name in SettingsOf(t.roster);
    if connect.Some? {
      TakenFits(t, connect.value, {}, t.roster.connections);
      assert t.catalog.tools.Keys - {} == t.catalog.tools.Keys;
      HeldNames(t.catalog, t.roster, base);
    }
  }

  /** The server is there under its settings, with exactly the tools it lists, over a connection of its own. */
  lemma {:induction false} AddEffects(t: Tables, name: string, settings: Settings, connect: Option<seq<string>>,
                                      persists: bool, base: map<string, Tool>)
    requires Agree(t, base) && CanAdd(t, name, settings, connect, persists)
    ensures var next, connection := Add(t, name, settings, connect, persists).0, t.roster.connections;
            && Remembers(next, t.configs[name := settings])
            && next.roster.servers == t.roster.servers[name := Server(settings, connection, connect.value)]
            && (forall n :: n in t.roster.servers ==> t.roster.servers[n].connection != connection)
            && ToolsChange(t, next, {}, connect.value, connection) && !next.roster.closed
  {
    AddSucceedsExactly(t, name, settings, connect, persists, base);
    AddAgrees(t, name, settings, connect, persists, base);
    CoherentOrder(Add(t, name, settings, connect, persists).0, base);
    BatchTools(connect.value, t.roster.connections);
    BatchNames(connect.value, t.roster.connections);
    WithoutNone(t.catalog.order, {});
    ConnectionsAreUsed(t.roster);
  }

  lemma ConnectionsAreUsed(r: Roster)
    requires RosterOk(r)
    ensures forall n :: n in r.servers ==> r.servers[n].connection < r.connections
  {
    forall n | n in r.servers
      ensures r.servers[n].connection < r.connections
    {
      assert ServerOk(r, r.servers[n]);
    }
  }

  // ----- Remove -----

  lemma RemoveSucceedsExactly(t: Tables, name: string, persists: bool, reconnect: Option<seq<string>>,
                              base: map<string, Tool>)
    requires Agree(t, base)
    ensures Remove(t, name, persists, reconnect).1 <==> name in t.configs && persists
    ensures name !in t.configs ==> Remove(t, name, persists, reconnect).0 == t
  {
    assert name in t.roster.servers <==> name in SettingsOf(t.roster);
  }

  /** The server is gone everywhere, with exactly its own tools; every other one is as it was. */
  lemma {:induction false} RemoveEffects(t: Tables, name: string, reconnect: Option<seq<string>>,
                                         base: map<string, Tool>)
    requires Agree(t, base) && name in t.configs
    ensures name in t.roster.servers
    ensures var next := Remove(t, name, true, reconnect).0;
            && Remembers(next, t.configs - {name}) && next.roster.servers == t.roster.servers - {name}
            && ToolsChange(t, next, OwnTools(t, name), [], 0) && next.roster.closed == t.roster.closed
  {
    RemoveSucceedsExactly(t, name, true, reconnect, base);
    RemoveAgreesExactly(t, name, true, reconnect, base);
    CoherentOrder(Remove(t, name, true, reconnect).0, base);
    OwnAre(t, name, base);
    UnownedKeeps(t.roster.tools, t.roster.servers[name].connection);
    assert Without(t.catalog.order, OwnTools(t, name)) + [] == Without(t.catalog.order, OwnTools(t, name));
  }

  /** A removal that is not saved keeps the settings; the server is back with what it lists now, if it can be. */
  lemma {:induction false} UnsavedRemoveEffects(t: Tables, name: string, reconnect: Option<seq<string>>,
                                                base: map<string, Tool>)
    requires Agree(t, base) && name in t.configs
    ensures name in t.roster.servers
    ensures var next := Remove(t, name, false, reconnect).0;
            && Remembers(next, t.configs)
            && (Recovers(t, name, reconnect) ==>
                  && next.roster.servers
                     == t.roster.servers[name := Server(t.configs[name], t.roster.connections, reconnect.value)]
                  && ToolsChange(t, next, OwnTools(t, name), reconnect.value, t.roster.connections))
  {
    RemoveSucceedsExactly(t, name, false, reconnect, base);
    RemoveAgreesExactly(t, name, false, reconnect, base);
    if Recovers(t, name, reconnect) {
      RecoveredEffects(t, name, reconnect.value, base);
    }
  }

  /** The manager is open and none of the listed tools is one that another server offers. */
  predicate ManagerTakes(t: Tables, name: string, reconnect: Option<seq<string>>)
    requires name in t.roster.servers
  {
    && !t.roster.closed && reconnect.Some?
    && forall tool :: tool in t.roster.tools && tool.name in reconnect.value ==>
                        tool.connection == t.roster.servers[name].connection
  }

  /** A removal that is not saved and not made good: where the server is then, and that its tools are not registered. */
  lemma {:induction false} LostRemoveEffects(t: Tables, name: string, reconnect: Option<seq<string>>,
                                             base: map<string, Tool>)
    requires Agree(t, base) && name in t.configs
    ensures name in t.roster.servers
    ensures var next := Remove(t, name, false, reconnect).0;
            && (!ManagerTakes(t, name, reconnect) ==>
                  next.roster.servers == t.roster.servers - {name} && ToolsChange(t, next, OwnTools(t, name), [], 0))
            && (ManagerTakes(t, name, reconnect) && !Recovers(t, name, reconnect) ==>
                  && next.roster.servers
                     == t.roster.servers[name := Server(t.configs[name], t.roster.connections, reconnect.value)]
                  && (forall n :: n in next.catalog.tools <==> n in t.catalog.tools && n !in OwnTools(t, name)))
  {
    RemoveSucceedsExactly(t, name, false, reconnect, base);
    OwnAre(t, name, base);
    UnownedKeeps(t.roster.tools, t.roster.servers[name].connection);
    TakesConnects(t, name, reconnect, base);
    if !ManagerTakes(t, name, reconnect) {
      NotTakenBack(t, name, reconnect, base);
    } else if !Recovers(t, name, reconnect) {
      TakenBackAlone(t, name, reconnect.value, base);
    }
  }

  lemma TakesConnects(t: Tables, name: string, reconnect: Option<seq<string>>, base: map<string, Tool>)
    requires Agree(t, base) && name in t.roster.servers
    ensures Connects(Disconnected(t.roster, name), name, reconnect) <==> ManagerTakes(t, name, reconnect)
  {
    UnownedKeeps(t.roster.tools, t.roster.servers[name].connection);
    if reconnect.Some? && !(forall n :: n in reconnect.value ==> n !in NameSet(Disconnected(t.roster, name).tools)) {
      var n :| n in reconnect.value && n in NameSet(Disconnected(t.roster, name).tools);
      var tool :| tool in Disconnected(t.roster, name).tools && tool.name == n;
      assert tool in t.roster.tools;
    }
  }

  lemma NotTakenBack(t: Tables, name: string, reconnect: Option<seq<string>>, base: map<string, Tool>)
    requires Agree(t, base) && name in t.configs && name in t.roster.servers
    requires !Connects(Disconnected(t.roster, name), name, reconnect)
    ensures var next := Remove(t, name, false, reconnect).0;
            next.roster.servers == t.roster.servers - {name} && ToolsChange(t, next, OwnTools(t, name), [], 0)
  {
    OwnAre(t, name, base);
    UnownedKeeps(t.roster.tools, t.roster.servers[name].connection);
    DisconnectAgrees(t.catalog, t.roster, name, base);
    var next := Remove(t, name, false, reconnect).0;
    assert Coherent(next.catalog);
    assert forall n :: n in next.catalog.order <==> n in AsSet(next.catalog.order);
    assert Without(t.catalog.order, OwnTools(t, name)) + [] == Without(t.catalog.order, OwnTools(t, name));
  }

  lemma TakenBackAlone(t: Tables, name: string, listed: seq<string>, base: map<string, Tool>)
    requires Agree(t, base) && name in t.configs && name in t.roster.servers && !Recovers(t, name, Some(listed))
    requires Connects(Disconnected(t.roster, name), name, Some(listed))
    ensures var next := Remove(t, name, false, Some(listed)).0;
            && next.roster.servers == t.roster.servers[name := Server(t.configs[name], t.roster.connections, listed)]
            && (forall n :: n in next.catalog.tools <==> n in t.catalog.tools && n !in OwnTools(t, name))
  {
    OwnAre(t, name, base);
    FittingBatch(t.roster, listed, t.catalog.tools.Keys - AsSet(t.roster.servers[name].toolNames));
    assert (t.roster.servers - {name})[name := Server(t.configs[name], t.roster.connections, listed)]
        == t.roster.servers[name := Server(t.configs[name], t.roster.connections, listed)];
  }

  lemma RecoveryConnects(t: Tables, name: string, listed: seq<string>, base: map<string, Tool>)
    requires Agree(t, base) && name in t.roster.servers && Recovers(t, name, Some(listed))
    ensures Fits(Batch(listed, t.roster.connections), t.catalog.tools.Keys - OwnTools(t, name))
    ensures Connects(Disconnected(t.roster, name), name, Some(listed))
  {
    OwnAre(t, name, base);
    assert CanBeTaken(t, listed, OwnTools(t, name)) by {
      assert forall n :: n in listed ==> n in AsSet(listed);
    }
    TakenFits(t, listed, OwnTools(t, name), t.roster.connections);
    ListedAreFree(t, name, listed, base);
  }

  lemma {:induction false} RecoveredServer(t: Tables, name: string, listed: seq<string>, base: map<string, Tool>)
    requires Agree(t, base) && name in t.configs && name in t.roster.servers && Recovers(t, name, Some(listed))
    ensures Remove(t, name, false, Some(listed)).0.roster.servers
         == t.roster.servers[name := Server(t.configs[name], t.roster.connections, listed)]
  {
    RecoveryConnects(t, name, listed, base);
    assert (t.roster.servers - {name})[name := Server(t.configs[name], t.roster.connections, listed)]
        == t.roster.servers[name := Server(t.configs[name], t.roster.connections, listed)];
  }

  lemma {:induction false} RecoveredEffects(t: Tables, name: string, listed: seq<string>, base: map<string, Tool>)
    requires Agree(t, base) && name in t.configs && name in t.roster.servers && Recovers(t, name, Some(listed))
    ensures var next := Remove(t, name, false, Some(listed)).0;
            && next.roster.servers == t.roster.servers[name := Server(t.configs[name], t.roster.connections, listed)]
            && ToolsChange(t, next, OwnTools(t, name), listed, t.roster.connections)
  {
    RecoveredServer(t, name, listed, base);
    RemoveAgreesExactly(t, name, false, Some(listed), base);
    CoherentOrder(Remove(t, name, false, Some(listed)).0, base);
    RecoveryConnects(t, name, listed, base);
    OwnAre(t, name, base);
    UnownedKeeps(t.roster.tools, t.roster.servers[name].connection);
    BatchTools(listed, t.roster.connections);
    BatchNames(listed, t.roster.connections);
  }

  /** What can be taken beside the own tools is not among the tools the manager keeps. */
  lemma ListedAreFree(t: Tables, name: string, listed: seq<string>, base: map<string, Tool>)
    requires Agree(t, base) && name in t.roster.servers && CanBeTaken(t, listed, OwnTools(t, name))
    ensures forall n :: n in listed ==> n !in NameSet(Unowned(t.roster.tools, t.roster.servers[name].connection))
  {
    OwnAre(t, name, base);
    HeldNames(t.catalog, t.roster, base);
    UnownedKeeps(t.roster.tools, t.roster.servers[name].connection);
  }

  // ----- Restart -----

  lemma RestartSucceedsExactly(t: Tables, name: string, connect: Option<seq<string>>, base: map<string, Tool>)
    requires Agree(t, base)
    ensures name in t.configs <==> name in t.roster.servers
    ensures Restart(t, name, connect).1
       <==> name in t.configs && connect.Some? && CanBeTaken(t, connect.value, OwnTools(t, name))
  {
    assert name in t.roster.servers <==> name in SettingsOf(t.roster);
    if name in t.configs && connect.Some? {
      OwnAre(t, name, base);
      TakenFits(t, connect.value, OwnTools(t, name), t.roster.connections);
    }
  }

  /** A new connection under the settings it had, with exactly the tools it lists now. */
  lemma {:induction false} RestartEffects(t: Tables, name: string, connect: Option<seq<string>>,
                                          base: map<string, Tool>)
    requires Agree(t, base) && name in t.configs && Restart(t, name, connect).1
    ensures name in t.roster.servers && connect.Some?
    ensures var next, connection := Restart(t, name, connect).0, t.roster.connections;
            && Remembers(next, t.configs)
            && next.roster.servers == t.roster.servers[name := Server(t.configs[name], connection, connect.value)]
            && (forall n :: n in t.roster.servers ==> t.roster.servers[n].connection != connection)
            && ToolsChange(t, next, OwnTools(t, name), connect.value, connection)
            && next.roster.closed == t.roster.closed
  {
    RestartSucceedsExactly(t, name, connect, base);
    ConnectionsAreUsed(t.roster);
    RestartedServer(t, name, connect.value, base);
    RestartedTools(t, name, connect.value, base);
  }

  lemma RestartedServer(t: Tables, name: string, listed: seq<string>, base: map<string, Tool>)
    requires Agree(t, base) && name in t.roster.servers && Restart(t, name, Some(listed)).1
    ensures name in t.configs
    ensures var next := Restart(t, name, Some(listed)).0;
            && next.configs == t.configs == next.saved && next.roster.closed == t.roster.closed
            && next.roster.servers == t.roster.servers[name := Server(t.configs[name], t.roster.connections, listed)]
  {
    assert SettingsOf(t.roster)[name] == t.roster.servers[name].settings;
    assert (t.roster.servers - {name})[name := Server(t.configs[name], t.roster.connections, listed)]
        == t.roster.servers[name := Server(t.configs[name], t.roster.connections, listed)];
  }

  lemma {:induction false} RestartedTools(t: Tables, name: string, listed: seq<string>, base: map<string, Tool>)
    requires Agree(t, base) && name in t.roster.servers && Restart(t, name, Some(listed)).1
    ensures ToolsChange(t, Restart(t, name, Some(listed)).0, OwnTools(t, name), listed, t.roster.connections)
  {
    RestartAgrees(t, name, Some(listed), base);
    CoherentOrder(Restart(t, name, Some(listed)).0, base);
    OwnAre(t, name, base);
    UnownedKeeps(t.roster.tools, t.roster.servers[name].connection);
    BatchTools(listed, t.roster.connections);
    BatchNames(listed, t.roster.connections);
  }

  /** A closed manager keeps what it has and takes nothing more. */
  lemma CloseEffects(t: Tables, name: string, settings: Settings, connect: Option<seq<string>>, persists: bool)
    ensures var next := Apply(t, CloseManager).0;
            && next == t.(roster := next.roster) && next.roster.closed && next.roster.servers == t.roster.servers
            && next.roster.tools == t.roster.tools && next.roster.connections == t.roster.connections
            && Add(next, name, settings, connect, persists) == (next, false)
  {
  }
}
