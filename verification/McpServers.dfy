/**
 The MCP transaction (`app/mcp.py`, `Manager` in `tools/mcp/client.py`) on values: connect, register,
 persist, with the source's compensation when a step fails. Closing a connection does not raise.
 */
module McpServers {
  import opened Outcomes
  import opened ToolRegistry

  datatype Settings = Settings(command: string, args: seq<string>)

  datatype Server = Server(settings: Settings, connection: nat, toolNames: seq<string>)

  /** The manager: its servers, their tools, the number of the next connection, and whether it was closed. */
  datatype Roster = Roster(servers: map<string, Server>, tools: seq<Tool>, connections: nat, closed: bool)

  /** Everything that must agree: registry, manager, the controller's settings and the settings file. */
  datatype Tables = Tables(
    catalog: Catalog,
    roster: Roster,
    configs: map<string, Settings>,
    saved: map<string, Settings>)

  // ----- The manager -----

  /** The tools a connection listed; connecting, listing or mapping may have failed before. */
  function Batch(listed: seq<string>, connection: nat): seq<Tool> {
    seq(|listed|, i requires 0 <= i < |listed| => Tool(listed[i], connection))
  }

  function Owned(tools: seq<Tool>, connection: nat): seq<Tool> {
    if tools == [] then []
    else
      var last := tools[|tools| - 1];
      var rest := Owned(tools[..|tools| - 1], connection);
      if last.connection == connection then rest + [last] else rest
  }

  function Unowned(tools: seq<Tool>, connection: nat): seq<Tool> {
    if tools == [] then []
    else
      var last := tools[|tools| - 1];
      var rest := Unowned(tools[..|tools| - 1], connection);
      if last.connection == connection then rest else rest + [last]
  }

  function Installed(r: Roster, name: string, settings: Settings, listed: seq<string>): Roster {
    Roster(r.servers[name := Server(settings, r.connections, listed)],
           r.tools + Batch(listed, r.connections), r.connections + 1, r.closed)
  }

  /** `Manager.add` refuses once closed, and a known server, a failed connection, a tool it already has. */
  predicate Connects(r: Roster, name: string, connect: Option<seq<string>>) {
    !r.closed && name !in r.servers && connect.Some? && forall n :: n in connect.value ==> n !in NameSet(r.tools)
  }

  function Disconnected(r: Roster, name: string): Roster
    requires name in r.servers
  {
    Roster(r.servers - {name}, Unowned(r.tools, r.servers[name].connection), r.connections, r.closed)
  }

  // ----- The controller -----

  datatype Operation =
    | AddServer(name: string, settings: Settings, connect: Option<seq<string>>, persists: bool)
    | RemoveServer(name: string, persists: bool, reconnect: Option<seq<string>>)
    | RestartServer(name: string, connect: Option<seq<string>>)
    | CloseManager

  function Add(t: Tables, name: string, settings: Settings, connect: Option<seq<string>>, persists: bool): (Tables,
               bool) {
    if name == "" || settings.command == "" || !Connects(t.roster, name, connect) then (t, false)
    else
      var roster, batch := Installed(t.roster, name, settings, connect.value), Batch(connect.value, t.roster.connections);
      match Added(t.catalog, batch)
      case None => (t.(roster := Disconnected(roster, name)), false)
      case Some(catalog) =>
        if !persists
        then (t.(roster := Disconnected(roster, name), catalog := Removed(catalog, NameSet(batch))), false)
        else (Tables(catalog, roster, t.configs[name := settings], t.saved[name := settings]), true)
  }

  /** Puts a removed server back; a failure leaves what was done so far. */
  function Reconnected(t: Tables, name: string, settings: Settings, reconnect: Option<seq<string>>): Tables {
    if !Connects(t.roster, name, reconnect) then t
    else
      var back := t.(roster := Installed(t.roster, name, settings, reconnect.value));
      match Added(t.catalog, Batch(reconnect.value, t.roster.connections))
      case None => back
      case Some(catalog) => back.(catalog := catalog)
  }

  function Remove(t: Tables, name: string, persists: bool, reconnect: Option<seq<string>>): (Tables, bool) {
    if name !in t.configs || name !in t.roster.servers then (t, false)
    else
      var gone := t.(roster := Disconnected(t.roster, name),
                     catalog := Removed(t.catalog, AsSet(t.roster.servers[name].toolNames)));
      if persists then (gone.(configs := t.configs - {name}, saved := t.saved - {name}), true)
      else (Reconnected(gone, name, t.configs[name], reconnect), false)
  }

  function Restart(t: Tables, name: string, connect: Option<seq<string>>): (Tables, bool) {
    if name !in t.roster.servers || connect.None? then (t, false)
    else
      var server := t.roster.servers[name];
      match Replaced(t.catalog, AsSet(server.toolNames), Batch(connect.value, t.roster.connections))
      case None => (t, false)
      case Some(catalog) =>
        (t.(catalog := catalog,
            roster := Installed(Disconnected(t.roster, name), name, server.settings, connect.value)), true)
  }

  function Apply(t: Tables, op: Operation): (Tables, bool) {
    match op
    case AddServer(name, settings, connect, persists) => Add(t, name, settings, connect, persists)
    case RemoveServer(name, persists, reconnect) => Remove(t, name, persists, reconnect)
    case RestartServer(name, connect) => Restart(t, name, connect)
    case CloseManager => (t.(roster := t.roster.(closed := true)), true)
  }

  function ApplyAll(t: Tables, ops: seq<Operation>): Tables
    decreases |ops|
  {
    if ops == [] then t else ApplyAll(Apply(t, ops[0]).0, ops[1..])
  }

  // ----- Agreement -----

  function Connections(r: Roster): set<nat> {
    set n | n in r.servers :: r.servers[n].connection
  }

  /** A server's record names exactly the tools of its own connection. */
  predicate ServerOk(r: Roster, s: Server) {
    s.connection < r.connections && AsSet(s.toolNames) == NameSet(Owned(r.tools, s.connection))
  }

  predicate RosterOk(r: Roster) {
    && Distinct(Names(r.tools))
    && (forall t :: t in r.tools ==> t.connection in Connections(r))
    && (forall n :: n in r.servers ==> ServerOk(r, r.servers[n]))
    && (forall m, n :: m in r.servers && n in r.servers && m != n ==>
                         r.servers[m].connection != r.servers[n].connection)
  }

  predicate HoldsExactly(tools: map<string, Tool>, base: map<string, Tool>, added: seq<Tool>) {
    base.Keys !! NameSet(added) && tools == base + Index(added)
  }

  /** The registry holds exactly the base tools and the manager's, in a duplicate-free order. */
  predicate ToolsAgree(c: Catalog, r: Roster, base: map<string, Tool>) {
    Coherent(c) && RosterOk(r) && HoldsExactly(c.tools, base, r.tools)
  }

  function SettingsOf(r: Roster): map<string, Settings> {
    map n | n in r.servers :: r.servers[n].settings
  }

  predicate Agree(t: Tables, base: map<string, Tool>) {
    ToolsAgree(t.catalog, t.roster, base) && SettingsOf(t.roster) == t.configs == t.saved
  }

  // ----- Filters by connection -----

  lemma OwnedPush(tools: seq<Tool>, last: Tool, connection: nat)
    ensures Owned(tools + [last], connection)
         == if last.connection == connection then Owned(tools, connection) + [last] else Owned(tools, connection)
    ensures Unowned(tools + [last], connection)
         == if last.connection == connection then Unowned(tools, connection) else Unowned(tools, connection) + [last]
  {
    assert (tools + [last])[..|tools|] == tools;
  }

  lemma {:induction false} OwnedConcat(a: seq<Tool>, b: seq<Tool>, connection: nat)
    ensures Owned(a + b, connection) == Owned(a, connection) + Owned(b, connection)
  {
    if b == [] {
      assert a + b == a;
    } else {
      var front := b[..|b| - 1];
      OwnedConcat(a, front, connection);
      assert (a + b)[..|a + b| - 1] == a + front;
    }
  }

  lemma {:induction false} UnownedConcat(a: seq<Tool>, b: seq<Tool>, connection: nat)
    ensures Unowned(a + b, connection) == Unowned(a, connection) + Unowned(b, connection)
  {
    if b == [] {
      assert a + b == a;
    } else {
      var front := b[..|b| - 1];
      UnownedConcat(a, front, connection);
      assert (a + b)[..|a + b| - 1] == a + front;
    }
  }

  lemma {:induction false} OwnedAll(tools: seq<Tool>, connection: nat)
    requires forall t :: t in tools ==> t.connection == connection
    ensures Owned(tools, connection) == tools && Unowned(tools, connection) == []
  {
    if tools != [] {
      OwnedAll(tools[..|tools| - 1], connection);
    }
  }

  lemma {:induction false} OwnedNone(tools: seq<Tool>, connection: nat)
    requires forall t :: t in tools ==> t.connection != connection
    ensures Owned(tools, connection) == [] && Unowned(tools, connection) == tools
  {
    if tools != [] {
      OwnedNone(tools[..|tools| - 1], connection);
    }
  }

  lemma {:induction false} UnownedKeeps(tools: seq<Tool>, connection: nat)
    ensures forall t :: t in Unowned(tools, connection) <==> t in tools && t.connection != connection
  {
    if tools != [] {
      var front, last := tools[..|tools| - 1], tools[|tools| - 1];
      UnownedKeeps(front, connection);
      OwnedPush(front, last, connection);
      assert tools == front + [last];
    }
  }

  /** Dropping one connection's tools leaves every other connection's alone. */
  lemma {:induction false} OwnedOfUnowned(tools: seq<Tool>, connection: nat, other: nat)
    requires other != connection
    ensures Owned(Unowned(tools, connection), other) == Owned(tools, other)
  {
    if tools != [] {
      var front, last := tools[..|tools| - 1], tools[|tools| - 1];
      OwnedOfUnowned(front, connection, other);
      assert tools == front + [last];
      OwnedPush(front, last, connection);
      OwnedPush(front, last, other);
      if last.connection != connection {
        OwnedPush(Unowned(front, connection), last, other);
      }
    }
  }

  lemma DistinctFront(tools: seq<Tool>)
    requires tools != [] && Distinct(Names(tools))
    ensures var front := tools[..|tools| - 1];
            Distinct(Names(front)) && tools[|tools| - 1].name !in NameSet(front)
  {
    var front, last := tools[..|tools| - 1], tools[|tools| - 1];
    forall i | 0 <= i < |front|
      ensures Names(front)[i] == Names(tools)[i] && front[i].name != last.name
    {
      assert Names(tools)[i] != Names(tools)[|front|];
    }
  }

  lemma DropLast(m: map<string, Tool>, owned: set<string>, last: Tool)
    requires last.name !in m
    ensures m[last.name := last] - (owned + {last.name}) == m - owned
    ensures last.name !in owned ==> m[last.name := last] - owned == (m - owned)[last.name := last]
  {
  }

  lemma IndexPush(items: seq<Tool>, last: Tool)
    ensures Index(items + [last]) == Index(items)[last.name := last]
  {
    assert (items + [last])[..|items|] == items;
  }

  lemma IndexUnownedPush(front: seq<Tool>, last: Tool, connection: nat)
    requires last.name !in NameSet(front)
    requires Index(Unowned(front, connection)) == Index(front) - NameSet(Owned(front, connection))
    ensures Index(Unowned(front + [last], connection))
         == Index(front + [last]) - NameSet(Owned(front + [last], connection))
  {
    var owned := Owned(front, connection);
    IndexKeys(front);
    IndexPush(front, last);
    OwnedPush(front, last, connection);
    OwnedNames(front, connection);
    DropLast(Index(front), NameSet(owned), last);
    NameSetPush(owned, last);
    IndexPush(Unowned(front, connection), last);
  }

  /** Forgetting a connection's names forgets exactly its tools. */
  lemma {:induction false} IndexUnowned(tools: seq<Tool>, connection: nat)
    requires Distinct(Names(tools))
    ensures Index(Unowned(tools, connection)) == Index(tools) - NameSet(Owned(tools, connection))
  {
    if tools != [] {
      var front, last := tools[..|tools| - 1], tools[|tools| - 1];
      DistinctFront(tools);
      IndexUnowned(front, connection);
      assert tools == front + [last];
      IndexUnownedPush(front, last, connection);
    }
  }

  lemma NamesUnowned(tools: seq<Tool>, connection: nat)
    requires Distinct(Names(tools))
    ensures NameSet(Unowned(tools, connection)) == NameSet(tools) - NameSet(Owned(tools, connection))
  {
    IndexUnowned(tools, connection);
    IndexKeys(tools);
    IndexKeys(Unowned(tools, connection));
  }

  lemma DistinctPush(items: seq<Tool>, last: Tool)
    requires Distinct(Names(items)) && last.name !in NameSet(items)
    ensures Distinct(Names(items + [last]))
  {
    NamesAre(items);
    assert Names(items + [last]) == Names(items) + [last.name];
  }

  lemma {:induction false} DistinctUnowned(tools: seq<Tool>, connection: nat)
    requires Distinct(Names(tools))
    ensures Distinct(Names(Unowned(tools, connection)))
  {
    if tools != [] {
      var front, last := tools[..|tools| - 1], tools[|tools| - 1];
      DistinctFront(tools);
      DistinctUnowned(front, connection);
      NamesUnowned(front, connection);
      if last.connection != connection {
        DistinctPush(Unowned(front, connection), last);
      } else {
        assert Unowned(tools, connection) == Unowned(front, connection);
      }
    }
  }

  lemma NameSetPush(items: seq<Tool>, last: Tool)
    ensures NameSet(items + [last]) == NameSet(items) + {last.name}
  {
    assert forall t :: t in items + [last] <==> t in items || t == last;
  }

  lemma {:induction false} OwnedNames(tools: seq<Tool>, connection: nat)
    ensures NameSet(Owned(tools, connection)) <= NameSet(tools)
    ensures forall t :: t in Owned(tools, connection) ==> t in tools && t.connection == connection
  {
    if tools != [] {
      OwnedNames(tools[..|tools| - 1], connection);
      assert tools == tools[..|tools| - 1] + [tools[|tools| - 1]];
    }
  }

  // ----- One server more, one server less -----

  lemma BatchNames(listed: seq<string>, connection: nat)
    ensures Names(Batch(listed, connection)) == listed
    ensures NameSet(Batch(listed, connection)) == AsSet(listed)
    ensures forall t :: t in Batch(listed, connection) ==> t.connection == connection
  {
    NamesAre(Batch(listed, connection));
    assert Names(Batch(listed, connection)) == listed;
  }

  /** Disconnecting what was just installed restores servers and tools. */
  lemma DisconnectUndoesInstall(r: Roster, name: string, settings: Settings, listed: seq<string>)
    requires RosterOk(r) && name !in r.servers
    ensures Disconnected(Installed(r, name, settings, listed), name) == r.(connections := r.connections + 1)
  {
    var batch := Batch(listed, r.connections);
    BatchNames(listed, r.connections);
    UnownedConcat(r.tools, batch, r.connections);
    ConnectionsAreOld(r);
    OwnedNone(r.tools, r.connections);
    OwnedAll(batch, r.connections);
    assert r.tools + [] == r.tools;
    assert r.servers[name := Server(settings, r.connections, listed)] - {name} == r.servers;
  }

  lemma ConnectionsAreOld(r: Roster)
    requires RosterOk(r)
    ensures forall t :: t in r.tools ==> t.connection < r.connections
  {
    forall t | t in r.tools
      ensures t.connection < r.connections
    {
      var n :| n in r.servers && r.servers[n].connection == t.connection;
      assert ServerOk(r, r.servers[n]);
    }
  }

  lemma DisconnectedServerOk(r: Roster, name: string, n: string)
    requires RosterOk(r) && name in r.servers && n in r.servers && n != name
    ensures ServerOk(Disconnected(r, name), r.servers[n])
  {
    OwnedOfUnowned(r.tools, r.servers[name].connection, r.servers[n].connection);
  }

  lemma DisconnectedOk(r: Roster, name: string)
    requires RosterOk(r) && name in r.servers
    ensures RosterOk(Disconnected(r, name))
  {
    var left, connection := Disconnected(r, name), r.servers[name].connection;
    DistinctUnowned(r.tools, connection);
    UnownedKeeps(r.tools, connection);
    forall t | t in left.tools
      ensures t.connection in Connections(left)
    {
      var n :| n in r.servers && r.servers[n].connection == t.connection;
      assert n in left.servers;
    }
    forall n | n in left.servers
      ensures ServerOk(left, left.servers[n])
    {
      DisconnectedServerOk(r, name, n);
    }
  }

  lemma HoldsLess(tools: map<string, Tool>, base: map<string, Tool>, added: seq<Tool>, connection: nat)
    requires HoldsExactly(tools, base, added) && Distinct(Names(added))
    ensures HoldsExactly(tools - NameSet(Owned(added, connection)), base, Unowned(added, connection))
  {
    OwnedNames(added, connection);
    NamesUnowned(added, connection);
    IndexUnowned(added, connection);
    DropBehind(base, Index(added), NameSet(Owned(added, connection)));
  }

  lemma DisconnectAgrees(c: Catalog, r: Roster, name: string, base: map<string, Tool>)
    requires ToolsAgree(c, r, base) && name in r.servers
    ensures ToolsAgree(Removed(c, AsSet(r.servers[name].toolNames)), Disconnected(r, name), base)
  {
    var connection := r.servers[name].connection;
    assert AsSet(r.servers[name].toolNames) == NameSet(Owned(r.tools, connection)) by {
      assert ServerOk(r, r.servers[name]);
    }
    DisconnectedOk(r, name);
    RemovedIsCoherent(c, AsSet(r.servers[name].toolNames));
    HoldsLess(c.tools, base, r.tools, connection);
  }

  lemma DropBehind(base: map<string, Tool>, m: map<string, Tool>, owned: set<string>)
    requires base.Keys !! owned
    ensures (base + m) - owned == base + (m - owned)
  {
  }

  lemma InstalledServersOk(r: Roster, name: string, settings: Settings, listed: seq<string>)
    requires RosterOk(r) && name !in r.servers
    ensures var next := Installed(r, name, settings, listed);
            forall n :: n in next.servers ==> ServerOk(next, next.servers[n])
  {
    var next, batch := Installed(r, name, settings, listed), Batch(listed, r.connections);
    BatchNames(listed, r.connections);
    ConnectionsAreOld(r);
    forall n | n in next.servers
      ensures ServerOk(next, next.servers[n])
    {
      var connection := next.servers[n].connection;
      OwnedConcat(r.tools, batch, connection);
      if n == name {
        OwnedNone(r.tools, connection);
        OwnedAll(batch, connection);
        assert [] + batch == batch;
      } else {
        assert ServerOk(r, r.servers[n]);
        OwnedNone(batch, connection);
        assert Owned(r.tools, connection) + [] == Owned(r.tools, connection);
      }
    }
  }

  lemma DistinctJoin(x: seq<string>, y: seq<string>)
    ensures Distinct(x + y) <==> Distinct(x) && Distinct(y) && AsSet(x) !! AsSet(y)
  {
    var all := x + y;
    if Distinct(all) {
      assert forall i :: 0 <= i < |x| ==> x[i] == all[i];
      assert forall j :: 0 <= j < |y| ==> y[j] == all[|x| + j];
      forall i | 0 <= i < |x|
        ensures x[i] !in y
      {
        assert forall j :: 0 <= j < |y| ==> y[j] != all[i];
      }
    } else {
      var i, j :| 0 <= i < j < |all| && all[i] == all[j];
      if j < |x| {
        assert x[i] == x[j];
      } else if i < |x| {
        assert x[i] in AsSet(x) && y[j - |x|] in AsSet(y);
      } else {
        assert y[i - |x|] == y[j - |x|];
      }
    }
  }

  lemma InstalledOk(r: Roster, name: string, settings: Settings, listed: seq<string>)
    requires RosterOk(r) && name !in r.servers
    ensures RosterOk(Installed(r, name, settings, listed))
       <==> Distinct(listed) && NameSet(r.tools) !! AsSet(listed)
  {
    var next, batch := Installed(r, name, settings, listed), Batch(listed, r.connections);
    BatchNames(listed, r.connections);
    NamesAre(r.tools);
    DistinctJoin(Names(r.tools), listed);
    assert Names(r.tools + batch) == Names(r.tools) + listed;
    InstalledServersOk(r, name, settings, listed);
    forall n | n in r.servers
      ensures r.servers[n].connection < r.connections && r.servers[n].connection in Connections(next)
    {
      assert ServerOk(r, r.servers[n]);
      assert next.servers[n] == r.servers[n];
    }
    assert next.servers[name].connection in Connections(next);
    assert Connections(r) <= Connections(next);
  }

  lemma {:induction false} IndexConcat(a: seq<Tool>, b: seq<Tool>)
    ensures Index(a + b) == Index(a) + Index(b)
  {
    if b == [] {
      assert a + b == a;
    } else {
      IndexConcat(a, b[..|b| - 1]);
      assert (a + b)[..|a + b| - 1] == a + b[..|b| - 1];
    }
  }

  lemma {:induction false} InstallAgrees(c: Catalog, r: Roster, name: string, settings: Settings,
                                         listed: seq<string>, base: map<string, Tool>)
    requires ToolsAgree(c, r, base) && name !in r.servers
    requires Fits(Batch(listed, r.connections), c.tools.Keys)
    ensures ToolsAgree(Extended(c, Batch(listed, r.connections)), Installed(r, name, settings, listed), base)
  {
    var batch := Batch(listed, r.connections);
    assert Distinct(listed) && NameSet(r.tools) !! AsSet(listed) && NameSet(batch) !! base.Keys by {
      FittingBatch(r, listed, c.tools.Keys);
      IndexKeys(r.tools);
    }
    InstalledOk(r, name, settings, listed);
    ExtendedIsCoherent(c, batch);
    HoldsMore(c.tools, base, r.tools, batch);
  }

  lemma {:induction false} HoldsMore(tools: map<string, Tool>, base: map<string, Tool>, added: seq<Tool>,
                                     batch: seq<Tool>)
    requires HoldsExactly(tools, base, added) && NameSet(batch) !! base.Keys
    ensures HoldsExactly(tools + Index(batch), base, added + batch)
  {
    IndexConcat(added, batch);
    assert base + Index(added) + Index(batch) == base + (Index(added) + Index(batch));
    assert NameSet(added + batch) == NameSet(added) + NameSet(batch);
  }

  lemma FittingBatch(r: Roster, listed: seq<string>, taken: set<string>)
    ensures var batch := Batch(listed, r.connections);
            && NameSet(batch) == AsSet(listed)
            && (Fits(batch, taken) <==> Distinct(listed) && "" !in listed && AsSet(listed) !! taken)
  {
    var batch := Batch(listed, r.connections);
    BatchNames(listed, r.connections);
    assert forall i :: 0 <= i < |listed| ==> batch[i].name == listed[i] && listed[i] in AsSet(listed);
    if "" in listed {
      var i :| 0 <= i < |listed| && listed[i] == "";
      assert batch[i].name == "";
    }
    if Fits(batch, taken) {
      forall n | n in AsSet(listed)
        ensures n !in taken
      {
        var i :| 0 <= i < |listed| && listed[i] == n;
        assert batch[i].name == n;
      }
    }
  }

  // ----- The three operations -----

  /** All but the connection counter, which only names connections. */
  predicate SameTables(t: Tables, u: Tables) {
    t == u.(roster := u.roster.(connections := t.roster.connections))
  }

  /** A failed add leaves no trace, whichever step failed. */
  lemma FailedAddLeavesNoTrace(t: Tables, name: string, settings: Settings, connect: Option<seq<string>>,
                               persists: bool, base: map<string, Tool>)
    requires Agree(t, base)
    ensures var (next, done) := Add(t, name, settings, connect, persists);
            !done ==> SameTables(next, t) && Agree(next, base)
  {
    if name != "" && settings.command != "" && Connects(t.roster, name, connect) {
      var batch := Batch(connect.value, t.roster.connections);
      DisconnectUndoesInstall(t.roster, name, settings, connect.value);
      CounterIsFree(t, base);
      if Added(t.catalog, batch).Some? {
        RemoveUndoesAdd(t.catalog, batch);
      }
    }
  }

  /** The counter may move without hurting the agreement. */
  lemma CounterIsFree(t: Tables, base: map<string, Tool>)
    requires Agree(t, base)
    ensures Agree(t.(roster := t.roster.(connections := t.roster.connections + 1)), base)
  {
    var r, r' := t.roster, t.roster.(connections := t.roster.connections + 1);
    forall n | n in r'.servers
      ensures ServerOk(r', r'.servers[n])
    {
      assert ServerOk(r, r.servers[n]);
    }
    assert Connections(r') == Connections(r);
    assert SettingsOf(r') == SettingsOf(r);
  }

  lemma SettingsInstalled(r: Roster, name: string, settings: Settings, listed: seq<string>)
    ensures SettingsOf(Installed(r, name, settings, listed)) == SettingsOf(r)[name := settings]
  {
  }

  lemma SettingsDisconnected(r: Roster, name: string)
    requires name in r.servers
    ensures SettingsOf(Disconnected(r, name)) == SettingsOf(r) - {name}
    ensures SettingsOf(Disconnected(r, name))[name := r.servers[name].settings] == SettingsOf(r)
  {
  }

  lemma {:induction false} SucceededAddAgrees(t: Tables, name: string, settings: Settings, listed: seq<string>,
                                              base: map<string, Tool>)
    requires Agree(t, base) && name !in t.roster.servers
    requires Fits(Batch(listed, t.roster.connections), t.catalog.tools.Keys)
    ensures Agree(Tables(Extended(t.catalog, Batch(listed, t.roster.connections)),
                         Installed(t.roster, name, settings, listed),
                         t.configs[name := settings], t.saved[name := settings]), base)
  {
    InstallAgrees(t.catalog, t.roster, name, settings, listed, base);
    SettingsInstalled(t.roster, name, settings, listed);
  }

  lemma AddAgrees(t: Tables, name: string, settings: Settings, connect: Option<seq<string>>, persists: bool,
                  base: map<string, Tool>)
    requires Agree(t, base)
    ensures Agree(Add(t, name, settings, connect, persists).0, base)
  {
    if Add(t, name, settings, connect, persists).1 {
      SucceededAddAgrees(t, name, settings, connect.value, base);
    } else {
      FailedAddLeavesNoTrace(t, name, settings, connect, persists, base);
    }
  }

  /** A server leaves and comes back under the same settings, with whatever it lists now. */
  lemma {:induction false} SwapAgrees(t: Tables, name: string, settings: Settings, listed: seq<string>,
                                      base: map<string, Tool>)
    requires Agree(t, base) && name in t.roster.servers && settings == t.roster.servers[name].settings
    requires var gone := Removed(t.catalog, AsSet(t.roster.servers[name].toolNames));
             Fits(Batch(listed, t.roster.connections), gone.tools.Keys)
    ensures var gone := Removed(t.catalog, AsSet(t.roster.servers[name].toolNames));
            Agree(t.(catalog := Extended(gone, Batch(listed, t.roster.connections)),
                     roster := Installed(Disconnected(t.roster, name), name, settings, listed)), base)
  {
    var left := Disconnected(t.roster, name);
    DisconnectAgrees(t.catalog, t.roster, name, base);
    InstallAgrees(Removed(t.catalog, AsSet(t.roster.servers[name].toolNames)), left, name, settings, listed, base);
    SettingsInstalled(left, name, settings, listed);
    SettingsDisconnected(t.roster, name);
  }

  lemma {:induction false} RestartAgrees(t: Tables, name: string, connect: Option<seq<string>>, base: map<string, Tool>)
    requires Agree(t, base)
    ensures Agree(Restart(t, name, connect).0, base)
    ensures !Restart(t, name, connect).1 ==> Restart(t, name, connect).0 == t
  {
    if Restart(t, name, connect).1 {
      SwapAgrees(t, name, t.roster.servers[name].settings, connect.value, base);
    }
  }

  /** The manager is open, the reconnect of a failed removal succeeds, and what it lists fits next to what is left. */
  predicate Recovers(t: Tables, name: string, reconnect: Option<seq<string>>)
    requires name in t.roster.servers
  {
    && !t.roster.closed && reconnect.Some? && Distinct(reconnect.value) && "" !in reconnect.value
    && AsSet(reconnect.value) !! t.catalog.tools.Keys - AsSet(t.roster.servers[name].toolNames)
  }

  lemma HeldNames(c: Catalog, r: Roster, base: map<string, Tool>)
    requires ToolsAgree(c, r, base)
    ensures c.tools.Keys == base.Keys + NameSet(r.tools)
  {
    IndexKeys(r.tools);
  }

  /** The manager may only hold a batch that the registry would take. */
  lemma HeldBatchFits(c: Catalog, r: Roster, name: string, settings: Settings, listed: seq<string>, base: map<string,
                      Tool>)
    requires ToolsAgree(c, r, base) && name !in r.servers
    requires ToolsAgree(c, Installed(r, name, settings, listed), base)
    ensures Fits(Batch(listed, r.connections), c.tools.Keys)
  {
    var batch := Batch(listed, r.connections);
    FittingBatch(r, listed, c.tools.Keys);
    InstalledOk(r, name, settings, listed);
    HeldNames(c, r, base);
    HeldNames(c, Installed(r, name, settings, listed), base);
    assert NameSet(r.tools + batch) == NameSet(r.tools) + AsSet(listed);
    assert AsSet(listed) == {};
    assert forall n :: n in listed <==> n in AsSet(listed);
  }

  lemma ReconnectedAgreesExactly(gone: Tables, name: string, settings: Settings, reconnect: Option<seq<string>>,
                                 base: map<string, Tool>)
    requires ToolsAgree(gone.catalog, gone.roster, base) && name !in gone.roster.servers && name in gone.configs
    requires SettingsOf(gone.roster)[name := settings] == gone.configs == gone.saved
    ensures Agree(Reconnected(gone, name, settings, reconnect), base)
       <==> !gone.roster.closed && reconnect.Some?
            && Fits(Batch(reconnect.value, gone.roster.connections), gone.catalog.tools.Keys)
  {
    if !Connects(gone.roster, name, reconnect) {
      assert name !in SettingsOf(gone.roster);
      if reconnect.Some? {
        HeldNames(gone.catalog, gone.roster, base);
        FittingBatch(gone.roster, reconnect.value, gone.catalog.tools.Keys);
        assert forall n :: n in reconnect.value ==> n in AsSet(reconnect.value);
      }
    } else {
      SettingsInstalled(gone.roster, name, settings, reconnect.value);
      if Fits(Batch(reconnect.value, gone.roster.connections), gone.catalog.tools.Keys) {
        InstallAgrees(gone.catalog, gone.roster, name, settings, reconnect.value, base);
      } else if ToolsAgree(gone.catalog, Installed(gone.roster, name, settings, reconnect.value), base) {
        HeldBatchFits(gone.catalog, gone.roster, name, settings, reconnect.value, base);
      }
    }
  }

  lemma {:induction false} UnpersistedRemovalAgreesExactly(t: Tables, name: string, reconnect: Option<seq<string>>,
                                                           base: map<string, Tool>)
    requires Agree(t, base) && name in t.configs
    ensures name in t.roster.servers
    ensures var gone := t.(roster := Disconnected(t.roster, name),
                           catalog := Removed(t.catalog, AsSet(t.roster.servers[name].toolNames)));
            Agree(Reconnected(gone, name, t.configs[name], reconnect), base) <==> Recovers(t, name, reconnect)
  {
    assert name in SettingsOf(t.roster);
    var gone := t.(roster := Disconnected(t.roster, name),
                   catalog := Removed(t.catalog, AsSet(t.roster.servers[name].toolNames)));
    DisconnectAgrees(t.catalog, t.roster, name, base);
    SettingsDisconnected(t.roster, name);
    ReconnectedAgreesExactly(gone, name, t.configs[name], reconnect, base);
    if reconnect.Some? {
      FittingBatch(gone.roster, reconnect.value, gone.catalog.tools.Keys);
    }
  }

  /** A removal keeps the agreement exactly when it persists or its compensation comes through. */
  lemma RemoveAgreesExactly(t: Tables, name: string, persists: bool, reconnect: Option<seq<string>>,
                            base: map<string, Tool>)
    requires Agree(t, base) && name in t.configs
    ensures name in t.roster.servers
    ensures Agree(Remove(t, name, persists, reconnect).0, base) <==> persists || Recovers(t, name, reconnect)
  {
    UnpersistedRemovalAgreesExactly(t, name, reconnect, base);
    if persists {
      DisconnectAgrees(t.catalog, t.roster, name, base);
      SettingsDisconnected(t.roster, name);
    }
  }

  /** A removal that neither persists nor reconnects leaves settings that name a server nobody runs. */
  lemma LostServerDisagrees(t: Tables, name: string, base: map<string, Tool>)
    requires Agree(t, base) && name in t.configs
    ensures var (next, done) := Remove(t, name, false, None);
            !done && name in next.configs && name in next.saved && name !in next.roster.servers && !Agree(next, base)
  {
    RemoveAgreesExactly(t, name, false, None, base);
  }

  predicate Compensated(t: Tables, op: Operation) {
    op.RemoveServer? && !op.persists && op.name in t.roster.servers ==> Recovers(t, op.name, op.reconnect)
  }

  predicate AllCompensated(t: Tables, ops: seq<Operation>)
    decreases |ops|
  {
    ops == [] || (Compensated(t, ops[0]) && AllCompensated(Apply(t, ops[0]).0, ops[1..]))
  }

  /** A closed manager still holds its servers; it takes no new one. */
  lemma CloseAgrees(t: Tables, base: map<string, Tool>)
    requires Agree(t, base)
    ensures Agree(t.(roster := t.roster.(closed := true)), base)
  {
    var r, r' := t.roster, t.roster.(closed := true);
    forall n | n in r'.servers
      ensures ServerOk(r', r'.servers[n])
    {
      assert ServerOk(r, r.servers[n]);
    }
    assert Connections(r') == Connections(r) && SettingsOf(r') == SettingsOf(r);
  }

  lemma ApplyAgrees(t: Tables, op: Operation, base: map<string, Tool>)
    requires Agree(t, base) && Compensated(t, op)
    ensures Agree(Apply(t, op).0, base)
  {
    match op {
      case AddServer(name, settings, connect, persists) => AddAgrees(t, name, settings, connect, persists, base);
      case RemoveServer(name, persists, reconnect) =>
        if name in t.configs {
          RemoveAgreesExactly(t, name, persists, reconnect, base);
        }
      case RestartServer(name, connect) => RestartAgrees(t, name, connect, base);
      case CloseManager => CloseAgrees(t, base);
    }
  }

  /**
   The transaction over every history of adds, removals and restarts, each failing anywhere: settings,
   manager and file name the same servers, and the registry holds base plus manager tools.
   */
  lemma {:induction false} AgreementOverEveryHistory(t: Tables, ops: seq<Operation>, base: map<string, Tool>)
    requires Agree(t, base) && AllCompensated(t, ops)
    ensures Agree(ApplyAll(t, ops), base)
    decreases |ops|
  {
    if ops != [] {
      ApplyAgrees(t, ops[0], base);
      AgreementOverEveryHistory(Apply(t, ops[0]).0, ops[1..], base);
    }
  }
}
