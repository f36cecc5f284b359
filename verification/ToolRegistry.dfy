/** The tool registry (`tools/registry.py`): a table and the order of its names, changed together. */
module ToolRegistry {
  import opened Outcomes

  /** A tool under the name of its first spec; `connection` is the server object it talks to. */
  datatype Tool = Tool(name: string, connection: nat)

  datatype Catalog = Catalog(tools: map<string, Tool>, order: seq<string>)

  function Names(items: seq<Tool>): seq<string> {
    seq(|items|, i requires 0 <= i < |items| => items[i].name)
  }

  function NameSet(items: seq<Tool>): set<string> {
    set t | t in items :: t.name
  }

  function AsSet(names: seq<string>): set<string> {
    set n | n in names
  }

  predicate Distinct(names: seq<string>) {
    forall i, j :: 0 <= i < j < |names| ==> names[i] != names[j]
  }

  /** The order holds every name of the table, and no other. */
  predicate Listed(c: Catalog) {
    AsSet(c.order) == c.tools.Keys
  }

  /** And it holds every name once. */
  predicate Coherent(c: Catalog) {
    Distinct(c.order) && Listed(c)
  }

  function Index(items: seq<Tool>): map<string, Tool> {
    if items == [] then map[]
    else Index(items[..|items| - 1])[items[|items| - 1].name := items[|items| - 1]]
  }

  /** What a batch must meet next to the names already taken. */
  predicate Fits(items: seq<Tool>, taken: set<string>) {
    Distinct(Names(items)) && forall i :: 0 <= i < |items| ==> items[i].name != "" && items[i].name !in taken
  }

  function Extended(c: Catalog, items: seq<Tool>): Catalog {
    Catalog(c.tools + Index(items), c.order + Names(items))
  }

  function Without(order: seq<string>, names: set<string>): seq<string> {
    if order == [] then []
    else
      var last := order[|order| - 1];
      Without(order[..|order| - 1], names) + (if last in names then [] else [last])
  }

  function Removed(c: Catalog, names: set<string>): Catalog {
    Catalog(c.tools - names, Without(c.order, names))
  }

  function Added(c: Catalog, items: seq<Tool>): Option<Catalog> {
    if Fits(items, c.tools.Keys) then Some(Extended(c, items)) else None
  }

  function Replaced(c: Catalog, names: set<string>, items: seq<Tool>): Option<Catalog> {
    if Fits(items, c.tools.Keys - names) then Some(Extended(Removed(c, names), items)) else None
  }

  // ----- What the operations keep -----

  lemma {:induction false} IndexKeys(items: seq<Tool>)
    ensures Index(items).Keys == NameSet(items)
  {
    if items != [] {
      IndexKeys(items[..|items| - 1]);
      assert items == items[..|items| - 1] + [items[|items| - 1]];
    }
  }

  lemma {:induction false} WithoutKeeps(order: seq<string>, names: set<string>)
    ensures forall n :: n in Without(order, names) <==> n in order && n !in names
    ensures Distinct(order) ==> Distinct(Without(order, names))
  {
    if order != [] {
      var front, last := order[..|order| - 1], order[|order| - 1];
      WithoutKeeps(front, names);
      assert order == front + [last];
      assert Distinct(order) ==> last !in front;
    }
  }

  lemma {:induction false} WithoutConcat(a: seq<string>, b: seq<string>, names: set<string>)
    ensures Without(a + b, names) == Without(a, names) + Without(b, names)
  {
    if b == [] {
      assert a + b == a;
    } else {
      WithoutConcat(a, b[..|b| - 1], names);
      assert (a + b)[..|a + b| - 1] == a + b[..|b| - 1];
    }
  }

  lemma {:induction false} WithoutNone(order: seq<string>, names: set<string>)
    requires forall n :: n in order ==> n !in names
    ensures Without(order, names) == order
  {
    if order != [] {
      WithoutNone(order[..|order| - 1], names);
    }
  }

  lemma {:induction false} WithoutAll(order: seq<string>, names: set<string>)
    requires forall n :: n in order ==> n in names
    ensures Without(order, names) == []
  {
    if order != [] {
      WithoutAll(order[..|order| - 1], names);
    }
  }

  lemma NamesAre(items: seq<Tool>)
    ensures forall n :: n in Names(items) <==> n in NameSet(items)
  {
    forall n | n in NameSet(items)
      ensures n in Names(items)
    {
      var i :| 0 <= i < |items| && items[i].name == n;
      assert Names(items)[i] == n;
    }
    forall n | n in Names(items)
      ensures n in NameSet(items)
    {
      var i :| 0 <= i < |items| && Names(items)[i] == n;
      assert items[i] in items;
    }
  }

  lemma ExtendedIsCoherent(c: Catalog, items: seq<Tool>)
    requires Coherent(c) && Fits(items, c.tools.Keys)
    ensures Coherent(Extended(c, items))
  {
    IndexKeys(items);
    NamesAre(items);
    assert forall n :: n in c.order <==> n in c.tools.Keys;
  }

  lemma RemovedIsCoherent(c: Catalog, names: set<string>)
    requires Coherent(c)
    ensures Coherent(Removed(c, names))
  {
    WithoutKeeps(c.order, names);
  }

  lemma OperationsKeepListing(c: Catalog, names: set<string>, items: seq<Tool>)
    requires Listed(c)
    ensures Listed(Removed(c, names)) && Listed(Extended(c, items))
  {
    WithoutKeeps(c.order, names);
    IndexKeys(items);
    NamesAre(items);
    assert forall n :: n in c.order <==> n in c.tools.Keys;
  }

  /** Every operation keeps table and order in step, whatever it is given. */
  lemma OperationsKeepCoherence(c: Catalog, names: set<string>, items: seq<Tool>)
    requires Coherent(c)
    ensures Coherent(Removed(c, names))
    ensures Added(c, items).Some? ==> Coherent(Added(c, items).value)
    ensures Replaced(c, names, items).Some? ==> Coherent(Replaced(c, names, items).value)
  {
    RemovedIsCoherent(c, names);
    if Added(c, items).Some? {
      ExtendedIsCoherent(c, items);
    }
    if Replaced(c, names, items).Some? {
      ExtendedIsCoherent(Removed(c, names), items);
    }
  }

  /** Removing what was just added restores the catalog. */
  lemma RemoveUndoesAdd(c: Catalog, items: seq<Tool>)
    requires Coherent(c) && Fits(items, c.tools.Keys)
    ensures Removed(Extended(c, items), NameSet(items)) == c
  {
    IndexKeys(items);
    NamesAre(items);
    WithoutConcat(c.order, Names(items), NameSet(items));
    assert forall n :: n in c.order <==> n in c.tools.Keys;
    assert forall n :: n in c.tools ==> n !in NameSet(items);
    WithoutNone(c.order, NameSet(items));
    WithoutAll(Names(items), NameSet(items));
    assert (c.tools + Index(items)) - NameSet(items) == c.tools;
  }

  /** The table after the loop of `replace` has passed over `passed`. */
  function LeftAfter(tools: map<string, Tool>, passed: seq<string>, remove: set<string>): map<string, Tool> {
    if passed == [] then tools
    else
      var before := LeftAfter(tools, passed[..|passed| - 1], remove);
      var last := passed[|passed| - 1];
      if last in remove then before - {last} else before
  }

  lemma {:induction false} LeftAfterAll(tools: map<string, Tool>, passed: seq<string>, remove: set<string>)
    ensures LeftAfter(tools, passed, remove) == tools - AsSet(passed) * remove
    ensures AsSet(passed) == tools.Keys ==> LeftAfter(tools, passed, remove) == tools - remove
  {
    if passed != [] {
      var front, last := passed[..|passed| - 1], passed[|passed| - 1];
      LeftAfterAll(tools, front, remove);
      assert passed == front + [last];
      assert AsSet(passed) == AsSet(front) + {last};
    }
  }

  /** The registry object; a raised error is the answer `false`. */
  class Registry {
    var tools: map<string, Tool>
    var order: seq<string>

    ghost function Value(): Catalog
      reads this
    {
      Catalog(tools, order)
    }

    /** What holds from construction on, for whatever tools. */
    ghost predicate Valid()
      reads this
    {
      Listed(Value())
    }

    /** The constructor checks nothing: only distinct names make a coherent registry. */
    constructor (items: seq<Tool>)
      ensures Valid() && Value() == Catalog(Index(items), Names(items))
      ensures Distinct(Names(items)) ==> Coherent(Value())
    {
      tools, order := map[], [];
      new;
      for i := 0 to |items|
        invariant tools == Index(items[..i]) && order == Names(items[..i])
      {
        assert items[..i + 1][..i] == items[..i];
        order := order + [items[i].name];
        tools := tools[items[i].name := items[i]];
      }
      assert items[..|items|] == items;
      IndexKeys(items);
      NamesAre(items);
    }

    method Add(items: seq<Tool>) returns (ok: bool)
      requires Valid()
      modifies this
      ensures Valid() && ok == Added(old(Value()), items).Some?
      ensures Value() == if ok then Added(old(Value()), items).value else old(Value())
    {
      OperationsKeepListing(Value(), {}, items);
      ok := CheckBatch(items, tools.Keys);
      if !ok {
        return;
      }
      Install(items);
    }

    method Remove(names: seq<string>)
      requires Valid()
      modifies this
      ensures Valid() && Value() == Removed(old(Value()), AsSet(names))
    {
      var remove := AsSet(names);
      OperationsKeepListing(Value(), remove, []);
      tools := tools - remove;
      order := Filter(order, remove);
    }

    method Replace(removeNames: seq<string>, items: seq<Tool>) returns (ok: bool)
      requires Valid()
      modifies this
      ensures Valid() && ok == Replaced(old(Value()), AsSet(removeNames), items).Some?
      ensures Value() == if ok then Replaced(old(Value()), AsSet(removeNames), items).value else old(Value())
    {
      var remove := AsSet(removeNames);
      ok := CheckBatch(items, tools.Keys - remove);
      if !ok {
        return;
      }
      OperationsKeepListing(Value(), remove, []);
      DropListed(remove);
      OperationsKeepListing(Value(), {}, items);
      Install(items);
    }

    /** Drops the named tools that the order lists, which are all of them. */
    method DropListed(remove: set<string>)
      requires Valid()
      modifies this
      ensures Value() == Removed(old(Value()), remove)
    {
      ghost var all := Value();
      var kept := [];
      for i := 0 to |order|
        invariant order == all.order && tools == LeftAfter(all.tools, order[..i], remove)
        invariant kept == Without(order[..i], remove)
      {
        assert order[..i + 1][..i] == order[..i];
        if order[i] in remove {
          tools := tools - {order[i]};
        } else {
          kept := kept + [order[i]];
        }
      }
      assert order[..|order|] == order;
      LeftAfterAll(all.tools, order, remove);
      order := kept;
    }

    /** The appending loop of both operations. */
    method Install(items: seq<Tool>)
      modifies this
      ensures Value() == Extended(old(Value()), items)
    {
      ghost var before := Value();
      assert before.tools + Index([]) == before.tools && before.order + Names([]) == before.order;
      for i := 0 to |items|
        invariant Value() == Extended(before, items[..i])
      {
        assert items[..i + 1][..i] == items[..i];
        assert Names(items[..i + 1]) == Names(items[..i]) + [items[i].name];
        order := order + [items[i].name];
        tools := tools[items[i].name := items[i]];
      }
      assert items[..|items|] == items;
    }
  }

  method Filter(order: seq<string>, names: set<string>) returns (kept: seq<string>)
    ensures kept == Without(order, names)
  {
    kept := [];
    for i := 0 to |order|
      invariant kept == Without(order[..i], names)
    {
      assert order[..i + 1][..i] == order[..i];
      if order[i] !in names {
        kept := kept + [order[i]];
      }
    }
    assert order[..|order|] == order;
  }

  /** The checking loop, with the names seen so far. */
  method CheckBatch(items: seq<Tool>, taken: set<string>) returns (ok: bool)
    ensures ok == Fits(items, taken)
  {
    var seen: set<string> := {};
    for i := 0 to |items|
      invariant seen == NameSet(items[..i]) && Fits(items[..i], taken)
    {
      var name := items[i].name;
      assert items[..i + 1] == items[..i] + [items[i]];
      NamesAre(items[..i]);
      if name == "" || name in taken {
        assert !Fits(items, taken);
        return false;
      }
      if name in seen {
        assert name in Names(items[..i]);
        var k :| 0 <= k < i && Names(items[..i])[k] == name;
        assert Names(items)[k] == Names(items)[i];
        return false;
      }
      assert Names(items[..i + 1]) == Names(items[..i]) + [name];
      seen := seen + {name};
    }
    assert items[..|items|] == items;
    ok := true;
  }
}
