/**
 Cancellation contexts (`runtime/protocol/run_context.py`): a graph of objects whose cancellation is
 walked down in place. Nothing is assumed about its shape; a cycle would stop the walk all the same.
 */
module RunContexts {

  class RunContext {
    var cancelled: bool
    var children: seq<RunContext>

    constructor ()
      ensures !cancelled && children == []
    {
      cancelled, children := false, [];
    }

    /** Idempotent: a context that is already cancelled is not walked again. */
    method Cancel(ghost all: set<RunContext>)
      requires this in all && Closed(all) && Follows(all, {})
      modifies all`cancelled
      ensures cancelled && Closed(all) && Follows(all, {}) && Kids(all) == old(Kids(all))
      ensures forall c :: c in all && old(c.cancelled) ==> c.cancelled
      ensures forall c :: c in all && c.cancelled && !old(c.cancelled) ==> Leads(old(Kids(all)), this, c)
      ensures old(cancelled) ==> forall c :: c in all ==> c.cancelled == old(c.cancelled)
    {
      if cancelled {
        return;
      }
      CancelBelow(all, {}, Kids(all));
    }

    /**
     The walk itself; `walking` are the contexts whose children it is going through. It cancels
     nothing but this context and what is derived from it.
     */
    method CancelBelow(ghost all: set<RunContext>, ghost walking: set<RunContext>, ghost kids: map<RunContext,
                       seq<RunContext>>)
      requires this in all && Closed(all) && Follows(all, walking) && kids == Kids(all)
      modifies all`cancelled
      ensures cancelled && Follows(all, walking) && kids == Kids(all)
      ensures forall c :: c in all && old(c.cancelled) ==> c.cancelled
      ensures forall c :: c in all && c.cancelled && !old(c.cancelled) ==> Leads(kids, this, c)
      decreases Live(all)
    {
      if cancelled {
        return;
      }
      cancelled := true;
      LeadsToItself(kids, this);
      assert this in old(Live(all));
      for i := 0 to |children|
        invariant cancelled && Follows(all, walking + {this}) && kids == Kids(all)
        invariant forall c :: c in all && old(c.cancelled) ==> c.cancelled
        invariant forall c :: c in all && c.cancelled && !old(c.cancelled) ==> Leads(kids, this, c)
        invariant forall k :: 0 <= k < i ==> children[k].cancelled
      {
        assert Live(all) <= old(Live(all)) && this !in Live(all);
        var child := children[i];
        child.CancelBelow(all, walking + {this}, kids);
        forall c | Leads(kids, child, c)
          ensures Leads(kids, this, c)
        {
          LeadsFurther(kids, this, child, c);
        }
      }
    }

    /** A child of a cancelled context is cancelled at once and not kept. */
    method Adopt(child: RunContext, ghost all: set<RunContext>)
      requires this in all && child in all && Closed(all) && Follows(all, {})
      modifies this`children, all`cancelled
      ensures Closed(all) && Follows(all, {})
      ensures if cancelled then children == old(children) && child.cancelled else children == old(children) + [child]
      ensures cancelled == old(cancelled)
      ensures forall c :: c in all && old(c.cancelled) ==> c.cancelled
      ensures forall c :: c in all && c.cancelled && !old(c.cancelled) ==> Leads(old(Kids(all)), child, c)
    {
      if cancelled {
        child.Cancel(all);
        return;
      }
      children := children + [child];
    }
  }

  /** No child leads out of `all`. */
  ghost predicate Closed(all: set<RunContext>)
    reads all
  {
    forall c, child :: c in all && child in c.children ==> child in all
  }

  /** A cancelled context that is not being walked has no live child. */
  ghost predicate Follows(all: set<RunContext>, walking: set<RunContext>)
    reads all
  {
    forall c, child :: c in all && c !in walking && c.cancelled && child in c.children
                       ==> child in all && child.cancelled
  }

  ghost function Live(all: set<RunContext>): set<RunContext>
    reads all
  {
    set c | c in all && !c.cancelled
  }

  /** Who is derived from whom. */
  ghost function Kids(all: set<RunContext>): map<RunContext, seq<RunContext>>
    reads all
  {
    map c | c in all :: c.children
  }

  /** `end` is `n` generations below `start`. */
  ghost predicate Descends(kids: map<RunContext, seq<RunContext>>, n: nat, start: RunContext, end: RunContext) {
    if n == 0 then start == end
    else start in kids && exists child :: child in kids[start] && Descends(kids, n - 1, child, end)
  }

  ghost predicate Leads(kids: map<RunContext, seq<RunContext>>, start: RunContext, end: RunContext) {
    exists n: nat :: Descends(kids, n, start, end)
  }

  lemma LeadsToItself(kids: map<RunContext, seq<RunContext>>, c: RunContext)
    ensures Leads(kids, c, c)
  {
    assert Descends(kids, 0, c, c);
  }

  lemma LeadsFurther(kids: map<RunContext, seq<RunContext>>, parent: RunContext, child: RunContext, c: RunContext)
    requires parent in kids && child in kids[parent] && Leads(kids, child, c)
    ensures Leads(kids, parent, c)
  {
    var n: nat :| Descends(kids, n, child, c);
    assert Descends(kids, n + 1, parent, c);
  }

  /** A cancelled context cancels everything derived from it, however far down. */
  lemma {:induction false} CancellationReaches(all: set<RunContext>, n: nat, start: RunContext, end: RunContext)
    requires Closed(all) && Follows(all, {}) && start in all && start.cancelled && Descends(Kids(all), n, start, end)
    ensures end in all && end.cancelled
  {
    if n > 0 {
      var child :| child in Kids(all)[start] && Descends(Kids(all), n - 1, child, end);
      CancellationReaches(all, n - 1, child, end);
    }
  }
}
