/** Inserting and evicting records: eviction never removes an obligation or orphans a
    record, and nothing evicted can come back. */
module ActorLedgerHistory {
  import opened ActorWire
  import opened ActorLedger
  import opened ActorLedgerInvariant
  import opened Wrappers

  // ----- succession of ledgers -----

  /** The identity lies above every mark the ledger has left behind. */
  predicate NewTo(l: Ledger, c: Command) {
    c.parentId > l.parentFloor
    || exists i :: 0 <= i < |l.parents| && l.parents[i].binding.parentId == c.parentId && c.request > l.parents[i].actionFloor
  }

  predicate Continues(l: Ledger, a: Action) {
    exists k :: 0 <= k < |l.actions| && l.actions[k].command == a.command && Keeps(l.actions[k].result, a.result)
  }

  predicate FloorKept(l: Ledger, p: Scope) {
    p.binding.parentId > l.parentFloor
    || exists i :: 0 <= i < |l.parents| && l.parents[i].binding.parentId == p.binding.parentId
                   && l.parents[i].actionFloor <= p.actionFloor
  }

  /** m comes after l: every retained action continues one of l or is new to it, and
      the marks and the log only grow.  A change of namespace starts afresh. */
  predicate Succeeds(l: Ledger, m: Ledger) {
    && l.log <= m.log && l.epoch <= m.epoch
    && (l.epoch == m.epoch ==>
          && l.parentFloor <= m.parentFloor
          && (forall k :: 0 <= k < |m.actions| ==> Continues(l, m.actions[k]) || NewTo(l, m.actions[k].command))
          && (forall i :: 0 <= i < |m.parents| ==> FloorKept(l, m.parents[i])))
  }

  lemma EvolvesSucceeds(l: Ledger, m: Ledger)
    requires Evolves(l, m)
    ensures Succeeds(l, m)
  {
    AdaptsSucceeds(l, m);
  }

  lemma AdaptsSucceeds(l: Ledger, m: Ledger)
    requires Adapts(l, m)
    ensures Succeeds(l, m)
  {
    forall k | 0 <= k < |m.actions| ensures Continues(l, m.actions[k]) {
      assert l.actions[k].command == m.actions[k].command;
    }
    forall i | 0 <= i < |m.parents| ensures FloorKept(l, m.parents[i]) {
      assert l.parents[i].binding == m.parents[i].binding;
    }
  }

  lemma SucceedsOn(l: Ledger, m: Ledger, n: Ledger)
    requires Succeeds(l, m) && Succeeds(m, n)
    ensures Succeeds(l, n)
  {
    hide Continues, NewTo, FloorKept;
    if l.epoch == n.epoch {
      forall k | 0 <= k < |n.actions| ensures Continues(l, n.actions[k]) || NewTo(l, n.actions[k].command) {
        if Continues(m, n.actions[k]) { ContinuesOn(l, m, n.actions[k]); } else { NewOn(l, m, n.actions[k].command); }
      }
      forall i | 0 <= i < |n.parents| ensures FloorKept(l, n.parents[i]) { FloorOn(l, m, n.parents[i]); }
    }
  }

  lemma ContinuesOn(l: Ledger, m: Ledger, a: Action)
    requires Succeeds(l, m) && l.epoch == m.epoch && Continues(m, a)
    ensures Continues(l, a) || NewTo(l, a.command)
  {
    hide NewTo, FloorKept;
    var k :| 0 <= k < |m.actions| && m.actions[k].command == a.command && Keeps(m.actions[k].result, a.result);
    assert Continues(l, m.actions[k]) || NewTo(l, m.actions[k].command);
  }

  lemma NewOn(l: Ledger, m: Ledger, c: Command)
    requires Succeeds(l, m) && l.epoch == m.epoch && NewTo(m, c)
    ensures NewTo(l, c)
  {
    hide Continues;
    if c.parentId <= m.parentFloor {
      var i :| 0 <= i < |m.parents| && m.parents[i].binding.parentId == c.parentId && c.request > m.parents[i].actionFloor;
      assert FloorKept(l, m.parents[i]);
    }
  }

  lemma FloorOn(l: Ledger, m: Ledger, p: Scope)
    requires Succeeds(l, m) && l.epoch == m.epoch && FloorKept(m, p)
    ensures FloorKept(l, p)
  {
    hide Continues, NewTo;
    if p.binding.parentId <= m.parentFloor {
      var i :| 0 <= i < |m.parents| && m.parents[i].binding.parentId == p.binding.parentId
                && m.parents[i].actionFloor <= p.actionFloor;
      assert FloorKept(l, m.parents[i]);
    }
  }

  /** Across any succession, an action that is still there has kept its evidence. */
  lemma EvidenceSurvives(l: Ledger, m: Ledger, k: nat, n: nat)
    requires Marked(l) && Succeeds(l, m) && l.epoch == m.epoch
    requires k < |l.actions| && n < |m.actions| && ActionKey(l.actions[k].command) == ActionKey(m.actions[n].command)
    ensures m.actions[n].command == l.actions[k].command && Keeps(l.actions[k].result, m.actions[n].result)
  {
    hide LogOk, OneExclusive, FloorKept;
    assert !NewTo(l, m.actions[n].command);
    assert Continues(l, m.actions[n]);
  }

  // ----- evicting -----

  predicate Distinct(m: Ledger) {
    && (forall i, j :: 0 <= i < j < |m.parents| ==> m.parents[i].binding.parentId != m.parents[j].binding.parentId)
    && (forall i, j :: 0 <= i < j < |m.contexts| ==> ContextKey(m.contexts[i]) != ContextKey(m.contexts[j]))
    && (forall i, j :: 0 <= i < j < |m.actions| ==> ActionKey(m.actions[i].command) != ActionKey(m.actions[j].command))
  }

  /** m keeps some of l's records, unchanged. */
  predicate Subledger(l: Ledger, m: Ledger) {
    && m == l.(parents := m.parents, contexts := m.contexts, actions := m.actions)
    && (forall p :: p in m.parents ==> p in l.parents) && (forall x :: x in m.contexts ==> x in l.contexts)
    && (forall a :: a in m.actions ==> a in l.actions)
    && |m.parents| <= |l.parents| && |m.contexts| <= |l.contexts| && |m.actions| <= |l.actions|
  }

  /** What is kept still has its parent and context, and the active records are kept. */
  predicate Rooted(m: Ledger) {
    && (m.parent.Some? ==> HasParent(m, m.parent.value)) && (m.context.Some? ==> HasContext(m, m.context.value))
    && (forall x :: x in m.contexts ==> HasParent(m, x.binding.parentId))
    && (forall a :: a in m.actions ==> HasParent(m, a.command.parentId)
                                       && (a.command.contextId != 0 ==> HasContext(m, Home(a.command))))
  }

  lemma SubledgerKeeps(l: Ledger, m: Ledger)
    requires Inv(l) && Subledger(l, m) && Distinct(m) && Rooted(m)
    ensures Inv(m) && Succeeds(l, m)
  {
    hide HasParent, HasContext, ActionShape, LinksOk, ActionsOk, ParentsOk, ContextsOk, LogOk;
    SubledgerScopes(l, m);
    SubledgerActions(l, m);
    SubledgerLinks(l, m);
    SubledgerLog(l, m);
    SubledgerSucceeds(l, m);
  }

  lemma SubledgerScopes(l: Ledger, m: Ledger)
    requires Inv(l) && Subledger(l, m) && Distinct(m) && Rooted(m)
    ensures ParentsOk(m) && ContextsOk(m) && Claimed(m)
  {
    hide HasParent, HasContext, ActionShape, LinksOk, ActionsOk, LogOk;
    assert forall i :: 0 <= i < |m.parents| ==> m.parents[i] in l.parents;
    assert forall i :: 0 <= i < |m.contexts| ==> m.contexts[i] in l.contexts;
  }

  lemma SubledgerActions(l: Ledger, m: Ledger)
    requires Inv(l) && Subledger(l, m) && Distinct(m) && Rooted(m)
    ensures ActionsOk(m)
  {
    hide HasParent, HasContext, ActionShape, LinksOk, ParentsOk, ContextsOk, LogOk;
    assert forall k :: 0 <= k < |m.actions| ==> m.actions[k] in l.actions;
    SubledgerExclusive(l, m);
  }

  lemma SubledgerExclusive(l: Ledger, m: Ledger)
    requires OneExclusive(l.actions) && Subledger(l, m) && DistinctActions(m.actions)
    ensures OneExclusive(m.actions)
  {
    forall i, j | 0 <= i < j < |m.actions| ensures !(Exclusive(m.actions[i]) && Exclusive(m.actions[j])) {
      assert m.actions[i] in l.actions && m.actions[j] in l.actions;
      var i' :| 0 <= i' < |l.actions| && l.actions[i'] == m.actions[i];
      var j' :| 0 <= j' < |l.actions| && l.actions[j'] == m.actions[j];
      assert i' != j';
    }
  }

  lemma SubledgerLinks(l: Ledger, m: Ledger)
    requires Inv(l) && Subledger(l, m)
    ensures LinksOk(m)
  {
    hide HasParent, HasContext, ActionShape, ActionsOk, ParentsOk, ContextsOk, LogOk, ParentContext, ParentAction, ContextAction;
    assert forall i :: 0 <= i < |m.parents| ==> m.parents[i] in l.parents;
    assert forall i :: 0 <= i < |m.contexts| ==> m.contexts[i] in l.contexts;
    assert forall k :: 0 <= k < |m.actions| ==> m.actions[k] in l.actions;
  }

  lemma SubledgerLog(l: Ledger, m: Ledger)
    requires LogOk(l) && Subledger(l, m)
    ensures LogOk(m)
  {
    hide Increasing;
    assert forall i :: 0 <= i < |m.parents| ==> m.parents[i] in l.parents;
  }

  lemma SubledgerSucceeds(l: Ledger, m: Ledger)
    requires Subledger(l, m)
    ensures Succeeds(l, m)
  {
    hide NewTo;
    forall k | 0 <= k < |m.actions| ensures Continues(l, m.actions[k]) { assert m.actions[k] in l.actions; }
    forall i | 0 <= i < |m.parents| ensures FloorKept(l, m.parents[i]) { assert m.parents[i] in l.parents; }
  }

  lemma {:induction false} PruneActionsKeeps(l: Ledger, acts: seq<Action>)
    requires Inv(l.(actions := acts)) && acts == l.actions
    ensures Inv(l.(actions := PruneActions(acts))) && Succeeds(l, l.(actions := PruneActions(acts)))
    decreases |acts|
  {
    hide Core, Claimed, Succeeds, Keeps;
    var i := FirstSettled(acts);
    if |acts| < CAPACITY || i == |acts| {
      assert l.(actions := PruneActions(acts)) == l;
      EvolvesSelf(l);
      EvolvesSucceeds(l, l);
    } else {
      var m := l.(actions := acts[..i] + acts[i + 1..]);
      EvictAction(l, i);
      PruneActionsKeeps(m, m.actions);
      assert m.(actions := PruneActions(m.actions)) == l.(actions := PruneActions(acts));
      SucceedsOn(l, m, m.(actions := PruneActions(m.actions)));
    }
  }

  lemma EvictAction(l: Ledger, i: nat)
    requires Inv(l) && i < |l.actions|
    ensures Inv(l.(actions := l.actions[..i] + l.actions[i + 1..]))
    ensures Succeeds(l, l.(actions := l.actions[..i] + l.actions[i + 1..]))
  {
    var m := l.(actions := l.actions[..i] + l.actions[i + 1..]);
    assert forall id :: HasParent(l, id) <==> HasParent(m, id) by {
      hide Inv;
    }
    assert forall key :: HasContext(l, key) <==> HasContext(m, key) by {
      hide Inv;
    }
    hide HasParent, HasContext, ActionShape, LinksOk, LogOk, Succeeds;
    SubledgerKeeps(l, m);
  }

  /** Evicting a closed context takes its actions, all settled, with it. */
  lemma EvictContext(l: Ledger, i: nat)
    requires Inv(l) && i < |l.contexts| && Terminal(l.contexts[i].state)
    ensures var m := l.(actions := DropActions(l.actions, l.contexts[i].binding, false),
                        contexts := l.contexts[..i] + l.contexts[i + 1..]);
            Inv(m) && Succeeds(l, m)
  {
    hide Inv, HasContext, Succeeds;
    var m := l.(actions := DropActions(l.actions, l.contexts[i].binding, false),
                contexts := l.contexts[..i] + l.contexts[i + 1..]);
    DropDistinct(l, l.actions, l.contexts[i].binding, false);
    EvictContextDistinct(l, i);
    EvictContextRooted(l, i);
    SubledgerKeeps(l, m);
  }

  lemma EvictContextDistinct(l: Ledger, i: nat)
    requires Inv(l) && i < |l.contexts|
    requires DistinctActions(DropActions(l.actions, l.contexts[i].binding, false))
    ensures Distinct(l.(actions := DropActions(l.actions, l.contexts[i].binding, false),
                        contexts := l.contexts[..i] + l.contexts[i + 1..]))
  {
    hide HasParent, HasContext, LinksOk, ActionsOk, LogOk;
  }

  lemma EvictContextRooted(l: Ledger, i: nat)
    requires Inv(l) && i < |l.contexts| && Terminal(l.contexts[i].state)
    ensures Rooted(l.(actions := DropActions(l.actions, l.contexts[i].binding, false),
                      contexts := l.contexts[..i] + l.contexts[i + 1..]))
  {
    hide ActionShape, ContextLinks, ActionLinks, LogOk, HasContext, HasParent;
    var m := l.(actions := DropActions(l.actions, l.contexts[i].binding, false),
                contexts := l.contexts[..i] + l.contexts[i + 1..]);
    forall id | HasParent(l, id) ensures HasParent(m, id) { ParentStays(l, m, id); }
    forall key | HasContext(l, key) && key != ContextKey(l.contexts[i]) ensures HasContext(m, key) { ContextStays(l, i, m, key); }
    forall a | a in m.actions && a.command.contextId != 0 ensures HasContext(m, Home(a.command)) {
      var k :| 0 <= k < |l.actions| && l.actions[k] == a;
      assert ContextKey(l.contexts[i]) == Home(l.actions[k].command) ==> ContextAction(l.contexts[i], l.actions[k]);
    }
  }

  lemma ParentStays(l: Ledger, m: Ledger, id: Id)
    requires HasParent(l, id) && m.parents == l.parents
    ensures HasParent(m, id)
  {
  }

  lemma ContextStays(l: Ledger, i: nat, m: Ledger, key: (Id, Id))
    requires i < |l.contexts| && m.contexts == l.contexts[..i] + l.contexts[i + 1..]
    requires HasContext(l, key) && key != ContextKey(l.contexts[i])
    ensures HasContext(m, key)
  {
    var j :| 0 <= j < |l.contexts| && ContextKey(l.contexts[j]) == key;
    assert m.contexts[if j < i then j else j - 1] == l.contexts[j];
  }

  predicate DistinctContexts(xs: seq<Scope>) {
    forall i, j :: 0 <= i < j < |xs| ==> ContextKey(xs[i]) != ContextKey(xs[j])
  }

  lemma {:induction false} DropDistinct(l: Ledger, acts: seq<Action>, b: Command, owner: bool)
    requires DistinctActions(acts) || (Inv(l) && acts == l.actions)
    ensures DistinctActions(DropActions(acts, b, owner))
    decreases |acts|
  {
    assert DistinctActions(acts);
    hide Inv;
    if acts != [] {
      DropDistinct(l, acts[1..], b, owner);
      assert forall a :: a in DropActions(acts[1..], b, owner) ==> a in acts[1..];
    }
  }

  lemma {:induction false} DropContextsDistinct(xs: seq<Scope>, b: Command)
    requires DistinctContexts(xs)
    ensures DistinctContexts(DropContexts(xs, b))
  {
    if xs != [] {
      DropContextsDistinct(xs[1..], b);
      assert forall x :: x in DropContexts(xs[1..], b) ==> x in xs[1..];
    }
  }

  lemma {:induction false} PruneContextsKeeps(l: Ledger)
    requires Inv(l)
    ensures Inv(PruneContexts(l)) && Succeeds(l, PruneContexts(l))
    decreases |l.contexts|
  {
    hide Inv, Succeeds, Evolves;
    var i := FirstClosed(l.contexts, l.context);
    if |l.contexts| < CAPACITY || i == |l.contexts| {
      EvolvesSelf(l);
      EvolvesSucceeds(l, l);
    } else {
      var m := l.(actions := DropActions(l.actions, l.contexts[i].binding, false),
                  contexts := l.contexts[..i] + l.contexts[i + 1..]);
      EvictContext(l, i);
      PruneContextsKeeps(m);
      SucceedsOn(l, m, PruneContexts(m));
    }
  }

  function WithoutParent(l: Ledger, i: nat): Ledger
    requires i < |l.parents|
  {
    var b := l.parents[i].binding;
    l.(actions := DropActions(l.actions, b, true), contexts := DropContexts(l.contexts, b),
       parents := l.parents[..i] + l.parents[i + 1..])
  }

  /** Evicting a closed parent takes its contexts and actions with it, all of them done. */
  lemma EvictParent(l: Ledger, i: nat)
    requires Inv(l) && i < |l.parents| && Terminal(l.parents[i].state)
    ensures Inv(WithoutParent(l, i)) && Succeeds(l, WithoutParent(l, i))
  {
    hide Inv, HasContext, Succeeds;
    var m := WithoutParent(l, i);
    DropDistinct(l, l.actions, l.parents[i].binding, true);
    EvictParentDistinct(l, i);
    EvictParentRooted(l, i);
    SubledgerKeeps(l, m);
  }

  lemma EvictParentDistinct(l: Ledger, i: nat)
    requires Inv(l) && i < |l.parents|
    requires DistinctActions(DropActions(l.actions, l.parents[i].binding, true))
    ensures Distinct(WithoutParent(l, i))
  {
    hide HasParent, HasContext, LinksOk, ActionsOk, LogOk;
    DropContextsDistinct(l.contexts, l.parents[i].binding);
  }

  lemma EvictParentRooted(l: Ledger, i: nat)
    requires Inv(l) && i < |l.parents| && Terminal(l.parents[i].state)
    ensures Rooted(WithoutParent(l, i))
  {
    hide ActionShape, ContextLinks, ActionLinks, ChildLinks, LogOk, HasContext, HasParent;
    var m, b := WithoutParent(l, i), l.parents[i].binding;
    forall id | HasParent(l, id) && id != b.parentId ensures HasParent(m, id) { OtherParentStays(l, i, id); }
    ParentTakesAll(l, i);
    forall key | HasContext(l, key) && key.0 != b.parentId ensures HasContext(m, key) { OtherContextStays(l, i, key); }
    if l.context.Some? { ActiveElsewhere(l, i); }
  }

  lemma OtherParentStays(l: Ledger, i: nat, id: Id)
    requires i < |l.parents| && HasParent(l, id) && id != l.parents[i].binding.parentId
    ensures HasParent(WithoutParent(l, i), id)
  {
    var j :| 0 <= j < |l.parents| && l.parents[j].binding.parentId == id;
    assert WithoutParent(l, i).parents[if j < i then j else j - 1] == l.parents[j];
  }

  lemma OtherContextStays(l: Ledger, i: nat, key: (Id, Id))
    requires i < |l.parents| && HasContext(l, key) && key.0 != l.parents[i].binding.parentId
    ensures HasContext(WithoutParent(l, i), key)
  {
    var j :| 0 <= j < |l.contexts| && ContextKey(l.contexts[j]) == key;
    assert l.contexts[j] in DropContexts(l.contexts, l.parents[i].binding);
  }

  lemma ParentTakesAll(l: Ledger, i: nat)
    requires Inv(l) && i < |l.parents| && Terminal(l.parents[i].state)
    ensures forall x :: x in WithoutParent(l, i).contexts ==> x.binding.parentId != l.parents[i].binding.parentId
    ensures forall a :: a in WithoutParent(l, i).actions ==> a.command.parentId != l.parents[i].binding.parentId
  {
    hide HasParent, HasContext, ActionsOk, LogOk, ChildLinks, ContextsOk, ParentsOk;
    forall x | x in WithoutParent(l, i).contexts ensures x.binding.parentId != l.parents[i].binding.parentId {
      var j :| 0 <= j < |l.contexts| && l.contexts[j] == x;
      assert l.parents[i].binding.parentId == l.contexts[j].binding.parentId ==> ParentContext(l.parents[i], l.contexts[j]);
    }
    forall a | a in WithoutParent(l, i).actions ensures a.command.parentId != l.parents[i].binding.parentId {
      var k :| 0 <= k < |l.actions| && l.actions[k] == a;
      assert l.parents[i].binding.parentId == l.actions[k].command.parentId ==> ParentAction(l.parents[i], l.actions[k]);
    }
  }

  lemma ActiveElsewhere(l: Ledger, i: nat)
    requires Inv(l) && i < |l.parents| && Terminal(l.parents[i].state) && l.context.Some?
    ensures l.context.value.0 != l.parents[i].binding.parentId
  {
    assert HasContext(l, l.context.value);
    var j :| 0 <= j < |l.contexts| && ContextKey(l.contexts[j]) == l.context.value;
    hide HasParent, HasContext, ActionsOk, LogOk, ChildLinks, ActionLinks;
    assert Owned(l.contexts[j].state.phase);
  }

  lemma {:induction false} PruneParentsKeeps(l: Ledger)
    requires Inv(l)
    ensures Inv(PruneParents(l)) && Succeeds(l, PruneParents(l))
    decreases |l.parents|
  {
    hide Inv, Succeeds, Evolves;
    var i := FirstClosed(l.parents, ParentKey(l));
    if |l.parents| < CAPACITY || i == |l.parents| {
      EvolvesSelf(l);
      EvolvesSucceeds(l, l);
    } else {
      EvictParent(l, i);
      PruneParentsKeeps(WithoutParent(l, i));
      SucceedsOn(l, WithoutParent(l, i), PruneParents(WithoutParent(l, i)));
    }
  }

  lemma PruneKeeps(l: Ledger)
    requires Inv(l)
    ensures Inv(Prune(l)) && Succeeds(l, Prune(l))
  {
    hide Inv, Succeeds, PruneContexts, PruneParents, PruneActions;
    assert l.(actions := l.actions) == l;
    PruneActionsKeeps(l, l.actions);
    var m := l.(actions := PruneActions(l.actions));
    PruneContextsKeeps(m);
    PruneParentsKeeps(PruneContexts(m));
    SucceedsOn(l, m, PruneContexts(m));
    SucceedsOn(l, PruneContexts(m), Prune(l));
  }

  // ----- room after eviction -----

  /** Of two parents, or two contexts, one is closed: there is always one to evict. */
  lemma SomeClosed(l: Ledger)
    requires Inv(l)
    ensures |l.parents| >= 2 ==> FirstClosed(l.parents, ParentKey(l)) < |l.parents|
    ensures |l.contexts| >= 2 ==> FirstClosed(l.contexts, l.context) < |l.contexts|
  {
    hide HasParent, HasContext, LinksOk, ActionsOk, LogOk;
    if |l.parents| >= 2 { assert l.parents[0].binding.parentId != l.parents[1].binding.parentId; }
    if |l.contexts| >= 2 { assert ContextKey(l.contexts[0]) != ContextKey(l.contexts[1]); }
  }

  lemma {:induction false} ContextRoom(l: Ledger)
    requires Inv(l)
    ensures |PruneContexts(l).contexts| < CAPACITY
    decreases |l.contexts|
  {
    hide Inv, Succeeds;
    var i := FirstClosed(l.contexts, l.context);
    SomeClosed(l);
    if |l.contexts| >= CAPACITY {
      EvictContext(l, i);
      ContextRoom(l.(actions := DropActions(l.actions, l.contexts[i].binding, false),
                     contexts := l.contexts[..i] + l.contexts[i + 1..]));
    }
  }

  lemma {:induction false} ParentRoom(l: Ledger)
    requires Inv(l)
    ensures |PruneParents(l).parents| < CAPACITY && |PruneParents(l).contexts| <= |l.contexts|
    decreases |l.parents|
  {
    hide Inv, Succeeds;
    SomeClosed(l);
    if |l.parents| >= CAPACITY {
      var i := FirstClosed(l.parents, ParentKey(l));
      EvictParent(l, i);
      ParentRoom(WithoutParent(l, i));
    }
  }

  /** Pruning always leaves room for one more parent and one more context. */
  lemma PruneMakesRoom(l: Ledger)
    requires Inv(l)
    ensures |Prune(l).parents| < CAPACITY && |Prune(l).contexts| < CAPACITY
  {
    hide Inv, Succeeds, PruneContexts, PruneParents, PruneActions;
    assert l.(actions := l.actions) == l;
    PruneActionsKeeps(l, l.actions);
    var m := l.(actions := PruneActions(l.actions));
    ContextRoom(m);
    PruneContextsKeeps(m);
    ParentRoom(PruneContexts(m));
  }
}
