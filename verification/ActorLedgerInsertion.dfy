/** Inserting records: a new identity lies above every mark, so it meets nothing retained. */
module ActorLedgerInsertion {
  import opened ActorWire
  import opened ActorLedger
  import opened ActorLedgerInvariant
  import opened ActorLedgerHistory
  import opened Wrappers

  /** The parent mark raised, and, if push, an unclaimed parent inserted. */
  function PushParent(l: Ledger, c: Command, push: bool): Ledger {
    l.(parentFloor := c.parentId, parents := if push then l.parents + [Fresh(c)] else l.parents)
  }

  predicate ParentFits(l: Ledger, c: Command) {
    Known(l, c) && l.parentFloor < c.parentId && c.contextId == 0 && |l.parents| < CAPACITY
  }

  lemma PushParentKeeps(l: Ledger, c: Command, push: bool)
    requires Inv(l) && ParentFits(l, c)
    ensures Core(PushParent(l, c, push)) && Succeeds(l, PushParent(l, c, push))
    ensures ClaimedBut(PushParent(l, c, push), true, |l.parents|)
  {
    hide HasParent, HasContext, ActionShape, ActionsOk, LogOk, LinksOk, ParentsOk, ContextsOk, Succeeds;
    PushParentRecords(l, c, push);
    PushParentLinks(l, c, push);
    PushParentSucceeds(l, c, push);
  }

  lemma PushParentRecords(l: Ledger, c: Command, push: bool)
    requires Inv(l) && ParentFits(l, c)
    ensures var m := PushParent(l, c, push); ParentsOk(m) && ContextsOk(m) && ActionsOk(m)
  {
    var m := PushParent(l, c, push);
    hide HasParent, HasContext, ActionShape, LogOk, LinksOk;
    forall id | HasParent(l, id) ensures HasParent(m, id) { ParentRemains(l, m, id); }
    forall key | HasContext(l, key) ensures HasContext(m, key) { ContextRemains(l, m, key); }
    if l.parent.Some? { ActiveParentBelowMark(l); }
    assert ContextsOk(m) by { hide ActionsOk, ParentsOk; }
    assert ActionsOk(m) by { hide ContextsOk, ParentsOk; }
    assert ParentsOk(m) by { hide ContextsOk, ActionsOk; }
  }

  lemma ActiveParentBelowMark(l: Ledger)
    requires Inv(l) && l.parent.Some?
    ensures l.parent.value <= l.parentFloor
  {
    hide LinksOk, ActionsOk, ContextsOk, LogOk;
  }

  lemma ParentRemains(l: Ledger, m: Ledger, id: Id)
    requires HasParent(l, id) && |l.parents| <= |m.parents|
    requires forall i :: 0 <= i < |l.parents| ==> m.parents[i].binding == l.parents[i].binding
    ensures HasParent(m, id)
  {
    var i :| 0 <= i < |l.parents| && l.parents[i].binding.parentId == id;
    assert m.parents[i].binding == l.parents[i].binding;
  }

  lemma ContextRemains(l: Ledger, m: Ledger, key: (Id, Id))
    requires HasContext(l, key) && |l.contexts| <= |m.contexts|
    requires forall i :: 0 <= i < |l.contexts| ==> m.contexts[i].binding == l.contexts[i].binding
    ensures HasContext(m, key)
  {
    var i :| 0 <= i < |l.contexts| && ContextKey(l.contexts[i]) == key;
    assert m.contexts[i].binding == l.contexts[i].binding;
  }

  /** No record names a parent above the mark. */
  lemma NoneAboveMark(l: Ledger, id: Id)
    requires Inv(l) && l.parentFloor < id
    ensures forall j :: 0 <= j < |l.contexts| ==> l.contexts[j].binding.parentId != id
    ensures forall k :: 0 <= k < |l.actions| ==> l.actions[k].command.parentId != id
  {
    hide ActionShape, LinksOk, LogOk;
    assert forall other: Id :: HasParent(l, other) ==> other <= l.parentFloor;
    hide HasParent, HasContext;
  }

  lemma PushParentLinks(l: Ledger, c: Command, push: bool)
    requires Inv(l) && ParentFits(l, c)
    ensures LinksOk(PushParent(l, c, push)) && LogOk(PushParent(l, c, push))
  {
    hide HasParent, HasContext, ActionShape, ActionsOk, ParentsOk, ContextsOk, ParentContext, ParentAction, ContextAction, Increasing;
    NoneAboveMark(l, c.parentId);
  }

  lemma PushParentSucceeds(l: Ledger, c: Command, push: bool)
    requires l.parentFloor < c.parentId
    ensures Succeeds(l, PushParent(l, c, push))
  {
    hide NewTo;
    var m := PushParent(l, c, push);
    forall k | 0 <= k < |l.actions| ensures Continues(l, l.actions[k]) {}
    forall i | 0 <= i < |m.parents| ensures FloorKept(l, m.parents[i]) {}
  }

  /** The parent's context mark raised, and, if push, an unclaimed context inserted. */
  function PushContext(l: Ledger, c: Command, p: nat, push: bool): Ledger
    requires p < |l.parents|
  {
    l.(parents := l.parents[p := l.parents[p].(contextFloor := c.contextId)],
       contexts := if push then l.contexts + [Fresh(c)] else l.contexts)
  }

  predicate ContextFits(l: Ledger, c: Command, p: nat) {
    && p < |l.parents| && SameParent(l.parents[p].binding, c) && l.parents[p].contextFloor < c.contextId
    && !Terminal(l.parents[p].state) && |l.contexts| < CAPACITY
  }

  lemma PushContextKeeps(l: Ledger, c: Command, p: nat, push: bool)
    requires Inv(l) && ContextFits(l, c, p)
    ensures Core(PushContext(l, c, p, push)) && Succeeds(l, PushContext(l, c, p, push))
    ensures ClaimedBut(PushContext(l, c, p, push), false, |l.contexts|)
  {
    hide HasParent, HasContext, ActionShape, ActionsOk, LogOk, LinksOk, ParentsOk, ContextsOk, Succeeds;
    PushContextRecords(l, c, p, push);
    PushContextLinks(l, c, p, push);
    PushContextSucceeds(l, c, p, push);
  }

  lemma NoneAboveContextMark(l: Ledger, c: Command, p: nat)
    requires Inv(l) && ContextFits(l, c, p)
    ensures forall j :: 0 <= j < |l.contexts| ==> ContextKey(l.contexts[j]) != (c.parentId, c.contextId)
    ensures forall k :: 0 <= k < |l.actions| ==> Home(l.actions[k].command) != (c.parentId, c.contextId)
  {
    hide ActionShape, ActionLinks, ChildLinks, LogOk, ParentsOk, HasParent;
    forall j | 0 <= j < |l.contexts| ensures ContextKey(l.contexts[j]) != (c.parentId, c.contextId) {
      assert l.parents[p].binding.parentId == l.contexts[j].binding.parentId ==> ParentContext(l.parents[p], l.contexts[j]);
    }
    assert !HasContext(l, (c.parentId, c.contextId));
    hide HasContext;
  }

  lemma PushContextRecords(l: Ledger, c: Command, p: nat, push: bool)
    requires Inv(l) && ContextFits(l, c, p)
    ensures var m := PushContext(l, c, p, push);
            ParentsOk(m) && ContextsOk(m) && ActionsOk(m) && LogOk(m) && Bounded(m) && ClaimedBut(m, false, |l.contexts|)
  {
    hide HasParent, HasContext, ActionShape, LinksOk, Increasing, ParentsOk, ContextsOk, ActionsOk;
    PushContextHousing(l, c, p, push);
    PushContextContexts(l, c, p, push);
  }

  lemma PushContextHousing(l: Ledger, c: Command, p: nat, push: bool)
    requires Inv(l) && ContextFits(l, c, p)
    ensures var m := PushContext(l, c, p, push); ParentsOk(m) && ActionsOk(m)
  {
    hide HasParent, HasContext, ActionShape, LinksOk, LogOk, ContextsOk, DistinctActions, OneExclusive;
    var m := PushContext(l, c, p, push);
    forall id | HasParent(l, id) ensures HasParent(m, id) { ParentRemains(l, m, id); }
    forall key | HasContext(l, key) ensures HasContext(m, key) { ContextRemains(l, m, key); }
  }

  lemma PushContextContexts(l: Ledger, c: Command, p: nat, push: bool)
    requires Inv(l) && ContextFits(l, c, p)
    ensures ContextsOk(PushContext(l, c, p, push))
  {
    var m := PushContext(l, c, p, push);
    NoneAboveContextMark(l, c, p);
    assert HasParent(l, c.parentId) && l.context != Some((c.parentId, c.contextId)) by { hide LinksOk, ActionsOk, LogOk, ParentsOk; }
    hide HasParent, HasContext, LinksOk, ActionsOk, LogOk, ParentsOk;
    forall id | HasParent(l, id) ensures HasParent(m, id) { ParentRemains(l, m, id); }
    forall key | HasContext(l, key) ensures HasContext(m, key) { ContextRemains(l, m, key); }
  }

  lemma PushContextLinks(l: Ledger, c: Command, p: nat, push: bool)
    requires Inv(l) && ContextFits(l, c, p)
    ensures LinksOk(PushContext(l, c, p, push))
  {
    hide HasParent, HasContext, ActionShape, ActionsOk, LogOk, ContextsOk;
    NoneAboveContextMark(l, c, p);
  }

  lemma PushContextSucceeds(l: Ledger, c: Command, p: nat, push: bool)
    requires p < |l.parents|
    ensures Succeeds(l, PushContext(l, c, p, push))
  {
    hide NewTo;
    var m := PushContext(l, c, p, push);
    forall k | 0 <= k < |l.actions| ensures Continues(l, l.actions[k]) {}
    forall i | 0 <= i < |m.parents| ensures FloorKept(l, m.parents[i]) { assert m.parents[i].binding == l.parents[i].binding; }
  }

  /** The parent's action mark raised, the action inserted with a first result, and, if
      it is about to be submitted, the submission noted. */
  function PushAction(l: Ledger, c: Command, p: nat, r: Operation, submit: bool): Ledger
    requires p < |l.parents|
  {
    l.(parents := l.parents[p := l.parents[p].(actionFloor := c.request)],
       actions := l.actions + [Action(c, r)],
       log := if submit then l.log + [Submission(l.epoch, c.parentId, c.request)] else l.log)
  }

  /** A fresh action command under parent p, and under context x unless it has none. */
  predicate Situated(l: Ledger, c: Command, p: nat, x: nat) {
    && p < |l.parents| && SameParent(l.parents[p].binding, c) && ValidCommand(c) && !c.action.NoAction?
    && (if c.contextId == 0 then x == |l.contexts| else x < |l.contexts| && SameChild(l.contexts[x].binding, c))
  }

  predicate ActionFits(l: Ledger, c: Command, p: nat, x: nat, r: Operation) {
    && Situated(l, c, p, x) && l.parents[p].actionFloor < c.request && |l.actions| < CAPACITY
    && ActionShape(Action(c, r)) && Settles(l.parents[p].state, r) && (x < |l.contexts| ==> Settles(l.contexts[x].state, r))
    && (Exclusive(Action(c, r)) ==> !PendingLocal(l.actions))
  }

  lemma PushActionKeeps(l: Ledger, c: Command, p: nat, x: nat, r: Operation, submit: bool)
    requires Inv(l) && ActionFits(l, c, p, x, r)
    ensures Inv(PushAction(l, c, p, r, submit)) && Succeeds(l, PushAction(l, c, p, r, submit))
  {
    hide HasParent, HasContext, ActionShape, ActionsOk, LogOk, LinksOk, ParentsOk, ContextsOk, Succeeds, Settles, PendingLocal;
    PushActionScopes(l, c, p, x, r, submit);
    PushActionRecords(l, c, p, x, r, submit);
    PushActionLinks(l, c, p, x, r, submit);
    PushActionLog(l, c, p, x, r, submit);
    PushActionSucceeds(l, c, p, r, submit);
  }

  lemma NoneAboveActionMark(l: Ledger, c: Command, p: nat)
    requires Inv(l) && p < |l.parents| && SameParent(l.parents[p].binding, c) && l.parents[p].actionFloor < c.request
    ensures forall k :: 0 <= k < |l.actions| ==> ActionKey(l.actions[k].command) != ActionKey(c)
    ensures forall n :: 0 <= n < |l.log| && l.log[n].epoch == l.epoch && l.log[n].parent == c.parentId ==> l.log[n].request < c.request
  {
    hide HasParent, HasContext, ActionShape, ActionsOk, ContextLinks, ChildLinks, ParentsOk, ContextsOk, Increasing;
    forall k | 0 <= k < |l.actions| ensures ActionKey(l.actions[k].command) != ActionKey(c) {
      assert l.parents[p].binding.parentId == l.actions[k].command.parentId ==> ParentAction(l.parents[p], l.actions[k]);
    }
  }

  lemma PushActionScopes(l: Ledger, c: Command, p: nat, x: nat, r: Operation, submit: bool)
    requires Inv(l) && ActionFits(l, c, p, x, r)
    ensures var m := PushAction(l, c, p, r, submit); ParentsOk(m) && ContextsOk(m)
    ensures var m := PushAction(l, c, p, r, submit);
            && (forall id :: HasParent(l, id) ==> HasParent(m, id)) && (forall key :: HasContext(l, key) ==> HasContext(m, key))
  {
    hide ActionShape, LogOk, LinksOk, ActionsOk, Settles, PendingLocal;
    var m := PushAction(l, c, p, r, submit);
    forall id | HasParent(l, id) ensures HasParent(m, id) { ParentRemains(l, m, id); }
    forall key | HasContext(l, key) ensures HasContext(m, key) { ContextRemains(l, m, key); }
    hide HasParent, HasContext;
  }

  lemma PushActionRecords(l: Ledger, c: Command, p: nat, x: nat, r: Operation, submit: bool)
    requires Inv(l) && ActionFits(l, c, p, x, r)
    ensures ActionsOk(PushAction(l, c, p, r, submit))
  {
    hide HasParent, HasContext, ActionShape, LogOk, LinksOk, ParentsOk, ContextsOk, Settles, Exclusive, PendingLocal, ValidCommand;
    var m := PushAction(l, c, p, r, submit);
    PushActionScopes(l, c, p, x, r, submit);
    HousedWhere(l, c, p, x, r);
    assert DistinctActions(m.actions) by { PushActionDistinct(l, c, p, x, r); }
    PushActionExclusive(l, c, p, x, r);
  }

  lemma PushActionDistinct(l: Ledger, c: Command, p: nat, x: nat, r: Operation)
    requires Inv(l) && ActionFits(l, c, p, x, r)
    ensures DistinctActions(l.actions + [Action(c, r)])
  {
    hide HasParent, HasContext, ActionShape, LogOk, LinksOk, ParentsOk, ContextsOk, Settles, OneExclusive, PendingLocal;
    NoneAboveActionMark(l, c, p);
  }

  lemma PushActionExclusive(l: Ledger, c: Command, p: nat, x: nat, r: Operation)
    requires Inv(l) && ActionFits(l, c, p, x, r)
    ensures OneExclusive(l.actions + [Action(c, r)])
  {
    hide HasParent, HasContext, ActionShape, LogOk, LinksOk, ParentsOk, ContextsOk, Settles, DistinctActions;
    assert Exclusive(Action(c, r)) ==> forall k :: 0 <= k < |l.actions| ==> !Exclusive(l.actions[k]);
  }

  lemma HousedWhere(l: Ledger, c: Command, p: nat, x: nat, r: Operation)
    requires Situated(l, c, p, x)
    ensures Housed(l, Action(c, r))
  {
    hide ValidCommand;
    assert c.contextId != 0 ==> ContextKey(l.contexts[x]) == Home(c);
  }

  lemma PushActionLinks(l: Ledger, c: Command, p: nat, x: nat, r: Operation, submit: bool)
    requires Inv(l) && ActionFits(l, c, p, x, r)
    ensures LinksOk(PushAction(l, c, p, r, submit))
  {
    hide HasParent, HasContext, ActionShape, LogOk, ActionsOk, Settles, PendingLocal;
    var m := PushAction(l, c, p, r, submit);
    assert ContextLinks(m) by { hide ActionLinks, ChildLinks; }
    assert ActionLinks(m) by { hide ContextLinks, ChildLinks; }
    assert ChildLinks(m) by { hide ContextLinks, ActionLinks; }
  }

  lemma PushActionLog(l: Ledger, c: Command, p: nat, x: nat, r: Operation, submit: bool)
    requires Inv(l) && ActionFits(l, c, p, x, r)
    ensures LogOk(PushAction(l, c, p, r, submit))
  {
    NoneAboveActionMark(l, c, p);
    hide HasParent, HasContext, ActionShape, LinksOk, ActionsOk, ContextsOk, Settles, PendingLocal;
  }

  lemma PushActionSucceeds(l: Ledger, c: Command, p: nat, r: Operation, submit: bool)
    requires p < |l.parents| && l.parents[p].binding.parentId == c.parentId && l.parents[p].actionFloor < c.request
    ensures Succeeds(l, PushAction(l, c, p, r, submit))
  {
    var m := PushAction(l, c, p, r, submit);
    forall k | 0 <= k < |l.actions| ensures Continues(l, l.actions[k]) {}
    assert NewTo(l, c);
    forall i | 0 <= i < |m.parents| ensures FloorKept(l, m.parents[i]) { assert m.parents[i].binding == l.parents[i].binding; }
  }

  function RaiseFloor(l: Ledger, c: Command, p: nat): Ledger
    requires p < |l.parents|
  {
    l.(parents := l.parents[p := l.parents[p].(actionFloor := c.request)])
  }

  lemma RaiseFloorKeeps(l: Ledger, c: Command, p: nat)
    requires Inv(l) && p < |l.parents| && l.parents[p].actionFloor < c.request
    ensures Inv(RaiseFloor(l, c, p)) && Succeeds(l, RaiseFloor(l, c, p))
  {
    hide HasParent, HasContext, ActionShape, LogOk, LinksOk, ActionsOk, ParentsOk, ContextsOk, Succeeds;
    RaiseFloorRecords(l, c, p);
    RaiseFloorLinks(l, c, p);
    RaiseFloorSucceeds(l, c, p);
  }

  lemma RaiseFloorRecords(l: Ledger, c: Command, p: nat)
    requires Inv(l) && p < |l.parents| && l.parents[p].actionFloor < c.request
    ensures var m := RaiseFloor(l, c, p); ParentsOk(m) && ContextsOk(m) && ActionsOk(m)
  {
    hide HasParent, HasContext, ActionShape, LinksOk, LogOk, DistinctActions, OneExclusive;
    var m := RaiseFloor(l, c, p);
    forall id | HasParent(l, id) ensures HasParent(m, id) { ParentRemains(l, m, id); }
    forall key | HasContext(l, key) ensures HasContext(m, key) { ContextRemains(l, m, key); }
  }

  lemma RaiseFloorLinks(l: Ledger, c: Command, p: nat)
    requires Inv(l) && p < |l.parents| && l.parents[p].actionFloor < c.request
    ensures LinksOk(RaiseFloor(l, c, p)) && LogOk(RaiseFloor(l, c, p))
  {
    hide HasParent, HasContext, ActionShape, ActionsOk, ParentsOk, ContextsOk, Increasing, Settles;
  }

  lemma RaiseFloorSucceeds(l: Ledger, c: Command, p: nat)
    requires p < |l.parents| && l.parents[p].actionFloor < c.request
    ensures Succeeds(l, RaiseFloor(l, c, p))
  {
    hide NewTo;
    var m := RaiseFloor(l, c, p);
    forall k | 0 <= k < |l.actions| ensures Continues(l, l.actions[k]) {}
    forall i | 0 <= i < |m.parents| ensures FloorKept(l, m.parents[i]) { assert m.parents[i].binding == l.parents[i].binding; }
  }
}
