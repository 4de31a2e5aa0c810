/** What the controller guarantees whatever its native side does: no report, result or nested
    call can make it repeat a submission, retract evidence or start two exclusive actions. */
module ActorLedgerMarks {
  import opened ActorWire
  import opened ActorLedger
  import opened ActorLedgerInvariant
  import opened ActorLedgerHistory
  import opened ActorLedgerInsertion
  import opened Wrappers

  // ----- changes in place -----

  lemma AdaptsSelf(l: Ledger)
    ensures Adapts(l, l)
  {
  }

  lemma AdaptsOn(l: Ledger, m: Ledger, n: Ledger)
    requires Adapts(l, m) && Adapts(m, n)
    ensures Adapts(l, n)
  {
  }

  /** Nothing that changes records in place touches a mark or an identity. */
  lemma AdaptsMarked(l: Ledger, m: Ledger)
    requires Marked(l) && Adapts(l, m)
    ensures Marked(m) && Succeeds(l, m)
  {
    AdaptsSucceeds(l, m);
    hide Succeeds, Increasing;
    assert forall k :: 0 <= k < |l.actions| && Exclusive(m.actions[k]) ==> Exclusive(l.actions[k]);
  }

  lemma PutAdapts(l: Ledger, owner: bool, i: nat, s: Scope, owned: bool)
    requires Has(l, owner, i) && s.binding == At(l, owner, i).binding
    requires s.actionFloor == At(l, owner, i).actionFloor && s.contextFloor == At(l, owner, i).contextFloor
    ensures Adapts(l, Put(l, owner, i, s)) && Adapts(l, Point(Put(l, owner, i, s), owner, i, owned))
  {
  }

  lemma CloseAdapts(l: Ledger, b: Command, s: State, owner: bool)
    ensures Adapts(l, l.(actions := Settle(l.actions, b, owner)))
    ensures forall x :: Adapts(l, l.(contexts := CloseChildren(l.contexts, b, s), context := x))
  {
  }

  lemma ApplyAdapts(l: Ledger, owner: bool, i: nat, s: State)
    requires Has(l, owner, i)
    ensures Adapts(l, Apply(l, owner, i, s))
  {
    AdaptsSelf(l);
    var r := At(l, owner, i);
    var a := Accepted(r, s);
    var m := Point(Put(l, owner, i, Applied(r, a)), owner, i, Owned(a.phase));
    PutAdapts(l, owner, i, Applied(r, a), Owned(a.phase));
    var n := m.(actions := Settle(m.actions, r.binding, owner));
    CloseAdapts(m, r.binding, a, owner);
    AdaptsOn(l, m, n);
    CloseAdapts(n, r.binding, a, owner);
    hide Adapts, Accepted, Settle, CloseChildren, ChildIsActive, Put, Point;
    if owner {
      var x := if ChildIsActive(n.contexts, r.binding, n.context) then None else n.context;
      AdaptsOn(l, n, n.(contexts := CloseChildren(n.contexts, r.binding, a), context := x));
    }
  }

  lemma BeginStopAdapts(l: Ledger, owner: bool, i: nat)
    requires Has(l, owner, i)
    ensures Adapts(l, BeginStop(l, owner, i))
  {
    hide Apply;
    AdaptsSelf(l);
    ApplyAdapts(l, owner, i, NEVER_BOUND);
  }

  lemma RecordAdapts(l: Ledger, k: nat, r: Operation)
    requires k < |l.actions|
    ensures Adapts(l, Record(l, k, r))
  {
    hide ValidReceipt, Reply;
  }

  lemma ObserveAdapts(l: Ledger, digest: Command, terminal: Application)
    ensures Adapts(l, Observe(l, digest, terminal))
  {
    hide ValidCommand;
  }

  lemma NestedAdapts(l: Ledger, op: Op)
    ensures Adapts(l, Nested(l, op))
  {
    hide Apply, BeginStop, Record, Observe, Adapts, Reply, SameParent, SameChild;
    AdaptsSelf(l);
    match op
    case UpdateAction(c, r) =>
      var k := ActionIndex(l.actions, ActionKey(c));
      if k < |l.actions| { RecordAdapts(l, k, r); }
    case UpdateScope(c, s, owner) =>
      var i := if owner then ParentIndex(l.parents, c.parentId) else ContextIndex(l.contexts, (c.parentId, c.contextId));
      if Has(l, owner, i) { ApplyAdapts(l, owner, i, s); }
    case ObserveApplication(d, t) => ObserveAdapts(l, d, t);
    case NestedExecute(v, c, valid) =>
      var p, x := ParentIndex(l.parents, c.parentId), ContextIndex(l.contexts, (c.parentId, c.contextId));
      if p < |l.parents| { BeginStopAdapts(l, true, p); }
      if x < |l.contexts| { BeginStopAdapts(l, false, x); }
  }

  lemma {:induction false} RunNestedAdapts(l: Ledger, ops: seq<Op>)
    ensures Adapts(l, RunNested(l, ops))
    decreases ops
  {
    hide Adapts, Nested;
    AdaptsSelf(l);
    if ops != [] {
      NestedAdapts(l, ops[0]);
      RunNestedAdapts(Nested(l, ops[0]), ops[1..]);
      AdaptsOn(l, Nested(l, ops[0]), RunNested(l, ops));
    }
  }

  lemma CallingAdapts(l: Ledger, calling: bool)
    ensures Adapts(l, l.(calling := calling))
  {
  }

  lemma CallAdapts(l: Ledger, ops: seq<Op>)
    requires !l.calling
    ensures Adapts(l, Call(l, ops))
  {
    hide Adapts, RunNested;
    var m := l.(calling := true);
    CallingAdapts(l, true);
    RunNestedAdapts(m, ops);
    CallingAdapts(RunNested(m, ops), false);
    AdaptsOn(l, m, RunNested(m, ops));
    AdaptsOn(l, RunNested(m, ops), Call(l, ops));
  }

  lemma StopScopeAdapts(l: Ledger, owner: bool, i: nat, stop: Native<State>)
    requires Has(l, owner, i) && !l.calling
    ensures Adapts(l, StopScope(l, owner, i, stop))
  {
    hide Adapts, Apply, BeginStop, Call;
    var b := BeginStop(l, owner, i);
    BeginStopAdapts(l, owner, i);
    CallAdapts(b, stop.nested);
    var m := Call(b, stop.nested);
    AdaptsOn(l, b, m);
    ApplyAdapts(m, owner, i, stop.result);
    AdaptsOn(l, m, Apply(m, owner, i, stop.result));
  }

  lemma ClaimAdapts(l: Ledger, owner: bool, i: nat, env: Environment)
    requires Has(l, owner, i) && !l.calling
    ensures Adapts(l, Claim(l, owner, i, env))
  {
    hide Adapts, Apply, Call, StopScope;
    var t := Point(Put(l, owner, i, At(l, owner, i).(state := Only(Blocked))), owner, i, true);
    PutAdapts(l, owner, i, At(l, owner, i).(state := Only(Blocked)), true);
    var m := Call(t, env.entry.nested);
    CallAdapts(t, env.entry.nested);
    AdaptsOn(l, t, m);
    ApplyAdapts(m, owner, i, Answered(env.entry.result.state));
    var a := Apply(m, owner, i, Answered(env.entry.result.state));
    AdaptsOn(l, m, a);
    hide Put, Point;
    var n := if At(m, owner, i).revision == At(t, owner, i).revision then a else m;
    StopScopeAdapts(n, owner, i, env.stop);
    AdaptsOn(l, n, StopScope(n, owner, i, env.stop));
  }

  lemma RecordedAdapts(m: Ledger, p: nat, x: nat, returned: Operation)
    requires p < |m.parents| && m.actions != []
    ensures Adapts(m, Recorded(m, p, x, returned))
  {
    hide Record, RecordAccepts, ScopesTerminal;
    var k, result := |m.actions| - 1, SubmitResult(m, p, x, returned);
    var n := Record(m, k, result);
    RecordAdapts(m, k, result);
    var b := if RecordAccepts(m, m.actions[k], result) then n else BlockParent(n, p);
    BlockAdapts(n, p);
    SettleAdapts(b, k);
    AdaptsOn(m, n, BlockParent(n, p));
    AdaptsOn(m, b, SettleLast(b, k));
    hide Adapts, BlockParent, SettleLast;
  }

  lemma BlockAdapts(l: Ledger, p: nat)
    requires p < |l.parents|
    ensures Adapts(l, BlockParent(l, p))
  {
  }

  lemma SettleAdapts(l: Ledger, k: nat)
    requires k < |l.actions|
    ensures Adapts(l, SettleLast(l, k))
  {
  }

  lemma ReturnedAdapts(m: Ledger, p: nat, x: nat, env: Environment)
    requires p < |m.parents| && x <= |m.contexts| && m.actions != [] && !m.calling
    ensures Adapts(m, Returned(m, p, x, env))
  {
    hide Adapts, Recorded, StopScope;
    var n := Recorded(m, p, x, env.entry.result);
    RecordedAdapts(m, p, x, env.entry.result);
    StopScopeAdapts(n, true, p, env.stop);
    AdaptsOn(m, n, StopScope(n, true, p, env.stop));
    if x < |n.contexts| {
      StopScopeAdapts(n, false, x, env.stop);
      AdaptsOn(m, n, StopScope(n, false, x, env.stop));
    }
  }

  lemma OwnerStepAdapts(l: Ledger, v: Verb, c: Command, i: nat, live: bool, env: Environment)
    requires i < |l.parents| && !l.calling && OwnerVerb(v)
    ensures Adapts(l, OwnerStep(l, v, c, i, live, env).0)
  {
    hide Adapts, Apply, StopScope, Claim, Reply, PendingLocal;
    AdaptsSelf(l);
    StopScopeAdapts(l, true, i, env.stop);
    ApplyAdapts(l, true, i, NEVER_BOUND);
    ClaimAdapts(l, true, i, env);
  }

  lemma ContextStepAdapts(l: Ledger, v: Verb, c: Command, p: nat, i: nat, live: bool, env: Environment)
    requires p < |l.parents| && i < |l.contexts| && !l.calling && ContextVerb(v)
    ensures Adapts(l, ContextStep(l, v, c, p, i, live, env).0)
  {
    hide Adapts, Apply, StopScope, Claim, Reply, PendingLocal;
    AdaptsSelf(l);
    StopScopeAdapts(l, false, i, env.stop);
    ApplyAdapts(l, false, i, NEVER_BOUND);
    ClaimAdapts(l, false, i, env);
  }

  lemma ReplayAdapts(l: Ledger, v: Verb, c: Command, k: nat, env: Environment)
    requires k < |l.actions| && !l.calling
    ensures Adapts(l, Replay(l, v, c, k, env).0)
  {
    hide Adapts, StopScope, Reply, AdmissionRefusal;
    AdaptsSelf(l);
    var p, x := ParentIndex(l.parents, c.parentId), ContextIndex(l.contexts, (c.parentId, c.contextId));
    if p < |l.parents| { StopScopeAdapts(l, true, p, env.stop); }
    if x < |l.contexts| { StopScopeAdapts(l, false, x, env.stop); }
  }

  // ----- eviction -----

  lemma SubledgerMarked(l: Ledger, m: Ledger)
    requires Marked(l) && Subledger(l, m) && DistinctActions(m.actions)
    requires forall i, j :: 0 <= i < j < |m.parents| ==> m.parents[i].binding.parentId != m.parents[j].binding.parentId
    ensures Marked(m) && Succeeds(l, m)
  {
    SubledgerSucceeds(l, m);
    SubledgerLog(l, m);
    SubledgerExclusive(l, m);
    hide Succeeds, LogOk, OneExclusive;
    assert forall i :: 0 <= i < |m.parents| ==> m.parents[i] in l.parents;
    assert forall k :: 0 <= k < |m.actions| ==> m.actions[k] in l.actions;
  }

  lemma SucceedsSelf(l: Ledger)
    ensures Succeeds(l, l)
  {
    AdaptsSelf(l);
    AdaptsSucceeds(l, l);
  }

  lemma {:induction false} PruneActionsMarked(l: Ledger, acts: seq<Action>)
    requires Marked(l) && acts == l.actions
    ensures Marked(l.(actions := PruneActions(acts))) && Succeeds(l, l.(actions := PruneActions(acts)))
    decreases |acts|
  {
    var i := FirstSettled(acts);
    if |acts| < CAPACITY || i == |acts| {
      assert l.(actions := PruneActions(acts)) == l;
      SucceedsSelf(l);
    } else {
      var m := l.(actions := acts[..i] + acts[i + 1..]);
      SubledgerMarked(l, m);
      hide Marked, Succeeds;
      PruneActionsMarked(m, m.actions);
      assert m.(actions := PruneActions(m.actions)) == l.(actions := PruneActions(acts));
      SucceedsOn(l, m, m.(actions := PruneActions(m.actions)));
    }
  }

  lemma {:induction false} PruneContextsMarked(l: Ledger)
    requires Marked(l)
    ensures Marked(PruneContexts(l)) && Succeeds(l, PruneContexts(l))
    decreases |l.contexts|
  {
    hide Succeeds, LogOk, OneExclusive, Under;
    var i := FirstClosed(l.contexts, l.context);
    if |l.contexts| < CAPACITY || i == |l.contexts| {
      SucceedsSelf(l);
    } else {
      var m := l.(actions := DropActions(l.actions, l.contexts[i].binding, false), contexts := l.contexts[..i] + l.contexts[i + 1..]);
      DropDistinct(l, l.actions, l.contexts[i].binding, false);
      SubledgerMarked(l, m);
      hide Marked;
      PruneContextsMarked(m);
      SucceedsOn(l, m, PruneContexts(m));
    }
  }

  lemma WithoutParentMarked(l: Ledger, i: nat)
    requires Marked(l) && i < |l.parents|
    ensures Marked(WithoutParent(l, i)) && Succeeds(l, WithoutParent(l, i))
  {
    hide Succeeds, LogOk, OneExclusive, Under, SameParent;
    var m := WithoutParent(l, i);
    DropDistinct(l, l.actions, l.parents[i].binding, true);
    WithoutParentIsPart(l, i);
    assert forall j, k :: 0 <= j < k < |m.parents| ==> m.parents[j].binding.parentId != m.parents[k].binding.parentId;
    SubledgerMarked(l, m);
  }

  lemma WithoutParentIsPart(l: Ledger, i: nat)
    requires i < |l.parents|
    ensures Subledger(l, WithoutParent(l, i))
  {
    hide Under, SameParent;
  }

  lemma {:induction false} PruneParentsMarked(l: Ledger)
    requires Marked(l)
    ensures Marked(PruneParents(l)) && Succeeds(l, PruneParents(l))
    decreases |l.parents|
  {
    hide Marked, Succeeds;
    var i := FirstClosed(l.parents, ParentKey(l));
    if |l.parents| < CAPACITY || i == |l.parents| {
      SucceedsSelf(l);
    } else {
      var m := WithoutParent(l, i);
      WithoutParentMarked(l, i);
      PruneParentsMarked(m);
      SucceedsOn(l, m, PruneParents(m));
    }
  }

  lemma PruneMarked(l: Ledger)
    requires Marked(l)
    ensures Marked(Prune(l)) && Succeeds(l, Prune(l))
  {
    hide Marked, Succeeds, PruneContexts, PruneParents, PruneActions;
    PruneActionsMarked(l, l.actions);
    var m := l.(actions := PruneActions(l.actions));
    PruneContextsMarked(m);
    PruneParentsMarked(PruneContexts(m));
    SucceedsOn(l, m, PruneContexts(m));
    SucceedsOn(l, PruneContexts(m), Prune(l));
  }

  // ----- insertion -----

  lemma PushParentMarked(l: Ledger, c: Command, push: bool)
    requires Marked(l) && l.parentFloor < c.parentId
    ensures Marked(PushParent(l, c, push)) && Succeeds(l, PushParent(l, c, push))
  {
    PushParentSucceeds(l, c, push);
    hide Succeeds, OneExclusive, DistinctActions, Increasing;
  }

  lemma PushContextMarked(l: Ledger, c: Command, p: nat, push: bool)
    requires Marked(l) && p < |l.parents|
    ensures Marked(PushContext(l, c, p, push)) && Succeeds(l, PushContext(l, c, p, push))
  {
    PushContextSucceeds(l, c, p, push);
    hide Succeeds, OneExclusive, DistinctActions, Increasing;
  }

  lemma RaiseFloorMarked(l: Ledger, c: Command, p: nat)
    requires Marked(l) && p < |l.parents| && l.parents[p].actionFloor < c.request
    ensures Marked(RaiseFloor(l, c, p)) && Succeeds(l, RaiseFloor(l, c, p))
  {
    RaiseFloorSucceeds(l, c, p);
    hide Succeeds, OneExclusive, DistinctActions, Increasing;
  }

  /** A request above its parent's mark repeats no action and no submission. */
  lemma PushActionMarked(l: Ledger, c: Command, p: nat, r: Operation, submit: bool)
    requires Marked(l) && p < |l.parents| && l.parents[p].binding.parentId == c.parentId && l.parents[p].actionFloor < c.request
    requires Exclusive(Action(c, r)) ==> !PendingLocal(l.actions)
    ensures Marked(PushAction(l, c, p, r, submit)) && Succeeds(l, PushAction(l, c, p, r, submit))
  {
    PushActionSucceeds(l, c, p, r, submit);
    hide Succeeds;
    PushedLog(l, c, p, r, submit);
    hide LogOk;
    var m := PushAction(l, c, p, r, submit);
    assert Exclusive(Action(c, r)) ==> forall k :: 0 <= k < |l.actions| ==> !Exclusive(l.actions[k]);
    assert OneExclusive(m.actions) by { hide PendingLocal; }
    assert DistinctActions(m.actions);
    hide OneExclusive, DistinctActions, PendingLocal;
  }

  lemma PushedLog(l: Ledger, c: Command, p: nat, r: Operation, submit: bool)
    requires Marked(l) && p < |l.parents| && l.parents[p].binding.parentId == c.parentId && l.parents[p].actionFloor < c.request
    ensures LogOk(PushAction(l, c, p, r, submit))
  {
    hide OneExclusive, DistinctActions;
  }

  // ----- one Execute -----

  lemma ActionStepMarked(l: Ledger, v: Verb, c: Command, p: nat, x: nat, gate: Gate, env: Environment)
    requires Marked(l) && p < |l.parents| && x <= |l.contexts| && !l.calling && ActionVerb(v) && l.parents[p].binding.parentId == c.parentId
    ensures var m := ActionStep(l, v, c, p, x, gate, env).0; Marked(m) && Succeeds(l, m)
  {
    hide Marked, Succeeds, Returned, Call, Reply, MayEnter, Adapts;
    SucceedsSelf(l);
    if l.parents[p].actionFloor < c.request {
      RaiseFloorMarked(l, c, p);
      if |l.actions| < CAPACITY && gate.memory { FreshMarked(l, v, c, p, x, gate, env); }
    }
  }

  lemma FreshMarked(l: Ledger, v: Verb, c: Command, p: nat, x: nat, gate: Gate, env: Environment)
    requires Marked(l) && p < |l.parents| && x <= |l.contexts| && !l.calling && ActionVerb(v) && l.parents[p].binding.parentId == c.parentId
    requires l.parents[p].actionFloor < c.request && |l.actions| < CAPACITY && gate.memory
    ensures var m := ActionStep(l, v, c, p, x, gate, env).0; Marked(m) && Succeeds(l, m)
  {
    hide Marked, Succeeds, Returned, Call, Reply, Adapts;
    var raised := RaiseFloor(l, c, p);
    if !v.CancelAction? && MayEnter(raised, c, p, x, gate.live) {
      var i := PushAction(l, c, p, ENTERING, true);
      assert Exclusive(Action(c, ENTERING)) ==> !PendingLocal(l.actions);
      hide MayEnter, PendingLocal;
      PushActionMarked(l, c, p, ENTERING, true);
      CallAdapts(i, env.entry.nested);
      var n := Call(i, env.entry.nested);
      ReturnedAdapts(n, p, x, env);
      AdaptsOn(i, n, Returned(n, p, x, env));
      AdaptsMarked(i, Returned(n, p, x, env));
      SucceedsOn(l, i, Returned(n, p, x, env));
      assert Submitted(raised, c, env) == n;
    } else {
      PushActionMarked(l, c, p, NOT_RUN.(outcome := if v.CancelAction? then Cancelled else Deferred), false);
      hide MayEnter;
    }
  }

  lemma ChildStepMarked(l: Ledger, v: Verb, c: Command, p: nat, gate: Gate, env: Environment)
    requires Marked(l) && p < |l.parents| && !l.calling && !OwnerVerb(v) && !ReadVerb(v) && (ContextVerb(v) ==> c.contextId != 0)
    requires l.parents[p].binding.parentId == c.parentId
    ensures var m := ChildStep(l, v, c, p, gate, env).0; Marked(m) && Succeeds(l, m)
  {
    hide Marked, Succeeds, ActionStep, ContextStep, Adapts;
    SucceedsSelf(l);
    var x := ContextIndex(l.contexts, (c.parentId, c.contextId));
    if c.contextId == 0 {
      ActionStepMarked(l, v, c, p, |l.contexts|, gate, env);
    } else if x < |l.contexts| {
      if ContextVerb(v) {
        ContextStepAdapts(l, v, c, p, x, gate.live, env);
        AdaptsMarked(l, ContextStep(l, v, c, p, x, gate.live, env).0);
      } else {
        ActionStepMarked(l, v, c, p, x, gate, env);
      }
    } else if v.AttachContext? || v.StopContext? {
      var n := PushContext(l, c, p, gate.memory);
      PushContextMarked(l, c, p, gate.memory);
      if gate.memory {
        ContextStepAdapts(n, v, c, p, |l.contexts|, gate.live, env);
        AdaptsMarked(n, ContextStep(n, v, c, p, |l.contexts|, gate.live, env).0);
        SucceedsOn(l, n, ContextStep(n, v, c, p, |l.contexts|, gate.live, env).0);
      }
    }
  }

  lemma DispatchMarked(l: Ledger, v: Verb, c: Command, gate: Gate, env: Environment)
    requires Marked(l) && !l.calling && ValidRequest(v, c) && !ReadVerb(v)
    ensures var m := Dispatch(l, v, c, gate, env).0; Marked(m) && Succeeds(l, m)
  {
    hide Marked, Succeeds, Replay, ChildStep, OwnerStep, Reply, Adapts, ValidCommand, Mismatched;
    SucceedsSelf(l);
    var p, k := ParentIndex(l.parents, c.parentId), ActionIndex(l.actions, ActionKey(c));
    if ActionVerb(v) && k < |l.actions| {
      ReplayAdapts(l, v, c, k, env);
      AdaptsMarked(l, Replay(l, v, c, k, env).0);
    } else if p < |l.parents| {
      if OwnerVerb(v) {
        OwnerStepAdapts(l, v, c, p, gate.live, env);
        AdaptsMarked(l, OwnerStep(l, v, c, p, gate.live, env).0);
      } else {
        ChildStepMarked(l, v, c, p, gate, env);
      }
    } else if (v.OpenOwner? || v.StopOwner?) && l.parentFloor < c.parentId {
      var n := PushParent(l, c, gate.memory);
      PushParentMarked(l, c, gate.memory);
      if gate.memory {
        OwnerStepAdapts(n, v, c, |l.parents|, gate.live, env);
        AdaptsMarked(n, OwnerStep(n, v, c, |l.parents|, gate.live, env).0);
        SucceedsOn(l, n, OwnerStep(n, v, c, |l.parents|, gate.live, env).0);
      }
    }
  }

  lemma ResetMarked(l: Ledger, c: Command)
    requires Marked(l)
    ensures Marked(Reset(l, c)) && Succeeds(l, Reset(l, c))
  {
  }

  /** Whatever the native side does during it, an Execute keeps the marks. */
  lemma ExecuteMarked(l: Ledger, v: Verb, c: Command, gate: Gate, env: Environment)
    requires Marked(l) && !l.calling
    ensures var m := Execute(l, v, c, gate, env).0; Marked(m) && Succeeds(l, m)
  {
    hide Marked, Succeeds, Prune, Dispatch, Reset, Busy, ValidRequest;
    SucceedsSelf(l);
    if gate.valid && ValidRequest(v, c) && !ReadVerb(v) && (Known(l, c) || !(!gate.current || !(v.OpenOwner? || v.StopOwner?) || Busy(l))) {
      var s := if Known(l, c) then l else Reset(l, c);
      ResetMarked(l, c);
      PruneMarked(s);
      PruneStaysQuiet(l, c);
      SucceedsOn(l, s, Prune(s));
      DispatchMarked(Prune(s), v, c, gate, env);
      SucceedsOn(l, Prune(s), Dispatch(Prune(s), v, c, gate, env).0);
    }
  }

  lemma PruneStaysQuiet(l: Ledger, c: Command)
    requires !l.calling
    ensures !Prune(if Known(l, c) then l else Reset(l, c)).calling
  {
  }
}
