/** Native calls: whatever the ledger is asked to do while one is on the stack, the
    invariant holds when it returns, and so does what was already established. */
module ActorLedgerCalls {
  import opened ActorWire
  import opened ActorLedger
  import opened ActorLedgerInvariant
  import opened Wrappers

  /** The record a scope report is about. */
  function Named(l: Ledger, c: Command, owner: bool): nat {
    if owner then ParentIndex(l.parents, c.parentId) else ContextIndex(l.contexts, (c.parentId, c.contextId))
  }

  /** A scope report that reaches a record is one the record may take. */
  predicate OpAllowed(l: Ledger, op: Op) {
    op.UpdateScope? ==>
      var i := Named(l, op.command, op.owner);
      Has(l, op.owner, i) && Under(At(l, op.owner, i).binding, op.command, op.owner) ==> MayApply(l, op.owner, i, op.state)
  }

  /** Each operation is allowed in the ledger it finds. */
  predicate OpsAllowed(l: Ledger, ops: seq<Op>)
    decreases ops
  {
    ops == [] || (OpAllowed(l, ops[0]) && OpsAllowed(Nested(l, ops[0]), ops[1..]))
  }

  predicate CallAllowed(l: Ledger, ops: seq<Op>) { OpsAllowed(l.(calling := true), ops) }

  /** What the runtime reports: an owned or closed phase, never that nothing was bound. */
  predicate Reportable(s: State) { !s.phase.UnknownPhase? && !s.closure.NeverBound? }

  lemma ReportableApplies(l: Ledger, owner: bool, i: nat, s: State)
    requires Inv(l) && Has(l, owner, i) && Reportable(s)
    ensures MayApply(l, owner, i, s)
  {
    hide HasParent, HasContext, LinksOk, ActionsOk, LogOk, ParentsOk, ContextsOk, Unentered;
  }

  /** So whatever the runtime does during a native call is allowed. */
  lemma {:induction false} ReportableIsAllowed(l: Ledger, ops: seq<Op>)
    requires Inv(l) && forall i :: 0 <= i < |ops| && ops[i].UpdateScope? ==> Reportable(ops[i].state)
    ensures OpsAllowed(l, ops)
    decreases ops
  {
    hide Inv, Nested, MayApply, Reportable;
    if ops != [] {
      var op := ops[0];
      if op.UpdateScope? && Has(l, op.owner, Named(l, op.command, op.owner)) {
        ReportableApplies(l, op.owner, Named(l, op.command, op.owner), op.state);
      }
      NestedKeeps(l, op);
      ReportableIsAllowed(Nested(l, op), ops[1..]);
    }
  }

  lemma RequestStopKeeps(l: Ledger, v: Verb, c: Command)
    requires Inv(l)
    ensures Inv(RequestStop(l, v, c)) && Evolves(l, RequestStop(l, v, c))
  {
    hide HasParent, HasContext, ActionShape, LinksOk, ActionsOk, LogOk, BeginStop, ParentsOk, ContextsOk;
    var p, x := ParentIndex(l.parents, c.parentId), ContextIndex(l.contexts, (c.parentId, c.contextId));
    if p < |l.parents| { BeginStopKeeps(l, true, p); }
    if x < |l.contexts| { BeginStopKeeps(l, false, x); }
  }

  lemma NestedKeeps(l: Ledger, op: Op)
    requires Inv(l) && OpAllowed(l, op)
    ensures Inv(Nested(l, op)) && Evolves(l, Nested(l, op))
  {
    hide HasParent, HasContext, ActionShape, LinksOk, ActionsOk, LogOk, ParentsOk, ContextsOk, Apply, Record, Observe, RequestStop, Accepted, MayApply;
    match op
    case UpdateAction(c, r) =>
      var k := ActionIndex(l.actions, ActionKey(c));
      if k < |l.actions| { RecordKeeps(l, k, r); }
    case UpdateScope(c, s, owner) =>
      var i := Named(l, c, owner);
      if Has(l, owner, i) && Under(At(l, owner, i).binding, c, owner) { ApplyKeeps(l, owner, i, s); }
    case ObserveApplication(d, t) => ObserveKeeps(l, d, t);
    case NestedExecute(v, c, valid) => RequestStopKeeps(l, v, c);
  }

  lemma {:induction false} RunNestedKeeps(l: Ledger, ops: seq<Op>)
    requires Inv(l) && OpsAllowed(l, ops)
    ensures Inv(RunNested(l, ops)) && Evolves(l, RunNested(l, ops))
    decreases ops
  {
    hide Inv, OpAllowed, Nested;
    if ops != [] {
      NestedKeeps(l, ops[0]);
      RunNestedKeeps(Nested(l, ops[0]), ops[1..]);
      EvolvesOn(l, Nested(l, ops[0]), RunNested(l, ops));
    }
  }

  lemma CallingIrrelevant(l: Ledger, b: bool)
    requires Inv(l)
    ensures Inv(l.(calling := b)) && Evolves(l, l.(calling := b))
  {
    hide HasParent, HasContext, ActionShape, ContextLinks, ActionLinks, ChildLinks;
    SameRecords(l, l.(calling := b));
    CallingLinks(l, b);
  }

  lemma CallingLinks(l: Ledger, b: bool)
    requires LinksOk(l)
    ensures LinksOk(l.(calling := b))
  {
  }

  lemma CallKeeps(l: Ledger, ops: seq<Op>)
    requires Inv(l) && CallAllowed(l, ops) && !l.calling
    ensures Inv(Call(l, ops)) && Evolves(l, Call(l, ops))
  {
    hide Inv, RunNested, OpsAllowed;
    var m := l.(calling := true);
    CallingIrrelevant(l, true);
    RunNestedKeeps(m, ops);
    CallingIrrelevant(RunNested(m, ops), false);
    EvolvesOn(l, m, RunNested(m, ops));
    EvolvesOn(l, RunNested(m, ops), Call(l, ops));
  }

  /** Stopping record i: the calls made meanwhile are allowed, and so is the result, if it is
      applied. */
  predicate StopAllowed(l: Ledger, owner: bool, i: nat, stop: Native<State>)
    requires Has(l, owner, i) && !l.calling
  {
    var r := At(l, owner, i);
    Terminal(r.state) || r.state.phase.UnknownPhase? ||
    (var b := BeginStop(l, owner, i);
     && CallAllowed(b, stop.nested)
     && var m := Call(b, stop.nested);
        At(m, owner, i).revision == At(b, owner, i).revision ==> MayApply(m, owner, i, stop.result))
  }

  lemma StopScopeKeeps(l: Ledger, owner: bool, i: nat, stop: Native<State>)
    requires Core(l) && ClaimedBut(l, owner, i) && Has(l, owner, i) && !l.calling && StopAllowed(l, owner, i, stop)
    ensures Inv(StopScope(l, owner, i, stop)) && Evolves(l, StopScope(l, owner, i, stop))
  {
    hide HasParent, HasContext, ActionShape, LinksOk, ActionsOk, LogOk, ParentsOk, ContextsOk, Apply, BeginStop, Call,
         CallAllowed, MayApply, SameShape, ClaimedBut, Claimed;
    var r := At(l, owner, i);
    var b := BeginStop(l, owner, i);
    BeginStopKeeps(l, owner, i);
    if !Terminal(r.state) && !r.state.phase.UnknownPhase? {
      CallKeeps(b, stop.nested);
      var m := Call(b, stop.nested);
      EvolvesOn(l, b, m);
      if At(m, owner, i).revision == At(b, owner, i).revision {
        ClaimedExcept(m, owner, i);
        ApplyKeeps(m, owner, i, stop.result);
        EvolvesOn(l, m, Apply(m, owner, i, stop.result));
      }
    }
  }

  lemma ClaimedExcept(l: Ledger, owner: bool, i: nat)
    requires Claimed(l)
    ensures ClaimedBut(l, owner, i)
  {
  }

  // ----- opening and attaching -----

  predicate Vacant(l: Ledger, owner: bool) { if owner then l.parent.None? else l.context.None? }

  /** The record before Open or Attach is called: blocked, and the active one of its kind. */
  function Taken(l: Ledger, owner: bool, i: nat): (m: Ledger)
    requires Has(l, owner, i)
    ensures SameSize(l, m)
  {
    Point(Put(l, owner, i, At(l, owner, i).(state := Only(Blocked))), owner, i, true)
  }

  predicate Unvisited(l: Ledger, owner: bool, b: Command) {
    forall k :: 0 <= k < |l.actions| ==> !Under(l.actions[k].command, b, owner)
  }

  lemma TakenKeeps(l: Ledger, owner: bool, i: nat)
    requires Core(l) && ClaimedBut(l, owner, i) && Has(l, owner, i) && At(l, owner, i).state.phase.UnknownPhase?
    requires Vacant(l, owner)
    ensures Inv(Taken(l, owner, i)) && Evolves(l, Taken(l, owner, i))
    ensures Unvisited(Taken(l, owner, i), owner, At(l, owner, i).binding)
  {
    hide HasParent, HasContext, ActionShape, ActionsOk, LogOk, ContextLinks, ActionLinks, ChildLinks;
    var m := Taken(l, owner, i);
    SameRecords(l, m);
    KeptParts(l, m);
    if owner {
      KeptContexts(l, m);
      assert m.parents[i].binding == l.parents[i].binding;
      TakenParentLinks(l, i);
      TakenParent(l, i);
    } else {
      TakenContextLinks(l, i);
      TakenContext(l, i);
    }
  }

  lemma TakenParent(l: Ledger, i: nat)
    requires ParentsOk(l) && i < |l.parents| && l.parents[i].state.phase.UnknownPhase? && l.parent.None?
    ensures ParentsOk(Taken(l, true, i))
  {
    var m := Taken(l, true, i);
    assert m.parents[i].binding == l.parents[i].binding;
    assert HasParent(m, m.parent.value);
    hide HasParent;
  }

  lemma TakenContext(l: Ledger, i: nat)
    requires ContextsOk(l) && i < |l.contexts| && l.contexts[i].state.phase.UnknownPhase? && l.context.None?
    ensures ContextsOk(Taken(l, false, i))
  {
    var m := Taken(l, false, i);
    SameRecords(l, m);
    assert ContextKey(m.contexts[i]) == m.context.value;
    assert HasContext(m, m.context.value);
    hide HasParent, HasContext;
  }

  lemma TakenParentLinks(l: Ledger, i: nat)
    requires Core(l) && i < |l.parents| && l.parents[i].state.phase.UnknownPhase?
    ensures LinksOk(Taken(l, true, i)) && Unvisited(l, true, l.parents[i].binding)
  {
    hide HasParent, HasContext, ActionShape, ActionsOk, LogOk, ParentsOk, ContextsOk;
  }

  lemma TakenContextLinks(l: Ledger, i: nat)
    requires Core(l) && ClaimedBut(l, false, i) && i < |l.contexts| && l.contexts[i].state.phase.UnknownPhase?
    ensures LinksOk(Taken(l, false, i)) && Unvisited(l, false, l.contexts[i].binding)
  {
    hide HasParent, HasContext, ActionShape, ActionsOk, LogOk, ContextsOk;
  }

  /** The ledger after Open or Attach has returned, before a stop is honoured. */
  function Opened(l: Ledger, owner: bool, i: nat, env: Environment): (n: Ledger)
    requires Has(l, owner, i) && !l.calling
    ensures SameSize(l, n)
  {
    var t := Taken(l, owner, i);
    var m := Call(t, env.entry.nested);
    if At(m, owner, i).revision == At(t, owner, i).revision then Apply(m, owner, i, Answered(env.entry.result.state)) else m
  }

  /** Opening or attaching record i: the calls made meanwhile are allowed, and so is the stop
      that was asked for, if any. */
  predicate ClaimAllowed(l: Ledger, owner: bool, i: nat, env: Environment)
    requires Has(l, owner, i) && !l.calling
  {
    && CallAllowed(Taken(l, owner, i), env.entry.nested)
    && var n := Opened(l, owner, i, env);
       At(n, owner, i).stopRequested ==> StopAllowed(n, owner, i, env.stop)
  }

  lemma ClaimKeeps(l: Ledger, owner: bool, i: nat, env: Environment)
    requires Core(l) && ClaimedBut(l, owner, i) && Has(l, owner, i) && !l.calling && ClaimAllowed(l, owner, i, env)
    requires At(l, owner, i).state.phase.UnknownPhase? && Vacant(l, owner)
    ensures Inv(Claim(l, owner, i, env)) && Evolves(l, Claim(l, owner, i, env))
  {
    hide HasParent, HasContext, ActionShape, LinksOk, ActionsOk, LogOk, ParentsOk, ContextsOk, Call, StopScope,
         ClaimedBut, Claimed, StopAllowed, MayApply, Taken, Opened, CallAllowed, Claim, SameShape;
    OpenedKeeps(l, owner, i, env);
    var n := Opened(l, owner, i, env);
    ClaimUnfolds(l, owner, i, env);
    if At(n, owner, i).stopRequested {
      ClaimedExcept(n, owner, i);
      StopScopeKeeps(n, owner, i, env.stop);
      EvolvesOn(l, n, StopScope(n, owner, i, env.stop));
    }
  }

  lemma OpenedKeeps(l: Ledger, owner: bool, i: nat, env: Environment)
    requires Core(l) && ClaimedBut(l, owner, i) && Has(l, owner, i) && !l.calling
    requires CallAllowed(Taken(l, owner, i), env.entry.nested)
    requires At(l, owner, i).state.phase.UnknownPhase? && Vacant(l, owner)
    ensures Inv(Opened(l, owner, i, env)) && Evolves(l, Opened(l, owner, i, env))
  {
    hide HasParent, HasContext, ActionShape, LinksOk, ActionsOk, LogOk, ParentsOk, ContextsOk, Apply, Call,
         ClaimedBut, Claimed, MayApply, Taken, CallAllowed;
    var t := Taken(l, owner, i);
    TakenKeeps(l, owner, i);
    CallKeeps(t, env.entry.nested);
    var m := Call(t, env.entry.nested);
    EvolvesOn(l, t, m);
    ClaimedExcept(m, owner, i);
    UnvisitedApplies(t, m, owner, i, Answered(env.entry.result.state));
    ApplyKeeps(m, owner, i, Answered(env.entry.result.state));
    EvolvesOn(l, m, Apply(m, owner, i, Answered(env.entry.result.state)));
  }

  lemma ClaimUnfolds(l: Ledger, owner: bool, i: nat, env: Environment)
    requires Has(l, owner, i) && !l.calling
    ensures var n := Opened(l, owner, i, env);
            Claim(l, owner, i, env) == if At(n, owner, i).stopRequested then StopScope(n, owner, i, env.stop) else n
  {
    hide Call, Apply, StopScope;
  }

  lemma UnvisitedApplies(t: Ledger, m: Ledger, owner: bool, i: nat, s: State)
    requires Has(t, owner, i) && Unvisited(t, owner, At(t, owner, i).binding) && SameShape(t, m) && Inv(m)
    requires !s.phase.UnknownPhase?
    ensures MayApply(m, owner, i, s)
  {
    hide HasParent, HasContext, LinksOk, ActionsOk, LogOk, ParentsOk, ContextsOk;
  }
}
