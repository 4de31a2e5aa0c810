/** Execute outside native calls: it keeps the invariant, and every reply is a valid
    receipt correlated with its command. */
module ActorLedgerExecute {
  import opened ActorWire
  import opened ActorLedger
  import opened ActorLedgerInvariant
  import opened ActorLedgerCalls
  import opened ActorLedgerHistory
  import opened ActorLedgerInsertion
  import opened Wrappers

  predicate Accepts(v: Verb, c: Command) { ValidRequest(v, c) && !ReadVerb(v) }

  /** Outcomes that a reply to Open or Attach cannot carry. */
  predicate ForeignOutcome(out: Outcome) { out.Queued? || out.HistoryExpired? || out.PowerReuseBlocked? }

  /** Whether an owner verb makes the Open call. */
  predicate Opens(l: Ledger, v: Verb, i: nat, live: bool)
    requires i < |l.parents|
  {
    v.OpenOwner? && l.parents[i].state.phase.UnknownPhase? && !(l.parent.Some? || PendingLocal(l.actions) || !live)
  }

  /** Whether a context verb makes the Attach call. */
  predicate Attaches(l: Ledger, v: Verb, p: nat, i: nat, live: bool)
    requires p < |l.parents| && i < |l.contexts|
  {
    && v.AttachContext? && l.contexts[i].state.phase.UnknownPhase?
    && !(l.context.Some? || l.parent != Some(l.parents[p].binding.parentId) || !l.parents[p].state.phase.Bound?
         || PendingLocal(l.actions) || !live)
  }

  /** What is asked of the native side for an owner verb: allowed calls, and Open answering
      with an outcome of its own. */
  predicate OwnerAllowed(l: Ledger, v: Verb, i: nat, live: bool, env: Environment)
    requires i < |l.parents| && !l.calling
  {
    && (v.StopOwner? ==> StopAllowed(l, true, i, env.stop))
    && (Opens(l, v, i, live) ==> ClaimAllowed(l, true, i, env) && !ForeignOutcome(env.entry.result.outcome))
  }

  predicate ContextAllowed(l: Ledger, v: Verb, p: nat, i: nat, live: bool, env: Environment)
    requires p < |l.parents| && i < |l.contexts| && !l.calling
  {
    && (v.StopContext? ==> StopAllowed(l, false, i, env.stop))
    && (Attaches(l, v, p, i, live) ==> ClaimAllowed(l, false, i, env) && !ForeignOutcome(env.entry.result.outcome))
  }

  // ----- replies from a ledger -----

  /** Record i is the parent, and x, if a context, the context of the command. */
  predicate Located(m: Ledger, c: Command, p: nat, x: nat) {
    && p < |m.parents| && m.parents[p].binding.parentId == c.parentId
    && (x < |m.contexts| ==> c.contextId != 0 && ContextKey(m.contexts[x]) == Home(c))
  }

  function At?(xs: seq<Scope>, x: nat): Option<Scope> { if x < |xs| then Some(xs[x]) else None }

  lemma ScopeReply(m: Ledger, c: Command, v: Verb, out: Outcome, p: nat, x: nat)
    requires Inv(m) && Accepts(v, c) && Located(m, c, p, x) && !ForeignOutcome(out)
    ensures Correlated(c, v, Reply(c, v, out, Some(m.parents[p]), At?(m.contexts, x), None))
  {
    hide HasParent, HasContext, ActionsOk, ActionLinks, ChildLinks, LogOk, Reply, Correlated, ValidRequest, ValidState;
    ReplyIsValid(c, v, out, Some(m.parents[p]), At?(m.contexts, x), None);
  }

  /** The reply about a retained action, as it was recorded or as cancelled. */
  lemma ActionReply(m: Ledger, c: Command, v: Verb, p: nat, x: nat, k: nat, out: Outcome, r: Operation)
    requires Inv(m) && Accepts(v, c) && Located(m, c, p, x) && k < |m.actions| && m.actions[k].command == c
    requires v.CancelAction? ==> !out.PowerReuseBlocked? && !AdmissionRefusal(r.reason)
    requires (out == m.actions[k].result.outcome && r == m.actions[k].result)
             || (out.Cancelled? && r == m.actions[k].result.(reason := NoReason) && m.actions[k].result.entry.NeverEntered?)
    ensures Correlated(c, v, Reply(c, v, out, Some(m.parents[p]), At?(m.contexts, x), Some(r)))
  {
    hide HasParent, HasContext, LogOk, Reply, Correlated, ValidRequest, ValidState, ValidCommand;
    assert ActionShape(m.actions[k]);
    assert ParentAction(m.parents[p], m.actions[k]);
    assert x < |m.contexts| ==> ContextAction(m.contexts[x], m.actions[k]);
    ReplyIsValid(c, v, out, Some(m.parents[p]), At?(m.contexts, x), Some(r));
  }

  // ----- owner and context verbs -----

  lemma RefuseKeeps(l: Ledger, owner: bool, i: nat)
    requires Core(l) && ClaimedBut(l, owner, i) && Has(l, owner, i) && At(l, owner, i).state.phase.UnknownPhase?
    ensures Inv(Apply(l, owner, i, NEVER_BOUND)) && Evolves(l, Apply(l, owner, i, NEVER_BOUND))
  {
    hide HasParent, HasContext, LinksOk, ActionsOk, LogOk, Apply, Unentered, Evolves;
    UnclaimedIsUnentered(l, owner, i);
    assert Unused(At(l, owner, i));
    ApplyKeeps(l, owner, i, NEVER_BOUND);
  }

  lemma OwnerStepKeeps(l: Ledger, v: Verb, c: Command, i: nat, live: bool, env: Environment)
    requires Core(l) && ClaimedBut(l, true, i) && i < |l.parents| && !l.calling && (v.OwnerStatus? ==> Claimed(l))
    requires Accepts(v, c) && OwnerVerb(v) && l.parents[i].binding.parentId == c.parentId
    requires OwnerAllowed(l, v, i, live, env)
    ensures var (m, r) := OwnerStep(l, v, c, i, live, env); Inv(m) && Evolves(l, m) && Correlated(c, v, r)
  {
    hide Core, Evolves, Apply, StopScope, Claim, Reply, Correlated, ValidRequest, StopAllowed, ClaimAllowed, PendingLocal, SameShape;
    var s := l.parents[i].state;
    var (m, r) := OwnerStep(l, v, c, i, live, env);
    EvolvesSelf(l);
    if v.StopOwner? { StopScopeKeeps(l, true, i, env.stop); }
    else if v.OpenOwner? && s.phase.UnknownPhase? {
      if l.parent.Some? || PendingLocal(l.actions) || !live { RefuseKeeps(l, true, i); } else { ClaimKeeps(l, true, i, env); }
    }
    ClaimedIfKnown(l, true, i);
    SameIdentity(l, m);
    ReplyOutcome(c, v, Some(m.parents[i]), None);
    ScopeReply(m, c, v, r.outcome, i, |m.contexts|);
  }

  lemma ClaimedIfKnown(l: Ledger, owner: bool, i: nat)
    requires ClaimedBut(l, owner, i) && Has(l, owner, i)
    ensures !At(l, owner, i).state.phase.UnknownPhase? ==> Claimed(l)
  {
  }

  lemma SameIdentity(l: Ledger, m: Ledger)
    requires Evolves(l, m)
    ensures |m.parents| == |l.parents| && |m.contexts| == |l.contexts| && |m.actions| == |l.actions|
    ensures forall i :: 0 <= i < |l.parents| ==> m.parents[i].binding == l.parents[i].binding
    ensures forall j :: 0 <= j < |l.contexts| ==> m.contexts[j].binding == l.contexts[j].binding
    ensures forall k :: 0 <= k < |l.actions| ==> m.actions[k].command == l.actions[k].command
  {
  }

  lemma ReplyOutcome(c: Command, v: Verb, p: Option<Scope>, x: Option<Scope>)
    ensures forall out :: Reply(c, v, out, p, x, None).outcome == out
  {
  }

  lemma ContextStepKeeps(l: Ledger, v: Verb, c: Command, p: nat, i: nat, live: bool, env: Environment)
    requires Core(l) && ClaimedBut(l, false, i) && i < |l.contexts| && !l.calling && (v.ContextStatus? ==> Claimed(l))
    requires Accepts(v, c) && ContextVerb(v) && Located(l, c, p, i)
    requires ContextAllowed(l, v, p, i, live, env)
    ensures var (m, r) := ContextStep(l, v, c, p, i, live, env); Inv(m) && Evolves(l, m) && Correlated(c, v, r)
  {
    hide Core, Evolves, Apply, StopScope, Claim, Reply, Correlated, ValidRequest, StopAllowed, ClaimAllowed, PendingLocal, SameShape;
    var s := l.contexts[i].state;
    var (m, r) := ContextStep(l, v, c, p, i, live, env);
    EvolvesSelf(l);
    if v.StopContext? { StopScopeKeeps(l, false, i, env.stop); }
    else if v.AttachContext? && s.phase.UnknownPhase? {
      if l.context.Some? || l.parent != Some(l.parents[p].binding.parentId) || !l.parents[p].state.phase.Bound?
         || PendingLocal(l.actions) || !live { RefuseKeeps(l, false, i); } else { ClaimKeeps(l, false, i, env); }
    }
    ClaimedIfKnown(l, false, i);
    SameIdentity(l, m);
    ReplyOutcome(c, v, Some(m.parents[p]), Some(m.contexts[i]));
    ScopeReply(m, c, v, r.outcome, p, i);
  }

  // ----- actions -----

  /** A cancel of an entered action stops its scope. */
  predicate ReplayAllowed(l: Ledger, v: Verb, c: Command, k: nat, env: Environment)
    requires k < |l.actions| && !l.calling
  {
    var p, x := ParentIndex(l.parents, c.parentId), ContextIndex(l.contexts, (c.parentId, c.contextId));
    && v.CancelAction? && l.actions[k].command == c && !l.actions[k].result.entry.NeverEntered?
    && p < |l.parents| && (c.contextId != 0 ==> x < |l.contexts|)
    ==> if c.contextId != 0 then StopAllowed(l, false, x, env.stop) else StopAllowed(l, true, p, env.stop)
  }

  lemma ReplayKeeps(l: Ledger, v: Verb, c: Command, k: nat, env: Environment)
    requires Inv(l) && !l.calling && Accepts(v, c) && ActionVerb(v) && k < |l.actions| && !Mismatched(l, c)
    requires ActionKey(l.actions[k].command) == ActionKey(c) && ReplayAllowed(l, v, c, k, env)
    ensures var (m, r) := Replay(l, v, c, k, env); Inv(m) && Evolves(l, m) && Correlated(c, v, r)
  {
    hide Inv, Evolves, StopScope, Reply, Correlated, ValidRequest, StopAllowed, AdmissionRefusal, Mismatched;
    var p, x := ParentIndex(l.parents, c.parentId), ContextIndex(l.contexts, (c.parentId, c.contextId));
    EvolvesSelf(l);
    ExpiredIsValid(c, v);
    if l.actions[k].command != c {
      LookupReply(l, c, v, Invalid);
    } else if p < |l.parents| && (c.contextId == 0 || x < |l.contexts|) {
      InvParts(l, c.contextId == 0, if c.contextId == 0 then p else x);
      if v.CancelAction? && !l.actions[k].result.entry.NeverEntered? {
        if c.contextId != 0 { StopScopeKeeps(l, false, x, env.stop); } else { StopScopeKeeps(l, true, p, env.stop); }
      }
      var m := Replay(l, v, c, k, env).0;
      SameIdentity(l, m);
      StillFound(l, m, c);
      RetainedReply(m, v, c, k);
    }
  }

  lemma InvParts(l: Ledger, owner: bool, i: nat)
    requires Inv(l)
    ensures Core(l) && ClaimedBut(l, owner, i)
  {
    hide Core;
  }

  lemma StillFound(l: Ledger, m: Ledger, c: Command)
    requires Evolves(l, m)
    ensures ParentIndex(m.parents, c.parentId) == ParentIndex(l.parents, c.parentId)
    ensures ContextIndex(m.contexts, Home(c)) == ContextIndex(l.contexts, Home(c))
  {
    hide Keeps;
    var p, q := ParentIndex(l.parents, c.parentId), ParentIndex(m.parents, c.parentId);
    assert p < |l.parents| ==> m.parents[p].binding == l.parents[p].binding;
    assert q < |m.parents| ==> m.parents[q].binding == l.parents[q].binding;
    var x, y := ContextIndex(l.contexts, Home(c)), ContextIndex(m.contexts, Home(c));
    assert x < |l.contexts| ==> m.contexts[x].binding == l.contexts[x].binding;
    assert y < |m.contexts| ==> m.contexts[y].binding == l.contexts[y].binding;
  }

  /** A reply that reports only the scopes found for the command. */
  lemma LookupReply(l: Ledger, c: Command, v: Verb, out: Outcome)
    requires Inv(l) && Accepts(v, c) && !ForeignOutcome(out)
    ensures Correlated(c, v, Reply(c, v, out, ParentOf(l, c), ContextOf(l, c), None))
  {
    hide Reply, Correlated, ValidRequest, ActionsOk, ActionLinks, ChildLinks, LogOk, ValidState;
    var p, x := ParentOf(l, c), ContextOf(l, c);
    var i, j := ParentIndex(l.parents, c.parentId), ContextIndex(l.contexts, Home(c));
    assert x.Some? ==> HasParent(l, l.contexts[j].binding.parentId);
    assert x.Some? ==> p.Some?;
    hide HasParent, HasContext;
    assert x.Some? ==> ParentContext(l.parents[i], l.contexts[j]);
    ReplyIsValid(c, v, out, p, x, None);
  }

  lemma RetainedReply(m: Ledger, v: Verb, c: Command, k: nat)
    requires Inv(m) && Accepts(v, c) && k < |m.actions| && m.actions[k].command == c
    requires ParentIndex(m.parents, c.parentId) < |m.parents|
    requires c.contextId != 0 ==> ContextIndex(m.contexts, Home(c)) < |m.contexts|
    ensures var r := m.actions[k].result;
            var cancelled := v.CancelAction? && (r.outcome.PowerReuseBlocked? || AdmissionRefusal(r.reason));
            var out := if cancelled then Cancelled else r.outcome;
            Correlated(c, v, Reply(c, v, out, ParentOf(m, c), ContextOf(m, c), Some(if out.Cancelled? then r.(reason := NoReason) else r)))
  {
    hide Reply, Correlated, ValidRequest, LinksOk, ParentsOk, ContextsOk, LogOk, ValidCommand;
    var r := m.actions[k].result;
    assert ActionShape(m.actions[k]);
    hide HasParent, HasContext;
    var out := if v.CancelAction? && (r.outcome.PowerReuseBlocked? || AdmissionRefusal(r.reason)) then Cancelled else r.outcome;
    var p := ParentIndex(m.parents, c.parentId);
    var x := if c.contextId == 0 then |m.contexts| else ContextIndex(m.contexts, Home(c));
    assert ContextOf(m, c) == At?(m.contexts, x);
    ActionReply(m, c, v, p, x, k, out, if out.Cancelled? then r.(reason := NoReason) else r);
  }

  /** The result of Submit can be recorded, or its parent is still open. */
  predicate Recordable(m: Ledger, p: nat, x: nat, result: Operation)
    requires p < |m.parents| && m.actions != []
  {
    RecordAccepts(m, m.actions[|m.actions| - 1], SubmitResult(m, p, x, result)) || !Terminal(m.parents[p].state)
  }

  lemma BlockKeeps(l: Ledger, p: nat)
    requires Inv(l) && p < |l.parents| && !Terminal(l.parents[p].state)
    ensures Inv(BlockParent(l, p)) && Evolves(l, BlockParent(l, p))
  {
    hide HasParent, HasContext, LinksOk, ActionsOk, LogOk, ContextsOk, Evolves;
    PutOwned(l, true, p, l.parents[p].(state := l.parents[p].state.(phase := Blocked)));
  }

  lemma SettleLastKeeps(l: Ledger, k: nat)
    requires Inv(l) && k < |l.actions|
    ensures Inv(SettleLast(l, k)) && Evolves(l, SettleLast(l, k))
  {
    hide HasParent, HasContext, LogOk, ParentsOk, ContextsOk, ContextLinks, Evolves, ValidCommand;
    assert ActionShape(l.actions[k]);
    ReplaceKeeps(l, k, l.actions[k].result.(local := Settled));
  }

  lemma RecordBlocks(l: Ledger, k: nat, p: nat, r: Operation)
    requires Inv(l) && k < |l.actions| && p < |l.parents| && l.parents[p].binding.parentId == l.actions[k].command.parentId
    requires !RecordAccepts(l, l.actions[k], r) && !Terminal(l.parents[p].state)
    ensures Record(l, k, r).parents[p].state.phase.Blocked?
  {
    hide HasParent, HasContext, LinksOk, ActionsOk, LogOk, ContextsOk, RecordAccepts;
    ParentFound(l, p);
  }

  lemma RecordedKeeps(m: Ledger, p: nat, x: nat, returned: Operation)
    requires Inv(m) && p < |m.parents| && m.actions != []
    requires m.parents[p].binding.parentId == m.actions[|m.actions| - 1].command.parentId
    requires Recordable(m, p, x, returned)
    ensures Inv(Recorded(m, p, x, returned)) && Evolves(m, Recorded(m, p, x, returned))
  {
    hide Inv, Evolves, Record, RecordAccepts, BlockParent, SettleLast, ScopesTerminal, SubmitResult;
    var k, result := |m.actions| - 1, SubmitResult(m, p, x, returned);
    var n := Record(m, k, result);
    RecordKeeps(m, k, result);
    var b := if RecordAccepts(m, m.actions[k], result) then n else BlockParent(n, p);
    if !RecordAccepts(m, m.actions[k], result) {
      RecordBlocks(m, k, p, result);
      BlockKeeps(n, p);
      EvolvesOn(m, n, b);
    }
    SameIdentity(m, b);
    SettleLastKeeps(b, k);
    EvolvesOn(m, b, SettleLast(b, k));
  }

  /** The result of Submit can be recorded, and a stop asked for meanwhile is allowed. */
  predicate ReturnAllowed(m: Ledger, p: nat, x: nat, env: Environment)
    requires p < |m.parents| && x <= |m.contexts| && m.actions != [] && !m.calling
  {
    && Recordable(m, p, x, env.entry.result)
    && var n := Recorded(m, p, x, env.entry.result);
       if n.parents[p].stopRequested then StopAllowed(n, true, p, env.stop)
       else x < |n.contexts| && n.contexts[x].stopRequested ==> StopAllowed(n, false, x, env.stop)
  }

  lemma ReturnedKeeps(m: Ledger, p: nat, x: nat, env: Environment)
    requires Inv(m) && !m.calling && p < |m.parents| && x <= |m.contexts| && m.actions != [] && ReturnAllowed(m, p, x, env)
    requires m.parents[p].binding.parentId == m.actions[|m.actions| - 1].command.parentId
    ensures Inv(Returned(m, p, x, env)) && Evolves(m, Returned(m, p, x, env))
  {
    hide Inv, Evolves, Recorded, StopScope, StopAllowed, Recordable;
    var s := Recorded(m, p, x, env.entry.result);
    RecordedKeeps(m, p, x, env.entry.result);
    if s.parents[p].stopRequested {
      InvParts(s, true, p);
      StopScopeKeeps(s, true, p, env.stop);
      EvolvesOn(m, s, StopScope(s, true, p, env.stop));
    } else if x < |s.contexts| && s.contexts[x].stopRequested {
      InvParts(s, false, x);
      StopScopeKeeps(s, false, x, env.stop);
      EvolvesOn(m, s, StopScope(s, false, x, env.stop));
    }
  }

  /** If the action enters native code, the calls made meanwhile are allowed, and so is what
      Submit returns. */
  predicate SubmitAllowed(l: Ledger, v: Verb, c: Command, p: nat, x: nat, gate: Gate, env: Environment)
    requires p < |l.parents| && !l.calling && x <= |l.contexts|
  {
    l.parents[p].actionFloor < c.request && |l.actions| < CAPACITY && gate.memory
    && !v.CancelAction? && MayEnter(RaiseFloor(l, c, p), c, p, x, gate.live) ==>
      var i := PushAction(l, c, p, ENTERING, true);
      CallAllowed(i, env.entry.nested) && ReturnAllowed(Call(i, env.entry.nested), p, x, env)
  }

  /** A fresh submission fits the ledger. */
  lemma EnteringFits(l: Ledger, c: Command, p: nat, x: nat, gate: Gate)
    requires Inv(l) && Situated(l, c, p, x) && l.parents[p].actionFloor < c.request && |l.actions| < CAPACITY
    requires MayEnter(RaiseFloor(l, c, p), c, p, x, gate.live)
    ensures ActionFits(l, c, p, x, ENTERING)
  {
    hide HasParent, HasContext, LinksOk, ActionsOk, LogOk, ValidCommand, ContextAllowsEntry, QueryAlongsidePower;
    assert ValidState(l.parents[p].state);
    assert x < |l.contexts| ==> ValidState(l.contexts[x].state);
  }

  lemma DeferredFits(l: Ledger, v: Verb, c: Command, p: nat, x: nat)
    requires Inv(l) && Situated(l, c, p, x) && l.parents[p].actionFloor < c.request && |l.actions| < CAPACITY
    ensures ActionFits(l, c, p, x, NOT_RUN.(outcome := if v.CancelAction? then Cancelled else Deferred))
  {
    hide Inv, ValidCommand;
  }

  /** Where a fresh action goes, before anything is returned for it. */
  function Inserted(l: Ledger, v: Verb, c: Command, p: nat, x: nat, gate: Gate): Ledger
    requires p < |l.parents| && x <= |l.contexts|
  {
    if !v.CancelAction? && MayEnter(RaiseFloor(l, c, p), c, p, x, gate.live) then PushAction(l, c, p, ENTERING, true)
    else PushAction(l, c, p, NOT_RUN.(outcome := if v.CancelAction? then Cancelled else Deferred), false)
  }

  lemma ActionStepUnfolds(l: Ledger, v: Verb, c: Command, p: nat, x: nat, gate: Gate, env: Environment)
    requires p < |l.parents| && x <= |l.contexts| && !l.calling && ActionVerb(v) && !v.ActionStatus?
    requires l.parents[p].actionFloor < c.request && |l.actions| < CAPACITY && gate.memory
    ensures var enters := !v.CancelAction? && MayEnter(RaiseFloor(l, c, p), c, p, x, gate.live);
            var i := Inserted(l, v, c, p, x, gate);
            var m := if enters then Returned(Call(i, env.entry.nested), p, x, env) else i;
            var r := m.actions[|l.actions|].result;
            && (enters ==> Submitted(RaiseFloor(l, c, p), c, env) == Call(i, env.entry.nested))
            && ActionStep(l, v, c, p, x, gate, env) == (m, Reply(c, v, r.outcome, Some(m.parents[p]), At?(m.contexts, x), Some(r)))
  {
    hide Returned, Call, MayEnter, Reply;
    assert l.(parents := l.parents[p := l.parents[p].(actionFloor := c.request)]) == RaiseFloor(l, c, p);
  }

  lemma ActionStepKeeps(l: Ledger, v: Verb, c: Command, p: nat, x: nat, gate: Gate, env: Environment)
    requires Inv(l) && !l.calling && Accepts(v, c) && ActionVerb(v) && !v.ActionStatus? && Situated(l, c, p, x)
    requires SubmitAllowed(l, v, c, p, x, gate, env)
    ensures var (m, r) := ActionStep(l, v, c, p, x, gate, env); Inv(m) && Succeeds(l, m) && Correlated(c, v, r)
  {
    hide Inv, Evolves, Succeeds, Returned, Call, Reply, Correlated, ValidRequest, CallAllowed, ReturnAllowed, MayEnter,
         RaiseFloor, PushAction, Recordable, Submitted, SubmitAllowed, ActionFits;
    if c.request <= l.parents[p].actionFloor {
      ExpiredIsValid(c, v);
      EvolvesSelf(l);
      EvolvesSucceeds(l, l);
    } else if |l.actions| >= CAPACITY || !gate.memory {
      RefusedStep(l, v, c, p, x, gate, env);
    } else {
      FreshStep(l, v, c, p, x, gate, env);
    }
  }

  lemma RefusedStep(l: Ledger, v: Verb, c: Command, p: nat, x: nat, gate: Gate, env: Environment)
    requires Inv(l) && !l.calling && Accepts(v, c) && ActionVerb(v) && Situated(l, c, p, x)
    requires l.parents[p].actionFloor < c.request && (|l.actions| >= CAPACITY || !gate.memory)
    ensures var (m, r) := ActionStep(l, v, c, p, x, gate, env); Inv(m) && Succeeds(l, m) && Correlated(c, v, r)
  {
    hide Inv, Succeeds, Returned, Call, Reply, Correlated, ValidRequest, MayEnter;
    RaiseFloorKeeps(l, c, p);
    ScopeReply(RaiseFloor(l, c, p), c, v, Exhausted, p, x);
  }

  lemma FreshStep(l: Ledger, v: Verb, c: Command, p: nat, x: nat, gate: Gate, env: Environment)
    requires Inv(l) && !l.calling && Accepts(v, c) && ActionVerb(v) && !v.ActionStatus? && Situated(l, c, p, x)
    requires l.parents[p].actionFloor < c.request && |l.actions| < CAPACITY && gate.memory
    requires SubmitAllowed(l, v, c, p, x, gate, env)
    ensures var (m, r) := ActionStep(l, v, c, p, x, gate, env); Inv(m) && Succeeds(l, m) && Correlated(c, v, r)
  {
    hide Inv, Evolves, Succeeds, ActionStep, Returned, Call, Reply, Correlated, ValidRequest, CallAllowed, ReturnAllowed, MayEnter,
         Recordable, Submitted, ActionFits, ValidCommand;
    var i, k := Inserted(l, v, c, p, x, gate), |l.actions|;
    ActionStepUnfolds(l, v, c, p, x, gate, env);
    var m := ActionStep(l, v, c, p, x, gate, env).0;
    if !v.CancelAction? && MayEnter(RaiseFloor(l, c, p), c, p, x, gate.live) {
      EnteringFits(l, c, p, x, gate);
      PushActionKeeps(l, c, p, x, ENTERING, true);
      CallKeeps(i, env.entry.nested);
      var n := Call(i, env.entry.nested);
      SameIdentity(i, n);
      ReturnedKeeps(n, p, x, env);
      EvolvesOn(i, n, m);
    } else {
      DeferredFits(l, v, c, p, x);
      PushActionKeeps(l, c, p, x, NOT_RUN.(outcome := if v.CancelAction? then Cancelled else Deferred), false);
      EvolvesSelf(i);
    }
    EvolvesSucceeds(i, m);
    SucceedsOn(l, i, m);
    SameIdentity(i, m);
    assert v.CancelAction? ==> m == i;
    ActionReply(m, c, v, p, x, k, m.actions[k].result.outcome, m.actions[k].result);
  }

  // ----- one Execute -----

  function Room(c: Command, l: Ledger): nat {
    if c.contextId == 0 then |l.contexts| else ContextIndex(l.contexts, Home(c))
  }

  predicate Roomy(l: Ledger) { |l.parents| < CAPACITY && |l.contexts| < CAPACITY }

  lemma ExistingParent(l: Ledger, c: Command)
    requires Inv(l) && ValidCommand(c) && !Mismatched(l, c) && ParentIndex(l.parents, c.parentId) < |l.parents|
    ensures SameParent(l.parents[ParentIndex(l.parents, c.parentId)].binding, c)
    ensures c.contextId != 0 && Room(c, l) < |l.contexts| ==> SameChild(l.contexts[Room(c, l)].binding, c)
  {
    hide Inv, ValidCommand;
  }

  predicate ChildAllowed(l: Ledger, v: Verb, c: Command, p: nat, gate: Gate, env: Environment)
    requires p < |l.parents| && !l.calling
  {
    var x := ContextIndex(l.contexts, Home(c));
    if c.contextId == 0 then SubmitAllowed(l, v, c, p, |l.contexts|, gate, env)
    else if x < |l.contexts| then
      if ContextVerb(v) then ContextAllowed(l, v, p, x, gate.live, env) else SubmitAllowed(l, v, c, p, x, gate, env)
    else
      !Terminal(l.parents[p].state) && (v.AttachContext? || v.StopContext?) && l.parents[p].contextFloor < c.contextId
      && gate.current && gate.memory ==>
        ContextAllowed(PushContext(l, c, p, true), v, p, |l.contexts|, gate.live, env)
  }

  lemma ChildStepKeeps(l: Ledger, v: Verb, c: Command, p: nat, gate: Gate, env: Environment)
    requires Inv(l) && Roomy(l) && !l.calling && Accepts(v, c) && !OwnerVerb(v) && !v.ActionStatus? && !Mismatched(l, c)
    requires p < |l.parents| && p == ParentIndex(l.parents, c.parentId)
    requires ChildAllowed(l, v, c, p, gate, env)
    ensures var (m, r) := ChildStep(l, v, c, p, gate, env); Inv(m) && Succeeds(l, m) && Correlated(c, v, r)
  {
    hide Inv, Evolves, Succeeds, ActionStep, ContextStep, Correlated, Mismatched, SubmitAllowed, ContextAllowed, ValidCommand;
    var x := ContextIndex(l.contexts, Home(c));
    RequestValid(v, c);
    ExistingParent(l, c);
    ExpiredIsValid(c, v);
    EvolvesSelf(l);
    EvolvesSucceeds(l, l);
    if c.contextId == 0 { ActionStepKeeps(l, v, c, p, |l.contexts|, gate, env); }
    else if x < |l.contexts| {
      if ContextVerb(v) {
        InvParts(l, false, x);
        InvClaimed(l);
        ContextStepKeeps(l, v, c, p, x, gate.live, env);
        EvolvesSucceeds(l, ContextStep(l, v, c, p, x, gate.live, env).0);
      } else { ActionStepKeeps(l, v, c, p, x, gate, env); }
    } else if !Terminal(l.parents[p].state) && (v.AttachContext? || v.StopContext?)
              && l.parents[p].contextFloor < c.contextId && gate.current {
      var n := PushContext(l, c, p, gate.memory);
      PushContextKeeps(l, c, p, gate.memory);
      if gate.memory {
        ContextStepKeeps(n, v, c, p, |l.contexts|, gate.live, env);
        var m := ContextStep(n, v, c, p, |l.contexts|, gate.live, env).0;
        EvolvesSucceeds(n, m);
        SucceedsOn(l, n, m);
      } else { RaisedIsClaimed(l, c, p); }
    }
  }

  lemma RequestValid(v: Verb, c: Command)
    requires ValidRequest(v, c)
    ensures ValidCommand(c) && ActionVerb(v) == !c.action.NoAction? && (ContextVerb(v) ==> c.contextId != 0)
    ensures (OwnerVerb(v) ==> c.contextId == 0)
  {
    hide ValidCommand;
  }

  lemma InvClaimed(l: Ledger)
    requires Inv(l)
    ensures Claimed(l)
  {
    hide Core;
  }

  lemma RaisedIsClaimed(l: Ledger, c: Command, p: nat)
    requires Inv(l) && p < |l.parents| && Core(PushContext(l, c, p, false))
    ensures Inv(PushContext(l, c, p, false))
  {
    hide Core;
  }

  predicate DispatchAllowed(l: Ledger, v: Verb, c: Command, gate: Gate, env: Environment)
    requires !l.calling
  {
    var p, k := ParentIndex(l.parents, c.parentId), ActionIndex(l.actions, ActionKey(c));
    if Mismatched(l, c) then true
    else if ActionVerb(v) && k < |l.actions| then ReplayAllowed(l, v, c, k, env)
    else if v.ActionStatus? then true
    else if p < |l.parents| then
      if OwnerVerb(v) then OwnerAllowed(l, v, p, gate.live, env) else ChildAllowed(l, v, c, p, gate, env)
    else
      (v.OpenOwner? || v.StopOwner?) && l.parentFloor < c.parentId && gate.current && gate.memory ==>
        OwnerAllowed(PushParent(l, c, true), v, |l.parents|, gate.live, env)
  }

  /** What is asked of the native side during one Execute: a scope report is one its record may
      take, Open and Attach answer with their own outcomes, and a result of Submit that the
      ledger cannot record does not come back under a parent that closed meanwhile. */
  predicate Allowed(l: Ledger, v: Verb, c: Command, gate: Gate, env: Environment)
    requires !l.calling
  {
    gate.valid && Accepts(v, c) && (Known(l, c) || !(!gate.current || !(v.OpenOwner? || v.StopOwner?) || Busy(l))) ==>
      DispatchAllowed(Prune(if Known(l, c) then l else Reset(l, c)), v, c, gate, env)
  }

  lemma DispatchKeeps(l: Ledger, v: Verb, c: Command, gate: Gate, env: Environment)
    requires Inv(l) && Roomy(l) && !l.calling && Accepts(v, c) && Known(l, c) && DispatchAllowed(l, v, c, gate, env)
    ensures var (m, r) := Dispatch(l, v, c, gate, env); Inv(m) && Succeeds(l, m) && Correlated(c, v, r)
  {
    hide Inv, Evolves, Succeeds, Replay, ChildStep, OwnerStep, Correlated, Mismatched, ReplayAllowed, OwnerAllowed, ChildAllowed, ValidCommand, Reply;
    var p, k := ParentIndex(l.parents, c.parentId), ActionIndex(l.actions, ActionKey(c));
    RequestValid(v, c);
    ExpiredIsValid(c, v);
    EvolvesSelf(l);
    EvolvesSucceeds(l, l);
    if Mismatched(l, c) { LookupReply(l, c, v, Invalid); }
    else if ActionVerb(v) && k < |l.actions| {
      ReplayKeeps(l, v, c, k, env);
      EvolvesSucceeds(l, Replay(l, v, c, k, env).0);
    } else if v.ActionStatus? {
    } else if p < |l.parents| {
      if OwnerVerb(v) {
        InvParts(l, true, p);
        InvClaimed(l);
        OwnerStepKeeps(l, v, c, p, gate.live, env);
        EvolvesSucceeds(l, OwnerStep(l, v, c, p, gate.live, env).0);
      } else { ChildStepKeeps(l, v, c, p, gate, env); }
    } else if (v.OpenOwner? || v.StopOwner?) && l.parentFloor < c.parentId && gate.current {
      var n := PushParent(l, c, gate.memory);
      PushParentKeeps(l, c, gate.memory);
      if gate.memory {
        OwnerStepKeeps(n, v, c, |l.parents|, gate.live, env);
        var m := OwnerStep(n, v, c, |l.parents|, gate.live, env).0;
        EvolvesSucceeds(n, m);
        SucceedsOn(l, n, m);
      } else { MarkedIsClaimed(l, c); }
    }
  }

  lemma MarkedIsClaimed(l: Ledger, c: Command)
    requires Inv(l) && Core(PushParent(l, c, false))
    ensures Inv(PushParent(l, c, false))
  {
    hide Core;
  }

  lemma ResetKeeps(l: Ledger, c: Command)
    requires Inv(l)
    ensures Inv(Reset(l, c)) && Succeeds(l, Reset(l, c)) && Known(Reset(l, c), c)
  {
  }

  /** The main step: whatever is asked, in any reachable ledger, the reply is a valid
      receipt for exactly that command, and the ledger stays consistent. */
  lemma ExecuteKeeps(l: Ledger, v: Verb, c: Command, gate: Gate, env: Environment)
    requires Inv(l) && !l.calling && Allowed(l, v, c, gate, env)
    ensures var (m, r) := Execute(l, v, c, gate, env);
            Inv(m) && Succeeds(l, m) && (ValidRequest(v, c) ==> Correlated(c, v, r))
  {
    hide Inv, Evolves, Succeeds, Prune, Dispatch, Correlated, DispatchAllowed, ValidCommand, Reset, Busy;
    EvolvesSelf(l);
    EvolvesSucceeds(l, l);
    if ValidRequest(v, c) { ExpiredIsValid(c, v); }
    if gate.valid && Accepts(v, c) && (Known(l, c) || !(!gate.current || !(v.OpenOwner? || v.StopOwner?) || Busy(l))) {
      var s := if Known(l, c) then l else Reset(l, c);
      ResetKeeps(l, c);
      PruneKeeps(s);
      PruneMakesRoom(s);
      PruneKnows(s, c);
      PruneQuiet(l, c);
      SucceedsOn(l, s, Prune(s));
      DispatchKeeps(Prune(s), v, c, gate, env);
      SucceedsOn(l, Prune(s), Dispatch(Prune(s), v, c, gate, env).0);
    }
  }

  lemma PruneKnows(l: Ledger, c: Command)
    requires Known(l, c)
    ensures Known(Prune(l), c)
  {
  }

  lemma PruneQuiet(l: Ledger, c: Command)
    requires !l.calling
    ensures !Prune(if Known(l, c) then l else Reset(l, c)).calling
  {
  }
}
