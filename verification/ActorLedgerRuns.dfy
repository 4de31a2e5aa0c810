/** Whole runs of the actor action controller, and the exact conditions under which
    its promises hold. */
module ActorLedgerRuns {
  import opened ActorWire
  import opened ActorLedger
  import opened ActorLedgerInvariant
  import opened ActorLedgerCalls
  import opened ActorLedgerHistory
  import opened ActorLedgerInsertion
  import opened ActorLedgerExecute
  import opened ActorLedgerMarks
  import opened Wrappers

  /** What the owner thread does with a controller when no native call is on the stack. */
  datatype Event =
    | Request(verb: Verb, command: Command, gate: Gate, env: Environment)
    | Report(op: Op)

  function Step(l: Ledger, e: Event): (m: Ledger)
    requires !l.calling
    ensures !m.calling
  {
    match e
    case Request(v, c, gate, env) => Execute(l, v, c, gate, env).0
    case Report(op) => Nested(l, op)
  }

  predicate EventAllowed(l: Ledger, e: Event)
    requires !l.calling
  {
    match e
    case Request(v, c, gate, env) => Allowed(l, v, c, gate, env)
    case Report(op) => OpAllowed(l, op) && !op.NestedExecute?
  }

  function Run(l: Ledger, es: seq<Event>): (m: Ledger)
    requires !l.calling
    ensures !m.calling
    decreases es
  {
    if es == [] then l else Run(Step(l, es[0]), es[1..])
  }

  predicate RunAllowed(l: Ledger, es: seq<Event>)
    requires !l.calling
    decreases es
  {
    es != [] ==> EventAllowed(l, es[0]) && RunAllowed(Step(l, es[0]), es[1..])
  }

  lemma StepKeeps(l: Ledger, e: Event)
    requires Inv(l) && !l.calling && EventAllowed(l, e)
    ensures Inv(Step(l, e)) && Succeeds(l, Step(l, e))
  {
    hide Inv, Evolves, Succeeds, Execute, Allowed, Nested, OpAllowed;
    match e
    case Request(v, c, gate, env) =>
      ExecuteKeeps(l, v, c, gate, env);
    case Report(op) =>
      NestedKeeps(l, op);
      EvolvesSucceeds(l, Nested(l, op));
  }

  lemma {:induction false} RunKeeps(l: Ledger, es: seq<Event>)
    requires Inv(l) && !l.calling && RunAllowed(l, es)
    ensures Inv(Run(l, es)) && Succeeds(l, Run(l, es))
    decreases es
  {
    hide Inv, Succeeds, Evolves, EventAllowed, Step;
    if es == [] {
      EvolvesSelf(l);
      EvolvesSucceeds(l, l);
    } else {
      var m := Step(l, es[0]);
      StepKeeps(l, es[0]);
      RunKeeps(m, es[1..]);
      SucceedsOn(l, m, Run(l, es));
    }
  }

  lemma EmptyHolds()
    ensures Inv(EMPTY)
  {
  }

  /** Every receipt of every run is valid and correlated with its command. */
  lemma EveryReceiptIsValid(es: seq<Event>, v: Verb, c: Command, gate: Gate, env: Environment)
    requires RunAllowed(EMPTY, es) && Allowed(Run(EMPTY, es), v, c, gate, env) && ValidRequest(v, c)
    ensures Correlated(c, v, Execute(Run(EMPTY, es), v, c, gate, env).1)
  {
    hide Inv, Succeeds, Execute, Run, RunAllowed, Correlated, Allowed;
    EmptyHolds();
    RunKeeps(EMPTY, es);
    ExecuteKeeps(Run(EMPTY, es), v, c, gate, env);
  }

  // ----- what needs nothing from the native side -----

  lemma StepMarked(l: Ledger, e: Event)
    requires Marked(l) && !l.calling
    ensures Marked(Step(l, e)) && Succeeds(l, Step(l, e))
  {
    hide Marked, Adapts, Succeeds, Execute, Nested;
    match e
    case Request(v, c, gate, env) =>
      ExecuteMarked(l, v, c, gate, env);
    case Report(op) =>
      NestedAdapts(l, op);
      AdaptsMarked(l, Nested(l, op));
  }

  lemma {:induction false} RunMarked(l: Ledger, es: seq<Event>)
    requires Marked(l) && !l.calling
    ensures Marked(Run(l, es)) && Succeeds(l, Run(l, es))
    decreases es
  {
    hide Marked, Succeeds, Step;
    if es == [] {
      SucceedsSelf(l);
    } else {
      var m := Step(l, es[0]);
      StepMarked(l, es[0]);
      RunMarked(m, es[1..]);
      SucceedsOn(l, m, Run(l, es));
    }
  }

  /** Within one namespace, no request is ever submitted twice, and requests increase. */
  lemma NeverSubmittedTwice(es: seq<Event>)
    ensures Increasing(Run(EMPTY, es).log)
    ensures var log := Run(EMPTY, es).log; forall m, n :: 0 <= m < n < |log| ==> log[m] != log[n]
  {
    hide Succeeds, Run;
    RunMarked(EMPTY, es);
  }

  /** A submission that was made is still in the log after any further run. */
  lemma SubmissionsAreRemembered(es: seq<Event>, more: seq<Event>)
    ensures Run(EMPTY, es).log <= Run(Run(EMPTY, es), more).log
  {
    hide Run, Continues, NewTo, FloorKept;
    RunMarked(EMPTY, es);
    RunMarked(Run(EMPTY, es), more);
  }

  /** Evidence of a retained action is never retracted, however the run goes on. */
  lemma EvidenceOverRuns(es: seq<Event>, more: seq<Event>, k: nat, n: nat)
    requires var l, m := Run(EMPTY, es), Run(Run(EMPTY, es), more);
             && l.epoch == m.epoch && k < |l.actions| && n < |m.actions|
             && ActionKey(l.actions[k].command) == ActionKey(m.actions[n].command)
    ensures var l, m := Run(EMPTY, es), Run(Run(EMPTY, es), more);
            m.actions[n].command == l.actions[k].command && Keeps(l.actions[k].result, m.actions[n].result)
  {
    RunMarked(EMPTY, es);
    hide Marked, Succeeds, Run, Keeps;
    RunMarked(Run(EMPTY, es), more);
    EvidenceSurvives(Run(EMPTY, es), Run(Run(EMPTY, es), more), k, n);
  }

  /** At most one attack, cast, self power or item is unsettled at any time. */
  lemma OneUnsettledAtATime(es: seq<Event>)
    ensures var acts := Run(EMPTY, es).actions;
            forall i, j :: 0 <= i < j < |acts| ==> !(Exclusive(acts[i]) && Exclusive(acts[j]))
  {
    hide Succeeds, Run, Exclusive;
    RunMarked(EMPTY, es);
  }

  // ----- what follows from the invariant -----

  /** Ownership in every reachable ledger, spelled out. */
  lemma ReachableOwnership(es: seq<Event>)
    requires RunAllowed(EMPTY, es)
    ensures var l := Run(EMPTY, es);
      && (forall i, j :: 0 <= i < j < |l.parents| ==> !(Owned(l.parents[i].state.phase) && Owned(l.parents[j].state.phase)))
      && (forall i, j :: 0 <= i < j < |l.contexts| ==> !(Owned(l.contexts[i].state.phase) && Owned(l.contexts[j].state.phase)))
      && (forall i :: 0 <= i < |l.parents| ==> (Owned(l.parents[i].state.phase) <==> l.parent == Some(l.parents[i].binding.parentId)))
      && (forall j :: 0 <= j < |l.contexts| ==> (Owned(l.contexts[j].state.phase) <==> l.context == Some(ContextKey(l.contexts[j]))))
      && (l.parent.Some? <==> exists i :: 0 <= i < |l.parents| && Owned(l.parents[i].state.phase))
      && (l.context.Some? <==> exists j :: 0 <= j < |l.contexts| && Owned(l.contexts[j].state.phase))
      && |l.parents| <= CAPACITY && |l.contexts| <= CAPACITY && |l.actions| <= CAPACITY
  {
    hide Succeeds, Run, RunAllowed, ActionsOk, LinksOk, LogOk;
    EmptyHolds();
    RunKeeps(EMPTY, es);
  }

  /** Families in every reachable ledger: a child closes with its parent, an owned child
      has an owned parent, and nothing is left unsettled under a closed scope. */
  lemma ReachableFamilies(es: seq<Event>)
    requires RunAllowed(EMPTY, es)
    ensures var l := Run(EMPTY, es);
      && (forall i, j :: 0 <= i < |l.parents| && 0 <= j < |l.contexts| && ContextKey(l.contexts[j]).0 == l.parents[i].binding.parentId ==>
            && (Terminal(l.parents[i].state) ==> l.contexts[j].state == l.parents[i].state)
            && (Owned(l.contexts[j].state.phase) ==> Owned(l.parents[i].state.phase)))
      && (forall i, k :: 0 <= i < |l.parents| && 0 <= k < |l.actions| && Home(l.actions[k].command).0 == l.parents[i].binding.parentId ==>
            Terminal(l.parents[i].state) ==> l.actions[k].result.local.Settled?)
      && (forall j, k :: 0 <= j < |l.contexts| && 0 <= k < |l.actions| && Home(l.actions[k].command) == ContextKey(l.contexts[j]) ==>
            Terminal(l.contexts[j].state) ==> l.actions[k].result.local.Settled?)
  {
    hide Succeeds, Run, RunAllowed, ContextsOk, HasParent, LogOk, ActionShape, Housed;
    EmptyHolds();
    RunKeeps(EMPTY, es);
  }

  // ----- eviction keeps what matters -----

  predicate Obliged(a: Action) { !a.result.local.Settled? }

  lemma {:induction false} PruneActionsSpares(acts: seq<Action>, a: Action)
    requires a in acts && Obliged(a)
    ensures a in PruneActions(acts)
    decreases |acts|
  {
    var i := FirstSettled(acts);
    if |acts| >= CAPACITY && i < |acts| { PruneActionsSpares(acts[..i] + acts[i + 1..], a); }
  }

  lemma {:induction false} PruneContextsSpares(l: Ledger)
    ensures var m := PruneContexts(l);
            && (forall a :: a in l.actions && Obliged(a) ==> a in m.actions)
            && (forall x :: x in l.contexts && !Terminal(x.state) ==> x in m.contexts) && m.parents == l.parents
    decreases |l.contexts|
  {
    hide Under, DropActions, Terminal, Obliged;
    var i := FirstClosed(l.contexts, l.context);
    if |l.contexts| >= CAPACITY && i < |l.contexts| {
      var m := l.(actions := DropActions(l.actions, l.contexts[i].binding, false), contexts := l.contexts[..i] + l.contexts[i + 1..]);
      DropSpares(l.actions, l.contexts[i].binding, false);
      OthersStay(l.contexts, i);
      PruneContextsSpares(m);
    }
  }

  lemma DropSpares(acts: seq<Action>, b: Command, owner: bool)
    ensures forall a :: a in acts && Obliged(a) ==> a in DropActions(acts, b, owner)
  {
  }

  lemma OthersStay(ss: seq<Scope>, i: nat)
    requires i < |ss|
    ensures forall x :: x in ss && x != ss[i] ==> x in ss[..i] + ss[i + 1..]
  {
    forall x | x in ss && x != ss[i] ensures x in ss[..i] + ss[i + 1..] {
      var j :| 0 <= j < |ss| && ss[j] == x;
      assert j < i ==> ss[..i][j] == x;
      assert j > i ==> ss[i + 1..][j - i - 1] == x;
    }
  }

  lemma {:induction false} PruneParentsSpares(l: Ledger)
    ensures var m := PruneParents(l);
            && (forall a :: a in l.actions && Obliged(a) ==> a in m.actions)
            && (forall x :: x in l.contexts && !Terminal(x.state) ==> x in m.contexts)
            && (forall p :: p in l.parents && !Terminal(p.state) ==> p in m.parents)
    decreases |l.parents|
  {
    var i := FirstClosed(l.parents, ParentKey(l));
    if |l.parents| >= CAPACITY && i < |l.parents| { PruneParentsSpares(WithoutParent(l, i)); }
  }

  /** Eviction never removes an unsettled action or a scope that is still open. */
  lemma PruneSpares(l: Ledger)
    ensures forall a :: a in l.actions && Obliged(a) ==> a in Prune(l).actions
    ensures forall x :: x in l.contexts && !Terminal(x.state) ==> x in Prune(l).contexts
    ensures forall p :: p in l.parents && !Terminal(p.state) ==> p in Prune(l).parents
  {
    hide PruneContexts, PruneParents, PruneActions;
    var m := l.(actions := PruneActions(l.actions));
    forall a | a in l.actions && Obliged(a) ensures a in m.actions { PruneActionsSpares(l.actions, a); }
    PruneContextsSpares(m);
    PruneParentsSpares(PruneContexts(m));
  }

  // ----- where the promises stop -----

  /** Recording what Submit returned keeps the ledger consistent exactly when the result
      can be recorded or the parent is still open: blocking a parent that closed during
      the call makes it owned again without making it the active one. */
  lemma RecordableIsExact(m: Ledger, p: nat, x: nat, returned: Operation)
    requires Inv(m) && p < |m.parents| && m.actions != []
    requires m.parents[p].binding.parentId == m.actions[|m.actions| - 1].command.parentId
    ensures Inv(Recorded(m, p, x, returned)) <==> Recordable(m, p, x, returned)
  {
    if Recordable(m, p, x, returned) { RecordedKeeps(m, p, x, returned); } else { UnrecordedReopens(m, p, x, returned); }
  }

  lemma UnrecordedReopens(m: Ledger, p: nat, x: nat, returned: Operation)
    requires Inv(m) && p < |m.parents| && m.actions != []
    requires m.parents[p].binding.parentId == m.actions[|m.actions| - 1].command.parentId
    requires !Recordable(m, p, x, returned)
    ensures var n := Recorded(m, p, x, returned);
            n.parents[p].state.phase.Blocked? && n.parent != Some(n.parents[p].binding.parentId) && !Inv(n)
  {
    hide HasParent, HasContext, LinksOk, ActionsOk, LogOk, ContextsOk, RecordAccepts, Claimed;
    ParentFound(m, p);
    var n := Recorded(m, p, x, returned);
    assert n.parents[p].state.phase.Blocked? && n.parent == m.parent && n.parents[p].binding == m.parents[p].binding;
    assert Owned(n.parents[p].state.phase);
    assert !ParentsOk(n);
  }

  /** A reply to Open or Attach is valid exactly when the backend answers with an outcome
      of its own kind. */
  lemma ForeignOutcomeIsExact(m: Ledger, c: Command, v: Verb, out: Outcome, p: nat, x: nat)
    requires Inv(m) && Accepts(v, c) && Located(m, c, p, x) && (OwnerVerb(v) || ContextVerb(v))
    ensures Correlated(c, v, Reply(c, v, out, Some(m.parents[p]), At?(m.contexts, x), None)) <==> !ForeignOutcome(out)
  {
    if !ForeignOutcome(out) { ScopeReply(m, c, v, out, p, x); } else { ForeignIsInvalid(c, v, out, Some(m.parents[p]), At?(m.contexts, x)); }
  }

  lemma ForeignIsInvalid(c: Command, v: Verb, out: Outcome, p: Option<Scope>, x: Option<Scope>)
    requires (OwnerVerb(v) || ContextVerb(v)) && ForeignOutcome(out)
    requires p.Some? ==> ValidState(p.value.state)
    requires x.Some? ==> ValidState(x.value.state)
    ensures !Correlated(c, v, Reply(c, v, out, p, x, None))
  {
    hide ValidShape, ValidRequest;
  }

  /** A reply made during a native call is valid exactly when it does not repeat a
      retained refusal reason, which only the original outcome may carry. */
  lemma NestedReplyIsExact(l: Ledger, v: Verb, c: Command)
    requires Inv(l) && Accepts(v, c) && Known(l, c) && !Mismatched(l, c)
    ensures var m := RequestStop(l, v, c);
            Correlated(c, v, ExecuteNested(l, v, c, true).1) <==>
            !(ActionVerb(v) && ResultOf(m, c).Some?
              && (ResultOf(m, c).value.reason.PowerReuse? || AdmissionRefusal(ResultOf(m, c).value.reason)))
  {
    hide Inv, RequestStop, Reply, Correlated, ValidRequest, Evolves, AdmissionRefusal;
    RequestStopKeeps(l, v, c);
    var m := RequestStop(l, v, c);
    RequestValid(v, c);
    if ActionVerb(v) && ResultOf(m, c).Some? { PendingReply(m, v, c); } else { LookupReply(m, c, v, Pending); }
  }

  lemma PendingReply(m: Ledger, v: Verb, c: Command)
    requires Inv(m) && Accepts(v, c) && ResultOf(m, c).Some?
    ensures Correlated(c, v, Reply(c, v, Pending, ParentOf(m, c), ContextOf(m, c), ResultOf(m, c))) <==>
            !(ResultOf(m, c).value.reason.PowerReuse? || AdmissionRefusal(ResultOf(m, c).value.reason))
  {
    hide ValidRequest, ContextLinks, LogOk, ValidState, ParentContext;
    PendingReplyScopes(m, c);
    var k := ActionIndex(m.actions, ActionKey(c));
    assert ActionShape(m.actions[k]);
    hide HasParent, HasContext, Inv;
    var p, x, r := ParentOf(m, c), ContextOf(m, c), ResultOf(m, c).value;
    if r.reason.PowerReuse? || AdmissionRefusal(r.reason) {
      assert !ValidRefusal(Reply(c, v, Pending, p, x, Some(r)));
    } else {
      ReplyIsValid(c, v, Pending, p, x, Some(r));
    }
  }

  lemma PendingReplyScopes(m: Ledger, c: Command)
    requires Inv(m) && ResultOf(m, c).Some?
    ensures var p, x, r := ParentOf(m, c), ContextOf(m, c), ResultOf(m, c).value;
            && p.Some? && ValidState(p.value.state) && !p.value.state.phase.UnknownPhase? && Settles(p.value.state, r)
            && (x.Some? ==> c.contextId != 0 && ValidState(x.value.state) && ParentContext(p.value, x.value) && Settles(x.value.state, r))
  {
    hide ValidState, LogOk, ActionShape;
    var i, j, k := ParentIndex(m.parents, c.parentId), ContextIndex(m.contexts, Home(c)), ActionIndex(m.actions, ActionKey(c));
    assert Housed(m, m.actions[k]);
    assert i < |m.parents|;
    hide HasParent, HasContext;
    assert ParentAction(m.parents[i], m.actions[k]);
    assert c.contextId != 0 && j < |m.contexts| ==> ContextAction(m.contexts[j], m.actions[k]) && ParentContext(m.parents[i], m.contexts[j]);
  }

  /** A report keeps the ledger consistent exactly when the record may take it: it names
      a phase, and does not deny a binding under which something was entered. */
  lemma MayApplyIsExact(l: Ledger, owner: bool, i: nat, s: State)
    requires Inv(l) && Has(l, owner, i)
    ensures Inv(Apply(l, owner, i, s)) <==> MayApply(l, owner, i, s)
  {
    ClaimedExcept(l, owner, i);
    if MayApply(l, owner, i, s) { ApplyKeeps(l, owner, i, s); } else { UnfitReport(l, owner, i, s); }
  }

  lemma UnfitReport(l: Ledger, owner: bool, i: nat, s: State)
    requires Inv(l) && Has(l, owner, i) && !MayApply(l, owner, i, s)
    ensures !Inv(Apply(l, owner, i, s))
  {
    hide HasParent, HasContext, ActionsOk, LogOk, ContextLinks, ChildIsActive;
    var a, m := Accepted(At(l, owner, i), s), Apply(l, owner, i, s);
    assert At(m, owner, i).state == a;
    if a.phase.UnknownPhase? {
      assert !Claimed(m);
    } else {
      var k :| 0 <= k < |l.actions| && Under(l.actions[k].command, At(l, owner, i).binding, owner)
                && !l.actions[k].result.entry.NeverEntered?;
      assert m.actions[k].command == l.actions[k].command && m.actions[k].result.entry == l.actions[k].result.entry;
      assert !Settles(a, m.actions[k].result);
      assert !LinksOk(m);
    }
  }
}
