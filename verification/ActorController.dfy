/** The controller as the program keeps it: three lists, two active pointers, the floors and
    whether a native call is on the stack.  Every method is proved to have exactly the
    effect of the ledger's function of the same purpose. */
module ActorController {
  import opened ActorWire
  import opened L = ActorLedger
  import opened Wrappers

  class Controller {
    var parents: seq<Scope>
    var contexts: seq<Scope>
    var actions: seq<Action>
    var parent: Option<Id>
    var context: Option<(Id, Id)>
    var space: Option<Command>
    var parentFloor: Id
    var calling: bool
    ghost var epoch: nat
    ghost var log: seq<Submission>

    ghost function View(): Ledger
      reads this
    {
      Ledger(parents, contexts, actions, parent, context, space, parentFloor, calling, epoch, log)
    }

    constructor ()
      ensures View() == EMPTY
    {
      parents, contexts, actions, parent, context, space := [], [], [], None, None, None;
      parentFloor, calling, epoch, log := 0, false, 0, [];
    }

    // ----- searching -----

    method ParentRecord(id: Id) returns (i: nat)
      ensures i == ParentIndex(parents, id)
    {
      i := 0;
      while i < |parents| && parents[i].binding.parentId != id
        invariant i <= |parents| && forall j :: 0 <= j < i ==> parents[j].binding.parentId != id
      {
        i := i + 1;
      }
    }

    method ContextRecord(c: Command) returns (i: nat)
      ensures i == ContextIndex(contexts, (c.parentId, c.contextId))
    {
      i := 0;
      while i < |contexts| && !(contexts[i].binding.parentId == c.parentId && contexts[i].binding.contextId == c.contextId)
        invariant i <= |contexts| && forall j :: 0 <= j < i ==> ContextKey(contexts[j]) != (c.parentId, c.contextId)
      {
        i := i + 1;
      }
    }

    method ActionRecord(c: Command) returns (k: nat)
      ensures k == ActionIndex(actions, ActionKey(c))
    {
      k := 0;
      while k < |actions| && !(actions[k].command.parentId == c.parentId && actions[k].command.request == c.request)
        invariant k <= |actions| && forall j :: 0 <= j < k ==> ActionKey(actions[j].command) != ActionKey(c)
      {
        k := k + 1;
      }
    }

    /** The scopes a command names, as a receipt shows them. */
    method Scopes(c: Command) returns (p: Option<Scope>, x: Option<Scope>)
      ensures p == ParentOf(View(), c) && x == ContextOf(View(), c)
    {
      var i := ParentRecord(c.parentId);
      var j := ContextRecord(c);
      p := if i < |parents| then Some(parents[i]) else None;
      x := if c.contextId != 0 && j < |contexts| then Some(contexts[j]) else None;
    }

    // ----- scopes -----

    method Settle(b: Command, owner: bool)
      modifies this`actions
      ensures actions == L.Settle(old(actions), b, owner)
    {
      for i := 0 to |actions|
        invariant |actions| == |old(actions)|
        invariant forall j :: 0 <= j < |actions| ==> actions[j] == if j < i then SettleOne(old(actions)[j], b, owner) else old(actions)[j]
      {
        if SameParent(actions[i].command, b) && (owner || SameChild(actions[i].command, b)) {
          actions := actions[i := actions[i].(result := actions[i].result.(local := Settled))];
        }
      }
    }

    method CloseChildren(b: Command, s: State)
      modifies this`contexts, this`context
      ensures contexts == L.CloseChildren(old(contexts), b, s)
      ensures context == if ChildIsActive(old(contexts), b, old(context)) then None else old(context)
    {
      for i := 0 to |contexts|
        invariant |contexts| == |old(contexts)|
        invariant forall j :: 0 <= j < |contexts| ==> contexts[j] == if j < i then CloseOne(old(contexts)[j], b, s) else old(contexts)[j]
        invariant context == if ChildIsActive(old(contexts)[..i], b, old(context)) then None else old(context)
      {
        assert old(contexts)[..i + 1] == old(contexts)[..i] + [contexts[i]];
        if SameParent(contexts[i].binding, b) {
          if context == Some(ContextKey(contexts[i])) { context := None; }
          contexts := contexts[i := contexts[i].(state := s, stopRequested := false, revision := contexts[i].revision + 1)];
        }
      }
      assert old(contexts)[..|contexts|] == old(contexts);
    }

    method Apply(owner: bool, i: nat, supplied: State)
      requires Has(View(), owner, i)
      modifies this
      ensures View() == L.Apply(old(View()), owner, i, supplied)
    {
      hide ValidState, SameParent, SameChild, L.Settle, L.CloseChildren, ChildIsActive, Accepted, Applied;
      var record := if owner then parents[i] else contexts[i];
      if Terminal(record.state) { return; }
      var state := Accepted(record, supplied);
      if owner {
        parents := parents[i := Applied(record, state)];
        var id := parents[i].binding.parentId;
        if Owned(state.phase) { parent := Some(id); } else if parent == Some(id) { parent := None; }
      } else {
        contexts := contexts[i := Applied(record, state)];
        var key := ContextKey(contexts[i]);
        if Owned(state.phase) { context := Some(key); } else if context == Some(key) { context := None; }
      }
      if Terminal(state) {
        Settle(record.binding, owner);
        if owner { CloseChildren(record.binding, state); }
      }
    }

    /** Revoke: everything about stopping that comes before the native call. */
    method BeginStop(owner: bool, i: nat)
      requires Has(View(), owner, i)
      modifies this
      ensures View() == L.BeginStop(old(View()), owner, i)
    {
      hide L.Apply;
      var record := if owner then parents[i] else contexts[i];
      if Terminal(record.state) { return; }
      if record.state.phase.UnknownPhase? {
        Apply(owner, i, NEVER_BOUND);
        return;
      }
      record := record.(stopRequested := true, revision := record.revision + 1, state := record.state.(phase := Stopping, closure := NoClosure));
      if owner { parents := parents[i := record]; } else { contexts := contexts[i := record]; }
    }

    // ----- actions -----

    method PendingLocal() returns (r: bool)
      ensures r == L.PendingLocal(actions)
    {
      for i := 0 to |actions|
        invariant forall j :: 0 <= j < i ==> actions[j].result.local.Settled?
      {
        if !actions[i].result.local.Settled? { return true; }
      }
      return false;
    }

    method QueryAlongsidePendingPower() returns (r: bool)
      ensures r == QueryAlongsidePower(actions)
    {
      for i := 0 to |actions|
        invariant QueryAlongsidePower(actions[..i])
      {
        assert actions[..i + 1] == actions[..i] + [actions[i]];
        var a := actions[i];
        if a.result.local.Settled? { continue; }
        if !(a.command.action.Cast? || a.command.action.SelfPower?) || !a.result.entry.Entered? || !a.result.queued || !a.result.outcome.Queued? {
          return false;
        }
      }
      assert actions[..|actions|] == actions;
      return true;
    }

    method Record(k: nat, incoming: Operation) returns (ok: bool)
      requires k < |actions|
      modifies this
      ensures View() == L.Record(old(View()), k, incoming) && ok == RecordAccepts(old(View()), old(actions)[k], incoming)
    {
      hide ValidReceipt, L.Reply;
      var was := actions[k].result;
      var p, x := Scopes(actions[k].command);
      if (was.entry.Entered? && !incoming.entry.Entered?) || (was.uncertain && incoming.entry.NeverEntered?)
         || (was.queued && !incoming.queued) || (was.uncertain && !incoming.uncertain)
         || (was.local.Settled? && !incoming.local.Settled?)
         || ((was.application.AppObserved? || was.application.AppInterrupted?) && incoming.application != was.application)
         || !ValidReceipt(L.Reply(actions[k].command, Submit, incoming.outcome, p, x, Some(incoming))) {
        var i := ParentRecord(actions[k].command.parentId);
        if i < |parents| && !Terminal(parents[i].state) { Block(i); }
        return false;
      }
      actions := actions[k := actions[k].(result := incoming)];
      return true;
    }

    method Block(i: nat)
      requires i < |parents|
      modifies this`parents
      ensures View() == BlockParent(old(View()), i)
    {
      parents := parents[i := parents[i].(state := parents[i].state.(phase := Blocked))];
    }

    method UpdateAction(c: Command, result: Operation) returns (ok: bool)
      modifies this
      ensures View() == ReportAction(old(View()), c, result)
      ensures ok <==> ResultOf(old(View()), c).Some? && RecordAccepts(old(View()), old(actions)[ActionIndex(old(actions), ActionKey(c))], result)
    {
      hide L.Record;
      var k := ActionRecord(c);
      if k == |actions| || actions[k].command != c { return false; }
      ok := Record(k, result);
    }

    method UpdateScope(c: Command, state: State, owner: bool) returns (ok: bool)
      modifies this
      ensures View() == ReportScope(old(View()), c, state, owner)
      ensures ok <==> var i := if owner then ParentIndex(old(parents), c.parentId) else ContextIndex(old(contexts), (c.parentId, c.contextId));
                      Has(old(View()), owner, i) && Under(At(old(View()), owner, i).binding, c, owner)
    {
      hide L.Apply;
      var i: nat;
      if owner { i := ParentRecord(c.parentId); } else { i := ContextRecord(c); }
      if i == (if owner then |parents| else |contexts|) { return false; }
      var binding := if owner then parents[i].binding else contexts[i].binding;
      if !(if owner then SameParent(binding, c) else SameChild(binding, c)) { return false; }
      Apply(owner, i, state);
      return true;
    }

    method ObserveApplication(digest: Command, terminal: Application) returns (ok: bool)
      modifies this`actions
      ensures View() == Observe(old(View()), digest, terminal)
      ensures ok <==> TerminalApplication(terminal) && var k := DigestIndex(old(actions), digest);
                      k < |actions| && actions[k].result.application == terminal
    {
      hide ValidCommand;
      if !(terminal.AppObserved? || terminal.AppInterrupted?) { return false; }
      var i := 0;
      while i < |actions| && !(actions[i].command == digest && ValidCommand(digest))
        invariant i <= |actions| && DigestIndex(actions, digest) == i + DigestIndex(actions[i..], digest)
      {
        assert actions[i..][1..] == actions[i + 1..];
        i := i + 1;
      }
      assert i == DigestIndex(actions, digest);
      hide DigestIndex;
      if i == |actions| { return false; }
      var r := actions[i].result;
      if r.application.NoApplication? { return false; }
      if r.application.AppObserved? || r.application.AppInterrupted? { return r.application == terminal; }
      if terminal.AppInterrupted? && (!r.entry.Entered? || !r.queued) { return false; }
      actions := actions[i := actions[i].(result := r.(application := terminal))];
      return true;
    }

    // ----- inside a native call -----

    /** The retained result of exactly this command. */
    method Retained(c: Command) returns (r: Option<Operation>)
      ensures r == ResultOf(View(), c)
    {
      var k := ActionRecord(c);
      r := if k < |actions| && actions[k].command == c then Some(actions[k].result) else None;
    }

    method Revoke(v: Verb, c: Command)
      modifies this
      ensures View() == RequestStop(old(View()), v, c)
    {
      hide L.BeginStop, ParentIndex, ContextIndex, ResultOf;
      var i := ParentRecord(c.parentId);
      var j := ContextRecord(c);
      if v.StopOwner? && i < |parents| {
        BeginStop(true, i);
      } else if v.StopContext? && j < |contexts| {
        BeginStop(false, j);
      } else if v.CancelAction? && i < |parents| {
        var r := Retained(c);
        if r.Some? && !r.value.entry.NeverEntered? {
          if c.contextId != 0 && j < |contexts| { BeginStop(false, j); } else { BeginStop(true, i); }
        }
      }
    }

    /** Execute while a native call is on the stack: at most it revokes. */
    method ExecuteDuring(v: Verb, c: Command, valid: bool) returns (r: Receipt)
      modifies this
      ensures View() == ExecuteNested(old(View()), v, c, valid).0 && r == ExecuteNested(old(View()), v, c, valid).1
    {
      hide L.Reply, RequestStop, ResultOf, ParentOf, ContextOf, ValidRequest, SameSpace, SameParent, SameChild;
      if !valid || !ValidRequest(v, c) || ReadVerb(v) { return BaseReply(c, v, Invalid); }
      if space.None? || !SameSpace(space.value, c) { return Expired(c, v); }
      var p, x := Scopes(c);
      if (p.Some? && !SameParent(p.value.binding, c)) || (x.Some? && !SameChild(x.value.binding, c)) {
        return L.Reply(c, v, Invalid, p, x, None);
      }
      Revoke(v, c);
      p, x := Scopes(c);
      var a := Retained(c);
      return L.Reply(c, v, Pending, p, x, if ActionVerb(v) then a else None);
    }

    /** What the native side does before it returns: calls back into the controller. */
    method Perform(ops: seq<Op>)
      modifies this
      ensures View() == RunNested(old(View()), ops)
    {
      hide ReportAction, ReportScope, Observe, ExecuteNested;
      for i := 0 to |ops|
        invariant RunNested(old(View()), ops) == RunNested(View(), ops[i..])
      {
        assert ops[i..][0] == ops[i] && ops[i..][1..] == ops[i + 1..];
        match ops[i] {
          case UpdateAction(c, r) => var _ := UpdateAction(c, r);
          case UpdateScope(c, s, owner) => var _ := UpdateScope(c, s, owner);
          case ObserveApplication(d, t) => var _ := ObserveApplication(d, t);
          case NestedExecute(v, c, valid) => var _ := ExecuteDuring(v, c, valid);
        }
      }
    }

    /** A native call. */
    method Invoke(ops: seq<Op>)
      requires !calling
      modifies this
      ensures View() == Call(old(View()), ops)
    {
      hide RunNested;
      calling := true;
      Perform(ops);
      calling := false;
    }

    method StopScope(owner: bool, i: nat, stop: Native<State>)
      requires Has(View(), owner, i) && !calling
      modifies this
      ensures View() == L.StopScope(old(View()), owner, i, stop)
    {
      hide L.Apply, L.BeginStop, Call;
      var state := if owner then parents[i].state else contexts[i].state;
      BeginStop(owner, i);
      if Terminal(state) || state.phase.UnknownPhase? { return; }
      var before := if owner then parents[i].revision else contexts[i].revision;
      Invoke(stop.nested);
      if before == (if owner then parents[i].revision else contexts[i].revision) { Apply(owner, i, stop.result); }
    }

    // ----- pruning -----

    method PruneActions()
      modifies this`actions
      ensures actions == L.PruneActions(old(actions))
    {
      while |actions| >= CAPACITY
        invariant L.PruneActions(actions) == L.PruneActions(old(actions))
        decreases |actions|
      {
        var i := 0;
        while i < |actions| && !actions[i].result.local.Settled?
          invariant i <= |actions| && forall j :: 0 <= j < i ==> !actions[j].result.local.Settled?
        {
          i := i + 1;
        }
        assert i == FirstSettled(actions);
        if i == |actions| { break; }
        actions := actions[..i] + actions[i + 1..];
      }
    }

    static lemma DropAction(acts: seq<Action>, i: nat, b: Command, owner: bool)
      requires i < |acts|
      ensures DropActions(acts[i..], b, owner) ==
              (if Under(acts[i].command, b, owner) && acts[i].result.local.Settled? then [] else [acts[i]]) + DropActions(acts[i + 1..], b, owner)
    {
      hide Under;
      assert acts[i..][1..] == acts[i + 1..];
    }

    static lemma DropContext(xs: seq<Scope>, i: nat, b: Command)
      requires i < |xs|
      ensures DropContexts(xs[i..], b) ==
              (if SameParent(xs[i].binding, b) && Terminal(xs[i].state) then [] else [xs[i]]) + DropContexts(xs[i + 1..], b)
    {
      hide SameParent;
      assert xs[i..][1..] == xs[i + 1..];
    }

    /** Remove the settled actions under a scope, keeping the order of the others. */
    method RemoveActions(b: Command, owner: bool)
      modifies this`actions
      ensures actions == DropActions(old(actions), b, owner)
    {
      hide Under, DropActions;
      var kept: seq<Action> := [];
      for i := 0 to |actions|
        invariant actions == old(actions) && DropActions(actions, b, owner) == kept + DropActions(actions[i..], b, owner)
      {
        DropAction(actions, i, b, owner);
        if !(Under(actions[i].command, b, owner) && actions[i].result.local.Settled?) { kept := kept + [actions[i]]; }
      }
      NothingLeft(b, owner);
      actions := kept;
    }

    static lemma NothingLeft(b: Command, owner: bool)
      ensures DropActions([], b, owner) == [] && DropContexts([], b) == []
    {
    }

    method RemoveContexts(b: Command)
      modifies this`contexts
      ensures contexts == DropContexts(old(contexts), b)
    {
      hide SameParent, DropContexts;
      var kept: seq<Scope> := [];
      for i := 0 to |contexts|
        invariant contexts == old(contexts) && DropContexts(contexts, b) == kept + DropContexts(contexts[i..], b)
      {
        DropContext(contexts, i, b);
        if !(SameParent(contexts[i].binding, b) && Terminal(contexts[i].state)) { kept := kept + [contexts[i]]; }
      }
      NothingLeft(b, true);
      contexts := kept;
    }

    /** The oldest record that is closed and not the active one. */
    method OldestClosed(ss: seq<Scope>, active: Option<(Id, Id)>) returns (i: nat)
      ensures i == FirstClosed(ss, active)
    {
      i := 0;
      while i < |ss| && (!Terminal(ss[i].state) || active == Some(ContextKey(ss[i])))
        invariant i <= |ss| && forall j :: 0 <= j < i ==> !Terminal(ss[j].state) || active == Some(ContextKey(ss[j]))
      {
        i := i + 1;
      }
    }

    method PruneContexts()
      modifies this
      ensures View() == L.PruneContexts(old(View()))
    {
      hide DropActions;
      while |contexts| >= CAPACITY
        invariant L.PruneContexts(View()) == L.PruneContexts(old(View()))
        decreases |contexts|
      {
        var i := OldestClosed(contexts, context);
        if i == |contexts| { break; }
        RemoveActions(contexts[i].binding, false);
        contexts := contexts[..i] + contexts[i + 1..];
      }
    }

    method PruneParents()
      modifies this
      ensures View() == L.PruneParents(old(View()))
    {
      hide DropActions, DropContexts;
      while |parents| >= CAPACITY
        invariant L.PruneParents(View()) == L.PruneParents(old(View()))
        decreases |parents|
      {
        var i := OldestClosed(parents, if parent.Some? then Some((parent.value, 0)) else None);
        if i == |parents| { break; }
        var b := parents[i].binding;
        RemoveActions(b, true);
        RemoveContexts(b);
        parents := parents[..i] + parents[i + 1..];
      }
    }

    method Prune()
      modifies this
      ensures View() == L.Prune(old(View())) && calling == old(calling)
    {
      hide L.PruneActions, L.PruneContexts, L.PruneParents;
      PruneActions();
      PruneContexts();
      PruneParents();
    }

    // ----- Execute outside native calls -----

    method Busy() returns (r: bool)
      ensures r == L.Busy(View())
    {
      if parent.Some? || context.Some? || calling { return true; }
      r := PendingLocal();
    }

    /** Own record i, make the Open or Attach call, and honour a stop requested meanwhile. */
    method Claim(owner: bool, i: nat, env: Environment)
      requires Has(View(), owner, i) && !calling
      modifies this
      ensures View() == L.Claim(old(View()), owner, i, env)
    {
      hide L.Apply, Call, L.StopScope;
      if owner {
        parents := parents[i := parents[i].(state := Only(Blocked))];
        parent := Some(parents[i].binding.parentId);
      } else {
        contexts := contexts[i := contexts[i].(state := Only(Blocked))];
        context := Some(ContextKey(contexts[i]));
      }
      var before := if owner then parents[i].revision else contexts[i].revision;
      Invoke(env.entry.nested);
      if before == (if owner then parents[i].revision else contexts[i].revision) { Apply(owner, i, Answered(env.entry.result.state)); }
      if (if owner then parents[i].stopRequested else contexts[i].stopRequested) { StopScope(owner, i, env.stop); }
    }

    method OwnerVerbs(v: Verb, c: Command, i: nat, live: bool, env: Environment) returns (r: Receipt)
      requires i < |parents| && !calling && OwnerVerb(v)
      modifies this
      ensures View() == OwnerStep(old(View()), v, c, i, live, env).0 && r == OwnerStep(old(View()), v, c, i, live, env).1
    {
      hide L.Apply, L.StopScope, L.Claim, L.Reply, L.PendingLocal;
      var s := parents[i].state;
      if v.OwnerStatus? { return L.Reply(c, v, if Terminal(s) then ClosedOutcome else Observed, Some(parents[i]), None, None); }
      if v.StopOwner? {
        StopScope(true, i, env.stop);
        return L.Reply(c, v, if Terminal(parents[i].state) then ClosedOutcome else Pending, Some(parents[i]), None, None);
      }
      if Terminal(s) { return L.Reply(c, v, ClosedOutcome, Some(parents[i]), None, None); }
      if Owned(s.phase) { return L.Reply(c, v, if s.phase.Bound? then BoundOutcome else Pending, Some(parents[i]), None, None); }
      var unsettled := PendingLocal();
      if parent.Some? || unsettled || !live {
        Apply(true, i, NEVER_BOUND);
        return L.Reply(c, v, Unavailable, Some(parents[i]), None, None);
      }
      Claim(true, i, env);
      return L.Reply(c, v, env.entry.result.outcome, Some(parents[i]), None, None);
    }

    method ContextVerbs(v: Verb, c: Command, p: nat, i: nat, live: bool, env: Environment) returns (r: Receipt)
      requires p < |parents| && i < |contexts| && !calling && ContextVerb(v)
      modifies this
      ensures View() == ContextStep(old(View()), v, c, p, i, live, env).0 && r == ContextStep(old(View()), v, c, p, i, live, env).1
    {
      hide L.Apply, L.StopScope, L.Claim, L.Reply, L.PendingLocal;
      var s := contexts[i].state;
      if v.ContextStatus? { return L.Reply(c, v, if Terminal(s) then ClosedOutcome else Observed, Some(parents[p]), Some(contexts[i]), None); }
      if v.StopContext? {
        StopScope(false, i, env.stop);
        return L.Reply(c, v, if Terminal(contexts[i].state) then ClosedOutcome else Pending, Some(parents[p]), Some(contexts[i]), None);
      }
      if Terminal(s) { return L.Reply(c, v, ClosedOutcome, Some(parents[p]), Some(contexts[i]), None); }
      if Owned(s.phase) { return L.Reply(c, v, if s.phase.Bound? then BoundOutcome else Pending, Some(parents[p]), Some(contexts[i]), None); }
      var unsettled := PendingLocal();
      if context.Some? || parent != Some(parents[p].binding.parentId) || !parents[p].state.phase.Bound? || unsettled || !live {
        Apply(false, i, NEVER_BOUND);
        return L.Reply(c, v, Unavailable, Some(parents[p]), Some(contexts[i]), None);
      }
      Claim(false, i, env);
      return L.Reply(c, v, env.entry.result.outcome, Some(parents[p]), Some(contexts[i]), None);
    }

    method EntryAllowed() returns (r: bool)
      ensures r == ContextAllowsEntry(View())
    {
      if context.None? { return true; }
      var i := 0;
      while i < |contexts| && ContextKey(contexts[i]) != context.value
        invariant i <= |contexts| && forall j :: 0 <= j < i ==> ContextKey(contexts[j]) != context.value
      {
        i := i + 1;
      }
      assert i == ContextIndex(contexts, context.value);
      return i < |contexts| && contexts[i].state.phase.Bound? && !contexts[i].stopRequested;
    }

    method Admissible(c: Command, p: nat, x: nat, live: bool) returns (r: bool)
      requires p < |parents|
      ensures r == MayEnter(View(), c, p, x, live)
    {
      hide L.PendingLocal, QueryAlongsidePower, ContextAllowsEntry;
      var allowed := EntryAllowed();
      var unsettled := PendingLocal();
      var alongside := QueryAlongsidePendingPower();
      r := live && parent == Some(parents[p].binding.parentId) && parents[p].state.phase.Bound?
           && (x < |contexts| ==> context == Some(ContextKey(contexts[x])) && contexts[x].state.phase.Bound?)
           && allowed && (!unsettled || (c.action.Track? && alongside) || c.action.GroupChat?);
    }

    /** Enter native code for a new action. */
    method Enter(c: Command, env: Environment)
      requires !calling
      modifies this
      ensures View() == Submitted(old(View()), c, env)
    {
      hide Call;
      actions := actions + [Action(c, ENTERING)];
      log := log + [Submission(epoch, c.parentId, c.request)];
      Invoke(env.entry.nested);
    }

    /** Record what Submit returned for the last action. */
    method RecordLast(p: nat, x: nat, returned: Operation)
      requires p < |parents| && actions != []
      modifies this
      ensures View() == Recorded(old(View()), p, x, returned)
    {
      hide L.Record, RecordAccepts;
      var k, result := |actions| - 1, returned;
      if Terminal(parents[p].state) || (x < |contexts| && Terminal(contexts[x].state)) { result := result.(local := Settled); }
      var ok := Record(k, result);
      if !ok { Block(p); }
      if Terminal(parents[p].state) || (x < |contexts| && Terminal(contexts[x].state)) {
        actions := actions[k := actions[k].(result := actions[k].result.(local := Settled))];
      }
    }

    method Return(p: nat, x: nat, env: Environment)
      requires p < |parents| && x <= |contexts| && actions != [] && !calling
      modifies this
      ensures View() == Returned(old(View()), p, x, env)
    {
      hide Recorded, L.StopScope;
      RecordLast(p, x, env.entry.result);
      if parents[p].stopRequested { StopScope(true, p, env.stop); }
      else if x < |contexts| && contexts[x].stopRequested { StopScope(false, x, env.stop); }
    }

    method NewAction(v: Verb, c: Command, p: nat, x: nat, gate: Gate, env: Environment) returns (r: Receipt)
      requires p < |parents| && x <= |contexts| && !calling && ActionVerb(v)
      modifies this
      ensures View() == ActionStep(old(View()), v, c, p, x, gate, env).0 && r == ActionStep(old(View()), v, c, p, x, gate, env).1
    {
      hide L.Reply, MayEnter, Submitted, Returned;
      if c.request <= parents[p].actionFloor { return Expired(c, v); }
      parents := parents[p := parents[p].(actionFloor := c.request)];
      var k := |actions|;
      if k >= CAPACITY || !gate.memory {
        return L.Reply(c, v, Exhausted, Some(parents[p]), if x < |contexts| then Some(contexts[x]) else None, None);
      }
      var entering := Admissible(c, p, x, gate.live);
      if v.CancelAction? {
        actions := actions + [Action(c, NOT_RUN.(outcome := Cancelled))];
      } else if entering {
        Enter(c, env);
        Return(p, x, env);
      } else {
        actions := actions + [Action(c, NOT_RUN.(outcome := Deferred))];
      }
      return L.Reply(c, v, actions[k].result.outcome, Some(parents[p]), if x < |contexts| then Some(contexts[x]) else None, Some(actions[k].result));
    }

    method ReplayAction(v: Verb, c: Command, k: nat, env: Environment) returns (r: Receipt)
      requires k < |actions| && !calling
      modifies this
      ensures View() == Replay(old(View()), v, c, k, env).0 && r == Replay(old(View()), v, c, k, env).1
    {
      hide L.Reply, L.StopScope, ParentOf, ContextOf;
      var p, x := Scopes(c);
      if actions[k].command != c { return L.Reply(c, v, Invalid, p, x, None); }
      var i := ParentRecord(c.parentId);
      var j := ContextRecord(c);
      if i == |parents| || (c.contextId != 0 && j == |contexts|) { return Expired(c, v); }
      if v.CancelAction? && !actions[k].result.entry.NeverEntered? {
        if c.contextId != 0 { StopScope(false, j, env.stop); } else { StopScope(true, i, env.stop); }
      }
      var was := actions[k].result;
      var out := if v.CancelAction? && (was.outcome.PowerReuseBlocked? || AdmissionRefusal(was.reason)) then Cancelled else was.outcome;
      p, x := Scopes(c);
      return L.Reply(c, v, out, p, x, Some(if out.Cancelled? then was.(reason := NoReason) else was));
    }

    method BelowParent(v: Verb, c: Command, p: nat, gate: Gate, env: Environment) returns (r: Receipt)
      requires p < |parents| && !calling && !OwnerVerb(v) && !ReadVerb(v) && (ContextVerb(v) ==> c.contextId != 0)
      modifies this
      ensures View() == ChildStep(old(View()), v, c, p, gate, env).0 && r == ChildStep(old(View()), v, c, p, gate, env).1
    {
      hide ContextStep, ActionStep;
      if c.contextId == 0 {
        r := NewAction(v, c, p, |contexts|, gate, env);
        return;
      }
      var x := ContextRecord(c);
      if x == |contexts| {
        if Terminal(parents[p].state) || !(v.AttachContext? || v.StopContext?) || c.contextId <= parents[p].contextFloor || !gate.current {
          return Expired(c, v);
        }
        parents := parents[p := parents[p].(contextFloor := c.contextId)];
        if !gate.memory { return Expired(c, v); }
        contexts := contexts + [Fresh(c)];
      }
      if ContextVerb(v) { r := ContextVerbs(v, c, p, x, gate.live, env); } else { r := NewAction(v, c, p, x, gate, env); }
    }

    method Serve(v: Verb, c: Command, gate: Gate, env: Environment) returns (r: Receipt)
      requires !calling && ValidRequest(v, c) && !ReadVerb(v)
      modifies this
      ensures View() == Dispatch(old(View()), v, c, gate, env).0 && r == Dispatch(old(View()), v, c, gate, env).1
    {
      hide L.Reply, Replay, OwnerStep, ChildStep, ParentOf, ContextOf, SameParent, SameChild;
      var p, x := Scopes(c);
      if (p.Some? && !SameParent(p.value.binding, c)) || (x.Some? && !SameChild(x.value.binding, c)) {
        return L.Reply(c, v, Invalid, p, x, None);
      }
      if ActionVerb(v) {
        var k := ActionRecord(c);
        if k < |actions| {
          r := ReplayAction(v, c, k, env);
          return;
        }
        if v.ActionStatus? { return Expired(c, v); }
      }
      var i := ParentRecord(c.parentId);
      if i == |parents| {
        if !(v.OpenOwner? || v.StopOwner?) || c.parentId <= parentFloor || !gate.current { return Expired(c, v); }
        parentFloor := c.parentId;
        if !gate.memory { return Expired(c, v); }
        parents := parents + [Fresh(c)];
      }
      if OwnerVerb(v) { r := OwnerVerbs(v, c, i, gate.live, env); } else { r := BelowParent(v, c, i, gate, env); }
    }

    /** One request: refused, or served in the ledger of its namespace after pruning. */
    method Execute(v: Verb, c: Command, gate: Gate, env: Environment) returns (r: Receipt)
      requires !calling
      modifies this
      ensures View() == L.Execute(old(View()), v, c, gate, env).0 && r == L.Execute(old(View()), v, c, gate, env).1 && !calling
    {
      hide Dispatch, L.Prune, ValidRequest, SameSpace, L.PendingLocal;
      if !gate.valid || !ValidRequest(v, c) || ReadVerb(v) { return BaseReply(c, v, Invalid); }
      if space.None? || !SameSpace(space.value, c) {
        var busy := Busy();
        if !gate.current || !(v.OpenOwner? || v.StopOwner?) || busy { return Expired(c, v); }
        parents, contexts, actions, parent, context := [], [], [], None, None;
        parentFloor, space, epoch := 0, Some(c), epoch + 1;
      }
      Prune();
      r := Serve(v, c, gate, env);
    }
  }
}
