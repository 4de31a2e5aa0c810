/** What every reachable ledger satisfies, and that each building block keeps it. */
module ActorLedgerInvariant {
  import opened ActorWire
  import opened ActorLedger
  import opened Wrappers

  /** A retained result, apart from the scopes it is reported with. */
  predicate ActionShape(a: Action) {
    var c, r := a.command, a.result;
    && ValidCommand(c) && !c.action.NoAction?
    && (r.queued ==> r.entry.Entered?)
    && (r.entry.NeverEntered? ==> !r.queued && !r.uncertain && r.application.NoApplication? && r.local.Settled?)
    && (r.outcome.Queued? ==> r.queued)
    && (r.application.AppInterrupted? ==> r.entry.Entered? && r.queued)
    && (!r.application.NoApplication? ==> c.action.Cast? || c.action.SelfPower? || c.action.UseItem?)
    && !r.outcome.HistoryExpired?
    && (r.outcome.Deferred? || r.outcome.Cancelled? || r.outcome.PowerReuseBlocked? ==> r.entry.NeverEntered?)
    && (if r.outcome.PowerReuseBlocked? then (c.action.Cast? || c.action.SelfPower?) && r.reason.PowerReuse? else !r.reason.PowerReuse?)
    && (AdmissionRefusal(r.reason) ==> r.entry.NeverEntered? && r.outcome.Deferred?)
  }

  /** A closed scope holds no local obligation; one that never bound was never entered. */
  predicate Settles(s: State, r: Operation) {
    (Terminal(s) ==> r.local.Settled?) && (s.closure.NeverBound? ==> r.entry.NeverEntered?)
  }

  predicate ParentContext(p: Scope, x: Scope) {
    && SameParent(p.binding, x.binding) && x.binding.contextId <= p.contextFloor && !p.state.phase.UnknownPhase?
    && (Terminal(p.state) ==> x.state == p.state)
  }

  predicate ParentAction(p: Scope, a: Action) {
    && SameParent(p.binding, a.command) && a.command.request <= p.actionFloor && !p.state.phase.UnknownPhase?
    && Settles(p.state, a.result)
  }

  predicate ContextAction(x: Scope, a: Action) {
    SameChild(x.binding, a.command) && !x.state.phase.UnknownPhase? && Settles(x.state, a.result)
  }

  predicate Unused(s: Scope) { s.state.phase.UnknownPhase? ==> !s.everBound }

  predicate ParentsOk(l: Ledger) {
    && (forall i :: 0 <= i < |l.parents| ==>
          && 0 < l.parents[i].binding.parentId <= l.parentFloor && l.parents[i].binding.contextId == 0
          && ValidState(l.parents[i].state) && Known(l, l.parents[i].binding) && Unused(l.parents[i])
          && (Owned(l.parents[i].state.phase) <==> l.parent == Some(l.parents[i].binding.parentId)))
    && (forall i, j :: 0 <= i < j < |l.parents| ==> l.parents[i].binding.parentId != l.parents[j].binding.parentId)
    && (l.parent.Some? ==> HasParent(l, l.parent.value))
  }

  predicate HasParent(l: Ledger, id: Id) { exists i :: 0 <= i < |l.parents| && l.parents[i].binding.parentId == id }

  predicate HasContext(l: Ledger, key: (Id, Id)) { exists j :: 0 <= j < |l.contexts| && ContextKey(l.contexts[j]) == key }

  predicate ContextsOk(l: Ledger) {
    && (forall j :: 0 <= j < |l.contexts| ==>
          && l.contexts[j].binding.contextId != 0 && ValidState(l.contexts[j].state) && Unused(l.contexts[j])
          && HasParent(l, l.contexts[j].binding.parentId)
          && (Owned(l.contexts[j].state.phase) <==> l.context == Some(ContextKey(l.contexts[j]))))
    && (forall i, j :: 0 <= i < j < |l.contexts| ==> ContextKey(l.contexts[i]) != ContextKey(l.contexts[j]))
    && (l.context.Some? ==> HasContext(l, l.context.value))
  }

  /** The actions of which at most one may be locally unsettled. */
  predicate Exclusive(a: Action) { !a.command.action.Track? && !a.command.action.GroupChat? && !a.result.local.Settled? }

  predicate Housed(l: Ledger, a: Action) {
    HasParent(l, a.command.parentId) && (a.command.contextId != 0 ==> HasContext(l, Home(a.command)))
  }

  function Home(c: Command): (Id, Id) { (c.parentId, c.contextId) }

  predicate OneExclusive(acts: seq<Action>) {
    forall i, j :: 0 <= i < j < |acts| ==> !(Exclusive(acts[i]) && Exclusive(acts[j]))
  }

  predicate DistinctActions(acts: seq<Action>) {
    forall i, j :: 0 <= i < j < |acts| ==> ActionKey(acts[i].command) != ActionKey(acts[j].command)
  }

  predicate ActionsOk(l: Ledger) {
    && (forall k :: 0 <= k < |l.actions| ==> ActionShape(l.actions[k]) && Housed(l, l.actions[k]))
    && DistinctActions(l.actions) && OneExclusive(l.actions)
  }

  predicate ContextLinks(l: Ledger) {
    forall i, j | 0 <= i < |l.parents| && 0 <= j < |l.contexts| ::
      l.parents[i].binding.parentId == l.contexts[j].binding.parentId ==> ParentContext(l.parents[i], l.contexts[j])
  }

  predicate ActionLinks(l: Ledger) {
    forall i, k | 0 <= i < |l.parents| && 0 <= k < |l.actions| ::
      l.parents[i].binding.parentId == l.actions[k].command.parentId ==> ParentAction(l.parents[i], l.actions[k])
  }

  predicate ChildLinks(l: Ledger) {
    forall j, k | 0 <= j < |l.contexts| && 0 <= k < |l.actions| ::
      ContextKey(l.contexts[j]) == Home(l.actions[k].command) ==> ContextAction(l.contexts[j], l.actions[k])
  }

  predicate LinksOk(l: Ledger) { ContextLinks(l) && ActionLinks(l) && ChildLinks(l) }

  predicate LogOk(l: Ledger) {
    && (forall n :: 0 <= n < |l.log| ==> l.log[n].epoch <= l.epoch)
    && (forall n :: 0 <= n < |l.log| && l.log[n].epoch == l.epoch ==> l.log[n].parent <= l.parentFloor)
    && (forall n, i | 0 <= n < |l.log| && 0 <= i < |l.parents| && l.log[n].epoch == l.epoch ::
          l.log[n].parent == l.parents[i].binding.parentId ==> l.log[n].request <= l.parents[i].actionFloor)
    && Increasing(l.log)
  }

  /** Within one namespace, the requests submitted under one parent strictly increase. */
  predicate Increasing(log: seq<Submission>) {
    forall m, n :: 0 <= m < n < |log| && log[m].epoch == log[n].epoch && log[m].parent == log[n].parent
      ==> log[m].request < log[n].request
  }

  predicate Bounded(l: Ledger) { |l.parents| <= CAPACITY && |l.contexts| <= CAPACITY && |l.actions| <= CAPACITY }

  /** The invariant, except that records just inserted may still be unclaimed. */
  predicate Core(l: Ledger) { ParentsOk(l) && ContextsOk(l) && ActionsOk(l) && LinksOk(l) && LogOk(l) && Bounded(l) }

  predicate Claimed(l: Ledger) {
    && (forall i :: 0 <= i < |l.parents| ==> !l.parents[i].state.phase.UnknownPhase?)
    && (forall j :: 0 <= j < |l.contexts| ==> !l.contexts[j].state.phase.UnknownPhase?)
  }

  /** Every record but one is claimed. */
  predicate ClaimedBut(l: Ledger, owner: bool, i: nat) {
    && (forall j :: 0 <= j < |l.parents| && !(owner && j == i) ==> !l.parents[j].state.phase.UnknownPhase?)
    && (forall j :: 0 <= j < |l.contexts| && !(!owner && j == i) ==> !l.contexts[j].state.phase.UnknownPhase?)
  }

  predicate Inv(l: Ledger) { Core(l) && Claimed(l) }

  /** What protects against repetition, and needs nothing from the native side: identities
      below their marks, and each but once. */
  predicate Marked(l: Ledger) {
    && (forall i :: 0 <= i < |l.parents| ==> l.parents[i].binding.parentId <= l.parentFloor)
    && (forall i, j :: 0 <= i < j < |l.parents| ==> l.parents[i].binding.parentId != l.parents[j].binding.parentId)
    && (forall k :: 0 <= k < |l.actions| ==> l.actions[k].command.parentId <= l.parentFloor)
    && (forall i, k | 0 <= i < |l.parents| && 0 <= k < |l.actions| ::
          l.parents[i].binding.parentId == l.actions[k].command.parentId ==> l.actions[k].command.request <= l.parents[i].actionFloor)
    && DistinctActions(l.actions) && OneExclusive(l.actions) && LogOk(l)
  }

  /** Evidence once given is never taken back. */
  predicate Keeps(r: Operation, s: Operation) {
    && (r.entry.Entered? ==> s.entry.Entered?) && (r.queued ==> s.queued) && (r.uncertain ==> s.uncertain)
    && (r.local.Settled? ==> s.local.Settled?)
    && (TerminalApplication(r.application) ==> s.application == r.application)
  }

  /** m is l with records changed in place, all evidence kept. */
  predicate Adapts(l: Ledger, m: Ledger) {
    SameShape(l, m) && forall k :: 0 <= k < |l.actions| ==> Keeps(l.actions[k].result, m.actions[k].result)
  }

  /** Moreover, closed scopes are still closed. */
  predicate Evolves(l: Ledger, m: Ledger) {
    && Adapts(l, m)
    && (forall i :: 0 <= i < |l.parents| && Terminal(l.parents[i].state) ==> m.parents[i].state == l.parents[i].state)
    && (forall j :: 0 <= j < |l.contexts| && Terminal(l.contexts[j].state) ==> Terminal(m.contexts[j].state))
  }

  // ----- replies -----

  /** Every reply built from records of the ledger is a valid, correlated receipt. */
  lemma ReplyIsValid(c: Command, v: Verb, out: Outcome, p: Option<Scope>, x: Option<Scope>, a: Option<Operation>)
    requires ValidRequest(v, c) && !ReadVerb(v)
    requires p.Some? ==> ValidState(p.value.state)
    requires x.Some? ==> c.contextId != 0 && ValidState(x.value.state) && p.Some? && ParentContext(p.value, x.value)
    requires !out.HistoryExpired?
    requires a.Some? ==> ActionShape(Action(c, a.value.(outcome := out))) && p.Some? && !p.value.state.phase.UnknownPhase?
                         && Settles(p.value.state, a.value) && (x.Some? ==> Settles(x.value.state, a.value))
                         && (v.CancelAction? ==> !out.PowerReuseBlocked? && !AdmissionRefusal(a.value.reason))
    requires a.None? ==> !out.Queued? && !out.PowerReuseBlocked?
    ensures Correlated(c, v, Reply(c, v, out, p, x, a))
  {
  }

  lemma ExpiredIsValid(c: Command, v: Verb)
    requires ValidRequest(v, c)
    ensures Correlated(c, v, BaseReply(c, v, Invalid))
    ensures !ReadVerb(v) ==> Correlated(c, v, Expired(c, v))
  {
  }

  // ----- changing scopes -----

  lemma SameRecords(l: Ledger, m: Ledger)
    requires SameShape(l, m)
    ensures forall id :: HasParent(l, id) ==> HasParent(m, id)
    ensures forall key :: HasContext(l, key) ==> HasContext(m, key)
  {
    forall id | HasParent(l, id) ensures HasParent(m, id) {
      var i :| 0 <= i < |l.parents| && l.parents[i].binding.parentId == id;
      assert m.parents[i].binding == l.parents[i].binding;
    }
    forall key | HasContext(l, key) ensures HasContext(m, key) {
      var j :| 0 <= j < |l.contexts| && ContextKey(l.contexts[j]) == key;
      assert m.contexts[j].binding == l.contexts[j].binding;
    }
  }

  /** The log, and the actions if they were at most settled, need no more than their places. */
  lemma KeptParts(l: Ledger, m: Ledger)
    requires Core(l) && SameShape(l, m)
    requires forall k :: 0 <= k < |l.actions| ==> m.actions[k] == l.actions[k] || m.actions[k] == SettleOne(l.actions[k], l.actions[k].command, true)
    ensures ActionsOk(m) && LogOk(m) && Bounded(m)
  {
    hide HasParent, HasContext, LinksOk, ContextsOk, ParentsOk, ValidCommand, Increasing;
    SameRecords(l, m);
  }

  lemma KeptContexts(l: Ledger, m: Ledger)
    requires Core(l) && SameShape(l, m) && m.contexts == l.contexts && m.context == l.context
    ensures ContextsOk(m)
  {
    hide HasParent, HasContext, LinksOk, ActionsOk, LogOk;
    SameRecords(l, m);
  }

  /** An owned record may change while it stays owned. */
  lemma PutOwned(l: Ledger, owner: bool, i: nat, s: Scope)
    requires Core(l) && Has(l, owner, i) && Owned(At(l, owner, i).state.phase)
    requires s.binding == At(l, owner, i).binding && s.actionFloor == At(l, owner, i).actionFloor
    requires s.contextFloor == At(l, owner, i).contextFloor
    requires ValidState(s.state) && Owned(s.state.phase)
    ensures Core(Put(l, owner, i, s)) && Evolves(l, Put(l, owner, i, s))
    ensures ClaimedBut(l, owner, i) ==> Claimed(Put(l, owner, i, s))
  {
    hide HasParent, HasContext, ActionShape, ActionsOk, LogOk, ContextLinks, ActionLinks, ChildLinks;
    var m := Put(l, owner, i, s);
    KeptParts(l, m);
    SameRecords(l, m);
    if owner { PutOwnedParent(l, i, s); KeptContexts(l, m); } else { PutOwnedContext(l, i, s); }
  }

  lemma PutOwnedParent(l: Ledger, i: nat, s: Scope)
    requires Core(l) && i < |l.parents| && Owned(l.parents[i].state.phase)
    requires s.binding == l.parents[i].binding && s.actionFloor == l.parents[i].actionFloor
    requires s.contextFloor == l.parents[i].contextFloor && ValidState(s.state) && Owned(s.state.phase)
    ensures ParentsOk(Put(l, true, i, s)) && LinksOk(Put(l, true, i, s))
  {
    hide HasParent, HasContext, ActionShape, ActionsOk, ContextsOk, LogOk;
    var m := Put(l, true, i, s);
    SameRecords(l, m);
    assert ContextLinks(m);
    forall i', k | 0 <= i' < |m.parents| && 0 <= k < |m.actions|
      ensures m.parents[i'].binding.parentId == m.actions[k].command.parentId ==> ParentAction(m.parents[i'], m.actions[k])
    {
      assert l.parents[i'].binding.parentId == l.actions[k].command.parentId ==> ParentAction(l.parents[i'], l.actions[k]);
    }
    assert ChildLinks(m);
  }

  lemma PutOwnedContext(l: Ledger, i: nat, s: Scope)
    requires Core(l) && i < |l.contexts| && Owned(l.contexts[i].state.phase)
    requires s.binding == l.contexts[i].binding && ValidState(s.state) && Owned(s.state.phase)
    ensures ContextsOk(l.(contexts := l.contexts[i := s])) && LinksOk(l.(contexts := l.contexts[i := s]))
  {
    hide HasParent, HasContext, ActionShape;
    SameRecords(l, l.(contexts := l.contexts[i := s]));
  }

  /** No action below the record has been entered. */
  predicate Unentered(l: Ledger, owner: bool, b: Command) {
    forall k :: 0 <= k < |l.actions| && Under(l.actions[k].command, b, owner) ==> l.actions[k].result.entry.NeverEntered?
  }

  predicate MayClose(l: Ledger, owner: bool, i: nat, s: State)
    requires Has(l, owner, i)
  {
    && !Terminal(At(l, owner, i).state) && Terminal(s) && ValidState(s) && Accepted(At(l, owner, i), s) == s
    && (s.closure.NeverBound? ==> Unentered(l, owner, At(l, owner, i).binding))
  }

  lemma CloseShape(l: Ledger, owner: bool, i: nat, s: State)
    requires Core(l) && Has(l, owner, i) && MayClose(l, owner, i, s)
    ensures Evolves(l, Apply(l, owner, i, s))
    ensures ClaimedBut(l, owner, i) ==> Claimed(Apply(l, owner, i, s))
  {
    hide HasParent, HasContext, ActionsOk, LogOk, Accepted, Unentered, ChildIsActive;
    var m := Apply(l, owner, i, s);
    if owner {
      assert forall j :: 0 <= j < |l.parents| && j != i ==> m.parents[j] == l.parents[j];
    } else {
      assert m.parents == l.parents;
    }
  }

  lemma CloseContext(l: Ledger, i: nat, s: State)
    requires Core(l) && i < |l.contexts| && MayClose(l, false, i, s)
    ensures Core(Apply(l, false, i, s))
  {
    var m := Apply(l, false, i, s);
    CloseShape(l, false, i, s);
    KeptParts(l, m);
    CloseContextParts(l, i, s);
    CloseContextLinks(l, i, s);
  }

  lemma CloseContextParts(l: Ledger, i: nat, s: State)
    requires Core(l) && i < |l.contexts| && MayClose(l, false, i, s)
    requires SameShape(l, Apply(l, false, i, s))
    ensures ContextsOk(Apply(l, false, i, s))
  {
    SameRecords(l, Apply(l, false, i, s));
  }

  lemma CloseContextLinks(l: Ledger, i: nat, s: State)
    requires Core(l) && i < |l.contexts| && MayClose(l, false, i, s)
    ensures LinksOk(Apply(l, false, i, s))
  {
    hide HasParent, HasContext, ActionShape;
  }

  lemma CloseParent(l: Ledger, i: nat, s: State)
    requires Core(l) && i < |l.parents| && MayClose(l, true, i, s)
    ensures Core(Apply(l, true, i, s))
  {
    var m := Apply(l, true, i, s);
    CloseShape(l, true, i, s);
    KeptParts(l, m);
    CloseParentParts(l, i, s);
    CloseParentLinks(l, i, s);
  }

  lemma CloseParentParts(l: Ledger, i: nat, s: State)
    requires Core(l) && i < |l.parents| && MayClose(l, true, i, s)
    requires SameShape(l, Apply(l, true, i, s))
    ensures ParentsOk(Apply(l, true, i, s)) && ContextsOk(Apply(l, true, i, s))
  {
    hide HasParent, HasContext, ActionsOk, LogOk, LinksOk, ParentsOk, ContextsOk, Unentered, Accepted;
    CloseParentRecords(l, i, s);
    CloseParentChildRecords(l, i, s);
  }

  lemma CloseParentRecords(l: Ledger, i: nat, s: State)
    requires Core(l) && i < |l.parents| && MayClose(l, true, i, s)
    requires SameShape(l, Apply(l, true, i, s))
    ensures ParentsOk(Apply(l, true, i, s))
  {
    hide HasParent, HasContext, ActionsOk, LogOk, LinksOk, ContextsOk, Unentered, Settle, CloseChildren, ChildIsActive;
    SameRecords(l, Apply(l, true, i, s));
  }

  lemma CloseParentChildRecords(l: Ledger, i: nat, s: State)
    requires Core(l) && i < |l.parents| && MayClose(l, true, i, s)
    requires SameShape(l, Apply(l, true, i, s))
    ensures ContextsOk(Apply(l, true, i, s))
  {
    hide HasParent, HasContext, ActionsOk, LogOk, ActionLinks, ChildLinks, ParentsOk, Unentered, Settle;
    SameRecords(l, Apply(l, true, i, s));
  }

  lemma CloseParentLinks(l: Ledger, i: nat, s: State)
    requires Core(l) && i < |l.parents| && MayClose(l, true, i, s)
    ensures LinksOk(Apply(l, true, i, s))
  {
    hide ParentsOk, ContextsOk, ActionsOk, LogOk, Accepted, ChildIsActive, ContextLinks, ActionLinks, ChildLinks;
    CloseParentContexts(l, i, s);
    CloseParentActions(l, i, s);
    CloseParentChildren(l, i, s);
  }

  lemma CloseParentContexts(l: Ledger, i: nat, s: State)
    requires ParentsOk(l) && ContextLinks(l) && i < |l.parents| && MayClose(l, true, i, s)
    ensures ContextLinks(Apply(l, true, i, s))
  {
    hide HasParent, Unentered, Settle, ChildIsActive;
  }

  lemma CloseParentActions(l: Ledger, i: nat, s: State)
    requires ParentsOk(l) && ActionLinks(l) && i < |l.parents| && MayClose(l, true, i, s)
    ensures ActionLinks(Apply(l, true, i, s))
  {
    hide HasParent, CloseChildren, ChildIsActive;
  }

  lemma CloseParentChildren(l: Ledger, i: nat, s: State)
    requires Core(l) && i < |l.parents| && MayClose(l, true, i, s)
    ensures ChildLinks(Apply(l, true, i, s))
  {
    hide HasParent, HasContext, ActionsOk, LogOk, Accepted, ChildIsActive;
  }

  lemma UnclaimedIsUnentered(l: Ledger, owner: bool, i: nat)
    requires Core(l) && Has(l, owner, i) && At(l, owner, i).state.phase.UnknownPhase?
    ensures Unentered(l, owner, At(l, owner, i).binding)
  {
    hide HasParent, HasContext, ActionShape;
  }

  /** A report is one the record can take: it claims nothing that history contradicts. */
  predicate MayApply(l: Ledger, owner: bool, i: nat, s: State)
    requires Has(l, owner, i)
  {
    var r := At(l, owner, i);
    Terminal(r.state) || (
      var a := Accepted(r, s);
      && !a.phase.UnknownPhase? && (Owned(r.state.phase) || Terminal(a))
      && (a.closure.NeverBound? ==> Unentered(l, owner, r.binding)))
  }

  lemma ApplyKeeps(l: Ledger, owner: bool, i: nat, s: State)
    requires Core(l) && Has(l, owner, i) && MayApply(l, owner, i, s) && ClaimedBut(l, owner, i)
    ensures Inv(Apply(l, owner, i, s)) && Evolves(l, Apply(l, owner, i, s))
  {
    hide HasParent, HasContext, ActionShape, ContextLinks, ActionLinks, ChildLinks, ActionsOk, LogOk, Unentered;
    var r := At(l, owner, i);
    var a := Accepted(r, s);
    if Terminal(r.state) {
    } else if Terminal(a) {
      assert Apply(l, owner, i, s) == Apply(l, owner, i, a);
      CloseShape(l, owner, i, a);
      if owner { CloseParent(l, i, a); } else { CloseContext(l, i, a); }
    } else {
      PutOwned(l, owner, i, Applied(r, a));
      assert Apply(l, owner, i, s) == Put(l, owner, i, Applied(r, a));
    }
  }

  lemma EvolvesSelf(l: Ledger)
    ensures Evolves(l, l)
  {
  }

  lemma EvolvesOn(l: Ledger, m: Ledger, n: Ledger)
    requires Evolves(l, m) && Evolves(m, n)
    ensures Evolves(l, n)
  {
  }

  lemma BeginStopKeeps(l: Ledger, owner: bool, i: nat)
    requires Core(l) && Has(l, owner, i) && ClaimedBut(l, owner, i)
    ensures Inv(BeginStop(l, owner, i)) && Evolves(l, BeginStop(l, owner, i))
  {
    hide HasParent, HasContext, LinksOk, ActionsOk, LogOk, Unentered, Apply, Evolves;
    var r := At(l, owner, i);
    assert ValidState(r.state) && Unused(r);
    if Terminal(r.state) {
      EvolvesSelf(l);
    } else if r.state.phase.UnknownPhase? {
      UnclaimedIsUnentered(l, owner, i);
      ApplyKeeps(l, owner, i, NEVER_BOUND);
    } else {
      PutOwned(l, owner, i, r.(stopRequested := true, revision := r.revision + 1,
                               state := r.state.(phase := Stopping, closure := NoClosure)));
    }
  }

  // ----- changing actions -----

  lemma ParentFound(l: Ledger, i: nat)
    requires ParentsOk(l) && i < |l.parents|
    ensures ParentIndex(l.parents, l.parents[i].binding.parentId) == i
  {
  }

  lemma ContextFound(l: Ledger, j: nat)
    requires ContextsOk(l) && j < |l.contexts|
    ensures ContextIndex(l.contexts, ContextKey(l.contexts[j])) == j
  {
    hide HasParent, HasContext;
  }

  /** The result fits the action and every scope it lives in. */
  predicate Fits(l: Ledger, k: nat, r: Operation)
    requires k < |l.actions|
  {
    && ActionShape(Action(l.actions[k].command, r)) && (l.actions[k].result.local.Settled? ==> r.local.Settled?)
    && (forall i :: 0 <= i < |l.parents| && l.parents[i].binding.parentId == l.actions[k].command.parentId ==>
          Settles(l.parents[i].state, r))
    && (forall j :: 0 <= j < |l.contexts| && ContextKey(l.contexts[j]) == Home(l.actions[k].command) ==>
          Settles(l.contexts[j].state, r))
  }

  function Replace(l: Ledger, k: nat, r: Operation): Ledger
    requires k < |l.actions|
  {
    l.(actions := l.actions[k := l.actions[k].(result := r)])
  }

  lemma ReplaceKeeps(l: Ledger, k: nat, r: Operation)
    requires Inv(l) && k < |l.actions| && Fits(l, k, r)
    ensures Inv(Replace(l, k, r))
    ensures Keeps(l.actions[k].result, r) ==> Evolves(l, Replace(l, k, r))
  {
    hide HasParent, HasContext, ActionShape, ActionLinks, ChildLinks, ActionsOk, Fits, Settles, ParentsOk, ContextsOk, Increasing;
    ReplaceActions(l, k, r);
    ReplaceLinks(l, k, r);
    ReplaceParts(l, k, r);
  }

  lemma ReplaceParts(l: Ledger, k: nat, r: Operation)
    requires Inv(l) && k < |l.actions|
    ensures ParentsOk(Replace(l, k, r)) && ContextsOk(Replace(l, k, r))
  {
    SameRecords(l, Replace(l, k, r));
    hide HasParent, HasContext, ActionShape, LinksOk, ActionsOk;
  }

  lemma ReplaceActions(l: Ledger, k: nat, r: Operation)
    requires Inv(l) && k < |l.actions| && Fits(l, k, r)
    ensures ActionsOk(Replace(l, k, r))
  {
    hide HasParent, HasContext, ActionShape, LinksOk, ParentsOk, ContextsOk, LogOk, Settles;
    var m := Replace(l, k, r);
    SameRecords(l, m);
    assert forall n :: 0 <= n < |l.actions| ==> m.actions[n].command == l.actions[n].command;
    assert forall n :: 0 <= n < |l.actions| && Exclusive(m.actions[n]) ==> Exclusive(l.actions[n]);
  }

  lemma ReplaceLinks(l: Ledger, k: nat, r: Operation)
    requires Inv(l) && k < |l.actions| && Fits(l, k, r)
    ensures ActionLinks(Replace(l, k, r)) && ChildLinks(Replace(l, k, r))
  {
    hide HasParent, HasContext, ActionShape, ActionsOk, ParentsOk, ContextsOk, LogOk, Settles, ContextLinks;
  }

  /** What an accepted result is worth: exactly the checks made on its receipt. */
  lemma AcceptedFits(l: Ledger, k: nat, r: Operation)
    requires Core(l) && k < |l.actions| && RecordAccepts(l, l.actions[k], r)
    ensures Fits(l, k, r) && Keeps(l.actions[k].result, r)
  {
    var c := l.actions[k].command;
    var p := ParentIndex(l.parents, c.parentId);
    assert HasParent(l, c.parentId);
    hide HasParent, HasContext, LogOk, ActionLinks, ChildLinks;
    assert ActionShape(l.actions[k]);
    assert ParentOf(l, c) == Some(l.parents[p]);
    forall i | 0 <= i < |l.parents| && l.parents[i].binding.parentId == c.parentId ensures Settles(l.parents[i].state, r) {
      ParentFound(l, i);
    }
    forall j | 0 <= j < |l.contexts| && ContextKey(l.contexts[j]) == Home(c) ensures Settles(l.contexts[j].state, r) {
      ContextFound(l, j);
      assert ContextOf(l, c) == Some(l.contexts[j]);
      assert ParentContext(l.parents[p], l.contexts[j]);
    }
  }

  lemma RecordKeeps(l: Ledger, k: nat, r: Operation)
    requires Inv(l) && k < |l.actions|
    ensures Inv(Record(l, k, r)) && Evolves(l, Record(l, k, r))
  {
    hide HasParent, HasContext, ActionShape, ContextLinks, ActionLinks, ChildLinks, LogOk, ContextsOk, RecordAccepts, Fits;
    var i := ParentIndex(l.parents, l.actions[k].command.parentId);
    if RecordAccepts(l, l.actions[k], r) {
      AcceptedFits(l, k, r);
      ReplaceKeeps(l, k, r);
    } else if i < |l.parents| && !Terminal(l.parents[i].state) {
      PutOwned(l, true, i, l.parents[i].(state := l.parents[i].state.(phase := Blocked)));
    }
  }

  lemma ObserveKeeps(l: Ledger, digest: Command, terminal: Application)
    requires Inv(l)
    ensures Inv(Observe(l, digest, terminal)) && Evolves(l, Observe(l, digest, terminal))
  {
    hide HasParent, HasContext, LogOk, ParentsOk, ContextsOk, ContextLinks;
    var k := DigestIndex(l.actions, digest);
    var m := Observe(l, digest, terminal);
    if m != l {
      assert ActionShape(l.actions[k]);
      ReplaceKeeps(l, k, l.actions[k].result.(application := terminal));
    }
  }
}
