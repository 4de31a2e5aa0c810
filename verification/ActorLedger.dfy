/** The owner-thread ledger of parents, child contexts and actions, as functions
    on a value.  A native call is a script: the controller operations it makes
    while it is on the stack, then its result.  Operations made during a native
    call never make another one, so a script is flat. */
module ActorLedger {
  import opened ActorWire
  import opened Wrappers

  const CAPACITY: nat := 256

  datatype State = State(phase: Phase, closure: Closure, mode: nat, action: nat, target: nat)

  datatype Operation = Operation(
    outcome: Outcome, entry: Entry, local: Settlement, application: Application,
    queued: bool, uncertain: bool, reason: Reason, state: State)

  datatype Scope = Scope(
    binding: Command, state: State, actionFloor: Id, contextFloor: Id,
    revision: nat, everBound: bool, stopRequested: bool)

  datatype Action = Action(command: Command, result: Operation)

  /** One call of Invoker.Submit; epoch counts producer namespaces. */
  datatype Submission = Submission(epoch: nat, parent: Id, request: Id)

  /** parent and context are the two active pointers, as the keys of their targets.
      epoch and log record what was submitted; nothing reads them. */
  datatype Ledger = Ledger(
    parents: seq<Scope>, contexts: seq<Scope>, actions: seq<Action>,
    parent: Option<Id>, context: Option<(Id, Id)>,
    space: Option<Command>, parentFloor: Id, calling: bool,
    epoch: nat, log: seq<Submission>)

  const EMPTY := Ledger([], [], [], None, None, None, 0, false, 0, [])

  datatype Op =
    | UpdateAction(command: Command, operation: Operation)
    | UpdateScope(command: Command, state: State, owner: bool)
    | ObserveApplication(digest: Command, terminal: Application)
    | NestedExecute(verb: Verb, command: Command, valid: bool)

  datatype Native<T> = Native(nested: seq<Op>, result: T)

  /** entry is the Open, Attach or Submit call of one Execute, stop its Stop call. */
  datatype Environment = Environment(entry: Native<Operation>, stop: Native<State>)

  /** memory is false when the allocator fails on insertion. */
  datatype Gate = Gate(valid: bool, live: bool, current: bool, memory: bool)

  function Only(p: Phase): State { State(p, NoClosure, 0, 0, 0) }

  const NEVER_BOUND := State(Closed, NeverBound, 0, 0, 0)

  const NOT_RUN := Operation(Unavailable, NeverEntered, Settled, NoApplication, false, false, NoReason, Only(UnknownPhase))

  predicate Terminal(s: State) { ClosedPhase(s.phase) }

  predicate ValidState(s: State) {
    && s.target <= 1
    && ((s.phase.Closed? && (s.closure.NeverBound? || s.closure.NativeStopped? || s.closure.LocalReleased?))
        || (s.phase.Retired? && s.closure.SceneRetired?)
        || (!Terminal(s) && s.closure.NoClosure?))
    && (s.closure.NativeStopped? ==> s.mode == 1 && s.target == 0)
  }

  predicate SameSpace(a: Command, b: Command) { a.window == b.window && a.host == b.host && a.grant == b.grant }

  predicate SameParent(a: Command, b: Command) {
    SameSpace(a, b) && a.parentId == b.parentId && a.parentDigest == b.parentDigest
  }

  predicate SameChild(a: Command, b: Command) {
    SameParent(a, b) && a.contextId == b.contextId && a.contextDigest == b.contextDigest
  }

  function ParentIndex(ps: seq<Scope>, id: Id): (i: nat)
    ensures i <= |ps| && (i < |ps| ==> ps[i].binding.parentId == id)
    ensures forall j :: 0 <= j < i ==> ps[j].binding.parentId != id
  {
    if ps == [] || ps[0].binding.parentId == id then 0 else 1 + ParentIndex(ps[1..], id)
  }

  function ContextKey(x: Scope): (Id, Id) { (x.binding.parentId, x.binding.contextId) }

  function ContextIndex(xs: seq<Scope>, key: (Id, Id)): (i: nat)
    ensures i <= |xs| && (i < |xs| ==> ContextKey(xs[i]) == key)
    ensures forall j :: 0 <= j < i ==> ContextKey(xs[j]) != key
  {
    if xs == [] || ContextKey(xs[0]) == key then 0 else 1 + ContextIndex(xs[1..], key)
  }

  function ActionKey(c: Command): (Id, Id) { (c.parentId, c.request) }

  function ActionIndex(acts: seq<Action>, key: (Id, Id)): (i: nat)
    ensures i <= |acts| && (i < |acts| ==> ActionKey(acts[i].command) == key)
    ensures forall j :: 0 <= j < i ==> ActionKey(acts[j].command) != key
  {
    if acts == [] || ActionKey(acts[0].command) == key then 0 else 1 + ActionIndex(acts[1..], key)
  }

  function ParentOf(l: Ledger, c: Command): Option<Scope> {
    var i := ParentIndex(l.parents, c.parentId);
    if i < |l.parents| then Some(l.parents[i]) else None
  }

  function ContextOf(l: Ledger, c: Command): Option<Scope> {
    var i := ContextIndex(l.contexts, (c.parentId, c.contextId));
    if c.contextId != 0 && i < |l.contexts| then Some(l.contexts[i]) else None
  }

  /** The reply that reports parent p, context x and action result a.  A closed
      parent speaks for its child; a closed child shows its own last observation. */
  function Reply(c: Command, v: Verb, out: Outcome, p: Option<Scope>, x: Option<Scope>, a: Option<Operation>): Receipt {
    var ps := if p.Some? then p.value.state else Only(UnknownPhase);
    var xs := if x.Some? then x.value.state else Only(UnknownPhase);
    var byOwner := Terminal(ps);
    var byChild := !byOwner && Terminal(xs);
    var shown := if byChild then xs else ps;
    var child := if byOwner && x.Some? then ps.phase else xs.phase;
    var op := if a.Some? then a.value else NOT_RUN;
    var acts := !c.action.NoAction?;
    BaseReply(c, v, out).(
      ownerPhase := ps.phase, contextPhase := child,
      mode := shown.mode, actionState := shown.action, targetPresent := shown.target,
      closure := if byOwner || byChild then shown.closure else NoClosure,
      closureScope := if byOwner then OwnerScope else if byChild then ContextScope else NoScope,
      entry := if acts then op.entry else UnknownEntry,
      local := if acts then op.local else UnknownSettlement,
      application := if acts then op.application else NoApplication,
      reason := if acts then op.reason else NoReason,
      flags := Flags(Owned(ps.phase), Owned(child), acts && op.queued, acts && op.uncertain,
                     acts && (op.application.AppPending? || op.application.AppUnknown?)))
  }

  // ----- scopes -----

  predicate Has(l: Ledger, owner: bool, i: nat) { if owner then i < |l.parents| else i < |l.contexts| }

  function At(l: Ledger, owner: bool, i: nat): Scope
    requires Has(l, owner, i)
  {
    if owner then l.parents[i] else l.contexts[i]
  }

  function Put(l: Ledger, owner: bool, i: nat, s: Scope): Ledger
    requires Has(l, owner, i)
  {
    if owner then l.(parents := l.parents[i := s]) else l.(contexts := l.contexts[i := s])
  }

  /** The active pointer of one kind after record i became owned, or not. */
  function Point(l: Ledger, owner: bool, i: nat, owned: bool): Ledger
    requires Has(l, owner, i)
  {
    if owner then
      var id := l.parents[i].binding.parentId;
      if owned then l.(parent := Some(id)) else if l.parent == Some(id) then l.(parent := None) else l
    else
      var key := ContextKey(l.contexts[i]);
      if owned then l.(context := Some(key)) else if l.context == Some(key) then l.(context := None) else l
  }

  predicate Under(a: Command, b: Command, owner: bool) { SameParent(a, b) && (owner || SameChild(a, b)) }

  function SettleOne(a: Action, b: Command, owner: bool): Action {
    if Under(a.command, b, owner) then a.(result := a.result.(local := Settled)) else a
  }

  function Settle(acts: seq<Action>, b: Command, owner: bool): seq<Action> {
    seq(|acts|, i requires 0 <= i < |acts| => SettleOne(acts[i], b, owner))
  }

  function CloseOne(x: Scope, b: Command, s: State): Scope {
    if SameParent(x.binding, b) then x.(state := s, stopRequested := false, revision := x.revision + 1) else x
  }

  function CloseChildren(xs: seq<Scope>, b: Command, s: State): seq<Scope> {
    seq(|xs|, i requires 0 <= i < |xs| => CloseOne(xs[i], b, s))
  }

  predicate ChildIsActive(xs: seq<Scope>, b: Command, active: Option<(Id, Id)>) {
    active.Some? && exists i :: 0 <= i < |xs| && SameParent(xs[i].binding, b) && ContextKey(xs[i]) == active.value
  }

  /** What a reported state is taken to mean for a record. */
  function Accepted(r: Scope, supplied: State): State {
    if !ValidState(supplied) || (r.everBound && (supplied.closure.NeverBound? || supplied.phase.UnknownPhase?))
    then Only(Blocked) else supplied
  }

  function Applied(r: Scope, s: State): Scope {
    r.(state := s, revision := r.revision + 1,
       everBound := r.everBound || Owned(s.phase) || s.closure.NativeStopped? || s.closure.LocalReleased?,
       stopRequested := r.stopRequested && !Terminal(s))
  }

  function Apply(l: Ledger, owner: bool, i: nat, supplied: State): (m: Ledger)
    requires Has(l, owner, i)
    ensures SameSize(l, m)
  {
    var r := At(l, owner, i);
    if Terminal(r.state) then l else
    var s := Accepted(r, supplied);
    var l := Point(Put(l, owner, i, Applied(r, s)), owner, i, Owned(s.phase));
    if !Terminal(s) then l else
    var l := l.(actions := Settle(l.actions, r.binding, owner));
    if !owner then l
    else l.(contexts := CloseChildren(l.contexts, r.binding, s),
            context := if ChildIsActive(l.contexts, r.binding, l.context) then None else l.context)
  }

  /** The part of stopping that precedes the native Stop call. */
  function BeginStop(l: Ledger, owner: bool, i: nat): (m: Ledger)
    requires Has(l, owner, i)
    ensures SameSize(l, m)
  {
    var r := At(l, owner, i);
    if Terminal(r.state) then l
    else if r.state.phase.UnknownPhase? then Apply(l, owner, i, NEVER_BOUND)
    else Put(l, owner, i, r.(stopRequested := true, revision := r.revision + 1,
                             state := r.state.(phase := Stopping, closure := NoClosure)))
  }

  // ----- actions -----

  predicate PendingLocal(acts: seq<Action>) { exists i :: 0 <= i < |acts| && !acts[i].result.local.Settled? }

  /** Every unsettled action is a power that has entered and is queued. */
  predicate QueryAlongsidePower(acts: seq<Action>) {
    forall i :: 0 <= i < |acts| && !acts[i].result.local.Settled? ==>
      && (acts[i].command.action.Cast? || acts[i].command.action.SelfPower?)
      && acts[i].result.entry.Entered? && acts[i].result.queued && acts[i].result.outcome.Queued?
  }

  predicate TerminalApplication(a: Application) { a.AppObserved? || a.AppInterrupted? }

  predicate RecordAccepts(l: Ledger, a: Action, result: Operation) {
    var was := a.result;
    && (was.entry.Entered? ==> result.entry.Entered?)
    && (was.uncertain ==> !result.entry.NeverEntered?)
    && (was.queued ==> result.queued) && (was.uncertain ==> result.uncertain)
    && (was.local.Settled? ==> result.local.Settled?)
    && (TerminalApplication(was.application) ==> result.application == was.application)
    && ValidReceipt(Reply(a.command, Submit, result.outcome, ParentOf(l, a.command), ContextOf(l, a.command), Some(result)))
  }

  function BlockParent(l: Ledger, i: nat): Ledger
    requires i < |l.parents|
  {
    l.(parents := l.parents[i := l.parents[i].(state := l.parents[i].state.(phase := Blocked))])
  }

  function Record(l: Ledger, k: nat, result: Operation): (m: Ledger)
    requires k < |l.actions|
    ensures SameSize(l, m)
  {
    if RecordAccepts(l, l.actions[k], result) then l.(actions := l.actions[k := l.actions[k].(result := result)])
    else
      var i := ParentIndex(l.parents, l.actions[k].command.parentId);
      if i < |l.parents| && !Terminal(l.parents[i].state) then BlockParent(l, i) else l
  }

  function DigestIndex(acts: seq<Action>, digest: Command): (i: nat)
    ensures i <= |acts| && (i < |acts| ==> acts[i].command == digest)
  {
    if acts == [] || (acts[0].command == digest && ValidCommand(digest)) then 0 else 1 + DigestIndex(acts[1..], digest)
  }

  function Observe(l: Ledger, digest: Command, terminal: Application): Ledger {
    var k := DigestIndex(l.actions, digest);
    if !TerminalApplication(terminal) || k == |l.actions| then l else
    var r := l.actions[k].result;
    if r.application.NoApplication? || TerminalApplication(r.application)
       || (terminal.AppInterrupted? && !(r.entry.Entered? && r.queued)) then l
    else l.(actions := l.actions[k := l.actions[k].(result := r.(application := terminal))])
  }

  // ----- operations that never call out -----

  function ReportScope(l: Ledger, c: Command, s: State, owner: bool): Ledger {
    var i := if owner then ParentIndex(l.parents, c.parentId) else ContextIndex(l.contexts, (c.parentId, c.contextId));
    if Has(l, owner, i) && Under(At(l, owner, i).binding, c, owner) then Apply(l, owner, i, s) else l
  }

  function ReportAction(l: Ledger, c: Command, result: Operation): Ledger {
    var k := ActionIndex(l.actions, ActionKey(c));
    if k < |l.actions| && l.actions[k].command == c then Record(l, k, result) else l
  }

  predicate Mismatched(l: Ledger, c: Command) {
    var p, x := ParentOf(l, c), ContextOf(l, c);
    (p.Some? && !SameParent(p.value.binding, c)) || (x.Some? && !SameChild(x.value.binding, c))
  }

  predicate Known(l: Ledger, c: Command) { l.space.Some? && SameSpace(l.space.value, c) }

  /** The retained result of exactly this command. */
  function ResultOf(l: Ledger, c: Command): Option<Operation> {
    var k := ActionIndex(l.actions, ActionKey(c));
    if k < |l.actions| && l.actions[k].command == c then Some(l.actions[k].result) else None
  }

  /** Execute while a native call is on the stack: it may only request a stop. */
  function ExecuteNested(l: Ledger, v: Verb, c: Command, valid: bool): (Ledger, Receipt) {
    if !valid || !ValidRequest(v, c) || ReadVerb(v) then (l, BaseReply(c, v, Invalid))
    else if !Known(l, c) then (l, Expired(c, v))
    else if Mismatched(l, c) then (l, Reply(c, v, Invalid, ParentOf(l, c), ContextOf(l, c), None))
    else
      var m := RequestStop(l, v, c);
      (m, Reply(c, v, Pending, ParentOf(m, c), ContextOf(m, c), if ActionVerb(v) then ResultOf(m, c) else None))
  }

  function RequestStop(l: Ledger, v: Verb, c: Command): Ledger {
    var p := ParentIndex(l.parents, c.parentId);
    var x := ContextIndex(l.contexts, (c.parentId, c.contextId));
    var r := ResultOf(l, c);
    if v.StopOwner? && p < |l.parents| then BeginStop(l, true, p)
    else if v.StopContext? && x < |l.contexts| then BeginStop(l, false, x)
    else if v.CancelAction? && p < |l.parents| && r.Some? && !r.value.entry.NeverEntered? then
      if ContextOf(l, c).Some? then BeginStop(l, false, x) else BeginStop(l, true, p)
    else l
  }

  function Nested(l: Ledger, op: Op): (m: Ledger)
    ensures SameSize(l, m)
  {
    match op
    case UpdateAction(c, r) => ReportAction(l, c, r)
    case UpdateScope(c, s, owner) => ReportScope(l, c, s, owner)
    case ObserveApplication(d, t) => Observe(l, d, t)
    case NestedExecute(v, c, valid) => ExecuteNested(l, v, c, valid).0
  }

  predicate SameSize(l: Ledger, m: Ledger) {
    |m.parents| == |l.parents| && |m.contexts| == |l.contexts| && |m.actions| == |l.actions| && m.calling == l.calling
  }

  /** The records keep their places and identities; only their contents change. */
  predicate SameShape(l: Ledger, m: Ledger) {
    && |m.parents| == |l.parents| && |m.contexts| == |l.contexts| && |m.actions| == |l.actions|
    && (forall i :: 0 <= i < |l.parents| ==>
          m.parents[i].binding == l.parents[i].binding && m.parents[i].actionFloor == l.parents[i].actionFloor
          && m.parents[i].contextFloor == l.parents[i].contextFloor)
    && (forall i :: 0 <= i < |l.contexts| ==> m.contexts[i].binding == l.contexts[i].binding)
    && (forall i :: 0 <= i < |l.actions| ==> m.actions[i].command == l.actions[i].command)
    && m.space == l.space && m.parentFloor == l.parentFloor && m.epoch == l.epoch && m.log == l.log
  }

  function RunNested(l: Ledger, ops: seq<Op>): (m: Ledger)
    ensures SameSize(l, m)
    decreases ops
  {
    if ops == [] then l else RunNested(Nested(l, ops[0]), ops[1..])
  }

  function Call(l: Ledger, ops: seq<Op>): (m: Ledger)
    requires !l.calling
    ensures SameSize(l, m)
  {
    RunNested(l.(calling := true), ops).(calling := false)
  }

  // ----- Execute outside native calls -----

  /** Stop with its native call; a report made during the call wins over its result. */
  function StopScope(l: Ledger, owner: bool, i: nat, stop: Native<State>): (m: Ledger)
    requires Has(l, owner, i) && !l.calling
    ensures SameSize(l, m)
  {
    var r := At(l, owner, i);
    if Terminal(r.state) || r.state.phase.UnknownPhase? then BeginStop(l, owner, i) else
    var l := BeginStop(l, owner, i);
    var m := Call(l, stop.nested);
    if At(m, owner, i).revision == At(l, owner, i).revision then Apply(m, owner, i, stop.result) else m
  }

  predicate Busy(l: Ledger) { l.parent.Some? || l.context.Some? || l.calling || PendingLocal(l.actions) }

  function FirstSettled(acts: seq<Action>): (i: nat)
    ensures i <= |acts| && (i < |acts| ==> acts[i].result.local.Settled?)
    ensures forall j :: 0 <= j < i ==> !acts[j].result.local.Settled?
  {
    if acts == [] || acts[0].result.local.Settled? then 0 else 1 + FirstSettled(acts[1..])
  }

  function PruneActions(acts: seq<Action>): seq<Action> {
    var i := FirstSettled(acts);
    if |acts| < CAPACITY || i == |acts| then acts else PruneActions(acts[..i] + acts[i + 1..])
  }

  /** The oldest closed record that is not the active one; a parent's key has no context part. */
  function FirstClosed(ss: seq<Scope>, active: Option<(Id, Id)>): (i: nat)
    ensures i <= |ss| && (i < |ss| ==> Terminal(ss[i].state) && active != Some(ContextKey(ss[i])))
    ensures forall j :: 0 <= j < i ==> !Terminal(ss[j].state) || active == Some(ContextKey(ss[j]))
  {
    if ss == [] || (Terminal(ss[0].state) && active != Some(ContextKey(ss[0]))) then 0
    else 1 + FirstClosed(ss[1..], active)
  }

  function ParentKey(l: Ledger): Option<(Id, Id)> { if l.parent.Some? then Some((l.parent.value, 0)) else None }

  function DropActions(acts: seq<Action>, b: Command, owner: bool): (r: seq<Action>)
    ensures |r| <= |acts|
    ensures forall a :: a in r <==> a in acts && !(Under(a.command, b, owner) && a.result.local.Settled?)
  {
    if acts == [] then []
    else
      var rest := DropActions(acts[1..], b, owner);
      if Under(acts[0].command, b, owner) && acts[0].result.local.Settled? then rest else [acts[0]] + rest
  }

  function DropContexts(xs: seq<Scope>, b: Command): (r: seq<Scope>)
    ensures |r| <= |xs|
    ensures forall x :: x in r <==> x in xs && !(SameParent(x.binding, b) && Terminal(x.state))
  {
    if xs == [] then []
    else
      var rest := DropContexts(xs[1..], b);
      if SameParent(xs[0].binding, b) && Terminal(xs[0].state) then rest else [xs[0]] + rest
  }

  function PruneContexts(l: Ledger): (m: Ledger)
    ensures m.calling == l.calling && m.space == l.space
    decreases |l.contexts|
  {
    var i := FirstClosed(l.contexts, l.context);
    if |l.contexts| < CAPACITY || i == |l.contexts| then l
    else PruneContexts(l.(actions := DropActions(l.actions, l.contexts[i].binding, false),
                          contexts := l.contexts[..i] + l.contexts[i + 1..]))
  }

  function PruneParents(l: Ledger): (m: Ledger)
    ensures m.calling == l.calling && m.space == l.space
    decreases |l.parents|
  {
    var i := FirstClosed(l.parents, ParentKey(l));
    if |l.parents| < CAPACITY || i == |l.parents| then l
    else
      var b := l.parents[i].binding;
      PruneParents(l.(actions := DropActions(l.actions, b, true), contexts := DropContexts(l.contexts, b),
                      parents := l.parents[..i] + l.parents[i + 1..]))
  }

  function Prune(l: Ledger): Ledger { PruneParents(PruneContexts(l.(actions := PruneActions(l.actions)))) }

  function Replay(l: Ledger, v: Verb, c: Command, k: nat, env: Environment): (r: (Ledger, Receipt))
    requires k < |l.actions| && !l.calling
    ensures !r.0.calling
  {
    var p, x := ParentIndex(l.parents, c.parentId), ContextIndex(l.contexts, (c.parentId, c.contextId));
    if l.actions[k].command != c then (l, Reply(c, v, Invalid, ParentOf(l, c), ContextOf(l, c), None))
    else if p == |l.parents| || (c.contextId != 0 && x == |l.contexts|) then (l, Expired(c, v))
    else
      var m :=
        if v.CancelAction? && !l.actions[k].result.entry.NeverEntered? then
          if c.contextId != 0 then StopScope(l, false, x, env.stop) else StopScope(l, true, p, env.stop)
        else l;
      var r := m.actions[k].result;
      var cancelled := v.CancelAction? && (r.outcome.PowerReuseBlocked? || AdmissionRefusal(r.reason));
      var out := if cancelled then Cancelled else r.outcome;
      (m, Reply(c, v, out, ParentOf(m, c), ContextOf(m, c), Some(if out.Cancelled? then r.(reason := NoReason) else r)))
  }

  function Outward(s: State): Outcome { if Terminal(s) then ClosedOutcome else Pending }

  /** The state taken from Open or Attach when nothing was reported during the call. */
  function Answered(s: State): State { if s.phase.UnknownPhase? then NEVER_BOUND else s }

  /** Claim record i, make the Open or Attach call, and honour a stop requested meanwhile. */
  function Claim(l: Ledger, owner: bool, i: nat, env: Environment): (m: Ledger)
    requires Has(l, owner, i) && !l.calling
    ensures SameSize(l, m)
  {
    var l := Point(Put(l, owner, i, At(l, owner, i).(state := Only(Blocked))), owner, i, true);
    var m := Call(l, env.entry.nested);
    var m := if At(m, owner, i).revision == At(l, owner, i).revision
             then Apply(m, owner, i, Answered(env.entry.result.state)) else m;
    if At(m, owner, i).stopRequested then StopScope(m, owner, i, env.stop) else m
  }

  function OwnerStep(l: Ledger, v: Verb, c: Command, i: nat, live: bool, env: Environment): (r: (Ledger, Receipt))
    requires i < |l.parents| && !l.calling && OwnerVerb(v)
    ensures !r.0.calling
  {
    var s := l.parents[i].state;
    if v.OwnerStatus? then
      (l, Reply(c, v, if Terminal(s) then ClosedOutcome else Observed, Some(l.parents[i]), None, None))
    else if v.StopOwner? then
      var m := StopScope(l, true, i, env.stop);
      (m, Reply(c, v, Outward(m.parents[i].state), Some(m.parents[i]), None, None))
    else if Terminal(s) then (l, Reply(c, v, ClosedOutcome, Some(l.parents[i]), None, None))
    else if Owned(s.phase) then
      (l, Reply(c, v, if s.phase.Bound? then BoundOutcome else Pending, Some(l.parents[i]), None, None))
    else if l.parent.Some? || PendingLocal(l.actions) || !live then
      var m := Apply(l, true, i, NEVER_BOUND);
      (m, Reply(c, v, Unavailable, Some(m.parents[i]), None, None))
    else
      var m := Claim(l, true, i, env);
      (m, Reply(c, v, env.entry.result.outcome, Some(m.parents[i]), None, None))
  }

  function ContextStep(l: Ledger, v: Verb, c: Command, p: nat, i: nat, live: bool, env: Environment): (r: (Ledger, Receipt))
    requires p < |l.parents| && i < |l.contexts| && !l.calling && ContextVerb(v)
    ensures !r.0.calling
  {
    var s := l.contexts[i].state;
    if v.ContextStatus? then
      (l, Reply(c, v, if Terminal(s) then ClosedOutcome else Observed, Some(l.parents[p]), Some(l.contexts[i]), None))
    else if v.StopContext? then
      var m := StopScope(l, false, i, env.stop);
      (m, Reply(c, v, Outward(m.contexts[i].state), Some(m.parents[p]), Some(m.contexts[i]), None))
    else if Terminal(s) then (l, Reply(c, v, ClosedOutcome, Some(l.parents[p]), Some(l.contexts[i]), None))
    else if Owned(s.phase) then
      (l, Reply(c, v, if s.phase.Bound? then BoundOutcome else Pending, Some(l.parents[p]), Some(l.contexts[i]), None))
    else if l.context.Some? || l.parent != Some(l.parents[p].binding.parentId) || !l.parents[p].state.phase.Bound?
            || PendingLocal(l.actions) || !live then
      var m := Apply(l, false, i, NEVER_BOUND);
      (m, Reply(c, v, Unavailable, Some(m.parents[p]), Some(m.contexts[i]), None))
    else
      var m := Claim(l, false, i, env);
      (m, Reply(c, v, env.entry.result.outcome, Some(m.parents[p]), Some(m.contexts[i]), None))
  }

  predicate ContextAllowsEntry(l: Ledger) {
    l.context.Some? ==>
      var i := ContextIndex(l.contexts, l.context.value);
      i < |l.contexts| && l.contexts[i].state.phase.Bound? && !l.contexts[i].stopRequested
  }

  /** Whether a fresh submission may enter native code; x is |contexts| when it names no context. */
  predicate MayEnter(l: Ledger, c: Command, p: nat, x: nat, live: bool)
    requires p < |l.parents|
  {
    && live && l.parent == Some(l.parents[p].binding.parentId) && l.parents[p].state.phase.Bound?
    && (x < |l.contexts| ==> l.context == Some(ContextKey(l.contexts[x])) && l.contexts[x].state.phase.Bound?)
    && ContextAllowsEntry(l)
    && (!PendingLocal(l.actions) || (c.action.Track? && QueryAlongsidePower(l.actions)) || c.action.GroupChat?)
  }

  predicate ScopesTerminal(l: Ledger, p: nat, x: nat)
    requires p < |l.parents|
  {
    Terminal(l.parents[p].state) || (x < |l.contexts| && Terminal(l.contexts[x].state))
  }

  function SettleLast(l: Ledger, k: nat): Ledger
    requires k < |l.actions|
  {
    l.(actions := l.actions[k := l.actions[k].(result := l.actions[k].result.(local := Settled))])
  }

  const ENTERING := Operation(Uncertain, UnknownEntry, PendingSettlement, NoApplication, false, false, NoReason, Only(UnknownPhase))

  /** The ledger when Submit has returned, before its result is recorded. */
  function Submitted(l: Ledger, c: Command, env: Environment): (m: Ledger)
    requires !l.calling
    ensures |m.actions| == |l.actions| + 1 && |m.parents| == |l.parents| && |m.contexts| == |l.contexts| && !m.calling
  {
    var l := l.(actions := l.actions + [Action(c, ENTERING)],
                log := l.log + [Submission(l.epoch, c.parentId, c.request)]);
    Call(l, env.entry.nested)
  }

  function SubmitResult(m: Ledger, p: nat, x: nat, result: Operation): Operation
    requires p < |m.parents|
  {
    if ScopesTerminal(m, p, x) then result.(local := Settled) else result
  }

  /** The result of Submit recorded for the last action; a scope that closed meanwhile settles it. */
  function Recorded(m: Ledger, p: nat, x: nat, returned: Operation): (n: Ledger)
    requires p < |m.parents| && m.actions != []
    ensures SameSize(m, n)
  {
    var k, result := |m.actions| - 1, SubmitResult(m, p, x, returned);
    var n := Record(m, k, result);
    var n := if RecordAccepts(m, m.actions[k], result) then n else BlockParent(n, p);
    if ScopesTerminal(n, p, x) then SettleLast(n, k) else n
  }

  /** Record the result of Submit and honour a stop requested meanwhile. */
  function Returned(m: Ledger, p: nat, x: nat, env: Environment): (n: Ledger)
    requires p < |m.parents| && x <= |m.contexts| && m.actions != [] && !m.calling
    ensures SameSize(m, n)
  {
    var n := Recorded(m, p, x, env.entry.result);
    if n.parents[p].stopRequested then StopScope(n, true, p, env.stop)
    else if x < |n.contexts| && n.contexts[x].stopRequested then StopScope(n, false, x, env.stop)
    else n
  }

  function ActionStep(l: Ledger, v: Verb, c: Command, p: nat, x: nat, gate: Gate, env: Environment): (r: (Ledger, Receipt))
    requires p < |l.parents| && x <= |l.contexts| && !l.calling && ActionVerb(v)
    ensures !r.0.calling
  {
    if c.request <= l.parents[p].actionFloor then (l, Expired(c, v)) else
    var l := l.(parents := l.parents[p := l.parents[p].(actionFloor := c.request)]);
    var xs := if x < |l.contexts| then Some(l.contexts[x]) else None;
    if |l.actions| >= CAPACITY || !gate.memory then (l, Reply(c, v, Exhausted, Some(l.parents[p]), xs, None)) else
    var k := |l.actions|;
    var m :=
      if !v.CancelAction? && MayEnter(l, c, p, x, gate.live) then Returned(Submitted(l, c, env), p, x, env)
      else l.(actions := l.actions + [Action(c, NOT_RUN.(outcome := if v.CancelAction? then Cancelled else Deferred))]);
    var r := m.actions[k].result;
    (m, Reply(c, v, r.outcome, Some(m.parents[p]), if x < |m.contexts| then Some(m.contexts[x]) else None, Some(r)))
  }

  function Fresh(c: Command): Scope { Scope(c, Only(UnknownPhase), 0, 0, 0, false, false) }

  function ChildStep(l: Ledger, v: Verb, c: Command, p: nat, gate: Gate, env: Environment): (r: (Ledger, Receipt))
    requires p < |l.parents| && !l.calling && !OwnerVerb(v) && !ReadVerb(v) && (ContextVerb(v) ==> c.contextId != 0)
    ensures !r.0.calling
  {
    var x := ContextIndex(l.contexts, (c.parentId, c.contextId));
    if c.contextId == 0 then ActionStep(l, v, c, p, |l.contexts|, gate, env)
    else if x < |l.contexts| then
      if ContextVerb(v) then ContextStep(l, v, c, p, x, gate.live, env) else ActionStep(l, v, c, p, x, gate, env)
    else if Terminal(l.parents[p].state) || !(v.AttachContext? || v.StopContext?)
            || c.contextId <= l.parents[p].contextFloor || !gate.current then (l, Expired(c, v))
    else
      var l := l.(parents := l.parents[p := l.parents[p].(contextFloor := c.contextId)]);
      if !gate.memory then (l, Expired(c, v))
      else ContextStep(l.(contexts := l.contexts + [Fresh(c)]), v, c, p, |l.contexts|, gate.live, env)
  }

  function Dispatch(l: Ledger, v: Verb, c: Command, gate: Gate, env: Environment): (r: (Ledger, Receipt))
    requires !l.calling && ValidRequest(v, c) && !ReadVerb(v)
    ensures !r.0.calling
  {
    var p, k := ParentIndex(l.parents, c.parentId), ActionIndex(l.actions, ActionKey(c));
    if Mismatched(l, c) then (l, Reply(c, v, Invalid, ParentOf(l, c), ContextOf(l, c), None))
    else if ActionVerb(v) && k < |l.actions| then Replay(l, v, c, k, env)
    else if v.ActionStatus? then (l, Expired(c, v))
    else if p < |l.parents| then
      if OwnerVerb(v) then OwnerStep(l, v, c, p, gate.live, env) else ChildStep(l, v, c, p, gate, env)
    else if !(v.OpenOwner? || v.StopOwner?) || c.parentId <= l.parentFloor || !gate.current then (l, Expired(c, v))
    else
      var l := l.(parentFloor := c.parentId);
      if !gate.memory then (l, Expired(c, v))
      else OwnerStep(l.(parents := l.parents + [Fresh(c)]), v, c, |l.parents|, gate.live, env)
  }

  function Reset(l: Ledger, c: Command): Ledger {
    Ledger([], [], [], None, None, Some(c), 0, l.calling, l.epoch + 1, l.log)
  }

  function Execute(l: Ledger, v: Verb, c: Command, gate: Gate, env: Environment): (r: (Ledger, Receipt))
    requires !l.calling
    ensures !r.0.calling
  {
    if !gate.valid || !ValidRequest(v, c) || ReadVerb(v) then (l, BaseReply(c, v, Invalid))
    else if !Known(l, c) && (!gate.current || !(v.OpenOwner? || v.StopOwner?) || Busy(l)) then (l, Expired(c, v))
    else Dispatch(Prune(if Known(l, c) then l else Reset(l, c)), v, c, gate, env)
  }
}
