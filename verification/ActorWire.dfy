/** The actor-action wire contract: commands, receipts and the predicates that
    say which of them are well formed.  Identifiers are naturals (the program
    compares sixteen big-endian bytes, which is numeric order) and zero stands
    for the all-zero value.  A command digest is the command itself: the digest
    is treated as an injective, never-zero function. */
module ActorWire {
  import opened Wrappers

  type Id = nat
  type Digest = nat

  const UINT32_MAX: nat := 0xffff_ffff
  const NO_SELECTOR: nat := UINT32_MAX

  datatype Verb =
    | OpenOwner | AttachContext | Submit | ActionStatus | CancelAction | ContextStatus
    | StopContext | OwnerStatus | StopOwner | ObserveActor | RegisterSelectors

  datatype ActionKind = NoAction | Attack | Cast | SelfPower | UseItem | Track | GroupChat

  datatype Recipient = NoRecipient | ToActor | ToTarget

  datatype Outcome =
    | Observed | Queued | Stale | Unavailable | Invalid | Pending | Uncertain | Exhausted
    | ClosedOutcome | Rejected | BoundOutcome | Cancelled | Deferred | HistoryExpired | PowerReuseBlocked

  datatype Phase = UnknownPhase | Bound | Stopping | Closed | Retired | Blocked

  datatype Entry = UnknownEntry | NeverEntered | Entered

  datatype Settlement = UnknownSettlement | PendingSettlement | Settled

  datatype Application = NoApplication | AppPending | AppObserved | AppUnknown | AppInterrupted

  datatype Closure = NoClosure | NeverBound | NativeStopped | SceneRetired | ExpiredClosure | LocalReleased

  datatype ClosureScope = NoScope | OwnerScope | ContextScope

  datatype Reason =
    | NoReason | PowerReuse | Recovery | Initiation | Stance | Observation | Item
    | TargetOccupied | LocalAction | NativeUse | ChildCleanup | AdmissionChanged | ManualActivity

  datatype Host = Host(process: nat, generation: nat, creation: nat)

  /** worker and operation are the two zero-padded 96-byte text fields of the token. */
  datatype Grant = Grant(generation: nat, scene: nat, owner: nat, reserved: nat, worker: string, operation: string)

  datatype Chat = Chat(group: Digest, length: nat, text: seq<nat>)

  datatype Command = Command(
    host: Host, window: nat, grant: Grant,
    request: Id, parentId: Id, contextId: Id, parentDigest: Digest, contextDigest: Digest,
    action: ActionKind, powerId: nat, itemKey: (nat, nat), templateKey: (nat, nat), itemHint: nat,
    recipient: Recipient, templateHint: nat, selectorIndex: nat,
    manifestDigest: Digest, publicationRevision: nat, snapshotId: Id, version: nat, chat: Chat)

  datatype Flags = Flags(ownerCleanup: bool, contextCleanup: bool, queued: bool, uncertain: bool, applicationPending: bool)

  const NO_FLAGS := Flags(false, false, false, false, false)

  datatype Receipt = Receipt(
    request: Id, host: Host, window: nat, outcome: Outcome, flags: Flags, grant: Grant,
    parentId: Id, contextId: Id, commandDigest: Option<Command>, version: nat,
    verb: Verb, action: ActionKind, entry: Entry, local: Settlement,
    ownerPhase: Phase, contextPhase: Phase, closure: Closure, application: Application,
    mode: nat, actionState: nat, targetPresent: nat, reason: Reason, closureScope: ClosureScope)

  const ZERO_GRANT := Grant(0, 0, 0, 0, "", "")

  predicate ValidHost(h: Host) {
    0 < h.process <= 0x7fff_ffff && 0 < h.generation <= 0x7fff_ffff && h.creation != 0
  }

  predicate Text(value: string, required: bool) {
    |value| <= 95 && (required ==> value != "") && forall i :: 0 <= i < |value| ==> ' ' <= value[i] <= '~'
  }

  /** A zero grant, or (only with a parent) a decodable grant owned by automation. */
  predicate ValidGrant(g: Grant, parent: bool) {
    g == ZERO_GRANT
    || (parent && g.generation != 0 && g.reserved == 0 && g.scene != 0 && g.owner == 1
        && Text(g.worker, true) && Text(g.operation, true))
  }

  predicate Address(value: nat) {
    0x10000 <= value <= 0x7fff0000 - 4 && value % 4 == 0
  }

  predicate Owned(p: Phase) { p.Bound? || p.Stopping? || p.Blocked? }

  predicate ClosedPhase(p: Phase) { p.Closed? || p.Retired? }

  predicate ActionVerb(v: Verb) { v.Submit? || v.ActionStatus? || v.CancelAction? }

  predicate ReadVerb(v: Verb) { v.ObserveActor? || v.RegisterSelectors? }

  predicate ContextVerb(v: Verb) { v.AttachContext? || v.ContextStatus? || v.StopContext? }

  predicate OwnerVerb(v: Verb) { v.OpenOwner? || v.OwnerStatus? || v.StopOwner? }

  /** The reasons numbered target_occupied and above: typed refusals at admission. */
  predicate AdmissionRefusal(r: Reason) {
    r.TargetOccupied? || r.LocalAction? || r.NativeUse? || r.ChildCleanup? || r.AdmissionChanged? || r.ManualActivity?
  }

  predicate ChatCharacter(ch: nat) {
    32 <= ch <= 126 && ch != '/' as nat && ch != '\\' as nat && ch != '^' as nat && ch != '<' as nat && ch != '>' as nat
  }

  predicate ValidChat(c: Command) {
    if !c.action.GroupChat? then
      c.chat.group == 0 && c.chat.length == 0 && forall i :: 0 <= i < |c.chat.text| ==> c.chat.text[i] == 0
    else
      && |c.chat.text| == 88 && c.chat.group != 0 && 0 < c.chat.length <= 88
      && forall i :: 0 <= i < 88 ==> if i < c.chat.length then ChatCharacter(c.chat.text[i]) else c.chat.text[i] == 0
  }

  function RecipientOf(a: ActionKind): Recipient {
    if a.NoAction? then NoRecipient
    else if a.SelfPower? || a.UseItem? || a.Track? || a.GroupChat? then ToActor
    else ToTarget
  }

  /** The item and power operands a command carries, by kind of action. */
  predicate ValidOperands(c: Command) {
    && (if c.action.UseItem? then
          && c.itemKey.0 != 0 && c.itemKey.1 != 0 && c.templateKey.0 != 0 && c.templateKey.1 == 0
          && Address(c.itemHint) && Address(c.templateHint) && c.itemHint != c.templateHint
        else
          c.itemKey == (0, 0) && c.templateKey == (0, 0) && c.itemHint == 0 && c.templateHint == 0)
    && (c.powerId != 0) == (c.action.Cast? || c.action.SelfPower? || c.action.Track?)
    && c.recipient == RecipientOf(c.action)
  }

  predicate ValidCommand(c: Command) {
    var parent, context, selected := c.parentId != 0, c.contextId != 0, c.selectorIndex != NO_SELECTOR;
    && c.version == 3 && ValidChat(c) && ValidHost(c.host) && 0 < c.window <= UINT32_MAX && c.request != 0
    && parent == (c.parentDigest != 0) && context == (c.contextDigest != 0)
    && (context ==> parent && c.grant != ZERO_GRANT) && ValidGrant(c.grant, parent)
    && selected == (c.manifestDigest != 0) && (selected ==> c.selectorIndex < 32)
    && (!selected ==> c.publicationRevision == 0 && c.snapshotId == 0)
    && (c.publicationRevision != 0) == (c.snapshotId != 0)
    && ValidOperands(c)
    && (c.recipient.ToTarget? ==> context) && (c.action.UseItem? ==> !context)
    && (c.action.Track? || c.action.GroupChat? ==> !context && !selected)
    && (!c.action.NoAction? ==> parent)
    && ((c.action.SelfPower? || c.action.UseItem?) && !context ==> selected && c.publicationRevision != 0)
  }

  predicate ValidRequest(v: Verb, c: Command) {
    && ValidCommand(c) && ActionVerb(v) == !c.action.NoAction?
    && (c.action.Track? || c.action.GroupChat? ==> !v.CancelAction?)
    && (if ReadVerb(v) then
          c.parentId == 0 && c.grant == ZERO_GRANT && (v.RegisterSelectors? ==> c.selectorIndex != NO_SELECTOR)
        else c.parentId != 0)
    && (ContextVerb(v) ==> c.contextId != 0) && (OwnerVerb(v) ==> c.contextId == 0)
  }

  /** Identity, shape and phase clauses of a receipt. */
  predicate ValidShape(r: Receipt) {
    var parent, context := r.parentId != 0, r.contextId != 0;
    && (context ==> r.grant != ZERO_GRANT)
    && r.version == 3 && ValidHost(r.host) && 0 < r.window <= UINT32_MAX && r.request != 0
    && r.commandDigest.Some? && r.targetPresent <= 1 && ValidGrant(r.grant, parent)
    && ActionVerb(r.verb) == !r.action.NoAction?
    && r.flags.ownerCleanup == Owned(r.ownerPhase) && r.flags.contextCleanup == Owned(r.contextPhase)
    && (if parent then !ReadVerb(r.verb) else !context && r.ownerPhase.UnknownPhase? && ReadVerb(r.verb))
    && (r.action.Attack? || r.action.Cast? ==> context)
    && (r.action.UseItem? || r.action.Track? || r.action.GroupChat? ==> !context)
    && (r.action.Track? || r.action.GroupChat? ==> !r.verb.CancelAction?)
    && (!context ==> r.contextPhase.UnknownPhase?) && (ContextVerb(r.verb) ==> context) && (OwnerVerb(r.verb) ==> !context)
    && (Owned(r.contextPhase) ==> Owned(r.ownerPhase))
  }

  /** What a receipt may claim about the action's entry, history and application. */
  predicate ValidEvidence(r: Receipt) {
    var history := r.flags.queued || r.flags.uncertain;
    && (r.action.NoAction? ==> !history && r.entry.UnknownEntry? && r.local.UnknownSettlement?)
    && (r.flags.queued ==> r.entry.Entered?)
    && (r.entry.NeverEntered? ==> !history && r.application.NoApplication? && r.local.Settled?)
    && (r.outcome.Queued? ==> r.flags.queued)
    && r.flags.applicationPending == (r.application.AppPending? || r.application.AppUnknown?)
    && (r.application.AppInterrupted? ==> r.entry.Entered? && r.flags.queued)
    && (!r.application.NoApplication? ==> r.action.Cast? || r.action.SelfPower? || r.action.UseItem?)
  }

  /** What a receipt may claim about a closed or expired scope. */
  predicate ValidClosure(r: Receipt) {
    var phase := if r.closureScope.OwnerScope? then r.ownerPhase else r.contextPhase;
    && r.outcome.HistoryExpired? == r.closure.ExpiredClosure?
    && (r.closureScope.ContextScope? ==> !ClosedPhase(r.ownerPhase))
    && (r.closureScope.OwnerScope? && ClosedPhase(r.contextPhase) ==> r.contextPhase == r.ownerPhase)
    && (r.closure.ExpiredClosure? ==> r.closureScope.NoScope?)
    && (if r.closure.NoClosure? then
          r.closureScope.NoScope? && !ClosedPhase(r.ownerPhase) && !ClosedPhase(r.contextPhase)
        else if r.closure.ExpiredClosure? then
          && r.flags == NO_FLAGS && r.entry.UnknownEntry? && r.ownerPhase.UnknownPhase?
          && r.contextPhase.UnknownPhase? && r.local.UnknownSettlement?
        else
          && !r.closureScope.NoScope? && phase == (if r.closure.SceneRetired? then Retired else Closed)
          && (r.closureScope.ContextScope? ==> r.contextId != 0)
          && (r.closure.NativeStopped? ==> r.mode == 1 && r.targetPresent == 0)
          && (r.closure.NeverBound? ==> !r.entry.Entered?)
          && (!r.action.NoAction? ==> r.local.Settled?)
          && (r.closure.NeverBound? && !r.action.NoAction? ==> r.entry.NeverEntered?))
  }

  /** Refusals: they happened before entry, and their reason matches their outcome. */
  predicate ValidRefusal(r: Receipt) {
    var history := r.flags.queued || r.flags.uncertain;
    var unentered := r.entry.NeverEntered? && r.local.Settled? && !history;
    && ((r.outcome.Deferred? || r.outcome.Cancelled? || r.outcome.PowerReuseBlocked?) && !r.action.NoAction? ==> unentered)
    && (if r.outcome.PowerReuseBlocked? then
          && (r.action.Cast? || r.action.SelfPower?) && (r.verb.Submit? || r.verb.ActionStatus?)
          && r.reason.PowerReuse? && !r.ownerPhase.UnknownPhase?
        else !r.reason.PowerReuse?)
    && (AdmissionRefusal(r.reason) ==>
          && (r.verb.Submit? || r.verb.ActionStatus?) && !r.action.NoAction? && unentered
          && r.application.NoApplication? && r.outcome.Deferred?)
  }

  predicate ValidReceipt(r: Receipt) {
    ValidShape(r) && ValidEvidence(r) && ValidClosure(r) && ValidRefusal(r)
  }

  predicate Correlated(c: Command, v: Verb, r: Receipt) {
    && ValidRequest(v, c) && ValidReceipt(r) && r.commandDigest == Some(c) && r.request == c.request
    && r.parentId == c.parentId && r.contextId == c.contextId && r.action == c.action && r.verb == v
    && r.window == c.window && r.host == c.host && r.grant == c.grant
  }

  /** The skeleton every reply starts from: the command echoed, no scope reported. */
  function BaseReply(c: Command, v: Verb, outcome: Outcome): Receipt {
    Receipt(c.request, c.host, c.window, outcome, NO_FLAGS, c.grant, c.parentId, c.contextId,
            if ValidCommand(c) then Some(c) else None, 3, v, c.action, UnknownEntry, UnknownSettlement,
            UnknownPhase, UnknownPhase, NoClosure, NoApplication, 0, 0, 0, NoReason, NoScope)
  }

  function Expired(c: Command, v: Verb): Receipt {
    BaseReply(c, v, HistoryExpired).(closure := ExpiredClosure)
  }
}
