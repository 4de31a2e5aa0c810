/** The local activation history of one actor: thirty-two retained records, one counter
    of mutations, and tokens that name the mutation they were issued at.  Each call is
    an event; Step is its effect and Issued the token or ticket it returns. */
module Activation {

  const SLOTS: nat := 32
  const EXHAUSTED: nat := 0xffff_ffff_ffff_ffff

  datatype Identity = Identity(actor: nat, key: (nat, nat), scene: nat)

  datatype Phase =
    | Unknown | AwaitingStart | FollowingOwned | SettingState | AwaitingAppend | Appending | AwaitingStartReturn
    | Active | Moving | Interrupted | CompletingState | AwaitingFirstRemoval | RemovingFirst
    | AwaitingTailRemoval | RemovingTail | AwaitingProcessReturn | Completed

  datatype Origin = FromItem | FromSelfPower

  datatype Record = Record(
    identity: Identity, ticket: nat, power: nat, phase: Phase,
    queued: bool, ownedFollowup: bool, relinquished: bool, origin: Origin)

  datatype Token = Token(mutation: nat, ticket: nat, index: nat)

  /** The native frame a step runs in. */
  datatype Frame = Frame(frame: nat, message: nat, definition: nat, thread: nat)

  datatype Manual = Manual(identity: Identity, power: nat, phase: Phase, mutation: nat, sent: nat, frame: Frame)

  datatype History = History(
    records: seq<Record>, bound: Identity, mutation: nat, current: Token, frame: Frame, manual: Manual)

  datatype Event =
    | Arm(slot: nat, identity: Identity, power: nat, origin: Origin)
    | QueueResult(slot: nat, ticket: nat, ok: bool)
    | OwnedFollowup(slot: nat, ticket: nat, ok: bool)
    | BeginOwnedFollowup(slot: nat, ticket: nat)
    | OwnedFollowupReturned(token: Token, ok: bool, state6: bool)
    | ResetExactLifetime(identity: Identity)
    | ForeignSend(actor: nat)
    | ManualSend(actor: nat, power: nat)
    | BeginManualStart(identity: Identity, power: nat, at: Frame)
    | ManualStateReturned(mutation: nat, ok: bool)
    | BeginManualAppend(identity: Identity, power: nat, at: Frame)
    | ManualAppendReturned(mutation: nat, ok: bool)
    | ManualProcessReturned(mutation: nat, ok: bool)
    | ManualDirectReturned(identity: Identity, power: nat, ok: bool)
    | OtherActivity(actor: nat)
    | BeginStart(identity: Identity, power: nat, at: Frame)
    | StateReturned(token: Token, ok: bool)
    | BeginAppend(identity: Identity, power: nat, at: Frame)
    | AppendReturned(token: Token, ok: bool)
    | StartProcessReturned(token: Token, ok: bool)
    | BeginMovement(identity: Identity)
    | MovementReturned(token: Token, ok: bool)
    | BeginCompletion(identity: Identity, power: nat, at: Frame)
    | CompletionStateReturned(token: Token, ok: bool)
    | BeginRemoval(identity: Identity, power: nat, at: Frame, final: bool)
    | RemovalReturned(token: Token, final: bool, ok: bool)
    | CompletionProcessReturned(token: Token, ok: bool)

  const NOBODY := Identity(0, (0, 0), 0)
  const NO_TOKEN := Token(0, 0, SLOTS)
  const NO_FRAME := Frame(0, 0, 0, 0)
  const BLANK := Record(NOBODY, 0, 0, Unknown, false, false, false, FromItem)
  const NO_MANUAL := Manual(NOBODY, 0, Unknown, 0, 0, NO_FRAME)
  function Initial(): History { History(seq(SLOTS, i => BLANK), NOBODY, 0, NO_TOKEN, NO_FRAME, NO_MANUAL) }

  predicate Valid(id: Identity) { id.actor != 0 && id.key.0 != 0 && id.key.1 == 53 && id.scene != 0 }

  predicate Terminal(p: Phase) { p.Interrupted? || p.Completed? }

  /** The phases of an activation in progress. */
  predicate Live(p: Phase) { !p.Unknown? && !p.AwaitingStart? && !Terminal(p) }

  predicate Whole(f: Frame) { f.frame != 0 && f.message != 0 && f.definition != 0 && f.thread != 0 }

  predicate Relevant(h: History, actor: nat) { Valid(h.bound) && h.bound.actor == actor }

  function Forget(r: Record): Record { r.(phase := Unknown) }

  function ForgetAll(rs: seq<Record>): seq<Record> { seq(|rs|, i requires 0 <= i < |rs| => Forget(rs[i])) }

  function InvalidatedRecord(r: Record, actor: nat): Record {
    if r.identity.actor == actor && !r.phase.AwaitingStart? && !Terminal(r.phase) then Forget(r) else r
  }

  function Invalidated(rs: seq<Record>, actor: nat): seq<Record> {
    seq(|rs|, i requires 0 <= i < |rs| => InvalidatedRecord(rs[i], actor))
  }

  function SentRecord(r: Record, actor: nat): Record {
    if r.identity.actor == actor && !Terminal(r.phase) then Forget(r) else r
  }

  function Sent(rs: seq<Record>, actor: nat): seq<Record> {
    seq(|rs|, i requires 0 <= i < |rs| => SentRecord(rs[i], actor))
  }

  predicate MayAdvance(h: History) { h.mutation < EXHAUSTED }

  /** The next mutation, or, at the end of the counter, every interpretation given up. */
  function Advance(h: History): History {
    if MayAdvance(h) then h.(mutation := h.mutation + 1) else h.(records := ForgetAll(h.records))
  }

  predicate Exact(h: History, slot: nat, ticket: nat) { slot < |h.records| && ticket != 0 && h.records[slot].ticket == ticket }

  predicate Current(h: History, t: Token, p: Phase) {
    Exact(h, t.index, t.ticket) && t.mutation == h.mutation && h.records[t.index].phase == p
  }

  /** The slot holds that ticket, armed for that identity, and the power it was armed for was
      queued and followed up by this process. */
  predicate OwnPower(h: History, slot: nat, ticket: nat, identity: Identity) {
    && Exact(h, slot, ticket)
    && var r := h.records[slot];
       r.identity == identity && r.queued && r.ownedFollowup && r.origin.FromSelfPower?
  }

  predicate InterruptedLocally(h: History, slot: nat, ticket: nat, identity: Identity) {
    OwnPower(h, slot, ticket, identity) && h.records[slot].phase.Interrupted?
  }

  predicate OverLocally(h: History, slot: nat, ticket: nat, identity: Identity) {
    OwnPower(h, slot, ticket, identity) && (Terminal(h.records[slot].phase) || h.records[slot].relinquished)
  }

  function SetPhase(h: History, slot: nat, p: Phase): History
    requires slot < |h.records|
  {
    h.(records := h.records[slot := h.records[slot].(phase := p)])
  }

  /** A step reported by its token: the next phase if coherent, otherwise unknown. */
  function Return(h: History, t: Token, from: Phase, to: Phase, ok: bool): History {
    if Current(h, t, from) then SetPhase(h, t.index, if ok then to else Unknown) else h
  }

  function Other(h: History, actor: nat): History {
    if !Relevant(h, actor) then h
    else if !MayAdvance(h) then Advance(h)
    else var h := Advance(h); h.(records := Invalidated(h.records, actor))
  }

  /** The live record moves on at the next mutation, under the same ticket. */
  function Proceed(h: History, to: Phase): History
    requires h.current.index < |h.records|
  {
    if !MayAdvance(h) then Advance(h)
    else
      var h := SetPhase(Advance(h), h.current.index, to);
      h.(current := h.current.(mutation := h.mutation))
  }

  predicate Same(h: History, identity: Identity, power: nat)
    requires h.current.index < |h.records|
  {
    h.records[h.current.index].identity == identity && h.records[h.current.index].power == power
  }

  predicate ManualCurrent(h: History, p: Phase) {
    h.manual.mutation != 0 && h.manual.mutation == h.mutation && h.manual.phase == p
  }

  function RelinquishedRecord(r: Record, m: Manual): Record {
    if r.identity == m.identity && r.ticket < m.sent && r.queued && r.ownedFollowup && r.origin.FromSelfPower? && !Terminal(r.phase)
    then r.(relinquished := true) else r
  }

  function Relinquished(rs: seq<Record>, m: Manual): seq<Record> {
    seq(|rs|, i requires 0 <= i < |rs| => RelinquishedRecord(rs[i], m))
  }

  function Foreign(h: History, actor: nat): History {
    if !Relevant(h, actor) then h
    else if !MayAdvance(h) then Advance(h)
    else var h := Advance(h); h.(records := Sent(h.records, actor))
  }

  /** A record that a start message could belong to; h has already advanced. */
  predicate Startable(h: History, i: nat, identity: Identity, power: nat)
    requires i < |h.records|
  {
    var r := h.records[i];
    var direct := r.phase.Active? && r.origin.FromSelfPower? && r.ownedFollowup
                  && h.current.index == i && h.current.ticket == r.ticket && h.current.mutation + 1 == h.mutation;
    r.identity == identity && r.power == power && (r.phase.AwaitingStart? || direct)
  }

  predicate Hit(h: History, i: nat, identity: Identity, power: nat)
    requires i < |h.records|
  {
    Startable(h, i, identity, power) && h.records[i].queued
  }

  /** The last hit below n, and how many there are. */
  function LastHit(h: History, identity: Identity, power: nat, n: nat): (i: nat)
    requires n <= |h.records| == SLOTS
    ensures i == SLOTS || (i < n && Hit(h, i, identity, power))
  {
    if n == 0 then SLOTS else if Hit(h, n - 1, identity, power) then n - 1 else LastHit(h, identity, power, n - 1)
  }

  function Hits(h: History, identity: Identity, power: nat, n: nat): nat
    requires n <= |h.records| == SLOTS
  {
    if n == 0 then 0 else Hits(h, identity, power, n - 1) + if Hit(h, n - 1, identity, power) then 1 else 0
  }

  function UnqueuedForgotten(h: History, identity: Identity, power: nat): seq<Record> {
    seq(|h.records|, i requires 0 <= i < |h.records| =>
      if Startable(h, i, identity, power) && !h.records[i].queued then Forget(h.records[i]) else h.records[i])
  }

  function AmbiguousRecord(r: Record, identity: Identity, power: nat): Record {
    if r.identity == identity && r.power == power && !Terminal(r.phase) then Forget(r) else r
  }

  function Ambiguous(rs: seq<Record>, identity: Identity, power: nat): seq<Record> {
    seq(|rs|, i requires 0 <= i < |rs| => AmbiguousRecord(rs[i], identity, power))
  }

  function Start(h: History, identity: Identity, power: nat, at: Frame): History
    requires |h.records| == SLOTS
  {
    if !Relevant(h, identity.actor) then h
    else if !MayAdvance(h) then Advance(h)
    else
      var a := Advance(h);
      var found := LastHit(a, identity, power, SLOTS);
      var rs := Invalidated(UnqueuedForgotten(a, identity, power), identity.actor);
      if Hits(a, identity, power, SLOTS) > 1 then a.(records := Ambiguous(rs, identity, power))
      else if found == SLOTS || !Whole(at) then a.(records := rs)
      else a.(records := rs[found := rs[found].(phase := SettingState)], frame := at,
              current := Token(a.mutation, a.records[found].ticket, found))
  }

  function Step(h: History, e: Event): (r: History)
    requires |h.records| == SLOTS
    ensures |r.records| == SLOTS
  {
    match e
    case Arm(slot, id, power, origin) =>
      if slot >= SLOTS || !Valid(id) || power == 0 || (Valid(h.bound) && h.bound != id) then h
      else if !MayAdvance(h) then Advance(h)
      else
        var a := Advance(h);
        a.(bound := id, records := Invalidated(a.records, id.actor)[slot :=
             Record(id, a.mutation, power, AwaitingStart, false, false, false, origin)])
    case QueueResult(slot, ticket, ok) =>
      if !Exact(h, slot, ticket) then h
      else
        var r := h.records[slot];
        h.(records := h.records[slot := r.(queued := r.queued || ok, phase := if r.queued || ok then r.phase else Unknown)])
    case OwnedFollowup(slot, ticket, ok) =>
      if !Exact(h, slot, ticket) || !h.records[slot].origin.FromSelfPower? then h
      else h.(records := h.records[slot := h.records[slot].(ownedFollowup := h.records[slot].ownedFollowup || ok)])
    case BeginOwnedFollowup(slot, ticket) =>
      if !Exact(h, slot, ticket) || !h.records[slot].origin.FromSelfPower? || !h.records[slot].queued
         || !h.records[slot].phase.AwaitingStart? then h
      else if !MayAdvance(h) then Advance(h)
      else
        var a := Advance(h);
        var a := a.(records := Invalidated(a.records, h.records[slot].identity.actor));
        SetPhase(a, slot, FollowingOwned).(current := Token(a.mutation, ticket, slot))
    case OwnedFollowupReturned(t, ok, state6) =>
      if !Current(h, t, FollowingOwned) then h
      else
        var r := h.records[t.index];
        h.(records := h.records[t.index := r.(ownedFollowup := r.ownedFollowup || ok,
             phase := if !ok then Unknown else if state6 then Active else AwaitingStart)])
    case ResetExactLifetime(id) =>
      if h.bound != id || !Valid(id) then h
      else if !MayAdvance(h) then Advance(h)
      else Initial().(mutation := h.mutation + 1)
    case ForeignSend(actor) => Foreign(h, actor)
    case ManualSend(actor, power) =>
      if !Relevant(h, actor) || power == 0 then h
      else
        var f := Foreign(h, actor);
        f.(manual := Manual(f.bound, power, AwaitingStart, f.mutation, f.mutation, NO_FRAME))
    case BeginManualStart(id, power, at) =>
      if !ManualCurrent(h, AwaitingStart) then h
      else if h.manual.identity != id || h.manual.power != power || !Whole(at) then Other(h, id.actor)
      else if !MayAdvance(h) then Advance(h)
      else Advance(h).(manual := h.manual.(frame := at, phase := SettingState, mutation := h.mutation + 1))
    case ManualStateReturned(m, ok) =>
      if m != h.mutation || !ManualCurrent(h, SettingState) then h
      else h.(manual := h.manual.(phase := if ok then AwaitingAppend else Unknown))
    case BeginManualAppend(id, power, at) =>
      if !ManualCurrent(h, AwaitingAppend) || h.manual.identity != id || h.manual.power != power || h.manual.frame != at
      then Other(h, id.actor)
      else if !MayAdvance(h) then Advance(h)
      else Advance(h).(manual := h.manual.(phase := Appending, mutation := h.mutation + 1))
    case ManualAppendReturned(m, ok) =>
      if m != h.mutation || !ManualCurrent(h, Appending) then h
      else h.(manual := h.manual.(phase := if ok then AwaitingStartReturn else Unknown))
    case ManualProcessReturned(m, ok) =>
      if m != h.mutation || !ManualCurrent(h, AwaitingStartReturn) then h
      else
        var h := h.(manual := h.manual.(phase := Unknown));
        if ok then h.(records := Relinquished(h.records, h.manual)) else h
    case ManualDirectReturned(id, power, ok) =>
      if !ok || !ManualCurrent(h, AwaitingStart) || h.manual.identity != id || h.manual.power != power then h
      else
        var h := h.(manual := h.manual.(phase := Unknown));
        h.(records := Relinquished(h.records, h.manual))
    case OtherActivity(actor) => Other(h, actor)
    case BeginStart(id, power, at) => Start(h, id, power, at)
    case StateReturned(t, ok) => Return(h, t, SettingState, AwaitingAppend, ok)
    case BeginAppend(id, power, at) =>
      if Current(h, h.current, AwaitingAppend) && Same(h, id, power) && h.frame == at then Proceed(h, Appending)
      else Other(h, id.actor)
    case AppendReturned(t, ok) => Return(h, t, Appending, AwaitingStartReturn, ok)
    case StartProcessReturned(t, ok) => Return(h, t, AwaitingStartReturn, Active, ok)
    case BeginMovement(id) =>
      if Current(h, h.current, Active) && h.records[h.current.index].identity == id then Proceed(h, Moving)
      else Other(h, id.actor)
    case MovementReturned(t, ok) => Return(h, t, Moving, Interrupted, ok)
    case BeginCompletion(id, power, at) =>
      if Current(h, h.current, Active) && Same(h, id, power) && Whole(at) then
        if MayAdvance(h) then Proceed(h, CompletingState).(frame := at) else Advance(h)
      else Other(h, id.actor)
    case CompletionStateReturned(t, ok) => Return(h, t, CompletingState, AwaitingFirstRemoval, ok)
    case BeginRemoval(id, power, at, final) =>
      if Current(h, h.current, if final then AwaitingTailRemoval else AwaitingFirstRemoval) && Same(h, id, power) && h.frame == at
      then Proceed(h, if final then RemovingTail else RemovingFirst)
      else Other(h, id.actor)
    case RemovalReturned(t, final, ok) =>
      if final then Return(h, t, RemovingTail, AwaitingProcessReturn, ok) else Return(h, t, RemovingFirst, AwaitingTailRemoval, ok)
    case CompletionProcessReturned(t, ok) => Return(h, t, AwaitingProcessReturn, Completed, ok)
  }

  // ----- what every reachable history satisfies -----

  /** A record that is live is queued, belongs to the bound actor, and is exactly the one
      the current token names, at the latest mutation. */
  predicate Inv(h: History) {
    && |h.records| == SLOTS && h.mutation <= EXHAUSTED
    && (forall i :: 0 <= i < SLOTS ==>
          && h.records[i].ticket <= h.mutation
          && (!h.records[i].phase.Unknown? ==> Valid(h.bound) && h.records[i].identity == h.bound && h.records[i].ticket != 0)
          && (Terminal(h.records[i].phase) ==> h.records[i].queued)
          && (Live(h.records[i].phase) ==> h.records[i].queued && h.current == Token(h.mutation, h.records[i].ticket, i)))
    && (h.manual.mutation != 0 && h.manual.mutation == h.mutation ==> forall i :: 0 <= i < SLOTS ==> !Live(h.records[i].phase))
    && h.manual.mutation <= h.mutation && h.current.mutation <= h.mutation
  }

  lemma InitialHolds()
    ensures Inv(Initial())
  {
  }

  lemma ReturnKeeps(h: History, t: Token, from: Phase, to: Phase, ok: bool)
    requires Inv(h) && Live(from) && (Live(to) || Terminal(to))
    ensures Inv(Return(h, t, from, to, ok)) && Return(h, t, from, to, ok).mutation == h.mutation
  {
  }

  lemma ProceedKeeps(h: History, from: Phase, to: Phase)
    requires Inv(h) && Live(from) && Live(to) && Current(h, h.current, from)
    ensures Inv(Proceed(h, to)) && h.mutation <= Proceed(h, to).mutation <= h.mutation + 1
  {
  }

  lemma OtherKeeps(h: History, actor: nat)
    requires Inv(h)
    ensures Inv(Other(h, actor)) && h.mutation <= Other(h, actor).mutation <= h.mutation + 1
  {
  }

  lemma ForeignKeeps(h: History, actor: nat)
    requires Inv(h)
    ensures Inv(Foreign(h, actor)) && h.mutation <= Foreign(h, actor).mutation <= h.mutation + 1
    ensures Relevant(h, actor) ==> forall i :: 0 <= i < SLOTS ==> !Live(Foreign(h, actor).records[i].phase)
  {
  }

  lemma StartKeeps(h: History, id: Identity, power: nat, at: Frame)
    requires Inv(h)
    ensures Inv(Start(h, id, power, at)) && h.mutation <= Start(h, id, power, at).mutation <= h.mutation + 1
  {
    if Relevant(h, id.actor) && MayAdvance(h) { StartRecords(h, id, power); }
    hide Hits, Invalidated, UnqueuedForgotten;
  }

  /** Before a start takes its record, every activation in progress has been dropped. */
  lemma StartRecords(h: History, id: Identity, power: nat)
    requires Inv(h) && Relevant(h, id.actor) && MayAdvance(h)
    ensures var a := Advance(h);
            var rs := Invalidated(UnqueuedForgotten(a, id, power), id.actor);
            |rs| == SLOTS && forall i :: 0 <= i < SLOTS ==>
              !Live(rs[i].phase) && (rs[i] == h.records[i] || rs[i] == Forget(h.records[i]))
  {
  }

  predicate AboutRecord(e: Event) {
    e.Arm? || e.QueueResult? || e.OwnedFollowup? || e.BeginOwnedFollowup? || e.OwnedFollowupReturned? || e.ResetExactLifetime?
  }

  lemma RecordEventKeeps(h: History, e: Event)
    requires Inv(h) && AboutRecord(e)
    ensures Inv(Step(h, e)) && h.mutation <= Step(h, e).mutation <= h.mutation + 1
  {
    hide Start, Return, Proceed, Other, Foreign, Relinquished;
  }

  predicate AboutManual(e: Event) {
    e.ManualSend? || e.BeginManualStart? || e.ManualStateReturned? || e.BeginManualAppend? || e.ManualAppendReturned?
    || e.ManualProcessReturned? || e.ManualDirectReturned?
  }

  lemma ManualEventKeeps(h: History, e: Event)
    requires Inv(h) && AboutManual(e)
    ensures Inv(Step(h, e)) && h.mutation <= Step(h, e).mutation <= h.mutation + 1
  {
    hide Start, Return, Proceed, Other, Foreign, Invalidated;
    match e
    case ManualSend(actor, power) => ForeignKeeps(h, actor);
    case BeginManualStart(id, power, at) => OtherKeeps(h, id.actor);
    case BeginManualAppend(id, power, at) => OtherKeeps(h, id.actor);
    case _ =>
  }

  lemma StepKeeps(h: History, e: Event)
    requires Inv(h)
    ensures Inv(Step(h, e)) && h.mutation <= Step(h, e).mutation <= h.mutation + 1
  {
    if AboutRecord(e) { RecordEventKeeps(h, e); }
    else if AboutManual(e) { ManualEventKeeps(h, e); }
    else { hide Inv; NativeEventKeeps(h, e); }
  }

  predicate Completing(e: Event) {
    e.BeginCompletion? || e.CompletionStateReturned? || e.BeginRemoval? || e.RemovalReturned? || e.CompletionProcessReturned?
  }

  lemma NativeEventKeeps(h: History, e: Event)
    requires Inv(h) && !AboutRecord(e) && !AboutManual(e)
    ensures Inv(Step(h, e)) && h.mutation <= Step(h, e).mutation <= h.mutation + 1
  {
    if Completing(e) { CompletingEventKeeps(h, e); } else { hide Inv; StartingEventKeeps(h, e); }
  }

  lemma StartingEventKeeps(h: History, e: Event)
    requires Inv(h) && !AboutRecord(e) && !AboutManual(e) && !Completing(e)
    ensures Inv(Step(h, e)) && h.mutation <= Step(h, e).mutation <= h.mutation + 1
  {
    hide Start, Return, Proceed, Other, Foreign, Relinquished, Inv;
    match e
    case ForeignSend(actor) => ForeignKeeps(h, actor);
    case OtherActivity(actor) => OtherKeeps(h, actor);
    case BeginStart(id, power, at) => Sized(h); StartKeeps(h, id, power, at);
    case StateReturned(t, ok) => ReturnKeeps(h, t, SettingState, AwaitingAppend, ok);
    case BeginAppend(id, power, at) => OtherKeeps(h, id.actor); ProceedIfCurrent(h, AwaitingAppend, Appending);
    case AppendReturned(t, ok) => ReturnKeeps(h, t, Appending, AwaitingStartReturn, ok);
    case StartProcessReturned(t, ok) => ReturnKeeps(h, t, AwaitingStartReturn, Active, ok);
    case BeginMovement(id) => OtherKeeps(h, id.actor); ProceedIfCurrent(h, Active, Moving);
    case MovementReturned(t, ok) => ReturnKeeps(h, t, Moving, Interrupted, ok);
    case _ =>
  }

  lemma Sized(h: History)
    requires Inv(h)
    ensures |h.records| == SLOTS
  {
  }

  lemma CompletingEventKeeps(h: History, e: Event)
    requires Inv(h) && Completing(e)
    ensures Inv(Step(h, e)) && h.mutation <= Step(h, e).mutation <= h.mutation + 1
  {
    hide Start, Return, Proceed, Other, Foreign, Relinquished, Inv;
    match e
    case BeginCompletion(id, power, at) => OtherKeeps(h, id.actor); Sized(h); CompletionKeeps(h, id, power, at);
    case CompletionStateReturned(t, ok) => ReturnKeeps(h, t, CompletingState, AwaitingFirstRemoval, ok);
    case BeginRemoval(id, power, at, final) =>
      OtherKeeps(h, id.actor);
      ProceedIfCurrent(h, AwaitingTailRemoval, RemovingTail);
      ProceedIfCurrent(h, AwaitingFirstRemoval, RemovingFirst);
    case RemovalReturned(t, final, ok) =>
      ReturnKeeps(h, t, RemovingTail, AwaitingProcessReturn, ok);
      ReturnKeeps(h, t, RemovingFirst, AwaitingTailRemoval, ok);
    case CompletionProcessReturned(t, ok) => ReturnKeeps(h, t, AwaitingProcessReturn, Completed, ok);
  }

  lemma CompletionKeeps(h: History, id: Identity, power: nat, at: Frame)
    requires Inv(h) && |h.records| == SLOTS
    ensures Current(h, h.current, Active) && Same(h, id, power) && Whole(at) ==>
              && Inv(Step(h, BeginCompletion(id, power, at)))
              && h.mutation <= Step(h, BeginCompletion(id, power, at)).mutation <= h.mutation + 1
  {
    hide Other, Start, Return;
  }

  lemma ProceedIfCurrent(h: History, from: Phase, to: Phase)
    requires Inv(h) && Live(from) && Live(to)
    ensures Current(h, h.current, from) ==> Inv(Proceed(h, to)) && h.mutation <= Proceed(h, to).mutation <= h.mutation + 1
  {
    hide Inv, Proceed;
    if Current(h, h.current, from) { ProceedKeeps(h, from, to); }
  }
}
