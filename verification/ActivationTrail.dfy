/** What a run of the activation history proves about a record: the log of its phases,
    read off the states alone, and the path every outcome must have come by. */
module ActivationTrail {
  import opened Activation

  function Run(h: History, es: seq<Event>): (r: History)
    requires |h.records| == SLOTS
    ensures |r.records| == SLOTS
    decreases |es|
  {
    if es == [] then h else Step(Run(h, es[..|es| - 1]), es[|es| - 1])
  }

  /** One change of a record: its new phase and ticket, the mutation at that moment, and
      the native frame the event carried. */
  datatype Mark = Mark(phase: Phase, ticket: nat, mutation: nat, frame: Frame)

  function FrameOf(e: Event): Frame {
    match e
    case BeginStart(_, _, at) => at
    case BeginAppend(_, _, at) => at
    case BeginCompletion(_, _, at) => at
    case BeginRemoval(_, _, at, _) => at
    case _ => NO_FRAME
  }

  predicate Unchanged(a: Record, b: Record) { a.phase == b.phase && a.ticket == b.ticket }

  function MarkOf(h: History, slot: nat, e: Event): Mark
    requires slot < |h.records|
  {
    Mark(h.records[slot].phase, h.records[slot].ticket, h.mutation, FrameOf(e))
  }

  /** The changes of one record over a run, oldest first. */
  function Log(h: History, es: seq<Event>, slot: nat): seq<Mark>
    requires |h.records| == SLOTS && slot < SLOTS
    decreases |es|
  {
    if es == [] then []
    else
      var e := es[|es| - 1];
      var a := Run(h, es[..|es| - 1]);
      var b := Step(a, e);
      var prior := Log(h, es[..|es| - 1], slot);
      if Unchanged(a.records[slot], b.records[slot]) then prior else prior + [MarkOf(b, slot, e)]
  }

  /** The phase each step of an activation must come from; a start or a followup needs none. */
  function Before(p: Phase): Phase {
    match p
    case AwaitingAppend => SettingState
    case Appending => AwaitingAppend
    case AwaitingStartReturn => Appending
    case Moving => Active
    case Interrupted => Moving
    case CompletingState => Active
    case AwaitingFirstRemoval => CompletingState
    case RemovingFirst => AwaitingFirstRemoval
    case AwaitingTailRemoval => RemovingFirst
    case RemovingTail => AwaitingTailRemoval
    case AwaitingProcessReturn => RemovingTail
    case Completed => AwaitingProcessReturn
    case _ => Unknown
  }

  /** Steps that take a mutation number of their own; the others report one that did. */
  predicate Opens(p: Phase) {
    p.SettingState? || p.FollowingOwned? || p.Appending? || p.Moving? || p.CompletingState? || p.RemovingFirst? || p.RemovingTail?
  }

  /** Steps whose native frame must be the one in force. */
  predicate Framed(p: Phase) { p.SettingState? || p.Appending? || p.CompletingState? || p.RemovingFirst? || p.RemovingTail? }

  /** The log ends with an unbroken path to phase p at mutation m, in frame f: each step
      directly before the next, each opening step exactly one mutation after the last. */
  ghost predicate Path(log: seq<Mark>, p: Phase, t: nat, m: nat, f: Frame)
    decreases |log|, 0
  {
    && log != []
    && var last, rest := log[|log| - 1], log[..|log| - 1];
       && last.phase == p && last.ticket == t && last.mutation == m && (Framed(p) ==> last.frame == f)
       && (if p.SettingState? || p.FollowingOwned? then true
           else if p.Active? then Path(rest, AwaitingStartReturn, t, m, f) || Path(rest, FollowingOwned, t, m, f)
           else if p.CompletingState? then m > 0 && ActiveAt(rest, t, m - 1)
           else if Opens(p) then m > 0 && Path(rest, Before(p), t, m - 1, f)
           else Path(rest, Before(p), t, m, f))
  }

  /** The log ends with a path to an active record, whatever frame it was started in. */
  ghost predicate ActiveAt(log: seq<Mark>, t: nat, m: nat)
    decreases |log|, 1
  {
    exists g :: Path(log, Active, t, m, g)
  }

  /** What one event may do to one record. */
  predicate Edge(a: History, b: History, slot: nat, e: Event)
    requires slot < |a.records| && slot < |b.records|
  {
    var r, s := a.records[slot], b.records[slot];
    && s.ticket == r.ticket && b.mutation == (if Opens(s.phase) then a.mutation + 1 else a.mutation)
    && (Framed(s.phase) ==> FrameOf(e) == b.frame) && (!s.phase.SettingState? && !s.phase.CompletingState? ==> b.frame == a.frame)
    && (if s.phase.SettingState? || s.phase.FollowingOwned? then true
        else if s.phase.Active? then r.phase.AwaitingStartReturn? || r.phase.FollowingOwned?
        else r.phase == Before(s.phase))
  }

  /** Either nothing happened to an activation, or it was dropped, or it moved along an edge. */
  predicate Moves(a: History, b: History, slot: nat, e: Event)
    requires slot < |a.records| && slot < |b.records|
  {
    var r, s := a.records[slot], b.records[slot];
    || (Unchanged(r, s) && (Live(s.phase) ==> b.mutation == a.mutation && b.frame == a.frame))
    || (!Unchanged(r, s) && !Live(s.phase) && !Terminal(s.phase))
    || (!Unchanged(r, s) && Edge(a, b, slot, e))
  }

  lemma ReturnMoves(h: History, t: Token, from: Phase, to: Phase, ok: bool, slot: nat, e: Event)
    requires Inv(h) && slot < SLOTS && Live(from) && !Opens(to) && FrameOf(e) == NO_FRAME && !to.Unknown? && !to.AwaitingStart?
    requires if to.Active? then from.AwaitingStartReturn? || from.FollowingOwned? else from == Before(to)
    ensures |Return(h, t, from, to, ok).records| == SLOTS && Moves(h, Return(h, t, from, to, ok), slot, e)
  {
  }

  lemma OtherMoves(h: History, actor: nat, slot: nat, e: Event)
    requires Inv(h) && slot < SLOTS
    ensures |Other(h, actor).records| == SLOTS && Moves(h, Other(h, actor), slot, e)
  {
  }

  lemma ForeignMoves(h: History, actor: nat, slot: nat, e: Event)
    requires Inv(h) && slot < SLOTS
    ensures |Foreign(h, actor).records| == SLOTS && Moves(h, Foreign(h, actor), slot, e)
  {
  }

  lemma ProceedMoves(h: History, from: Phase, to: Phase, slot: nat, e: Event)
    requires Inv(h) && slot < SLOTS && Current(h, h.current, from) && from == Before(to) && Live(from) && Opens(to)
    requires !to.SettingState? && !to.FollowingOwned? && !to.CompletingState? && (Framed(to) ==> FrameOf(e) == h.frame)
    ensures |Proceed(h, to).records| == SLOTS && Moves(h, Proceed(h, to), slot, e)
  {
  }

  lemma CompletionMoves(h: History, e: Event, slot: nat)
    requires Inv(h) && slot < SLOTS && e.BeginCompletion?
    ensures Moves(h, Step(h, e), slot, e)
  {
    OtherMoves(h, e.identity.actor, slot, e);
  }

  lemma StartMoves(h: History, e: Event, slot: nat)
    requires Inv(h) && slot < SLOTS && e.BeginStart?
    ensures Moves(h, Step(h, e), slot, e)
  {
    hide Hits;
  }

  lemma RecordEventMoves(h: History, e: Event, slot: nat)
    requires Inv(h) && slot < SLOTS && AboutRecord(e) && !e.ResetExactLifetime?
    ensures Moves(h, Step(h, e), slot, e)
  {
    hide Start, Return, Proceed, Other, Foreign, Relinquished;
  }

  lemma ResetMoves(h: History, e: Event, slot: nat)
    requires Inv(h) && slot < SLOTS && e.ResetExactLifetime?
    ensures Moves(h, Step(h, e), slot, e)
  {
  }

  lemma ManualEventMoves(h: History, e: Event, slot: nat)
    requires Inv(h) && slot < SLOTS && AboutManual(e)
    ensures Moves(h, Step(h, e), slot, e)
  {
    hide Start, Return, Proceed, Other, Foreign;
    match e
    case ManualSend(actor, power) => ForeignMoves(h, actor, slot, e);
    case BeginManualStart(id, power, at) => OtherMoves(h, id.actor, slot, e);
    case BeginManualAppend(id, power, at) => OtherMoves(h, id.actor, slot, e);
    case _ =>
  }

  lemma StepMoves(h: History, e: Event, slot: nat)
    requires Inv(h) && slot < SLOTS
    ensures |Step(h, e).records| == SLOTS && Moves(h, Step(h, e), slot, e)
  {
    StepKeeps(h, e);
    Sized(Step(h, e));
    if e.ResetExactLifetime? { ResetMoves(h, e, slot); }
    else if AboutRecord(e) { RecordEventMoves(h, e, slot); }
    else if AboutManual(e) { ManualEventMoves(h, e, slot); }
    else if e.BeginStart? { StartMoves(h, e, slot); }
    else if e.BeginCompletion? { CompletionMoves(h, e, slot); }
    else if e.BeginRemoval? || e.RemovalReturned? { RemovalMoves(h, e, slot); }
    else { NativeEventMoves(h, e, slot); }
  }

  lemma NativeEventMoves(h: History, e: Event, slot: nat)
    requires Inv(h) && slot < SLOTS && !AboutRecord(e) && !AboutManual(e) && !e.BeginStart? && !e.BeginCompletion?
    requires !e.BeginRemoval? && !e.RemovalReturned?
    requires |Step(h, e).records| == SLOTS
    ensures Moves(h, Step(h, e), slot, e)
  {
    hide Start, Return, Proceed, Other, Foreign, Relinquished, Moves;
    match e
    case ForeignSend(actor) => ForeignMoves(h, actor, slot, e);
    case OtherActivity(actor) => OtherMoves(h, actor, slot, e);
    case StateReturned(t, ok) => ReturnMoves(h, t, SettingState, AwaitingAppend, ok, slot, e);
    case BeginAppend(id, power, at) =>
      if Current(h, h.current, AwaitingAppend) && Same(h, id, power) && h.frame == at { ProceedMoves(h, AwaitingAppend, Appending, slot, e); }
      else { OtherMoves(h, id.actor, slot, e); }
    case AppendReturned(t, ok) => ReturnMoves(h, t, Appending, AwaitingStartReturn, ok, slot, e);
    case StartProcessReturned(t, ok) => ReturnMoves(h, t, AwaitingStartReturn, Active, ok, slot, e);
    case BeginMovement(id) =>
      if Current(h, h.current, Active) && h.records[h.current.index].identity == id { ProceedMoves(h, Active, Moving, slot, e); }
      else { OtherMoves(h, id.actor, slot, e); }
    case MovementReturned(t, ok) => ReturnMoves(h, t, Moving, Interrupted, ok, slot, e);
    case CompletionStateReturned(t, ok) => ReturnMoves(h, t, CompletingState, AwaitingFirstRemoval, ok, slot, e);
    case CompletionProcessReturned(t, ok) => ReturnMoves(h, t, AwaitingProcessReturn, Completed, ok, slot, e);
    case _ =>
  }

  lemma RemovalMoves(h: History, e: Event, slot: nat)
    requires Inv(h) && slot < SLOTS && (e.BeginRemoval? || e.RemovalReturned?) && |Step(h, e).records| == SLOTS
    ensures Moves(h, Step(h, e), slot, e)
  {
    hide Start, Return, Proceed, Other, Foreign, Relinquished, Moves, Inv;
    match e
    case BeginRemoval(id, power, at, final) =>
      var from := if final then AwaitingTailRemoval else AwaitingFirstRemoval;
      if Current(h, h.current, from) && Same(h, id, power) && h.frame == at {
        ProceedMoves(h, from, if final then RemovingTail else RemovingFirst, slot, e);
      } else { OtherMoves(h, id.actor, slot, e); }
    case RemovalReturned(t, final, ok) =>
      ReturnMoves(h, t, RemovingTail, AwaitingProcessReturn, ok, slot, e);
      ReturnMoves(h, t, RemovingFirst, AwaitingTailRemoval, ok, slot, e);
  }

  // ----- runs -----

  lemma {:induction false} RunKeeps(es: seq<Event>)
    ensures Inv(Run(Initial(), es))
    decreases |es|
  {
    if es == [] { InitialHolds(); } else {
      hide Inv, Step;
      RunKeeps(es[..|es| - 1]);
      StepKeeps(Run(Initial(), es[..|es| - 1]), es[|es| - 1]);
    }
  }

  /** A live record has come by its path, and so has one that is over. */
  ghost predicate Traced(log: seq<Mark>, h: History, slot: nat)
    requires slot < |h.records|
  {
    var r := h.records[slot];
    && (Live(r.phase) ==> Path(log, r.phase, r.ticket, h.mutation, h.frame))
    && (Terminal(r.phase) ==> exists m: nat, f :: m <= h.mutation && Path(log, r.phase, r.ticket, m, f))
  }

  lemma EdgeExtends(log: seq<Mark>, a: History, b: History, slot: nat, e: Event)
    requires slot < |a.records| && slot < |b.records| && Traced(log, a, slot) && Edge(a, b, slot, e)
    requires Live(b.records[slot].phase) || Terminal(b.records[slot].phase)
    ensures Traced(log + [MarkOf(b, slot, e)], b, slot)
  {
    var longer := log + [MarkOf(b, slot, e)];
    assert longer[..|longer| - 1] == log;
    var s := b.records[slot];
    if s.phase.CompletingState? { assert ActiveAt(log, s.ticket, a.mutation); }
    assert Path(longer, s.phase, s.ticket, b.mutation, b.frame);
  }

  lemma {:induction false} RunIsTraced(es: seq<Event>, slot: nat)
    requires slot < SLOTS
    ensures Traced(Log(Initial(), es, slot), Run(Initial(), es), slot)
    decreases |es|
  {
    if es != [] {
      var es', e := es[..|es| - 1], es[|es| - 1];
      var a := Run(Initial(), es');
      RunIsTraced(es', slot);
      RunKeeps(es');
      StepMoves(a, e, slot);
      StepKeeps(a, e);
      hide Step, Inv, Path;
      var b := Step(a, e);
      if !Unchanged(a.records[slot], b.records[slot]) && (Live(b.records[slot].phase) || Terminal(b.records[slot].phase)) {
        hide Traced;
        EdgeExtends(Log(Initial(), es', slot), a, b, slot, e);
      }
    }
  }

  // ----- the paths, spelled out -----

  predicate Is(k: Mark, p: Phase, t: nat, m: nat) { k.phase == p && k.ticket == t && k.mutation == m }

  /** The n marks before position e show a record becoming active at mutation m: started and
      appended in one frame at the two mutations up to m, or followed up at m itself. */
  predicate ActiveTrail(log: seq<Mark>, e: nat, n: nat, t: nat, m: nat, g: Frame) {
    && n <= e <= |log|
    && (|| (n == 5 && m > 0
            && Is(log[e - 5], SettingState, t, m - 1) && log[e - 5].frame == g
            && Is(log[e - 4], AwaitingAppend, t, m - 1)
            && Is(log[e - 3], Appending, t, m) && log[e - 3].frame == g
            && Is(log[e - 2], AwaitingStartReturn, t, m)
            && Is(log[e - 1], Active, t, m))
        || (n == 2 && Is(log[e - 2], FollowingOwned, t, m) && Is(log[e - 1], Active, t, m)))
  }

  /** The last marks: completion, first removal and tail removal at three consecutive
      mutations, in one frame. */
  predicate CompletionTrail(log: seq<Mark>, t: nat, m: nat, f: Frame) {
    var e := |log|;
    && e >= 7
    && Is(log[e - 7], CompletingState, t, m) && log[e - 7].frame == f
    && Is(log[e - 6], AwaitingFirstRemoval, t, m)
    && Is(log[e - 5], RemovingFirst, t, m + 1) && log[e - 5].frame == f
    && Is(log[e - 4], AwaitingTailRemoval, t, m + 1)
    && Is(log[e - 3], RemovingTail, t, m + 2) && log[e - 3].frame == f
    && Is(log[e - 2], AwaitingProcessReturn, t, m + 2)
    && Is(log[e - 1], Completed, t, m + 2)
  }

  predicate MovementTrail(log: seq<Mark>, t: nat, m: nat) {
    |log| >= 2 && Is(log[|log| - 2], Moving, t, m) && Is(log[|log| - 1], Interrupted, t, m)
  }

  /** The log of a completed record ends with exactly this; nothing came between. */
  predicate CompletedBy(log: seq<Mark>, t: nat, m: nat, f: Frame, g: Frame, n: nat) {
    CompletionTrail(log, t, m, f) && m > 0 && ActiveTrail(log, |log| - 7, n, t, m - 1, g)
  }

  predicate InterruptedBy(log: seq<Mark>, t: nat, m: nat, g: Frame, n: nat) {
    MovementTrail(log, t, m) && m > 0 && ActiveTrail(log, |log| - 2, n, t, m - 1, g)
  }

  function Init(log: seq<Mark>): seq<Mark>
    requires log != []
  {
    log[..|log| - 1]
  }

  /** One step back along a path. */
  lemma PathBack(log: seq<Mark>, p: Phase, t: nat, m: nat, f: Frame)
    requires Path(log, p, t, m, f) && !Before(p).Unknown? && !p.CompletingState?
    ensures log != [] && (Opens(p) ==> m > 0) && Path(Init(log), Before(p), t, if Opens(p) then m - 1 else m, f)
  {
  }

  lemma PathLast(log: seq<Mark>, p: Phase, t: nat, m: nat, f: Frame)
    requires Path(log, p, t, m, f)
    ensures log != [] && log[|log| - 1] == Mark(p, t, m, log[|log| - 1].frame) && (Framed(p) ==> log[|log| - 1].frame == f)
  {
  }

  lemma ActivePath(log: seq<Mark>, t: nat, m: nat, g: Frame) returns (n: nat)
    requires Path(log, Active, t, m, g)
    ensures ActiveTrail(log, |log|, n, t, m, g)
  {
    PathLast(log, Active, t, m, g);
    var l1 := Init(log);
    if Path(l1, FollowingOwned, t, m, g) {
      PathLast(l1, FollowingOwned, t, m, g);
      n := 2;
    } else {
      assert Path(l1, AwaitingStartReturn, t, m, g);
      hide Path;
      PathLast(l1, AwaitingStartReturn, t, m, g);
      PathBack(l1, AwaitingStartReturn, t, m, g);
      var l2 := Init(l1);
      assert l2 == log[..|log| - 2];
      PathLast(l2, Appending, t, m, g);
      PathBack(l2, Appending, t, m, g);
      var l3 := Init(l2);
      assert l3 == log[..|log| - 3];
      PathLast(l3, AwaitingAppend, t, m - 1, g);
      PathBack(l3, AwaitingAppend, t, m - 1, g);
      var l4 := Init(l3);
      assert l4 == log[..|log| - 4];
      PathLast(l4, SettingState, t, m - 1, g);
      n := 5;
    }
  }

  lemma CompletionPath(log: seq<Mark>, t: nat, k: nat, f: Frame) returns (l6: seq<Mark>)
    requires Path(log, Completed, t, k, f)
    ensures |log| >= 7 && k >= 2 && CompletionTrail(log, t, k - 2, f)
    ensures l6 == log[..|log| - 6] && Path(l6, CompletingState, t, k - 2, f)
  {
    hide Path;
    PathLast(log, Completed, t, k, f);
    PathBack(log, Completed, t, k, f);
    var l1 := Init(log);
    PathLast(l1, AwaitingProcessReturn, t, k, f);
    PathBack(l1, AwaitingProcessReturn, t, k, f);
    var l2 := Init(l1);
    assert l2 == log[..|log| - 2];
    PathLast(l2, RemovingTail, t, k, f);
    PathBack(l2, RemovingTail, t, k, f);
    var l3 := Init(l2);
    assert l3 == log[..|log| - 3];
    PathLast(l3, AwaitingTailRemoval, t, k - 1, f);
    PathBack(l3, AwaitingTailRemoval, t, k - 1, f);
    var l4 := Init(l3);
    assert l4 == log[..|log| - 4];
    PathLast(l4, RemovingFirst, t, k - 1, f);
    PathBack(l4, RemovingFirst, t, k - 1, f);
    var l5 := Init(l4);
    assert l5 == log[..|log| - 5];
    PathLast(l5, AwaitingFirstRemoval, t, k - 2, f);
    PathBack(l5, AwaitingFirstRemoval, t, k - 2, f);
    l6 := Init(l5);
    assert l6 == log[..|log| - 6];
    PathLast(l6, CompletingState, t, k - 2, f);
  }

  /** A completed record has been through one uninterrupted, exactly matched sequence. */
  lemma CompletedOnlyBySequence(es: seq<Event>, slot: nat)
    requires slot < SLOTS && Run(Initial(), es).records[slot].phase.Completed?
    ensures var t := Run(Initial(), es).records[slot].ticket;
            exists m: nat, f, g, n: nat :: CompletedBy(Log(Initial(), es, slot), t, m, f, g, n)
  {
    hide Run, Log;
    RunIsTraced(es, slot);
    var log, t := Log(Initial(), es, slot), Run(Initial(), es).records[slot].ticket;
    var k: nat, f :| k <= Run(Initial(), es).mutation && Path(log, Completed, t, k, f);
    var l6 := CompletionPath(log, t, k, f);
    var l7 := Init(l6);
    assert l7 == log[..|log| - 7] && ActiveAt(l7, t, k - 3);
    var g :| Path(l7, Active, t, k - 3, g);
    var n := ActivePath(l7, t, k - 3, g);
    assert CompletedBy(log, t, k - 2, f, g, n);
  }

  /** An interrupted record was moved at the mutation directly after it became active. */
  lemma InterruptedOnlyByMovement(es: seq<Event>, slot: nat)
    requires slot < SLOTS && Run(Initial(), es).records[slot].phase.Interrupted?
    ensures var t := Run(Initial(), es).records[slot].ticket;
            exists m: nat, g, n: nat :: InterruptedBy(Log(Initial(), es, slot), t, m, g, n)
  {
    hide Run, Log;
    RunIsTraced(es, slot);
    var log, t := Log(Initial(), es, slot), Run(Initial(), es).records[slot].ticket;
    var k: nat, g :| k <= Run(Initial(), es).mutation && Path(log, Interrupted, t, k, g);
    var l1 := log[..|log| - 1];
    assert Path(l1, Moving, t, k, g);
    var l2 := l1[..|l1| - 1];
    assert Path(l2, Active, t, k - 1, g) && l2 == log[..|log| - 2];
    var n := ActivePath(l2, t, k - 1, g);
    assert InterruptedBy(log, t, k, g, n);
  }

  // ----- what the runtime asks of a history -----

  lemma {:induction false} LogIsCurrent(es: seq<Event>, slot: nat)
    requires slot < SLOTS
    ensures var log, r := Log(Initial(), es, slot), Run(Initial(), es).records[slot];
            if log == [] then r.phase.Unknown? && r.ticket == 0
            else log[|log| - 1].phase == r.phase && log[|log| - 1].ticket == r.ticket
    decreases |es|
  {
    hide Step;
    if es != [] { LogIsCurrent(es[..|es| - 1], slot); }
  }

  ghost predicate WasInterrupted(log: seq<Mark>, ticket: nat) {
    exists m: nat, g, n: nat :: InterruptedBy(log, ticket, m, g, n)
  }

  ghost predicate WasCompleted(log: seq<Mark>, ticket: nat) {
    exists m: nat, f, g, n: nat :: CompletedBy(log, ticket, m, f, g, n)
  }

  /** An interruption is reported for a power of one's own exactly when its log ends with the
      interrupting movement. */
  lemma InterruptedExactly(es: seq<Event>, slot: nat, ticket: nat, identity: Identity)
    requires OwnPower(Run(Initial(), es), slot, ticket, identity)
    ensures InterruptedLocally(Run(Initial(), es), slot, ticket, identity) <==> WasInterrupted(Log(Initial(), es, slot), ticket)
  {
    hide Run, Log;
    LogIsCurrent(es, slot);
    if InterruptedLocally(Run(Initial(), es), slot, ticket, identity) { InterruptedOnlyByMovement(es, slot); }
  }

  lemma CompletedExactly(es: seq<Event>, slot: nat)
    requires slot < SLOTS
    ensures var r := Run(Initial(), es).records[slot];
            r.phase.Completed? <==> WasCompleted(Log(Initial(), es, slot), r.ticket)
  {
    hide Run, Log;
    LogIsCurrent(es, slot);
    if Run(Initial(), es).records[slot].phase.Completed? { CompletedOnlyBySequence(es, slot); }
  }

  /** A manual start of another power, in progress for at most three mutations. */
  predicate ManualOk(h: History) {
    && (h.manual.phase.AwaitingStart? ==> h.manual.mutation == h.manual.sent)
    && (h.manual.phase.SettingState? || h.manual.phase.AwaitingAppend? ==> h.manual.mutation == h.manual.sent + 1)
    && (h.manual.phase.Appending? || h.manual.phase.AwaitingStartReturn? ==> h.manual.mutation == h.manual.sent + 2)
    && (Live(h.manual.phase) ==> Whole(h.manual.frame))
  }

  lemma {:induction false} ManualRuns(es: seq<Event>)
    ensures ManualOk(Run(Initial(), es))
    decreases |es|
  {
    if es != [] {
      ManualRuns(es[..|es| - 1]);
      ManualStep(Run(Initial(), es[..|es| - 1]), es[|es| - 1]);
      hide Step, ManualOk;
    }
  }

  lemma ManualStep(h: History, e: Event)
    requires |h.records| == SLOTS && ManualOk(h)
    ensures ManualOk(Step(h, e))
  {
    hide Relinquished, Invalidated, Sent, ForgetAll, UnqueuedForgotten, Ambiguous, LastHit, Hits, Current, Same;
  }

  /** In h, event e ends a manual start that was sent after the record in the slot was armed:
      either in the mutation it was sent at, or two mutations later, through its own frame. */
  predicate Relinquishes(h: History, e: Event, slot: nat, ticket: nat) {
    && slot < |h.records|
    && var r, m := h.records[slot], h.manual;
       && r.ticket == ticket < m.sent && r.identity == m.identity && r.queued && r.ownedFollowup && r.origin.FromSelfPower?
       && !Terminal(r.phase)
       && (|| (e == ManualDirectReturned(m.identity, m.power, true) && ManualCurrent(h, AwaitingStart) && h.mutation == m.sent)
           || (e == ManualProcessReturned(m.mutation, true) && ManualCurrent(h, AwaitingStartReturn) && h.mutation == m.sent + 2
               && Whole(m.frame)))
  }

  ghost predicate GivenUp(es: seq<Event>, slot: nat, ticket: nat) {
    exists n :: 0 <= n < |es| && Relinquishes(Run(Initial(), es[..n]), es[n], slot, ticket)
  }

  /** What a step does to a record's ticket and to the mark that it was given up. */
  lemma TicketStep(h: History, e: Event, slot: nat)
    requires Inv(h) && ManualOk(h) && slot < SLOTS
    ensures var r, s := h.records[slot], Step(h, e).records[slot];
            || (s.ticket == r.ticket && s.relinquished == (r.relinquished || Relinquishes(h, e, slot, r.ticket)))
            || (s.ticket == 0 && !s.relinquished) || (s.ticket > h.mutation && !s.relinquished)
  {
    hide Step, Inv;
    Sized(h);
    if AboutRecord(e) { TicketRecordStep(h, e, slot); }
    else if e.BeginStart? { TicketStartStep(h, e, slot); }
    else if e.ManualProcessReturned? || e.ManualDirectReturned? { TicketManualStep(h, e, slot); }
    else { TicketOtherStep(h, e, slot); }
  }

  lemma TicketRecordStep(h: History, e: Event, slot: nat)
    requires |h.records| == SLOTS && slot < SLOTS && AboutRecord(e)
    ensures var r, s := h.records[slot], Step(h, e).records[slot];
            || (s.ticket == r.ticket && s.relinquished == r.relinquished)
            || (s.ticket == 0 && !s.relinquished) || (s.ticket > h.mutation && !s.relinquished)
  {
    hide Start, Return, Proceed, Other, Foreign, Relinquished;
  }

  lemma TicketStartStep(h: History, e: Event, slot: nat)
    requires |h.records| == SLOTS && slot < SLOTS && e.BeginStart?
    ensures var r, s := h.records[slot], Step(h, e).records[slot]; s.ticket == r.ticket && s.relinquished == r.relinquished
  {
    hide Hits, Startable;
  }

  lemma TicketManualStep(h: History, e: Event, slot: nat)
    requires |h.records| == SLOTS && ManualOk(h) && slot < SLOTS && (e.ManualProcessReturned? || e.ManualDirectReturned?)
    ensures var r, s := h.records[slot], Step(h, e).records[slot];
            s.ticket == r.ticket && s.relinquished == (r.relinquished || Relinquishes(h, e, slot, r.ticket))
  {
    hide Start, Return, Proceed, Other, Foreign;
  }

  lemma TicketOtherStep(h: History, e: Event, slot: nat)
    requires |h.records| == SLOTS && slot < SLOTS
    requires !AboutRecord(e) && !e.BeginStart? && !e.ManualProcessReturned? && !e.ManualDirectReturned?
    ensures var r, s := h.records[slot], Step(h, e).records[slot]; s.ticket == r.ticket && s.relinquished == r.relinquished
  {
    TicketsStay(h, slot);
    hide Start, Relinquished, Return, Other, Foreign, Proceed, Advance;
  }

  lemma TicketsStay(h: History, slot: nat)
    requires slot < |h.records|
    ensures forall t, from, to, ok :: TicketStays(h, Return(h, t, from, to, ok), slot)
    ensures forall a :: TicketStays(h, Other(h, a), slot) && TicketStays(h, Foreign(h, a), slot)
    ensures forall to :: h.current.index < |h.records| ==> TicketStays(h, Proceed(h, to), slot)
    ensures TicketStays(h, Advance(h), slot)
  {
  }

  predicate TicketStays(h: History, g: History, slot: nat)
    requires slot < |h.records|
  {
    && |g.records| == |h.records|
    && g.records[slot].ticket == h.records[slot].ticket && g.records[slot].relinquished == h.records[slot].relinquished
  }

  /** A record is marked as given up exactly when, since it was armed, a manual start ended. */
  lemma {:induction false} GivenUpExactly(es: seq<Event>, slot: nat)
    requires slot < SLOTS && Run(Initial(), es).records[slot].ticket != 0
    ensures var r := Run(Initial(), es).records[slot]; r.relinquished <==> GivenUp(es, slot, r.ticket)
    decreases |es|
  {
    if es != [] {
      var es', e := es[..|es| - 1], es[|es| - 1];
      var h := Run(Initial(), es');
      RunKeeps(es');
      ManualRuns(es');
      TicketStep(h, e, slot);
      var t, u := h.records[slot].ticket, Run(Initial(), es).records[slot].ticket;
      assert t <= h.mutation;
      hide Inv, Step, GivenUp, Relinquishes, ManualOk;
      GivenUpSnoc(es, slot, u);
      if u == t { GivenUpExactly(es', slot); }
      else if GivenUp(es, slot, u) { GivenUpBounds(es, slot, u); }
    }
  }

  lemma GivenUpSnoc(es: seq<Event>, slot: nat, t: nat)
    requires es != []
    ensures var es', e := es[..|es| - 1], es[|es| - 1];
            GivenUp(es, slot, t) <==> GivenUp(es', slot, t) || Relinquishes(Run(Initial(), es'), e, slot, t)
  {
    hide Relinquishes, Run;
    var es' := es[..|es| - 1];
    assert forall n :: 0 <= n < |es'| ==> es'[..n] == es[..n] && es'[n] == es[n];
  }

  /** What was given up had been armed by then. */
  lemma GivenUpBounds(es: seq<Event>, slot: nat, t: nat)
    requires slot < SLOTS && es != [] && GivenUp(es, slot, t)
    ensures t <= Run(Initial(), es[..|es| - 1]).mutation
  {
    var n :| 0 <= n < |es| && Relinquishes(Run(Initial(), es[..n]), es[n], slot, t);
    var es' := es[..|es| - 1];
    RunKeeps(es[..n]);
    RunSplits(Initial(), es', n);
    assert es'[..n] == es[..n];
    MutationGrows(Run(Initial(), es[..n]), es'[n..]);
    hide Run;
  }

  lemma {:induction false} RunSplits(h: History, es: seq<Event>, n: nat)
    requires |h.records| == SLOTS && n <= |es|
    ensures Run(h, es) == Run(Run(h, es[..n]), es[n..])
    decreases |es|
  {
    hide Step;
    if n < |es| {
      var es' := es[..|es| - 1];
      RunSplits(h, es', n);
      assert es'[..n] == es[..n] && es[n..][..|es[n..]| - 1] == es'[n..] && es[n..][|es[n..]| - 1] == es[|es| - 1];
    } else {
      assert es[..n] == es;
    }
  }

  /** A power of one's own is reported over exactly when it was completed or interrupted in
      sequence, or a manual start since it was armed has taken its place. */
  lemma OverExactly(es: seq<Event>, slot: nat, ticket: nat, identity: Identity)
    requires OwnPower(Run(Initial(), es), slot, ticket, identity)
    ensures OverLocally(Run(Initial(), es), slot, ticket, identity) <==>
            || WasCompleted(Log(Initial(), es, slot), ticket)
            || WasInterrupted(Log(Initial(), es, slot), ticket)
            || GivenUp(es, slot, ticket)
  {
    hide Run, Log, WasCompleted, WasInterrupted, GivenUp;
    CompletedExactly(es, slot);
    InterruptedExactly(es, slot, ticket, identity);
    GivenUpExactly(es, slot);
  }

  /** The event arms the slot, resets the lifetime, or comes when the counter is exhausted. */
  predicate Ends(h: History, e: Event, slot: nat) {
    || (e.Arm? && e.slot == slot && Valid(e.identity) && e.power != 0 && (Valid(h.bound) ==> h.bound == e.identity))
    || (e.ResetExactLifetime? && Valid(e.identity) && h.bound == e.identity)
    || !MayAdvance(h)
  }

  /** An outcome stands, through any further run, until its slot is armed again, the lifetime
      is reset, or the counter is exhausted. */
  lemma {:induction false} OutcomesStand(h: History, es: seq<Event>, slot: nat)
    requires Inv(h) && |h.records| == SLOTS && slot < SLOTS && Terminal(h.records[slot].phase)
    requires forall n :: 0 <= n < |es| ==> !Ends(Run(h, es[..n]), es[n], slot)
    ensures Run(h, es).records[slot].phase == h.records[slot].phase && Run(h, es).records[slot].ticket == h.records[slot].ticket
    decreases |es|
  {
    if es != [] {
      var es', e := es[..|es| - 1], es[|es| - 1];
      assert forall n :: 0 <= n < |es'| ==> es'[..n] == es[..n] && es'[n] == es[n];
      hide Inv, Step, Ends;
      OutcomesStand(h, es', slot);
      MutationGrows(h, es');
      OutcomeStands(Run(h, es'), e, slot);
    }
  }

  lemma OutcomeStands(h: History, e: Event, slot: nat)
    requires Inv(h) && slot < SLOTS && Terminal(h.records[slot].phase) && !Ends(h, e, slot)
    ensures Step(h, e).records[slot].phase == h.records[slot].phase && Step(h, e).records[slot].ticket == h.records[slot].ticket
  {
    hide Return, Proceed, Other, Foreign, Start;
    ReturnsSpare(h, slot);
    OthersSpare(h, slot);
    ProceedsSpare(h, slot);
    if e.BeginStart? { StartSpares(h, e.identity, e.power, e.at, slot); }
  }

  lemma ReturnsSpare(h: History, slot: nat)
    requires slot < |h.records| && Terminal(h.records[slot].phase)
    ensures forall t, from, to, ok :: !Terminal(from) ==>
              |Return(h, t, from, to, ok).records| == |h.records| && Return(h, t, from, to, ok).records[slot] == h.records[slot]
  {
  }

  lemma OthersSpare(h: History, slot: nat)
    requires slot < |h.records| && Terminal(h.records[slot].phase) && MayAdvance(h)
    ensures forall a :: |Other(h, a).records| == |h.records| && Other(h, a).records[slot] == h.records[slot]
    ensures forall a :: |Foreign(h, a).records| == |h.records| && Foreign(h, a).records[slot] == h.records[slot]
  {
  }

  lemma ProceedsSpare(h: History, slot: nat)
    requires slot < |h.records| && Terminal(h.records[slot].phase) && MayAdvance(h)
    ensures forall to :: h.current.index < |h.records| && h.current.index != slot ==>
              |Proceed(h, to).records| == |h.records| && Proceed(h, to).records[slot] == h.records[slot]
  {
  }

  lemma StartSpares(h: History, id: Identity, power: nat, at: Frame, slot: nat)
    requires Inv(h) && slot < SLOTS && Terminal(h.records[slot].phase) && MayAdvance(h)
    ensures Start(h, id, power, at).records[slot] == h.records[slot]
  {
    hide Hits;
  }

  // ----- tokens and tickets -----

  predicate Returns(e: Event) {
    e.OwnedFollowupReturned? || e.StateReturned? || e.AppendReturned? || e.StartProcessReturned? || e.MovementReturned?
    || e.CompletionStateReturned? || e.RemovalReturned? || e.CompletionProcessReturned?
  }

  function TokenOf(e: Event): Token
    requires Returns(e)
  {
    e.token
  }

  lemma {:induction false} MutationGrows(h: History, es: seq<Event>)
    requires Inv(h)
    ensures Inv(Run(h, es)) && h.mutation <= Run(h, es).mutation
    decreases |es|
  {
    Sized(h);
    hide Inv, Step;
    if es != [] {
      MutationGrows(h, es[..|es| - 1]);
      StepKeeps(Run(h, es[..|es| - 1]), es[|es| - 1]);
    }
  }

  /** A token from before the latest mutation changes nothing, now or after any further run. */
  lemma StaleTokensAreInert(h: History, es: seq<Event>, e: Event)
    requires Inv(h) && Returns(e) && TokenOf(e).mutation < h.mutation
    ensures Step(Run(h, es), e) == Run(h, es)
  {
    MutationGrows(h, es);
    hide Inv, Run;
  }

  /** At most one record is live, and the current token is exactly its token. */
  lemma OneLiveRecord(es: seq<Event>, i: nat, j: nat)
    requires i < SLOTS && j < SLOTS
    ensures var h := Run(Initial(), es);
            && (Live(h.records[i].phase) ==> h.records[i].queued && h.current == Token(h.mutation, h.records[i].ticket, i))
            && (Live(h.records[i].phase) && Live(h.records[j].phase) ==> i == j)
  {
    RunKeeps(es);
    hide Run;
  }

  /** Arming issues a ticket above every mutation and ticket so far, through any number of
      lifetime resets in between. */
  lemma TicketsAreFresh(h: History, es: seq<Event>, e: Event, slot: nat)
    requires Inv(h) && slot < SLOTS && e.Arm? && e.slot == slot
    requires Valid(e.identity) && e.power != 0 && (Valid(Run(h, es).bound) ==> Run(h, es).bound == e.identity) && MayAdvance(Run(h, es))
    ensures Step(Run(h, es), e).records[slot].ticket > h.mutation
    ensures forall i :: 0 <= i < SLOTS ==> Step(Run(h, es), e).records[slot].ticket > h.records[i].ticket
  {
    MutationGrows(h, es);
    hide Run;
  }

  // ----- the sequences do lead there -----

  /** Slot is live in phase p, at mutation m and in the given frame. */
  predicate Engaged(h: History, slot: nat, p: Phase, id: Identity, power: nat, t: nat, m: nat, at: Frame) {
    && Inv(h) && slot < SLOTS && h.current == Token(m, t, slot) && Current(h, h.current, p)
    && h.records[slot].identity == id && h.records[slot].power == power && h.frame == at
  }

  /** From an active record, the exact completion sequence ends in completed. */
  lemma CompletionIsReached(h: History, slot: nat, id: Identity, power: nat, t: nat, m: nat, f: Frame, at: Frame)
    requires Engaged(h, slot, Active, id, power, t, m, f) && Whole(at) && m + 3 <= EXHAUSTED
    ensures Run(h, [BeginCompletion(id, power, at), CompletionStateReturned(Token(m + 1, t, slot), true),
                    BeginRemoval(id, power, at, false), RemovalReturned(Token(m + 2, t, slot), false, true),
                    BeginRemoval(id, power, at, true), RemovalReturned(Token(m + 3, t, slot), true, true),
                    CompletionProcessReturned(Token(m + 3, t, slot), true)]).records[slot].phase.Completed?
  {
    Sizes(h);
    hide Step, Inv, Engaged, Run;
    var es := [BeginCompletion(id, power, at), CompletionStateReturned(Token(m + 1, t, slot), true),
               BeginRemoval(id, power, at, false), RemovalReturned(Token(m + 2, t, slot), false, true),
               BeginRemoval(id, power, at, true), RemovalReturned(Token(m + 3, t, slot), true, true),
               CompletionProcessReturned(Token(m + 3, t, slot), true)];
    var a := Step(h, es[0]);
    CompletionBegins(h, slot, id, power, t, m, f, at);
    var b := Step(a, es[1]);
    ReturnLeads(a, slot, CompletingState, AwaitingFirstRemoval, id, power, t, m + 1, at, es[1]);
    var c := Step(b, es[2]);
    RemovalBegins(b, slot, id, power, t, m + 1, at, false);
    var d := Step(c, es[3]);
    ReturnLeads(c, slot, RemovingFirst, AwaitingTailRemoval, id, power, t, m + 2, at, es[3]);
    var e := Step(d, es[4]);
    RemovalBegins(d, slot, id, power, t, m + 2, at, true);
    var g := Step(e, es[5]);
    ReturnLeads(e, slot, RemovingTail, AwaitingProcessReturn, id, power, t, m + 3, at, es[5]);
    LastReturn(g, slot, id, power, t, m + 3, at);
    RunsAlong(h, es);
  }

  lemma Sizes(h: History)
    requires Inv(h)
    ensures |h.records| == SLOTS
  {
  }

  lemma RunsAlong(h: History, es: seq<Event>)
    requires |h.records| == SLOTS && |es| == 7
    ensures Run(h, es) == Step(Step(Step(Step(Step(Step(Step(h, es[0]), es[1]), es[2]), es[3]), es[4]), es[5]), es[6])
  {
    hide Step;
    assert es[..7] == es && es[..0] == [];
    assert forall n :: 0 < n <= 7 ==> es[..n][..n - 1] == es[..n - 1];
    assert Run(h, es[..1]) == Step(h, es[0]);
    assert Run(h, es[..2]) == Step(Run(h, es[..1]), es[1]);
    assert Run(h, es[..3]) == Step(Run(h, es[..2]), es[2]);
    assert Run(h, es[..4]) == Step(Run(h, es[..3]), es[3]);
    assert Run(h, es[..5]) == Step(Run(h, es[..4]), es[4]);
    assert Run(h, es[..6]) == Step(Run(h, es[..5]), es[5]);
  }

  lemma CompletionBegins(h: History, slot: nat, id: Identity, power: nat, t: nat, m: nat, f: Frame, at: Frame)
    requires Engaged(h, slot, Active, id, power, t, m, f) && Whole(at) && m < EXHAUSTED
    ensures Engaged(Step(h, BeginCompletion(id, power, at)), slot, CompletingState, id, power, t, m + 1, at)
  {
    StepKeeps(h, BeginCompletion(id, power, at));
    hide Inv, Other, Start;
  }

  lemma RemovalBegins(h: History, slot: nat, id: Identity, power: nat, t: nat, m: nat, at: Frame, final: bool)
    requires Engaged(h, slot, if final then AwaitingTailRemoval else AwaitingFirstRemoval, id, power, t, m, at) && m < EXHAUSTED
    ensures Engaged(Step(h, BeginRemoval(id, power, at, final)), slot, if final then RemovingTail else RemovingFirst, id, power, t, m + 1, at)
  {
    StepKeeps(h, BeginRemoval(id, power, at, final));
    hide Inv, Other, Start;
  }

  /** e is the coherent return of the step from `from`. */
  predicate Coherent(e: Event, token: Token, from: Phase, to: Phase) {
    || (e == CompletionStateReturned(token, true) && from.CompletingState? && to.AwaitingFirstRemoval?)
    || (e == RemovalReturned(token, false, true) && from.RemovingFirst? && to.AwaitingTailRemoval?)
    || (e == RemovalReturned(token, true, true) && from.RemovingTail? && to.AwaitingProcessReturn?)
  }

  lemma ReturnLeads(h: History, slot: nat, from: Phase, to: Phase, id: Identity, power: nat, t: nat, m: nat, at: Frame, e: Event)
    requires Engaged(h, slot, from, id, power, t, m, at) && Coherent(e, Token(m, t, slot), from, to)
    ensures Engaged(Step(h, e), slot, to, id, power, t, m, at)
  {
    StepKeeps(h, e);
    hide Inv, Other, Start;
  }

  lemma LastReturn(h: History, slot: nat, id: Identity, power: nat, t: nat, m: nat, at: Frame)
    requires Engaged(h, slot, AwaitingProcessReturn, id, power, t, m, at)
    ensures Step(h, CompletionProcessReturned(Token(m, t, slot), true)).records[slot].phase.Completed?
  {
    Sizes(h);
    hide Inv, Other, Start;
  }
}
