/** The mutation epoch: every intercepted effect mutator counts itself in, advances a
    shared epoch, runs the original body, advances again and counts itself out, while an
    observer captures the effects and later revalidates them by reading the same three
    words.  Each transition below is one atomic access; runs interleave any number of
    mutators, nested or concurrent, with the observer's reads. */
module EffectEpoch {

  const MAX_DEPTH: int := 0x7fff_ffff
  const MAX_EPOCH: int := 0x7fff_ffff_ffff_ffff

  /** Where one mutator is.  The flag says whether it counted itself in. */
  datatype Pc =
    | ReadDepth | RaiseDepth(prior: int) | Overflow
    | EnterRead | EnterRaise(prior: int) | EnterPoison
    | Body(counted: bool) | Abnormal(counted: bool)
    | LeaveRead(counted: bool) | LeaveRaise(counted: bool, prior: int) | LeavePoison(counted: bool)
    | LowerDepth | Underflow | Done

  /** The shared words, the effects they guard, and the mutators; a finished one's place may
      be taken by another. */
  datatype State = State(epoch: int, depth: int, poisoned: bool, effects: nat, mutators: seq<Pc>)

  /** What a running body does next. */
  datatype Choice = Write(effects: nat) | Return | Throw

  datatype Action = Spawn | Reuse(m: nat) | Run(m: nat, choice: Choice) | PoisonFromOutside | Idle

  const INITIAL := State(1, 0, false, 0, [])

  function DepthLoop(seen: int): Pc { if 0 <= seen < MAX_DEPTH then RaiseDepth(seen) else Overflow }

  function EnterLoop(seen: int): Pc { if 0 < seen < MAX_EPOCH then EnterRaise(seen) else EnterPoison }

  function LeaveLoop(counted: bool, seen: int): Pc {
    if 0 < seen < MAX_EPOCH then LeaveRaise(counted, seen) else LeavePoison(counted)
  }

  function AfterLeave(counted: bool): Pc { if counted then LowerDepth else Done }

  /** Mutator m performs its next atomic access. */
  function Access(s: State, m: nat, choice: Choice): State
    requires m < |s.mutators|
  {
    var go := (pc: Pc) => s.mutators[m := pc];
    match s.mutators[m]
    case ReadDepth => s.(mutators := go(DepthLoop(s.depth)))
    case RaiseDepth(prior) =>
      if s.depth == prior then s.(depth := prior + 1, mutators := go(EnterRead)) else s.(mutators := go(DepthLoop(s.depth)))
    case Overflow => s.(poisoned := true, mutators := go(Body(false)))
    case EnterRead => s.(mutators := go(EnterLoop(s.epoch)))
    case EnterRaise(prior) =>
      if s.epoch == prior then
        s.(epoch := prior + 1, mutators := go(if prior + 1 == MAX_EPOCH then EnterPoison else Body(true)))
      else s.(mutators := go(EnterLoop(s.epoch)))
    case EnterPoison => s.(poisoned := true, mutators := go(Body(true)))
    case Body(c) =>
      (match choice
       case Write(v) => s.(effects := v)
       case Return => s.(mutators := go(LeaveRead(c)))
       case Throw => s.(mutators := go(Abnormal(c))))
    case Abnormal(c) => s.(poisoned := true, mutators := go(LeaveRead(c)))
    case LeaveRead(c) => s.(mutators := go(LeaveLoop(c, s.epoch)))
    case LeaveRaise(c, prior) =>
      if s.epoch == prior then
        s.(epoch := prior + 1, mutators := go(if prior + 1 == MAX_EPOCH then LeavePoison(c) else AfterLeave(c)))
      else s.(mutators := go(LeaveLoop(c, s.epoch)))
    case LeavePoison(c) => s.(poisoned := true, mutators := go(AfterLeave(c)))
    case LowerDepth => s.(depth := s.depth - 1, mutators := go(if s.depth - 1 < 0 then Underflow else Done))
    case Underflow => s.(poisoned := true, mutators := go(Done))
    case Done => s
  }

  /** One step of the whole; an observer's read changes nothing, so it is Idle here. */
  function Next(s: State, a: Action): State {
    match a
    case Spawn => s.(mutators := s.mutators + [ReadDepth])
    case Reuse(m) => if m < |s.mutators| && s.mutators[m].Done? then s.(mutators := s.mutators[m := ReadDepth]) else s
    case Run(m, choice) => if m < |s.mutators| then Access(s, m, choice) else s
    case PoisonFromOutside => s.(poisoned := true)
    case Idle => s
  }

  ghost predicate Steps(s: State, t: State) { exists a :: Next(s, a) == t }

  /** Every state of an execution, in order, with no more mutators at once than the depth can
      count. */
  ghost predicate Execution(run: seq<State>) {
    && run != [] && run[0] == INITIAL
    && (forall i :: 0 <= i < |run| - 1 ==> Steps(run[i], run[i + 1]))
    && (forall i :: 0 <= i < |run| ==> |run[i].mutators| <= MAX_DEPTH)
  }

  // ----- the observer -----

  /** The epoch as an observer sees it: zero once exhausted. */
  function Epoch(s: State): int { if 0 < s.epoch < MAX_EPOCH then s.epoch else 0 }

  /** Ready reads first the poison, then the epoch. */
  predicate Ready(first: State, second: State) { !first.poisoned && Epoch(second) != 0 }

  /** The positions of an observer's reads, in the order it makes them: a capture, the
      copy of the effects inside it, and a later revalidation. */
  datatype Reads = Reads(
    epoch0: nat, poison1: nat, ready1: nat, depth1: nat, copy: nat, poison2: nat, ready2: nat, epoch2: nat, depth2: nat,
    poison3: nat, ready3: nat, epoch3: nat, depth3: nat, poison4: nat, ready4: nat, epoch4: nat, depth4: nat)

  predicate Ordered(o: Reads, run: seq<State>) {
    o.epoch0 <= o.poison1 <= o.ready1 <= o.depth1 <= o.copy <= o.poison2 <= o.ready2 <= o.epoch2 <= o.depth2
    <= o.poison3 <= o.ready3 <= o.epoch3 <= o.depth3 <= o.poison4 <= o.ready4 <= o.epoch4 <= o.depth4 < |run|
  }

  predicate Captured(run: seq<State>, o: Reads)
    requires Ordered(o, run)
  {
    && Ready(run[o.poison1], run[o.ready1]) && Epoch(run[o.epoch0]) != 0 && run[o.depth1].depth == 0
    && Ready(run[o.poison2], run[o.ready2]) && Epoch(run[o.epoch2]) == Epoch(run[o.epoch0]) && run[o.depth2].depth == 0
  }

  predicate Revalidated(run: seq<State>, o: Reads)
    requires Ordered(o, run)
  {
    && Ready(run[o.poison3], run[o.ready3]) && Epoch(run[o.epoch3]) == Epoch(run[o.epoch0]) && run[o.depth3].depth == 0
    && Ready(run[o.poison4], run[o.ready4]) && Epoch(run[o.epoch4]) == Epoch(run[o.epoch0]) && run[o.depth4].depth == 0
  }

  /** No mutator is inside the original body. */
  predicate Quiet(s: State) { forall m :: 0 <= m < |s.mutators| ==> !s.mutators[m].Body? }

  // ----- what every reachable state keeps -----

  /** Counted in, not yet counted out. */
  predicate InFlight(pc: Pc) {
    match pc
    case EnterRead | EnterRaise(_) | EnterPoison | LowerDepth => true
    case Body(c) => c
    case Abnormal(c) => c
    case LeaveRead(c) => c
    case LeaveRaise(c, _) => c
    case LeavePoison(c) => c
    case _ => false
  }

  function Count(ms: seq<Pc>): (n: nat)
    ensures n <= |ms|
  {
    if ms == [] then 0 else Count(ms[..|ms| - 1]) + if InFlight(ms[|ms| - 1]) then 1 else 0
  }

  predicate Uncounted(pc: Pc) {
    pc.Overflow? || ((pc.Body? || pc.Abnormal? || pc.LeaveRead? || pc.LeaveRaise? || pc.LeavePoison?) && !pc.counted)
  }

  predicate PcOk(s: State, pc: Pc) {
    && !Uncounted(pc) && !pc.Underflow?
    && (pc.RaiseDepth? ==> 0 <= pc.prior < MAX_DEPTH)
    && (pc.EnterRaise? ==> 0 < pc.prior < MAX_EPOCH)
    && (pc.LeaveRaise? ==> 0 < pc.prior < MAX_EPOCH)
    && (pc.EnterPoison? || pc.LeavePoison? ==> s.epoch == MAX_EPOCH)
  }

  predicate Inv(s: State) {
    && 1 <= s.epoch <= MAX_EPOCH && s.depth == Count(s.mutators)
    && forall m :: 0 <= m < |s.mutators| ==> PcOk(s, s.mutators[m])
  }

  lemma {:induction false} CountOne(ms: seq<Pc>, m: nat)
    requires m < |ms| && InFlight(ms[m])
    ensures Count(ms) >= 1
    decreases |ms|
  {
    if m < |ms| - 1 { CountOne(ms[..|ms| - 1], m); }
  }

  lemma {:induction false} CountFlip(ms: seq<Pc>, m: nat, pc: Pc)
    requires m < |ms|
    ensures Count(ms[m := pc]) + (if InFlight(ms[m]) then 1 else 0) == Count(ms) + if InFlight(pc) then 1 else 0
    decreases |ms|
  {
    var n := |ms| - 1;
    if m < n {
      assert ms[m := pc][..n] == ms[..n][m := pc];
      CountFlip(ms[..n], m, pc);
    } else {
      assert ms[m := pc][..n] == ms[..n];
    }
  }

  lemma {:induction false} CountAll(ms: seq<Pc>, m: nat)
    requires m < |ms| && !InFlight(ms[m])
    ensures Count(ms) < |ms|
    decreases |ms|
  {
    if m < |ms| - 1 { CountAll(ms[..|ms| - 1], m); }
  }

  lemma AccessKeeps(s: State, m: nat, choice: Choice)
    requires Inv(s) && m < |s.mutators| <= MAX_DEPTH
    ensures Inv(Access(s, m, choice)) && s.epoch <= Access(s, m, choice).epoch
  {
    var t := Access(s, m, choice);
    DepthCounts(s, m, choice);
    PcKeeps(s, m, choice);
    forall i | 0 <= i < |t.mutators| ensures PcOk(t, t.mutators[i]) {
      assert i != m ==> t.mutators[i] == s.mutators[i];
      OthersKeep(s, m, choice, s.mutators[i]);
    }
    hide Count, Access, PcOk;
  }

  lemma PcKeeps(s: State, m: nat, choice: Choice)
    requires 1 <= s.epoch <= MAX_EPOCH && m < |s.mutators| && PcOk(s, s.mutators[m])
    requires s.mutators[m].ReadDepth? || s.mutators[m].RaiseDepth? ==> 0 <= s.depth < MAX_DEPTH
    requires s.mutators[m].LowerDepth? ==> s.depth > 0
    ensures 1 <= s.epoch <= Access(s, m, choice).epoch <= MAX_EPOCH
    ensures |Access(s, m, choice).mutators| == |s.mutators| && PcOk(Access(s, m, choice), Access(s, m, choice).mutators[m])
  {
  }

  lemma OthersKeep(s: State, m: nat, choice: Choice, pc: Pc)
    requires m < |s.mutators| && PcOk(s, s.mutators[m]) && PcOk(s, pc) && s.epoch <= MAX_EPOCH
    ensures PcOk(Access(s, m, choice), pc)
  {
  }

  lemma DepthCounts(s: State, m: nat, choice: Choice)
    requires Inv(s) && m < |s.mutators| <= MAX_DEPTH
    ensures Access(s, m, choice).depth == Count(Access(s, m, choice).mutators)
    ensures s.mutators[m].ReadDepth? || s.mutators[m].RaiseDepth? ==> s.depth < MAX_DEPTH
    ensures s.mutators[m].LowerDepth? ==> s.depth > 0
  {
    var t := Access(s, m, choice);
    assert PcOk(s, s.mutators[m]);
    CountFlip(s.mutators, m, t.mutators[m]);
    if !InFlight(s.mutators[m]) { CountAll(s.mutators, m); }
    if InFlight(s.mutators[m]) { CountOne(s.mutators, m); }
    assert t.mutators == s.mutators[m := t.mutators[m]];
    hide Count, Inv;
  }

  lemma PoisonedStateKeeps(s: State)
    requires Inv(s)
    ensures Inv(s.(poisoned := true)) && PcOk(s, ReadDepth)
    ensures forall pc, ms :: PcOk(s, pc) ==> PcOk(s.(mutators := ms), pc)
  {
    hide Count;
  }

  lemma NextKeeps(s: State, a: Action)
    requires Inv(s) && |s.mutators| <= MAX_DEPTH
    ensures Inv(Next(s, a)) && s.epoch <= Next(s, a).epoch
  {
    PoisonedStateKeeps(s);
    hide Access, PcOk;
    match a
    case Spawn => assert (s.mutators + [ReadDepth])[..|s.mutators|] == s.mutators;
    case Reuse(m) => if m < |s.mutators| && s.mutators[m].Done? { CountFlip(s.mutators, m, ReadDepth); }
    case Run(m, choice) => if m < |s.mutators| { AccessKeeps(s, m, choice); }
    case _ =>
  }

  lemma {:induction false} AllInv(run: seq<State>, i: nat)
    requires Execution(run) && i < |run|
    ensures Inv(run[i])
  {
    if i > 0 {
      AllInv(run, i - 1);
      assert Steps(run[i - 1], run[i - 1 + 1]);
      var a :| Next(run[i - 1], a) == run[i];
      NextKeeps(run[i - 1], a);
    }
  }

  /** The action taken to reach position j. */
  lemma ActionBefore(run: seq<State>, j: nat) returns (a: Action)
    requires Execution(run) && 0 < j < |run|
    ensures Next(run[j - 1], a) == run[j] && Inv(run[j - 1]) && |run[j - 1].mutators| <= MAX_DEPTH
  {
    AllInv(run, j - 1);
    hide Inv;
    assert Steps(run[j - 1], run[j - 1 + 1]);
    a :| Next(run[j - 1], a) == run[j];
  }

  lemma {:induction false} EpochGrows(run: seq<State>, i: nat, j: nat)
    requires Execution(run) && i <= j < |run|
    ensures run[i].epoch <= run[j].epoch
    decreases j
  {
    if i < j {
      EpochGrows(run, i, j - 1);
      var a := ActionBefore(run, j);
      NextKeeps(run[j - 1], a);
    }
  }

  // ----- the interleaving argument -----

  predicate Entering(pc: Pc) { pc.EnterRead? || pc.EnterRaise? }

  /** Whoever is counted in has not yet advanced the epoch. */
  predicate OnlyEntering(s: State) {
    forall m :: 0 <= m < |s.mutators| && InFlight(s.mutators[m]) ==> Entering(s.mutators[m])
  }

  /** The body, and the way out of it up to the second advance. */
  predicate Inside(pc: Pc) {
    pc == Body(true) || pc == Abnormal(true) || pc == LeaveRead(true) || (pc.LeaveRaise? && pc.counted)
  }

  lemma StillEntering(s: State, a: Action)
    requires Inv(s) && OnlyEntering(s) && Next(s, a).epoch == s.epoch < MAX_EPOCH
    ensures OnlyEntering(Next(s, a))
  {
    hide Count;
    if a.Run? && a.m < |s.mutators| { assert PcOk(s, s.mutators[a.m]); }
  }

  lemma StillInside(s: State, a: Action, m: nat)
    requires Inv(s) && m < |s.mutators| && Inside(s.mutators[m]) && Next(s, a).epoch == s.epoch < MAX_EPOCH
    ensures m < |Next(s, a).mutators| && Inside(Next(s, a).mutators[m])
  {
    hide Count;
    assert PcOk(s, s.mutators[m]);
  }

  lemma NobodyInFlight(s: State)
    requires Inv(s) && s.depth == 0
    ensures OnlyEntering(s)
  {
    forall m | 0 <= m < |s.mutators|
      ensures !InFlight(s.mutators[m])
    {
      if InFlight(s.mutators[m]) { CountOne(s.mutators, m); }
    }
  }

  /** While the epoch stands still after a reading of depth zero, only entries happen. */
  lemma {:induction false} EnteringSince(run: seq<State>, d: nat, j: nat)
    requires Execution(run) && d <= j < |run|
    requires run[d].depth == 0 && run[j].epoch == run[d].epoch < MAX_EPOCH
    ensures OnlyEntering(run[j])
    decreases j
  {
    AllInv(run, j);
    if d == j {
      NobodyInFlight(run[j]);
    } else {
      EpochGrows(run, d, j - 1);
      EpochGrows(run, j - 1, j);
      EnteringSince(run, d, j - 1);
      var a := ActionBefore(run, j);
      hide Execution, Inv, OnlyEntering, Next;
      StillEntering(run[j - 1], a);
    }
  }

  /** A mutator found inside its body is still inside while the epoch stands still. */
  lemma {:induction false} InsideUntil(run: seq<State>, k: nat, d: nat, m: nat)
    requires Execution(run) && k <= d < |run| && m < |run[k].mutators| && Inside(run[k].mutators[m])
    requires run[d].epoch == run[k].epoch < MAX_EPOCH
    ensures m < |run[d].mutators| && Inside(run[d].mutators[m])
    decreases d
  {
    if k < d {
      EpochGrows(run, k, d - 1);
      EpochGrows(run, d - 1, d);
      InsideUntil(run, k, d - 1, m);
      var a := ActionBefore(run, d);
      StillInside(run[d - 1], a, m);
    }
  }

  /** One reading of depth zero between two equal readings of the epoch: no body anywhere
      between those two. */
  lemma QuietBetween(run: seq<State>, e: nat, d: nat, f: nat, k: nat)
    requires Execution(run) && e <= d <= f < |run| && e <= k <= f
    requires Epoch(run[e]) == Epoch(run[f]) != 0 && run[d].depth == 0
    ensures Quiet(run[k])
  {
    EpochGrows(run, e, k);
    EpochGrows(run, k, f);
    EpochGrows(run, e, d);
    EpochGrows(run, d, f);
    AllInv(run, k);
    if d <= k {
      EnteringSince(run, d, k);
      forall m | 0 <= m < |run[k].mutators|
        ensures !run[k].mutators[m].Body?
      {
        assert PcOk(run[k], run[k].mutators[m]);
      }
    } else {
      forall m | 0 <= m < |run[k].mutators|
        ensures !run[k].mutators[m].Body?
      {
        assert PcOk(run[k], run[k].mutators[m]);
        if run[k].mutators[m].Body? {
          InsideUntil(run, k, d, m);
          CountOne(run[d].mutators, m);
          AllInv(run, d);
          assert false;
        }
      }
    }
  }

  /** Only a body changes the effects. */
  lemma QuietLeavesEffects(s: State, a: Action)
    requires Quiet(s)
    ensures Next(s, a).effects == s.effects
  {
  }

  lemma {:induction false} EffectsStand(run: seq<State>, e: nat, k: nat)
    requires Execution(run) && e <= k < |run| && forall i :: e <= i < k ==> Quiet(run[i])
    ensures run[k].effects == run[e].effects
    decreases k
  {
    if e < k {
      EffectsStand(run, e, k - 1);
      var a := ActionBefore(run, k);
      QuietLeavesEffects(run[k - 1], a);
    }
  }

  // ----- what an observer may conclude -----

  /** A successful capture copied effects that no body was changing: from its first reading
      of the epoch to its second, none ran and the effects were those copied. */
  lemma CaptureIsQuiet(run: seq<State>, o: Reads, k: nat)
    requires Execution(run) && Ordered(o, run) && Captured(run, o) && o.epoch0 <= k <= o.epoch2
    ensures Quiet(run[k]) && run[k].effects == run[o.copy].effects
  {
    forall i | o.epoch0 <= i <= o.epoch2 ensures Quiet(run[i]) { QuietBetween(run, o.epoch0, o.depth1, o.epoch2, i); }
    EffectsStand(run, o.epoch0, k);
    EffectsStand(run, o.epoch0, o.copy);
  }

  /** A successful revalidation extends this to its own last reading of the epoch: the
      captured effects are the current ones at every moment up to there. */
  lemma RevalidationIsQuiet(run: seq<State>, o: Reads, k: nat)
    requires Execution(run) && Ordered(o, run) && Captured(run, o) && Revalidated(run, o)
    requires o.epoch0 <= k <= o.epoch4
    ensures Quiet(run[k]) && run[k].effects == run[o.copy].effects
  {
    forall i | o.epoch0 <= i <= o.epoch4 ensures Quiet(run[i]) { QuietBetween(run, o.epoch0, o.depth1, o.epoch4, i); }
    EffectsStand(run, o.epoch0, k);
    EffectsStand(run, o.epoch0, o.copy);
  }

  // ----- after the last reading of the epoch -----

  lemma PoisonLeadsIn(s: State, a: Action, m: nat)
    requires m < |s.mutators| && s.mutators[m].EnterPoison? && Quiet(Next(s, a))
    ensures m < |Next(s, a).mutators| && Next(s, a).mutators[m].EnterPoison?
  {
  }

  /** Poisoning on entry is followed by the body and nothing else. */
  lemma {:induction false} PoisonedEntry(run: seq<State>, i: nat, j: nat, m: nat)
    requires Execution(run) && i <= j < |run| && m < |run[i].mutators| && run[i].mutators[m].EnterPoison?
    requires forall k :: i <= k <= j ==> Quiet(run[k])
    ensures m < |run[j].mutators| && run[j].mutators[m].EnterPoison?
    decreases j
  {
    if i < j {
      hide Execution, Inv, Next, Quiet;
      PoisonedEntry(run, i, j - 1, m);
      var a := ActionBefore(run, j);
      PoisonLeadsIn(run[j - 1], a, m);
    }
  }

  /** An advance made while only entries are under way leads straight to a body. */
  lemma AdvanceEnters(s: State, a: Action)
    requires Inv(s) && OnlyEntering(s) && Next(s, a).epoch != s.epoch
    ensures a.Run? && a.m < |s.mutators| && a.m < |Next(s, a).mutators|
    ensures Next(s, a).mutators[a.m].EnterPoison? || Next(s, a).mutators[a.m].Body?
  {
    hide Count;
    assert a.Run? && a.m < |s.mutators|;
    assert PcOk(s, s.mutators[a.m]);
  }

  /** The position before the epoch first moves. */
  lemma {:induction false} FirstAdvance(run: seq<State>, i: nat, j: nat) returns (k: nat)
    requires Execution(run) && i <= j < |run| && run[i].epoch != run[j].epoch
    ensures i <= k < j && run[k].epoch == run[i].epoch != run[k + 1].epoch
    decreases j
  {
    if run[j - 1].epoch == run[i].epoch { k := j - 1; } else { k := FirstAdvance(run, i, j - 1); }
  }

  /** The epoch does not move after the last reading of it unless some body runs. */
  lemma AdvanceShows(run: seq<State>, o: Reads)
    requires Execution(run) && Ordered(o, run) && Captured(run, o) && Revalidated(run, o)
    requires forall k :: o.epoch0 <= k <= o.depth4 ==> Quiet(run[k])
    ensures run[o.depth4].epoch == run[o.epoch0].epoch
  {
    if run[o.depth4].epoch != run[o.epoch0].epoch {
      EpochGrows(run, o.epoch0, o.depth1);
      EpochGrows(run, o.depth1, o.epoch4);
      AllInv(run, o.depth4);
      assert run[o.depth4].depth == Count(run[o.depth4].mutators) == 0;
      hide Execution, Quiet, Captured, Revalidated, Inv, Count;
      var k := FirstAdvance(run, o.epoch4, o.depth4);
      var m := FirstEntry(run, o.depth1, k);
      PoisonedEntry(run, k + 1, o.depth4, m);
      CountOne(run[o.depth4].mutators, m);
    }
  }

  /** Whoever moves the epoch first is entering, and has no body behind it. */
  lemma FirstEntry(run: seq<State>, d: nat, k: nat) returns (m: nat)
    requires Execution(run) && d <= k < |run| - 1 && run[d].depth == 0 && run[k].epoch == run[d].epoch < MAX_EPOCH
    requires run[k + 1].epoch != run[k].epoch && Quiet(run[k + 1])
    ensures m < |run[k + 1].mutators| && run[k + 1].mutators[m].EnterPoison?
  {
    EnteringSince(run, d, k);
    var a := ActionBefore(run, k + 1);
    hide Execution, Inv, Next;
    AdvanceEnters(run[k], a);
    m := a.m;
  }

  /** Up to the last reading, that of the depth, the claim is not always true: it holds
      exactly if one more reading of the epoch there would still agree. */
  lemma QuietToTheEnd(run: seq<State>, o: Reads)
    requires Execution(run) && Ordered(o, run) && Captured(run, o) && Revalidated(run, o)
    ensures (forall k :: o.epoch0 <= k <= o.depth4 ==> Quiet(run[k])) <==> Epoch(run[o.depth4]) == Epoch(run[o.epoch0])
  {
    if Epoch(run[o.depth4]) == Epoch(run[o.epoch0]) {
      forall k | o.epoch0 <= k <= o.depth4 ensures Quiet(run[k]) { QuietBetween(run, o.epoch0, o.depth1, o.depth4, k); }
    } else if forall k :: o.epoch0 <= k <= o.depth4 ==> Quiet(run[k]) {
      AdvanceShows(run, o);
    }
  }

  /** One mutator from start to finish, its body writing 7. */
  function LateRun(): seq<State> {
    [ INITIAL,
      State(1, 0, false, 0, [ReadDepth]),
      State(1, 0, false, 0, [RaiseDepth(0)]),
      State(1, 1, false, 0, [EnterRead]),
      State(1, 1, false, 0, [EnterRaise(1)]),
      State(2, 1, false, 0, [Body(true)]),
      State(2, 1, false, 7, [Body(true)]),
      State(2, 1, false, 7, [LeaveRead(true)]),
      State(2, 1, false, 7, [LeaveRaise(true, 2)]),
      State(3, 1, false, 7, [LowerDepth]),
      State(3, 0, false, 7, [Done]) ]
  }

  /** A whole mutation can fit between the last reading of the epoch and the last reading
      of the depth: both calls succeed and the effects have changed. */
  lemma LateBodyIsMissed()
    ensures var run, o := LateRun(), Reads(0, 0, 0, 0, 0, 0, 0, 0, 0, 0, 0, 0, 0, 0, 0, 0, 10);
            && Execution(run) && Ordered(o, run) && Captured(run, o) && Revalidated(run, o)
            && !Quiet(run[5]) && run[o.depth4].effects != run[o.copy].effects
  {
    var run := LateRun();
    assert Next(run[0], Spawn) == run[1];
    assert Next(run[1], Run(0, Return)) == run[2];
    assert Next(run[2], Run(0, Return)) == run[3];
    assert Next(run[3], Run(0, Return)) == run[4];
    assert Next(run[4], Run(0, Return)) == run[5];
    assert Next(run[5], Run(0, Write(7))) == run[6];
    assert Next(run[6], Run(0, Return)) == run[7];
    assert Next(run[7], Run(0, Return)) == run[8];
    assert Next(run[8], Run(0, Return)) == run[9];
    assert Next(run[9], Run(0, Return)) == run[10];
    assert run[5].mutators[0].Body?;
  }
}
