/** The publication writer: two slots in shared memory, an active index, and two counters
    that say when facts, and when the facts deciding admission, have changed. */
module Publication {
  import opened PublicationFrame
  import opened Wrappers

  const LIMIT: nat := 0x3fff_ffff_ffff_ffff

  datatype Slot = Slot(sequence: nat, frame: Frame)

  /** What a reader can see: the active index, and the two slots. */
  datatype Memory = Memory(active: int, slots: seq<Slot>)

  datatype Writer = Writer(
    open: bool, memory: Memory, revision: nat, writes: nat, admission: nat,
    last: Option<Slot>, eligibility: Option<Frame>, faulted: bool)

  /** mapped and random stand for what the system grants: a fresh mapping, a snapshot id.
      torn lists contents a slot may be seen with while it is being overwritten. */
  datatype Event =
    | Open(mapped: bool, revisionFloor: nat, admissionFloor: nat)
    | ObserveAdmission(blocks: nat)
    | InvalidateAdmission
    | Publish(facts: Frame, random: Option<nat>, tick: nat, torn: seq<Frame>)
    | Close

  const BLANK := Memory(-1, [Slot(0, EMPTY), Slot(0, EMPTY)])
  const INITIAL := Writer(false, BLANK, 0, 0, 0, None, None, false)

  function Max(a: nat, b: nat): nat { if a < b then b else a }

  function Closed(w: Writer): Writer {
    w.(open := false, memory := if w.open then w.memory.(active := -1) else w.memory, last := None, eligibility := None)
  }

  function Fault(w: Writer): Writer {
    w.(faulted := true, memory := if w.open then w.memory.(active := -1) else w.memory)
  }

  function Opened(w: Writer, e: Event): Writer
    requires e.Open?
  {
    if !w.open && !w.faulted && e.revisionFloor < LIMIT && e.admissionFloor < LIMIT && e.mapped
    then w.(open := true, memory := BLANK, revision := Max(w.revision, e.revisionFloor), admission := Max(w.admission, e.admissionFloor))
    else Closed(w)
  }

  predicate Unchanged(w: Writer, facts: Frame) { w.eligibility.Some? && SameEligibility(w.eligibility.value, facts) }

  /** A change of eligibility takes a new admission revision, while there are any. */
  function Tracked(w: Writer, facts: Frame): Writer {
    if Unchanged(w, facts) then w
    else if w.admission == LIMIT then Fault(w)
    else w.(admission := w.admission + 1, eligibility := Some(facts))
  }

  predicate TrackOk(w: Writer, facts: Frame) { Unchanged(w, facts) || w.admission != LIMIT }

  /** A frame under its stamps, as every reader demands it. */
  predicate Valid(s: Slot) {
    && s.sequence > 0 && s.sequence % 2 == 0 && s.frame.revision != 0 && s.frame.admission != 0
    && s.frame.snapshot != 0 && s.frame.tick != 0 && Facts(s.frame)
  }

  /** The frame the writer stands by, if any. */
  function Current(w: Writer): Option<Slot> { if w.open && !w.faulted then w.last else None }

  predicate Publishable(w: Writer, e: Event)
    requires e.Publish?
  {
    w.open && !w.faulted && Facts(e.facts) && w.writes != LIMIT
  }

  /** The last frame still says it all; w has been tracked. */
  predicate Repeats(w: Writer, facts: Frame) { w.last.Some? && Same(w.last.value.frame, facts.(admission := w.admission)) }

  /** The facts under their revision, snapshot, tick and admission revision. */
  function Stamped(w: Writer, e: Event): Frame
    requires e.Publish? && (!Repeats(w, e.facts) ==> e.random.Some?)
  {
    var f := e.facts.(admission := w.admission, tick := e.tick);
    if Repeats(w, e.facts) then f.(revision := w.last.value.frame.revision, snapshot := w.last.value.frame.snapshot)
    else f.(revision := w.revision + 1, snapshot := e.random.value)
  }

  /** Whether the frame is published; u is the writer after tracking. */
  predicate Succeeds(w: Writer, e: Event)
    requires e.Publish?
  {
    var u := Tracked(w, e.facts);
    TrackOk(w, e.facts) && (Repeats(u, e.facts) || (u.revision != LIMIT && e.random.Some?))
  }

  function Target(m: Memory): nat { if m.active == 0 then 1 else 0 }

  function Put(m: Memory, s: Slot): Memory
    requires |m.slots| == 2
  {
    m.(slots := m.slots[Target(m) := s])
  }

  /** The stores of one publication, in order: an odd sequence, the frame piece by piece,
      the even sequence, and the index. */
  function Stores(m: Memory, next: Slot, torn: seq<Frame>): seq<Memory>
    requires |m.slots| == 2 && next.sequence > 0
  {
    [Put(m, Slot(next.sequence - 1, m.slots[Target(m)].frame))]
    + seq(|torn|, i requires 0 <= i < |torn| => Put(m, Slot(next.sequence - 1, torn[i])))
    + [Put(m, Slot(next.sequence - 1, next.frame)), Put(m, next), Put(m, next).(active := Target(m))]
  }

  function Published(w: Writer, e: Event): Writer
    requires e.Publish? && |w.memory.slots| == 2
  {
    var u := Tracked(w, e.facts);
    if Succeeds(w, e) then
      var next := Slot(2 * (u.writes + 1), Stamped(u, e));
      u.(revision := if Repeats(u, e.facts) then u.revision else u.revision + 1, writes := u.writes + 1, last := Some(next),
         memory := Put(u.memory, next).(active := Target(u.memory)))
    else
      var spent := if Repeats(u, e.facts) || u.revision == LIMIT || e.random.None? then u.revision else u.revision + 1;
      Fault(u).(revision := spent)
  }

  function Step(w: Writer, e: Event): (r: Writer)
    requires |w.memory.slots| == 2
    ensures |r.memory.slots| == 2
  {
    match e
    case Open(_, _, _) => Opened(w, e)
    case ObserveAdmission(blocks) =>
      if !w.open || w.faulted || w.eligibility.None? || !w.eligibility.value.complete || blocks == 0 || blocks > 63 then w
      else Tracked(w, w.eligibility.value.(blocks := blocks))
    case InvalidateAdmission => if !w.open || w.faulted then w else Tracked(w, EMPTY)
    case Publish(facts, _, _, _) =>
      if !w.open || w.faulted then w else if !Publishable(w, e) then Fault(w) else Published(w, e)
    case Close => Closed(w)
  }

  /** The memories a step passes through, in the order of its stores. */
  function Memories(w: Writer, e: Event): (ms: seq<Memory>)
    requires |w.memory.slots| == 2
    ensures forall i :: 0 <= i < |ms| ==> |ms[i].slots| == 2
  {
    if e.Publish? && Publishable(w, e) && Succeeds(w, e) then
      var u := Tracked(w, e.facts);
      Stores(w.memory, Slot(2 * (u.writes + 1), Stamped(u, e)), e.torn)
    else [Step(w, e).memory]
  }

  /** The frame a step publishes, if it does. */
  function Output(w: Writer, e: Event): seq<Slot>
    requires |w.memory.slots| == 2
  {
    if e.Publish? && Publishable(w, e) && Succeeds(w, e) then
      [Slot(2 * (w.writes + 1), Stamped(Tracked(w, e.facts), e))]
    else []
  }

  function Run(es: seq<Event>): (w: Writer)
    ensures |w.memory.slots| == 2
    decreases |es|
  {
    if es == [] then INITIAL else Step(Run(es[..|es| - 1]), es[|es| - 1])
  }

  /** Every frame published so far. */
  function Frames(es: seq<Event>): seq<Slot>
    decreases |es|
  {
    if es == [] then [] else Frames(es[..|es| - 1]) + Output(Run(es[..|es| - 1]), es[|es| - 1])
  }

  /** Every memory a reader of the present mapping could have seen, store by store. */
  function Trace(es: seq<Event>): (ms: seq<Memory>)
    ensures forall i :: 0 <= i < |ms| ==> |ms[i].slots| == 2
    decreases |es|
  {
    if es == [] then [BLANK]
    else
      var w, e := Run(es[..|es| - 1]), es[|es| - 1];
      if e.Open? && Opened(w, e).open then [BLANK] else Trace(es[..|es| - 1]) + Memories(w, e)
  }

  // ----- revisions -----

  /** Of two frames in publication order, the counters never decrease, and equal ones mean
      equal facts. */
  predicate InOrder(p: Frame, q: Frame) {
    && p.revision <= q.revision && p.admission <= q.admission
    && (p.revision == q.revision ==> Same(p, q) && p.snapshot == q.snapshot)
    && (p.admission == q.admission ==> SameEligibility(p, q))
  }

  /** A published frame under its stamps. */
  predicate WellStamped(s: Slot, k: nat) {
    s.sequence == 2 * (k + 1) && s.frame.revision > 0 && s.frame.admission > 0 && Facts(s.frame)
  }

  /** What the writer knows of the frames it has published. */
  predicate Knows(w: Writer, ps: seq<Slot>) {
    && w.revision <= LIMIT && w.admission <= LIMIT && w.writes == |ps|
    && (forall i :: 0 <= i < |ps| ==> ps[i].frame.revision <= w.revision && ps[i].frame.admission <= w.admission)
    && (!w.faulted && w.last.Some? ==> ps != [] && w.last == Some(ps[|ps| - 1]) && w.last.value.frame.revision == w.revision)
    && (!w.open ==> w.last.None? && w.eligibility.None?)
    && (w.eligibility.Some? ==>
          w.admission > 0
          && forall i :: 0 <= i < |ps| && ps[i].frame.admission == w.admission ==> SameEligibility(ps[i].frame, w.eligibility.value))
  }

  predicate Ordered(ps: seq<Slot>) {
    && (forall i :: 0 <= i < |ps| ==> WellStamped(ps[i], i))
    && (forall i, j :: 0 <= i <= j < |ps| ==> InOrder(ps[i].frame, ps[j].frame))
  }

  lemma TrackedKnows(w: Writer, facts: Frame, ps: seq<Slot>)
    requires Knows(w, ps) && TrackOk(w, facts)
    ensures var u := Tracked(w, facts);
            && (w.open ==> Knows(u, ps)) && u.eligibility.Some? && SameEligibility(u.eligibility.value, facts)
            && u.last == w.last && u.writes == w.writes && u.faulted == w.faulted && u.memory == w.memory
            && u.revision == w.revision && w.admission <= u.admission
  {
    EligibilityIsEquivalence(facts, facts, facts);
    hide SameEligibility;
  }

  /** The new frame follows every earlier one. */
  lemma StampedFollows(u: Writer, e: Event, ps: seq<Slot>, i: nat)
    requires e.Publish? && Facts(e.facts) && (!Repeats(u, e.facts) ==> e.random.Some?)
    requires Knows(u, ps) && Ordered(ps) && !u.faulted && i < |ps|
    requires u.eligibility.Some? && SameEligibility(u.eligibility.value, e.facts)
    ensures InOrder(ps[i].frame, Stamped(u, e))
  {
    var next, p := Stamped(u, e), ps[i].frame;
    StampsAreNotFacts(e.facts, next.revision, next.snapshot, e.tick, u.admission);
    EligibilityIsEquivalence(p, u.eligibility.value, e.facts);
    EligibilityIsEquivalence(p, e.facts, next);
    assert p.admission == next.admission ==> SameEligibility(p, next);
    if Repeats(u, e.facts) {
      var l := ps[|ps| - 1].frame;
      assert InOrder(p, l);
      RestampIsSame(e.facts.(admission := u.admission), next);
      SameIsEquivalence(l, e.facts.(admission := u.admission), next);
      SameIsEquivalence(p, l, next);
    }
    hide Same, SameEligibility, Facts;
  }

  lemma RestampIsSame(f: Frame, g: Frame)
    requires g == f.(revision := g.revision, snapshot := g.snapshot, tick := g.tick)
    ensures Same(f, g)
  {
    hide RenewalDue;
  }

  lemma StepKnows(w: Writer, e: Event, ps: seq<Slot>)
    requires |w.memory.slots| == 2 && Knows(w, ps) && Ordered(ps)
    ensures Knows(Step(w, e), ps + Output(w, e)) && Ordered(ps + Output(w, e))
    ensures w.revision <= Step(w, e).revision && w.admission <= Step(w, e).admission
  {
    if e.Publish? && Publishable(w, e) && Succeeds(w, e) {
      PublishKnows(w, e, ps);
    } else {
      assert Output(w, e) == [] && ps + [] == ps;
      hide Facts, Same, Ordered, SameEligibility;
      match e
      case Publish(facts, _, _, _) => if TrackOk(w, facts) { TrackedKnows(w, facts, ps); }
      case ObserveAdmission(blocks) =>
        if w.eligibility.Some? && TrackOk(w, w.eligibility.value.(blocks := blocks)) {
          TrackedKnows(w, w.eligibility.value.(blocks := blocks), ps);
        }
      case InvalidateAdmission => if TrackOk(w, EMPTY) { TrackedKnows(w, EMPTY, ps); }
      case _ =>
    }
  }

  lemma PublishKnows(w: Writer, e: Event, ps: seq<Slot>)
    requires |w.memory.slots| == 2 && Knows(w, ps) && Ordered(ps) && e.Publish? && Publishable(w, e) && Succeeds(w, e)
    ensures Knows(Step(w, e), ps + Output(w, e)) && Ordered(ps + Output(w, e))
    ensures w.revision <= Step(w, e).revision && w.admission <= Step(w, e).admission
  {
    TrackedKnows(w, e.facts, ps);
    var u := Tracked(w, e.facts);
    var next := Stamped(u, e);
    var s := Slot(2 * (w.writes + 1), next);
    OutputIsOrdered(u, e, ps, s);
    StampsAreNotFacts(e.facts, next.revision, next.snapshot, e.tick, u.admission);
    EligibilityIsEquivalence(u.eligibility.value, e.facts, next);
    EligibilityIsEquivalence(next, u.eligibility.value, next);
    if Repeats(u, e.facts) { assert next.revision == u.revision; } else { assert next.revision == u.revision + 1; }
    hide Facts, Same, SameEligibility, Ordered, InOrder, WellStamped, Tracked, Stamped, Repeats;
    assert Step(w, e).eligibility == u.eligibility && Step(w, e).last == Some(s);
  }

  lemma OutputIsOrdered(u: Writer, e: Event, ps: seq<Slot>, s: Slot)
    requires e.Publish? && Facts(e.facts) && (!Repeats(u, e.facts) ==> e.random.Some?)
    requires Knows(u, ps) && Ordered(ps) && !u.faulted
    requires u.eligibility.Some? && SameEligibility(u.eligibility.value, e.facts)
    requires s == Slot(2 * (|ps| + 1), Stamped(u, e))
    ensures Ordered(ps + [s])
  {
    var next := s.frame;
    StampsAreNotFacts(e.facts, next.revision, next.snapshot, e.tick, u.admission);
    SameIsEquivalence(next, next, next);
    EligibilityIsEquivalence(next, next, next);
    hide Facts, Same, SameEligibility;
    forall i | 0 <= i < |ps| ensures InOrder(ps[i].frame, next) { StampedFollows(u, e, ps, i); }
    if Repeats(u, e.facts) { assert WellStamped(ps[|ps| - 1], |ps| - 1); }
    assert WellStamped(s, |ps|) && InOrder(next, next);
    hide InOrder, WellStamped, Stamped, Repeats, Knows;
  }

  lemma {:induction false} RunKnows(es: seq<Event>)
    ensures Knows(Run(es), Frames(es)) && Ordered(Frames(es))
    decreases |es|
  {
    if es != [] {
      RunKnows(es[..|es| - 1]);
      hide Knows, Ordered, Step, Output;
      StepKnows(Run(es[..|es| - 1]), es[|es| - 1], Frames(es[..|es| - 1]));
    }
  }

  /** Over a writer's whole life: of any two published frames the later has counters no
      lower; the same revision means the same facts, countdowns apart, with the same
      renewals due; the same admission revision means the same eligibility. */
  lemma RevisionsIdentifyFacts(es: seq<Event>, i: nat, j: nat)
    requires i <= j < |Frames(es)|
    ensures var p, q := Frames(es)[i].frame, Frames(es)[j].frame;
            && p.revision <= q.revision && p.admission <= q.admission
            && (p.admission == q.admission ==> SameEligibility(p, q))
            && (p.revision == q.revision ==>
                  && p.snapshot == q.snapshot && Timeless(p) == Timeless(q)
                  && forall k :: 0 <= k < |p.readiness| && k < |q.readiness| ==> (RenewalDue(p.readiness[k]) <==> RenewalDue(q.readiness[k])))
  {
    RunKnows(es);
    var p, q := Frames(es)[i].frame, Frames(es)[j].frame;
    assert InOrder(p, q);
    SameExactly(p, q);
    hide Same, SameEligibility, RenewalDue, Facts, Frames, Run;
  }

  /** The counters never decrease, across closing and opening again. */
  lemma CountersNeverDecrease(es: seq<Event>, e: Event)
    ensures Run(es).revision <= Run(es + [e]).revision && Run(es).admission <= Run(es + [e]).admission
  {
    assert (es + [e])[..|es|] == es;
    RunKnows(es);
    hide Knows, Ordered, Step, Output;
    StepKnows(Run(es), e, Frames(es));
  }

  /** No two publications share a sequence number, and every published frame is consistent. */
  lemma SequencesNeverRepeat(es: seq<Event>, i: nat, j: nat)
    requires i < |Frames(es)| && j < |Frames(es)|
    ensures Frames(es)[i].sequence == Frames(es)[j].sequence <==> i == j
    ensures Frames(es)[i].sequence % 2 == 0 && Facts(Frames(es)[i].frame)
  {
    hide Facts, Frames, Run, Knows, InOrder;
    RunKnows(es);
    assert WellStamped(Frames(es)[i], i) && WellStamped(Frames(es)[j], j);
  }

  // ----- what a reader can see -----

  /** The slot holds exactly the frame published under its sequence, if that is even. */
  predicate Exact(s: Slot, ps: seq<Slot>) {
    s.sequence % 2 == 0 && s.sequence > 0 ==> s.sequence / 2 - 1 < |ps| && s == ps[s.sequence / 2 - 1]
  }

  /** A memory any reader may trust: both slots exact, and an active slot whole. */
  predicate Coherent(m: Memory, ps: seq<Slot>) {
    && |m.slots| == 2 && -1 <= m.active <= 1 && Exact(m.slots[0], ps) && Exact(m.slots[1], ps)
    && (m.active >= 0 ==> m.slots[m.active].sequence > 0 && m.slots[m.active].sequence % 2 == 0)
  }

  /** No slot's sequence goes back from m to n, nor its contents change under one that is
      even. */
  predicate Follows(m: Memory, n: Memory) {
    && |m.slots| == |n.slots| == 2
    && forall k :: 0 <= k < 2 ==>
         && m.slots[k].sequence <= n.slots[k].sequence
         && (m.slots[k].sequence == n.slots[k].sequence && m.slots[k].sequence % 2 == 0 ==> m.slots[k] == n.slots[k])
  }

  predicate Chained(ms: seq<Memory>) { forall i :: 0 <= i < |ms| - 1 ==> Follows(ms[i], ms[i + 1]) }

  /** Sequences in memory are those of frames published so far. */
  predicate Bounded(m: Memory, ps: seq<Slot>) { |m.slots| == 2 && forall k :: 0 <= k < 2 ==> m.slots[k].sequence <= 2 * |ps| }

  /** The memory while the target slot, under an odd sequence, holds f. */
  function Torn(m: Memory, next: Slot, f: Frame): Memory
    requires |m.slots| == 2 && next.sequence > 0
  {
    Put(m, Slot(next.sequence - 1, f))
  }

  lemma TornIsCoherent(m: Memory, next: Slot, f: Frame, ps: seq<Slot>)
    requires Coherent(m, ps) && Bounded(m, ps) && next.sequence == 2 * (|ps| + 1)
    ensures Coherent(Torn(m, next, f), ps + [next]) && Bounded(Torn(m, next, f), ps + [next])
    ensures Follows(m, Torn(m, next, f)) && Follows(Torn(m, next, f), Put(m, next))
    ensures Torn(m, next, f).active != Target(m)
  {
  }

  lemma WholeIsCoherent(m: Memory, next: Slot, ps: seq<Slot>)
    requires Coherent(m, ps) && Bounded(m, ps) && next.sequence == 2 * (|ps| + 1)
    ensures var n, qs := Put(m, next), ps + [next];
            && Coherent(n, qs) && Bounded(n, qs) && n.active != Target(m)
            && Coherent(n.(active := Target(m)), qs) && Bounded(n.(active := Target(m)), qs) && Follows(n, n.(active := Target(m)))
  {
    assert (ps + [next])[|ps|] == next;
  }

  lemma TornFollowsTorn(m: Memory, next: Slot, f: Frame, g: Frame)
    requires |m.slots| == 2 && next.sequence > 0 && next.sequence % 2 == 0
    ensures Follows(Torn(m, next, f), Torn(m, next, g))
  {
  }

  /** What a slot holds at each store under the odd sequence. */
  function Contents(m: Memory, next: Slot, torn: seq<Frame>): seq<Frame>
    requires |m.slots| == 2
  {
    [m.slots[Target(m)].frame] + torn + [next.frame]
  }

  /** Every store of a publication leaves the memory coherent; the slot being written is
      never the active one; and no slot goes back or changes under an even sequence. */
  lemma StoresAreCoherent(m: Memory, next: Slot, torn: seq<Frame>, ps: seq<Slot>)
    requires Coherent(m, ps) && Bounded(m, ps) && next.sequence == 2 * (|ps| + 1)
    ensures var ms := Stores(m, next, torn);
            && (forall i :: 0 <= i < |ms| ==> Coherent(ms[i], ps + [next]) && Bounded(ms[i], ps + [next]))
            && (forall i :: 0 <= i < |ms| - 1 ==> ms[i].active != Target(m))
            && Chained([m] + ms)
  {
    var ms, cs := Stores(m, next, torn), Contents(m, next, torn);
    var n := |cs|;
    WholeIsCoherent(m, next, ps);
    assert |ms| == n + 2 && ms[n] == Put(m, next) && ms[n + 1] == Put(m, next).(active := Target(m));
    forall i | 0 <= i < n
      ensures ms[i] == Torn(m, next, cs[i]) && Coherent(ms[i], ps + [next]) && Bounded(ms[i], ps + [next])
      ensures Follows(m, ms[i]) && Follows(ms[i], Put(m, next)) && ms[i].active != Target(m)
    {
      TornIsCoherent(m, next, cs[i], ps);
    }
    hide Coherent, Bounded, Follows, Torn, Put, Stores, Contents;
    forall i | 0 <= i < |ms| ensures Follows(([m] + ms)[i], ([m] + ms)[i + 1]) {
      if 0 < i < n { TornFollowsTorn(m, next, cs[i - 1], cs[i]); }
    }
  }

  // ----- over a run -----

  lemma {:induction false} StepIsCoherent(w: Writer, e: Event, ps: seq<Slot>)
    requires |w.memory.slots| == 2 && Coherent(w.memory, ps) && Bounded(w.memory, ps) && w.writes == |ps|
    requires !(e.Open? && Opened(w, e).open)
    ensures var ms, qs := Memories(w, e), ps + Output(w, e);
            && ms != [] && ms[|ms| - 1] == Step(w, e).memory
            && (forall i :: 0 <= i < |ms| ==> Coherent(ms[i], qs) && Bounded(ms[i], qs))
            && Chained([w.memory] + ms)
  {
    if e.Publish? && Publishable(w, e) && Succeeds(w, e) {
      var u := Tracked(w, e.facts);
      StoresAreCoherent(w.memory, Slot(2 * (u.writes + 1), Stamped(u, e)), e.torn, ps);
      hide Coherent, Bounded, Follows, Facts, Same, SameEligibility;
    } else {
      hide Facts, Same, SameEligibility;
      assert ps + Output(w, e) == ps;
      assert Step(w, e).memory == w.memory || Step(w, e).memory == w.memory.(active := -1);
    }
  }

  lemma MoreFramesAreFine(m: Memory, ps: seq<Slot>, qs: seq<Slot>)
    requires Coherent(m, ps) && Bounded(m, ps) && ps <= qs
    ensures Coherent(m, qs) && Bounded(m, qs)
  {
  }

  lemma ChainsJoin(ms: seq<Memory>, ns: seq<Memory>)
    requires Chained(ms) && ms != [] && Chained([ms[|ms| - 1]] + ns)
    ensures Chained(ms + ns)
  {
    hide Follows;
    var k := |ms| - 1;
    forall i | 0 <= i < |ms + ns| - 1 ensures Follows((ms + ns)[i], (ms + ns)[i + 1]) {
      if i < k {
        assert Follows(ms[i], ms[i + 1]);
      } else {
        var os := [ms[k]] + ns;
        assert Follows(os[i - k], os[i - k + 1]) && (ms + ns)[i] == os[i - k] && (ms + ns)[i + 1] == os[i - k + 1];
      }
    }
  }

  lemma {:induction false} TraceIsCoherent(es: seq<Event>)
    ensures Trace(es) != [] && Trace(es)[|Trace(es)| - 1] == Run(es).memory
    ensures forall i :: 0 <= i < |Trace(es)| ==> Coherent(Trace(es)[i], Frames(es)) && Bounded(Trace(es)[i], Frames(es))
    ensures Chained(Trace(es))
    decreases |es|
  {
    if es != [] {
      var fs, e := es[..|es| - 1], es[|es| - 1];
      var w, ps, ms := Run(fs), Frames(fs), Trace(fs);
      TraceIsCoherent(fs);
      RunKnows(fs);
      if !(e.Open? && Opened(w, e).open) {
        StepIsCoherent(w, e, ps);
        ChainsJoin(ms, Memories(w, e));
        assert ps <= Frames(es);
        hide Coherent, Bounded, Follows, Knows, Ordered, Step, Memories, Output, Opened, Run, Chained, Frames;
        forall i | 0 <= i < |ms| ensures Coherent(ms[i], Frames(es)) && Bounded(ms[i], Frames(es)) {
          MoreFramesAreFine(ms[i], ps, Frames(es));
        }
      }
    }
  }

  /** At every store of every run, a slot under an even positive sequence holds exactly the
      frame published under it, and an active slot is such a slot. */
  lemma EveryStoreIsCoherent(es: seq<Event>, i: nat, k: nat)
    requires i < |Trace(es)| && k < 2
    ensures var m := Trace(es)[i];
            && |m.slots| == 2
            && (m.active == k || (m.slots[k].sequence > 0 && m.slots[k].sequence % 2 == 0) ==>
                  m.slots[k].sequence > 0 && m.slots[k].sequence % 2 == 0 && m.slots[k] in Frames(es))
  {
    TraceIsCoherent(es);
    assert Coherent(Trace(es)[i], Frames(es));
    hide Trace, Frames, Run, Chained;
  }

  lemma {:induction false} SequenceStands(ms: seq<Memory>, i: nat, j: nat, k: nat)
    requires Chained(ms) && i <= j < |ms| && k < 2 && forall n :: 0 <= n < |ms| ==> |ms[n].slots| == 2
    ensures ms[i].slots[k].sequence <= ms[j].slots[k].sequence
    ensures ms[i].slots[k].sequence == ms[j].slots[k].sequence && ms[i].slots[k].sequence % 2 == 0 ==> ms[i].slots[k] == ms[j].slots[k]
    decreases j
  {
    if i < j {
      SequenceStands(ms, i, j - 1, k);
      assert Follows(ms[j - 1], ms[j - 1 + 1]);
    }
  }

  /** A reader that finds the same even sequence before and after copying a slot has copied,
      whatever it read in between, exactly one published frame. */
  lemma ReadersSeeWholeFrames(es: seq<Event>, i: nat, n: nat, j: nat, k: nat)
    requires i <= n <= j < |Trace(es)| && k < 2
    requires Trace(es)[i].slots[k].sequence == Trace(es)[j].slots[k].sequence > 0 && Trace(es)[i].slots[k].sequence % 2 == 0
    ensures Trace(es)[n].slots[k] == Trace(es)[i].slots[k] && Trace(es)[n].slots[k] in Frames(es)
  {
    TraceIsCoherent(es);
    SequenceStands(Trace(es), i, n, k);
    SequenceStands(Trace(es), n, j, k);
    EveryStoreIsCoherent(es, i, k);
    hide Trace, Frames, Run, Chained;
  }

  // ----- what becomes current -----

  /** A publication makes its own frame the active one. */
  lemma PublishedIsActive(es: seq<Event>, e: Event)
    requires e.Publish? && Publishable(Run(es), e) && Succeeds(Run(es), e)
    ensures var m := Run(es + [e]).memory;
            && 0 <= m.active <= 1 && m.slots[m.active].sequence == 2 * |Frames(es + [e])|
            && Same(m.slots[m.active].frame, e.facts.(admission := m.slots[m.active].frame.admission))
  {
    assert (es + [e])[..|es|] == es;
    RunKnows(es);
    var w := Run(es);
    var u := Tracked(w, e.facts);
    RestampIsSame(e.facts.(admission := u.admission), Stamped(u, e));
    SameIsEquivalence(e.facts.(admission := u.admission), Stamped(u, e), Stamped(u, e));
    hide Knows, Ordered, Facts, Same, SameEligibility;
  }

  predicate ActiveIsCurrent(w: Writer) {
    && |w.memory.slots| == 2
    && if Current(w).Some? then 0 <= w.memory.active <= 1 && w.memory.slots[w.memory.active] == Current(w).value
       else w.memory.active == -1
  }

  lemma PublishedActive(w: Writer, e: Event)
    requires |w.memory.slots| == 2 && e.Publish? && Publishable(w, e)
    ensures ActiveIsCurrent(Published(w, e))
  {
    hide Facts, Same, SameEligibility, Stamped, Repeats;
  }

  lemma StepActive(w: Writer, e: Event)
    requires ActiveIsCurrent(w) && (!w.open ==> w.last.None?)
    ensures ActiveIsCurrent(Step(w, e))
  {
    if e.Publish? && Publishable(w, e) { PublishedActive(w, e); }
    hide Published, Facts, SameEligibility;
  }

  /** What the writer stands by is what readers find active, and the other way round. */
  lemma {:induction false} CurrentIsActive(es: seq<Event>)
    ensures ActiveIsCurrent(Run(es))
    decreases |es|
  {
    if es != [] {
      hide Step, ActiveIsCurrent;
      CurrentIsActive(es[..|es| - 1]);
      NotOpenHasNoLast(es[..|es| - 1]);
      StepActive(Run(es[..|es| - 1]), es[|es| - 1]);
    } else {
      assert ActiveIsCurrent(INITIAL);
    }
  }

  lemma NotOpenHasNoLast(es: seq<Event>)
    ensures !Run(es).open ==> Run(es).last.None?
  {
    RunKnows(es);
    hide Run, Frames, Ordered;
  }

  /** After any run, what the writer stands by is the last frame it published, in force under
      the active index, and readers accept it as soon as its snapshot and tick are set. */
  lemma CurrentIsLast(es: seq<Event>)
    requires Current(Run(es)).Some?
    ensures var s, m, ps := Current(Run(es)).value, Run(es).memory, Frames(es);
            && ps != [] && s == ps[|ps| - 1] && 0 <= m.active <= 1 && s == m.slots[m.active]
            && (Valid(s) <==> s.frame.snapshot != 0 && s.frame.tick != 0)
  {
    CurrentIsActive(es);
    RunKnows(es);
    hide Run, Frames, InOrder, Facts;
    var ps := Frames(es);
    assert WellStamped(ps[|ps| - 1], |ps| - 1);
  }

  /** Given a clock that has started and ids that are not zero, everything it stands by, and
      everything it ever published, is accepted. */
  lemma {:induction false} PublishedIsValid(es: seq<Event>, i: nat)
    requires forall e :: e in es && e.Publish? ==> e.tick != 0 && e.random != Some(0)
    requires i < |Frames(es)|
    ensures Valid(Frames(es)[i])
    decreases |es|
  {
    var fs, e := es[..|es| - 1], es[|es| - 1];
    var ps := Frames(fs);
    if i < |ps| {
      PublishedIsValid(fs, i);
    } else {
      RunKnows(fs);
      hide Step, Output, Knows, Ordered, Valid, Run;
      if ps != [] { PublishedIsValid(fs, |ps| - 1); }
      assert e in es;
      OutputIsValid(Run(fs), e, ps);
    }
  }

  lemma OutputIsValid(w: Writer, e: Event, ps: seq<Slot>)
    requires |w.memory.slots| == 2 && Knows(w, ps) && (ps != [] ==> Valid(ps[|ps| - 1]))
    requires e.Publish? ==> e.tick != 0 && e.random != Some(0)
    ensures forall s :: s in Output(w, e) ==> Valid(s)
  {
    if e.Publish? && Publishable(w, e) && Succeeds(w, e) {
      var u := Tracked(w, e.facts);
      TrackedKnows(w, e.facts, ps);
      var next := Stamped(u, e);
      StampsAreNotFacts(e.facts, next.revision, next.snapshot, e.tick, u.admission);
      hide Facts, Same, SameEligibility;
    }
  }

  /** After a fault or a closing nothing is active, and a fault is final. */
  lemma FaultsAreFinal(es: seq<Event>, e: Event)
    requires Run(es).faulted
    ensures Run(es + [e]).faulted && Frames(es + [e]) == Frames(es) && Run(es).memory.active == -1
  {
    assert (es + [e])[..|es|] == es;
    FaultedIsInactive(es);
    hide Facts, Same, SameEligibility;
  }

  lemma {:induction false} FaultedIsInactive(es: seq<Event>)
    ensures Run(es).faulted || !Run(es).open ==> Run(es).memory.active == -1
    decreases |es|
  {
    if es != [] {
      FaultedIsInactive(es[..|es| - 1]);
      hide Facts, Same, SameEligibility, Stamped;
    }
  }
}
