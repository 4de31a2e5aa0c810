/** The frame an actor publishes: its effects, the readiness and coverage of each
    configured action, the descriptors these rest on, and the application records. */
module PublicationFrame {
  import Binary64
  import Journal
  import SelectorManifest

  datatype Effect = Effect(
    descriptor: nat, action: nat, rank: nat, nativeClass: nat, sourceTag: nat, source: (nat, nat, nat),
    actionClass: nat, suppression: nat)

  type Selector = SelectorManifest.Selector

  datatype Readiness = Readiness(
    selector: Selector, rank: nat, category: nat, targetMode: nat, delivery: nat, requiredMode: nat,
    coverage: nat, readiness: nat, offset: nat, count: nat, itemKey: (nat, nat), templateKey: (nat, nat),
    itemHint: nat, templateHint: nat, quantity: nat, kind: nat, flags: nat,
    timed: bool, remaining: nat, deadline: Binary64.Bits)

  datatype Descriptor = Descriptor(id: nat, action: nat, actionClass: nat, suppression: nat, present: bool)

  /** Everything in a slot but its sequence number. */
  datatype Frame = Frame(
    revision: nat, snapshot: nat, tick: nat, epoch: nat, unknown: nat, complete: bool,
    actorMode: nat, initiationClear: bool, admission: nat, blocks: nat, stationary: bool,
    effects: seq<Effect>, readiness: seq<Readiness>, applications: seq<Journal.Published>, descriptors: seq<Descriptor>)

  const EMPTY := Frame(0, 0, 0, 0, 1, false, 0, false, 0, 0, false, [], [], [], [])

  predicate Address(a: nat) { 0x10000 <= a < 0x7fff0000 && a % 4 == 0 }

  predicate EffectOk(e: Effect) {
    e.descriptor != 0 && e.action != 0 && e.nativeClass <= 2 && e.sourceTag <= 1 && e.actionClass <= 6 && e.suppression <= 255
  }

  /** Where the descriptors of readiness record i begin. */
  function Offset(rs: seq<Readiness>, i: nat): nat
    requires i <= |rs|
  {
    if i == 0 then 0 else Offset(rs, i - 1) + rs[i - 1].count
  }

  function PresentCount(ds: seq<Descriptor>): (n: nat)
    ensures n <= |ds|
  {
    if ds == [] then 0 else PresentCount(ds[..|ds| - 1]) + if ds[|ds| - 1].present then 1 else 0
  }

  /** 3 present, 2 partial, 1 missing for certain, 0 unknown. */
  function CoverageOf(ds: seq<Descriptor>): nat {
    if PresentCount(ds) == |ds| then 3
    else if PresentCount(ds) > 0 then 2
    else if forall d :: d in ds ==> d.suppression == 0 then 1 else 0
  }

  predicate TimingOk(r: Readiness) {
    && (!r.timed ==> r.remaining == 0 && r.deadline == 0)
    && (r.timed ==> r.coverage == 3 && Binary64.Positive(r.deadline))
  }

  predicate PowerOk(f: Frame, r: Readiness) {
    && r.itemKey == (0, 0) && r.templateKey == (0, 0) && r.itemHint == 0 && r.templateHint == 0
    && r.quantity == 0 && r.kind == 0 && r.flags == 0
    && (r.readiness == 1 ==>
          && r.rank != 0 && r.category <= 1 && r.targetMode == 2 && r.delivery == 0 && 1 <= r.requiredMode <= 3
          && !(r.requiredMode == 2 && f.actorMode > 1))
  }

  predicate ItemOk(r: Readiness) {
    if r.itemHint != 0 || r.templateHint != 0 || r.quantity != 0 then
      && r.readiness != 0 && r.itemKey.0 != 0 && r.itemKey.1 != 0 && r.templateKey == (r.selector.templateId, 0)
      && Address(r.itemHint) && Address(r.templateHint) && r.itemHint != r.templateHint
      && r.quantity != 0 && r.kind == 8 && r.flags == 0x0a
    else
      r.itemKey == (0, 0) && r.templateKey == (0, 0) && r.kind == 0 && r.flags == 0 && (r.readiness == 8 || r.readiness == 0)
  }

  /** The checks on readiness record i, whose descriptors begin at offset. */
  predicate ReadinessOk(f: Frame, i: nat, offset: nat)
    requires i < |f.readiness|
  {
    var r := f.readiness[i];
    && SelectorManifest.ValidSelector(r.selector) && r.selector.index == i && r.rank <= 9999 && r.coverage <= 3 && r.readiness <= 8
    && r.offset == offset && 1 <= r.count <= 64 && offset + r.count <= |f.descriptors| && TimingOk(r)
    && r.coverage == CoverageOf(f.descriptors[offset..offset + r.count])
    && !(r.selector.kind == 3 && r.readiness == 1 && !f.initiationClear && !f.stationary)
    && (if r.selector.kind == 3 then PowerOk(f, r) else ItemOk(r))
  }

  predicate DescriptorOk(f: Frame, d: Descriptor) {
    && d.id != 0 && d.action != 0 && d.actionClass <= 6
    && (d.present <==> exists e :: e in f.effects && e.descriptor == d.id)
  }

  /** The consistency every frame must have before it is published. */
  predicate Facts(f: Frame) {
    && f.blocks <= 63 && f.unknown <= 10
    && |f.effects| <= 256 && |f.readiness| <= 32 && |f.applications| <= 32 && |f.descriptors| <= 256
    && if !f.complete then
         && f.unknown != 0 && f.epoch == 0 && f.effects == [] && f.readiness == [] && f.applications == [] && f.descriptors == []
         && f.actorMode == 0 && !f.initiationClear && !f.stationary && f.blocks == 0
       else
         && f.unknown == 0 && f.epoch != 0 && f.readiness != [] && 1 <= f.actorMode <= 3
         && (forall e :: e in f.effects ==> EffectOk(e))
         && (forall i :: 0 <= i < |f.readiness| ==> ReadinessOk(f, i, Offset(f.readiness, i)))
         && Offset(f.readiness, |f.readiness|) == |f.descriptors|
         && (forall d :: d in f.descriptors ==> DescriptorOk(f, d))
         && Journal.ApplicationsOk(f.applications)
  }

  /** The one preparation that may be renewed while still covered, inside its lead time. */
  predicate RenewalDue(r: Readiness) {
    && r.selector.kind == 4 && r.selector.templateId == 980066 && r.selector.templateZero == 0
    && r.selector.coveragePower == 429021400 && r.selector.coverageKind == 0 && r.coverage == 3
    && r.timed && Binary64.Positive(r.deadline) && r.remaining <= 15000
  }

  predicate SameReadiness(a: Readiness, b: Readiness) {
    (RenewalDue(a) <==> RenewalDue(b)) && a.(remaining := 0) == b.(remaining := 0)
  }

  /** The facts that decide whether an action may be admitted. */
  predicate SameEligibility(a: Frame, b: Frame) {
    && |a.readiness| == |b.readiness| && (forall i :: 0 <= i < |a.readiness| ==> SameReadiness(a.readiness[i], b.readiness[i]))
    && a.complete == b.complete && a.unknown == b.unknown && a.actorMode == b.actorMode
    && a.initiationClear == b.initiationClear && a.stationary == b.stationary && a.blocks == b.blocks
  }

  /** The same facts, but for countdowns: what a revision stands for. */
  predicate Same(a: Frame, b: Frame) {
    && SameEligibility(a, b)
    && a.epoch == b.epoch && a.admission == b.admission && a.effects == b.effects
    && a.applications == b.applications && a.descriptors == b.descriptors
  }

  // ----- both comparisons are equivalences -----

  lemma EligibilityIsEquivalence(a: Frame, b: Frame, c: Frame)
    ensures SameEligibility(a, a)
    ensures SameEligibility(a, b) <==> SameEligibility(b, a)
    ensures SameEligibility(a, b) && SameEligibility(b, c) ==> SameEligibility(a, c)
  {
    hide RenewalDue;
  }

  lemma SameIsEquivalence(a: Frame, b: Frame, c: Frame)
    ensures Same(a, a)
    ensures Same(a, b) <==> Same(b, a)
    ensures Same(a, b) && Same(b, c) ==> Same(a, c)
  {
    EligibilityIsEquivalence(a, b, c);
    hide SameEligibility;
  }

  /** Countdowns apart, the frame itself. */
  function Timeless(f: Frame): Frame {
    f.(revision := 0, snapshot := 0, tick := 0,
       readiness := seq(|f.readiness|, i requires 0 <= i < |f.readiness| => f.readiness[i].(remaining := 0)))
  }

  /** Two frames are the same exactly when they agree on everything but sequence, revision,
      snapshot, tick and countdowns, and on which renewals are due. */
  lemma SameExactly(a: Frame, b: Frame)
    ensures Same(a, b) <==>
            && Timeless(a) == Timeless(b)
            && forall i :: 0 <= i < |a.readiness| && i < |b.readiness| ==> (RenewalDue(a.readiness[i]) <==> RenewalDue(b.readiness[i]))
  {
    hide RenewalDue;
    if Timeless(a) == Timeless(b) {
      assert |a.readiness| == |Timeless(a).readiness| == |b.readiness|;
      forall i | 0 <= i < |a.readiness| ensures a.readiness[i].(remaining := 0) == b.readiness[i].(remaining := 0) {
        assert Timeless(a).readiness[i] == Timeless(b).readiness[i];
      }
    }
  }

  /** What the writer stamps on a frame is not among the facts. */
  lemma StampsAreNotFacts(f: Frame, revision: nat, snapshot: nat, tick: nat, admission: nat)
    ensures var g := f.(revision := revision, snapshot := snapshot, tick := tick, admission := admission);
            Facts(g) == Facts(f) && SameEligibility(f, g)
  {
    var g := f.(revision := revision, snapshot := snapshot, tick := tick, admission := admission);
    assert forall d :: DescriptorOk(g, d) == DescriptorOk(f, d);
    assert forall i, o :: 0 <= i < |f.readiness| && 0 <= o ==> ReadinessOk(g, i, o) == ReadinessOk(f, i, o) by {
      hide CoverageOf, TimingOk, ItemOk, SelectorManifest.ValidSelector;
    }
    hide ReadinessOk, DescriptorOk, RenewalDue, Journal.ApplicationsOk, EffectOk;
  }
}
