/** How the facts resolved for each configured action become a frame, and why the frame's
    own recomputation of coverage and timing always agrees with them. */
module PublicationEncoding {
  import opened PublicationFrame
  import Binary64
  import Journal
  import Resolver
  import SelectorManifest
  import opened Wrappers

  /** One native effect with all that is published of it. */
  datatype NativeEffect = NativeEffect(effect: Effect, deadline: Binary64.Bits, remaining: nat)

  /** What was asked of an action: a power by its id, or an item by its template. */
  datatype Intent = Intent(
    index: SelectorManifest.Word, group: SelectorManifest.Word, power: SelectorManifest.Word,
    template: (SelectorManifest.Word, SelectorManifest.Word), coveragePower: SelectorManifest.Word, transformOnly: bool)

  datatype ActionFacts = ActionFacts(
    intent: Intent, rank: nat, category: nat, targetMode: nat, delivery: nat, requiredMode: nat,
    resolved: Resolver.Resolved, readiness: nat, itemKey: (nat, nat), templateKey: (nat, nat),
    itemHint: nat, templateHint: nat, quantity: nat, kind: nat, flags: nat)

  datatype Publication = Publication(
    complete: bool, epoch: nat, actorMode: nat, initiationClear: bool, stationary: bool, blocks: nat,
    effects: seq<NativeEffect>, actions: seq<ActionFacts>)

  function Expected(i: Intent): Selector {
    SelectorManifest.Selector(i.index, i.group, if i.power != 0 then 3 else 4, i.power, i.template.0, i.template.1,
                              i.coveragePower, if i.transformOnly then 1 else 0)
  }

  function KindNumber(k: Resolver.Kind): (n: nat)
    ensures n <= 6
  {
    match k
    case Apply => 0 case ApplyMany => 1 case Transform => 2 case Invisible => 3 case OverTime => 4 case Deferred => 5 case Spire => 6
  }

  function CoverageNumber(c: Resolver.Coverage): nat {
    match c case Unknown => 0 case Missing => 1 case Partial => 2 case Present => 3
  }

  function Flat(ds: seq<Resolver.Descriptor>): (fs: seq<Descriptor>)
    ensures |fs| == |ds|
  {
    seq(|ds|, i requires 0 <= i < |ds| =>
      Descriptor(ds[i].id, ds[i].action, KindNumber(ds[i].kind), ds[i].suppression, ds[i].present))
  }

  /** The descriptors of the first n actions, one after another. */
  function Flattened(actions: seq<ActionFacts>, n: nat): seq<Descriptor>
    requires n <= |actions|
  {
    if n == 0 then [] else Flattened(actions, n - 1) + Flat(actions[n - 1].resolved.descriptors)
  }

  function Line(a: ActionFacts, offset: nat): Readiness {
    Readiness(Expected(a.intent), a.rank, a.category, a.targetMode, a.delivery, a.requiredMode,
      CoverageNumber(a.resolved.coverage), a.readiness, offset, |a.resolved.descriptors|, a.itemKey, a.templateKey,
      a.itemHint, a.templateHint, a.quantity, a.kind, a.flags,
      a.resolved.deadline != 0, a.resolved.remaining, a.resolved.deadline)
  }

  function Lines(actions: seq<ActionFacts>): (ls: seq<Readiness>)
    ensures |ls| == |actions|
  {
    seq(|actions|, i requires 0 <= i < |actions| => Line(actions[i], |Flattened(actions, i)|))
  }

  function Draft(p: Publication, j: Journal.Journal): Frame {
    EMPTY.(unknown := 0, complete := true, epoch := p.epoch, actorMode := p.actorMode, initiationClear := p.initiationClear,
           stationary := p.stationary, blocks := p.blocks,
           effects := seq(|p.effects|, i requires 0 <= i < |p.effects| => p.effects[i].effect),
           readiness := Lines(p.actions), descriptors := Flattened(p.actions, |p.actions|),
           applications := Journal.Applications(j.records))
  }

  /** The frame to publish, unless it would misstate the manifest, overflow or contradict itself. */
  function Encode(m: SelectorManifest.Manifest, p: Publication, j: Journal.Journal): Option<Frame> {
    if !SelectorManifest.Valid(m) || !p.complete || j.faulted || |p.actions| != |m.records| || |p.effects| > 256 then None
    else if exists i :: 0 <= i < |p.actions| && Expected(p.actions[i].intent) != m.records[i] then None
    else if |Flattened(p.actions, |p.actions|)| > 256 then None
    else if Facts(Draft(p, j)) then Some(Draft(p, j)) else None
  }

  // ----- agreement -----

  function Seen(effects: seq<NativeEffect>): seq<Resolver.Effect> {
    seq(|effects|, i requires 0 <= i < |effects| =>
      Resolver.Effect(effects[i].effect.descriptor, effects[i].deadline, effects[i].remaining))
  }

  /** The action's facts are what its definition's entries resolve to under these effects. */
  ghost predicate ResolvedFrom(a: ActionFacts, effects: seq<NativeEffect>) {
    exists entries, definitions :: Resolver.Resolve(entries, Seen(effects), definitions, a.intent.transformOnly) == Resolver.Ok(a.resolved)
  }

  lemma {:induction false} FlatPresent(ds: seq<Resolver.Descriptor>)
    ensures PresentCount(Flat(ds)) == Resolver.PresentCount(ds)
    decreases |ds|
  {
    if ds != [] {
      FlatPresent(ds[..|ds| - 1]);
      assert Flat(ds)[..|ds| - 1] == Flat(ds[..|ds| - 1]);
    }
  }

  lemma FlatCoverage(ds: seq<Resolver.Descriptor>)
    ensures CoverageOf(Flat(ds)) == CoverageNumber(Resolver.CoverageOf(ds))
  {
    FlatPresent(ds);
    var fs := Flat(ds);
    assert (forall d :: d in ds ==> d.suppression == 0) <==> forall f :: f in fs ==> f.suppression == 0 by {
      assert forall i :: 0 <= i < |ds| ==> fs[i] in fs && ds[i] in ds && fs[i].suppression == ds[i].suppression;
    }
    hide PresentCount, Resolver.PresentCount, Flat;
  }

  lemma {:induction false} FlattenedSlice(actions: seq<ActionFacts>, i: nat, n: nat)
    requires i < n <= |actions|
    ensures |Flattened(actions, i)| + |actions[i].resolved.descriptors| <= |Flattened(actions, n)|
    ensures Flattened(actions, n)[|Flattened(actions, i)|..|Flattened(actions, i)| + |actions[i].resolved.descriptors|]
         == Flat(actions[i].resolved.descriptors)
  {
    hide Flat;
    var o, k := |Flattened(actions, i)|, |actions[i].resolved.descriptors|;
    var a, b := Flattened(actions, n - 1), Flat(actions[n - 1].resolved.descriptors);
    assert Flattened(actions, n) == a + b;
    if i < n - 1 {
      FlattenedSlice(actions, i, n - 1);
      hide Flattened;
      assert (a + b)[o..o + k] == a[o..o + k];
    } else {
      assert (a + b)[|a|..|a| + k] == b;
    }
  }

  lemma LineAt(actions: seq<ActionFacts>, i: nat)
    requires i < |actions|
    ensures Lines(actions)[i] == Line(actions[i], |Flattened(actions, i)|)
  {
  }

  lemma LineCount(a: ActionFacts, offset: nat)
    ensures Line(a, offset).count == |a.resolved.descriptors| && Line(a, offset).offset == offset
    ensures Line(a, offset).selector == Expected(a.intent)
  {
  }

  lemma FirstOffset(actions: seq<ActionFacts>)
    ensures Offset(Lines(actions), 0) == |Flattened(actions, 0)|
  {
    hide Lines;
  }

  lemma OffsetStep(rs: seq<Readiness>, n: nat)
    requires 0 < n <= |rs|
    ensures Offset(rs, n) == Offset(rs, n - 1) + rs[n - 1].count
  {
  }

  lemma FlattenedStep(actions: seq<ActionFacts>, n: nat)
    requires 0 < n <= |actions|
    ensures |Flattened(actions, n)| == |Flattened(actions, n - 1)| + |actions[n - 1].resolved.descriptors|
  {
    hide Flat;
  }

  lemma {:induction false} OffsetsRun(actions: seq<ActionFacts>, n: nat)
    requires n <= |actions|
    ensures Offset(Lines(actions), n) == |Flattened(actions, n)|
  {
    FirstOffset(actions);
    hide Flat, Lines, Line, Offset, Flattened;
    if n > 0 {
      OffsetsRun(actions, n - 1);
      LineAt(actions, n - 1);
      LineCount(actions[n - 1], |Flattened(actions, n - 1)|);
      OffsetStep(Lines(actions), n);
      FlattenedStep(actions, n);
    }
  }

  lemma DraftParts(p: Publication, j: Journal.Journal)
    ensures Draft(p, j).readiness == Lines(p.actions) && Draft(p, j).descriptors == Flattened(p.actions, |p.actions|)
  {
    hide Lines, Flattened;
  }

  /** For every snapshot, every action: the offset is where its descriptors begin, their
      recomputed coverage is the one stated, and its timing is admissible. */
  lemma CoverageAgrees(p: Publication, j: Journal.Journal, i: nat)
    requires i < |p.actions| && ResolvedFrom(p.actions[i], p.effects)
    ensures var f := Draft(p, j);
            var r := f.readiness[i];
            && r.offset == Offset(f.readiness, i) && 1 <= r.count <= 64 && r.offset + r.count <= |f.descriptors|
            && r.coverage == CoverageOf(f.descriptors[r.offset..r.offset + r.count]) && TimingOk(r)
  {
    DraftParts(p, j);
    hide Draft, Lines, Flattened, Flat, CoverageOf, Offset;
    var a, o := p.actions[i], |Flattened(p.actions, i)|;
    OffsetsRun(p.actions, i);
    FlattenedSlice(p.actions, i, |p.actions|);
    LineAt(p.actions, i);
    LineAgrees(a, o, p.effects);
    LineCount(a, o);
    hide Line, ResolvedFrom, TimingOk;
  }

  lemma LineAgrees(a: ActionFacts, offset: nat, effects: seq<NativeEffect>)
    requires ResolvedFrom(a, effects)
    ensures var r := Line(a, offset);
            1 <= r.count <= 64 && r.coverage == CoverageOf(Flat(a.resolved.descriptors)) && TimingOk(r)
  {
    hide Resolver.Resolve, CoverageOf, Resolver.CoverageOf, Flat, Binary64.Positive;
    var entries, definitions :| Resolver.Resolve(entries, Seen(effects), definitions, a.intent.transformOnly) == Resolver.Ok(a.resolved);
    ResolvedIsSound(entries, Seen(effects), definitions, a.intent.transformOnly);
    FlatCoverage(a.resolved.descriptors);
  }

  lemma ResolvedIsSound(entries: seq<Resolver.Entry>, es: seq<Resolver.Effect>, definitions: map<nat, nat>, transformOnly: bool)
    requires Resolver.Resolve(entries, es, definitions, transformOnly).Ok?
    ensures var r := Resolver.Resolve(entries, es, definitions, transformOnly).value;
            && 1 <= |r.descriptors| <= 64 && r.coverage == Resolver.CoverageOf(r.descriptors)
            && (r.deadline != 0 ==> r.coverage.Present? && Binary64.Positive(r.deadline)) && (r.deadline == 0 ==> r.remaining == 0)
  {
    Resolver.GatheredIsSound(entries, es, definitions, transformOnly, |entries|);
    Resolver.DeadlineIsMinOfMax(entries, es, definitions, transformOnly);
    hide Resolver.Gathered, Resolver.CoverageOf, Resolver.Soonest, Resolver.FullyTimed, Resolver.Faithful, Binary64.Positive;
  }

  lemma {:induction false} FlattenedFrom(actions: seq<ActionFacts>, n: nat, d: Descriptor)
    requires n <= |actions| && d in Flattened(actions, n)
    ensures exists i :: 0 <= i < n && d in Flat(actions[i].resolved.descriptors)
  {
    hide Flat;
    if d !in Flat(actions[n - 1].resolved.descriptors) { FlattenedFrom(actions, n - 1, d); }
  }

  /** Every published descriptor is well formed, and present exactly when an effect shows it. */
  lemma DescriptorsAgree(p: Publication, j: Journal.Journal, d: Descriptor)
    requires d in Draft(p, j).descriptors && forall i :: 0 <= i < |p.actions| ==> ResolvedFrom(p.actions[i], p.effects)
    ensures DescriptorOk(Draft(p, j), d)
  {
    FlattenedFrom(p.actions, |p.actions|, d);
    var i :| 0 <= i < |p.actions| && d in Flat(p.actions[i].resolved.descriptors);
    var a := p.actions[i];
    var ds := a.resolved.descriptors;
    var k :| 0 <= k < |ds| && Flat(ds)[k] == d;
    assert ds[k] in ds;
    DescriptorIsSound(a, p.effects, ds[k]);
    SeenIsDrafted(p, j, d.id);
    hide Resolver.Matches, Flattened, Draft, ResolvedFrom;
  }

  lemma DescriptorIsSound(a: ActionFacts, effects: seq<NativeEffect>, d: Resolver.Descriptor)
    requires ResolvedFrom(a, effects) && d in a.resolved.descriptors
    ensures d.id != 0 && d.action != 0 && d.present == Resolver.Matches(Seen(effects), d.id)
  {
    var entries, definitions :| Resolver.Resolve(entries, Seen(effects), definitions, a.intent.transformOnly) == Resolver.Ok(a.resolved);
    Resolver.GatheredIsSound(entries, Seen(effects), definitions, a.intent.transformOnly, |entries|);
    hide Resolver.Gathered, Resolver.CoverageOf, Resolver.Soonest, Resolver.Matches, Resolver.Longest, Resolver.Timed;
  }

  lemma SeenIsDrafted(p: Publication, j: Journal.Journal, id: nat)
    ensures Resolver.Matches(Seen(p.effects), id) <==> exists e :: e in Draft(p, j).effects && e.descriptor == id
  {
    var s, es := Seen(p.effects), Draft(p, j).effects;
    assert |s| == |es| && forall i :: 0 <= i < |s| ==> s[i] in s && es[i] in es && s[i].descriptor == es[i].descriptor;
  }

  /** What remains for the frame's own check to refuse, once coverage, timing, descriptors
      and applications are known to agree: the snapshot's own ranges, and each line's
      readiness against the actor's state. */
  predicate LineOk(f: Frame, i: nat)
    requires i < |f.readiness|
  {
    var r := f.readiness[i];
    && r.rank <= 9999 && r.readiness <= 8
    && !(r.selector.kind == 3 && r.readiness == 1 && !f.initiationClear && !f.stationary)
    && (if r.selector.kind == 3 then PowerOk(f, r) else ItemOk(r))
  }

  predicate Residual(f: Frame) {
    && f.blocks <= 63 && f.epoch != 0 && 1 <= f.actorMode <= 3
    && (forall e :: e in f.effects ==> EffectOk(e)) && (forall i :: 0 <= i < |f.readiness| ==> LineOk(f, i))
  }

  /** Encoding facts that were resolved from the snapshot, with any reachable journal, fails
      only for a manifest that does not match, an overflow, a faulted journal, or a residual
      inconsistency: never for its coverage, timing, descriptors or applications. */
  lemma EncodeSucceedsExactly(m: SelectorManifest.Manifest, p: Publication, es: seq<Journal.Event>)
    requires forall i :: 0 <= i < |p.actions| ==> ResolvedFrom(p.actions[i], p.effects)
    ensures var j := Journal.Run(Journal.Initial(), es);
            Encode(m, p, j).Some? <==>
              && SelectorManifest.Valid(m) && p.complete && !j.faulted && |p.actions| == |m.records| && |p.effects| <= 256
              && (forall i :: 0 <= i < |p.actions| ==> Expected(p.actions[i].intent) == m.records[i])
              && |Flattened(p.actions, |p.actions|)| <= 256
              && Residual(Draft(p, j))
  {
    var j := Journal.Run(Journal.Initial(), es);
    Journal.ReachableIsPublishable(es);
    if SelectorManifest.Valid(m) && |p.actions| == |m.records| && |p.effects| <= 256 && |Flattened(p.actions, |p.actions|)| <= 256
       && forall i :: 0 <= i < |p.actions| ==> Expected(p.actions[i].intent) == m.records[i] {
      DraftFacts(m, p, j);
    }
    hide Facts, Residual, Draft, Journal.Run, SelectorManifest.Valid, Flattened, Expected;
  }

  lemma DraftFacts(m: SelectorManifest.Manifest, p: Publication, j: Journal.Journal)
    requires SelectorManifest.Valid(m) && |p.actions| == |m.records| && |p.effects| <= 256 && |Flattened(p.actions, |p.actions|)| <= 256
    requires forall i :: 0 <= i < |p.actions| ==> Expected(p.actions[i].intent) == m.records[i]
    requires forall i :: 0 <= i < |p.actions| ==> ResolvedFrom(p.actions[i], p.effects)
    requires Journal.ApplicationsOk(Journal.Applications(j.records))
    ensures Facts(Draft(p, j)) <==> Residual(Draft(p, j))
  {
    SelectorManifest.Bounds(m);
    AllLines(m, p, j);
    AllDescriptors(p, j);
    DraftParts(p, j);
    OffsetsRun(p.actions, |p.actions|);
    hide ReadinessOk, LineOk, DescriptorOk, EffectOk, Flattened, Lines, Offset, ResolvedFrom, Journal.ApplicationsOk, Journal.Applications, Expected,
         SelectorManifest.Valid;
    assert |Journal.Applications(j.records)| <= 32 by { ApplicationsFit(j); }
  }

  lemma ApplicationsFit(j: Journal.Journal)
    requires Journal.ApplicationsOk(Journal.Applications(j.records))
    ensures |Journal.Applications(j.records)| <= 32
  {
  }

  lemma AllLines(m: SelectorManifest.Manifest, p: Publication, j: Journal.Journal)
    requires |p.actions| == |m.records| && forall i :: 0 <= i < |m.records| ==> SelectorManifest.RecordOk(m, i)
    requires forall i :: 0 <= i < |p.actions| ==> Expected(p.actions[i].intent) == m.records[i]
    requires forall i :: 0 <= i < |p.actions| ==> ResolvedFrom(p.actions[i], p.effects)
    ensures var f := Draft(p, j);
            |f.readiness| == |p.actions| && forall i :: 0 <= i < |p.actions| ==> (ReadinessOk(f, i, Offset(f.readiness, i)) <==> LineOk(f, i))
  {
    hide ReadinessOk, LineOk, ResolvedFrom, Offset, Lines, Expected, SelectorManifest.RecordOk;
    DraftParts(p, j);
    forall i | 0 <= i < |p.actions|
      ensures ReadinessOk(Draft(p, j), i, Offset(Draft(p, j).readiness, i)) <==> LineOk(Draft(p, j), i)
    {
      LineIsOk(m, p, j, i);
    }
  }

  lemma AllDescriptors(p: Publication, j: Journal.Journal)
    requires forall i :: 0 <= i < |p.actions| ==> ResolvedFrom(p.actions[i], p.effects)
    ensures forall d :: d in Draft(p, j).descriptors ==> DescriptorOk(Draft(p, j), d)
  {
    hide ResolvedFrom, DescriptorOk, Draft;
    forall d | d in Draft(p, j).descriptors ensures DescriptorOk(Draft(p, j), d) { DescriptorsAgree(p, j, d); }
  }

  lemma LineIsOk(m: SelectorManifest.Manifest, p: Publication, j: Journal.Journal, i: nat)
    requires i < |p.actions| == |m.records| && Expected(p.actions[i].intent) == m.records[i] && SelectorManifest.RecordOk(m, i)
    requires ResolvedFrom(p.actions[i], p.effects)
    ensures var f := Draft(p, j);
            i < |f.readiness| && (ReadinessOk(f, i, Offset(f.readiness, i)) <==> LineOk(f, i))
  {
    hide CoverageOf, TimingOk, PowerOk, ItemOk, Draft, Flattened, ResolvedFrom, Offset, Lines, Line, Expected, SelectorManifest.ValidSelector;
    CoverageAgrees(p, j, i);
    DraftParts(p, j);
    LineAt(p.actions, i);
    LineCount(p.actions[i], |Flattened(p.actions, i)|);
    var f := Draft(p, j);
    CoverageRange(f.descriptors[f.readiness[i].offset..f.readiness[i].offset + f.readiness[i].count]);
  }

  lemma CoverageRange(ds: seq<Descriptor>)
    ensures CoverageOf(ds) <= 3
  {
  }
}
