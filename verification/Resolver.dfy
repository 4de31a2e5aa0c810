/** How the coverage and the deadline of one action follow from the descriptors its
    definition requires and the effects found on the actor. */
module Resolver {
  import opened Binary64

  const LIMIT: nat := 64

  datatype Kind = Apply | ApplyMany | Transform | Invisible | OverTime | Deferred | Spire

  /** One native effect. */
  datatype Effect = Effect(descriptor: nat, deadline: Bits, remaining: nat)

  /** One line of an action's definition; only ApplyMany lists several descriptors. */
  datatype Entry = Entry(kind: Kind, action: nat, ids: seq<nat>)

  datatype Descriptor = Descriptor(
    id: nat, action: nat, kind: Kind, suppression: nat, present: bool, deadline: Bits, remaining: nat)

  datatype Error = Geometry | Unsupported | ReadFault

  datatype Result<T> = Ok(value: T) | Err(error: Error)

  datatype Coverage = Unknown | Missing | Partial | Present

  datatype Resolved = Resolved(descriptors: seq<Descriptor>, coverage: Coverage, deadline: Bits, remaining: nat)

  // ----- one descriptor -----

  predicate Matches(es: seq<Effect>, id: nat) { exists e :: e in es && e.descriptor == id }

  predicate Timed(es: seq<Effect>, id: nat) { forall e :: e in es && e.descriptor == id ==> Positive(e.deadline) }

  /** The longest valid deadline of id, with its countdown; the first wins a tie. */
  function Longest(es: seq<Effect>, id: nat): (Bits, nat) {
    if es == [] then (0, 0)
    else
      var (best, e) := (Longest(es[..|es| - 1], id), es[|es| - 1]);
      if e.descriptor == id && e.deadline > best.0 && Positive(e.deadline) then (e.deadline, e.remaining) else best
  }

  function Described(es: seq<Effect>, id: nat, action: nat, kind: Kind, suppression: nat): Descriptor {
    var best := if Timed(es, id) then Longest(es, id) else (0, 0);
    Descriptor(id, action, kind, suppression, Matches(es, id), best.0, best.1)
  }

  /** The first descriptor with this id, or the length. */
  function Find(ds: seq<Descriptor>, id: nat): (i: nat)
    ensures i <= |ds| && (i < |ds| ==> ds[i].id == id) && forall j :: 0 <= j < i ==> ds[j].id != id
  {
    if ds == [] || ds[0].id == id then 0 else 1 + Find(ds[1..], id)
  }

  /** definitions gives the suppression byte of every descriptor the client defines. */
  function Added(ds: seq<Descriptor>, es: seq<Effect>, definitions: map<nat, nat>, id: nat, action: nat, kind: Kind): Result<seq<Descriptor>> {
    if id == 0 || action == 0 then Err(Geometry)
    else
      var i := Find(ds, id);
      if i < |ds| then if ds[i].action == action && ds[i].kind == kind then Ok(ds) else Err(Unsupported)
      else if |ds| == LIMIT then Err(Geometry)
      else if id !in definitions then Err(Unsupported)
      else Ok(ds + [Described(es, id, action, kind, definitions[id])])
  }

  // ----- one action -----

  predicate Included(e: Entry, transformOnly: bool) { transformOnly ==> e.kind.Transform? }

  function AddedAll(ds: seq<Descriptor>, es: seq<Effect>, definitions: map<nat, nat>, e: Entry, n: nat): Result<seq<Descriptor>>
    requires n <= |e.ids|
  {
    if n == 0 then Ok(ds)
    else
      match AddedAll(ds, es, definitions, e, n - 1)
      case Err(x) => Err(x)
      case Ok(r) => Added(r, es, definitions, e.ids[n - 1], e.action, e.kind)
  }

  /** The descriptors the first n entries require. */
  function Gathered(entries: seq<Entry>, es: seq<Effect>, definitions: map<nat, nat>, transformOnly: bool, n: nat): Result<seq<Descriptor>>
    requires n <= |entries|
  {
    if n == 0 then Ok([])
    else
      match Gathered(entries, es, definitions, transformOnly, n - 1)
      case Err(x) => Err(x)
      case Ok(ds) =>
        var e := entries[n - 1];
        if !Included(e, transformOnly) then Ok(ds)
        else if e.ids == [] then Err(ReadFault)
        else AddedAll(ds, es, definitions, e, |e.ids|)
  }

  function PresentCount(ds: seq<Descriptor>): (n: nat)
    ensures n <= |ds|
  {
    if ds == [] then 0 else PresentCount(ds[..|ds| - 1]) + if ds[|ds| - 1].present then 1 else 0
  }

  function CoverageOf(ds: seq<Descriptor>): Coverage {
    if PresentCount(ds) == |ds| then Present
    else if PresentCount(ds) > 0 then Partial
    else if forall d :: d in ds ==> d.suppression == 0 then Missing else Unknown
  }

  const NEVER: Bits := 0xffff_ffff_ffff_ffff

  /** The soonest deadline of the first n descriptors, given up at the first untimed one. */
  function Soonest(ds: seq<Descriptor>, n: nat): (Bits, nat)
    requires n <= |ds|
  {
    if n == 0 then (NEVER, 0)
    else
      var (best, d) := (Soonest(ds, n - 1), ds[n - 1]);
      if best.0 == 0 || !Positive(d.deadline) then (0, 0)
      else if d.deadline < best.0 then (d.deadline, d.remaining) else best
  }

  function Resolve(entries: seq<Entry>, es: seq<Effect>, definitions: map<nat, nat>, transformOnly: bool): Result<Resolved> {
    if entries == [] then Err(Unsupported)
    else
      match Gathered(entries, es, definitions, transformOnly, |entries|)
      case Err(x) => Err(x)
      case Ok(ds) =>
        if ds == [] then Err(Unsupported)
        else
          var coverage := CoverageOf(ds);
          var timing := if coverage.Present? then Soonest(ds, |ds|) else (0, 0);
          Ok(Resolved(ds, coverage, timing.0, timing.1))
  }

  // ----- which descriptors are required -----

  /** Descriptor id is listed by some included entry. */
  predicate Required(entries: seq<Entry>, transformOnly: bool, id: nat) {
    exists e :: e in entries && Included(e, transformOnly) && id in e.ids
  }

  predicate Distinct(ds: seq<Descriptor>) { forall i, j :: 0 <= i < j < |ds| ==> ds[i].id != ds[j].id }

  /** Every descriptor is as the effects and the definitions describe it. */
  predicate Faithful(ds: seq<Descriptor>, es: seq<Effect>, definitions: map<nat, nat>) {
    forall d :: d in ds ==>
      d.id != 0 && d.action != 0 && d.id in definitions && d == Described(es, d.id, d.action, d.kind, definitions[d.id])
  }

  predicate Has(ds: seq<Descriptor>, id: nat) { exists d :: d in ds && d.id == id }

  lemma AddedIsSound(ds: seq<Descriptor>, es: seq<Effect>, definitions: map<nat, nat>, id: nat, action: nat, kind: Kind)
    requires Distinct(ds) && |ds| <= LIMIT && Faithful(ds, es, definitions) && Added(ds, es, definitions, id, action, kind).Ok?
    ensures var r := Added(ds, es, definitions, id, action, kind).value;
            && Distinct(r) && |r| <= LIMIT && Faithful(r, es, definitions) && ds <= r
            && (forall x :: Has(r, x) <==> Has(ds, x) || x == id)
  {
    var r := Added(ds, es, definitions, id, action, kind).value;
    var i := Find(ds, id);
    assert i == |ds| ==> r[|ds|] == Described(es, id, action, kind, definitions[id]) && r[|ds|].id == id && r[|ds|].action == action && r[|ds|].kind == kind;
    hide Described;
    if i < |ds| { assert ds[i] in ds; } else { assert r[|ds|] in r && r[|ds|].id == id; }
    assert forall d :: d in ds ==> d in r;
  }

  lemma {:induction false} AddedAllIsSound(ds: seq<Descriptor>, es: seq<Effect>, definitions: map<nat, nat>, e: Entry, n: nat)
    requires Distinct(ds) && |ds| <= LIMIT && Faithful(ds, es, definitions)
    requires n <= |e.ids| && AddedAll(ds, es, definitions, e, n).Ok?
    ensures var r := AddedAll(ds, es, definitions, e, n).value;
            && Distinct(r) && |r| <= LIMIT && Faithful(r, es, definitions)
            && (forall x :: Has(r, x) <==> Has(ds, x) || x in e.ids[..n])
  {
    if n > 0 {
      AddedAllIsSound(ds, es, definitions, e, n - 1);
      assert e.ids[..n] == e.ids[..n - 1] + [e.ids[n - 1]];
      AddedIsSound(AddedAll(ds, es, definitions, e, n - 1).value, es, definitions, e.ids[n - 1], e.action, e.kind);
      hide Has, Distinct, Faithful, Added;
    }
  }

  lemma {:induction false} GatheredIsSound(entries: seq<Entry>, es: seq<Effect>, definitions: map<nat, nat>, transformOnly: bool, n: nat)
    requires n <= |entries| && Gathered(entries, es, definitions, transformOnly, n).Ok?
    ensures var r := Gathered(entries, es, definitions, transformOnly, n).value;
            && Distinct(r) && |r| <= LIMIT && Faithful(r, es, definitions)
            && (forall x :: Has(r, x) <==> Required(entries[..n], transformOnly, x))
  {
    if n > 0 {
      GatheredIsSound(entries, es, definitions, transformOnly, n - 1);
      var ds, e := Gathered(entries, es, definitions, transformOnly, n - 1).value, entries[n - 1];
      assert entries[..n] == entries[..n - 1] + [e];
      if Included(e, transformOnly) {
        AddedAllIsSound(ds, es, definitions, e, |e.ids|);
        assert e.ids[..|e.ids|] == e.ids;
      }
      forall x ensures Required(entries[..n], transformOnly, x) <==>
                       Required(entries[..n - 1], transformOnly, x) || (Included(e, transformOnly) && x in e.ids)
      {
        RequiredGrows(entries[..n - 1], e, transformOnly, x);
      }
      hide Has, Distinct, Faithful, AddedAll, Required, Included;
    }
  }

  lemma RequiredGrows(entries: seq<Entry>, e: Entry, transformOnly: bool, x: nat)
    ensures Required(entries + [e], transformOnly, x) <==>
            Required(entries, transformOnly, x) || (Included(e, transformOnly) && x in e.ids)
  {
    assert e in entries + [e];
    assert forall f :: f in entries ==> f in entries + [e];
  }

  // ----- deadlines -----

  /** v is a deadline of id, and numerically no effect of id lasts longer. */
  predicate Last(es: seq<Effect>, id: nat, v: Bits) {
    && Positive(v) && (exists e :: e in es && e.descriptor == id && e.deadline == v)
    && forall e :: e in es && e.descriptor == id ==> Positive(e.deadline) && Value(e.deadline) <= Value(v)
  }

  /** Some effect of id has this deadline and countdown. */
  predicate Sampled(es: seq<Effect>, id: nat, v: (Bits, nat)) {
    exists e :: e in es && e.descriptor == id && e.deadline == v.0 && e.remaining == v.1
  }

  lemma {:induction false} LongestIsMaximal(es: seq<Effect>, id: nat)
    ensures forall e :: e in es && e.descriptor == id && Positive(e.deadline) ==> e.deadline <= Longest(es, id).0
    ensures Longest(es, id).0 != 0 ==> Positive(Longest(es, id).0) && Sampled(es, id, Longest(es, id))
    ensures (exists e :: e in es && e.descriptor == id && Positive(e.deadline)) ==> Longest(es, id).0 != 0
    decreases |es|
  {
    Fields(0);
    hide Positive;
    if es != [] {
      var fs, e := es[..|es| - 1], es[|es| - 1];
      LongestIsMaximal(fs, id);
      assert es == fs + [e];
      assert e in es && forall f :: f in fs ==> f in es;
    }
  }

  /** A descriptor's deadline is its longest one, and zero exactly if it is absent or untimed. */
  lemma DescribedDeadline(es: seq<Effect>, id: nat, action: nat, kind: Kind, suppression: nat)
    ensures var d := Described(es, id, action, kind, suppression);
            && (d.present <==> Matches(es, id))
            && (d.deadline != 0 <==> Matches(es, id) && Timed(es, id))
            && (d.deadline != 0 ==> Positive(d.deadline) && Last(es, id, d.deadline) && Sampled(es, id, (d.deadline, d.remaining)))
            && (d.deadline == 0 ==> d.remaining == 0)
  {
    LongestIsMaximal(es, id);
    ZeroDeadline(es, id);
    var v := Longest(es, id).0;
    if Timed(es, id) && v != 0 {
      forall e | e in es && e.descriptor == id ensures Value(e.deadline) <= Value(v) { OrderIsNumeric(v, e.deadline); }
    }
    hide Positive, Value;
  }

  lemma {:induction false} ZeroDeadline(es: seq<Effect>, id: nat)
    ensures Longest(es, id).0 == 0 ==> Longest(es, id).1 == 0
    decreases |es|
  {
    hide Positive;
    if es != [] { ZeroDeadline(es[..|es| - 1], id); }
  }

  lemma {:induction false} SoonestIsMinimal(ds: seq<Descriptor>, n: nat)
    requires n <= |ds| && forall d :: d in ds ==> d.deadline == 0 || Positive(d.deadline)
    ensures var v := Soonest(ds, n);
            && (v.0 == 0 <==> exists i :: 0 <= i < n && ds[i].deadline == 0)
            && (forall i :: 0 <= i < n && v.0 != 0 ==> v.0 <= ds[i].deadline)
            && (v.0 != 0 && n > 0 ==> exists i :: 0 <= i < n && ds[i].deadline == v.0 && ds[i].remaining == v.1)
            && (v.0 == 0 ==> v.1 == 0) && (n == 0 ==> v.0 == NEVER)
  {
    if n > 0 {
      SoonestIsMinimal(ds, n - 1);
      assert ds[n - 1] in ds;
      Fields(ds[n - 1].deadline);
      Fields(0);
      hide Positive;
    }
  }

  /** Every required descriptor is on the actor, each with valid deadlines only. */
  ghost predicate FullyTimed(entries: seq<Entry>, es: seq<Effect>, transformOnly: bool) {
    forall id :: Required(entries, transformOnly, id) ==> Matches(es, id) && Timed(es, id)
  }

  /** v is no later than the last deadline of id. */
  ghost predicate NoLater(es: seq<Effect>, id: nat, v: Bits) { exists w :: Last(es, id, w) && Positive(v) && Value(v) <= Value(w) }

  lemma PresentIsAll(ds: seq<Descriptor>)
    ensures PresentCount(ds) == |ds| <==> forall d :: d in ds ==> d.present
    ensures PresentCount(ds) == 0 <==> forall d :: d in ds ==> !d.present
    decreases |ds|
  {
    if ds != [] {
      PresentIsAll(ds[..|ds| - 1]);
      assert ds == ds[..|ds| - 1] + [ds[|ds| - 1]];
    }
  }

  /** The facts about one action: the descriptors are exactly those required, each once; the
      coverage is present exactly when all of them are on the actor, and absence is claimed
      exactly when none of them is there and none could have been suppressed. */
  lemma CoverageIsExact(entries: seq<Entry>, es: seq<Effect>, definitions: map<nat, nat>, transformOnly: bool)
    requires Resolve(entries, es, definitions, transformOnly).Ok?
    ensures var r := Resolve(entries, es, definitions, transformOnly).value;
            && Distinct(r.descriptors) && (forall id :: Has(r.descriptors, id) <==> Required(entries, transformOnly, id))
            && (r.coverage.Present? <==> forall id :: Required(entries, transformOnly, id) ==> Matches(es, id))
            && (r.coverage.Missing? || r.coverage.Unknown? <==> forall id :: Required(entries, transformOnly, id) ==> !Matches(es, id))
            && (r.coverage.Missing? <==> forall id :: Required(entries, transformOnly, id) ==>
                                           !Matches(es, id) && id in definitions && definitions[id] == 0)
  {
    GatheredIsSound(entries, es, definitions, transformOnly, |entries|);
    assert entries[..|entries|] == entries;
    var ds := Gathered(entries, es, definitions, transformOnly, |entries|).value;
    PresentIsAll(ds);
    assert forall d :: d in ds ==> Has(ds, d.id) && (d.present <==> Matches(es, d.id)) && d.suppression == definitions[d.id];
    assert ds[0] in ds;
    hide Matches, Required, Described, Gathered, Soonest, Distinct, PresentCount, Longest, Timed;
  }

  /** The published deadline is the soonest, over the required descriptors, of each one's
      last deadline; it is zero exactly when some descriptor is absent or has an untimed
      match; and its countdown is one sampled with it. */
  lemma DeadlineIsMinOfMax(entries: seq<Entry>, es: seq<Effect>, definitions: map<nat, nat>, transformOnly: bool)
    requires Resolve(entries, es, definitions, transformOnly).Ok?
    ensures var r := Resolve(entries, es, definitions, transformOnly).value;
            && (r.deadline != 0 <==> FullyTimed(entries, es, transformOnly))
            && (r.deadline == 0 ==> r.remaining == 0)
            && (r.deadline != 0 ==>
                  && Positive(r.deadline)
                  && (forall id :: Required(entries, transformOnly, id) ==> NoLater(es, id, r.deadline))
                  && exists id :: Required(entries, transformOnly, id) && Last(es, id, r.deadline) && Sampled(es, id, (r.deadline, r.remaining)))
  {
    ResolvedIsGrounded(entries, es, definitions, transformOnly);
    var r := Resolve(entries, es, definitions, transformOnly).value;
    hide Resolve, Grounded, Required, FullyTimed, NoLater, Last, Sampled, Positive, Has;
    if r.deadline != 0 { TimedDeadline(entries, es, transformOnly, r); } else { UntimedDeadline(entries, es, transformOnly, r); }
  }

  lemma ResolvedIsGrounded(entries: seq<Entry>, es: seq<Effect>, definitions: map<nat, nat>, transformOnly: bool)
    requires Resolve(entries, es, definitions, transformOnly).Ok?
    ensures Grounded(entries, es, transformOnly, Resolve(entries, es, definitions, transformOnly).value)
  {
    hide Matches, Timed, Required, Described, Gathered, Soonest, Distinct, PresentCount, Longest, Positive, Value, Last, Sampled;
    GatheredIsSound(entries, es, definitions, transformOnly, |entries|);
    assert entries[..|entries|] == entries;
    var ds := Resolve(entries, es, definitions, transformOnly).value.descriptors;
    forall d | d in ds
      ensures d.present == Matches(es, d.id)
      ensures d.deadline != 0 <==> Matches(es, d.id) && Timed(es, d.id)
      ensures d.deadline != 0 ==> Positive(d.deadline) && Last(es, d.id, d.deadline) && Sampled(es, d.id, (d.deadline, d.remaining))
    {
      DescribedDeadline(es, d.id, d.action, d.kind, definitions[d.id]);
    }
    PresentIsAll(ds);
    hide Faithful, Has;
  }

  /** The descriptors of r are those required, with their timing as described. */
  ghost predicate Grounded(entries: seq<Entry>, es: seq<Effect>, transformOnly: bool, r: Resolved) {
    && r.descriptors != [] && (forall id :: Has(r.descriptors, id) <==> Required(entries, transformOnly, id))
    && (forall d :: d in r.descriptors ==>
          && d.present == Matches(es, d.id) && (d.deadline != 0 <==> Matches(es, d.id) && Timed(es, d.id))
          && (d.deadline != 0 ==> Positive(d.deadline) && Last(es, d.id, d.deadline) && Sampled(es, d.id, (d.deadline, d.remaining))))
    && (r.coverage.Present? <==> forall d :: d in r.descriptors ==> d.present)
    && (r.deadline, r.remaining) == if r.coverage.Present? then Soonest(r.descriptors, |r.descriptors|) else (0, 0)
  }

  lemma TimedRequirement(entries: seq<Entry>, es: seq<Effect>, transformOnly: bool, r: Resolved, id: nat)
    requires Grounded(entries, es, transformOnly, r) && r.deadline != 0 && Positive(r.deadline) && Has(r.descriptors, id)
    requires forall d :: d in r.descriptors ==> d.deadline != 0 && r.deadline <= d.deadline
    ensures NoLater(es, id, r.deadline) && Matches(es, id) && Timed(es, id)
  {
    hide Matches, Timed, Required, Soonest, Positive, Value, Last, Sampled;
    var d :| d in r.descriptors && d.id == id;
    OrderIsNumeric(d.deadline, r.deadline);
    assert Last(es, id, d.deadline);
  }

  lemma SoonestOfAll(ds: seq<Descriptor>, v: (Bits, nat)) returns (d: Descriptor)
    requires ds != [] && v == Soonest(ds, |ds|) && v.0 != 0 && forall d :: d in ds ==> d.deadline == 0 || Positive(d.deadline)
    ensures d in ds && d.deadline == v.0 && d.remaining == v.1 && forall e :: e in ds ==> e.deadline != 0 && v.0 <= e.deadline
  {
    SoonestIsMinimal(ds, |ds|);
    hide Soonest, Positive;
    var k :| 0 <= k < |ds| && ds[k].deadline == v.0 && ds[k].remaining == v.1;
    d := ds[k];
  }

  lemma TimedDeadline(entries: seq<Entry>, es: seq<Effect>, transformOnly: bool, r: Resolved)
    requires Grounded(entries, es, transformOnly, r) && r.deadline != 0
    ensures Positive(r.deadline) && FullyTimed(entries, es, transformOnly)
    ensures forall id :: Required(entries, transformOnly, id) ==> NoLater(es, id, r.deadline)
    ensures exists id :: Required(entries, transformOnly, id) && Last(es, id, r.deadline) && Sampled(es, id, (r.deadline, r.remaining))
  {
    hide Matches, Timed, Required, Soonest, Positive, Value, Last, Sampled;
    var d := SoonestOfAll(r.descriptors, (r.deadline, r.remaining));
    assert Has(r.descriptors, d.id);
    hide NoLater;
    forall id | Required(entries, transformOnly, id) ensures NoLater(es, id, r.deadline) && Matches(es, id) && Timed(es, id) {
      TimedRequirement(entries, es, transformOnly, r, id);
    }
  }

  lemma UntimedDeadline(entries: seq<Entry>, es: seq<Effect>, transformOnly: bool, r: Resolved)
    requires Grounded(entries, es, transformOnly, r) && r.deadline == 0
    ensures r.remaining == 0 && !FullyTimed(entries, es, transformOnly)
  {
    var ds := r.descriptors;
    SoonestIsMinimal(ds, |ds|);
    hide Matches, Timed, Required, Soonest, Positive, Value, Last, Sampled;
    if r.coverage.Present? {
      var i :| 0 <= i < |ds| && ds[i].deadline == 0;
      assert ds[i] in ds;
      assert Has(ds, ds[i].id);
    } else {
      var d :| d in ds && !d.present;
      assert Has(ds, d.id);
    }
  }
}
