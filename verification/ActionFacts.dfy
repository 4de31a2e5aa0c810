/** The facts about one action as the program gathers them: a descriptor array filled in
    place, and running minima and maxima over it. */
module ActionFacts {
  import opened Binary64
  import opened Resolver

  class ActionFacts {
    const descriptors: array<Descriptor>
    var count: nat
    var coverage: Coverage
    var deadline: Bits
    var remaining: nat

    ghost predicate Valid()
      reads this
    {
      descriptors.Length == LIMIT && count <= LIMIT
    }

    ghost function View(): seq<Descriptor>
      requires Valid()
      reads this, descriptors
    {
      descriptors[..count]
    }

    constructor ()
      ensures Valid() && fresh(descriptors) && View() == [] && coverage == Unknown && deadline == 0 && remaining == 0
    {
      descriptors := new Descriptor[LIMIT](i => Descriptor(0, 0, Apply, 0, false, 0, 0));
      count, coverage, deadline, remaining := 0, Unknown, 0, 0;
    }

    /** Scan the effects for one descriptor. */
    method Observe(d: Descriptor, es: seq<Effect>) returns (r: Descriptor)
      requires !d.present && d.deadline == 0 && d.remaining == 0
      ensures r == Described(es, d.id, d.action, d.kind, d.suppression)
    {
      hide Positive;
      r := d;
      var timed := true;
      for i := 0 to |es|
        invariant r == d.(present := r.present, deadline := r.deadline, remaining := r.remaining)
        invariant r.present == Matches(es[..i], d.id) && timed == Timed(es[..i], d.id)
        invariant (r.deadline, r.remaining) == Longest(es[..i], d.id)
      {
        var e := es[i];
        assert es[..i + 1] == es[..i] + [e] && es[..i + 1][..i] == es[..i];
        assert e in es[..i + 1];
        assert forall f :: f in es[..i + 1] <==> f in es[..i] || f == e;
        if e.descriptor == d.id {
          r := r.(present := true);
          timed := timed && Positive(e.deadline);
          if e.deadline > r.deadline && Positive(e.deadline) {
            r := r.(deadline := e.deadline, remaining := e.remaining);
          }
        }
      }
      assert es[..|es|] == es;
      if !timed { r := r.(deadline := 0, remaining := 0); }
    }

    method AddDescriptor(es: seq<Effect>, definitions: map<nat, nat>, id: nat, action: nat, kind: Kind) returns (r: Result<()>)
      requires Valid()
      modifies this`count, descriptors
      ensures Valid()
      ensures match Added(old(View()), es, definitions, id, action, kind)
              case Ok(ds) => r.Ok? && View() == ds
              case Err(e) => r == Err(e) && View() == old(View())
    {
      hide Described;
      if id == 0 || action == 0 { return Err(Geometry); }
      for i := 0 to count
        invariant forall j :: 0 <= j < i ==> descriptors[j].id != id
      {
        if descriptors[i].id == id {
          assert Find(View(), id) == i;
          if descriptors[i].action == action && descriptors[i].kind == kind { return Ok(()); }
          return Err(Unsupported);
        }
      }
      assert Find(View(), id) == count;
      if count == LIMIT { return Err(Geometry); }
      if id !in definitions { return Err(Unsupported); }
      var d := Observe(Descriptor(id, action, kind, definitions[id], false, 0, 0), es);
      descriptors[count] := d;
      count := count + 1;
      return Ok(());
    }

    method AddEntry(es: seq<Effect>, definitions: map<nat, nat>, e: Entry) returns (r: Result<()>)
      requires Valid()
      modifies this`count, descriptors
      ensures Valid()
      ensures match AddedAll(old(View()), es, definitions, e, |e.ids|) case Ok(ds) => r.Ok? && View() == ds case Err(x) => r == Err(x)
    {
      hide Added;
      for i := 0 to |e.ids|
        invariant Valid() && AddedAll(old(View()), es, definitions, e, i) == Ok(View())
      {
        r := AddDescriptor(es, definitions, e.ids[i], e.action, e.kind);
        if r.Err? {
          FailedEntry(old(View()), es, definitions, e, i + 1);
          return;
        }
      }
      return Ok(());
    }

    static lemma {:induction false} FailedEntry(ds: seq<Descriptor>, es: seq<Effect>, definitions: map<nat, nat>, e: Entry, n: nat)
      requires n <= |e.ids| && AddedAll(ds, es, definitions, e, n).Err?
      ensures AddedAll(ds, es, definitions, e, |e.ids|) == AddedAll(ds, es, definitions, e, n)
      decreases |e.ids| - n
    {
      hide Added;
      if n < |e.ids| { FailedEntry(ds, es, definitions, e, n + 1); }
    }

    static lemma {:induction false} FailedGathering(entries: seq<Entry>, es: seq<Effect>, definitions: map<nat, nat>, transformOnly: bool, n: nat)
      requires n <= |entries| && Gathered(entries, es, definitions, transformOnly, n).Err?
      ensures Gathered(entries, es, definitions, transformOnly, |entries|) == Gathered(entries, es, definitions, transformOnly, n)
      decreases |entries| - n
    {
      hide AddedAll;
      if n < |entries| { FailedGathering(entries, es, definitions, transformOnly, n + 1); }
    }

    method Gather(entries: seq<Entry>, es: seq<Effect>, definitions: map<nat, nat>, transformOnly: bool) returns (r: Result<()>)
      requires Valid() && View() == []
      modifies this`count, descriptors
      ensures Valid()
      ensures match Gathered(entries, es, definitions, transformOnly, |entries|) case Ok(ds) => r.Ok? && View() == ds case Err(x) => r == Err(x)
    {
      hide AddedAll;
      for i := 0 to |entries|
        invariant Valid() && Gathered(entries, es, definitions, transformOnly, i) == Ok(View())
      {
        if !transformOnly || entries[i].kind.Transform? {
          if entries[i].ids == [] {
            r := Err(ReadFault);
          } else {
            r := AddEntry(es, definitions, entries[i]);
          }
          if r.Err? {
            assert Gathered(entries, es, definitions, transformOnly, i + 1) == Err(r.error);
            FailedGathering(entries, es, definitions, transformOnly, i + 1);
            return;
          }
        }
      }
      return Ok(());
    }

    /** Count what is present, and whether its absence could be a suppression. */
    method SetCoverage()
      requires Valid()
      modifies this`coverage
      ensures coverage == CoverageOf(View())
    {
      var present, retained := 0, true;
      for i := 0 to count
        invariant present == PresentCount(descriptors[..i])
        invariant retained <==> forall j :: 0 <= j < i ==> descriptors[j].suppression == 0
      {
        assert descriptors[..i + 1][..i] == descriptors[..i];
        present := present + if descriptors[i].present then 1 else 0;
        retained := retained && descriptors[i].suppression == 0;
      }
      coverage := if present == count then Present else if present > 0 then Partial else if retained then Missing else Unknown;
    }

    method SetDeadline()
      requires Valid() && deadline == 0 && remaining == 0 && count > 0
      modifies this`deadline, this`remaining
      ensures (deadline, remaining) == if coverage.Present? then Soonest(View(), count) else (0, 0)
    {
      Fields(0);
      hide Positive;
      if coverage.Present? {
        deadline := NEVER;
        for i := 0 to count
          invariant (deadline, remaining) == Soonest(View(), i) && deadline != 0
        {
          var d := descriptors[i];
          if !Positive(d.deadline) {
            deadline, remaining := 0, 0;
            GivenUp(View(), i + 1);
            break;
          }
          if d.deadline < deadline { deadline, remaining := d.deadline, d.remaining; }
        }
      }
    }

    static lemma {:induction false} GivenUp(ds: seq<Descriptor>, n: nat)
      requires 0 < n <= |ds| && Soonest(ds, n) == (0, 0)
      ensures Soonest(ds, |ds|) == (0, 0)
      decreases |ds| - n
    {
      hide Positive;
      if n < |ds| { GivenUp(ds, n + 1); }
    }

    /** Everything about one action, from the lines of its definition. */
    method Selectors(entries: seq<Entry>, es: seq<Effect>, definitions: map<nat, nat>, transformOnly: bool) returns (r: Result<()>)
      requires Valid() && View() == [] && coverage == Unknown && deadline == 0 && remaining == 0
      modifies this, descriptors
      ensures Valid()
      ensures match Resolve(entries, es, definitions, transformOnly)
              case Ok(x) => r.Ok? && Resolved(View(), coverage, deadline, remaining) == x
              case Err(e) => r == Err(e)
    {
      hide Gathered, CoverageOf, Soonest;
      if entries == [] { return Err(Unsupported); }
      r := Gather(entries, es, definitions, transformOnly);
      if r.Err? { return; }
      if count == 0 { return Err(Unsupported); }
      SetCoverage();
      SetDeadline();
    }
  }
}
