/** IEEE 754 binary64 numbers (section 3.4 of the standard) as bit patterns. */
module Binary64 {
  import opened Powers

  const SIGN: nat := 0x8000_0000_0000_0000
  const UNIT: nat := 0x10_0000_0000_0000

  type Bits = x: nat | x < 2 * SIGN

  function Sign(s: Bits): nat { s / SIGN }
  function Exponent(s: Bits): nat { s / UNIT % 2048 }
  function Fraction(s: Bits): nat { s % UNIT }

  /** Finite and greater than zero. */
  predicate Positive(s: Bits) {
    Sign(s) == 0 && Exponent(s) != 2047 && (Exponent(s) != 0 || Fraction(s) != 0)
  }

  /** The number in units of the least positive one, 2^-1074: subnormal or normal. */
  function Units(s: Bits): nat {
    if Exponent(s) == 0 then Fraction(s) else (UNIT + Fraction(s)) * Pow2(Exponent(s) - 1)
  }

  /** The number a positive finite pattern stands for. */
  function Value(s: Bits): real
    requires Positive(s)
  {
    Units(s) as real / Pow2(1074) as real
  }

  lemma Scaled(a: nat, b: nat, p: nat)
    requires p >= 1
    ensures a < b ==> a * p < b * p
    ensures a <= b ==> a * p <= b * p
  {
  }

  lemma Fields(s: Bits)
    ensures s == Sign(s) * SIGN + Exponent(s) * UNIT + Fraction(s)
    ensures Positive(s) <==> 0 < s < 2047 * UNIT
  {
    assert s / UNIT / 2048 == s / SIGN;
  }

  lemma UnitsGrow(s: Bits, t: Bits)
    requires Positive(s) && Positive(t) && s < t
    ensures Units(s) < Units(t)
  {
    Fields(s);
    Fields(t);
    var e, f := Exponent(s), Exponent(t);
    if e == f {
      if e > 0 { Scaled(UNIT + Fraction(s), UNIT + Fraction(t), Pow2(e - 1)); }
    } else {
      assert e < f;
      Scaled(UNIT, UNIT + Fraction(t), Pow2(f - 1));
      if e == 0 {
        Scaled(1, Pow2(f - 1), UNIT);
      } else {
        Scaled(UNIT + Fraction(s), 2 * UNIT, Pow2(e - 1));
        Pow2Grows(e, f - 1);
        Scaled(Pow2(e), Pow2(f - 1), UNIT);
      }
    }
  }

  /** The unsigned order of positive finite patterns is the order of their numbers. */
  lemma OrderIsNumeric(s: Bits, t: Bits)
    requires Positive(s) && Positive(t)
    ensures s < t <==> Value(s) < Value(t)
  {
    if s < t { UnitsGrow(s, t); Quotients(Units(s), Units(t), Pow2(1074)); }
    if t < s { UnitsGrow(t, s); Quotients(Units(t), Units(s), Pow2(1074)); }
  }

  lemma Quotients(a: nat, b: nat, p: nat)
    requires a < b && p >= 1
    ensures a as real / p as real < b as real / p as real
  {
  }
}

/** The deadlines an action's coverage rests on, at most one for each descriptor. */
module Coverage {
  import opened Binary64
  import opened Wrappers

  const LIMIT: nat := 64

  datatype Deadline = Deadline(descriptor: nat, stamp: Bits)

  /** The first entry for a descriptor, or the length. */
  function Find(ds: seq<Deadline>, descriptor: nat): (i: nat)
    ensures i <= |ds|
    ensures i < |ds| ==> ds[i].descriptor == descriptor
    ensures forall j :: 0 <= j < i ==> ds[j].descriptor != descriptor
  {
    if ds == [] || ds[0].descriptor == descriptor then 0 else 1 + Find(ds[1..], descriptor)
  }

  function Added(ds: seq<Deadline>, d: Deadline): Option<seq<Deadline>> {
    if d.descriptor == 0 || !Positive(d.stamp) then None
    else
      var i := Find(ds, d.descriptor);
      if i < |ds| then Some(if d.stamp > ds[i].stamp then ds[i := ds[i].(stamp := d.stamp)] else ds)
      else if |ds| == LIMIT then None
      else Some(ds + [d])
  }

  function Baseline(vs: seq<Deadline>): Option<seq<Deadline>> {
    if vs == [] then Some([])
    else
      match Baseline(vs[..|vs| - 1])
      case None => None
      case Some(ds) => Added(ds, vs[|vs| - 1])
  }

  function Descriptors(vs: seq<Deadline>): set<nat> { set i | 0 <= i < |vs| :: vs[i].descriptor }

  predicate AllValid(vs: seq<Deadline>) { forall v :: v in vs ==> v.descriptor != 0 && Positive(v.stamp) }

  predicate Distinct(ds: seq<Deadline>) {
    forall i, j :: 0 <= i < j < |ds| ==> ds[i].descriptor != ds[j].descriptor
  }

  /** Some deadline in ds for the same descriptor is no earlier than v. */
  predicate Held(v: Deadline, ds: seq<Deadline>) {
    exists d :: d in ds && d.descriptor == v.descriptor && v.stamp <= d.stamp
  }

  /** ds holds, for each descriptor of vs, the latest of its deadlines. */
  predicate Latest(ds: seq<Deadline>, vs: seq<Deadline>) {
    && Distinct(ds) && AllValid(ds) && AllValid(vs)
    && (forall d :: d in ds ==> d in vs)
    && (forall v :: v in vs ==> Held(v, ds))
  }

  lemma {:induction false} Sized(ds: seq<Deadline>)
    requires Distinct(ds)
    ensures |Descriptors(ds)| == |ds|
    decreases |ds|
  {
    if ds != [] {
      var n := |ds| - 1;
      Sized(ds[..n]);
      assert Descriptors(ds) == Descriptors(ds[..n]) + {ds[n].descriptor};
    }
  }

  /** The new entry is held, and nothing held is lost. */
  lemma AddedHolds(ds: seq<Deadline>, v: Deadline, w: Deadline)
    requires Added(ds, v).Some? && (w == v || Held(w, ds))
    ensures Held(w, Added(ds, v).value)
  {
    hide Positive;
    var es, i := Added(ds, v).value, Find(ds, v.descriptor);
    if i < |ds| { assert es[i] in es; } else { assert es[|ds|] in es; }
    if w != v {
      var d :| d in ds && d.descriptor == w.descriptor && w.stamp <= d.stamp;
      var j :| 0 <= j < |ds| && ds[j] == d;
      assert es[j] in es && es[j].descriptor == d.descriptor && d.stamp <= es[j].stamp;
    }
  }

  lemma AddedIsLatest(ds: seq<Deadline>, vs: seq<Deadline>, v: Deadline)
    requires Latest(ds, vs) && v.descriptor != 0 && Positive(v.stamp) && Added(ds, v).Some?
    ensures Latest(Added(ds, v).value, vs + [v])
  {
    hide Positive;
    var es, ws := Added(ds, v).value, vs + [v];
    forall d | d in es ensures d in ws {
      if d in ds { assert d in vs; } else { assert d == v; }
    }
    forall w | w in ws ensures Held(w, es) {
      assert w == v || w in vs;
      AddedHolds(ds, v, w);
    }
    hide Held;
  }

  /** A baseline is kept exactly when every deadline is valid and there are at most
      sixty-four descriptors, and then it holds each descriptor's latest deadline. */
  lemma {:induction false} BaselineIsLatest(vs: seq<Deadline>)
    ensures Baseline(vs).Some? <==> AllValid(vs) && |Descriptors(vs)| <= LIMIT
    ensures Baseline(vs).Some? ==> Latest(Baseline(vs).value, vs) && Descriptors(Baseline(vs).value) == Descriptors(vs)
    decreases |vs|
  {
    hide Positive, Held;
    if vs == [] {
    } else {
      var n := |vs| - 1;
      var us, v := vs[..n], vs[n];
      assert vs == us + [v];
      assert Descriptors(vs) == Descriptors(us) + {v.descriptor};
      assert AllValid(vs) <==> AllValid(us) && v.descriptor != 0 && Positive(v.stamp) by {
        assert v in vs && forall u :: u in us ==> u in vs;
      }
      BaselineIsLatest(us);
      if Baseline(us).Some? && v.descriptor != 0 && Positive(v.stamp) {
        var ds := Baseline(us).value;
        assert Distinct(ds);
        Sized(ds);
        FoundIffListed(ds, v.descriptor);
        if Added(ds, v).Some? {
          AddedIsLatest(ds, us, v);
          AddedDescriptors(ds, v);
          assert Distinct(Added(ds, v).value);
          Sized(Added(ds, v).value);
        }
        hide Latest, AllValid;
        assert Added(ds, v).Some? <==> |Descriptors(vs)| <= LIMIT;
      }
    }
  }

  lemma FoundIffListed(ds: seq<Deadline>, descriptor: nat)
    ensures Find(ds, descriptor) < |ds| <==> descriptor in Descriptors(ds)
  {
  }

  lemma AddedDescriptors(ds: seq<Deadline>, v: Deadline)
    requires Added(ds, v).Some?
    ensures Descriptors(Added(ds, v).value) == Descriptors(ds) + {v.descriptor}
  {
    var es := Added(ds, v).value;
    var i := Find(ds, v.descriptor);
    assert forall j :: 0 <= j < |ds| ==> es[j].descriptor == ds[j].descriptor;
    assert i < |ds| ==> |es| == |ds| && v.descriptor == ds[i].descriptor;
    assert i == |ds| ==> |es| == |ds| + 1 && es[|ds|] == v;
  }

  // ----- renewal -----

  predicate Renews(prior: Deadline, now: seq<Deadline>) {
    exists v :: v in now && v.descriptor == prior.descriptor && Positive(v.stamp) && v.stamp > prior.stamp
  }

  predicate Advanced(baseline: seq<Deadline>, now: seq<Deadline>) {
    forall d :: d in baseline ==> Renews(d, now)
  }

  predicate NumericallyLater(n: Deadline, v: Deadline) {
    n.descriptor == v.descriptor && Positive(n.stamp) && Positive(v.stamp) && Value(n.stamp) > Value(v.stamp)
  }

  /** Some current deadline is for v's descriptor and numerically later than v. */
  predicate Outlived(v: Deadline, now: seq<Deadline>) { exists n :: n in now && NumericallyLater(n, v) }

  lemma RenewedIsOutlived(v: Deadline, now: seq<Deadline>)
    requires Positive(v.stamp)
    ensures Renews(v, now) <==> Outlived(v, now)
  {
    forall n | n in now && n.descriptor == v.descriptor && Positive(n.stamp)
      ensures v.stamp < n.stamp <==> NumericallyLater(n, v)
    {
      OrderIsNumeric(v.stamp, n.stamp);
    }
    hide Positive, Value;
  }

  /** Advancing past a baseline is outliving every deadline it was made of. */
  lemma AdvancedIsLater(vs: seq<Deadline>, now: seq<Deadline>)
    requires Baseline(vs).Some?
    ensures Advanced(Baseline(vs).value, now) <==> forall v :: v in vs ==> Outlived(v, now)
  {
    BaselineIsLatest(vs);
    var ds := Baseline(vs).value;
    hide Baseline, Positive, Outlived;
    if Advanced(ds, now) {
      forall v | v in vs ensures Outlived(v, now) {
        assert Held(v, ds);
        var d :| d in ds && d.descriptor == v.descriptor && v.stamp <= d.stamp;
        assert Renews(d, now);
        RenewedIsOutlived(v, now);
      }
    }
    if forall v :: v in vs ==> Outlived(v, now) {
      forall d | d in ds ensures Renews(d, now) {
        assert d in vs;
        RenewedIsOutlived(d, now);
      }
    }
  }

  /** The list as the program fills it, in place. */
  class CoverageDeadlines {
    const values: array<Deadline>
    var count: nat

    ghost predicate Valid()
      reads this
    {
      values.Length == LIMIT && count <= LIMIT
    }

    function View(): seq<Deadline>
      requires Valid()
      reads this, values
    {
      values[..count]
    }

    constructor ()
      ensures Valid() && fresh(values) && View() == []
    {
      values := new Deadline[LIMIT](i => Deadline(0, 0));
      count := 0;
    }

    method Add(descriptor: nat, stamp: Bits) returns (ok: bool)
      requires Valid()
      modifies this, values
      ensures Valid()
      ensures ok == Added(old(View()), Deadline(descriptor, stamp)).Some?
      ensures View() == if ok then Added(old(View()), Deadline(descriptor, stamp)).value else old(View())
    {
      if descriptor == 0 || !Positive(stamp) { return false; }
      for i := 0 to count
        invariant forall j :: 0 <= j < i ==> values[j].descriptor != descriptor
      {
        if values[i].descriptor == descriptor {
          assert Find(View(), descriptor) == i;
          if stamp > values[i].stamp {
            ghost var ds := View();
            values[i] := values[i].(stamp := stamp);
            assert View() == ds[i := ds[i].(stamp := stamp)];
          }
          return true;
        }
      }
      assert Find(View(), descriptor) == count;
      if count == LIMIT { return false; }
      values[count] := Deadline(descriptor, stamp);
      count := count + 1;
      return true;
    }
  }
}
