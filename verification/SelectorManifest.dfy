/** The manifest of configured actions, and the canonical byte string that names one of its
    coverage groups. */
module SelectorManifest {

  type Word = x: nat | x < 0x1_0000_0000
  type Byte = x: nat | x < 256
  type Bytes = seq<Byte>
  type Chunk = b: Bytes | |b| == 24 witness seq(24, i => 0)

  datatype Selector = Selector(
    index: Word, group: Word, kind: Word, power: Word, templateId: Word, templateZero: Word, coveragePower: Word, coverageKind: Word)

  /** What a selector means: all of it but its place. */
  datatype Tuple = Tuple(kind: Word, power: Word, templateId: Word, templateZero: Word, coveragePower: Word, coverageKind: Word)

  datatype Header = Header(
    clientPid: nat, producerPid: nat, clientCreation: nat, producerCreation: nat, generation: nat, localName: nat, server: nat)

  datatype Manifest = Manifest(header: Header, groups: nat, records: seq<Selector>)

  function TupleOf(r: Selector): Tuple {
    Tuple(r.kind, r.power, r.templateId, r.templateZero, r.coveragePower, r.coverageKind)
  }

  predicate ValidSelector(r: Selector) {
    && r.index < 32 && r.group < 32 && r.templateZero == 0 && r.coveragePower != 0 && r.coverageKind <= 1
    && (|| (r.kind == 3 && r.power != 0 && r.templateId == 0 && r.coveragePower == r.power)
        || (r.kind == 4 && r.power == 0 && r.templateId != 0 && r.coverageKind == 0))
  }

  predicate ValidHeader(h: Header) {
    && h.clientPid != 0 && h.producerPid != 0 && h.clientCreation != 0 && h.producerCreation != 0
    && h.generation != 0 && h.localName != 0 && h.server != 0
  }

  predicate RecordOk(m: Manifest, i: nat)
    requires i < |m.records|
  {
    && ValidSelector(m.records[i]) && m.records[i].index == i && m.records[i].group < m.groups
    && forall j :: 0 <= j < i ==> TupleOf(m.records[j]) != TupleOf(m.records[i])
  }

  predicate Used(m: Manifest, g: nat) { exists i :: 0 <= i < |m.records| && m.records[i].group == g }

  predicate Valid(m: Manifest) {
    && ValidHeader(m.header) && 1 <= |m.records| <= 32 && 1 <= m.groups <= 32
    && (forall i :: 0 <= i < |m.records| ==> RecordOk(m, i))
    && (forall g :: 0 <= g < m.groups ==> Used(m, g))
  }

  lemma Bounds(m: Manifest)
    requires Valid(m)
    ensures 1 <= |m.records| <= 32 && forall i :: 0 <= i < |m.records| ==> RecordOk(m, i)
  {
    hide RecordOk;
  }

  // ----- bytes -----

  /** A word as it lies in memory, low byte first. */
  function Little(w: Word): Bytes { [w % 256, w / 256 % 256, w / 65536 % 256, w / 16777216] }

  function Encoded(t: Tuple): Chunk {
    Little(t.kind) + Little(t.power) + Little(t.templateId) + Little(t.templateZero) + Little(t.coveragePower) + Little(t.coverageKind)
  }

  function Unlittle(b: Bytes): nat
    requires |b| == 4
  {
    var b0: nat, b1: nat, b2: nat, b3: nat := b[0], b[1], b[2], b[3];
    b0 + 256 * b1 + 65536 * b2 + 16777216 * b3
  }

  lemma LittleRoundTrip(w: Word)
    ensures Unlittle(Little(w)) == w
  {
    var a: int := w;
    var b := a / 256;
    var c := b / 256;
    assert a == 256 * b + a % 256;
    assert b == 256 * c + b % 256;
    assert a / 65536 == c;
    assert a / 16777216 == c / 256;
  }

  lemma EncodedIsInjective(t: Tuple, u: Tuple)
    ensures Encoded(t) == Encoded(u) <==> t == u
  {
    LittleRoundTrip(t.kind); LittleRoundTrip(u.kind);
    LittleRoundTrip(t.power); LittleRoundTrip(u.power);
    LittleRoundTrip(t.templateId); LittleRoundTrip(u.templateId);
    LittleRoundTrip(t.templateZero); LittleRoundTrip(u.templateZero);
    LittleRoundTrip(t.coveragePower); LittleRoundTrip(u.coveragePower);
    LittleRoundTrip(t.coverageKind); LittleRoundTrip(u.coverageKind);
    hide Little, Unlittle;
    if Encoded(t) == Encoded(u) {
      var a, b := Encoded(t), Encoded(u);
      assert forall v: Word :: |Little(v)| == 4 by { FourBytes(); }
      assert Little(t.kind) == a[0..4] && Little(u.kind) == b[0..4];
      assert Little(t.power) == a[4..8] && Little(u.power) == b[4..8];
      assert Little(t.templateId) == a[8..12] && Little(u.templateId) == b[8..12];
      assert Little(t.templateZero) == a[12..16] && Little(u.templateZero) == b[12..16];
      assert Little(t.coveragePower) == a[16..20] && Little(u.coveragePower) == b[16..20];
      assert Little(t.coverageKind) == a[20..24] && Little(u.coverageKind) == b[20..24];
    }
  }

  lemma FourBytes()
    ensures forall v: Word :: |Little(v)| == 4
  {
  }

  /** Lexicographic order of byte strings of one length. */
  predicate NotAfter(a: Bytes, b: Bytes)
    requires |a| == |b|
  {
    a == [] || a[0] < b[0] || (a[0] == b[0] && NotAfter(a[1..], b[1..]))
  }

  lemma {:induction false} OrderIsTotal(a: Bytes, b: Bytes)
    requires |a| == |b|
    ensures NotAfter(a, b) || NotAfter(b, a)
    ensures NotAfter(a, b) && NotAfter(b, a) <==> a == b
  {
    if a != [] {
      OrderIsTotal(a[1..], b[1..]);
      assert a == [a[0]] + a[1..] && b == [b[0]] + b[1..];
    }
  }

  lemma {:induction false} OrderIsTransitive(a: Bytes, b: Bytes, c: Bytes)
    requires |a| == |b| == |c| && NotAfter(a, b) && NotAfter(b, c)
    ensures NotAfter(a, c)
  {
    if a != [] && a[0] == b[0] == c[0] { OrderIsTransitive(a[1..], b[1..], c[1..]); }
  }

  // ----- sorting -----

  predicate Sorted(s: seq<Chunk>) { forall i, j :: 0 <= i < j < |s| ==> NotAfter(s[i], s[j]) }

  function Insert(s: seq<Chunk>, c: Chunk): seq<Chunk> {
    if s == [] || NotAfter(c, s[0]) then [c] + s else [s[0]] + Insert(s[1..], c)
  }

  function Sort(s: seq<Chunk>): seq<Chunk> { if s == [] then [] else Insert(Sort(s[..|s| - 1]), s[|s| - 1]) }

  lemma {:induction false} InsertIsSorted(s: seq<Chunk>, c: Chunk)
    requires Sorted(s)
    ensures Sorted(Insert(s, c)) && multiset(Insert(s, c)) == multiset(s) + multiset{c}
  {
    if s == [] {
    } else if NotAfter(c, s[0]) {
      forall i | 0 <= i < |s| ensures NotAfter(c, s[i]) { if i > 0 { OrderIsTransitive(c, s[0], s[i]); } }
    } else {
      OrderIsTotal(c, s[0]);
      InsertIsSorted(s[1..], c);
      var r := Insert(s[1..], c);
      assert s == [s[0]] + s[1..];
      forall i | 0 <= i < |r| ensures NotAfter(s[0], r[i]) {
        assert r[i] in multiset(r);
        if r[i] != c { var k :| 0 <= k < |s[1..]| && s[1..][k] == r[i]; assert s[k + 1] == r[i]; }
      }
    }
  }

  lemma {:induction false} SortIsSorted(s: seq<Chunk>)
    ensures Sorted(Sort(s)) && multiset(Sort(s)) == multiset(s)
  {
    if s != [] {
      SortIsSorted(s[..|s| - 1]);
      InsertIsSorted(Sort(s[..|s| - 1]), s[|s| - 1]);
      assert s == s[..|s| - 1] + [s[|s| - 1]];
    }
  }

  lemma LeastFirst(s: seq<Chunk>, c: Chunk)
    requires Sorted(s) && c in multiset(s)
    ensures s != [] && NotAfter(s[0], c)
  {
    var i :| 0 <= i < |s| && s[i] == c;
    OrderIsTotal(c, c);
    hide NotAfter;
  }

  lemma Rest(s: seq<Chunk>)
    requires s != []
    ensures multiset(s[1..]) == multiset(s) - multiset{s[0]}
  {
    assert s == [s[0]] + s[1..];
  }

  /** Whatever the sorting procedure, the result is this one. */
  lemma {:induction false} SortedIsUnique(s: seq<Chunk>, t: seq<Chunk>)
    requires Sorted(s) && Sorted(t) && multiset(s) == multiset(t)
    ensures s == t
  {
    hide NotAfter;
    if s != [] {
      LeastFirst(t, s[0]);
      LeastFirst(s, t[0]);
      OrderIsTotal(s[0], t[0]);
      Rest(s);
      Rest(t);
      SortedIsUnique(s[1..], t[1..]);
      assert s == [s[0]] + s[1..] && t == [t[0]] + t[1..];
    } else {
      assert |multiset(t)| == 0;
    }
  }

  // ----- the canonical string -----

  /** "WBAGRP1" and a zero. */
  const MAGIC: Bytes := [0x57, 0x42, 0x41, 0x47, 0x52, 0x50, 0x31, 0]

  /** The encoded tuples of the group among the first n records. */
  function Group(m: Manifest, group: nat, n: nat): seq<Chunk>
    requires n <= |m.records|
  {
    if n == 0 then []
    else Group(m, group, n - 1) + if m.records[n - 1].group == group then [Encoded(TupleOf(m.records[n - 1]))] else []
  }

  function Join(s: seq<Chunk>): (b: Bytes)
    ensures |b| == 24 * |s|
  {
    if s == [] then [] else Join(s[..|s| - 1]) + s[|s| - 1]
  }

  /** The bytes that are hashed for a group. */
  function GroupBytes(m: Manifest, group: nat): Bytes { MAGIC + Join(Sort(Group(m, group, |m.records|))) }

  /** The selector tuples of a group. */
  function Tuples(m: Manifest, group: nat): set<Tuple> {
    set i | 0 <= i < |m.records| && m.records[i].group == group :: TupleOf(m.records[i])
  }

  lemma {:induction false} JoinIsInjective(s: seq<Chunk>, t: seq<Chunk>)
    requires Join(s) == Join(t)
    ensures s == t
    decreases |s|
  {
    assert 24 * |s| == 24 * |t|;
    if s != [] {
      var n := |s| - 1;
      var a, b := Join(s), Join(t);
      assert a[..24 * n] == Join(s[..n]) && a[24 * n..] == s[n];
      assert b[..24 * n] == Join(t[..n]) && b[24 * n..] == t[n];
      JoinIsInjective(s[..n], t[..n]);
      assert s == s[..n] + [s[n]] && t == t[..n] + [t[n]];
    }
  }

  /** How often the encoding of t occurs. */
  function Copies(s: seq<Chunk>, t: Tuple): nat { multiset(s)[Encoded(t)] }

  /** t is the tuple of a record of the group among the first n. */
  predicate Listed(m: Manifest, group: nat, n: nat, t: Tuple)
    requires n <= |m.records|
  {
    exists i :: 0 <= i < n && m.records[i].group == group && TupleOf(m.records[i]) == t
  }

  lemma OneMore(s: seq<Chunk>, u: Tuple, t: Tuple)
    ensures Copies(s + [Encoded(u)], t) == Copies(s, t) + if t == u then 1 else 0
  {
    EncodedIsInjective(t, u);
    hide Encoded;
  }

  /** Up to record n: the chunks of a group are the encodings of its tuples, each once. */
  lemma {:induction false} GroupHoldsTuples(m: Manifest, group: nat, n: nat)
    requires n <= |m.records| && forall i :: 0 <= i < |m.records| ==> RecordOk(m, i)
    ensures forall t :: Copies(Group(m, group, n), t) == if Listed(m, group, n, t) then 1 else 0
    ensures forall c :: c in Group(m, group, n) ==> exists t :: c == Encoded(t)
  {
    if n > 0 {
      GroupHoldsTuples(m, group, n - 1);
      var r, g := m.records[n - 1], Group(m, group, n - 1);
      assert RecordOk(m, n - 1);
      assert !Listed(m, group, n - 1, TupleOf(r));
      forall t ensures Copies(Group(m, group, n), t) == if Listed(m, group, n, t) then 1 else 0 {
        OneMore(g, TupleOf(r), t);
        assert Listed(m, group, n, t) <==> Listed(m, group, n - 1, t) || (r.group == group && TupleOf(r) == t);
        hide Copies, Encoded, Listed;
      }
      hide Copies, Listed;
    }
  }

  lemma TuplesAreCounted(m: Manifest, group: nat, t: Tuple)
    requires Valid(m)
    ensures Copies(Group(m, group, |m.records|), t) == if t in Tuples(m, group) then 1 else 0
  {
    GroupHoldsTuples(m, group, |m.records|);
    hide Encoded, Group, Copies;
  }

  /** Two groups of valid manifests are hashed as the same bytes exactly when they hold the
      same selector tuples, whatever their order, index or group number. */
  lemma GroupBytesAreCanonical(m: Manifest, g: nat, n: Manifest, h: nat)
    requires Valid(m) && Valid(n)
    ensures GroupBytes(m, g) == GroupBytes(n, h) <==> Tuples(m, g) == Tuples(n, h)
  {
    var a, b := Group(m, g, |m.records|), Group(n, h, |n.records|);
    SortIsSorted(a);
    SortIsSorted(b);
    forall t
      ensures Copies(a, t) == if t in Tuples(m, g) then 1 else 0
      ensures Copies(b, t) == if t in Tuples(n, h) then 1 else 0
    {
      TuplesAreCounted(m, g, t);
      TuplesAreCounted(n, h, t);
    }
    if Tuples(m, g) == Tuples(n, h) {
      GroupHoldsTuples(m, g, |m.records|);
      GroupHoldsTuples(n, h, |n.records|);
      hide Encoded, Group, Sort, Tuples, Valid, Sorted;
      SameCounts(a, b);
      SortedIsUnique(Sort(a), Sort(b));
    } else if GroupBytes(m, g) == GroupBytes(n, h) {
      var x, y := GroupBytes(m, g), GroupBytes(n, h);
      assert x[8..] == Join(Sort(a)) && y[8..] == Join(Sort(b));
      JoinIsInjective(Sort(a), Sort(b));
      hide Encoded, Group, Sort, Valid, Sorted;
      assert forall t :: t in Tuples(m, g) <==> t in Tuples(n, h);
      assert false;
    }
  }

  lemma SameCounts(a: seq<Chunk>, b: seq<Chunk>)
    requires forall t :: Copies(a, t) == Copies(b, t)
    requires forall c :: c in a ==> exists t :: c == Encoded(t)
    requires forall c :: c in b ==> exists t :: c == Encoded(t)
    ensures multiset(a) == multiset(b)
  {
    hide Encoded;
    forall c: Chunk ensures multiset(a)[c] == multiset(b)[c] {
      if c in a || c in b {
        var t :| c == Encoded(t);
        assert Copies(a, t) == Copies(b, t);
      }
    }
  }

  // ----- as the program builds it -----

  method CollectGroup(m: Manifest, group: nat, records: array<Chunk>) returns (count: nat)
    requires |m.records| <= records.Length
    modifies records
    ensures count <= records.Length && records[..count] == Group(m, group, |m.records|)
  {
    count := 0;
    for i := 0 to |m.records|
      invariant count <= i && records[..count] == Group(m, group, i)
    {
      if m.records[i].group == group {
        records[count] := Encoded(TupleOf(m.records[i]));
        count := count + 1;
      }
    }
  }

  lemma {:induction false} InsertAt(s: seq<Chunk>, c: Chunk, k: nat)
    requires k <= |s| && (forall i :: 0 <= i < k ==> !NotAfter(c, s[i])) && (k < |s| ==> NotAfter(c, s[k]))
    ensures Insert(s, c) == s[..k] + [c] + s[k..]
  {
    if k > 0 {
      InsertAt(s[1..], c, k - 1);
      assert s == [s[0]] + s[1..];
    }
  }

  /** Move the chunk at n down to its place among those before it. */
  method InsertLast(records: array<Chunk>, n: nat)
    requires n < records.Length && Sorted(records[..n])
    modifies records
    ensures records[..n + 1] == Insert(old(records[..n]), old(records[n]))
    ensures forall i :: n < i < records.Length ==> records[i] == old(records[i])
  {
    var c, k := records[n], n;
    ghost var s := records[..n];
    while k > 0 && NotAfter(c, records[k - 1])
      invariant k <= n
      invariant forall i :: 0 <= i < k ==> records[i] == s[i]
      invariant forall i :: k < i <= n ==> records[i] == s[i - 1]
      invariant forall i :: n < i < records.Length ==> records[i] == old(records[i])
      invariant k < n ==> NotAfter(c, s[k])
    {
      records[k] := records[k - 1];
      k := k - 1;
    }
    records[k] := c;
    forall i | 0 <= i < k ensures !NotAfter(c, s[i]) {
      if NotAfter(c, s[i]) { OrderIsTotal(s[i], s[k - 1]); Below(c, s, i, k - 1); }
    }
    InsertAt(s, c, k);
    assert records[..n + 1] == s[..k] + [c] + s[k..];
  }

  lemma Below(c: Chunk, s: seq<Chunk>, i: nat, k: nat)
    requires Sorted(s) && i <= k < |s| && NotAfter(c, s[i])
    ensures NotAfter(c, s[k])
  {
    if i < k { OrderIsTransitive(c, s[i], s[k]); }
  }

  /** Sort the first count chunks in place. */
  method SortChunks(records: array<Chunk>, count: nat)
    requires count <= records.Length
    modifies records
    ensures records[..count] == Sort(old(records[..count]))
  {
    ghost var was := records[..count];
    for i := 0 to count
      invariant records[..i] == Sort(was[..i])
      invariant forall k :: i <= k < count ==> records[k] == was[k]
    {
      assert was[..i + 1][..i] == was[..i];
      SortIsSorted(was[..i]);
      InsertLast(records, i);
    }
    assert was[..count] == was;
  }

  /** The bytes to be hashed for a group, unless the manifest or the group is bad. */
  method GroupDigest(m: Manifest, group: nat) returns (ok: bool, bytes: Bytes)
    ensures ok <==> Valid(m) && group < m.groups
    ensures ok ==> bytes == GroupBytes(m, group)
  {
    if !Valid(m) || group >= m.groups { return false, []; }
    var records := new Chunk[32](i => seq(24, j => 0));
    var count := CollectGroup(m, group, records);
    SortChunks(records, count);
    bytes := MAGIC;
    for i := 0 to count
      invariant bytes == MAGIC + Join(records[..i])
    {
      assert records[..i + 1][..i] == records[..i];
      bytes := bytes + records[i];
    }
    ok := true;
  }
}
