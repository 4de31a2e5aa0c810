/** The lookup of a definition by its id in one of the client's maps, read from foreign
    memory that is not to be trusted. */
module DescriptorLookup {

  import opened RedBlackShape
  import opened Powers

  const NODES: nat := 64
  const MAX_ID: nat := 0xffff_ffff

  datatype Cell = Cell(color: nat, parent: nat, left: nat, right: nat, key: nat, value: nat)

  /** A manager with its sentinel, its root and, where it keeps one, its count of entries. */
  datatype Manager = Manager(address: nat, sentinel: nat, root: nat, counted: bool, count: nat)

  /** What a lookup has read. */
  datatype MapPath = MapPath(manager: Manager, addresses: seq<nat>, nodes: seq<Cell>)

  datatype Result = Found(value: nat) | Unsupported | Geometry | ReadFault

  type Memory = map<nat, Cell>

  datatype Tree = Null | Entry(address: nat, left: Tree, key: nat, value: nat, right: Tree)

  function Entries(t: Tree): map<nat, nat> {
    if t.Null? then map[] else Entries(t.left) + Entries(t.right) + map[t.key := t.value]
  }

  function Addresses(t: Tree): set<nat> { if t.Null? then {} else Addresses(t.left) + {t.address} + Addresses(t.right) }

  /** Keys strictly above low and at most high, in order, with no null value. */
  predicate Ordered(t: Tree, low: nat, high: nat) {
    t.Null? ||
    (low < t.key <= high && t.value != 0 && Ordered(t.left, low, t.key - 1) && Ordered(t.right, t.key, high))
  }

  predicate Apart(t: Tree) {
    t.Null? ||
    (Apart(t.left) && Apart(t.right) && t.address !in Addresses(t.left) && t.address !in Addresses(t.right))
  }

  predicate Holds(m: Memory, sentinel: nat, at: nat, t: Tree)
    decreases t
  {
    match t
    case Null => at == 0 || at == sentinel
    case Entry(a, l, k, v, r) =>
      && at == a && a != 0 && a != sentinel && a % 4 == 0 && a in m && m[a].key == k && m[a].value == v
      && Holds(m, sentinel, m[a].left, l) && Holds(m, sentinel, m[a].right, r)
  }

  /** The shape of a held tree, given which color is red. */
  function ShapeOf(m: Memory, red: nat, t: Tree): Shape {
    if t.Null? then Leaf
    else Node(t.address in m && m[t.address].color == red, ShapeOf(m, red, t.left), ShapeOf(m, red, t.right))
  }

  function Height(t: Tree): nat {
    if t.Null? then 0 else 1 + if Height(t.left) < Height(t.right) then Height(t.right) else Height(t.left)
  }

  /** A red-black search map of ids. */
  predicate WellFormed(m: Memory, red: nat, g: Manager, t: Tree) {
    && Holds(m, g.sentinel, g.root, t) && Ordered(t, 0, MAX_ID) && Apart(t)
    && RedBlack(ShapeOf(m, red, t)) && !Red(ShapeOf(m, red, t))
  }

  function Search(m: Memory, sentinel: nat, at: nat, id: nat, low: nat, high: nat, path: seq<nat>): Result
    decreases NODES - |path|
  {
    if at == 0 || at == sentinel then Unsupported
    else if |path| >= NODES || at % 4 != 0 || at in path then Geometry
    else if at !in m then ReadFault
    else
      var c := m[at];
      if c.key == 0 || c.key <= low || c.key > high then Geometry
      else if c.key == id then if c.value != 0 then Found(c.value) else Geometry
      else if id < c.key then Search(m, sentinel, c.left, id, low, c.key - 1, path + [at])
      else Search(m, sentinel, c.right, id, c.key, high, path + [at])
  }

  predicate Usable(g: Manager) { g.address != 0 && g.sentinel != 0 }

  predicate Miscounted(g: Manager) { g.counted && (g.count == 0 || g.count > 4096) }

  function Lookup(m: Memory, g: Manager, id: nat): Result {
    if id == 0 || !Usable(g) then ReadFault
    else if Miscounted(g) then Geometry
    else Search(m, g.sentinel, g.root, id, 0, MAX_ID, [])
  }

  lemma {:induction false} EntriesBetween(t: Tree, low: nat, high: nat, id: nat)
    requires Ordered(t, low, high) && id in Entries(t)
    ensures low < id <= high && Entries(t)[id] != 0
  {
    if id != t.key {
      if id in Entries(t.right) { EntriesBetween(t.right, t.key, high, id); } else { EntriesBetween(t.left, low, t.key - 1, id); }
    }
  }

  lemma EntryIsOnOneSide(t: Tree, low: nat, high: nat, id: nat)
    requires t.Entry? && Ordered(t, low, high) && id != t.key
    ensures id in Entries(t) <==> if id < t.key then id in Entries(t.left) else id in Entries(t.right)
    ensures id in Entries(t) ==> Entries(t)[id] == if id < t.key then Entries(t.left)[id] else Entries(t.right)[id]
  {
    if id in Entries(t.left) { EntriesBetween(t.left, low, t.key - 1, id); }
    if id in Entries(t.right) { EntriesBetween(t.right, t.key, high, id); }
  }

  lemma {:induction false} SearchAgrees(m: Memory, sentinel: nat, at: nat, id: nat, low: nat, high: nat, path: seq<nat>, t: Tree)
    requires Holds(m, sentinel, at, t) && Ordered(t, low, high) && Apart(t)
    requires (forall a :: a in path ==> a !in Addresses(t)) && |path| + Height(t) <= NODES
    ensures Search(m, sentinel, at, id, low, high, path) == if id in Entries(t) then Found(Entries(t)[id]) else Unsupported
    decreases t
  {
    match t
    case Null =>
    case Entry(a, l, k, v, r) =>
      if id != k {
        EntryIsOnOneSide(t, low, high, id);
        if id < k {
          SearchAgrees(m, sentinel, m[a].left, id, low, k - 1, path + [a], l);
        } else {
          SearchAgrees(m, sentinel, m[a].right, id, k, high, path + [a], r);
        }
      }
  }

  /** Distinct ids of thirty-two bits leave no room for more than 2^32 - 1 entries. */
  lemma {:induction false} ShapeFits(m: Memory, red: nat, t: Tree, low: nat, high: nat)
    requires Ordered(t, low, high) && low <= high
    ensures Size(ShapeOf(m, red, t)) <= high - low && RedBlackShape.Height(ShapeOf(m, red, t)) == Height(t)
  {
    if t.Entry? {
      ShapeFits(m, red, t.left, low, t.key - 1);
      ShapeFits(m, red, t.right, t.key, high);
    }
  }

  /** So no path of a well-formed map has more than sixty-four nodes. */
  lemma SixtyFourLevels(m: Memory, red: nat, g: Manager, t: Tree)
    requires WellFormed(m, red, g, t)
    ensures Height(t) <= NODES
  {
    ShapeFits(m, red, t, 0, MAX_ID);
    assert Pow2(32) == MAX_ID + 1 by {
      assert Pow2(8) == 256 && Pow2(16) == 256 * 256;
      assert Pow2(24) == 256 * 256 * 256;
    }
    Levels(ShapeOf(m, red, t), 32);
  }

  /** Over any well-formed map the lookup is the map: the limit of sixty-four nodes is never
      the cause of a refusal. */
  lemma LookupAgrees(m: Memory, red: nat, g: Manager, id: nat, t: Tree)
    requires Usable(g) && id != 0 && WellFormed(m, red, g, t)
    ensures Lookup(m, g, id) ==
            if Miscounted(g) then Geometry else if id in Entries(t) then Found(Entries(t)[id]) else Unsupported
  {
    SixtyFourLevels(m, red, g, t);
    SearchAgrees(m, g.sentinel, g.root, id, 0, MAX_ID, [], t);
  }

  /** The links followed in the search for id, from node to node. */
  predicate Chain(m: Memory, id: nat, nodes: seq<nat>) {
    forall i :: 0 <= i < |nodes| - 1 ==>
      nodes[i] in m && nodes[i + 1] == if id < m[nodes[i]].key then m[nodes[i]].left else m[nodes[i]].right
  }

  /** A chain of links from `from` ends in a readable entry for id with this value. */
  predicate EndsIn(m: Memory, from: nat, id: nat, value: nat, nodes: seq<nat>) {
    && nodes != [] && nodes[0] == from && Chain(m, id, nodes)
    && var a := nodes[|nodes| - 1];
       a in m && m[a].key == id && m[a].value == value
  }

  lemma {:induction false} SearchFollows(m: Memory, sentinel: nat, at: nat, id: nat, low: nat, high: nat, path: seq<nat>) returns (nodes: seq<nat>)
    requires Search(m, sentinel, at, id, low, high, path).Found?
    ensures EndsIn(m, at, id, Search(m, sentinel, at, id, low, high, path).value, nodes)
    ensures |path| + |nodes| <= NODES && Search(m, sentinel, at, id, low, high, path).value != 0
    decreases NODES - |path|
  {
    if m[at].key == id {
      nodes := [at];
    } else {
      var rest;
      if id < m[at].key {
        rest := SearchFollows(m, sentinel, m[at].left, id, low, m[at].key - 1, path + [at]);
      } else {
        rest := SearchFollows(m, sentinel, m[at].right, id, m[at].key, high, path + [at]);
      }
      nodes := [at] + rest;
      assert forall i :: 0 < i < |nodes| ==> nodes[i] == rest[i - 1];
    }
  }

  /** Whatever the memory, a value is found only at the end of some chain of links from the
      root, in an entry for exactly this id. */
  lemma FoundIsThere(m: Memory, g: Manager, id: nat)
    requires Lookup(m, g, id).Found?
    ensures exists nodes :: |nodes| <= NODES && EndsIn(m, g.root, id, Lookup(m, g, id).value, nodes)
    ensures Lookup(m, g, id).value != 0
  {
    var nodes := SearchFollows(m, g.sentinel, g.root, id, 0, MAX_ID, []);
    assert EndsIn(m, g.root, id, Lookup(m, g, id).value, nodes);
  }

  // ----- the second reading -----

  /** The nodes a search that finds its id has read. */
  function Visited(m: Memory, sentinel: nat, at: nat, id: nat, low: nat, high: nat, path: seq<nat>): (r: seq<nat>)
    requires Search(m, sentinel, at, id, low, high, path).Found?
    ensures path < r && forall i :: |path| <= i < |r| ==> r[i] in m
    decreases NODES - |path|
  {
    var c := m[at];
    if c.key == id then path + [at]
    else if id < c.key then Visited(m, sentinel, c.left, id, low, c.key - 1, path + [at])
    else Visited(m, sentinel, c.right, id, c.key, high, path + [at])
  }

  function Read(m: Memory, addresses: seq<nat>): seq<Cell>
    requires forall a :: a in addresses ==> a in m
  {
    seq(|addresses|, i requires 0 <= i < |addresses| => m[addresses[i]])
  }

  function PathOf(m: Memory, g: Manager, id: nat): MapPath
    requires Lookup(m, g, id).Found?
  {
    var addresses := Visited(m, g.sentinel, g.root, id, 0, MAX_ID, []);
    MapPath(g, addresses, Read(m, addresses))
  }

  predicate SameManager(g: Manager, h: Manager) {
    g.address == h.address && g.sentinel == h.sentinel && g.root == h.root && g.counted == h.counted && (g.counted ==> g.count == h.count)
  }

  /** Read again, the manager and every node of the path are what they were. */
  predicate Current(again: Memory, h: Manager, path: MapPath) {
    && SameManager(h, path.manager) && |path.nodes| == |path.addresses|
    && forall i :: 0 <= i < |path.addresses| ==> path.addresses[i] in again && again[path.addresses[i]] == path.nodes[i]
  }

  lemma {:induction false} SearchStands(m: Memory, again: Memory, sentinel: nat, at: nat, id: nat, low: nat, high: nat, path: seq<nat>)
    requires Search(m, sentinel, at, id, low, high, path).Found?
    requires forall a :: a in Visited(m, sentinel, at, id, low, high, path)[|path|..] ==> a in again && a in m && again[a] == m[a]
    ensures Search(again, sentinel, at, id, low, high, path) == Search(m, sentinel, at, id, low, high, path)
    decreases NODES - |path|
  {
    var c, r := m[at], Visited(m, sentinel, at, id, low, high, path);
    assert (path + [at])[|path|] == at;
    assert r[|path|] == at && r[|path|] in r[|path|..];
    assert r[|path|..] == [at] + r[|path| + 1..];
    if c.key == id {
    } else if id < c.key {
      assert r == Visited(m, sentinel, c.left, id, low, c.key - 1, path + [at]);
      SearchStands(m, again, sentinel, c.left, id, low, c.key - 1, path + [at]);
    } else {
      assert r == Visited(m, sentinel, c.right, id, c.key, high, path + [at]);
      SearchStands(m, again, sentinel, c.right, id, c.key, high, path + [at]);
    }
  }

  /** However memory moved in between, what passes the second reading is what a lookup would
      find in the later memory, and if that holds a well-formed map, what the map says. */
  lemma SecondReadingIsSound(m: Memory, g: Manager, again: Memory, h: Manager, id: nat)
    requires Lookup(m, g, id).Found? && Current(again, h, PathOf(m, g, id))
    ensures Lookup(again, h, id) == Lookup(m, g, id)
    ensures forall red, t :: WellFormed(again, red, h, t) ==> id in Entries(t) && Lookup(m, g, id) == Found(Entries(t)[id])
  {
    SearchStands(m, again, g.sentinel, g.root, id, 0, MAX_ID, []);
    forall red, t | WellFormed(again, red, h, t) ensures id in Entries(t) && Lookup(m, g, id) == Found(Entries(t)[id]) {
      LookupAgrees(again, red, h, id, t);
    }
  }

  // ----- as the program runs it -----

  method Find(m: Memory, g: Manager, id: nat) returns (r: Result, path: MapPath)
    ensures r == Lookup(m, g, id)
    ensures r.Found? ==> path == PathOf(m, g, id)
  {
    path := MapPath(g, [], []);
    if id == 0 || g.address == 0 || g.sentinel == 0 { return ReadFault, path; }
    if g.counted && (g.count == 0 || g.count > 4096) { return Geometry, path; }
    var addresses, nodes := new nat[NODES](i => 0), new Cell[NODES](i => Cell(0, 0, 0, 0, 0, 0));
    var used, node: nat, low: nat, high: nat := 0, g.root, 0, MAX_ID;
    ghost var whole := Search(m, g.sentinel, g.root, id, 0, MAX_ID, []);
    while node != 0 && node != g.sentinel
      invariant used <= NODES && whole == Search(m, g.sentinel, node, id, low, high, addresses[..used])
      invariant whole.Found? ==>
                  Visited(m, g.sentinel, g.root, id, 0, MAX_ID, []) == Visited(m, g.sentinel, node, id, low, high, addresses[..used])
      invariant forall i :: 0 <= i < used ==> addresses[i] in m && nodes[i] == m[addresses[i]]
      decreases NODES - used
    {
      if used == NODES || node % 4 != 0 { return Geometry, path; }
      for i := 0 to used
        invariant forall j :: 0 <= j < i ==> addresses[j] != node
      {
        if addresses[i] == node { return Geometry, path; }
      }
      if node !in m { return ReadFault, path; }
      var raw := m[node];
      ghost var before := addresses[..used];
      addresses[used], nodes[used] := node, raw;
      used := used + 1;
      assert addresses[..used] == before + [node];
      if raw.key == 0 || raw.key <= low || raw.key > high { return Geometry, path; }
      if raw.key == id {
        path := MapPath(g, addresses[..used], nodes[..used]);
        assert raw.value != 0 ==> nodes[..used] == Read(m, addresses[..used]);
        return if raw.value != 0 then Found(raw.value) else Geometry, path;
      }
      if id < raw.key { high, node := raw.key - 1, raw.left; } else { low, node := raw.key, raw.right; }
    }
    return Unsupported, path;
  }

  method MapCurrent(again: Memory, h: Manager, path: MapPath) returns (ok: bool)
    requires |path.nodes| == |path.addresses|
    ensures ok <==> Current(again, h, path)
  {
    if !SameManager(h, path.manager) { return false; }
    for i := 0 to |path.addresses|
      invariant forall j :: 0 <= j < i ==> path.addresses[j] in again && again[path.addresses[j]] == path.nodes[j]
    {
      var a := path.addresses[i];
      if a !in again || again[a] != path.nodes[i] { return false; }
    }
    return true;
  }
}
