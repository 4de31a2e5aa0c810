/** Whether an actor's key is in one of the client's two red-black maps of moving actors,
    found by walking only the search path, in memory that is not to be trusted. */
module MotionIdle {
  import opened KeyTree
  import opened RedBlackShape
  import opened Powers
  import opened Wrappers

  const NODES: nat := 64
  const ENTRIES: nat := 0x10_0000

  datatype Cell = Cell(color: nat, parent: nat, left: nat, right: nat, key: Key)

  datatype Header = Header(sentinel: nat, size: nat, root: nat)

  /** What can be read: node cells by address; anything else is unreadable. */
  type Memory = map<nat, Cell>

  predicate Address(a: nat) { 0x10000 <= a < 0x7fff0000 && a % 4 == 0 }

  /** The checks on one node of the path, reached at address at from parent. */
  predicate Passable(m: Memory, at: nat, parent: nat, id: Key, low: Option<Key>, high: Option<Key>, path: seq<nat>) {
    && Address(at) && |path| < NODES && at !in path && at in m
    && m[at].color <= 1 && m[at].parent == parent && m[at].key != id
    && Above(low, m[at].key) && Below(m[at].key, high)
  }

  /** The addresses on the search path for id, or nothing if some check on the way fails. */
  function Walk(m: Memory, at: nat, parent: nat, id: Key, low: Option<Key>, high: Option<Key>, path: seq<nat>): Option<seq<nat>>
    decreases NODES - |path|
  {
    if at == 0 then Some(path)
    else if !Passable(m, at, parent, id, low, high, path) then None
    else if Less(id, m[at].key) then Walk(m, m[at].left, at, id, low, Some(m[at].key), path + [at])
    else Walk(m, m[at].right, at, id, Some(m[at].key), high, path + [at])
  }

  /** The links that made the walk go where it went are still the same. */
  predicate Unmoved(m: Memory, again: Memory, id: Key, a: nat) {
    && a in m && a in again && again[a].parent == m[a].parent && again[a].key == m[a].key
    && (if Less(id, m[a].key) then again[a].left == m[a].left else again[a].right == m[a].right)
  }

  predicate HeaderOk(h: Header) { Address(h.sentinel) && h.size <= ENTRIES && (h.root != 0 <==> h.size != 0) }

  predicate HeaderStands(h: Header, again: Header) {
    again.sentinel == h.sentinel && again.size <= ENTRIES && again.root == h.root
  }

  /** The test of one map: a first pass over memory m, and a second over memory again. */
  predicate Accepts(m: Memory, h: Header, again: Memory, g: Header, id: Key) {
    && HeaderOk(h) && HeaderStands(h, g)
    && var w := Walk(m, h.root, h.sentinel, id, None, None, []);
       w.Some? && forall a :: a in w.value ==> Unmoved(m, again, id, a)
  }

  // ----- well-formed maps -----

  /** Memory holds exactly tree t below address at. */
  predicate Holds(m: Memory, at: nat, parent: nat, t: Tree)
    decreases t
  {
    match t
    case Leaf => at == 0
    case Node(a, l, k, r) =>
      && at == a && Address(a) && a in m && m[a].parent == parent && m[a].key == k && m[a].color <= 1
      && Holds(m, m[a].left, a, l) && Holds(m, m[a].right, a, r)
  }

  /** The shape of a held tree, given which of the two colors is red. */
  function ShapeOf(m: Memory, red: nat, t: Tree): Shape {
    if t.Leaf? then Shape.Leaf
    else Shape.Node(t.address in m && m[t.address].color == red, ShapeOf(m, red, t.left), ShapeOf(m, red, t.right))
  }

  /** A red-black search map of at most 2^20 entries. */
  predicate WellFormed(m: Memory, red: nat, h: Header, t: Tree) {
    && Address(h.sentinel) && h.size == KeyTree.Size(t) <= ENTRIES
    && Holds(m, h.root, h.sentinel, t) && Ordered(t, None, None) && Apart(t)
    && RedBlack(ShapeOf(m, red, t)) && !Red(ShapeOf(m, red, t))
  }

  lemma {:induction false} ShapeFits(m: Memory, red: nat, t: Tree)
    ensures RedBlackShape.Size(ShapeOf(m, red, t)) == KeyTree.Size(t) && RedBlackShape.Height(ShapeOf(m, red, t)) == KeyTree.Height(t)
  {
    if t.Node? {
      ShapeFits(m, red, t.left);
      ShapeFits(m, red, t.right);
    }
  }

  /** No path of a well-formed map of at most 2^20 entries has more than forty nodes. */
  lemma FortyLevels(m: Memory, red: nat, h: Header, t: Tree)
    requires WellFormed(m, red, h, t)
    ensures KeyTree.Height(t) <= 40
  {
    ShapeFits(m, red, t);
    assert Pow2(20) == ENTRIES by {
      assert Pow2(5) == 32 && Pow2(10) == 1024;
      assert Pow2(15) == 32 * 1024;
    }
    Levels(ShapeOf(m, red, t), 20);
  }

  // ----- the walk against the tree -----

  lemma {:induction false} HeldAddresses(m: Memory, at: nat, parent: nat, t: Tree)
    requires Holds(m, at, parent, t)
    ensures at != 0 <==> t.Node?
    ensures at != 0 ==> at in Addresses(t)
  {
  }

  /** Over a held search tree that fits, the walk succeeds exactly if the key is absent, and
      its path is no longer than the tree is high. */
  lemma {:induction false} WalkFindsAbsence(m: Memory, at: nat, parent: nat, id: Key, low: Option<Key>, high: Option<Key>, path: seq<nat>, t: Tree)
    requires Holds(m, at, parent, t) && Ordered(t, low, high) && Apart(t)
    requires (forall a :: a in path ==> a !in Addresses(t)) && |path| + KeyTree.Height(t) <= NODES
    ensures Walk(m, at, parent, id, low, high, path).Some? <==> id !in Keys(t)
    ensures Walk(m, at, parent, id, low, high, path).Some? ==> |Walk(m, at, parent, id, low, high, path).value| <= |path| + KeyTree.Height(t)
    ensures Walk(m, at, parent, id, low, high, path).Some? ==> forall a :: a in Walk(m, at, parent, id, low, high, path).value ==> a in path || a in m
    decreases t
  {
    match t
    case Leaf =>
    case Node(a, l, k, r) =>
      KeyIsOnOneSide(t, low, high, id);
      if id != k {
        if Less(id, k) {
          WalkFindsAbsence(m, m[a].left, a, id, low, Some(k), path + [a], l);
        } else {
          WalkFindsAbsence(m, m[a].right, a, id, Some(k), high, path + [a], r);
        }
      }
  }

  /** In stable memory holding a well-formed map, the test accepts exactly when the key is
      not in it: the limit of sixty-four nodes is never the cause of a refusal. */
  lemma AcceptsExactlyAbsence(m: Memory, red: nat, h: Header, t: Tree, id: Key)
    requires WellFormed(m, red, h, t)
    ensures Accepts(m, h, m, h, id) <==> id !in Keys(t)
    ensures Accepts(m, h, m, h, id) ==> |Walk(m, h.root, h.sentinel, id, None, None, []).value| <= 40
  {
    FortyLevels(m, red, h, t);
    HeldAddresses(m, h.root, h.sentinel, t);
    WalkFindsAbsence(m, h.root, h.sentinel, id, None, None, [], t);
  }

  /** Both maps together, each in memory that is stable while it is read. */
  lemma IdleExactlyWhenAbsent(m: Memory, h: Header, t: Tree, n: Memory, g: Header, u: Tree, red: nat, id: Key)
    requires WellFormed(m, red, h, t) && WellFormed(n, red, g, u)
    ensures Accepts(m, h, m, h, id) && Accepts(n, g, n, g, id) <==> id !in Keys(t) && id !in Keys(u)
  {
    AcceptsExactlyAbsence(m, red, h, t, id);
    AcceptsExactlyAbsence(n, red, g, u, id);
  }

  // ----- memory that moves -----

  /** The walk's first address below at, once it has been there. */
  lemma {:induction false} WalkExtends(m: Memory, at: nat, parent: nat, id: Key, low: Option<Key>, high: Option<Key>, path: seq<nat>)
    requires Walk(m, at, parent, id, low, high, path).Some?
    ensures path <= Walk(m, at, parent, id, low, high, path).value
    ensures at != 0 ==> at in Walk(m, at, parent, id, low, high, path).value
    decreases NODES - |path|
  {
    if at != 0 {
      if Less(id, m[at].key) {
        WalkExtends(m, m[at].left, at, id, low, Some(m[at].key), path + [at]);
      } else {
        WalkExtends(m, m[at].right, at, id, Some(m[at].key), high, path + [at]);
      }
      assert at in path + [at];
    }
  }

  /** However much memory moved between the passes, an accepted walk proves absence from
      whatever search tree the second memory holds at that root. */
  lemma {:induction false} AbsentAfterwards(m: Memory, again: Memory, at: nat, parent: nat, up: nat, id: Key, low: Option<Key>, high: Option<Key>,
                         path: seq<nat>, t: Tree, lo: Option<Key>, hi: Option<Key>)
    requires Holds(again, at, up, t) && Ordered(t, lo, hi)
    requires Walk(m, at, parent, id, low, high, path).Some?
    requires forall a :: a in Walk(m, at, parent, id, low, high, path).value ==> Unmoved(m, again, id, a)
    ensures id !in Keys(t)
    decreases t
  {
    match t
    case Leaf =>
    case Node(a, l, k, r) =>
      WalkExtends(m, at, parent, id, low, high, path);
      KeyIsOnOneSide(t, lo, hi, id);
      assert Unmoved(m, again, id, at);
      if Less(id, k) {
        AbsentAfterwards(m, again, m[at].left, at, a, id, low, Some(k), path + [at], l, lo, Some(k));
      } else {
        AbsentAfterwards(m, again, m[at].right, at, a, id, Some(k), high, path + [at], r, Some(k), hi);
      }
  }

  /** Activity in unrelated subtrees is not a veto, and never a false acceptance. */
  lemma AcceptanceIsSound(m: Memory, h: Header, again: Memory, g: Header, t: Tree, id: Key)
    requires Accepts(m, h, again, g, id) && Holds(again, g.root, g.sentinel, t) && Ordered(t, None, None)
    ensures id !in Keys(t)
  {
    AbsentAfterwards(m, again, h.root, h.sentinel, g.sentinel, id, None, None, [], t, None, None);
  }

  // ----- as the program runs it -----

  /** One map: walk down keeping bounds and the path, then read every node of it again. */
  method TestMap(m: Memory, h: Header, again: Memory, g: Header, id: Key) returns (ok: bool)
    ensures ok == Accepts(m, h, again, g, id)
  {
    if !Address(h.sentinel) || h.size > ENTRIES || (h.root != 0) != (h.size != 0) { return false; }
    var addresses, nodes := new nat[NODES](i => 0), new Cell[NODES](i => Cell(0, 0, 0, 0, Key(0, 0)));
    var count, at, parent := 0, h.root, h.sentinel;
    var low: Option<Key>, high: Option<Key> := None, None;
    ghost var whole := Walk(m, h.root, h.sentinel, id, None, None, []);
    while at != 0
      invariant count <= NODES && forall i :: 0 <= i < count ==> addresses[i] in m && nodes[i] == m[addresses[i]]
      invariant whole == Walk(m, at, parent, id, low, high, addresses[..count])
      decreases NODES - count
    {
      if !Address(at) || count == NODES { return false; }
      for i := 0 to count
        invariant forall j :: 0 <= j < i ==> addresses[j] != at
      {
        if addresses[i] == at { return false; }
      }
      if at !in m { return false; }
      var node := m[at];
      if node.color > 1 || node.parent != parent || node.key == id
         || (low.Some? && !Less(low.value, node.key)) || (high.Some? && !Less(node.key, high.value)) { return false; }
      ghost var path := addresses[..count];
      addresses[count], nodes[count] := at, node;
      count := count + 1;
      assert addresses[..count] == path + [at];
      parent := at;
      if Less(id, node.key) { high, at := Some(node.key), node.left; } else { low, at := Some(node.key), node.right; }
    }
    for i := 0 to count
      invariant forall j :: 0 <= j < i ==> Unmoved(m, again, id, addresses[j])
    {
      var a, before := addresses[i], nodes[i];
      assert a in addresses[..count];
      if a !in again { return false; }
      var current := again[a];
      if current.parent != before.parent || current.key != before.key
         || (if Less(id, before.key) then current.left != before.left else current.right != before.right) { return false; }
    }
    assert forall a :: a in addresses[..count] ==> Unmoved(m, again, id, a);
    return g.sentinel == h.sentinel && g.size <= ENTRIES && g.root == h.root;
  }

  /** What the two passes over one map find. */
  datatype Reading = Reading(first: Memory, header: Header, second: Memory, after: Header)

  /** Both maps, in the order the program reads them, each at two moments of its own. */
  method Idle(rs: seq<Reading>, id: Key) returns (ok: bool)
    requires |rs| == 2
    ensures ok <==> forall r :: r in rs ==> Accepts(r.first, r.header, r.second, r.after, id)
  {
    for i := 0 to 2
      invariant forall j :: 0 <= j < i ==> Accepts(rs[j].first, rs[j].header, rs[j].second, rs[j].after, id)
    {
      var accepted := TestMap(rs[i].first, rs[i].header, rs[i].second, rs[i].after, id);
      if !accepted { return false; }
    }
    return true;
  }
}
