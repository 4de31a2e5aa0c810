/** The census of an actor's two inventory trees: a bounded walk over foreign memory that
    succeeds only on what really are two finite search trees of qualified members. */
module InventoryCensus {
  import opened KeyTree
  import opened Wrappers

  const NODES: nat := 512
  const LEVELS: nat := 65

  /** The virtual tables of the item classes that may be censused; ITEM alone is an item proper. */
  const ITEM: nat := 0x1142748
  const QUALIFIED: set<nat> := {0x1142188, 0x1142468, 0x1142748, 0x1143278, 0x1144154}

  datatype Cell = Cell(parent: nat, left: nat, right: nat, key: Key, member: nat)

  /** A member object: its table, instance key and template key, and the further facts of an
      item if those can be read. */
  datatype Member = Member(table: nat, key: Key, template: Key, facts: Option<nat>)

  datatype Memory = Memory(cells: map<nat, Cell>, members: map<nat, Member>)

  datatype Entry = Entry(address: nat, cell: Cell, member: Member)

  /** The head of one tree, and the links it keeps to root, first and last node. */
  datatype Head = Head(typed: bool, head: nat, root: nat, first: nat, last: nat)

  predicate Pointer(a: nat) { 0x10000 <= a < 0x7fff0000 && a % 4 == 0 }

  /** The member a node leads to is qualified, is the one keyed, and, if it is an item of the
      wanted template, can be read. */
  predicate MemberOk(m: Memory, item: nat, key: Key, wanted: Key) {
    && Pointer(item) && item in m.members
    && var o := m.members[item];
       && o.table in QUALIFIED && o.key == key && o.template.low != 0 && o.template.high == 0
       && (o.table == ITEM && o.template == wanted ==> o.facts.Some?)
  }

  predicate ParentOk(c: Cell, parent: nat, head: nat) {
    if parent != 0 then c.parent == parent else c.parent == 0 || c.parent == head
  }

  predicate CellOk(m: Memory, wanted: Key, at: nat, parent: nat, head: nat) {
    && Pointer(at) && at != head && at in m.cells && ParentOk(m.cells[at], parent, head)
    && m.cells[at].key.low != 0 && m.cells[at].key.high != 0
    && MemberOk(m, m.cells[at].member, m.cells[at].key, wanted)
  }

  /** Memory holds tree t below at, with correct parent links and qualified members. */
  predicate Holds(m: Memory, wanted: Key, at: nat, parent: nat, head: nat, t: Tree)
    decreases t
  {
    match t
    case Leaf => at == 0
    case Node(a, l, k, r) =>
      && at == a && CellOk(m, wanted, at, parent, head) && m.cells[at].key == k
      && Holds(m, wanted, m.cells[at].left, at, head, l) && Holds(m, wanted, m.cells[at].right, at, head, r)
  }

  /** What the census records of a tree: every node once, before its subtrees. */
  function Listed(m: Memory, t: Tree): seq<Entry> {
    if t.Leaf? then []
    else (if t.address in m.cells && m.cells[t.address].member in m.members
          then [Entry(t.address, m.cells[t.address], m.members[m.cells[t.address].member])] else [])
         + Listed(m, t.left) + Listed(m, t.right)
  }

  function AddressesOf(s: seq<Entry>): set<nat> { set e | e in s :: e.address }
  function KeysOf(s: seq<Entry>): set<Key> { set e | e in s :: e.cell.key }

  function FirstOf(t: Tree, otherwise: nat): nat { if t.Node? then Leftmost(t).address else otherwise }
  function LastOf(t: Tree, otherwise: nat): nat { if t.Node? then Rightmost(t).address else otherwise }

  lemma {:induction false} ListedIsExact(m: Memory, wanted: Key, at: nat, parent: nat, head: nat, t: Tree)
    requires Holds(m, wanted, at, parent, head, t)
    ensures |Listed(m, t)| == Size(t) && AddressesOf(Listed(m, t)) == Addresses(t) && KeysOf(Listed(m, t)) == Keys(t)
    decreases t
  {
    if t.Node? {
      ListedIsExact(m, wanted, m.cells[at].left, at, head, t.left);
      ListedIsExact(m, wanted, m.cells[at].right, at, head, t.right);
      hide Holds;
      var e := Entry(at, m.cells[at], m.members[m.cells[at].member]);
      Joined([e] + Listed(m, t.left), Listed(m, t.right));
      Joined([e], Listed(m, t.left));
      assert AddressesOf([e]) == {at} && KeysOf([e]) == {t.key};
    }
  }

  lemma Joined(s: seq<Entry>, u: seq<Entry>)
    ensures AddressesOf(s + u) == AddressesOf(s) + AddressesOf(u) && KeysOf(s + u) == KeysOf(s) + KeysOf(u)
  {
    assert forall e :: e in s + u <==> e in s || e in u;
  }

  /** Memory determines the tree. */
  lemma {:induction false} HeldIsUnique(m: Memory, wanted: Key, at: nat, parent: nat, head: nat, t: Tree, u: Tree)
    requires Holds(m, wanted, at, parent, head, t) && Holds(m, wanted, at, parent, head, u)
    ensures t == u
    decreases t
  {
    if t.Node? && u.Node? {
      HeldIsUnique(m, wanted, m.cells[at].left, at, head, t.left, u.left);
      HeldIsUnique(m, wanted, m.cells[at].right, at, head, t.right, u.right);
    }
  }

  /** A tree that shares no address and no key with those given, and stays within the bounds
      on nodes, of which n are taken, and levels. */
  predicate Room(addresses: set<nat>, keys: set<Key>, n: nat, t: Tree, low: Option<Key>, high: Option<Key>, level: nat) {
    && Ordered(t, low, high) && Apart(t) && Addresses(t) !! addresses && Keys(t) !! keys
    && n + Size(t) <= NODES && level + Height(t) <= LEVELS
  }

  /** A tree the walk may add to a census of s. */
  predicate Fits(s: seq<Entry>, t: Tree, low: Option<Key>, high: Option<Key>, level: nat) {
    Room(AddressesOf(s), KeysOf(s), |s|, t, low, high, level)
  }

  predicate HeadOk(m: Memory, wanted: Key, h: Head, t: Tree) {
    && h.typed && Pointer(h.head) && Holds(m, wanted, h.root, 0, h.head, t)
    && h.first == FirstOf(t, h.head) && h.last == LastOf(t, h.head)
  }

  /** Both trees are what they should be, disjoint in nodes and keys, and each head's links
      are to its root, its first and its last node. */
  predicate Coherent(m: Memory, wanted: Key, hs: seq<Head>, t: Tree, u: Tree)
    requires |hs| == 2
  {
    && HeadOk(m, wanted, hs[0], t) && HeadOk(m, wanted, hs[1], u)
    && Fits([], t, None, None, 0) && Fits(Listed(m, t), u, None, None, 0)
  }

  /** A coherent census holds exactly the nodes of both trees, whose keys are all distinct. */
  lemma CoherentCensus(m: Memory, wanted: Key, hs: seq<Head>, t: Tree, u: Tree)
    requires |hs| == 2 && Coherent(m, wanted, hs, t, u)
    ensures var s := Listed(m, t) + Listed(m, u);
            && AddressesOf(s) == Addresses(t) + Addresses(u) && KeysOf(s) == Keys(t) + Keys(u)
            && |s| == Size(t) + Size(u) && Keys(t) !! Keys(u) && Addresses(t) !! Addresses(u)
  {
    ListedIsExact(m, wanted, hs[0].root, 0, hs[0].head, t);
    ListedIsExact(m, wanted, hs[1].root, 0, hs[1].head, u);
    Joined(Listed(m, t), Listed(m, u));
    hide Holds, Listed, AddressesOf, KeysOf, Ordered, Apart;
  }

  /** The first and last links of a head are its tree's least and greatest nodes, or the head. */
  lemma LinksAreExtremes(m: Memory, wanted: Key, h: Head, t: Tree, s: seq<Entry>)
    requires HeadOk(m, wanted, h, t) && Fits(s, t, None, None, 0)
    ensures t.Leaf? ==> h.first == h.last == h.head && h.root == 0
    ensures t.Node? ==> && h.first == Leftmost(t).address && IsLeast(Leftmost(t).key, t)
                        && h.last == Rightmost(t).address && IsGreatest(Rightmost(t).key, t)
  {
    if t.Node? {
      LeftmostIsLeast(t, None, None);
      RightmostIsGreatest(t, None, None);
    }
  }

  // ----- room, piece by piece -----

  lemma ApartRoot(t: Tree)
    requires t.Node? && Apart(t)
    ensures Apart(t.left) && Apart(t.right) && t.address !in Addresses(t.left) && t.address !in Addresses(t.right)
    ensures Addresses(t.left) !! Addresses(t.right)
  {
  }

  /** The keys of the left are apart from the root's and from those of the right. */
  lemma KeysApart(t: Tree, low: Option<Key>, high: Option<Key>)
    requires t.Node? && Ordered(t, low, high)
    ensures Ordered(t.left, low, Some(t.key)) && Ordered(t.right, Some(t.key), high)
    ensures t.key !in Keys(t.left) && t.key !in Keys(t.right) && Keys(t.left) !! Keys(t.right)
  {
    forall k | k in Keys(t.left) ensures Less(k, t.key) { KeysBetween(t.left, low, Some(t.key), k); }
    forall k | k in Keys(t.right) ensures Less(t.key, k) { KeysBetween(t.right, Some(t.key), high, k); }
  }

  lemma RoomParts(t: Tree)
    requires t.Node?
    ensures Addresses(t) == Addresses(t.left) + {t.address} + Addresses(t.right) && Keys(t) == Keys(t.left) + {t.key} + Keys(t.right)
    ensures Size(t) == Size(t.left) + 1 + Size(t.right)
    ensures Height(t) > Height(t.left) && Height(t) > Height(t.right) && (Height(t) == Height(t.left) + 1 || Height(t) == Height(t.right) + 1)
  {
  }

  lemma RoomBelow(addresses: set<nat>, keys: set<Key>, n: nat, t: Tree, low: Option<Key>, high: Option<Key>, level: nat)
    requires t.Node? && Room(addresses, keys, n, t, low, high, level)
    ensures Room(addresses + {t.address}, keys + {t.key}, n + 1, t.left, low, Some(t.key), level + 1)
    ensures Room(addresses + {t.address} + Addresses(t.left), keys + {t.key} + Keys(t.left), n + 1 + Size(t.left), t.right, Some(t.key), high, level + 1)
  {
    RoomParts(t);
    ApartRoot(t);
    KeysApart(t, low, high);
    hide Ordered, Apart, Addresses, Keys, Size, Height;
  }

  lemma RoomAbove(addresses: set<nat>, keys: set<Key>, n: nat, t: Tree, low: Option<Key>, high: Option<Key>, level: nat)
    requires t.Node? && t.address !in addresses && t.key !in keys && Above(low, t.key) && Below(t.key, high)
    requires Room(addresses + {t.address}, keys + {t.key}, n + 1, t.left, low, Some(t.key), level + 1)
    requires Room(addresses + {t.address} + Addresses(t.left), keys + {t.key} + Keys(t.left), n + 1 + Size(t.left), t.right, Some(t.key), high, level + 1)
    ensures Room(addresses, keys, n, t, low, high, level)
  {
    RoomParts(t);
    assert Ordered(t, low, high);
    assert Apart(t);
    hide Ordered, Apart, Addresses, Keys, Size, Height;
  }

  /** The census once a root and its left subtree are in it. */
  lemma CensusSets(m: Memory, wanted: Key, head: nat, s: seq<Entry>, e: Entry, left: Tree)
    requires Holds(m, wanted, e.cell.left, e.address, head, left)
    ensures AddressesOf(s + [e]) == AddressesOf(s) + {e.address} && KeysOf(s + [e]) == KeysOf(s) + {e.cell.key}
    ensures AddressesOf(s + [e] + Listed(m, left)) == AddressesOf(s) + {e.address} + Addresses(left)
    ensures KeysOf(s + [e] + Listed(m, left)) == KeysOf(s) + {e.cell.key} + Keys(left)
    ensures |s + [e] + Listed(m, left)| == |s| + 1 + Size(left)
  {
    ListedIsExact(m, wanted, e.cell.left, e.address, head, left);
    Joined(s, [e]);
    Joined(s + [e], Listed(m, left));
    assert AddressesOf([e]) == {e.address} && KeysOf([e]) == {e.cell.key};
  }

  /** What a fitting tree asks of its left and its right. */
  lemma FitsBelow(m: Memory, wanted: Key, head: nat, s: seq<Entry>, e: Entry, t: Tree, low: Option<Key>, high: Option<Key>, level: nat)
    requires t.Node? && t.address == e.address && t.key == e.cell.key && Holds(m, wanted, e.cell.left, e.address, head, t.left)
    requires Fits(s, t, low, high, level)
    ensures Fits(s + [e], t.left, low, Some(e.cell.key), level + 1)
    ensures Fits(s + [e] + Listed(m, t.left), t.right, Some(e.cell.key), high, level + 1)
  {
    hide Room, AddressesOf, KeysOf, Listed, Holds, Addresses, Keys, Size, Height;
    RoomBelow(AddressesOf(s), KeysOf(s), |s|, t, low, high, level);
    CensusSets(m, wanted, head, s, e, t.left);
  }

  lemma HoldsBelow(m: Memory, wanted: Key, at: nat, parent: nat, head: nat, t: Tree)
    requires Holds(m, wanted, at, parent, head, t) && at != 0
    ensures t.Node? && t.address == at && at in m.cells && t.key == m.cells[at].key
    ensures Holds(m, wanted, m.cells[at].left, at, head, t.left) && Holds(m, wanted, m.cells[at].right, at, head, t.right)
  {
    hide MemberOk;
  }

  /** A root over two trees that fit one after the other fits. */
  lemma FitsTogether(m: Memory, wanted: Key, head: nat, s: seq<Entry>, e: Entry, left: Tree, right: Tree, low: Option<Key>, high: Option<Key>, level: nat)
    requires e.address !in AddressesOf(s) && e.cell.key !in KeysOf(s) && Above(low, e.cell.key) && Below(e.cell.key, high)
    requires Holds(m, wanted, e.cell.left, e.address, head, left)
    requires Fits(s + [e], left, low, Some(e.cell.key), level + 1)
    requires Fits(s + [e] + Listed(m, left), right, Some(e.cell.key), high, level + 1)
    ensures Fits(s, Node(e.address, left, e.cell.key, right), low, high, level)
  {
    hide Room, AddressesOf, KeysOf, Listed, Holds, Addresses, Keys, Size, Height;
    CensusSets(m, wanted, head, s, e, left);
    RoomAbove(AddressesOf(s), KeysOf(s), |s|, Node(e.address, left, e.cell.key, right), low, high, level);
  }

  lemma HoldsNode(m: Memory, wanted: Key, at: nat, parent: nat, head: nat, l: Tree, r: Tree)
    requires CellOk(m, wanted, at, parent, head)
    requires Holds(m, wanted, m.cells[at].left, at, head, l) && Holds(m, wanted, m.cells[at].right, at, head, r)
    ensures Holds(m, wanted, at, parent, head, Node(at, l, m.cells[at].key, r))
  {
    hide MemberOk, ParentOk;
  }

  /** Where the ends of a node's tree are, given those of its subtrees. */
  lemma EndsOfNode(m: Memory, wanted: Key, head: nat, at: nat, left: nat, k: Key, l: Tree, r: Tree)
    requires Holds(m, wanted, left, at, head, l)
    ensures var t := Node(at, l, k, r);
            && (l.Node? ==> FirstOf(l, 0) != 0) && FirstOf(t, 0) == (if l.Node? then FirstOf(l, 0) else at)
            && forall otherwise :: LastOf(t, otherwise) == LastOf(r, at)
  {
    NodesAreNotNull(m, wanted, left, at, head, l);
  }

  lemma {:induction false} NodesAreNotNull(m: Memory, wanted: Key, at: nat, parent: nat, head: nat, t: Tree)
    requires Holds(m, wanted, at, parent, head, t)
    ensures t.Node? ==> Leftmost(t).address != 0 && Rightmost(t).address != 0
    decreases t
  {
    if t.Node? {
      NodesAreNotNull(m, wanted, m.cells[at].left, at, head, t.left);
      NodesAreNotNull(m, wanted, m.cells[at].right, at, head, t.right);
    }
  }

  // ----- the walk -----

  class Census {
    const nodes: array<Entry>
    var count: nat

    ghost predicate Valid()
      reads this
    {
      nodes.Length == NODES && count <= NODES
    }

    ghost function View(): seq<Entry>
      requires Valid()
      reads this, nodes
    {
      nodes[..count]
    }

    constructor ()
      ensures Valid() && fresh(nodes) && View() == []
    {
      nodes := new Entry[NODES](i => Entry(0, Cell(0, 0, 0, Key(0, 0), 0), Member(0, Key(0, 0), Key(0, 0), None)));
      count := 0;
    }

    /** Whether address or key has been recorded before. */
    method Seen(address: nat, key: Key) returns (a: bool, k: bool)
      requires Valid()
      ensures a == (address in AddressesOf(View())) && k == (key in KeysOf(View()))
    {
      a, k := false, false;
      for i := 0 to count
        invariant a <==> exists j :: 0 <= j < i && nodes[j].address == address
        invariant k <==> exists j :: 0 <= j < i && nodes[j].cell.key == key
      {
        if nodes[i].address == address { a := true; }
        if nodes[i].cell.key == key { k := true; }
      }
      assert forall e :: e in View() ==> exists j :: 0 <= j < count && nodes[j] == e;
      assert forall j :: 0 <= j < count ==> nodes[j] in View();
    }

    method Record(e: Entry)
      requires Valid() && count < NODES
      modifies this, nodes
      ensures Valid() && View() == old(View()) + [e]
    {
      nodes[count] := e;
      count := count + 1;
    }

    /** One node's own checks, before its subtrees. */
    method Enter(m: Memory, wanted: Key, at: nat, parent: nat, head: nat, low: Option<Key>, high: Option<Key>, level: nat) returns (ok: bool)
      requires Valid() && at != 0
      modifies this, nodes
      ensures Valid()
      ensures ok <==> && CellOk(m, wanted, at, parent, head) && level < LEVELS && |old(View())| < NODES
                      && at !in AddressesOf(old(View())) && m.cells[at].key !in KeysOf(old(View()))
                      && Above(low, m.cells[at].key) && Below(m.cells[at].key, high)
      ensures ok ==> m.cells[at].member in m.members && View() == old(View()) + [Entry(at, m.cells[at], m.members[m.cells[at].member])]
    {
      hide AddressesOf, KeysOf;
      if !Pointer(at) || at == head || level > 64 || count == NODES || at !in m.cells { return false; }
      var c := m.cells[at];
      var known, repeated := Seen(at, c.key);
      if known || repeated { return false; }
      if (if parent != 0 then c.parent != parent else c.parent != 0 && c.parent != head) { return false; }
      if c.key.low == 0 || c.key.high == 0 || (low.Some? && !Less(low.value, c.key)) || (high.Some? && !Less(c.key, high.value)) { return false; }
      if !MemberOk(m, c.member, c.key, wanted) { return false; }
      Record(Entry(at, c, m.members[c.member]));
      ok := true;
    }

    /** Record the tree below at, and track its first and last nodes.  It succeeds exactly on a
        tree that fits. */
    method Walk(m: Memory, wanted: Key, at: nat, parent: nat, head: nat, low: Option<Key>, high: Option<Key>, level: nat, first0: nat, last0: nat)
      returns (ok: bool, first: nat, last: nat, ghost t: Tree)
      requires Valid() && level <= LEVELS
      modifies this, nodes
      ensures Valid()
      ensures ok ==> && Holds(m, wanted, at, parent, head, t) && Fits(old(View()), t, low, high, level)
                     && View() == old(View()) + Listed(m, t)
                     && first == (if first0 != 0 then first0 else FirstOf(t, 0)) && last == LastOf(t, last0)
      ensures forall u :: Holds(m, wanted, at, parent, head, u) && Fits(old(View()), u, low, high, level) ==> ok
      decreases LEVELS - level
    {
      first, last, t := first0, last0, Leaf;
      ghost var s := View();
      hide AddressesOf, KeysOf, Fits, Listed, CellOk, Holds, FirstOf, LastOf;
      if at == 0 {
        EmptyFits(m, wanted, s, parent, head, low, high, level, last0);
        ok := true;
        return;
      }
      ok := Enter(m, wanted, at, parent, head, low, high, level);
      RootNeeded(m, wanted, at, parent, head, s, low, high, level, ok);
      if !ok { return; }
      var c := m.cells[at];
      ghost var e := Entry(at, c, m.members[c.member]);
      ghost var l, r;
      ok, first, last, l := Walk(m, wanted, c.left, at, head, low, Some(c.key), level + 1, first, last);
      LeftNeeded(m, wanted, parent, head, s, e, low, high, level, ok);
      if !ok { return; }
      if first == 0 { first := at; }
      last := at;
      ok, first, last, r := Walk(m, wanted, c.right, at, head, Some(c.key), high, level + 1, first, last);
      RightNeeded(m, wanted, parent, head, s, e, l, low, high, level, ok);
      if !ok { return; }
      t := Node(at, l, c.key, r);
      FitsTogether(m, wanted, head, s, e, l, r, low, high, level);
      HoldsNode(m, wanted, at, parent, head, l, r);
      ListedNode(m, s, e, l, r);
      EndsOfNode(m, wanted, head, at, c.left, c.key, l, r);
      NoEnd(l);
    }
  }

  lemma NoEnd(l: Tree)
    ensures l.Leaf? ==> FirstOf(l, 0) == 0
  {
  }

  lemma EmptyFits(m: Memory, wanted: Key, s: seq<Entry>, parent: nat, head: nat, low: Option<Key>, high: Option<Key>, level: nat, last: nat)
    requires |s| <= NODES && level <= LEVELS
    ensures Fits(s, Leaf, low, high, level) && Listed(m, Leaf) == [] && Holds(m, wanted, 0, parent, head, Leaf)
    ensures FirstOf(Leaf, 0) == 0 && LastOf(Leaf, last) == last
  {
  }

  lemma ListedNode(m: Memory, s: seq<Entry>, e: Entry, l: Tree, r: Tree)
    requires e.address in m.cells && m.cells[e.address] == e.cell && e.cell.member in m.members && m.members[e.cell.member] == e.member
    ensures s + [e] + Listed(m, l) + Listed(m, r) == s + Listed(m, Node(e.address, l, e.cell.key, r))
  {
  }

  lemma FitsRoot(m: Memory, wanted: Key, at: nat, parent: nat, head: nat, s: seq<Entry>, t: Tree, low: Option<Key>, high: Option<Key>, level: nat)
    requires at != 0 && Holds(m, wanted, at, parent, head, t) && Fits(s, t, low, high, level)
    ensures CellOk(m, wanted, at, parent, head) && at !in AddressesOf(s) && m.cells[at].key !in KeysOf(s)
    ensures Above(low, m.cells[at].key) && Below(m.cells[at].key, high) && |s| < NODES && level < LEVELS
  {
    hide AddressesOf, KeysOf, CellOk, Apart;
  }

  /** Nothing fits where the root's checks fail. */
  lemma RootNeeded(m: Memory, wanted: Key, at: nat, parent: nat, head: nat, s: seq<Entry>, low: Option<Key>, high: Option<Key>, level: nat, ok: bool)
    requires at != 0
    requires ok <==> && CellOk(m, wanted, at, parent, head) && level < LEVELS && |s| < NODES
                     && at !in AddressesOf(s) && m.cells[at].key !in KeysOf(s) && Above(low, m.cells[at].key) && Below(m.cells[at].key, high)
    ensures forall u :: Holds(m, wanted, at, parent, head, u) && Fits(s, u, low, high, level) ==> ok
  {
    hide AddressesOf, KeysOf, CellOk, Fits, Holds;
    forall u | Holds(m, wanted, at, parent, head, u) && Fits(s, u, low, high, level) ensures ok {
      FitsRoot(m, wanted, at, parent, head, s, u, low, high, level);
    }
  }

  lemma LeftNeeded(m: Memory, wanted: Key, parent: nat, head: nat, s: seq<Entry>, e: Entry, low: Option<Key>, high: Option<Key>, level: nat, ok: bool)
    requires e.address != 0 && e.address in m.cells && e.cell == m.cells[e.address]
    requires forall u :: Holds(m, wanted, e.cell.left, e.address, head, u) && Fits(s + [e], u, low, Some(e.cell.key), level + 1) ==> ok
    ensures forall u :: Holds(m, wanted, e.address, parent, head, u) && Fits(s, u, low, high, level) ==> ok
  {
    hide Fits, Holds, Listed;
    forall u | Holds(m, wanted, e.address, parent, head, u) && Fits(s, u, low, high, level) ensures ok {
      HoldsBelow(m, wanted, e.address, parent, head, u);
      FitsBelow(m, wanted, head, s, e, u, low, high, level);
    }
  }

  lemma RightNeeded(m: Memory, wanted: Key, parent: nat, head: nat, s: seq<Entry>, e: Entry, l: Tree, low: Option<Key>, high: Option<Key>, level: nat, ok: bool)
    requires e.address != 0 && e.address in m.cells && e.cell == m.cells[e.address] && Holds(m, wanted, e.cell.left, e.address, head, l)
    requires forall u :: Holds(m, wanted, e.cell.right, e.address, head, u) && Fits(s + [e] + Listed(m, l), u, Some(e.cell.key), high, level + 1) ==> ok
    ensures forall u :: Holds(m, wanted, e.address, parent, head, u) && Fits(s, u, low, high, level) ==> ok
  {
    hide Fits, Holds, Listed;
    forall u | Holds(m, wanted, e.address, parent, head, u) && Fits(s, u, low, high, level) ensures ok {
      HoldsBelow(m, wanted, e.address, parent, head, u);
      FitsBelow(m, wanted, head, s, e, u, low, high, level);
      HeldIsUnique(m, wanted, e.cell.left, e.address, head, l, u.left);
    }
  }

  // ----- both trees -----

  /** Census both trees.  It succeeds exactly when memory holds two coherent trees, and then
      it has recorded exactly their nodes. */
  method Capture(m: Memory, wanted: Key, hs: seq<Head>) returns (ok: bool, census: Census, ghost t: Tree, ghost u: Tree)
    requires |hs| == 2
    ensures census.Valid()
    ensures ok ==> Coherent(m, wanted, hs, t, u) && census.View() == Listed(m, t) + Listed(m, u)
    ensures (exists x, y :: Coherent(m, wanted, hs, x, y)) ==> ok
  {
    census := new Census();
    t, u := Leaf, Leaf;
    hide Fits, Listed, Holds;
    ok, t := CaptureTree(m, wanted, hs[0], census);
    if !ok { return; }
    ok, u := CaptureTree(m, wanted, hs[1], census);
    assert [] + Listed(m, t) == Listed(m, t);
    forall x, y | Coherent(m, wanted, hs, x, y) ensures ok {
      HeldIsUnique(m, wanted, hs[0].root, 0, hs[0].head, t, x);
    }
  }

  method CaptureTree(m: Memory, wanted: Key, h: Head, census: Census) returns (ok: bool, ghost t: Tree)
    requires census.Valid()
    modifies census, census.nodes
    ensures census.Valid()
    ensures ok ==> HeadOk(m, wanted, h, t) && Fits(old(census.View()), t, None, None, 0) && census.View() == old(census.View()) + Listed(m, t)
    ensures forall u :: HeadOk(m, wanted, h, u) && Fits(old(census.View()), u, None, None, 0) ==> ok
  {
    t := Leaf;
    if !h.typed || !Pointer(h.head) { return false, Leaf; }
    hide Fits, Listed;
    var first, last;
    ok, first, last, t := census.Walk(m, wanted, h.root, 0, h.head, None, None, 0, 0, 0);
    if !ok { return; }
    NodesAreNotNull(m, wanted, h.root, 0, h.head, t);
    ok := h.first == (if first != 0 then first else h.head) && h.last == (if last != 0 then last else h.head);
    forall u | HeadOk(m, wanted, h, u) ensures u == t { HeldIsUnique(m, wanted, h.root, 0, h.head, t, u); }
  }
}
