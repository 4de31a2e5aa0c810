/** Binary search trees in foreign memory, as mathematical trees of addresses and keys.
    Native keys are two words, ordered by the second and then by the first. */
module KeyTree {
  import opened Wrappers

  datatype Key = Key(low: nat, high: nat)

  predicate Less(a: Key, b: Key) { a.high < b.high || (a.high == b.high && a.low < b.low) }

  predicate Above(low: Option<Key>, k: Key) { low.Some? ==> Less(low.value, k) }

  predicate Below(k: Key, high: Option<Key>) { high.Some? ==> Less(k, high.value) }

  datatype Tree = Leaf | Node(address: nat, left: Tree, key: Key, right: Tree)

  function Keys(t: Tree): set<Key> { if t.Leaf? then {} else Keys(t.left) + {t.key} + Keys(t.right) }

  function Addresses(t: Tree): set<nat> { if t.Leaf? then {} else Addresses(t.left) + {t.address} + Addresses(t.right) }

  function Size(t: Tree): nat { if t.Leaf? then 0 else Size(t.left) + 1 + Size(t.right) }

  function Max(a: nat, b: nat): nat { if a < b then b else a }

  function Height(t: Tree): nat { if t.Leaf? then 0 else 1 + Max(Height(t.left), Height(t.right)) }

  /** A search tree, all of whose keys lie strictly between the bounds. */
  predicate Ordered(t: Tree, low: Option<Key>, high: Option<Key>) {
    t.Leaf? ||
    (Above(low, t.key) && Below(t.key, high) && Ordered(t.left, low, Some(t.key)) && Ordered(t.right, Some(t.key), high))
  }

  /** No address occurs twice. */
  predicate Apart(t: Tree) {
    t.Leaf? ||
    (Apart(t.left) && Apart(t.right) && t.address !in Addresses(t.left) && t.address !in Addresses(t.right)
     && Addresses(t.left) !! Addresses(t.right))
  }

  lemma {:induction false} KeysBetween(t: Tree, low: Option<Key>, high: Option<Key>, k: Key)
    requires Ordered(t, low, high) && k in Keys(t)
    ensures Above(low, k) && Below(k, high)
  {
    if k in Keys(t.left) {
      KeysBetween(t.left, low, Some(t.key), k);
    } else if k in Keys(t.right) {
      KeysBetween(t.right, Some(t.key), high, k);
    }
  }

  /** Where a key must be, if anywhere. */
  lemma KeyIsOnOneSide(t: Tree, low: Option<Key>, high: Option<Key>, k: Key)
    requires t.Node? && Ordered(t, low, high)
    ensures k in Keys(t) <==> k == t.key || (if Less(k, t.key) then k in Keys(t.left) else k in Keys(t.right))
  {
    if k in Keys(t.left) { KeysBetween(t.left, low, Some(t.key), k); }
    if k in Keys(t.right) { KeysBetween(t.right, Some(t.key), high, k); }
  }

  /** The node with the least key, and the one with the greatest. */
  function Leftmost(t: Tree): (m: Tree)
    requires t.Node?
    ensures m.Node? && m.key in Keys(t) && m.address in Addresses(t)
  {
    if t.left.Leaf? then t else Leftmost(t.left)
  }

  function Rightmost(t: Tree): (m: Tree)
    requires t.Node?
    ensures m.Node? && m.key in Keys(t) && m.address in Addresses(t)
  {
    if t.right.Leaf? then t else Rightmost(t.right)
  }

  predicate IsLeast(m: Key, t: Tree) { forall k :: k in Keys(t) ==> k == m || Less(m, k) }

  predicate IsGreatest(m: Key, t: Tree) { forall k :: k in Keys(t) ==> k == m || Less(k, m) }

  lemma {:induction false} LeftmostIsLeast(t: Tree, low: Option<Key>, high: Option<Key>)
    requires t.Node? && Ordered(t, low, high)
    ensures IsLeast(Leftmost(t).key, t)
  {
    var m := Leftmost(t);
    if t.left.Node? {
      LeftmostIsLeast(t.left, low, Some(t.key));
      KeysBetween(t.left, low, Some(t.key), m.key);
    }
    forall k | k in Keys(t) ensures k == m.key || Less(m.key, k) {
      if k in Keys(t.right) {
        KeysBetween(t.right, Some(t.key), high, k);
        assert Less(t.key, k);
      } else if k in Keys(t.left) {
        assert m == Leftmost(t.left);
      } else {
        assert k == t.key;
      }
    }
  }

  lemma {:induction false} RightmostIsGreatest(t: Tree, low: Option<Key>, high: Option<Key>)
    requires t.Node? && Ordered(t, low, high)
    ensures IsGreatest(Rightmost(t).key, t)
  {
    var m := Rightmost(t);
    if t.right.Node? {
      RightmostIsGreatest(t.right, Some(t.key), high);
      KeysBetween(t.right, Some(t.key), high, m.key);
    }
    forall k | k in Keys(t) ensures k == m.key || Less(k, m.key) {
      if k in Keys(t.left) {
        KeysBetween(t.left, low, Some(t.key), k);
        assert Less(k, t.key);
      } else if k in Keys(t.right) {
        assert m == Rightmost(t.right);
      } else {
        assert k == t.key;
      }
    }
  }
}
