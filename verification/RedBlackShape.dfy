/** The shape of a red-black tree, and how deep it can be. */
module RedBlackShape {
  import opened Powers

  datatype Shape = Leaf | Node(red: bool, left: Shape, right: Shape)

  function Size(s: Shape): nat { if s.Leaf? then 0 else Size(s.left) + 1 + Size(s.right) }

  function Height(s: Shape): nat {
    if s.Leaf? then 0 else 1 + if Height(s.left) < Height(s.right) then Height(s.right) else Height(s.left)
  }

  predicate Red(s: Shape) { s.Node? && s.red }

  function BlackHeight(s: Shape): nat {
    if s.Leaf? then 0 else BlackHeight(s.left) + if s.red then 0 else 1
  }

  /** Equal black heights, and no red child of a red node. */
  predicate RedBlack(s: Shape) {
    s.Leaf? ||
    (RedBlack(s.left) && RedBlack(s.right) && BlackHeight(s.left) == BlackHeight(s.right)
     && (s.red ==> !Red(s.left) && !Red(s.right)))
  }

  lemma {:induction false} Pow2Strict(a: nat, b: nat)
    requires Pow2(a) < 2 * Pow2(b)
    ensures a <= b
  {
    if a > b { Pow2Grows(b + 1, a); }
  }

  lemma {:induction false} SizeBound(s: Shape)
    requires RedBlack(s)
    ensures Size(s) + 1 >= Pow2(BlackHeight(s))
  {
    if s.Node? {
      SizeBound(s.left);
      SizeBound(s.right);
    }
  }

  lemma {:induction false} HeightBound(s: Shape)
    requires RedBlack(s)
    ensures Height(s) <= 2 * BlackHeight(s) + if Red(s) then 1 else 0
  {
    if s.Node? {
      HeightBound(s.left);
      HeightBound(s.right);
    }
  }

  /** With a black root and fewer than 2^(k+1) - 1 nodes there are at most 2k levels. */
  lemma Levels(s: Shape, k: nat)
    requires RedBlack(s) && !Red(s) && Size(s) + 1 < 2 * Pow2(k)
    ensures Height(s) <= 2 * k
  {
    SizeBound(s);
    HeightBound(s);
    Pow2Strict(BlackHeight(s), k);
  }
}
