/** The layout tree: rendering, leaves, pruning, and equality up to re-association of `;` and `,` chains. */
module Layout {
  import opened Text

  /** One pane. `mode` is the workspace mode the leaf carries; only `worktree` has a written form. */
  datatype LayoutLeaf = LayoutLeaf(name: string, provider: Option<string>, mode: Option<string>, percent: Option<U32>)

  /** `;` separates panes side by side, `,` stacks them. */
  datatype Kind = Horizontal | Vertical

  datatype LayoutNode = Leaf(leaf: LayoutLeaf) | Split(kind: Kind, left: LayoutNode, right: LayoutNode)
  {
    function LeafCount(): (n: nat)
      ensures n == |Leaves()| > 0
    {
      match this
      case Leaf(_) => 1
      case Split(_, l, r) => l.LeafCount() + r.LeafCount()
    }

    function Leaves(): seq<LayoutLeaf> {
      match this
      case Leaf(l) => [l]
      case Split(_, l, r) => l.Leaves() + r.Leaves()
    }

    function Names(): seq<string> {
      match this
      case Leaf(l) => [l.name]
      case Split(_, l, r) => l.Names() + r.Names()
    }
  }

  /** A pane with a name and nothing else. */
  function NamedLeaf(name: string): LayoutNode { Leaf(LayoutLeaf(name, None, None, None)) }

  lemma {:induction false} NamesOfLeaves(n: LayoutNode)
    ensures |n.Names()| == |n.Leaves()| > 0
    ensures forall i :: 0 <= i < |n.Leaves()| ==> n.Names()[i] == n.Leaves()[i].name
  {
    match n
    case Leaf(_) =>
    case Split(_, l, r) => NamesOfLeaves(l); NamesOfLeaves(r);
  }

  // ---- Rendering ----

  function RenderLeaf(l: LayoutLeaf): string {
    (match l.provider
     case Some(p) => if l.mode == Some("worktree") then l.name + ":" + p + "(worktree)" else l.name + ":" + p
     case None => l.name)
    + (match l.percent case Some(n) => "@" + ShowNat(n) case None => "")
  }

  function Precedence(k: Kind): nat { match k case Horizontal => 1 case Vertical => 2 }

  function Separator(k: Kind): char { match k case Horizontal => ';' case Vertical => ',' }

  function Render(n: LayoutNode): string
    decreases n, 0
  {
    match n
    case Leaf(l) => RenderLeaf(l)
    case Split(k, l, r) => RenderChild(l, k) + [Separator(k), ' '] + RenderChild(r, k)
  }

  function RenderChild(n: LayoutNode, parent: Kind): string
    decreases n, 1
  {
    if n.Leaf? then Render(n)
    else if Precedence(n.kind) < Precedence(parent) then "(" + Render(n) + ")"
    else if parent == Vertical && n.kind == Horizontal then "(" + Render(n) + ")"
    else Render(n)
  }

  // ---- Left re-association ----

  /** `a` followed by the chain `b`, associated to the left. */
  function Join(k: Kind, a: LayoutNode, b: LayoutNode): LayoutNode {
    if b.Split? && b.kind == k then Split(k, Join(k, a, b.left), b.right) else Split(k, a, b)
  }

  /** The tree with every chain of one separator associated to the left. */
  function Norm(n: LayoutNode): LayoutNode {
    match n
    case Leaf(_) => n
    case Split(k, l, r) => Join(k, Norm(l), Norm(r))
  }

  /** No right child continues its parent's chain. */
  predicate LeftAssociated(n: LayoutNode) {
    n.Split? ==> LeftAssociated(n.left) && LeftAssociated(n.right) && !(n.right.Split? && n.right.kind == n.kind)
  }

  lemma {:induction false} JoinLeftAssociated(k: Kind, a: LayoutNode, b: LayoutNode)
    requires LeftAssociated(a) && LeftAssociated(b)
    ensures LeftAssociated(Join(k, a, b))
  {
    if b.Split? && b.kind == k { JoinLeftAssociated(k, a, b.left); }
  }

  lemma {:induction false} NormLeftAssociated(n: LayoutNode)
    ensures LeftAssociated(Norm(n))
  {
    if n.Split? {
      NormLeftAssociated(n.left);
      NormLeftAssociated(n.right);
      JoinLeftAssociated(n.kind, Norm(n.left), Norm(n.right));
    }
  }

  /** `Norm` leaves exactly the left-associated trees alone, so it is idempotent. */
  lemma {:induction false} NormFixpoint(n: LayoutNode)
    ensures LeftAssociated(n) <==> Norm(n) == n
    ensures Norm(Norm(n)) == Norm(n)
  {
    NormLeftAssociated(n);
    LeftAssociatedIsFixed(Norm(n));
    if LeftAssociated(n) { LeftAssociatedIsFixed(n); }
  }

  lemma {:induction false} LeftAssociatedIsFixed(n: LayoutNode)
    requires LeftAssociated(n)
    ensures Norm(n) == n
  {
    if n.Split? {
      LeftAssociatedIsFixed(n.left);
      LeftAssociatedIsFixed(n.right);
    }
  }

  lemma {:induction false} JoinAssociative(k: Kind, a: LayoutNode, b: LayoutNode, c: LayoutNode)
    ensures Join(k, Join(k, a, b), c) == Join(k, a, Join(k, b, c))
  {
    if c.Split? && c.kind == k { JoinAssociative(k, a, b, c.left); }
  }

  lemma {:induction false} JoinLeaves(k: Kind, a: LayoutNode, b: LayoutNode)
    ensures Join(k, a, b).Leaves() == a.Leaves() + b.Leaves()
    ensures Join(k, a, b).Names() == a.Names() + b.Names()
  {
    if b.Split? && b.kind == k { JoinLeaves(k, a, b.left); }
  }

  lemma {:induction false} NormLeaves(n: LayoutNode)
    ensures Norm(n).Leaves() == n.Leaves()
    ensures Norm(n).Names() == n.Names()
  {
    if n.Split? {
      NormLeaves(n.left);
      NormLeaves(n.right);
      JoinLeaves(n.kind, Norm(n.left), Norm(n.right));
    }
  }

  // ---- The equivalence `Norm` decides ----

  /** A certificate that one tree can be rewritten into another by rotating chains. */
  datatype Rewrite =
    | Same
    | Rotate
    | Reverse(step: Rewrite)
    | Chain(first: Rewrite, mid: LayoutNode, second: Rewrite)
    | Under(onLeft: Rewrite, onRight: Rewrite)

  /** `w` rewrites `a` into `b`. `Rotate` is the associative law `x (y z) = (x y) z` of one separator. */
  ghost predicate Rewrites(w: Rewrite, a: LayoutNode, b: LayoutNode) {
    match w
    case Same => a == b
    case Rotate =>
      a.Split? && a.right.Split? && a.right.kind == a.kind &&
      b == Split(a.kind, Split(a.kind, a.left, a.right.left), a.right.right)
    case Reverse(v) => Rewrites(v, b, a)
    case Chain(v1, m, v2) => Rewrites(v1, a, m) && Rewrites(v2, m, b)
    case Under(v1, v2) =>
      a.Split? && b.Split? && a.kind == b.kind && Rewrites(v1, a.left, b.left) && Rewrites(v2, a.right, b.right)
  }

  /** Equal up to re-association. */
  ghost predicate Equivalent(a: LayoutNode, b: LayoutNode) { exists w :: Rewrites(w, a, b) }

  lemma {:induction false} RewritesKeepNorm(w: Rewrite, a: LayoutNode, b: LayoutNode)
    requires Rewrites(w, a, b)
    ensures Norm(a) == Norm(b)
  {
    match w
    case Same =>
    case Rotate => JoinAssociative(a.kind, Norm(a.left), Norm(a.right.left), Norm(a.right.right));
    case Reverse(v) => RewritesKeepNorm(v, b, a);
    case Chain(v1, m, v2) => RewritesKeepNorm(v1, a, m); RewritesKeepNorm(v2, m, b);
    case Under(v1, v2) => RewritesKeepNorm(v1, a.left, b.left); RewritesKeepNorm(v2, a.right, b.right);
  }

  lemma {:induction false} RewriteToJoin(k: Kind, a: LayoutNode, b: LayoutNode) returns (w: Rewrite)
    ensures Rewrites(w, Split(k, a, b), Join(k, a, b))
  {
    if b.Split? && b.kind == k {
      var v := RewriteToJoin(k, a, b.left);
      w := Chain(Rotate, Split(k, Split(k, a, b.left), b.right), Under(v, Same));
    } else {
      w := Same;
    }
  }

  lemma {:induction false} RewriteToNorm(n: LayoutNode) returns (w: Rewrite)
    ensures Rewrites(w, n, Norm(n))
  {
    match n
    case Leaf(_) => w := Same;
    case Split(k, l, r) =>
      var v1 := RewriteToNorm(l);
      var v2 := RewriteToNorm(r);
      var v3 := RewriteToJoin(k, Norm(l), Norm(r));
      w := Chain(Under(v1, v2), Split(k, Norm(l), Norm(r)), v3);
  }

  /** `Norm` is a complete invariant: two trees have the same one exactly when rotations turn one into the other. */
  lemma NormDecidesEquivalence(a: LayoutNode, b: LayoutNode)
    ensures Equivalent(a, b) <==> Norm(a) == Norm(b)
  {
    if Equivalent(a, b) {
      var w :| Rewrites(w, a, b);
      RewritesKeepNorm(w, a, b);
    }
    if Norm(a) == Norm(b) {
      var v := RewriteToNorm(a);
      var u := RewriteToNorm(b);
      assert Rewrites(Reverse(u), Norm(b), b);
      assert Rewrites(Chain(v, Norm(a), Reverse(u)), a, b);
    }
  }

  lemma Reassociate(a: string, sep: string, b: string, c: string)
    ensures a + sep + (b + c) == (a + sep + b) + c
  {}

  lemma {:induction false} JoinRenders(k: Kind, a: LayoutNode, b: LayoutNode)
    ensures Render(Join(k, a, b)) == Render(Split(k, a, b))
  {
    if b.Split? && b.kind == k {
      JoinRenders(k, a, b.left);
      var sep := [Separator(k), ' '];
      assert RenderChild(b, k) == RenderChild(b.left, k) + sep + RenderChild(b.right, k);
      Reassociate(RenderChild(a, k), sep, RenderChild(b.left, k), sep + RenderChild(b.right, k));
    }
  }

  /** Rendering forgets how a chain was associated. */
  lemma {:induction false} NormRenders(n: LayoutNode)
    ensures Render(Norm(n)) == Render(n)
  {
    if n.Split? {
      NormRenders(n.left);
      NormRenders(n.right);
      NormKeepsKind(n.left);
      NormKeepsKind(n.right);
      JoinRenders(n.kind, Norm(n.left), Norm(n.right));
    }
  }

  lemma NormKeepsKind(n: LayoutNode)
    ensures Norm(n).Leaf? <==> n.Leaf?
    ensures n.Split? ==> Norm(n).kind == n.kind
  {}
}
