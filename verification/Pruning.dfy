/** Pruning a layout to the panes that are shown, and the layout signature. */
module Pruning {
  import opened Text
  import opened Layout
  import opened LeafToken
  import opened Grammar
  import opened RoundTrip

  /** The names asked for, trimmed, blanks dropped. */
  function IncludeSet(names: seq<string>): set<string> {
    set n | n in names && Trim(n) != "" :: Trim(n)
  }

  function JoinPruned(k: Kind, l: Option<LayoutNode>, r: Option<LayoutNode>): Option<LayoutNode> {
    match (l, r)
    case (Some(a), Some(b)) => Some(Split(k, a, b))
    case (Some(a), None) => Some(a)
    case (None, Some(b)) => Some(b)
    case (None, None) => None
  }

  function Prune(n: LayoutNode, shown: set<string>): Option<LayoutNode> {
    match n
    case Leaf(l) => if l.name in shown then Some(n) else None
    case Split(k, l, r) => JoinPruned(k, Prune(l, shown), Prune(r, shown))
  }

  /** `prune_layout`. */
  function PruneLayout(n: LayoutNode, names: seq<string>): Option<LayoutNode> { Prune(n, IncludeSet(names)) }

  // ---- What is kept ----

  function Filter(leaves: seq<LayoutLeaf>, shown: set<string>): seq<LayoutLeaf> {
    if leaves == [] then []
    else (if leaves[0].name in shown then [leaves[0]] else []) + Filter(leaves[1..], shown)
  }

  lemma {:induction false} FilterAppend(a: seq<LayoutLeaf>, b: seq<LayoutLeaf>, shown: set<string>)
    ensures Filter(a + b, shown) == Filter(a, shown) + Filter(b, shown)
  {
    if a == [] {
      assert a + b == b;
    } else {
      ConcatTail(a, b);
      FilterAppend(a[1..], b, shown);
      var head := if a[0].name in shown then [a[0]] else [];
      assert head + (Filter(a[1..], shown) + Filter(b, shown)) == (head + Filter(a[1..], shown)) + Filter(b, shown);
    }
  }

  function LeavesOf(n: Option<LayoutNode>): seq<LayoutLeaf> { if n.Some? then n.value.Leaves() else [] }

  /** The panes kept are the panes asked for, in their old order; nothing is kept exactly when none is asked for. */
  lemma {:induction false} PruneFilters(n: LayoutNode, shown: set<string>)
    ensures LeavesOf(Prune(n, shown)) == Filter(n.Leaves(), shown)
    ensures Prune(n, shown).None? <==> Filter(n.Leaves(), shown) == []
  {
    if n.Split? {
      PruneFilters(n.left, shown);
      PruneFilters(n.right, shown);
      FilterAppend(n.left.Leaves(), n.right.Leaves(), shown);
      if Prune(n.left, shown).Some? { NamesOfLeaves(Prune(n.left, shown).value); }
      if Prune(n.right, shown).Some? { NamesOfLeaves(Prune(n.right, shown).value); }
    }
  }

  function PruneMaybe(n: Option<LayoutNode>, shown: set<string>): Option<LayoutNode> {
    if n.Some? then Prune(n.value, shown) else None
  }

  /** A pane is kept exactly when one of the names asked for is its name, white space around it aside. */
  lemma KeptByRequest(n: LayoutNode, names: seq<string>)
    requires forall l :: l in n.Leaves() ==> l.name != ""
    ensures LeavesOf(PruneLayout(n, names)) == Filter(n.Leaves(), IncludeSet(names))
    ensures forall l :: l in n.Leaves() ==>
      (l in LeavesOf(PruneLayout(n, names)) <==> exists i :: 0 <= i < |names| && Trim(names[i]) == l.name)
  {
    hide Trim;
    PruneFilters(n, IncludeSet(names));
    forall l | l in n.Leaves()
      ensures l in Filter(n.Leaves(), IncludeSet(names)) <==> exists i :: 0 <= i < |names| && Trim(names[i]) == l.name
    {
      FilterMembers(n.Leaves(), IncludeSet(names), l);
      if i :| 0 <= i < |names| && Trim(names[i]) == l.name { assert names[i] in names; }
    }
  }

  lemma {:induction false} FilterMembers(leaves: seq<LayoutLeaf>, shown: set<string>, l: LayoutLeaf)
    ensures l in Filter(leaves, shown) <==> l in leaves && l.name in shown
  {
    if leaves != [] {
      FilterMembers(leaves[1..], shown, l);
      assert leaves == [leaves[0]] + leaves[1..];
    }
  }

  /** Pruning twice is pruning by the intersection; pruning to everything present changes nothing. */
  lemma {:induction false} PruneTwice(n: LayoutNode, a: set<string>, b: set<string>)
    ensures PruneMaybe(Prune(n, a), b) == Prune(n, a * b)
  {
    if n.Split? {
      PruneTwice(n.left, a, b);
      PruneTwice(n.right, a, b);
    }
  }

  lemma {:induction false} PruneToAll(n: LayoutNode, shown: set<string>)
    requires forall l :: l in n.Leaves() ==> l.name in shown
    ensures Prune(n, shown) == Some(n)
  {
    if n.Split? {
      PruneToAll(n.left, shown);
      PruneToAll(n.right, shown);
    } else {
      assert n.leaf in n.Leaves();
    }
  }

  lemma {:induction false} PruneWf(n: LayoutNode, shown: set<string>)
    requires WfTree(n) && Prune(n, shown).Some?
    ensures WfTree(Prune(n, shown).value)
  {
    hide WfLeaf;
    if n.Split? {
      if Prune(n.left, shown).Some? { PruneWf(n.left, shown); }
      if Prune(n.right, shown).Some? { PruneWf(n.right, shown); }
    }
  }

  // ---- Pruning respects re-association ----

  function NormMaybe(n: Option<LayoutNode>): Option<LayoutNode> { if n.Some? then Some(Norm(n.value)) else None }

  /** Chaining two optional trees. */
  function JoinMaybe(k: Kind, a: Option<LayoutNode>, b: Option<LayoutNode>): Option<LayoutNode> {
    if a.None? then b else if b.None? then a else Some(Join(k, a.value, b.value))
  }

  lemma {:induction false} PruneJoin(k: Kind, a: LayoutNode, b: LayoutNode, shown: set<string>)
    ensures NormMaybe(Prune(Join(k, a, b), shown)) ==
            JoinMaybe(k, NormMaybe(Prune(a, shown)), NormMaybe(Prune(b, shown)))
  {
    if b.Split? && b.kind == k {
      PruneJoin(k, a, b.left, shown);
      var x, y, z := NormMaybe(Prune(a, shown)), NormMaybe(Prune(b.left, shown)), NormMaybe(Prune(b.right, shown));
      if x.Some? && y.Some? && z.Some? { JoinAssociative(k, x.value, y.value, z.value); }
    }
  }

  lemma {:induction false} PruneNorm(n: LayoutNode, shown: set<string>)
    ensures NormMaybe(Prune(Norm(n), shown)) == NormMaybe(Prune(n, shown))
  {
    if n.Split? {
      PruneNorm(n.left, shown);
      PruneNorm(n.right, shown);
      PruneJoin(n.kind, Norm(n.left), Norm(n.right), shown);
    }
  }

  /** Equivalent layouts pruned alike are equivalent, and vanish together. */
  lemma PruneRespectsEquivalence(a: LayoutNode, b: LayoutNode, shown: set<string>)
    requires Equivalent(a, b)
    ensures Prune(a, shown).Some? <==> Prune(b, shown).Some?
    ensures Prune(a, shown).Some? ==> Equivalent(Prune(a, shown).value, Prune(b, shown).value)
  {
    NormDecidesEquivalence(a, b);
    PruneNorm(a, shown);
    PruneNorm(b, shown);
    if Prune(a, shown).Some? { NormDecidesEquivalence(Prune(a, shown).value, Prune(b, shown).value); }
  }

  /** The signature of a layout: the text of its visible part. */
  function Signature(n: LayoutNode, names: seq<string>): Option<string> {
    match PruneLayout(n, names)
    case None => None
    case Some(m) => Some(Render(m))
  }

  /** The signature depends only on the layout up to re-association and on the set of names asked for. */
  lemma SignatureDependsOnNorm(a: LayoutNode, b: LayoutNode, names: seq<string>, others: seq<string>)
    requires Equivalent(a, b) && IncludeSet(names) == IncludeSet(others)
    ensures Signature(a, names) == Signature(b, others)
  {
    var shown := IncludeSet(names);
    PruneRespectsEquivalence(a, b, shown);
    if Prune(a, shown).Some? {
      var x, y := Prune(a, shown).value, Prune(b, shown).value;
      NormDecidesEquivalence(x, y);
      NormRenders(x);
      NormRenders(y);
    }
  }

  /** Equal signatures mean equal visible layouts, up to re-association, and the same visible panes. */
  lemma SignatureIsFaithful(a: LayoutNode, b: LayoutNode, names: seq<string>, others: seq<string>)
    requires WfTree(a) && WfTree(b) && Signature(a, names).Some? && Signature(b, others).Some?
    ensures Signature(a, names) == Signature(b, others) <==>
            Equivalent(PruneLayout(a, names).value, PruneLayout(b, others).value)
    ensures Signature(a, names) == Signature(b, others) ==>
            Filter(a.Leaves(), IncludeSet(names)) == Filter(b.Leaves(), IncludeSet(others))
  {
    var x, y := PruneLayout(a, names).value, PruneLayout(b, others).value;
    PruneWf(a, IncludeSet(names));
    PruneWf(b, IncludeSet(others));
    RenderDecidesEquivalence(x, y);
    PruneFilters(a, IncludeSet(names));
    PruneFilters(b, IncludeSet(others));
    NormLeaves(x);
    NormLeaves(y);
  }
}
