/** Hot reload: turning a layout that only grew into a list of pane appends, and what replaying that list gives. */
module AppendPlanning {
  import opened Text
  import opened Layout
  import opened LeafToken
  import opened Grammar
  import opened LayoutParsing
  import opened RoundTrip

  datatype Direction = Right | Bottom

  datatype Append = Append(agent: string, direction: Direction)

  /** What the planner returns; slicing a list that is too short is a panic. */
  datatype Outcome = Plan(appends: seq<Append>) | NoPlan | Panics

  function DirectionOf(k: Kind): Direction { if k == Horizontal then Right else Bottom }

  function KindOf(d: Direction): Kind { match d case Right => Horizontal case Bottom => Vertical }

  // ---- The planner ----

  function ExpandedLeafPlan(anchor: LayoutNode, new_: LayoutNode): Option<seq<Append>> {
    match new_
    case Leaf(_) => if Render(new_) == Render(anchor) then Some([]) else None
    case Split(k, l, r) =>
      match ExpandedLeafPlan(anchor, l)
      case None => None
      case Some(plan) => if r.Leaf? then Some(plan + [Append(r.leaf.name, DirectionOf(k))]) else None
  }

  /** The first strategy: the trees agree down the right spine, where the old one ends in a leaf that grew. */
  function RightmostLeafPlan(old_: LayoutNode, new_: LayoutNode): Option<seq<Append>>
    decreases old_
  {
    if old_.Leaf? then ExpandedLeafPlan(old_, new_)
    else if new_.Leaf? || old_.kind != new_.kind then None
    else if Render(old_.left) != Render(new_.left) then None
    else RightmostLeafPlan(old_.right, new_.right)
  }

  predicate AllBranchKinds(n: LayoutNode, k: Kind) {
    n.Split? ==> n.kind == k && AllBranchKinds(n.left, k) && AllBranchKinds(n.right, k)
  }

  function SequenceKind(n: LayoutNode): Option<Kind> {
    if n.Split? && AllBranchKinds(n, n.kind) then Some(n.kind) else None
  }

  function AppendAll(agents: seq<string>, d: Direction): seq<Append> {
    seq(|agents|, i requires 0 <= i < |agents| => Append(agents[i], d))
  }

  /** The second strategy: both trees are one flat sequence and the new one has panes added at its end. */
  function TrailingSequencePlan(old_: LayoutNode, new_: LayoutNode): Outcome {
    var olds, news := old_.Names(), new_.Names();
    if |news| < |olds| then Panics
    else if news[..|olds|] != olds then NoPlan
    else if |news| == |olds| then Plan([])
    else if SequenceKind(old_).None? || SequenceKind(new_).None? then NoPlan
    else if SequenceKind(old_) != SequenceKind(new_) then NoPlan
    else Plan(AppendAll(news[|olds|..], DirectionOf(SequenceKind(old_).value)))
  }

  function PlanTrees(old_: LayoutNode, new_: LayoutNode): Outcome {
    match RightmostLeafPlan(old_, new_)
    case Some(plan) => Plan(plan)
    case None => TrailingSequencePlan(old_, new_)
  }

  /** `rightmost_leaf_append_plan` on the two layout texts. */
  function PlanTexts(oldText: string, newText: string): Outcome {
    match (ParseLayout(oldText), ParseLayout(newText))
    case (Ok(o), Ok(n)) => PlanTrees(o, n)
    case (_, _) => NoPlan
  }

  // ---- What a plan means ----

  function Agents(plan: seq<Append>): seq<string> { seq(|plan|, i requires 0 <= i < |plan| => plan[i].agent) }

  /** Panes appended one after another, each beside or below everything that grew so far. */
  function Grow(n: LayoutNode, plan: seq<Append>): LayoutNode {
    if plan == [] then n
    else
      var last := plan[|plan| - 1];
      Split(KindOf(last.direction), Grow(n, plan[..|plan| - 1]), NamedLeaf(last.agent))
  }

  /** The old tree with its rightmost leaf grown by the plan. */
  function Replay(old_: LayoutNode, plan: seq<Append>): LayoutNode {
    match old_
    case Leaf(_) => Grow(old_, plan)
    case Split(k, l, r) => Split(k, l, Replay(r, plan))
  }

  /** A tree with everything but the names dropped: a plan carries no provider, mode or size. */
  function NamesOnly(n: LayoutNode): LayoutNode {
    match n
    case Leaf(l) => NamedLeaf(l.name)
    case Split(k, l, r) => Split(k, NamesOnly(l), NamesOnly(r))
  }

  /** Equal up to re-association, names alone considered. */
  predicate SameShape(a: LayoutNode, b: LayoutNode) { Norm(NamesOnly(a)) == Norm(NamesOnly(b)) }

  // ---- Facts about names and growth ----

  lemma {:induction false} NamesOnlyJoin(k: Kind, a: LayoutNode, b: LayoutNode)
    ensures NamesOnly(Join(k, a, b)) == Join(k, NamesOnly(a), NamesOnly(b))
  {
    if b.Split? && b.kind == k { NamesOnlyJoin(k, a, b.left); }
  }

  lemma {:induction false} NamesOnlyNorm(n: LayoutNode)
    ensures NamesOnly(Norm(n)) == Norm(NamesOnly(n))
  {
    if n.Split? {
      NamesOnlyNorm(n.left);
      NamesOnlyNorm(n.right);
      NamesOnlyJoin(n.kind, Norm(n.left), Norm(n.right));
    }
  }

  lemma {:induction false} NamesOnlyNames(n: LayoutNode)
    ensures NamesOnly(n).Names() == n.Names()
  {
    if n.Split? { NamesOnlyNames(n.left); NamesOnlyNames(n.right); }
  }

  lemma SameShapeNames(a: LayoutNode, b: LayoutNode)
    requires SameShape(a, b)
    ensures a.Names() == b.Names()
  {
    NamesOnlyNames(a);
    NamesOnlyNames(b);
    NormLeaves(NamesOnly(a));
    NormLeaves(NamesOnly(b));
  }

  lemma CountNames(n: LayoutNode)
    ensures n.LeafCount() == |n.Names()|
  {
    NamesOfLeaves(n);
  }

  lemma AgentsSnoc(plan: seq<Append>, a: Append)
    ensures Agents(plan + [a]) == Agents(plan) + [a.agent]
  {}

  lemma {:induction false} GrowNames(n: LayoutNode, plan: seq<Append>)
    ensures Grow(n, plan).Names() == n.Names() + Agents(plan)
    decreases |plan|
  {
    if plan != [] {
      var init := plan[..|plan| - 1];
      GrowNames(n, init);
      assert plan == init + [plan[|plan| - 1]];
      AgentsSnoc(init, plan[|plan| - 1]);
    }
  }

  lemma {:induction false} ReplayNames(old_: LayoutNode, plan: seq<Append>)
    ensures Replay(old_, plan).Names() == old_.Names() + Agents(plan)
  {
    if old_.Leaf? { GrowNames(old_, plan); } else { ReplayNames(old_.right, plan); }
  }

  // ---- Soundness ----

  lemma {:induction false} ExpandedSound(anchor: LayoutNode, new_: LayoutNode)
    requires anchor.Leaf? && WfTree(anchor) && WfTree(new_) && ExpandedLeafPlan(anchor, new_).Some?
    ensures SameShape(new_, Grow(anchor, ExpandedLeafPlan(anchor, new_).value))
    decreases new_
  {
    if new_.Leaf? {
      RenderDecidesEquivalence(anchor, new_);
    } else {
      ExpandedSound(anchor, new_.left);
      var init := ExpandedLeafPlan(anchor, new_.left).value;
      var plan := ExpandedLeafPlan(anchor, new_).value;
      assert plan[..|plan| - 1] == init;
    }
  }

  lemma {:induction false} RightmostShape(old_: LayoutNode, new_: LayoutNode)
    requires WfTree(old_) && WfTree(new_) && RightmostLeafPlan(old_, new_).Some?
    ensures SameShape(new_, Replay(old_, RightmostLeafPlan(old_, new_).value))
    decreases old_
  {
    if old_.Leaf? {
      ExpandedSound(old_, new_);
    } else {
      RightmostShape(old_.right, new_.right);
      RenderDecidesEquivalence(old_.left, new_.left);
      NamesOnlyNorm(old_.left);
      NamesOnlyNorm(new_.left);
    }
  }

  /** A tree of one kind is determined, up to re-association, by its names. */
  function Chained(k: Kind, names: seq<string>): LayoutNode
    requires names != []
  {
    if |names| == 1 then NamedLeaf(names[0])
    else Split(k, Chained(k, names[..|names| - 1]), NamedLeaf(names[|names| - 1]))
  }

  lemma {:induction false} JoinChained(k: Kind, a: seq<string>, b: seq<string>)
    requires a != [] && b != []
    ensures Join(k, Chained(k, a), Chained(k, b)) == Chained(k, a + b)
    decreases |b|
  {
    assert (a + b)[..|a + b| - 1] == a + b[..|b| - 1];
    if |b| > 1 {
      JoinChained(k, a, b[..|b| - 1]);
    } else {
      assert a + b[..|b| - 1] == a;
    }
  }

  lemma {:induction false} SequenceIsChained(n: LayoutNode, k: Kind)
    requires AllBranchKinds(n, k)
    ensures n.Names() != [] && Norm(NamesOnly(n)) == Chained(k, n.Names())
  {
    if n.Split? {
      SequenceIsChained(n.left, k);
      SequenceIsChained(n.right, k);
      JoinChained(k, n.left.Names(), n.right.Names());
    }
  }

  lemma {:induction false} GrowKeepsKind(n: LayoutNode, k: Kind, plan: seq<Append>)
    requires n.Leaf? && forall i :: 0 <= i < |plan| ==> plan[i].direction == DirectionOf(k)
    ensures AllBranchKinds(Grow(n, plan), k)
    decreases |plan|
  {
    if plan != [] { GrowKeepsKind(n, k, plan[..|plan| - 1]); }
  }

  lemma {:induction false} ReplayKeepsKind(old_: LayoutNode, k: Kind, plan: seq<Append>)
    requires AllBranchKinds(old_, k) && forall i :: 0 <= i < |plan| ==> plan[i].direction == DirectionOf(k)
    ensures AllBranchKinds(Replay(old_, plan), k)
  {
    if old_.Leaf? { GrowKeepsKind(old_, k, plan); } else { ReplayKeepsKind(old_.right, k, plan); }
  }

  /** The second strategy's plan accounts for the added names, and is sound when panes were added. */
  lemma TrailingSound(old_: LayoutNode, new_: LayoutNode)
    requires TrailingSequencePlan(old_, new_).Plan?
    ensures var plan := TrailingSequencePlan(old_, new_).appends;
            && new_.Names() == old_.Names() + Agents(plan)
            && (plan != [] ==> SameShape(new_, Replay(old_, plan)))
  {
    var plan := TrailingSequencePlan(old_, new_).appends;
    var olds, news := old_.Names(), new_.Names();
    assert news == news[..|olds|] + news[|olds|..];
    assert Agents(plan) == news[|olds|..];
    if plan != [] {
      var k := SequenceKind(old_).value;
      ReplayKeepsKind(old_, k, plan);
      ReplayNames(old_, plan);
      SequenceIsChained(new_, k);
      SequenceIsChained(Replay(old_, plan), k);
    }
  }

  /** Whatever plan is returned names exactly the added panes, in order. Replaying it gives the new layout, up to
      re-association and names, exactly when panes were added or the two name-only layouts are written alike: a
      reload that only rearranges existing panes gets the empty plan. */
  lemma PlanSound(old_: LayoutNode, new_: LayoutNode)
    requires WfTree(old_) && WfTree(new_) && PlanTrees(old_, new_).Plan?
    ensures var plan := PlanTrees(old_, new_).appends;
            && new_.Names() == old_.Names() + Agents(plan)
            && (SameShape(new_, Replay(old_, plan)) <==>
                new_.LeafCount() > old_.LeafCount() || Render(NamesOnly(new_)) == Render(NamesOnly(old_)))
  {
    var plan := PlanTrees(old_, new_).appends;
    CountNames(old_);
    CountNames(new_);
    ReplayNames(old_, plan);
    if RightmostLeafPlan(old_, new_).Some? {
      RightmostShape(old_, new_);
      SameShapeNames(new_, Replay(old_, plan));
    } else {
      TrailingSound(old_, new_);
    }
    if plan == [] {
      ReplayNothing(old_);
      NamesOnlyWf(old_);
      NamesOnlyWf(new_);
      RenderDecidesEquivalence(NamesOnly(new_), NamesOnly(old_));
    }
  }

  /** Removing the pane `b` from `a; b` makes the planner panic. */
  lemma LostPanePanics()
    ensures PlanTexts("a; b", "a") == Panics
  {
    hide ParseLayout, PlanTrees;
    var a, b := NamedLeaf("a"), NamedLeaf("b");
    var both := Split(Horizontal, a, b);
    assert IsName("a") && IsName("b");
    assert Render(a) == "a" && Render(b) == "b";
    assert Render(both) == "a" + [Separator(Horizontal), ' '] + "b" == "a; b";
    ParseRender(a);
    ParseRender(both);
    PlannerPanics("a; b", "a");
  }

  // ---- What a plan does to the annotations of the panes that stay ----

  /** The tree with provider, mode and size dropped from all leaves but the first `kept`. */
  function NamesFrom(n: LayoutNode, kept: nat): LayoutNode {
    match n
    case Leaf(l) => if kept > 0 then n else NamedLeaf(l.name)
    case Split(k, l, r) =>
      var count := |l.Leaves()|;
      Split(k, NamesFrom(l, kept), NamesFrom(r, if kept < count then 0 else kept - count))
  }

  function NamedLeaves(names: seq<string>): seq<LayoutLeaf> {
    seq(|names|, i requires 0 <= i < |names| => NamedLeaf(names[i]).leaf)
  }

  lemma {:induction false} NamesFromLeaves(n: LayoutNode, kept: nat)
    requires kept <= |n.Leaves()|
    ensures |n.Names()| == |n.Leaves()|
    ensures NamesFrom(n, kept).Leaves() == n.Leaves()[..kept] + NamedLeaves(n.Names()[kept..])
    ensures NamesOnly(NamesFrom(n, kept)) == NamesOnly(n)
  {
    hide NamedLeaves;
    NamesOfLeaves(n);
    if n.Split? {
      var a, b := n.left.Leaves(), n.right.Leaves();
      NamesOfLeaves(n.left);
      NamesOfLeaves(n.right);
      CutOfSum(a, b, kept);
      CutOfSum(n.left.Names(), n.right.Names(), kept);
      if kept < |a| {
        NamesFromLeaves(n.left, kept);
        NamesFromLeaves(n.right, 0);
        NamedLeavesOfSum(n.left.Names()[kept..], n.right.Names());
        assert n.right.Names()[0..] == n.right.Names() && b[..0] == [];
        Associate(a[..kept], NamedLeaves(n.left.Names()[kept..]), NamedLeaves(n.right.Names()));
      } else {
        NamesFromAll(n.left, kept);
        NamesFromLeaves(n.right, kept - |a|);
        Associate(a, b[..kept - |a|], NamedLeaves(n.right.Names()[kept - |a|..]));
      }
    } else {
      NamedLeavesOfOne(n.leaf, kept);
    }
  }

  lemma NamedLeavesOfOne(l: LayoutLeaf, kept: nat)
    requires kept <= 1
    ensures NamesFrom(Leaf(l), kept).Leaves() == [l][..kept] + NamedLeaves([l.name][kept..])
  {}

  lemma NamedLeavesOfSum(a: seq<string>, b: seq<string>)
    ensures NamedLeaves(a + b) == NamedLeaves(a) + NamedLeaves(b)
  {}

  lemma CutOfSum<T>(a: seq<T>, b: seq<T>, kept: nat)
    requires kept <= |a| + |b|
    ensures kept < |a| ==> (a + b)[..kept] == a[..kept] && (a + b)[kept..] == a[kept..] + b
    ensures kept >= |a| ==> (a + b)[..kept] == a + b[..kept - |a|] && (a + b)[kept..] == b[kept - |a|..]
  {}

  lemma {:induction false} NamesFromAll(n: LayoutNode, kept: nat)
    requires kept >= |n.Leaves()|
    ensures NamesFrom(n, kept) == n
  {
    NamesOfLeaves(n);
    if n.Split? {
      NamesFromAll(n.left, kept);
      NamesFromAll(n.right, kept - |n.left.Leaves()|);
    }
  }

  lemma {:induction false} GrowLeaves(n: LayoutNode, plan: seq<Append>)
    ensures Grow(n, plan).Leaves() == n.Leaves() + NamedLeaves(Agents(plan))
    decreases |plan|
  {
    if plan != [] {
      var init := plan[..|plan| - 1];
      GrowLeaves(n, init);
      assert plan == init + [plan[|plan| - 1]];
      AgentsSnoc(init, plan[|plan| - 1]);
    }
  }

  lemma {:induction false} ReplayLeaves(old_: LayoutNode, plan: seq<Append>)
    ensures Replay(old_, plan).Leaves() == old_.Leaves() + NamedLeaves(Agents(plan))
  {
    if old_.Leaf? { GrowLeaves(old_, plan); } else { ReplayLeaves(old_.right, plan); }
  }

  /** Shape and leaves together are the tree. */
  lemma {:induction false} ShapeAndLeaves(a: LayoutNode, b: LayoutNode)
    requires NamesOnly(a) == NamesOnly(b) && a.Leaves() == b.Leaves()
    ensures a == b
  {
    if a.Split? {
      SameCount(a.left, b.left);
      assert a.Leaves()[..|a.left.Leaves()|] == a.left.Leaves() && b.Leaves()[..|b.left.Leaves()|] == b.left.Leaves();
      assert a.Leaves()[|a.left.Leaves()|..] == a.right.Leaves();
      assert b.Leaves()[|b.left.Leaves()|..] == b.right.Leaves();
      ShapeAndLeaves(a.left, b.left);
      ShapeAndLeaves(a.right, b.right);
    } else {
      assert a.Leaves()[0] == a.leaf && b.Leaves()[0] == b.leaf;
    }
  }

  lemma SameCount(a: LayoutNode, b: LayoutNode)
    requires NamesOnly(a) == NamesOnly(b)
    ensures |a.Leaves()| == |b.Leaves()|
  {
    NamesOfLeaves(a);
    NamesOfLeaves(b);
    NamesOnlyNames(a);
    NamesOnlyNames(b);
  }

  /** When panes were added, replaying the plan gives the new layout with its old panes as they are annotated there,
      exactly when the annotations of these panes did not change. */
  lemma PlanKeepsAnnotations(old_: LayoutNode, new_: LayoutNode)
    requires WfTree(old_) && WfTree(new_) && PlanTrees(old_, new_).Plan? && new_.LeafCount() > old_.LeafCount()
    ensures var plan, kept := PlanTrees(old_, new_).appends, |old_.Leaves()|;
            && kept <= |new_.Leaves()|
            && (Norm(NamesFrom(new_, kept)) == Norm(Replay(old_, plan)) <==> new_.Leaves()[..kept] == old_.Leaves())
  {
    hide Replay, NamesFrom, PlanTrees, WfTree;
    var plan, kept := PlanTrees(old_, new_).appends, |old_.Leaves()|;
    PlanSound(old_, new_);
    CountNames(old_);
    CountNames(new_);
    AnnotationsDecide(old_, new_, plan);
  }

  /** Where a replayed plan has the new shape, it has the new tree's panes exactly when the old ones did not change. */
  lemma AnnotationsDecide(old_: LayoutNode, new_: LayoutNode, plan: seq<Append>)
    requires SameShape(new_, Replay(old_, plan))
    ensures var kept := |old_.Leaves()|;
            && kept <= |new_.Leaves()|
            && (Norm(NamesFrom(new_, kept)) == Norm(Replay(old_, plan)) <==> new_.Leaves()[..kept] == old_.Leaves())
  {
    hide Replay, NamesFrom;
    var kept := |old_.Leaves()|;
    SameShapeNames(new_, Replay(old_, plan));
    ReplayNames(old_, plan);
    NamesOfLeaves(old_);
    NamesOfLeaves(new_);
    var a, b := NamesFrom(new_, kept), Replay(old_, plan);
    NamesFromLeaves(new_, kept);
    ReplayLeaves(old_, plan);
    NormLeaves(a);
    NormLeaves(b);
    assert new_.Names()[kept..] == Agents(plan);
    var added := NamedLeaves(Agents(plan));
    assert a.Leaves()[..kept] == new_.Leaves()[..kept] && b.Leaves()[..kept] == old_.Leaves();
    if new_.Leaves()[..kept] == old_.Leaves() {
      NamesOnlyNorm(a);
      NamesOnlyNorm(b);
      ShapeAndLeaves(Norm(a), Norm(b));
    }
  }

  /** The first strategy compares the old panes as they are written, so it finds no plan when one changed. */
  lemma {:induction false} RightmostKeepsAnnotations(old_: LayoutNode, new_: LayoutNode)
    requires WfTree(old_) && WfTree(new_) && RightmostLeafPlan(old_, new_).Some?
    ensures old_.Leaves() <= new_.Leaves()
    decreases old_
  {
    if old_.Leaf? {
      ExpandedKeepsAnchor(old_, new_);
    } else {
      RightmostKeepsAnnotations(old_.right, new_.right);
      RenderDecidesEquivalence(old_.left, new_.left);
      NormLeaves(old_.left);
      NormLeaves(new_.left);
    }
  }

  lemma {:induction false} ExpandedKeepsAnchor(anchor: LayoutNode, new_: LayoutNode)
    requires anchor.Leaf? && WfTree(anchor) && WfTree(new_) && ExpandedLeafPlan(anchor, new_).Some?
    ensures anchor.Leaves() <= new_.Leaves()
    decreases new_
  {
    if new_.Leaf? { RenderDecidesEquivalence(anchor, new_); } else { ExpandedKeepsAnchor(anchor, new_.left); }
  }

  /** Replaying a plan of the first strategy gives the new layout with the old panes as they are, annotations included;
      only the added panes lose theirs. */
  lemma RightmostSound(old_: LayoutNode, new_: LayoutNode)
    requires WfTree(old_) && WfTree(new_) && RightmostLeafPlan(old_, new_).Some?
    ensures old_.Leaves() <= new_.Leaves()
    ensures Norm(NamesFrom(new_, |old_.Leaves()|)) == Norm(Replay(old_, RightmostLeafPlan(old_, new_).value))
  {
    RightmostShape(old_, new_);
    RightmostKeepsAnnotations(old_, new_);
    AnnotationsDecide(old_, new_, RightmostLeafPlan(old_, new_).value);
  }

  /** The second strategy looks at names only: a pane that changed provider and size goes unnoticed. */
  lemma ChangedPaneIsMissed()
    ensures var old_, new_ := CodexBesideB(), ClaudeBesideBAndC();
            && WfTree(old_) && WfTree(new_) && PlanTrees(old_, new_) == Plan([Append("c", Right)])
            && Norm(NamesFrom(new_, 2)) != Norm(Replay(old_, [Append("c", Right)]))
  {
    hide Render, NamesFrom, Replay, WfTree, TrailingSequencePlan;
    var old_, new_ := CodexBesideB(), ClaudeBesideBAndC();
    ChangedPanes();
    if RightmostLeafPlan(old_, new_).Some? { RightmostKeepsAnnotations(old_, new_); }
    PlanKeepsAnnotations(old_, new_);
  }

  function CodexBesideB(): LayoutNode {
    Split(Horizontal, Leaf(LayoutLeaf("a", Some("codex"), None, None)), NamedLeaf("b"))
  }

  function ClaudeBesideBAndC(): LayoutNode {
    var claude := Leaf(LayoutLeaf("a", Some("claude"), None, Some(30)));
    Split(Horizontal, Split(Horizontal, claude, NamedLeaf("b")), NamedLeaf("c"))
  }

  lemma ChangedPanes()
    ensures var old_, new_ := CodexBesideB(), ClaudeBesideBAndC();
            && WfTree(old_) && WfTree(new_) && |old_.Leaves()| == 2 && old_.LeafCount() == 2 && new_.LeafCount() == 3
            && old_.Leaves()[0] != new_.Leaves()[0]
            && TrailingSequencePlan(old_, new_) == Plan([Append("c", Right)])
  {
    var old_, new_ := CodexBesideB(), ClaudeBesideBAndC();
    assert IsName("a") && IsName("b") && IsName("c") && IsProvider("codex") && IsProvider("claude");
    assert old_.Leaves()[0] == old_.left.leaf && new_.Leaves()[0] == new_.left.left.leaf;
    assert old_.Names() == ["a", "b"] && new_.Names() == ["a", "b", "c"];
    assert new_.Names()[..2] == old_.Names() && new_.Names()[2..] == ["c"];
    assert AppendAll(["c"], Right) == [Append("c", Right)];
  }

  lemma {:induction false} ReplayNothing(old_: LayoutNode)
    ensures Replay(old_, []) == old_
  {
    if old_.Split? { ReplayNothing(old_.right); }
  }

  lemma {:induction false} NamesOnlyWf(n: LayoutNode)
    requires WfTree(n)
    ensures WfTree(NamesOnly(n))
  {
    hide IsName;
    if n.Split? { NamesOnlyWf(n.left); NamesOnlyWf(n.right); }
  }

  /** With as many panes as before, the outcome depends on the names alone: the empty plan if they kept their order,
      else no plan. */
  lemma SameCountPlan(old_: LayoutNode, new_: LayoutNode)
    requires WfTree(old_) && WfTree(new_) && new_.LeafCount() == old_.LeafCount()
    ensures PlanTrees(old_, new_) == if new_.Names() == old_.Names() then Plan([]) else NoPlan
  {
    CountNames(old_);
    CountNames(new_);
    if RightmostLeafPlan(old_, new_).Some? {
      var plan := RightmostLeafPlan(old_, new_).value;
      RightmostShape(old_, new_);
      ReplayNames(old_, plan);
      SameShapeNames(new_, Replay(old_, plan));
      assert |Agents(plan)| == |plan| == 0;
    }
  }

  /** The empty plan for a rearranged layout: `a; b` to `a, b` returns a plan that does not reach the new layout. */
  lemma RearrangedGetsEmptyPlan()
    ensures var a, b := NamedLeaf("a"), NamedLeaf("b");
            var old_, new_ := Split(Horizontal, a, b), Split(Vertical, a, b);
            && WfTree(old_) && WfTree(new_)
            && PlanTrees(old_, new_) == Plan([]) && !SameShape(new_, Replay(old_, []))
  {
    var a, b := NamedLeaf("a"), NamedLeaf("b");
    assert IsName("a") && IsName("b");
    var old_, new_ := Split(Horizontal, a, b), Split(Vertical, a, b);
    assert old_.Names() == ["a", "b"] == new_.Names();
    assert Replay(old_, []) == Split(Horizontal, a, Replay(b, [])) == old_;
  }

  /** A text that does not parse gets no plan; two that do get the plan of their layouts. */
  lemma UnreadableGetsNoPlan(oldText: string, newText: string)
    ensures ParseLayout(oldText).Err? || ParseLayout(newText).Err? ==> PlanTexts(oldText, newText) == NoPlan
    ensures ParseLayout(oldText).Ok? && ParseLayout(newText).Ok? ==>
              PlanTexts(oldText, newText) == PlanTrees(ParseLayout(oldText).value, ParseLayout(newText).value)
  {
    hide ParseLayout;
  }

  /** The planner panics exactly when both texts parse and the new layout has fewer panes. */
  lemma PlannerPanics(oldText: string, newText: string)
    ensures PlanTexts(oldText, newText) == Panics <==>
            var o, n := ParseLayout(oldText), ParseLayout(newText);
            o.Ok? && n.Ok? && n.value.LeafCount() < o.value.LeafCount()
  {
    hide ParseLayout, Render, WfTree, SameShape;
    var o, n := ParseLayout(oldText), ParseLayout(newText);
    if o.Ok? && n.Ok? {
      ReparseIsStable(oldText, o.value);
      ReparseIsStable(newText, n.value);
      CountNames(o.value);
      CountNames(n.value);
      if RightmostLeafPlan(o.value, n.value).Some? {
        RightmostShape(o.value, n.value);
        var plan := RightmostLeafPlan(o.value, n.value).value;
        ReplayNames(o.value, plan);
        SameShapeNames(n.value, Replay(o.value, plan));
      }
    }
  }

  // ---- Completeness on trees, agreement of the two strategies ----

  lemma {:induction false} GrownIsExpanded(anchor: LayoutNode, plan: seq<Append>)
    requires anchor.Leaf?
    ensures ExpandedLeafPlan(anchor, Grow(anchor, plan)) == Some(plan)
    decreases |plan|
  {
    hide Render;
    if plan != [] {
      var init, last := plan[..|plan| - 1], plan[|plan| - 1];
      GrownIsExpanded(anchor, init);
      assert Append(last.agent, DirectionOf(KindOf(last.direction))) == last;
      assert plan == init + [last];
    }
  }

  /** Every plan is found again from the tree its replay builds. */
  lemma {:induction false} ReplayIsPlanned(old_: LayoutNode, plan: seq<Append>)
    ensures RightmostLeafPlan(old_, Replay(old_, plan)) == Some(plan)
    ensures PlanTrees(old_, Replay(old_, plan)) == Plan(plan)
  {
    if old_.Leaf? { GrownIsExpanded(old_, plan); } else { ReplayIsPlanned(old_.right, plan); }
  }

  lemma {:induction false} ExpandedDirections(anchor: LayoutNode, new_: LayoutNode, k: Kind)
    requires AllBranchKinds(new_, k) && ExpandedLeafPlan(anchor, new_).Some?
    ensures forall a :: a in ExpandedLeafPlan(anchor, new_).value ==> a.direction == DirectionOf(k)
    decreases new_
  {
    if new_.Split? { ExpandedDirections(anchor, new_.left, k); }
  }

  lemma {:induction false} RightmostDirections(old_: LayoutNode, new_: LayoutNode, k: Kind)
    requires AllBranchKinds(new_, k) && RightmostLeafPlan(old_, new_).Some?
    ensures forall a :: a in RightmostLeafPlan(old_, new_).value ==> a.direction == DirectionOf(k)
    decreases old_
  {
    if old_.Leaf? { ExpandedDirections(old_, new_, k); } else { RightmostDirections(old_.right, new_.right, k); }
  }

  /** When both strategies find a plan, it is the same plan. */
  lemma StrategiesAgree(old_: LayoutNode, new_: LayoutNode)
    requires WfTree(old_) && WfTree(new_)
    requires RightmostLeafPlan(old_, new_).Some? && TrailingSequencePlan(old_, new_).Plan?
    ensures TrailingSequencePlan(old_, new_) == Plan(RightmostLeafPlan(old_, new_).value)
  {
    var p, q := RightmostLeafPlan(old_, new_).value, TrailingSequencePlan(old_, new_).appends;
    RightmostShape(old_, new_);
    ReplayNames(old_, p);
    SameShapeNames(new_, Replay(old_, p));
    TrailingSound(old_, new_);
    assert Agents(p) == new_.Names()[|old_.Names()|..] == Agents(q);
    assert |p| == |Agents(p)| == |q|;
    if q != [] {
      RightmostDirections(old_, new_, SequenceKind(new_).value);
      forall i | 0 <= i < |p| ensures p[i] == q[i] {
        assert p[i] in p && Agents(p)[i] == Agents(q)[i];
      }
    }
  }

  // ---- Completeness through text: the new layout is read back from its rendering ----

  /** The separator next to the rightmost leaf. */
  function SpineKind(n: LayoutNode): Kind
    requires n.Split?
  {
    if n.right.Leaf? then n.kind else SpineKind(n.right)
  }

  /** The plans that survive being written down: the last append must not continue the chain the rightmost leaf is
      in, unless the whole layout is that chain and every append continues it. */
  predicate Recoverable(old_: LayoutNode, plan: seq<Append>) {
    || plan == [] || old_.Leaf?
    || KindOf(plan[|plan| - 1].direction) != SpineKind(old_)
    || (AllBranchKinds(old_, SpineKind(old_)) &&
        forall i :: 0 <= i < |plan| ==> plan[i].direction == DirectionOf(SpineKind(old_)))
  }

  lemma {:induction false} GrowLeftAssociated(n: LayoutNode, plan: seq<Append>)
    requires n.Leaf?
    ensures LeftAssociated(Grow(n, plan))
    decreases |plan|
  {
    if plan != [] { GrowLeftAssociated(n, plan[..|plan| - 1]); }
  }

  lemma {:induction false} ReplayLeftAssociated(old_: LayoutNode, plan: seq<Append>)
    requires LeftAssociated(old_)
    requires plan == [] || old_.Leaf? || KindOf(plan[|plan| - 1].direction) != SpineKind(old_)
    ensures LeftAssociated(Replay(old_, plan))
  {
    if old_.Leaf? {
      GrowLeftAssociated(old_, plan);
    } else if old_.right.Leaf? {
      GrowLeftAssociated(old_.right, plan);
    } else {
      ReplayLeftAssociated(old_.right, plan);
    }
  }

  lemma {:induction false} GrowWf(n: LayoutNode, plan: seq<Append>)
    requires WfTree(n) && forall a :: a in plan ==> IsName(a.agent)
    ensures WfTree(Grow(n, plan))
    decreases |plan|
  {
    hide IsName;
    if plan != [] { GrowWf(n, plan[..|plan| - 1]); }
  }

  lemma {:induction false} ReplayWf(old_: LayoutNode, plan: seq<Append>)
    requires WfTree(old_) && forall a :: a in plan ==> IsName(a.agent)
    ensures WfTree(Replay(old_, plan))
  {
    hide IsName;
    if old_.Leaf? { GrowWf(old_, plan); } else { ReplayWf(old_.right, plan); }
  }

  lemma {:induction false} JoinWf(k: Kind, a: LayoutNode, b: LayoutNode)
    requires WfTree(a) && WfTree(b)
    ensures WfTree(Join(k, a, b))
  {
    hide WfLeaf;
    if b.Split? && b.kind == k { JoinWf(k, a, b.left); }
  }

  /** A plan whose last append continues the rightmost chain moves the split point up, out of the first strategy's
      sight. */
  lemma {:induction false} ContinuedChainIsMissed(old_: LayoutNode, plan: seq<Append>)
    requires old_.Split? && LeftAssociated(old_) && WfTree(old_) && plan != []
    requires forall a :: a in plan ==> IsName(a.agent)
    requires KindOf(plan[|plan| - 1].direction) == SpineKind(old_)
    ensures RightmostLeafPlan(old_, Norm(Replay(old_, plan))).None?
  {
    hide IsName;
    var k, l, r := old_.kind, old_.left, old_.right;
    NormFixpoint(l);
    if r.Leaf? {
      var init := plan[..|plan| - 1];
      var grown := Grow(r, init);
      GrowLeftAssociated(r, plan);
      NormFixpoint(Grow(r, plan));
      GrowWf(r, init);
      JoinWf(k, l, grown);
      var left := Join(k, l, grown);
      assert Norm(Replay(old_, plan)) == Split(k, left, NamedLeaf(plan[|plan| - 1].agent));
      JoinLeaves(k, l, grown);
      NormLeaves(l);
      NormLeaves(left);
      assert |left.Leaves()| == |l.Leaves()| + grown.LeafCount();
      RenderDecidesEquivalence(l, left);
    } else {
      ContinuedChainIsMissed(r, plan);
      NormKeepsKind(Replay(r, plan));
      assert Norm(Replay(old_, plan)) == Split(k, l, Norm(Replay(r, plan)));
    }
  }

  lemma {:induction false} SpineKindIsBranchKind(n: LayoutNode, k: Kind)
    requires n.Split? && AllBranchKinds(n, k)
    ensures SpineKind(n) == k
  {
    if n.right.Split? { SpineKindIsBranchKind(n.right, k); }
  }

  lemma {:induction false} NormKeepsBranchKinds(n: LayoutNode, k: Kind)
    ensures AllBranchKinds(Norm(n), k) <==> AllBranchKinds(n, k)
  {
    if n.Split? {
      NormKeepsBranchKinds(n.left, k);
      NormKeepsBranchKinds(n.right, k);
      JoinKeepsBranchKinds(n.kind, Norm(n.left), Norm(n.right), k);
    }
  }

  lemma {:induction false} JoinKeepsBranchKinds(kind: Kind, a: LayoutNode, b: LayoutNode, k: Kind)
    ensures AllBranchKinds(Join(kind, a, b), k) <==> kind == k && AllBranchKinds(a, k) && AllBranchKinds(b, k)
  {
    if b.Split? && b.kind == kind { JoinKeepsBranchKinds(kind, a, b.left, k); }
  }

  lemma {:induction false} NormKeepsSpineKind(n: LayoutNode)
    requires n.Split?
    ensures Norm(n).Split? && SpineKind(Norm(n)) == SpineKind(n)
  {
    NormKeepsKind(n.right);
    JoinSpineKind(n.kind, Norm(n.left), Norm(n.right));
    if n.right.Split? { NormKeepsSpineKind(n.right); }
  }

  lemma JoinSpineKind(k: Kind, a: LayoutNode, b: LayoutNode)
    ensures SpineKind(Join(k, a, b)) == if b.Leaf? then k else SpineKind(b)
  {}

  lemma RecoverableUpToNorm(old_: LayoutNode, plan: seq<Append>)
    ensures Recoverable(Norm(old_), plan) <==> Recoverable(old_, plan)
  {
    NormKeepsKind(old_);
    if old_.Split? {
      NormKeepsSpineKind(old_);
      NormKeepsBranchKinds(old_, SpineKind(old_));
    }
  }

  // ---- Replaying commutes with re-association ----

  lemma {:induction false} ReplayJoin(k: Kind, a: LayoutNode, b: LayoutNode, plan: seq<Append>)
    ensures Norm(Replay(Join(k, a, b), plan)) == Join(k, Norm(a), Norm(Replay(b, plan)))
  {
    if b.Split? && b.kind == k {
      NormOfJoin(k, a, b.left);
      JoinAssociative(k, Norm(a), Norm(b.left), Norm(Replay(b.right, plan)));
    }
  }

  lemma {:induction false} NormOfJoin(k: Kind, a: LayoutNode, b: LayoutNode)
    ensures Norm(Join(k, a, b)) == Join(k, Norm(a), Norm(b))
  {
    if b.Split? && b.kind == k {
      NormOfJoin(k, a, b.left);
      JoinAssociative(k, Norm(a), Norm(b.left), Norm(b.right));
    }
  }

  lemma {:induction false} ReplayUpToNorm(n: LayoutNode, plan: seq<Append>)
    ensures Norm(Replay(Norm(n), plan)) == Norm(Replay(n, plan))
  {
    if n.Split? {
      ReplayUpToNorm(n.right, plan);
      ReplayJoin(n.kind, Norm(n.left), Norm(n.right), plan);
      NormFixpoint(n.left);
    }
  }

  lemma WholeChainIsFound(old_: LayoutNode, plan: seq<Append>)
    requires old_.Split? && plan != [] && AllBranchKinds(old_, SpineKind(old_))
    requires forall i :: 0 <= i < |plan| ==> plan[i].direction == DirectionOf(SpineKind(old_))
    ensures TrailingSequencePlan(old_, Norm(Replay(old_, plan))) == Plan(plan)
  {
    var k, new_ := SpineKind(old_), Norm(Replay(old_, plan));
    SpineKindIsBranchKind(old_, old_.kind);
    ReplayKeepsKind(old_, k, plan);
    NormKeepsBranchKinds(Replay(old_, plan), k);
    NormKeepsKind(Replay(old_, plan));
    NormLeaves(Replay(old_, plan));
    ReplayNames(old_, plan);
    assert new_.Names()[..|old_.Names()|] == old_.Names();
    assert new_.Names()[|old_.Names()|..] == Agents(plan);
    assert AppendAll(Agents(plan), DirectionOf(k)) == plan;
  }

  lemma TrailingPlanContinuesChain(old_: LayoutNode, new_: LayoutNode, plan: seq<Append>)
    requires old_.Split? && plan != [] && TrailingSequencePlan(old_, new_) == Plan(plan)
    ensures Recoverable(old_, plan)
  {
    SpineKindIsBranchKind(old_, SequenceKind(old_).value);
  }

  /** Planning from the texts of a layout and of its replay recovers the plan exactly when it is recoverable. */
  lemma PlanSurvivesText(old_: LayoutNode, plan: seq<Append>)
    requires WfTree(old_) && forall a :: a in plan ==> IsName(a.agent)
    ensures PlanTexts(Render(old_), Render(Replay(old_, plan))) == Plan(plan) <==> Recoverable(old_, plan)
  {
    hide IsName, Render, PlanTexts, Recoverable;
    var n := Norm(old_);
    NormWf(old_);
    NormLeftAssociated(old_);
    LeftAssociatedSurvivesText(n, plan);
    NormRenders(old_);
    ReplayUpToNorm(old_, plan);
    NormRenders(Replay(old_, plan));
    NormRenders(Replay(n, plan));
    RecoverableUpToNorm(old_, plan);
  }

  lemma NormWf(n: LayoutNode)
    requires WfTree(n)
    ensures WfTree(Norm(n))
  {
    WfTreeLeaves(n);
    WfTreeLeaves(Norm(n));
    NormLeaves(n);
  }

  lemma LeftAssociatedSurvivesText(old_: LayoutNode, plan: seq<Append>)
    requires LeftAssociated(old_) && WfTree(old_) && forall a :: a in plan ==> IsName(a.agent)
    ensures PlanTexts(Render(old_), Render(Replay(old_, plan))) == Plan(plan) <==> Recoverable(old_, plan)
  {
    hide IsName;
    var new_ := Norm(Replay(old_, plan));
    ReplayWf(old_, plan);
    NormFixpoint(old_);
    ParseRender(old_);
    ParseRender(Replay(old_, plan));
    if plan == [] || old_.Leaf? || KindOf(plan[|plan| - 1].direction) != SpineKind(old_) {
      ReplayLeftAssociated(old_, plan);
      NormFixpoint(Replay(old_, plan));
      ReplayIsPlanned(old_, plan);
    } else {
      ContinuedChainIsMissed(old_, plan);
      if Recoverable(old_, plan) {
        WholeChainIsFound(old_, plan);
      } else if TrailingSequencePlan(old_, new_) == Plan(plan) {
        TrailingPlanContinuesChain(old_, new_, plan);
      }
    }
  }

  /** Not every plan survives: growing `b` of `a; b` downwards and then to the right reads as a chain of three. */
  lemma WrittenPlanIsLost()
    ensures var old_ := Split(Horizontal, NamedLeaf("a"), NamedLeaf("b"));
            var plan := [Append("c", Bottom), Append("d", Right)];
            WfTree(old_) && PlanTexts(Render(old_), Render(Replay(old_, plan))) != Plan(plan)
  {
    hide PlanTexts, Render;
    assert IsName("a") && IsName("b") && IsName("c") && IsName("d");
    var old_, plan := Split(Horizontal, NamedLeaf("a"), NamedLeaf("b")), [Append("c", Bottom), Append("d", Right)];
    assert plan[0].direction == Bottom && plan[1].direction == Right;
    PlanSurvivesText(old_, plan);
  }
}
