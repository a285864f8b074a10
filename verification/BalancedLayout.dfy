/** The generated default layout: two columns of stacked panes. */
module BalancedLayout {
  import opened Text
  import opened Layout
  import opened LeafToken
  import opened Tokenizer
  import opened Grammar
  import opened LayoutParsing
  import opened RoundTrip

  // ---- What is built ----

  /** One column, stacked downwards. */
  function Stack(leaves: seq<LayoutNode>): LayoutNode
    requires leaves != []
  {
    if |leaves| == 1 then leaves[0]
    else Split(Vertical, Stack(leaves[..|leaves| - 1]), leaves[|leaves| - 1])
  }

  /** Trimmed, blanks dropped. */
  function CleanNames(names: seq<string>): seq<string> {
    if names == [] then []
    else (if Trim(names[0]) == "" then [] else [Trim(names[0])]) + CleanNames(names[1..])
  }

  function AgentLeaf(name: string, providers: map<string, string>, modes: map<string, string>): LayoutNode {
    Leaf(LayoutLeaf(name, if name in providers then Some(providers[name]) else None,
                    if name in modes then Some(modes[name]) else None, None))
  }

  function AgentLeaves(names: seq<string>, providers: map<string, string>, modes: map<string, string>)
    : seq<LayoutNode>
  {
    seq(|names|, i requires 0 <= i < |names| => AgentLeaf(names[i], providers, modes))
  }

  function Columns(leaves: seq<LayoutNode>): LayoutNode
    requires leaves != []
  {
    if |leaves| == 1 then leaves[0]
    else
      var mid := (|leaves| + 1) / 2;
      Split(Horizontal, Stack(leaves[..mid]), Stack(leaves[mid..]))
  }

  function CmdLeaf(cmdEnabled: bool): seq<LayoutNode> { if cmdEnabled then [NamedLeaf("cmd")] else [] }

  /** The generated layout for cleaned names. */
  function Balanced(names: seq<string>, providers: map<string, string>, modes: map<string, string>, cmdEnabled: bool)
    : LayoutNode
    requires names != []
  {
    Columns(CmdLeaf(cmdEnabled) + AgentLeaves(names, providers, modes))
  }

  method StackVertical(leaves: seq<LayoutNode>) returns (r: Option<LayoutNode>)
    ensures r == if leaves == [] then None else Some(Stack(leaves))
  {
    if leaves == [] {
      return None;
    }
    var node := leaves[0];
    assert leaves[..1] == [leaves[0]];
    for i := 1 to |leaves|
      invariant node == Stack(leaves[..i])
    {
      assert leaves[..i + 1][..i] == leaves[..i];
      node := Split(Vertical, node, leaves[i]);
    }
    assert leaves[..|leaves|] == leaves;
    return Some(node);
  }

  /** `build_balanced_layout`; with no agent left after trimming it panics, here `None`. */
  method BuildBalancedLayout(agentNames: seq<string>, providers: map<string, string>, modes: map<string, string>,
                             cmdEnabled: bool) returns (r: Option<LayoutNode>)
    ensures r == if CleanNames(agentNames) == [] then None
                 else Some(Balanced(CleanNames(agentNames), providers, modes, cmdEnabled))
  {
    hide Trim, CleanNames, AgentLeaves, AgentLeaf, Stack;
    NothingBuilt(providers, modes);
    var ordered := [];
    assert agentNames[..0] == [];
    for i := 0 to |agentNames|
      invariant ordered == CleanNames(agentNames[..i])
    {
      CleanNamesSnoc(agentNames[..i], agentNames[i]);
      assert agentNames[..i + 1] == agentNames[..i] + [agentNames[i]];
      if Trim(agentNames[i]) != "" {
        ordered := ordered + [Trim(agentNames[i])];
      }
    }
    assert agentNames[..|agentNames|] == agentNames;
    if ordered == [] {
      return None;
    }
    var leaves := [];
    if cmdEnabled {
      leaves := [NamedLeaf("cmd")];
    }
    ghost var head := leaves;
    assert ordered[..0] == [];
    for i := 0 to |ordered|
      invariant leaves == head + AgentLeaves(ordered[..i], providers, modes)
    {
      AgentLeavesSnoc(ordered, i, providers, modes);
      Associate(head, AgentLeaves(ordered[..i], providers, modes), [AgentLeaf(ordered[i], providers, modes)]);
      leaves := leaves + [AgentLeaf(ordered[i], providers, modes)];
    }
    assert ordered[..|ordered|] == ordered;
    assert leaves == CmdLeaf(cmdEnabled) + AgentLeaves(ordered, providers, modes);
    AgentLeavesCount(ordered, providers, modes);
    if |leaves| == 1 {
      return Some(leaves[0]);
    }
    var mid := (|leaves| + 1) / 2;
    var left := StackVertical(leaves[..mid]);
    var right := StackVertical(leaves[mid..]);
    return Some(Split(Horizontal, left.value, right.value));
  }

  lemma NothingBuilt(providers: map<string, string>, modes: map<string, string>)
    ensures CleanNames([]) == [] && AgentLeaves([], providers, modes) == []
  {}

  lemma AgentLeavesCount(names: seq<string>, providers: map<string, string>, modes: map<string, string>)
    ensures |AgentLeaves(names, providers, modes)| == |names|
  {}

  lemma AgentLeavesSnoc(names: seq<string>, i: nat, providers: map<string, string>, modes: map<string, string>)
    requires i < |names|
    ensures AgentLeaves(names[..i + 1], providers, modes) ==
            AgentLeaves(names[..i], providers, modes) + [AgentLeaf(names[i], providers, modes)]
  {}

  lemma {:induction false} CleanNamesSnoc(names: seq<string>, name: string)
    ensures CleanNames(names + [name]) == CleanNames(names) + if Trim(name) == "" then [] else [Trim(name)]
  {
    hide Trim;
    if names == [] {
      assert [] + [name] == [name] && [name][1..] == [];
      assert CleanNames([name][1..]) == [];
    } else {
      ConcatTail(names, [name]);
      CleanNamesSnoc(names[1..], name);
    }
  }

  // ---- Its shape ----

  predicate AllLeaves(nodes: seq<LayoutNode>) { forall i :: 0 <= i < |nodes| ==> nodes[i].Leaf? }

  function LeavesIn(nodes: seq<LayoutNode>): seq<LayoutLeaf>
    requires AllLeaves(nodes)
  {
    seq(|nodes|, i requires 0 <= i < |nodes| => nodes[i].leaf)
  }

  lemma {:induction false} StackShape(leaves: seq<LayoutNode>)
    requires leaves != [] && AllLeaves(leaves)
    ensures Stack(leaves).Leaves() == LeavesIn(leaves)
    ensures LeftAssociated(Stack(leaves)) && !(Stack(leaves).Split? && Stack(leaves).kind == Horizontal)
    decreases |leaves|
  {
    var init := leaves[..|leaves| - 1];
    if |leaves| > 1 {
      StackShape(init);
      assert LeavesIn(leaves) == LeavesIn(init) + [leaves[|leaves| - 1].leaf];
    }
  }

  /** Every pane appears once, in order, the left column taking the odd one; the tree is already left-associated. */
  lemma ColumnsShape(leaves: seq<LayoutNode>)
    requires leaves != [] && AllLeaves(leaves)
    ensures Columns(leaves).Leaves() == LeavesIn(leaves)
    ensures LeftAssociated(Columns(leaves))
    ensures |leaves| > 1 ==>
              var c := Columns(leaves);
              && c.Split? && c.kind == Horizontal
              && c.left.LeafCount() == (|leaves| + 1) / 2 && c.right.LeafCount() == |leaves| / 2
  {
    if |leaves| > 1 {
      var mid := (|leaves| + 1) / 2;
      StackShape(leaves[..mid]);
      StackShape(leaves[mid..]);
      assert LeavesIn(leaves) == LeavesIn(leaves[..mid]) + LeavesIn(leaves[mid..]);
    }
  }

  // ---- Written form ----

  /** A leaf as its text shows it: a mode other than `worktree`, or one without a provider, is not written. */
  function WrittenLeaf(l: LayoutLeaf): LayoutLeaf {
    if l.provider.Some? && l.mode == Some("worktree") then l else l.(mode := None)
  }

  function Written(n: LayoutNode): LayoutNode {
    match n
    case Leaf(l) => Leaf(WrittenLeaf(l))
    case Split(k, l, r) => Split(k, Written(l), Written(r))
  }

  lemma {:induction false} WrittenRenders(n: LayoutNode)
    ensures Render(Written(n)) == Render(n)
  {
    if n.Split? {
      WrittenRenders(n.left);
      WrittenRenders(n.right);
      ChildText(n.left, n.kind);
      ChildText(n.right, n.kind);
      ChildText(Written(n.left), n.kind);
      ChildText(Written(n.right), n.kind);
    }
  }

  lemma {:induction false} WrittenShape(n: LayoutNode)
    ensures Written(n).Names() == n.Names()
    ensures LeftAssociated(Written(n)) <==> LeftAssociated(n)
    ensures Written(n).LeafCount() == n.LeafCount()
  {
    if n.Split? {
      WrittenShape(n.left);
      WrittenShape(n.right);
    }
  }

  /** Names and providers can be written. */
  predicate Lexable(n: LayoutNode) {
    match n
    case Leaf(l) => IsName(l.name) && (l.provider.Some? ==> IsProvider(l.provider.value))
    case Split(_, l, r) => Lexable(l) && Lexable(r)
  }

  lemma {:induction false} WrittenIsWf(n: LayoutNode)
    requires Lexable(n)
    ensures WfTree(Written(n))
    ensures WfTree(n) <==> Written(n) == n
  {
    hide IsName, IsProvider;
    if n.Split? {
      WrittenIsWf(n.left);
      WrittenIsWf(n.right);
    }
  }

  /** Reading back any lexable layout gives its written form, re-associated to the left; unwritten modes are lost. */
  lemma ParseRenderLexable(n: LayoutNode)
    requires Lexable(n)
    ensures ParseLayout(Render(n)) == Ok(Norm(Written(n)))
  {
    WrittenIsWf(n);
    WrittenRenders(n);
    ParseRender(Written(n));
  }

  predicate AllLexable(leaves: seq<LayoutLeaf>) { forall i :: 0 <= i < |leaves| ==> Lexable(Leaf(leaves[i])) }

  lemma AllLexableAppend(a: seq<LayoutLeaf>, b: seq<LayoutLeaf>)
    ensures AllLexable(a + b) <==> AllLexable(a) && AllLexable(b)
  {
    hide Lexable;
    if AllLexable(a + b) {
      assert forall i :: 0 <= i < |a| ==> a[i] == (a + b)[i];
      assert forall i :: 0 <= i < |b| ==> b[i] == (a + b)[|a| + i];
    }
  }

  lemma {:induction false} LexableLeaves(n: LayoutNode)
    ensures Lexable(n) <==> AllLexable(n.Leaves())
  {
    hide IsName, IsProvider;
    if n.Split? {
      LexableLeaves(n.left);
      LexableLeaves(n.right);
      AllLexableAppend(n.left.Leaves(), n.right.Leaves());
    } else {
      assert n.Leaves()[0] == n.leaf;
    }
  }

  // ---- The generated layout ----

  /** Names and the providers given for them can be written. */
  predicate LexableAgents(names: seq<string>, providers: map<string, string>) {
    && (forall n :: n in names ==> IsName(n))
    && (forall n :: n in names && n in providers ==> IsProvider(providers[n]))
  }

  lemma BalancedLeaves(names: seq<string>, providers: map<string, string>, modes: map<string, string>, cmdEnabled: bool)
    requires names != []
    ensures var leaves := CmdLeaf(cmdEnabled) + AgentLeaves(names, providers, modes);
            AllLeaves(leaves) && Balanced(names, providers, modes, cmdEnabled).Leaves() == LeavesIn(leaves)
    ensures LeftAssociated(Balanced(names, providers, modes, cmdEnabled))
  {
    hide Columns;
    ColumnsShape(CmdLeaf(cmdEnabled) + AgentLeaves(names, providers, modes));
  }

  lemma BalancedLexable(names: seq<string>, providers: map<string, string>, modes: map<string, string>,
                        cmdEnabled: bool)
    requires names != [] && LexableAgents(names, providers)
    ensures Lexable(Balanced(names, providers, modes, cmdEnabled))
    ensures Balanced(names, providers, modes, cmdEnabled).Names() == (if cmdEnabled then ["cmd"] else []) + names
  {
    hide Columns, IsName, IsProvider;
    var b, head := Balanced(names, providers, modes, cmdEnabled), CmdLeaf(cmdEnabled);
    BalancedLeaves(names, providers, modes, cmdEnabled);
    LexableLeaves(b);
    CmdIsName();
    var leaves := head + AgentLeaves(names, providers, modes);
    forall i | 0 <= i < |b.Leaves()|
      ensures Lexable(Leaf(b.Leaves()[i]))
      ensures b.Leaves()[i].name == if i < |head| then "cmd" else names[i - |head|]
    {
      assert b.Leaves()[i] == leaves[i].leaf;
      if i >= |head| { assert leaves[i] == AgentLeaf(names[i - |head|], providers, modes); }
    }
    NamesOfLeaves(b);
  }

  lemma CmdIsName()
    ensures IsName("cmd")
  {}

  /** The generated text always reads back: as the generated tree without unwritten modes, the panes in order behind
      `cmd`. It reads back as the very tree exactly when every mode is `worktree` on an agent with a provider. */
  lemma GeneratedLayoutParses(names: seq<string>, providers: map<string, string>, modes: map<string, string>,
                              cmdEnabled: bool)
    requires names != [] && LexableAgents(names, providers)
    ensures var b := Balanced(names, providers, modes, cmdEnabled);
      && ParseLayout(Render(b)) == Ok(Written(b))
      && Written(b).Names() == (if cmdEnabled then ["cmd"] else []) + names
      && (ParseLayout(Render(b)) == Ok(b) <==>
          forall n :: n in names && n in modes ==> modes[n] == "worktree" && n in providers)
  {
    hide IsName, IsProvider, LexableAgents, Balanced;
    var b := Balanced(names, providers, modes, cmdEnabled);
    BalancedLexable(names, providers, modes, cmdEnabled);
    BalancedLeaves(names, providers, modes, cmdEnabled);
    ParseRenderLexable(b);
    WrittenShape(b);
    NormFixpoint(Written(b));
    WrittenSame(b);
    UnwrittenModes(names, providers, modes, cmdEnabled);
  }

  // ---- Providers that cannot be written ----

  /** The provider's text has no mark, no comment and no white space around it. */
  predicate PlainProvider(p: string) { Trimmed(p) && p != [] && Plain(p) && Uncommented(p) }

  lemma AgentText(name: string, provider: string)
    requires IsName(name) && PlainProvider(provider)
    ensures var t := name + ":" + provider; Trimmed(t) && t != [] && Plain(t) && Uncommented(t)
    ensures ParseLeaf(name + ":" + provider).Some? ==> ParseLeaf(name + ":" + provider).value.name == name
  {
    hide IsSpace, ScanProvider, ScanPercent;
    var t := name + ":" + provider;
    assert t[0] == name[0] && t[|t| - 1] == provider[|provider| - 1];
    assert InClass(NameChar, name[0]) && !IsSpace(name[0]) by { StartsPlain(name); }
    NameIsPlain(name);
    assert Plain(t) && Uncommented(t);
    assert t == name + (":" + provider) && !InClass(NameChar, ':');
    SpanOf(NameChar, name, ":" + provider);
  }

  lemma StartsPlain(name: string)
    requires IsName(name)
    ensures !IsSpace(name[0])
  {}

  lemma NameIsPlain(name: string)
    requires IsName(name)
    ensures Plain(name) && Uncommented(name)
  {
    forall i | 0 <= i < |name|
      ensures !IsPunctuation(name[i]) && name[i] != '\n' && name[i] != '#' && name[i] != '/'
    {
      assert InClass(NameChar, name[i]);
    }
  }

  lemma {:induction false} RereadNames(n: LayoutNode)
    requires forall l :: l in n.Leaves() ==>
               ParseLeaf(RenderLeaf(l)).Some? && ParseLeaf(RenderLeaf(l)).value.name == l.name
    ensures Reread(n).Names() == n.Names()
  {
    hide ParseLeaf, RenderLeaf;
    if n.Split? {
      RereadNames(n.left);
      RereadNames(n.right);
    } else {
      assert n.leaf in n.Leaves();
    }
  }

  /** Whatever the providers are, as long as their text has no mark: the generated text parses exactly when every agent
      reads as a leaf, and then shows the panes in order. */
  lemma GeneratedTextParses(names: seq<string>, providers: map<string, string>, modes: map<string, string>,
                            cmdEnabled: bool)
    requires names != []
    requires forall n :: n in names ==> IsName(n) && n in providers && PlainProvider(providers[n])
    requires forall n :: n in names && n in modes ==> modes[n] != "worktree"
    ensures var r := ParseLayout(Render(Balanced(names, providers, modes, cmdEnabled)));
      && (r.Ok? <==> forall n :: n in names ==> ParseLeaf(n + ":" + providers[n]).Some?)
      && (r.Ok? ==> r.value.Names() == (if cmdEnabled then ["cmd"] else []) + names)
  {
    hide IsName, PlainProvider, PlainLeaf, WfLeaf, RenderLeaf, ParseLeaf, ParseLayout, Render, Balanced, Readable,
         Reread, Scannable, AgentLeaf;
    var b := Balanced(names, providers, modes, cmdEnabled);
    BalancedPanes(names, providers, modes, cmdEnabled);
    CmdReads();
    forall n | n in names ensures AgentPaneReads(n, providers, modes) { AgentReads(n, providers, modes); }
    ScannableLeaves(b);
    ReadableLeaves(b);
    ParseRenderedText(b);
    if ParseLayout(Render(b)).Ok? { RereadNames(b); }
  }

  /** The panes of the generated layout: `cmd`, if enabled, and every agent. */
  lemma BalancedPanes(names: seq<string>, providers: map<string, string>, modes: map<string, string>, cmdEnabled: bool)
    requires names != []
    ensures var b := Balanced(names, providers, modes, cmdEnabled);
      && LeftAssociated(b) && b.Names() == (if cmdEnabled then ["cmd"] else []) + names
      && (forall l :: l in b.Leaves() ==>
            l == NamedLeaf("cmd").leaf || exists n :: n in names && l == AgentLeaf(n, providers, modes).leaf)
      && forall n :: n in names ==> AgentLeaf(n, providers, modes).leaf in b.Leaves()
  {
    hide Balanced;
    var b, head := Balanced(names, providers, modes, cmdEnabled), CmdLeaf(cmdEnabled);
    var leaves := head + AgentLeaves(names, providers, modes);
    BalancedLeaves(names, providers, modes, cmdEnabled);
    forall i | 0 <= i < |b.Leaves()|
      ensures b.Leaves()[i] ==
                if i < |head| then NamedLeaf("cmd").leaf else AgentLeaf(names[i - |head|], providers, modes).leaf
    {
      assert b.Leaves()[i] == leaves[i].leaf;
    }
    forall n | n in names ensures AgentLeaf(n, providers, modes).leaf in b.Leaves() {
      var i :| 0 <= i < |names| && names[i] == n;
      assert b.Leaves()[|head| + i] == AgentLeaf(n, providers, modes).leaf;
    }
    NamesOfLeaves(b);
  }

  lemma CmdReads()
    ensures var l := NamedLeaf("cmd").leaf; WfLeaf(l) && ParseLeaf(RenderLeaf(l)) == Some(l)
  {
    CmdIsName();
    LeafRoundTrip(NamedLeaf("cmd").leaf);
  }

  /** The pane of an agent is one token, and reads, if at all, under the agent's name. */
  predicate AgentPaneReads(n: string, providers: map<string, string>, modes: map<string, string>) {
    var l := AgentLeaf(n, providers, modes).leaf;
    && n in providers && l.name == n && RenderLeaf(l) == n + ":" + providers[n] && PlainLeaf(l)
    && l != NamedLeaf("cmd").leaf
    && (ParseLeaf(RenderLeaf(l)).Some? ==> ParseLeaf(RenderLeaf(l)).value.name == n)
  }

  lemma AgentReads(n: string, providers: map<string, string>, modes: map<string, string>)
    requires IsName(n) && n in providers && PlainProvider(providers[n]) && (n in modes ==> modes[n] != "worktree")
    ensures AgentPaneReads(n, providers, modes)
  {
    hide IsName, PlainProvider, ParseLeaf;
    AgentText(n, providers[n]);
    assert n + ":" + providers[n] + "" == n + ":" + providers[n];
  }

  /** An agent whose provider is two words does not read as a leaf. */
  lemma TwoWordProvider(name: string, v: string, w: string)
    requires IsName(name) && IsProvider(v) && IsProvider(w)
    ensures ParseLeaf(name + ":" + (v + " " + w)).None?
  {
    hide ScanProvider, ScanPercent, IsProvider;
    var rest := ":" + (v + (" " + w));
    assert name + ":" + (v + " " + w) == name + rest && !InClass(NameChar, rest[0]);
    SpanOf(NameChar, name, rest);
    TwoWords(v, w);
  }

  lemma TwoWords(v: string, w: string)
    requires IsProvider(v) && IsProvider(w)
    ensures ScanProvider(":" + (v + (" " + w))) == Some((Some(v), None, " " + w)) && ScanPercent(" " + w).None?
  {
    hide SkipSpace, Span, IsSpace;
    assert InClass(ProviderChar, v[0]) && InClass(ProviderChar, w[0]);
    var text, tail := v + (" " + w), " " + w;
    ProviderStarts(v);
    ProviderStarts(w);
    SkipSpaceTo("", ":", text);
    assert "" + (":" + text) == ":" + text;
    SkipSpaceOf("", text);
    assert "" + text == text;
    SpanOf(ProviderChar, v, tail);
    SkipSpaceOf(" ", w);
    assert text[|v|..] == tail && text[..|v|] == v;
  }

  lemma ProviderStarts(p: string)
    requires IsProvider(p)
    ensures StopsClass(Space, p) && p[0] != '(' && p[0] != '@' && StopsClass(ProviderChar, " " + p)
    ensures forall q :: StopsClass(Space, p + q)
    ensures AllSpace("") && AllSpace(" ")
  {
    assert InClass(ProviderChar, p[0]);
  }

  /** One whose provider has a size behind it does, as a sized pane. */
  lemma SizedProvider()
    ensures PlainProvider("codex@5") && ParseLeaf("a:codex@5") == Some(LayoutLeaf("a", Some("codex"), None, Some(5)))
  {
    hide ParseLeaf, ShowNat, PlainProvider;
    var l := LayoutLeaf("a", Some("codex"), None, Some(5));
    assert IsName("a") && IsProvider("codex");
    ShowFive();
    assert RenderLeaf(l) == "a" + ":" + "codex" + ("@" + "5");
    assert "a" + ":" + "codex" + ("@" + "5") == "a:codex@5";
    LeafRoundTrip(l);
    SizedIsPlain();
  }

  lemma ShowFive()
    ensures ShowNat(5) == "5"
  {}

  lemma SizedIsPlain()
    ensures PlainProvider("codex@5")
  {}

  lemma {:induction false} WrittenSame(n: LayoutNode)
    ensures Written(n) == n <==> forall l :: l in n.Leaves() ==> WrittenLeaf(l) == l
  {
    hide WrittenLeaf;
    if n.Split? {
      WrittenSame(n.left);
      WrittenSame(n.right);
    } else {
      assert n.leaf in n.Leaves();
    }
  }

  lemma WrittenAgent(name: string, providers: map<string, string>, modes: map<string, string>)
    ensures var l := AgentLeaf(name, providers, modes).leaf;
            WrittenLeaf(l) == l <==> (name in modes ==> modes[name] == "worktree" && name in providers)
  {}

  lemma UnwrittenModes(names: seq<string>, providers: map<string, string>, modes: map<string, string>, cmdEnabled: bool)
    ensures var leaves := CmdLeaf(cmdEnabled) + AgentLeaves(names, providers, modes);
      AllLeaves(leaves) &&
      ((forall l :: l in LeavesIn(leaves) ==> WrittenLeaf(l) == l) <==>
       (forall n :: n in names && n in modes ==> modes[n] == "worktree" && n in providers))
  {
    hide WrittenLeaf;
    var head := CmdLeaf(cmdEnabled);
    var leaves := head + AgentLeaves(names, providers, modes);
    assert forall i :: 0 <= i < |head| ==> WrittenLeaf(leaves[i].leaf) == leaves[i].leaf by { CmdIsWritten(); }
    forall i | 0 <= i < |names|
      ensures leaves[|head| + i].leaf == AgentLeaf(names[i], providers, modes).leaf
      ensures AgentLeaf(names[i], providers, modes).leaf in LeavesIn(leaves)
    {
      assert LeavesIn(leaves)[|head| + i] == AgentLeaf(names[i], providers, modes).leaf;
      WrittenAgent(names[i], providers, modes);
    }
    forall n | n in names { WrittenAgent(n, providers, modes); }
    forall l | l in LeavesIn(leaves)
      ensures WrittenLeaf(l) == l || exists n :: n in names && l == AgentLeaf(n, providers, modes).leaf
    {
      var i :| 0 <= i < |leaves| && LeavesIn(leaves)[i] == l;
      if i >= |head| { assert l == AgentLeaf(names[i - |head|], providers, modes).leaf; }
    }
  }

  lemma CmdIsWritten()
    ensures WrittenLeaf(NamedLeaf("cmd").leaf) == NamedLeaf("cmd").leaf
  {}

  /** The mode that normalisation passes for worktree agents is lost when the generated layout is written. */
  lemma WorktreeMarkerIsLost()
    ensures var b := Balanced(["a"], map["a" := "codex"], map["a" := "git-worktree"], false);
            ParseLayout(Render(b)).Ok? && ParseLayout(Render(b)) != Ok(b)
  {
    hide ParseLayout, Render, Balanced;
    assert IsName("a") && IsProvider("codex");
    GeneratedLayoutParses(["a"], map["a" := "codex"], map["a" := "git-worktree"], false);
    assert "a" in ["a"];
  }
}
