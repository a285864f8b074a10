/** What a compact document loads to, and which configurations survive being written as one. */
module CompactWriting {
  import opened Text
  import opened Layout
  import opened LeafToken
  import opened Grammar
  import opened LayoutParsing
  import opened RoundTrip
  import opened AgentNames
  import opened AgentSpecs
  import opened UiSpecs
  import opened LayoutPlanning
  import opened ConfigNormalizing
  import opened CompactConfigs
  import opened CompactLoading

  // ---- The configuration a layout declares, in terms of its panes ----

  /** The panes other than `cmd`, in order. */
  function AgentPanes(leaves: seq<LayoutLeaf>): seq<string> {
    if leaves == [] then []
    else
      var last := leaves[|leaves| - 1];
      AgentPanes(leaves[..|leaves| - 1]) + if last.name == "cmd" then [] else [last.name]
  }

  /** The agent a pane declares, as it is after normalisation. */
  function PaneAgent(l: LayoutLeaf): AgentSpec
    requires l.provider.Some?
  {
    DeclaredAgent(l.name, Lower(l.provider.value), ModeOf(l))
  }

  function PaneAgents(leaves: seq<LayoutLeaf>): map<string, AgentSpec> {
    if leaves == [] then map[]
    else
      var last, agents := leaves[|leaves| - 1], PaneAgents(leaves[..|leaves| - 1]);
      if last.name == "cmd" || last.provider.None? then agents else agents[last.name := PaneAgent(last)]
  }

  /** Everything but these four fields at its default. */
  function PlainConfig(names: seq<string>, agents: map<string, AgentSpec>, cmd: bool, layoutSpec: string): Config {
    Config(2, names, agents, cmd, Some(layoutSpec), None, None, None, None, None, Some(DEFAULT_HEARTBEAT), Some(false),
           Some(Topology([], [], "", None)))
  }

  function PaneConfig(n: LayoutNode): Config {
    var leaves := n.Leaves();
    PlainConfig(AgentPanes(leaves), PaneAgents(leaves), Shows(leaves, "cmd"), Render(n))
  }

  /** The declarations of acceptable panes are these, but for the case of the providers. */
  lemma {:induction false} DeclaresPanes(leaves: seq<LayoutLeaf>)
    requires AllWf(leaves) && AllPanesOk(leaves) && DistinctPanes(leaves)
    ensures Declarations(leaves).Some?
    ensures var d := Declarations(leaves).value;
      && d.names == AgentPanes(leaves) && d.agents.Keys == PaneAgents(leaves).Keys
      && forall n :: n in d.agents ==> PaneAgents(leaves)[n] == d.agents[n].(provider := Lower(d.agents[n].provider))
    decreases |leaves|
  {
    hide WfLeaf, Trim, Lower, IsAgentName, IsProvider, Shows;
    Declares(leaves);
    if leaves != [] {
      var init, last := leaves[..|leaves| - 1], leaves[|leaves| - 1];
      DeclaresPanes(init);
      PaneToken(last);
    }
  }

  lemma NormalDeclared(s: AgentSpec, n: string)
    requires IsDeclared(s, n)
    ensures SpecOk(s) && NormalSpec(s) == s.(provider := Lower(s.provider))
  {
    hide Trim, Lower, IsAgentName, NormalizeAgentName;
    NormalizeFixpoint(n);
    assert Trimmed(".");
    TrimOfTrimmed(".");
    ProviderNotBlank(s.provider);
    ProviderIsTrimmed(s.provider);
  }

  lemma ProviderIsTrimmed(p: string)
    requires IsProvider(p)
    ensures Trim(p) == p
  {
    hide Trim;
    assert InClass(ProviderChar, p[0]) && InClass(ProviderChar, p[|p| - 1]);
    TrimOfTrimmed(p);
  }

  lemma NormalAgentsOfDeclared(agents: map<string, AgentSpec>, lower: map<string, AgentSpec>)
    requires forall n :: n in agents ==> IsDeclared(agents[n], n)
    requires lower.Keys == agents.Keys
    requires forall n :: n in agents ==> lower[n] == agents[n].(provider := Lower(agents[n].provider))
    ensures AgentsNormalize(agents) && NormalAgents(agents) == lower
  {
    hide SpecOk, NormalSpec, IsDeclared, Lower, IsAgentName, NormalAgents, AgentsNormalize;
    DeclaredNormalize(agents);
    forall n | n in agents ensures NormalAgents(agents)[n] == lower[n] {
      NormalDeclared(agents[n], n);
      DeclaredNamed(agents[n], n);
      AgentAt(agents, n);
    }
  }

  lemma DeclaredNamed(s: AgentSpec, n: string)
    requires IsDeclared(s, n)
    ensures s.name == n
  {}

  /** Normalising the declarations of acceptable panes gives the configuration of the panes. */
  lemma NormalizesToPanes(n: LayoutNode)
    requires WfTree(n) && Loadable(n.Leaves())
    ensures Declarations(n.Leaves()).Some? && Declarations(n.Leaves()).value.names != []
    ensures Normalized(ConfigOf(Declarations(n.Leaves()).value, Render(n))) == Done(PaneConfig(n))
  {
    hide Declarations, IsDeclared, IsAgentName, PaneOk, Render, AgentsNormalize, NormalAgents, NormalizeAll, Shows,
         AgentPanes, PaneAgents, Trim, Normalized, Lower;
    var leaves := n.Leaves();
    WfTreeLeaves(n);
    Declares(leaves);
    DeclaresPanes(leaves);
    var d := Declarations(leaves).value;
    LoadableNormalizes(n, d);
    forall a | a in d.names ensures IsAgentName(a) { DeclaredIsName(d.agents[a], a); }
    NamesAreNormal(d.names);
    NormalAgentsOfDeclared(d.agents, PaneAgents(leaves));
    RenderIsTrimmed(n);
    TrimOfTrimmed(Render(n));
    NormalizedValue(d, Render(n));
  }

  lemma NormalizedValue(d: Declared, layoutSpec: string)
    requires Normalized(ConfigOf(d, layoutSpec)).Done? && Trim(layoutSpec) != "" &&
               NormalizeAll(d.names) == Planned(d.names)
    ensures AgentsNormalize(d.agents)
    ensures Normalized(ConfigOf(d, layoutSpec)) == Done(PlainConfig(d.names, NormalAgents(d.agents), d.cmd, layoutSpec))
  {
    hide AgentsNormalize, NormalAgents, NormalizeAll, ValidConfig, Trim;
    assert ToolRecords([]) == [];
  }

  /** What loading gives, for every text: nothing, or the configuration of the panes. */
  lemma LoadsAs(text: string)
    ensures var layout := ParseLayout(JoinBodies(Lines(text)));
      Load(text) ==
        if Classify(Lines(text)) == Compact && layout.Ok? && Loadable(layout.value.Leaves())
        then Some(PaneConfig(layout.value)) else None
  {
    hide ParseLayout, Render, JoinBodies, Classify, Lines, Normalized, Declarations, Loadable, PaneConfig;
    LoadsExactly(text);
    var lines := Lines(text);
    var layout := ParseLayout(JoinBodies(lines));
    if Load(text).Some? {
      ReparseIsStable(JoinBodies(lines), layout.value);
      NormalizesToPanes(layout.value);
    }
  }

  /** The agent a pane gives: a git worktree exactly for a pane marked `(worktree)`, everything else at its default. */
  lemma PaneModes(text: string, c: Config)
    requires Load(text) == Some(c)
    ensures var layout := ParseLayout(JoinBodies(Lines(text)));
      && layout.Ok?
      && forall i :: 0 <= i < |layout.value.Leaves()| && layout.value.Leaves()[i].name != "cmd" ==>
           var l := layout.value.Leaves()[i];
           && l.provider.Some? && l.name in c.agents
           && c.agents[l.name] ==
                AgentSpec(l.name, Lower(l.provider.value), ".",
                          if l.mode == Some("worktree") then GitWorktree else Inplace,
                          None, None, None, None, None, None, [], None)
  {
    hide ParseLayout, JoinBodies, Classify, Lines, Loadable, PaneConfig, Load;
    LoadsAs(text);
    var leaves := ParseLayout(JoinBodies(Lines(text))).value.Leaves();
    LoadableParts(leaves);
    forall i | 0 <= i < |leaves| && leaves[i].name != "cmd"
      ensures leaves[i].provider.Some? && leaves[i].name in PaneAgents(leaves)
      ensures PaneAgents(leaves)[leaves[i].name] == PaneAgent(leaves[i])
    {
      PaneAgentAt(leaves, i);
    }
    assert c.agents == PaneAgents(leaves) by { PaneConfigAgents(ParseLayout(JoinBodies(Lines(text))).value); }
  }

  lemma LoadableParts(leaves: seq<LayoutLeaf>)
    requires Loadable(leaves)
    ensures AllPanesOk(leaves) && DistinctPanes(leaves)
  {}

  lemma PaneConfigAgents(n: LayoutNode)
    ensures PaneConfig(n).agents == PaneAgents(n.Leaves())
  {}

  lemma {:induction false} PaneAgentAt(leaves: seq<LayoutLeaf>, i: nat)
    requires AllPanesOk(leaves) && DistinctPanes(leaves) && i < |leaves| && leaves[i].name != "cmd"
    ensures leaves[i].provider.Some? && leaves[i].name in PaneAgents(leaves)
    ensures PaneAgents(leaves)[leaves[i].name] == PaneAgent(leaves[i])
    decreases |leaves|
  {
    hide IsAgentName, PaneAgent;
    assert PaneOk(leaves[i]);
    if i < |leaves| - 1 {
      var init := leaves[..|leaves| - 1];
      assert init[i] == leaves[i];
      PaneAgentAt(init, i);
      assert leaves[|leaves| - 1].name != leaves[i].name;
    }
  }

  function OneWorktree(): LayoutNode {
    Split(Horizontal, NamedLeaf("cmd"),
      Split(Vertical, Leaf(LayoutLeaf("a", Some("codex"), Some("worktree"), None)),
                      Leaf(LayoutLeaf("b", Some("claude"), None, None))))
  }

  lemma OneWorktreeText()
    ensures Render(OneWorktree()) + "\n" == "cmd; a:codex(worktree), b:claude\n"
  {
    hide RenderLeaf;
    OneWorktreeLeaves();
    RenderedThree(OneWorktree(), "cmd", "a:codex(worktree)", "b:claude");
    OneWorktreeLine();
  }

  lemma RenderedThree(n: LayoutNode, first: string, second: string, third: string)
    requires n.Split? && n.kind == Horizontal && n.left.Leaf? && n.right.Split? && n.right.kind == Vertical
    requires n.right.left.Leaf? && n.right.right.Leaf?
    requires RenderLeaf(n.left.leaf) == first && RenderLeaf(n.right.left.leaf) == second
    requires RenderLeaf(n.right.right.leaf) == third
    ensures Render(n) == first + [';', ' '] + (second + [',', ' '] + third)
  {
    hide RenderLeaf;
    ChildText(n.right.left, Vertical);
    ChildText(n.right.right, Vertical);
    ChildText(n.left, Horizontal);
    ChildText(n.right, Horizontal);
    assert Render(n.right.left) == second && Render(n.right.right) == third && Render(n.left) == first;
    assert Render(n.right) == second + [',', ' '] + third;
  }

  lemma OneWorktreeLine()
    ensures "cmd" + [';', ' '] + ("a:codex(worktree)" + [',', ' '] + "b:claude") + "\n" ==
            "cmd; a:codex(worktree), b:claude\n"
  {}

  lemma OneWorktreeLeaves()
    ensures var n := OneWorktree();
      && RenderLeaf(n.left.leaf) == "cmd" && RenderLeaf(n.right.left.leaf) == "a:codex(worktree)"
      && RenderLeaf(n.right.right.leaf) == "b:claude"
  {
    assert "a" + ":" + "codex" + "(worktree)" + "" == "a:codex(worktree)";
    assert "b" + ":" + "claude" + "" == "b:claude";
  }

  lemma OneWorktreeIsLoadable()
    ensures var n := OneWorktree();
      && WfTree(n) && LeftAssociated(n) && Loadable(n.Leaves())
      && n.Leaves() == [n.left.leaf, n.right.left.leaf, n.right.right.leaf]
  {
    hide IsAgentName, IsName, IsProvider;
    var n := OneWorktree();
    OneWorktreeNames();
    var leaves := n.Leaves();
    assert leaves == [n.left.leaf, n.right.left.leaf, n.right.right.leaf];
    assert leaves[0].name == "cmd" && leaves[1].name == "a" && leaves[2].name == "b";
  }

  lemma OneWorktreeNames()
    ensures IsName("cmd") && IsName("a") && IsName("b") && IsProvider("codex") && IsProvider("claude")
    ensures IsAgentName("a") && IsAgentName("b")
  {
    assert Lower("a") == "a" && Lower("b") == "b";
  }

  /** In this document `a` gets a git worktree and `b` works in place. */
  lemma OneWorktreeLoads()
    ensures var r := Load("cmd; a:codex(worktree), b:claude\n");
      && r.Some? && r.value.cmdEnabled && r.value.defaultAgents == ["a", "b"]
      && "a" in r.value.agents && r.value.agents["a"].mode == GitWorktree
      && "b" in r.value.agents && r.value.agents["b"].mode == Inplace
  {
    hide Load, Render, ParseLayout, Lines, Loadable, WfTree, Norm, Lower, PaneAgents;
    var n := OneWorktree();
    OneWorktreeText();
    OneWorktreeIsLoadable();
    LoadableTextLoads(n);
    OneRenderedLine(n);
    ParseRender(n);
    NormFixpoint(n);
    LoadsAs(Render(n) + "\n");
    var c := Load(Render(n) + "\n").value;
    PaneModes(Render(n) + "\n", c);
    assert n.Leaves()[1].name == "a" && n.Leaves()[2].name == "b";
    OneWorktreePanes(n.Leaves());
  }

  lemma OneWorktreePanes(leaves: seq<LayoutLeaf>)
    requires |leaves| == 3 && leaves[0].name == "cmd" && leaves[1].name == "a" && leaves[2].name == "b"
    ensures AgentPanes(leaves) == ["a", "b"] && Shows(leaves, "cmd")
  {
    var two, one := leaves[..2], leaves[..1];
    assert two[..1] == one && one[..0] == [] && one[0] == leaves[0] && two[1] == leaves[1];
    assert AgentPanes([]) == [] && AgentPanes(one) == [];
    assert AgentPanes(two) == [] + ["a"];
  }

  /** What is written is the layout and a line feed. */
  lemma CompactText(c: Config)
    requires CanRenderCompact(c)
    ensures RenderCompact(c) == (if c.layoutSpec.Some? then c.layoutSpec.value else "") + ['\n']
  {}

  // ---- Documents of several lines ----

  /** A line that is what it says counts as rich exactly when it opens a table or holds an equals sign. */
  lemma RichExactly(line: string)
    requires line != "" && Trimmed(line) && '#' !in line && '/' !in line && '\n' !in line
    ensures Body(line) == line && (IsRichLine(line) <==> line[0] == '[' || '=' in line)
  {
    hide Trim;
    PlainTextIsOneLine(line);
    TrimOfTrimmed(line);
  }

  /** Lines that hold nothing but white space and comment count for nothing. */
  lemma {:induction false} BlankLinesAreIgnored(a: seq<string>, blank: string, b: seq<string>)
    requires Body(blank) == ""
    ensures JoinBodies(a + [blank] + b) == JoinBodies(a + b)
    decreases |b|
  {
    hide Body;
    if b == [] {
      assert a + [blank] + b == a + [blank] && a + b == a && (a + [blank])[..|a|] == a;
    } else {
      var init, last := b[..|b| - 1], b[|b| - 1];
      BlankLinesAreIgnored(a, blank, init);
      assert (a + [blank] + b)[..|a| + |b|] == a + [blank] + init && (a + b)[..|a| + |b| - 1] == a + init;
    }
  }

  /** A layout broken behind a separator is the same compact document as on one line. */
  lemma CompactTwoLines(n: LayoutNode)
    requires WfTree(n) && n.Split?
    ensures Load(RenderChild(n.left, n.kind) + [Separator(n.kind)] + ['\n'] + RenderChild(n.right, n.kind)) ==
            Load(Render(n) + "\n")
  {
    hide Render, RenderChild, Lines, Body, ParseLayout, Loadable, Load, PaneConfig, IsRichLine;
    var a, b := RenderChild(n.left, n.kind) + [Separator(n.kind)], RenderChild(n.right, n.kind);
    ChildBody(n.left, n.kind);
    ChildBody(n.right, n.kind);
    LinesGoOn(a, b);
    LastLine(b);
    OneRenderedLine(n);
    TwoBodies(a, b);
    JoinedText(n);
    LoadsAs(a + ['\n'] + b);
    LoadsAs(Render(n) + "\n");
  }

  lemma TwoBodies(a: string, b: string)
    requires Body(a) == a != "" && Body(b) == b != "" && !IsRichLine(a) && !IsRichLine(b)
    ensures JoinBodies([a] + [b]) == a + " " + b && Classify([a] + [b]) == Compact
  {
    hide Body;
    var lines := [a] + [b];
    assert lines[..1] == [a] && [a][..0] == [] && JoinBodies([]) == "";
    assert JoinBodies([a]) == a;
    ClassifyDecides(lines);
  }

  lemma JoinedText(n: LayoutNode)
    requires n.Split?
    ensures RenderChild(n.left, n.kind) + [Separator(n.kind)] + " " + RenderChild(n.right, n.kind) == Render(n)
  {
    hide RenderChild;
    assert [Separator(n.kind)] + " " == [Separator(n.kind), ' '];
  }

  /** One half of a rendered layout, with and without the separator behind it, is a compact line as it stands. */
  lemma ChildBody(n: LayoutNode, parent: Kind)
    requires WfTree(n)
    ensures var t := RenderChild(n, parent);
      && t != "" && Body(t) == t && !IsRichLine(t) && '\n' !in t
      && Body(t + [Separator(parent)]) == t + [Separator(parent)] && !IsRichLine(t + [Separator(parent)])
      && '\n' !in t + [Separator(parent)] && t[|t| - 1] != '\r'
  {
    hide Render, Trim, IsRichLine, Body, WfTree;
    var t := RenderChild(n, parent);
    ChildText(n, parent);
    RenderIsInert(n);
    RenderIsTrimmed(n);
    MarksAreNotSpace();
    assert !IsSpace(';') && !IsSpace(',') && IsSpace('\r');
    assert Inert(t) && Inert(t + [Separator(parent)]);
    assert Trimmed(t) && Trimmed(t + [Separator(parent)]);
    RichExactly(t);
    RichExactly(t + [Separator(parent)]);
  }

  // ---- Writing a configuration and loading it again ----

  /** Everything the configuration says is in its layout text, and the text is as it would be rendered. */
  predicate FullyWritten(c: Config) {
    && ParseLayout(LayoutText(FlatOf(c))).Ok?
    && var n := ParseLayout(LayoutText(FlatOf(c))).value;
    && Render(n) == LayoutText(FlatOf(c))
    && (forall i :: 0 <= i < |n.Leaves()| ==> (n.Leaves()[i].name == "cmd" <==> n.Leaves()[i].provider.None?))
    && AgentPanes(n.Leaves()) == c.defaultAgents && PaneAgents(n.Leaves()) == c.agents
    && c.tools.None? && c.heartbeat == Some(DEFAULT_HEARTBEAT)
  }

  /** A normalised configuration without windows is determined by a few of its fields. */
  lemma FlatConfigIs(c: Config)
    requires Normalized(c) == Done(c) && c.cmdEnabled
    ensures c.layoutSpec.Some? && LayoutOk(FlatOf(c))
    ensures forall n :: n in c.defaultAgents ==> IsAgentName(n)
    ensures c.defaultAgents != []
    ensures c.tools.None? && c.heartbeat == Some(DEFAULT_HEARTBEAT) ==>
              c == PlainConfig(c.defaultAgents, c.agents, true, c.layoutSpec.value)
  {
    hide AgentsNormalize, NormalAgents, NormalizeAll, Arranged, AgentsOk, DefaultsOk, LayoutOk, UiOk, WindowsOk,
         IsAgentName;
    NormalizedIsConsistent(c);
    NormalizeAllFixed(c.defaultAgents);
    assert ToolRecords([]) == [];
    ArrangedFlat(c.(agents := NormalAgents(c.agents), defaultAgents := NormalizeAll(c.defaultAgents).value));
  }

  lemma ArrangedFlat(c: Config)
    requires Arranged(c).Done? && c.cmdEnabled
    ensures c.windows.None? && Arranged(c).config.windowsExplicit == Some(false) && Arranged(c).config.layoutSpec.Some?
    ensures Arranged(c).config == c.(windowsExplicit := Some(false), layoutSpec := Arranged(c).config.layoutSpec)
  {
    hide Trim, Render;
  }

  /** The panes of a checked layout that is fully written are acceptable. */
  lemma WrittenIsLoadable(c: Config, n: LayoutNode)
    requires FullyWritten(c) && c.cmdEnabled && LayoutOk(FlatOf(c)) && c.defaultAgents != []
    requires forall a :: a in c.defaultAgents ==> IsAgentName(a)
    requires ParseLayout(LayoutText(FlatOf(c))) == Ok(n)
    ensures Loadable(n.Leaves()) && Shows(n.Leaves(), "cmd")
  {
    hide ParseLayout, Render, IsAgentName, AgentPanes, PaneAgents, Loadable, Shows, Distinct;
    NamesOfLeaves(n);
    ExpectedPanes(n.Leaves(), n.Names(), FlatOf(c));
  }

  lemma ExpectedPanes(leaves: seq<LayoutLeaf>, names: seq<string>, c: FlatConfig)
    requires |names| == |leaves| > 0 && forall i :: 0 <= i < |leaves| ==> names[i] == leaves[i].name
    requires forall i :: 0 <= i < |leaves| ==> (leaves[i].name == "cmd" <==> leaves[i].provider.None?)
    requires c.defaultAgents != [] && forall a :: a in c.defaultAgents ==> IsAgentName(a)
    requires (set x | x in names) == ExpectedNames(c) && Distinct(names) && names[0] == "cmd"
    ensures Loadable(leaves) && Shows(leaves, "cmd")
  {
    hide IsAgentName, Distinct;
    forall i | 0 <= i < |leaves| ensures PaneOk(leaves[i]) {
      assert names[i] in names && names[i] in ExpectedNames(c);
    }
    var a := c.defaultAgents[0];
    assert a in c.defaultAgents && a in ExpectedNames(c) && a in names;
    AgentIsNotCmd(a);
    var k :| 0 <= k < |names| && names[k] == a;
    assert leaves[k].name != "cmd";
    DistinctLeaves(leaves, names);
  }

  lemma AgentIsNotCmd(a: string)
    requires IsAgentName(a)
    ensures a != "cmd"
  {
    NormalizeFixpoint(a);
  }

  lemma DistinctLeaves(leaves: seq<LayoutLeaf>, names: seq<string>)
    requires |names| == |leaves| > 0 && forall i :: 0 <= i < |leaves| ==> names[i] == leaves[i].name
    requires Distinct(names)
    ensures DistinctPanes(leaves) && forall i :: 0 < i < |leaves| ==> leaves[i].name != leaves[0].name
  {
    forall i, j | 0 <= i < j < |leaves| ensures leaves[i].name != leaves[j].name { assert names[i] != names[j]; }
  }

  /** A configuration that may be written compactly loads again as it was exactly when it is fully written: the layout
      is as rendered, its panes give every agent with provider and mode in the order of the default agents, and nothing
      else differs from the defaults. */
  lemma CompactWritesExactly(c: Config)
    requires Normalized(c) == Done(c) && CanRenderCompact(c)
    ensures Load(RenderCompact(c)) == Some(c) <==> FullyWritten(c)
  {
    hide ParseLayout, Render, JoinBodies, Classify, Lines, Normalized, Loadable, LayoutOk, Load, IsCompactAgent,
         IsAgentName, AgentPanes, PaneAgents, FullyWritten, IsRichLine, Body, Shows;
    var text := LayoutText(FlatOf(c));
    FlatConfigIs(c);
    LoadsAs(text + "\n");
    if FullyWritten(c) {
      WrittenLoads(c);
    }
    if Load(RenderCompact(c)) == Some(c) {
      var m := ParseLayout(JoinBodies(Lines(text + "\n"))).value;
      LoadedIsWritten(c, JoinBodies(Lines(text + "\n")), m);
    }
  }

  lemma WrittenLoads(c: Config)
    requires Normalized(c) == Done(c) && c.cmdEnabled && FullyWritten(c)
    ensures Load(LayoutText(FlatOf(c)) + "\n") == Some(c)
  {
    hide ParseLayout, Render, Classify, Lines, Normalized, Loadable, LayoutOk, Load, IsAgentName, AgentPanes,
         PaneAgents, IsRichLine, Body, Shows;
    var text := LayoutText(FlatOf(c));
    var n := ParseLayout(text).value;
    FlatConfigIs(c);
    ReparseIsStable(text, n);
    WrittenIsLoadable(c, n);
    OneRenderedLine(n);
    LoadsAs(text + "\n");
    assert ParseLayout(JoinBodies(Lines(text + "\n"))) == Ok(n);
    assert PaneConfig(n) == PlainConfig(c.defaultAgents, c.agents, true, text);
  }

  lemma OneRenderedLine(n: LayoutNode)
    requires WfTree(n)
    ensures var lines := Lines(Render(n) + "\n"); Classify(lines) == Compact && JoinBodies(lines) == Render(n)
  {
    hide Render, Lines, Body;
    RenderedLine(n);
    RenderIsTrimmed(n);
    var lines := [Render(n)];
    assert lines[..0] == [] && JoinBodies([]) == "";
  }

  lemma LoadedIsWritten(c: Config, text: string, m: LayoutNode)
    requires ParseLayout(text) == Ok(m) && Loadable(m.Leaves()) && c == PaneConfig(m)
    ensures FullyWritten(c)
  {
    hide ParseLayout, Render, AgentPanes, PaneAgents, IsAgentName;
    ReparseIsStable(text, m);
    NormLeaves(m);
    NormRenders(m);
    forall i | 0 <= i < |m.Leaves()| ensures m.Leaves()[i].name == "cmd" <==> m.Leaves()[i].provider.None? {
      assert PaneOk(m.Leaves()[i]);
      if IsAgentName(m.Leaves()[i].name) { NormalizeFixpoint(m.Leaves()[i].name); }
    }
  }

  // ---- A configuration that does not load again ----

  /** `cmd` and an agent whose provider is not in the layout. */
  function BarePane(): Config {
    PlainConfig(["a"], map["a" := DeclaredAgent("a", "codex", Inplace)], true, "cmd; a")
  }

  lemma BareLayout()
    ensures ParseLayout("cmd; a") == Ok(Split(Horizontal, NamedLeaf("cmd"), NamedLeaf("a")))
    ensures Trim("cmd; a") == "cmd; a"
  {
    hide ParseLayout, Trim;
    var cmd, a := NamedLeaf("cmd"), NamedLeaf("a");
    assert IsName("cmd") && IsName("a");
    assert Render(cmd) == "cmd" && Render(a) == "a";
    assert Render(Split(Horizontal, cmd, a)) == "cmd" + [Separator(Horizontal), ' '] + "a" == "cmd; a";
    ParseRender(Split(Horizontal, cmd, a));
    TrimOfTrimmed("cmd; a");
  }

  lemma BareAgent()
    ensures IsDeclared(DeclaredAgent("a", "codex", Inplace), "a") && Lower("codex") == "codex"
  {
    assert Lower("a") == "a" && IsAgentName("a") && IsProvider("codex");
  }

  lemma BareLayoutOk(c: FlatConfig)
    requires c.layoutSpec == Some("cmd; a") && c.defaultAgents == ["a"] && c.cmdEnabled
    ensures LayoutOk(c)
  {
    hide ParseLayout;
    BareLayout();
    var names := ParseLayout("cmd; a").value.Names();
    assert names == ["cmd", "a"];
    assert (set x | x in names) == {"cmd", "a"} == ExpectedNames(c);
  }

  lemma BareIsValid()
    ensures ValidConfig(BarePane()) && Signed(BarePane()) == BarePane()
  {
    hide LayoutOk, AgentsOk, DefaultsOk, UiOk, IsDeclared, IsAgentName;
    var c := BarePane();
    BareAgent();
    DeclaredIsName(c.agents["a"], "a");
    var flat := ConfigNormalizing.FlatOf(c);
    assert "a" in flat.agents && "a" in flat.defaultAgents;
    NormalAgentsOk(flat);
    NormalDefaultsOk(flat);
    BareLayoutOk(flat);
    assert ToolRecords([]) == [];
    var bare := c.(heartbeat := None);
    PlainUi(bare);
    FilledIsOk(bare);
    assert Filled(bare) == c;
  }

  lemma BareNormalizes()
    ensures Normalized(BarePane()) == Done(BarePane())
  {
    hide NormalAgents, AgentsNormalize, NormalizeAll, Normalized, ValidConfig, Signed, Trim, IsDeclared, Lower,
         IsAgentName;
    var c := BarePane();
    BareAgent();
    BareLayout();
    NormalAgentsOfDeclared(c.agents, c.agents);
    DeclaredIsName(c.agents["a"], "a");
    NamesAreNormal(["a"]);
    BareIsValid();
    FlatIsNormal(c);
  }

  /** A flat configuration whose parts are normal is normal. */
  lemma FlatIsNormal(c: Config)
    requires AgentsNormalize(c.agents) && NormalAgents(c.agents) == c.agents
    requires NormalizeAll(c.defaultAgents) == Planned(c.defaultAgents)
    requires c.windows.None? && c.windowsExplicit == Some(false) && c.layoutSpec.Some? && Trim(c.layoutSpec.value) != ""
    requires ValidConfig(c) && Signed(c) == c
    ensures Normalized(c) == Done(c)
  {
    hide AgentsNormalize, NormalAgents, NormalizeAll, Signed, Trim, AgentsOk, DefaultsOk, LayoutOk, UiOk;
    assert c.(agents := NormalAgents(c.agents), defaultAgents := c.defaultAgents) == c;
    assert c.(windowsExplicit := Some(false)) == c;
  }

  /** It is accepted and may be written compactly, but what is written does not load. */
  lemma BarePaneDoesNotLoad()
    ensures var c := BarePane();
      Normalized(c) == Done(c) && CanRenderCompact(c) && Load(RenderCompact(c)).None?
  {
    hide ParseLayout, Normalized, Load, Render, WfTree;
    BareNormalizes();
    BareText();
    BarePaneIsRefused();
    LoadableTextLoads(Split(Horizontal, NamedLeaf("cmd"), NamedLeaf("a")));
  }

  lemma BarePaneIsRefused()
    ensures var n := Split(Horizontal, NamedLeaf("cmd"), NamedLeaf("a")); WfTree(n) && !Loadable(n.Leaves())
  {
    var n := Split(Horizontal, NamedLeaf("cmd"), NamedLeaf("a"));
    assert IsName("cmd") && IsName("a");
    assert n.Leaves()[1] == NamedLeaf("a").leaf;
    assert !PaneOk(n.Leaves()[1]);
  }

  lemma BareText()
    ensures Render(Split(Horizontal, NamedLeaf("cmd"), NamedLeaf("a"))) == "cmd; a"
  {
    assert Render(NamedLeaf("cmd")) == "cmd" && Render(NamedLeaf("a")) == "a";
    assert Render(Split(Horizontal, NamedLeaf("cmd"), NamedLeaf("a"))) == "cmd" + [Separator(Horizontal), ' '] + "a";
  }
}
