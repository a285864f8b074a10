/** Which compact documents load: an independent description, in terms of the panes alone. */
module CompactLoading {
  import opened Text
  import opened Layout
  import opened LeafToken
  import opened Grammar
  import opened LayoutParsing
  import opened RoundTrip
  import opened AgentNames
  import opened AgentSpecs
  import opened LayoutPlanning
  import opened ConfigNormalizing
  import opened CompactConfigs

  /** `cmd` without a provider, or an agent with one, its name already as normalisation leaves it. */
  predicate PaneOk(l: LayoutLeaf) {
    (l.name == "cmd" && l.provider.None?) || (IsAgentName(l.name) && l.provider.Some?)
  }

  predicate DistinctPanes(leaves: seq<LayoutLeaf>) {
    forall i, j :: 0 <= i < j < |leaves| ==> leaves[i].name != leaves[j].name
  }

  predicate AllPanesOk(leaves: seq<LayoutLeaf>) { forall i :: 0 <= i < |leaves| ==> PaneOk(leaves[i]) }

  predicate Shows(leaves: seq<LayoutLeaf>, n: string) { exists i :: 0 <= i < |leaves| && leaves[i].name == n }

  /** Acceptable panes with different names, at least one of them an agent, and `cmd` only in front. */
  predicate Loadable(leaves: seq<LayoutLeaf>) {
    && AllPanesOk(leaves) && DistinctPanes(leaves)
    && (exists i :: 0 <= i < |leaves| && leaves[i].name != "cmd")
    && forall i :: 0 < i < |leaves| ==> leaves[i].name != "cmd"
  }

  // ---- Declarations of acceptable panes ----

  predicate IsDeclared(s: AgentSpec, n: string) {
    IsAgentName(n) && IsProvider(s.provider) && s == DeclaredAgent(n, s.provider, s.mode)
  }

  lemma ShowsSnoc(leaves: seq<LayoutLeaf>, n: string)
    requires leaves != []
    ensures Shows(leaves, n) <==> Shows(leaves[..|leaves| - 1], n) || leaves[|leaves| - 1].name == n
  {
    var init, last := leaves[..|leaves| - 1], leaves[|leaves| - 1];
    assert forall i :: 0 <= i < |init| ==> leaves[i] == init[i];
    assert leaves[|leaves| - 1] == last;
    if Shows(init, n) {
      var i :| 0 <= i < |init| && init[i].name == n;
      assert leaves[i].name == n;
    }
  }

  lemma PaneToken(l: LayoutLeaf)
    requires WfLeaf(l)
    ensures Trim(l.name) == l.name
    ensures PaneOk(l) ==> (Lower(l.name) == "cmd" <==> l.name == "cmd") && (l.name == "cmd" <==> l.provider.None?)
  {
    hide Trim;
    LeafNameIsTrimmed(l);
    assert Lower("cmd") == "cmd";
    if IsAgentName(l.name) { NormalizeFixpoint(l.name); }
  }

  /** What acceptable panes declare: `cmd` if it is shown, and exactly the agents shown. */
  lemma {:induction false} Declares(leaves: seq<LayoutLeaf>)
    requires AllWf(leaves) && AllPanesOk(leaves) && DistinctPanes(leaves)
    ensures Declarations(leaves).Some?
    ensures var d := Declarations(leaves).value;
      && (d.cmd <==> Shows(leaves, "cmd"))
      && Distinct(d.names)
      && (forall n :: n in d.names <==> Shows(leaves, n) && n != "cmd")
      && (forall n :: n in d.agents <==> n in d.names)
      && forall n :: n in d.agents ==> IsDeclared(d.agents[n], n)
    decreases |leaves|
  {
    hide WfLeaf, Trim, Lower, IsAgentName, IsProvider, Shows;
    if leaves == [] {
      NothingShown();
    } else {
      var init, last := leaves[..|leaves| - 1], leaves[|leaves| - 1];
      Declares(init);
      PaneToken(last);
      NotShownBefore(leaves);
      forall n ensures Shows(leaves, n) <==> Shows(init, n) || last.name == n { ShowsSnoc(leaves, n); }
      if last.name != "cmd" {
        ProviderIsDeclared(last);
        assert last.name !in Declarations(init).value.names;
      }
    }
  }

  lemma NothingShown()
    ensures forall n :: !Shows([], n)
  {}

  lemma NotShownBefore(leaves: seq<LayoutLeaf>)
    requires leaves != [] && DistinctPanes(leaves)
    ensures !Shows(leaves[..|leaves| - 1], leaves[|leaves| - 1].name)
  {}

  lemma ProviderIsDeclared(l: LayoutLeaf)
    requires WfLeaf(l) && PaneOk(l) && l.name != "cmd"
    ensures l.provider.Some? && IsDeclared(DeclaredAgent(l.name, l.provider.value, ModeOf(l)), l.name)
  {}

  /** What was declared came from panes: agents with a provider, `cmd` without. */
  lemma {:induction false} DeclaredPanes(leaves: seq<LayoutLeaf>)
    requires AllWf(leaves) && Declarations(leaves).Some?
    ensures var d := Declarations(leaves).value;
      && (forall i :: 0 <= i < |leaves| ==>
            if Lower(leaves[i].name) == "cmd" then leaves[i].provider.None? && d.cmd
            else leaves[i].provider.Some? && leaves[i].name in d.names)
      && forall n :: n in d.names ==> Shows(leaves, n) && Lower(n) != "cmd"
    decreases |leaves|
  {
    hide WfLeaf, Trim, Lower, Shows;
    if leaves != [] {
      var init, last := leaves[..|leaves| - 1], leaves[|leaves| - 1];
      DeclaredPanes(init);
      PaneToken(last);
      assert forall i :: 0 <= i < |init| ==> leaves[i] == init[i];
      forall n ensures Shows(leaves, n) <==> Shows(init, n) || last.name == n { ShowsSnoc(leaves, n); }
    }
  }

  // ---- Loading ----

  lemma DeclaredSpecOk(s: AgentSpec, n: string)
    requires IsDeclared(s, n)
    ensures SpecOk(s) && NormalSpec(s).name == n
  {
    hide Trim, Lower, IsAgentName, NormalizeAgentName;
    NormalizeFixpoint(n);
    assert Trimmed(".");
    TrimOfTrimmed(".");
    ProviderNotBlank(s.provider);
  }

  lemma ProviderNotBlank(p: string)
    requires IsProvider(p)
    ensures Lower(Trim(p)) != ""
  {
    hide Trim, Lower;
    assert InClass(ProviderChar, p[0]) && InClass(ProviderChar, p[|p| - 1]);
    TrimOfTrimmed(p);
  }

  lemma {:induction false} NamesAreNormal(names: seq<string>)
    requires forall n :: n in names ==> IsAgentName(n)
    ensures NormalizeAll(names) == Planned(names)
  {
    hide IsAgentName, NormalizeAgentName;
    if names != [] {
      NormalizeFixpoint(names[0]);
      NamesAreNormal(names[1..]);
      assert names == [names[0]] + names[1..];
    }
  }

  /** Agents declared under normal names normalise under the same names. */
  lemma DeclaredNormalize(agents: map<string, AgentSpec>)
    requires forall n :: n in agents ==> IsDeclared(agents[n], n)
    ensures AgentsNormalize(agents) && NormalAgents(agents).Keys == agents.Keys
    ensures forall n :: n in NormalAgents(agents) ==> NormalAgents(agents)[n].name == n && IsAgentName(n)
  {
    hide SpecOk, NormalSpec, IsAgentName, IsProvider;
    forall n | n in agents ensures SpecOk(agents[n]) && NormalSpec(agents[n]).name == n {
      DeclaredSpecOk(agents[n], n);
    }
    NormalAgentsNamed(agents);
    forall n | n in agents ensures n in NormalAgents(agents) { AgentAt(agents, n); }
    forall n | n in NormalAgents(agents) ensures n in agents { var j := AgentFrom(agents, n); }
  }

  /** A layout with acceptable panes makes a valid configuration of what it declares. */
  lemma LoadableNormalizes(n: LayoutNode, d: Declared)
    requires WfTree(n) && Loadable(n.Leaves()) && Declarations(n.Leaves()) == Some(d)
    ensures d.names != [] && Normalized(ConfigOf(d, Render(n))).Done?
  {
    hide Declarations, IsDeclared, IsAgentName, PaneOk, ParseLayout, Render, Trim, AgentsNormalize, NormalAgents,
         NormalizeAll, AgentsOk, DefaultsOk, LayoutOk, UiOk, Shows, Normalized;
    var leaves, c := n.Leaves(), ConfigOf(d, Render(n));
    WfTreeLeaves(n);
    Declares(leaves);
    var i :| 0 <= i < |leaves| && leaves[i].name != "cmd";
    IsShown(leaves, i);
    forall a | a in d.names ensures IsAgentName(a) { DeclaredIsName(d.agents[a], a); }
    NamesAreNormal(d.names);
    DeclaredNormalize(d.agents);
    RenderIsTrimmed(n);
    TrimOfTrimmed(Render(n));
    var e := Signed(c.(agents := NormalAgents(d.agents), windowsExplicit := Some(false)));
    var flat := ConfigNormalizing.FlatOf(e);
    NormalDefaultsOk(flat);
    NormalAgentsOk(flat);
    var arranged := c.(agents := NormalAgents(d.agents), windowsExplicit := Some(false));
    PlainUi(arranged);
    FilledIsOk(arranged);
    LoadableLayoutOk(n, d, flat);
    FlatNormalizes(d, Render(n));
  }

  /** What is left to check of a declared configuration whose agents and defaults are normal. */
  lemma FlatNormalizes(d: Declared, layoutSpec: string)
    requires AgentsNormalize(d.agents) && NormalizeAll(d.names) == Planned(d.names) && Trim(layoutSpec) != ""
    requires var c := ConfigOf(d, layoutSpec);
      var e := Signed(c.(agents := NormalAgents(d.agents), windowsExplicit := Some(false)));
      var flat := ConfigNormalizing.FlatOf(e);
      AgentsOk(flat) && DefaultsOk(flat) && LayoutOk(flat) && UiOk(e)
    ensures Normalized(ConfigOf(d, layoutSpec)).Done?
  {
    hide AgentsNormalize, NormalAgents, NormalizeAll, AgentsOk, DefaultsOk, LayoutOk, UiOk, Trim;
  }

  lemma PlainUi(c: Config)
    requires c.tools.None? && c.sidebar.None? && c.sidebarView.None? && c.heartbeat.None?
    ensures UiOk(c)
  {}

  lemma DeclaredIsName(s: AgentSpec, n: string)
    requires IsDeclared(s, n)
    ensures IsAgentName(n)
  {}

  lemma IsShown(leaves: seq<LayoutLeaf>, i: nat)
    requires i < |leaves|
    ensures Shows(leaves, leaves[i].name)
  {}

  lemma NormalAgentsOk(c: FlatConfig)
    requires c.agents != map[] && forall n :: n in c.agents ==> IsAgentName(n) && c.agents[n] == n
    ensures AgentsOk(c)
  {
    hide IsAgentName, NormalizeAgentName;
    forall n | n in c.agents ensures NormalizeAgentName(n) == Some(n) { NormalizeFixpoint(n); }
  }

  lemma LoadableLayoutOk(n: LayoutNode, d: Declared, c: FlatConfig)
    requires WfTree(n) && Loadable(n.Leaves())
    requires d.cmd <==> Shows(n.Leaves(), "cmd")
    requires forall a :: a in d.names <==> Shows(n.Leaves(), a) && a != "cmd"
    requires c.defaultAgents == d.names && c.cmdEnabled == d.cmd && c.layoutSpec == Some(Render(n))
    ensures LayoutOk(c)
  {
    hide ParseLayout, Render, PaneOk;
    ParseRender(n);
    NormLeaves(n);
    NamesOfLeaves(n);
    var names := n.Names();
    forall a ensures a in names <==> Shows(n.Leaves(), a) {}
    assert (set x | x in names) == ExpectedNames(c);
  }

  /** The panes of a loaded document are acceptable. */
  lemma LoadedIsLoadable(n: LayoutNode, d: Declared)
    requires WfTree(n) && Declarations(n.Leaves()) == Some(d) && d.names != []
    requires Normalized(ConfigOf(d, Render(n))).Done?
    ensures Loadable(n.Leaves())
  {
    hide Declarations, IsAgentName, ParseLayout, Render, Trim, Lower, AgentsNormalize, NormalAgents, NormalizeAll,
         AgentsOk, DefaultsOk, ValidConfig, PaneOk;
    var leaves := n.Leaves();
    WfTreeLeaves(n);
    DeclaredPanes(leaves);
    RenderIsTrimmed(n);
    TrimOfTrimmed(Render(n));
    LoadedIsValid(d, Render(n));
    LoadedDefaults(d, Render(n));
    var c := ConfigNormalizing.FlatOf(Normalized(ConfigOf(d, Render(n))).config);
    ParseRender(n);
    NormLeaves(n);
    NamesOfLeaves(n);
    ExpectedAreLoadable(leaves, n.Names(), d, c);
  }

  lemma ExpectedAreLoadable(leaves: seq<LayoutLeaf>, names: seq<string>, d: Declared, c: FlatConfig)
    requires |names| == |leaves| > 0 && forall i :: 0 <= i < |leaves| ==> names[i] == leaves[i].name
    requires forall i :: 0 <= i < |leaves| ==>
               if Lower(leaves[i].name) == "cmd" then leaves[i].provider.None? && d.cmd else leaves[i].provider.Some?
    requires d.names != [] && forall a :: a in d.names ==> Shows(leaves, a) && Lower(a) != "cmd"
    requires forall a :: a in c.defaultAgents ==> IsAgentName(a)
    requires (set x | x in names) == ExpectedNames(c) && Distinct(names) && (c.cmdEnabled ==> names[0] == "cmd")
    requires c.cmdEnabled == d.cmd
    ensures Loadable(leaves)
  {
    hide IsAgentName, PaneOk, Lower;
    CmdIsLower();
    forall i | 0 <= i < |leaves| ensures PaneOk(leaves[i]) {
      assert names[i] in names && names[i] in ExpectedNames(c);
      ExpectedIsOk(leaves[i]);
    }
    assert d.names[0] in d.names;
    assert exists k :: 0 <= k < |leaves| && leaves[k].name != "cmd";
  }

  lemma CmdIsLower()
    ensures Lower("cmd") == "cmd"
  {}

  lemma ExpectedIsOk(l: LayoutLeaf)
    requires l.name == "cmd" || IsAgentName(l.name)
    requires Lower(l.name) == "cmd" <==> l.provider.None?
    ensures PaneOk(l)
  {
    CmdIsLower();
    if IsAgentName(l.name) { NormalizeFixpoint(l.name); }
  }

  lemma LoadedDefaults(d: Declared, layoutSpec: string)
    requires Normalized(ConfigOf(d, layoutSpec)).Done? && layoutSpec != [] && Trim(layoutSpec) == layoutSpec
    ensures var c := Normalized(ConfigOf(d, layoutSpec)).config;
      && c.layoutSpec == Some(layoutSpec) && c.cmdEnabled == d.cmd
      && forall n :: n in c.defaultAgents ==> IsAgentName(n)
  {
    hide AgentsNormalize, NormalAgents, NormalizeAll, ValidConfig, Trim, IsAgentName;
    NormalizeAllFixed(d.names);
  }

  /** A compact document loads exactly when its text is a layout whose panes are acceptable. In particular an agent
      written with an upper-case letter is rejected, because the layout then lacks the normalised name. */
  lemma LoadsExactly(text: string)
    ensures Load(text).Some? <==>
            && Classify(Lines(text)) == Compact && ParseLayout(JoinBodies(Lines(text))).Ok?
            && Loadable(ParseLayout(JoinBodies(Lines(text))).value.Leaves())
  {
    hide ParseLayout, Render, JoinBodies, Classify, Lines, Normalized, Declarations, PaneOk;
    var lines := Lines(text);
    var layout := ParseLayout(JoinBodies(lines));
    if layout.Ok? {
      var n := layout.value;
      BlankIsNoLayout(lines);
      ReparseIsStable(JoinBodies(lines), n);
      if Loadable(n.Leaves()) {
        WfTreeLeaves(n);
        Declares(n.Leaves());
        LoadableNormalizes(n, Declarations(n.Leaves()).value);
      }
      if Declarations(n.Leaves()).Some? {
        var d := Declarations(n.Leaves()).value;
        if d.names != [] && Normalized(ConfigOf(d, Render(n))).Done? { LoadedIsLoadable(n, d); }
      }
    }
  }

  lemma BlankIsNoLayout(lines: seq<string>)
    requires ParseLayout(JoinBodies(lines)).Ok?
    ensures JoinBodies(lines) != ""
  {
    hide JoinBodies;
    assert Lines("") == [];
  }

  /** An agent written with an upper-case letter. */
  lemma UpperCaseAgentIsRejected()
    ensures Load("A:codex\n").None?
  {
    hide Load;
    var l := LayoutLeaf("A", Some("codex"), None, None);
    assert IsName("A") && IsProvider("codex");
    assert Render(Leaf(l)) == "A:codex" && "A:codex" + "\n" == "A:codex\n";
    assert LowerChar('A') == 'a';
    assert Lower("A")[0] == 'a';
    assert !PaneOk(l);
    assert Leaf(l).Leaves()[0] == l;
    LoadableTextLoads(Leaf(l));
  }

  /** So every layout with acceptable panes loads from its own text. */
  lemma LoadableTextLoads(n: LayoutNode)
    requires WfTree(n)
    ensures Load(Render(n) + "\n").Some? <==> Loadable(n.Leaves())
  {
    hide Render, Lines, Body, ParseLayout, Loadable, Load;
    LoadsExactly(Render(n) + "\n");
    RenderedLine(n);
    RenderIsTrimmed(n);
    ParseRender(n);
    NormLeaves(n);
    var lines := [Render(n)];
    assert lines[..0] == [] && JoinBodies([]) == "";
    assert JoinBodies(lines) == Render(n);
    assert Classify(lines) == Compact;
  }
}
