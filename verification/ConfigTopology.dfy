/** The topology of a configuration, agent windows before tool windows, and what a shared name does to a reload. */
module ConfigTopologies {
  import opened Text
  import opened Layout
  import opened LeafToken
  import opened LayoutParsing
  import opened RoundTrip
  import opened AgentNames
  import opened UiSpecs
  import opened AgentSpecs
  import opened LayoutPlanning
  import opened BalancedLayout
  import opened AppendPlanning
  import opened AdditiveWindows
  import C = ConfigNormalizing

  function AgentWindow(w: C.WindowSpec): TopologyWindow { TopologyWindow(w.name, w.agentNames, w.layoutSpec, false) }

  function ToolWindow(name: string): TopologyWindow { TopologyWindow(name, [], "", true) }

  function Topology(windows: seq<C.WindowSpec>, tools: seq<ToolWindowSpec>): seq<TopologyWindow> {
    seq(|windows|, i requires 0 <= i < |windows| => AgentWindow(windows[i])) +
    seq(|tools|, i requires 0 <= i < |tools| => ToolWindow(tools[i].name))
  }

  function WindowsOf(c: C.Config): seq<C.WindowSpec> { if c.windows.Some? then c.windows.value else [] }

  function ConfigTopology(c: C.Config): seq<TopologyWindow> { Topology(WindowsOf(c), C.ToolsOf(c)) }

  /** `build_namespace_topology`. */
  method BuildNamespaceTopology(c: C.Config) returns (topology: seq<TopologyWindow>)
    ensures topology == ConfigTopology(c)
  {
    topology := [];
    if c.windows.Some? {
      for i := 0 to |c.windows.value|
        invariant topology == Topology(c.windows.value[..i], [])
      {
        topology := topology + [AgentWindow(c.windows.value[i])];
      }
      assert c.windows.value[..|c.windows.value|] == c.windows.value;
    }
    if c.tools.Some? {
      ghost var agentWindows := topology;
      for i := 0 to |c.tools.value|
        invariant topology == agentWindows + Topology([], c.tools.value[..i])
      {
        topology := topology + [ToolWindow(c.tools.value[i].name)];
      }
      assert c.tools.value[..|c.tools.value|] == c.tools.value;
    }
  }

  /** The windows of a topology, one by one. */
  lemma TopologyExactly(windows: seq<C.WindowSpec>, tools: seq<ToolWindowSpec>)
    ensures var t := Topology(windows, tools);
      && |t| == |windows| + |tools|
      && (forall i :: 0 <= i < |windows| ==>
            t[i] == TopologyWindow(windows[i].name, windows[i].agentNames, windows[i].layoutSpec, false))
      && forall i :: 0 <= i < |tools| ==> t[|windows| + i] == TopologyWindow(tools[i].name, [], "", true)
  {}

  predicate HasTool(tools: seq<ToolWindowSpec>, n: string) { exists i :: 0 <= i < |tools| && tools[i].name == n }

  predicate DistinctWindows(windows: seq<C.WindowSpec>) {
    forall i, j :: 0 <= i < j < |windows| ==> windows[i].name != windows[j].name
  }

  /** The agents of the windows called `n`. */
  function AgentsNamed(windows: seq<C.WindowSpec>, n: string): set<string> {
    set w, a | w in windows && w.name == n && a in CleanNames(w.agentNames) :: a
  }

  // ---- What the map of a topology holds ----

  lemma TopologyMembers(windows: seq<C.WindowSpec>, tools: seq<ToolWindowSpec>, w: TopologyWindow)
    ensures w in Topology(windows, tools) <==>
      (exists v :: v in windows && w == AgentWindow(v)) || (w == ToolWindow(w.name) && HasTool(tools, w.name))
  {
    var t := Topology(windows, tools);
    if v :| v in windows && w == AgentWindow(v) {
      var i :| 0 <= i < |windows| && windows[i] == v;
      assert t[i] == w;
    }
    if w == ToolWindow(w.name) && HasTool(tools, w.name) {
      var i :| 0 <= i < |tools| && tools[i].name == w.name;
      assert t[|windows| + i] == w;
    }
  }

  lemma NoToolAgents(n: string)
    ensures WindowAgents(ToolWindow(n)) == []
  {}

  /** A tool window hides the agent window of its name. */
  lemma {:induction false} ToolHides(windows: seq<C.WindowSpec>, tools: seq<ToolWindowSpec>, n: string)
    requires HasTool(tools, n)
    ensures n in WindowMap(Topology(windows, tools)) && WindowMap(Topology(windows, tools))[n] == ToolWindow(n)
    decreases |tools|
  {
    hide WindowMap, Topology;
    var init, last := tools[..|tools| - 1], tools[|tools| - 1];
    TopologySnoc(windows, tools);
    LastCounts(Topology(windows, init), ToolWindow(last.name));
    if last.name != n {
      var i :| 0 <= i < |tools| && tools[i].name == n;
      assert init[i] == tools[i];
      ToolHides(windows, init, n);
    }
  }

  lemma TopologySnoc(windows: seq<C.WindowSpec>, tools: seq<ToolWindowSpec>)
    requires tools != []
    ensures Topology(windows, tools) == Topology(windows, tools[..|tools| - 1]) + [ToolWindow(tools[|tools| - 1].name)]
  {}

  lemma LastCounts(topology: seq<TopologyWindow>, w: TopologyWindow)
    ensures WindowMap(topology + [w]) == WindowMap(topology)[w.name := w]
  {
    assert (topology + [w])[..|topology|] == topology;
  }

  /** Otherwise the map has the agent window, the only one of its name. */
  lemma AgentWindowIsMapped(windows: seq<C.WindowSpec>, tools: seq<ToolWindowSpec>, n: string)
    requires DistinctWindows(windows) && !HasTool(tools, n) && n in WindowMap(Topology(windows, tools))
    ensures NamedAgents(Topology(windows, tools), n) == AgentSet(WindowMap(Topology(windows, tools))[n])
  {
    hide WindowAgents, WindowMap, HasTool;
    var t := Topology(windows, tools);
    var w := WindowMap(t)[n];
    TopologyMembers(windows, tools, w);
    forall x | x in t && x.name == n ensures x == w { TopologyMembers(windows, tools, x); }
  }

  lemma NamedInWindows(windows: seq<C.WindowSpec>, tools: seq<ToolWindowSpec>, n: string)
    ensures NamedAgents(Topology(windows, tools), n) == AgentsNamed(windows, n)
  {
    hide CleanNames, HasTool;
    NoToolAgents(n);
    var t := Topology(windows, tools);
    forall a ensures a in NamedAgents(t, n) <==> a in AgentsNamed(windows, n) {
      if a in NamedAgents(t, n) {
        var w :| w in t && w.name == n && a in WindowAgents(w);
        TopologyMembers(windows, tools, w);
        assert w != ToolWindow(n);
        var v :| v in windows && w == AgentWindow(v);
        assert v.name == n && a in CleanNames(v.agentNames);
      }
      if a in AgentsNamed(windows, n) {
        var v :| v in windows && v.name == n && a in CleanNames(v.agentNames);
        TopologyMembers(windows, tools, AgentWindow(v));
        assert AgentWindow(v) in t && a in WindowAgents(AgentWindow(v));
      }
    }
  }

  // ---- Reloading from one configuration to another ----

  /** An agent window that shares its name with a new tool window has an agent that the old one of the name lacked. */
  ghost predicate HiddenGrowth(c: C.Config, d: C.Config, n: string) {
    HasTool(C.ToolsOf(d), n) && !(AgentsNamed(WindowsOf(d), n) <= AgentsNamed(WindowsOf(c), n))
  }

  lemma WindowsAreDistinct(c: C.Config)
    requires C.ValidConfig(c)
    ensures DistinctWindows(WindowsOf(c))
  {
    hide AgentsOk, DefaultsOk, LayoutOk, C.UiOk, C.WindowOk, C.WindowAgents, Distinct;
  }

  /** Between two configurations that validation accepts, if every kept window has a plan and none shrinks, all new
      agents are in brand-new windows or planned exactly when no agent window gained one behind a tool window of its
      name: validation keeps agent windows apart and tool windows apart, but not the ones from the others. */
  lemma ConfigTargetsArePlanned(c: C.Config, d: C.Config)
    requires C.ValidConfig(c) && C.ValidConfig(d)
    requires var old_, new_ := ConfigTopology(c), ConfigTopology(d);
      NothingShrinks(old_, new_) && forall n :: n in Kept(old_, new_) ==> KeptPlan(old_, new_, n).Plan?
    ensures var old_, new_ := ConfigTopology(c), ConfigTopology(d);
      NewAgentTargets(old_, new_) == BrandNewTargets(old_, new_) +
          PlannedTargets(PlansIn(Kept(old_, new_), old_, new_), old_)
      <==> forall n :: n in Kept(old_, new_) ==> !HiddenGrowth(c, d, n)
  {
    hide WindowMap, WindowAgents, KeptPlan, NewAgentTargets, BrandNewTargets, PlannedTargets, PlansIn, Topology,
         NamedAgents, HiddenGrowth, MapsSuffice, Shrinks, C.ValidConfig, DistinctWindows;
    var old_, new_ := ConfigTopology(c), ConfigTopology(d);
    WindowsAreDistinct(c);
    WindowsAreDistinct(d);
    TargetsArePlanned(old_, new_);
    forall n | n in Kept(old_, new_) ensures MapsSuffice(old_, new_, n) <==> !HiddenGrowth(c, d, n) {
      assert !Shrinks(WindowMap(old_)[n], WindowMap(new_)[n]) && KeptPlan(old_, new_, n).Plan?;
      KeptSuffices(c, d, n);
    }
  }

  lemma KeptSuffices(c: C.Config, d: C.Config, n: string)
    requires DistinctWindows(WindowsOf(c)) && DistinctWindows(WindowsOf(d))
    requires n in Kept(ConfigTopology(c), ConfigTopology(d))
    requires var old_, new_ := ConfigTopology(c), ConfigTopology(d);
      KeptPlan(old_, new_, n).Plan? && !Shrinks(WindowMap(old_)[n], WindowMap(new_)[n])
    ensures MapsSuffice(ConfigTopology(c), ConfigTopology(d), n) <==> !HiddenGrowth(c, d, n)
  {
    hide WindowMap, WindowAgents, Topology, NamedAgents, AgentsNamed, WindowPlan, HasTool, DistinctWindows;
    var old_, new_ := ConfigTopology(c), ConfigTopology(d);
    var oldTools, newTools := C.ToolsOf(c), C.ToolsOf(d);
    NoToolAgents(n);
    NamedInWindows(WindowsOf(c), oldTools, n);
    NamedInWindows(WindowsOf(d), newTools, n);
    if HasTool(newTools, n) {
      ToolHides(WindowsOf(d), newTools, n);
    } else {
      AgentWindowIsMapped(WindowsOf(d), newTools, n);
    }
    if HasTool(oldTools, n) {
      ToolHides(WindowsOf(c), oldTools, n);
      FromToolNothingGrows(WindowMap(new_)[n], n);
      assert AgentSet(WindowMap(new_)[n]) == {};
    } else {
      AgentWindowIsMapped(WindowsOf(c), oldTools, n);
    }
    DifferenceIsEmpty(NamedAgents(new_, n), NamedAgents(old_, n));
  }

  lemma DifferenceIsEmpty<T>(a: set<T>, b: set<T>)
    ensures a - b == {} <==> a <= b
  {
    assert a - b == {} ==> forall x :: x in a ==> x !in a - b;
  }

  /** A tool window has no layout, so nothing can be appended to it. */
  lemma FromToolNothingGrows(new_: TopologyWindow, n: string)
    requires WindowPlan(ToolWindow(n), new_).Plan?
    ensures WindowAgents(new_) == []
  {
    hide WindowAgents, ParseLayout;
    NoToolAgents(n);
    EmptyIsNoLayout();
  }

  lemma EmptyIsNoLayout()
    ensures ParseLayout("").Err?
  {
    assert Lines("") == [];
  }

  // ---- An accepted pair of configurations with hidden growth ----

  /** Agents `names` in one window called `w`, beside a tool window called `w`. */
  function SharedName(names: seq<string>, layout: string): C.Config {
    var agents := map n | n in names ::
      AgentSpec(n, "codex", ".", Inplace, None, None, None, None, None, None, [], None);
    var window, tool := C.WindowSpec("w", 0, layout, names), ToolWindowSpec("w", 0, "htop", None, true);
    C.Config(2, ["a"], agents, false, None, Some([window]), Some([tool]), Some("w"), None, None, None, Some(true), None)
  }

  lemma OneLetterNames(n: string)
    requires n == "a" || n == "b"
    ensures NormalizeAgentName(n) == Some(n) && Trim(n) == n
  {
    hide Trim;
    assert IsAgentName(n);
    NormalizeFixpoint(n);
    AgentNameIsTrimmed(n);
    TrimOfTrimmed(n);
  }

  lemma CleanOneLetterNames(names: seq<string>)
    requires names == ["a"] || names == ["a", "b"]
    ensures CleanNames(names) == names
  {
    hide Trim;
    OneLetterNames("a");
    OneLetterNames("b");
    assert ["a", "b"][1..] == ["b"];
    assert CleanNames([]) == [];
    assert CleanNames(["b"]) == ["b"] + CleanNames([]);
  }

  /** The pane `B` is added to a window: its agent is called `b`, the plan would name `B`, so there is none. */
  lemma UpperCasePaneGetsNoPlan()
    ensures var old_ := AgentWindow(C.WindowSpec("w", 0, "a:codex", ["a"]));
            var new_ := AgentWindow(C.WindowSpec("w", 0, "a:codex; B:codex", ["a", "b"]));
            WindowPlan(old_, new_) == NoPlan
  {
    hide WindowAgents, ListsNormalised, WindowPlan, PlanTrees, ParseLayout, Lower;
    var old_ := AgentWindow(C.WindowSpec("w", 0, "a:codex", ["a"]));
    var new_ := AgentWindow(C.WindowSpec("w", 0, "a:codex; B:codex", ["a", "b"]));
    UpperCasePane();
    LowerLetters();
    WindowLists("a:codex", ["a"], ["a"]);
    WindowLists("a:codex; B:codex", ["a", "b"], ["a", "B"]);
    GrownWindowPlan(old_, new_);
    WindowPlanPanics(old_, new_);
    CountNames(ParseLayout("a:codex").value);
    CountNames(ParseLayout("a:codex; B:codex").value);
    assert ParseLayout("a:codex; B:codex").value.Names()[1] == "B" && Lower("B") != "B";
    assert !WindowPlan(old_, new_).Plan?;
  }

  lemma WindowLists(layout: string, agents: seq<string>, panes: seq<string>)
    requires agents == ["a"] || agents == ["a", "b"]
    requires ParseLayout(layout).Ok? && ParseLayout(layout).value.Names() == panes && LowerNames(panes) == agents
    ensures var w := AgentWindow(C.WindowSpec("w", 0, layout, agents)); ListsNormalised(w) && WindowAgents(w) == agents
  {
    hide CleanNames, ParseLayout;
    CleanOneLetterNames(agents);
  }

  lemma LowerLetters()
    ensures Lower("a") == "a" && Lower("B") == "b" && LowerNames(["a"]) == ["a"] && LowerNames(["a", "B"]) == ["a", "b"]
  {
    assert Lower("a") == "a" && Lower("B") == "b";
  }

  lemma UpperCasePane()
    ensures ParseLayout("a:codex").Ok? && ParseLayout("a:codex").value.Names() == ["a"]
    ensures ParseLayout("a:codex; B:codex").Ok? && ParseLayout("a:codex; B:codex").value.Names() == ["a", "B"]
  {
    hide ParseLayout;
    var a, b := Leaf(LayoutLeaf("a", Some("codex"), None, None)), Leaf(LayoutLeaf("B", Some("codex"), None, None));
    var both := Split(Horizontal, a, b);
    assert IsName("a") && IsName("B") && IsProvider("codex");
    assert Render(a) == "a:codex" && Render(b) == "B:codex";
    assert Render(both) == "a:codex" + [Separator(Horizontal), ' '] + "B:codex" == "a:codex; B:codex";
    ParseRender(a);
    ParseRender(both);
  }

  lemma SharedNameIsValid(names: seq<string>, layout: string)
    requires names == ["a"] || names == ["a", "b"]
    requires Trimmed(layout) && layout != ""
    ensures C.ValidConfig(SharedName(names, layout))
  {
    hide AgentsOk, DefaultsOk, C.UiOk, C.WindowsOk, Trim;
    SharedTexts(layout);
    SharedAgentsOk(names, layout);
    SharedUiOk(names, layout);
    SharedWindowsOk(names, layout);
  }

  lemma SharedAgentsOk(names: seq<string>, layout: string)
    requires names == ["a"] || names == ["a", "b"]
    ensures var flat := C.FlatOf(SharedName(names, layout)); AgentsOk(flat) && DefaultsOk(flat)
  {
    hide NormalizeAgentName;
    var flat := C.FlatOf(SharedName(names, layout));
    assert "a" in names by { assert names[0] == "a"; }
    forall n | n in names ensures NormalizeAgentName(n) == Some(n) { OneLetterNames(n); }
    assert "a" in flat.agents && forall n :: n in flat.agents ==> flat.agents[n] == n;
  }

  lemma SharedUiOk(names: seq<string>, layout: string)
    requires WindowName("w") == Some("w") && Trim("htop") != ""
    ensures C.UiOk(SharedName(names, layout))
  {
    hide Trim, WindowName;
  }

  lemma SharedWindowsOk(names: seq<string>, layout: string)
    requires names == ["a"] || names == ["a", "b"]
    requires Trim(layout) != "" && WindowName("w") == Some("w")
    ensures C.WindowsOk(SharedName(names, layout))
  {
    hide NormalizeAgentName, Trim, C.WindowAgents, WindowName;
    var c := SharedName(names, layout);
    var w := WindowsOf(c)[0];
    forall n | n in names ensures NormalizeAgentName(n) == Some(n) { OneLetterNames(n); }
    assert C.WindowOk(w);
    WindowsOfShared(names, layout);
    assert c.windows.value == [w] && w.name == "w";
    assert Distinct(names) && (set a | a in names) == c.agents.Keys;
  }

  lemma SharedTexts(layout: string)
    requires Trimmed(layout) && layout != ""
    ensures Trim(layout) != "" && WindowName("w") == Some("w") && Trim("htop") != ""
  {
    hide Trim;
    assert Trimmed("w") && Trimmed("htop");
    TrimOfTrimmed(layout);
    TrimOfTrimmed("w");
    TrimOfTrimmed("htop");
  }

  lemma WindowsOfShared(names: seq<string>, layout: string)
    ensures C.WindowAgents([C.WindowSpec("w", 0, layout, names)]) == names
  {
    var ws := [C.WindowSpec("w", 0, layout, names)];
    assert ws[..0] == [] && C.WindowAgents([]) == [];
  }

  /** The agent `b` is added to the window: no plan mentions it and no brand-new window has it. */
  lemma ToolWindowHidesGrowth()
    ensures var c, d := SharedName(["a"], "a:codex"), SharedName(["a", "b"], "a:codex; b:codex");
      var old_, new_ := ConfigTopology(c), ConfigTopology(d);
      && C.ValidConfig(c) && C.ValidConfig(d)
      && NothingShrinks(old_, new_) && "w" in Kept(old_, new_)
      && (forall n :: n in Kept(old_, new_) ==> KeptPlan(old_, new_, n) == Plan([]))
      && ("w", "b") in NewAgentTargets(old_, new_)
      && ("w", "b") !in BrandNewTargets(old_, new_) + PlannedTargets(PlansIn(Kept(old_, new_), old_, new_), old_)
  {
    hide WindowMap, WindowAgents, ParseLayout, C.ValidConfig;
    var c, d := SharedName(["a"], "a:codex"), SharedName(["a", "b"], "a:codex; b:codex");
    var old_, new_ := ConfigTopology(c), ConfigTopology(d);
    SharedNameIsValid(["a"], "a:codex");
    SharedNameIsValid(["a", "b"], "a:codex; b:codex");
    OnlyW(c);
    OnlyW(d);
    NoToolAgents("w");
    TargetIsPlanned(old_, new_, "w", "b");
    AgentsOfW(["a"], "a:codex");
    AgentsOfW(["a", "b"], "a:codex; b:codex");
  }

  lemma OnlyW(c: C.Config)
    requires |WindowsOf(c)| == |C.ToolsOf(c)| == 1 && WindowsOf(c)[0].name == "w" && C.ToolsOf(c)[0].name == "w"
    ensures WindowMap(ConfigTopology(c)) == map["w" := ToolWindow("w")]
  {
    hide WindowMap;
    var t := ConfigTopology(c);
    ToolHides(WindowsOf(c), C.ToolsOf(c), "w");
    forall n | n in WindowMap(t) ensures n == "w" { TopologyMembers(WindowsOf(c), C.ToolsOf(c), WindowMap(t)[n]); }
  }

  lemma AgentsOfW(names: seq<string>, layout: string)
    requires names == ["a"] || names == ["a", "b"]
    ensures "b" in NamedAgents(ConfigTopology(SharedName(names, layout)), "w") <==> names == ["a", "b"]
  {
    hide CleanNames;
    var c := SharedName(names, layout);
    CleanOneLetterNames(names);
    NamedInWindows(WindowsOf(c), C.ToolsOf(c), "w");
    var w := WindowsOf(c)[0];
    assert w in WindowsOf(c) && forall v :: v in WindowsOf(c) ==> v == w;
    assert "b" in names <==> names == ["a", "b"] by { if names == ["a", "b"] { assert names[1] == "b"; } }
    assert "b" in AgentsNamed(WindowsOf(c), "w") <==> "b" in names;
  }
}
