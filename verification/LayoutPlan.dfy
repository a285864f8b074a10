/** Flat project configurations: the check of the layout against the agents, and the plan of visible panes. */
module LayoutPlanning {
  import opened Text
  import opened Layout
  import opened LeafToken
  import opened Grammar
  import opened LayoutParsing
  import opened RoundTrip
  import opened AgentNames
  import opened Pruning
  import opened BalancedLayout

  /** The part of a configuration without windows that decides its layout. `agents` gives the name in each spec. */
  datatype FlatConfig = FlatConfig(
    defaultAgents: seq<string>, agents: map<string, string>, cmdEnabled: bool, layoutSpec: Option<string>)

  function LayoutText(c: FlatConfig): string { if c.layoutSpec.Some? then c.layoutSpec.value else "" }

  predicate Distinct<T(==)>(s: seq<T>) { forall i, j :: 0 <= i < j < |s| ==> s[i] != s[j] }

  // ---- Validation ----

  predicate DefaultsOk(c: FlatConfig) {
    && c.defaultAgents != []
    && (forall i :: 0 <= i < |c.defaultAgents| ==>
          NormalizeAgentName(c.defaultAgents[i]).Some? && NormalizeAgentName(c.defaultAgents[i]).value in c.agents)
    && (forall i, j :: 0 <= i < j < |c.defaultAgents| ==>
          NormalizeAgentName(c.defaultAgents[i]) != NormalizeAgentName(c.defaultAgents[j]))
  }

  predicate AgentsOk(c: FlatConfig) {
    && c.agents != map[]
    && (forall k :: k in c.agents ==> NormalizeAgentName(k) == Some(c.agents[k]))
    && (forall j, k :: j in c.agents && k in c.agents && j != k ==> c.agents[j] != c.agents[k])
  }

  /** The names the layout must show. */
  function ExpectedNames(c: FlatConfig): set<string> {
    (set n | n in c.defaultAgents) + if c.cmdEnabled then {"cmd"} else {}
  }

  predicate LayoutOk(c: FlatConfig) {
    match ParseLayout(LayoutText(c))
    case Err(_) => false
    case Ok(n) =>
      && (set x | x in n.Names()) == ExpectedNames(c)
      && Distinct(n.Names())
      && (c.cmdEnabled ==> n.Names()[0] == "cmd")
  }

  /** What `ProjectConfig::validate` demands of these fields. */
  predicate ValidFlat(c: FlatConfig) { AgentsOk(c) && DefaultsOk(c) && LayoutOk(c) }

  method CheckDefaults(c: FlatConfig) returns (ok: bool)
    ensures ok <==> DefaultsOk(c)
  {
    hide NormalizeAgentName;
    if c.defaultAgents == [] {
      return false;
    }
    var seen := {};
    for i := 0 to |c.defaultAgents|
      invariant forall k :: 0 <= k < i ==>
                  && NormalizeAgentName(c.defaultAgents[k]).Some?
                  && NormalizeAgentName(c.defaultAgents[k]).value in c.agents
      invariant forall j, k :: 0 <= j < k < i ==>
                  NormalizeAgentName(c.defaultAgents[j]) != NormalizeAgentName(c.defaultAgents[k])
      invariant forall n :: n in seen <==> exists k :: 0 <= k < i && NormalizeAgentName(c.defaultAgents[k]) == Some(n)
    {
      var n := NormalizeAgentName(c.defaultAgents[i]);
      if n.None? || n.value !in c.agents || n.value in seen {
        return false;
      }
      seen := seen + {n.value};
    }
    return true;
  }

  method CheckAgents(c: FlatConfig) returns (ok: bool)
    ensures ok <==> AgentsOk(c)
  {
    hide NormalizeAgentName;
    if c.agents == map[] {
      return false;
    }
    var seen, todo := {}, c.agents.Keys;
    while todo != {}
      invariant todo <= c.agents.Keys
      invariant forall k :: k in c.agents && k !in todo ==> NormalizeAgentName(k) == Some(c.agents[k])
      invariant forall j, k :: j in c.agents && k in c.agents && j !in todo && k !in todo && j != k ==>
                  c.agents[j] != c.agents[k]
      invariant forall n :: n in seen <==> exists k :: k in c.agents && k !in todo && c.agents[k] == n
      decreases |todo|
    {
      var key :| key in todo;
      todo := todo - {key};
      var n := NormalizeAgentName(key);
      if n != Some(c.agents[key]) || n.value in seen {
        return false;
      }
      seen := seen + {n.value};
    }
    return true;
  }

  /** `ProjectConfig::validate` on a configuration without windows. */
  method Validate(c: FlatConfig) returns (ok: bool)
    ensures ok <==> ValidFlat(c)
  {
    hide AgentsOk, DefaultsOk, ParseLayout;
    var agentsOk := CheckAgents(c);
    var defaultsOk := CheckDefaults(c);
    if !agentsOk || !defaultsOk {
      return false;
    }
    var node := ParseLayoutSpec(LayoutText(c));
    if node.Err? {
      return false;
    }
    var names := node.value.Names();
    NamesOfLeaves(node.value);
    var shown := set x | x in names;
    DistinctByCount(names);
    return shown == ExpectedNames(c) && |names| == |shown| && (c.cmdEnabled ==> names[0] == "cmd");
  }

  /** A list has no repetition exactly when it is as long as its set of elements is large. */
  lemma {:induction false} DistinctByCount(s: seq<string>)
    ensures Distinct(s) <==> |s| == |set x | x in s|
    ensures |set x | x in s| <= |s|
  {
    if s == [] {
      assert (set x | x in s) == {};
    } else {
      var last, init := s[|s| - 1], s[..|s| - 1];
      DistinctByCount(init);
      var all, few := set x | x in s, set x | x in init;
      assert all == few + {last};
      if last in few {
        assert all == few;
        var i :| 0 <= i < |init| && init[i] == last;
        assert s[i] == s[|s| - 1] && i < |s| - 1;
      } else {
        assert |all| == |few| + 1;
      }
      assert Distinct(s) ==> Distinct(init) && last !in few;
    }
  }

  // ---- The plan ----

  datatype PlanError = BadAgentName | UnknownAgent | BadLayout | NothingVisible | CmdNotFirst

  datatype LayoutPlan = LayoutPlan(targets: seq<string>, visible: seq<string>, layout: LayoutNode, signature: string)

  datatype PlanResult<+T> = Planned(value: T) | Failed(error: PlanError)

  /** The requested agents, normalised, first occurrences only. */
  function SelectFrom(known: set<string>, requested: seq<string>): PlanResult<seq<string>> {
    if requested == [] then Planned([])
    else
      match SelectFrom(known, requested[..|requested| - 1])
      case Failed(e) => Failed(e)
      case Planned(selected) =>
        match NormalizeAgentName(requested[|requested| - 1])
        case None => Failed(BadAgentName)
        case Some(n) =>
          if n !in known then Failed(UnknownAgent)
          else if n in selected then Planned(selected)
          else Planned(selected + [n])
  }

  function SelectTargets(c: FlatConfig, requested: seq<string>): PlanResult<seq<string>> {
    if requested == [] then Planned(c.defaultAgents) else SelectFrom(c.agents.Keys, requested)
  }

  /** `select_project_layout_targets`. */
  method SelectLayoutTargets(c: FlatConfig, requested: seq<string>) returns (r: PlanResult<seq<string>>)
    ensures r == SelectTargets(c, requested)
  {
    hide NormalizeAgentName;
    if requested == [] {
      return Planned(c.defaultAgents);
    }
    var selected := [];
    for i := 0 to |requested|
      invariant SelectFrom(c.agents.Keys, requested[..i]) == Planned(selected)
    {
      assert requested[..i + 1][..i] == requested[..i];
      var n := NormalizeAgentName(requested[i]);
      if n.None? {
        SelectStops(c.agents.Keys, requested, i + 1);
        return Failed(BadAgentName);
      }
      if n.value !in c.agents.Keys {
        SelectStops(c.agents.Keys, requested, i + 1);
        return Failed(UnknownAgent);
      }
      if n.value !in selected {
        selected := selected + [n.value];
      }
    }
    assert requested[..|requested|] == requested;
    return Planned(selected);
  }

  lemma {:induction false} SelectStops(known: set<string>, requested: seq<string>, i: nat)
    requires i <= |requested| && SelectFrom(known, requested[..i]).Failed?
    ensures SelectFrom(known, requested) == SelectFrom(known, requested[..i])
    decreases |requested|
  {
    if i == |requested| {
      assert requested[..i] == requested;
    } else {
      var init := requested[..|requested| - 1];
      assert init[..i] == requested[..i];
      SelectStops(known, init, i);
    }
  }

  /** A selection succeeds exactly when every request names a known agent; it then holds just those agents, each
      once. */
  lemma {:induction false} SelectionIsRequested(known: set<string>, requested: seq<string>)
    ensures var r := SelectFrom(known, requested);
      && (r.Planned? <==>
            forall i :: 0 <= i < |requested| ==>
              NormalizeAgentName(requested[i]).Some? && NormalizeAgentName(requested[i]).value in known)
      && (r.Planned? ==>
            && Distinct(r.value)
            && forall n :: n in r.value <==>
                 exists i :: 0 <= i < |requested| && NormalizeAgentName(requested[i]) == Some(n))
    decreases |requested|
  {
    hide NormalizeAgentName;
    if requested != [] {
      var init := requested[..|requested| - 1];
      SelectionIsRequested(known, init);
      assert forall i :: 0 <= i < |init| ==> init[i] == requested[i];
      if SelectFrom(known, requested).Planned? {
        var n := NormalizeAgentName(requested[|requested| - 1]).value;
        var before, after := SelectFrom(known, init).value, SelectFrom(known, requested).value;
        assert after == before || after == before + [n];
        assert forall a :: a in after <==> a in before || a == n;
      }
    }
  }

  /** Later requests only add at the end, so agents stand in the order of their first request. */
  lemma {:induction false} SelectionGrows(known: set<string>, requested: seq<string>, i: nat)
    requires i <= |requested| && SelectFrom(known, requested).Planned?
    ensures SelectFrom(known, requested[..i]).Planned?
    ensures SelectFrom(known, requested[..i]).value <= SelectFrom(known, requested).value
    decreases |requested|
  {
    hide NormalizeAgentName;
    if i == |requested| {
      assert requested[..i] == requested;
    } else {
      var init := requested[..|requested| - 1];
      assert init[..i] == requested[..i];
      SelectionGrows(known, init, i);
    }
  }

  function NormalizeAll(names: seq<string>): PlanResult<seq<string>> {
    if names == [] then Planned([])
    else
      match NormalizeAgentName(names[0])
      case None => Failed(BadAgentName)
      case Some(n) =>
        match NormalizeAll(names[1..])
        case Failed(e) => Failed(e)
        case Planned(rest) => Planned([n] + rest)
  }

  function Targets(c: FlatConfig, requested: seq<string>, explicitTargets: Option<seq<string>>)
    : PlanResult<seq<string>>
  {
    match explicitTargets
    case Some(names) => NormalizeAll(names)
    case None => SelectTargets(c, requested)
  }

  function ShownNames(c: FlatConfig, targets: seq<string>): seq<string> {
    (if c.cmdEnabled then ["cmd"] else []) + targets
  }

  /** `build_project_layout_plan`. */
  function BuildLayoutPlan(c: FlatConfig, requested: seq<string>, explicitTargets: Option<seq<string>>)
    : PlanResult<LayoutPlan>
  {
    match Targets(c, requested, explicitTargets)
    case Failed(e) => Failed(e)
    case Planned(targets) =>
      match ParseLayout(LayoutText(c))
      case Err(_) => Failed(BadLayout)
      case Ok(layout) =>
        match PruneLayout(layout, ShownNames(c, targets))
        case None => Failed(NothingVisible)
        case Some(pruned) =>
          if c.cmdEnabled && (pruned.Names() == [] || pruned.Names()[0] != "cmd") then Failed(CmdNotFirst)
          else Planned(LayoutPlan(targets, pruned.Names(), pruned, Render(pruned)))
  }

  function NamesIn(leaves: seq<LayoutLeaf>): seq<string> {
    seq(|leaves|, i requires 0 <= i < |leaves| => leaves[i].name)
  }

  lemma CmdIsShown(c: FlatConfig, targets: seq<string>)
    requires c.cmdEnabled
    ensures "cmd" in IncludeSet(ShownNames(c, targets))
  {
    hide Trim;
    var names := ShownNames(c, targets);
    assert names[0] == "cmd" && "cmd" in names;
    CmdIsTrimmed();
  }

  lemma CmdIsTrimmed()
    ensures Trim("cmd") == "cmd"
  {
    hide Trim;
    assert Trimmed("cmd");
    TrimOfTrimmed("cmd");
  }

  /** Pruning a layout: what is left, and that a shown first pane stays first. */
  lemma PrunedLayout(layout: LayoutNode, shown: set<string>)
    ensures var kept := NamesIn(Filter(layout.Leaves(), shown));
      && (Prune(layout, shown).Some? <==> kept != [])
      && (Prune(layout, shown).Some? ==> Prune(layout, shown).value.Names() == kept)
      && layout.Names() != []
      && (layout.Names()[0] in shown ==> kept != [] && kept[0] == layout.Names()[0])
  {
    PruneFilters(layout, shown);
    NamesOfLeaves(layout);
    if Prune(layout, shown).Some? { NamesOfLeaves(Prune(layout, shown).value); }
  }

  /** On a valid configuration the visible panes are the layout's panes that are shown, in layout order, and `cmd`
      never moves from the front. The only failures left are a bad target and an empty selection. */
  lemma PlanShowsTargets(c: FlatConfig, requested: seq<string>, explicitTargets: Option<seq<string>>)
    requires ValidFlat(c)
    ensures var r, t := BuildLayoutPlan(c, requested, explicitTargets), Targets(c, requested, explicitTargets);
      && r != Failed(CmdNotFirst) && r != Failed(BadLayout)
      && (t.Planned? ==>
            var layout, shown := ParseLayout(LayoutText(c)).value, IncludeSet(ShownNames(c, t.value));
            && (r.Planned? <==> NamesIn(Filter(layout.Leaves(), shown)) != [])
            && (c.cmdEnabled ==> r.Planned?)
            && (r.Planned? ==>
                  && r.value.visible == NamesIn(Filter(layout.Leaves(), shown))
                  && Prune(layout, shown) == Some(r.value.layout)
                  && Signature(layout, ShownNames(c, t.value)) == Some(r.value.signature)
                  && (c.cmdEnabled ==> r.value.visible[0] == "cmd")))
  {
    hide ParseLayout, AgentsOk, DefaultsOk, IncludeSet, ExpectedNames, Distinct, Render, ShownNames, Prune, NamesIn,
         Targets;
    var t := Targets(c, requested, explicitTargets);
    if t.Planned? {
      var layout, names := ParseLayout(LayoutText(c)).value, ShownNames(c, t.value);
      PrunedLayout(layout, IncludeSet(names));
      if c.cmdEnabled { CmdIsShown(c, t.value); }
    } else {
      TargetErrors(c, requested, explicitTargets);
    }
  }

  lemma TargetErrors(c: FlatConfig, requested: seq<string>, explicitTargets: Option<seq<string>>)
    ensures var t := Targets(c, requested, explicitTargets);
            t.Planned? || t.error == BadAgentName || t.error == UnknownAgent
  {
    hide NormalizeAgentName;
    SelectErrors(c.agents.Keys, requested);
    if explicitTargets.Some? { NormalizeErrors(explicitTargets.value); }
  }

  lemma {:induction false} SelectErrors(known: set<string>, requested: seq<string>)
    ensures SelectFrom(known, requested).Failed? ==>
              SelectFrom(known, requested).error == BadAgentName || SelectFrom(known, requested).error == UnknownAgent
  {
    hide NormalizeAgentName;
    if requested != [] { SelectErrors(known, requested[..|requested| - 1]); }
  }

  lemma {:induction false} NormalizeErrors(names: seq<string>)
    ensures NormalizeAll(names).Failed? ==> NormalizeAll(names).error == BadAgentName
  {
    hide NormalizeAgentName;
    if names != [] { NormalizeErrors(names[1..]); }
  }

  lemma LeafNameIsTrimmed(l: LayoutLeaf)
    requires WfLeaf(l)
    ensures Trim(l.name) == l.name && l.name != ""
  {
    hide Trim;
    NameIsTrimmed(l.name);
    TrimOfTrimmed(l.name);
  }

  lemma NameIsTrimmed(s: string)
    requires IsName(s)
    ensures Trimmed(s) && s != ""
  {
    assert InClass(NameChar, s[0]) && InClass(NameChar, s[|s| - 1]);
  }

  /** Without a layout nothing is planned, and no check passes. */
  lemma NoLayoutNoPlan(c: FlatConfig, requested: seq<string>, explicitTargets: Option<seq<string>>)
    requires c.layoutSpec.None?
    ensures !LayoutOk(c) && BuildLayoutPlan(c, requested, explicitTargets).Failed?
  {
    assert Lines("") == [];
  }

  /** The agents a plan starts: the given ones, normalised, in their order and as often as given; without any given, the
      requested ones, or the default agents if nothing was requested. */
  lemma PlanTargets(c: FlatConfig, requested: seq<string>, explicitTargets: Option<seq<string>>)
    requires BuildLayoutPlan(c, requested, explicitTargets).Planned?
    ensures var targets := BuildLayoutPlan(c, requested, explicitTargets).value.targets;
      match explicitTargets
      case Some(names) =>
        |targets| == |names| && forall i :: 0 <= i < |names| ==> NormalizeAgentName(names[i]) == Some(targets[i])
      case None =>
        if requested == [] then targets == c.defaultAgents
        else
          && Distinct(targets)
          && (forall i :: 0 <= i < |requested| ==>
                NormalizeAgentName(requested[i]).Some? && NormalizeAgentName(requested[i]).value in targets)
          && forall n :: n in targets ==>
               n in c.agents && exists i :: 0 <= i < |requested| && NormalizeAgentName(requested[i]) == Some(n)
  {
    hide NormalizeAgentName, ParseLayout, PruneLayout, Render;
    if explicitTargets.Some? {
      EachIsNormalised(explicitTargets.value);
    } else {
      SelectionIsRequested(c.agents.Keys, requested);
    }
  }

  /** All names are normalised, in place, or one is not a name. */
  lemma {:induction false} EachIsNormalised(names: seq<string>)
    ensures NormalizeAll(names).Planned? <==> forall i :: 0 <= i < |names| ==> NormalizeAgentName(names[i]).Some?
    ensures NormalizeAll(names).Planned? ==>
      && |NormalizeAll(names).value| == |names|
      && forall i :: 0 <= i < |names| ==> NormalizeAgentName(names[i]) == Some(NormalizeAll(names).value[i])
  {
    hide NormalizeAgentName;
    if names != [] {
      EachIsNormalised(names[1..]);
      assert forall i :: 1 <= i < |names| ==> names[i] == names[1..][i - 1];
    }
  }

  /** Starting everything shows the whole layout. */
  lemma DefaultPlanShowsAll(c: FlatConfig)
    requires ValidFlat(c)
    ensures var r := BuildLayoutPlan(c, [], None);
            && r.Planned? && Ok(r.value.layout) == ParseLayout(LayoutText(c))
            && r.value.signature == Render(r.value.layout)
  {
    hide AgentsOk, DefaultsOk, Render, Distinct, WfLeaf, Trim, ParseLayout, Prune, NormalizeAgentName;
    var layout := ParseLayout(LayoutText(c)).value;
    var names := ShownNames(c, c.defaultAgents);
    ReparseIsStable(LayoutText(c), layout);
    WfTreeLeaves(layout);
    NamesOfLeaves(layout);
    forall l | l in layout.Leaves() ensures l.name in IncludeSet(names) {
      var i :| 0 <= i < |layout.Leaves()| && layout.Leaves()[i] == l;
      assert l.name in layout.Names() && l.name in ExpectedNames(c);
      assert l.name in names;
      LeafNameIsTrimmed(l);
    }
    PruneToAll(layout, IncludeSet(names));
    if c.cmdEnabled { assert layout.Names()[0] == "cmd"; }
  }

  // ---- The generated layout passes the check ----

  /** A configuration whose layout was generated from its default agents is valid, whatever the modes are, as long as
      the agents are normalised, known and distinct and their providers can be written. */
  lemma GeneratedLayoutIsValid(c: FlatConfig, providers: map<string, string>, modes: map<string, string>)
    requires AgentsOk(c) && c.defaultAgents != [] && Distinct(c.defaultAgents)
    requires forall n :: n in c.defaultAgents ==>
               IsAgentName(n) && n in c.agents && n in providers && IsProvider(providers[n])
    requires c.layoutSpec == Some(Render(Balanced(c.defaultAgents, providers, modes, c.cmdEnabled)))
    ensures ValidFlat(c)
  {
    hide ParseLayout, Balanced, Written, Render, AgentsOk, DefaultsOk, IsProvider, IsAgentName, IsName, Trim;
    NormalDefaultsOk(c);
    forall n | n in c.defaultAgents ensures IsName(n) && n != "cmd" && Trim(n) == n && n != "" {
      NormalizeFixpoint(n);
      TrimmedAgent(n);
    }
    GeneratedLayoutParses(c.defaultAgents, providers, modes, c.cmdEnabled);
    CmdThenDefaults(c, ParseLayout(LayoutText(c)).value.Names());
  }

  /** With any providers whose text has no mark, the generated layout passes the check exactly when every agent with its
      provider reads as a leaf. */
  lemma GeneratedLayoutDecided(c: FlatConfig, providers: map<string, string>, modes: map<string, string>)
    requires AgentsOk(c) && c.defaultAgents != [] && Distinct(c.defaultAgents)
    requires forall n :: n in c.defaultAgents ==>
               IsAgentName(n) && n in c.agents && n in providers && PlainProvider(providers[n])
    requires forall n :: n in c.defaultAgents && n in modes ==> modes[n] != "worktree"
    requires c.layoutSpec == Some(Render(Balanced(c.defaultAgents, providers, modes, c.cmdEnabled)))
    ensures ValidFlat(c) <==> forall n :: n in c.defaultAgents ==> ParseLeaf(n + ":" + providers[n]).Some?
  {
    hide ParseLayout, ParseLeaf, Balanced, Render, AgentsOk, DefaultsOk, PlainProvider, IsAgentName, IsName;
    NormalDefaultsOk(c);
    forall n | n in c.defaultAgents ensures IsName(n) && n != "cmd" { NormalizeFixpoint(n); }
    GeneratedTextParses(c.defaultAgents, providers, modes, c.cmdEnabled);
    if ParseLayout(LayoutText(c)).Ok? { CmdThenDefaults(c, ParseLayout(LayoutText(c)).value.Names()); }
  }

  lemma NormalDefaultsOk(c: FlatConfig)
    requires c.defaultAgents != [] && Distinct(c.defaultAgents)
    requires forall n :: n in c.defaultAgents ==> IsAgentName(n) && n in c.agents
    ensures DefaultsOk(c)
  {
    hide IsAgentName, NormalizeAgentName;
    forall n | n in c.defaultAgents ensures NormalizeAgentName(n) == Some(n) {
      NormalizeFixpoint(n);
    }
  }

  lemma CmdThenDefaults(c: FlatConfig, names: seq<string>)
    requires names == (if c.cmdEnabled then ["cmd"] else []) + c.defaultAgents
    requires Distinct(c.defaultAgents) && "cmd" !in c.defaultAgents
    ensures (set x | x in names) == ExpectedNames(c) && Distinct(names) && (c.cmdEnabled ==> names[0] == "cmd")
  {}

  lemma TrimmedAgent(n: string)
    requires IsAgentName(n)
    ensures Trim(n) == n && n != ""
  {
    hide Trim;
    AgentNameIsTrimmed(n);
    TrimOfTrimmed(n);
  }
}
