/** Normalising a project configuration in place: agents, default agents, windows or generated layout, then the
    check. */
module ConfigNormalizing {
  import opened Text
  import opened Layout
  import opened LeafToken
  import opened AgentNames
  import opened AgentSpecs
  import opened BalancedLayout
  import opened UiSpecs
  import opened LayoutPlanning

  // ---- Agents ----

  /** `canonical_role_id`: two legacy ids have new names. */
  function CanonicalRoleId(id: string): string {
    var normalized := Lower(Trim(id));
    if normalized == "ccbr.archi" then "agentroles.archi"
    else if normalized == "agentrole.ccbr_self" then "agentroles.ccbr_self"
    else normalized
  }

  /** Non-overlapping occurrences of `pattern`. */
  function CountMatches(s: string, pattern: string): nat
    requires pattern != []
    decreases |s|
  {
    if |s| < |pattern| then 0
    else if s[..|pattern|] == pattern then 1 + CountMatches(s[|pattern|..], pattern)
    else CountMatches(s[1..], pattern)
  }

  predicate IsRoleChar(c: char) { 'a' <= c <= 'z' || IsDigit(c) || c == '.' || c == '_' || c == '-' }

  predicate RoleOk(role: string) { role != "" && (forall c :: c in role ==> IsRoleChar(c)) && '.' in role }

  function ModelFlags(provider: string): set<string> {
    var p := Lower(Trim(provider));
    if p == "codex" || p == "gemini" || p == "opencode" then {"-m", "--model"}
    else if p == "claude" then {"--model"}
    else {}
  }

  /** `provider_model_startup_args`. */
  function ModelArgs(provider: string, model: string): Option<seq<string>> {
    var p := Lower(Trim(provider));
    if ModelFlags(provider) == {} || Trim(model) == "" then None
    else Some([if p == "claude" then "--model" else "-m", Trim(model)])
  }

  predicate HasModelFlag(provider: string, args: seq<string>) {
    ModelFlags(provider) != {} &&
    exists i :: 0 <= i < |args| && (args[i] in ModelFlags(provider) || "--model=" <= args[i])
  }

  /** `normalize_startup_args`: a model is compiled to leading arguments, unless they are there already; it must not
      meet another model flag. */
  function NormalArgs(provider: string, model: Option<string>, args: seq<string>): Option<seq<string>> {
    if model.None? then Some(args)
    else
      match ModelArgs(provider, model.value)
      case None => None
      case Some(compiled) =>
        if compiled <= args then (if HasModelFlag(provider, args[|compiled|..]) then None else Some(args))
        else if HasModelFlag(provider, args) then None
        else Some(compiled + args)
  }

  predicate OverridesOk(s: AgentSpec) {
    var path, group, root := s.workspacePath.Some?, s.workspaceGroup.Some?, s.workspaceRoot.Some?;
    && !(path && group) && !(path && root) && !(group && root)
    && (path || group ==> s.mode == GitWorktree && s.branchTemplate.None?)
  }

  function TrimMaybe(o: Option<string>): Option<string> { if o.Some? then Some(Trim(o.value)) else None }

  predicate NotBlank(o: Option<string>) { o.Some? ==> Trim(o.value) != "" }

  /** Everything `AgentSpec::normalize` demands. */
  predicate SpecOk(s: AgentSpec) {
    && NormalizeAgentName(s.name).Some? && Lower(Trim(s.provider)) != "" && Trim(s.target) != ""
    && NotBlank(s.workspaceRoot) && NotBlank(s.workspacePath) && NotBlank(s.model)
    && (s.workspaceGroup.Some? ==> NormalizeAgentName(s.workspaceGroup.value).Some?)
    && (s.commandTemplate.Some? ==> CountMatches(Trim(s.commandTemplate.value), "{command}") == 1)
    && (s.role.Some? ==> RoleOk(Lower(Trim(s.role.value))))
    && OverridesOk(s)
    && NormalArgs(Lower(Trim(s.provider)), NormalModel(s), s.startupArgs).Some?
  }

  function NormalModel(s: AgentSpec): Option<string> {
    if s.model.Some? then Some(CanonicalRoleId(Trim(s.model.value))) else None
  }

  /** `AgentSpec::normalize`. */
  function NormalSpec(s: AgentSpec): AgentSpec
    requires SpecOk(s)
  {
    AgentSpec(
      NormalizeAgentName(s.name).value, Lower(Trim(s.provider)), Trim(s.target), s.mode,
      TrimMaybe(s.workspaceRoot), TrimMaybe(s.workspacePath),
      if s.workspaceGroup.Some? then Some(NormalizeAgentName(s.workspaceGroup.value).value) else None,
      s.branchTemplate, TrimMaybe(s.commandTemplate),
      NormalModel(s), NormalArgs(Lower(Trim(s.provider)), NormalModel(s), s.startupArgs).value,
      if s.role.Some? then Some(CanonicalRoleId(Lower(Trim(s.role.value)))) else None)
  }

  // ---- What normalisation does to an agent, field by field ----

  /** `startup_args_contain_model_flag`. */
  method ContainsModelFlag(provider: string, args: seq<string>) returns (found: bool)
    ensures found <==> HasModelFlag(provider, args)
  {
    hide Trim, Lower;
    if ModelFlags(provider) == {} {
      return false;
    }
    for i := 0 to |args|
      invariant forall k :: 0 <= k < i ==> args[k] !in ModelFlags(provider) && !("--model=" <= args[k])
    {
      if args[i] in ModelFlags(provider) || "--model=" <= args[i] {
        return true;
      }
    }
    return false;
  }

  /** `AgentSpec::normalize_startup_args`, on a normalised provider and model; `None` is an error. */
  method NormalizeStartupArgs(provider: string, model: Option<string>, args: seq<string>)
    returns (r: Option<seq<string>>)
    ensures r == NormalArgs(provider, model, args)
  {
    hide HasModelFlag, Trim, Lower, ModelFlags;
    if model.None? {
      return Some(args);
    }
    var compiled := ModelArgs(provider, model.value);
    if compiled.None? {
      return None;
    }
    var prefix := compiled.value;
    if prefix <= args {
      var clash := ContainsModelFlag(provider, args[|prefix|..]);
      return if clash then None else Some(args);
    }
    var clash := ContainsModelFlag(provider, args);
    return if clash then None else Some(prefix + args);
  }

  /** `AgentSpec::normalize`, step by step; `None` is an error. */
  method NormalizeSpec(s: AgentSpec) returns (r: Option<AgentSpec>)
    ensures r == if SpecOk(s) then Some(NormalSpec(s)) else None
  {
    hide Trim, Lower, NormalizeAgentName, NormalArgs, RoleOk, CanonicalRoleId, CountMatches;
    var name := NormalizeAgentName(s.name);
    if name.None? {
      return None;
    }
    var t := s.(name := name.value, provider := Lower(Trim(s.provider)));
    if t.provider == "" {
      return None;
    }
    t := t.(target := Trim(t.target));
    if t.target == "" {
      return None;
    }
    if t.workspaceRoot.Some? {
      t := t.(workspaceRoot := Some(Trim(t.workspaceRoot.value)));
      if t.workspaceRoot.value == "" {
        return None;
      }
    }
    if t.workspacePath.Some? {
      t := t.(workspacePath := Some(Trim(t.workspacePath.value)));
      if t.workspacePath.value == "" {
        return None;
      }
    }
    if t.workspaceGroup.Some? {
      var group := NormalizeAgentName(t.workspaceGroup.value);
      if group.None? {
        return None;
      }
      t := t.(workspaceGroup := group);
    }
    if t.commandTemplate.Some? {
      t := t.(commandTemplate := Some(Trim(t.commandTemplate.value)));
      if t.commandTemplate.value == "" || CountMatches(t.commandTemplate.value, "{command}") != 1 {
        EmptyHasNoMatch();
        return None;
      }
    }
    if t.model.Some? {
      if Trim(t.model.value) == "" {
        return None;
      }
      t := t.(model := Some(CanonicalRoleId(Trim(t.model.value))));
    }
    if t.role.Some? {
      var role := Lower(Trim(t.role.value));
      if role == "" || !RoleOk(role) {
        EmptyIsNoRole();
        return None;
      }
      t := t.(role := Some(CanonicalRoleId(role)));
    }
    var path, group, root := t.workspacePath.Some?, t.workspaceGroup.Some?, t.workspaceRoot.Some?;
    if (path && group) || (path && root) || (group && root) {
      return None;
    }
    if (path || group) && t.mode != GitWorktree {
      return None;
    }
    if (path || group) && t.branchTemplate.Some? {
      return None;
    }
    var args := NormalizeStartupArgs(t.provider, t.model, t.startupArgs);
    if args.None? {
      return None;
    }
    return Some(t.(startupArgs := args.value));
  }

  lemma EmptyHasNoMatch()
    ensures CountMatches("", "{command}") == 0
  {}

  lemma EmptyIsNoRole()
    ensures !RoleOk("")
  {}

  /** The flag that gives a provider its model. */
  function ModelFlag(provider: string): string { if provider == "claude" then "--model" else "-m" }

  predicate IsModelFlag(provider: string, arg: string) {
    arg == "--model" || (provider != "claude" && arg == "-m") || "--model=" <= arg
  }

  /** An agent with a model is started with it: the arguments begin with the provider's flag and the model, nothing
      after that is a model flag, and what follows are the given arguments, less that beginning if they had it. */
  lemma AgentStartsWithModel(s: AgentSpec)
    requires SpecOk(s) && s.model.Some?
    ensures var t := NormalSpec(s);
      && t.provider in {"codex", "claude", "gemini", "opencode"} && t.model.Some? && t.model.value != ""
      && var prefix := [ModelFlag(t.provider), t.model.value];
         && prefix <= t.startupArgs
         && t.startupArgs == (if prefix <= s.startupArgs then s.startupArgs else prefix + s.startupArgs)
         && forall i :: 2 <= i < |t.startupArgs| ==> !IsModelFlag(t.provider, t.startupArgs[i])
  {
    hide Trim, Lower, NormalizeAgentName, RoleOk, CanonicalRoleId, CountMatches;
    LowerTrimFixpoint(s.provider);
    LowerTrimFixpoint(s.model.value);
    CanonicalFixpoint(Trim(s.model.value));
    var t := NormalSpec(s);
    var prefix, tail := [ModelFlag(t.provider), t.model.value], t.startupArgs[2..];
    assert ModelArgs(t.provider, t.model.value) == Some(prefix);
    assert prefix <= s.startupArgs ==> tail == s.startupArgs[2..];
    assert !(prefix <= s.startupArgs) ==> tail == s.startupArgs;
    assert forall i :: 2 <= i < |t.startupArgs| ==> t.startupArgs[i] == tail[i - 2];
  }

  /** Without a model the arguments stay as they are. */
  lemma AgentWithoutModel(s: AgentSpec)
    requires SpecOk(s) && s.model.None?
    ensures NormalSpec(s).model.None? && NormalSpec(s).startupArgs == s.startupArgs
  {
    hide Trim, Lower, NormalizeAgentName, RoleOk, CanonicalRoleId, CountMatches;
  }

  /** A model is accepted exactly for a provider that has a flag for it and arguments that give no other model; case and
      white space around the provider and white space around the model do not matter. */
  lemma ModelIsAccepted(provider: string, model: string, args: seq<string>)
    ensures var p, m := Lower(Trim(provider)), Trim(model);
      NormalArgs(provider, Some(model), args).Some? <==>
        && p in {"codex", "claude", "gemini", "opencode"} && m != ""
        && var start := if [ModelFlag(p), m] <= args then 2 else 0;
           forall i :: start <= i < |args| ==> !IsModelFlag(p, args[i])
  {
    hide Trim, Lower;
    var prefix := [ModelFlag(Lower(Trim(provider))), Trim(model)];
    if prefix <= args { assert forall i :: 2 <= i < |args| ==> args[i] == args[2..][i - 2]; }
  }

  // ---- Roles and command templates ----

  /** A role is made of small letters, digits, `.`, `_` and `-`, and has a dot. */
  lemma RoleExactly(role: string)
    ensures RoleOk(role) <==> '.' in role && forall i :: 0 <= i < |role| ==>
              'a' <= role[i] <= 'z' || 48 <= role[i] as int < 58 || role[i] == '.' || role[i] == '_' || role[i] == '-'
  {
    assert forall i :: 0 <= i < |role| ==> role[i] in role;
    forall c | c in role ensures exists i :: 0 <= i < |role| && role[i] == c {}
  }

  predicate OccursAt(s: string, pattern: string, i: int) {
    0 <= i && i + |pattern| <= |s| && s[i..i + |pattern|] == pattern
  }

  lemma OccursShifted(s: string, pattern: string, j: nat)
    requires s != []
    ensures OccursAt(s[1..], pattern, j) <==> OccursAt(s, pattern, j + 1)
  {
    if j + 1 + |pattern| <= |s| { assert s[1..][j..j + |pattern|] == s[j + 1..j + 1 + |pattern|]; }
  }

  /** Occurrences are counted from the left, each behind the one before; none is missed. */
  lemma {:induction false} MatchesCounted(s: string, pattern: string, i: nat)
    requires pattern != [] && forall j :: 0 <= j < i ==> !OccursAt(s, pattern, j)
    requires OccursAt(s, pattern, i)
    ensures CountMatches(s, pattern) == 1 + CountMatches(s[i + |pattern|..], pattern)
  {
    assert s[0..|pattern|] == s[..|pattern|];
    if i > 0 {
      assert !OccursAt(s, pattern, 0);
      var t := s[1..];
      forall j | 0 <= j < i - 1 ensures !OccursAt(t, pattern, j) { OccursShifted(s, pattern, j); }
      OccursShifted(s, pattern, i - 1);
      MatchesCounted(t, pattern, i - 1);
      assert t[i - 1 + |pattern|..] == s[i + |pattern|..];
    }
  }

  lemma {:induction false} NothingCounted(s: string, pattern: string)
    requires pattern != [] && forall j :: !OccursAt(s, pattern, j)
    ensures CountMatches(s, pattern) == 0
    decreases |s|
  {
    if |s| >= |pattern| {
      assert !OccursAt(s, pattern, 0) && s[0..|pattern|] == s[..|pattern|];
      var t := s[1..];
      forall j ensures !OccursAt(t, pattern, j) { if j >= 0 { OccursShifted(s, pattern, j); } }
      NothingCounted(t, pattern);
    }
  }

  /** The modes given to the generated layout: one mark for every worktree agent, none for another. */
  lemma ModesExactly(agents: map<string, AgentSpec>, n: string)
    ensures n in Modes(agents) <==> n in agents && agents[n].mode == GitWorktree
    ensures n in Modes(agents) ==> Modes(agents)[n] == "git-worktree"
    ensures n in Providers(agents) <==> n in agents
    ensures n in agents ==> Providers(agents)[n] == agents[n].provider
  {}

  /** The same for a whole configuration: every agent that was given a model starts with it. */
  lemma AgentsStartWithModel(c: Config, k: string)
    requires Normalized(c).Done? && k in c.agents && c.agents[k].model.Some?
    ensures SpecOk(c.agents[k]) && NormalSpec(c.agents[k]).name in Normalized(c).config.agents
    ensures var s, t := c.agents[k], Normalized(c).config.agents[NormalSpec(c.agents[k]).name];
      && t.model.Some? && t.provider in {"codex", "claude", "gemini", "opencode"}
      && var prefix := [ModelFlag(t.provider), t.model.value];
         && t.startupArgs == (if prefix <= s.startupArgs then s.startupArgs else prefix + s.startupArgs)
         && forall i :: 2 <= i < |t.startupArgs| ==> !IsModelFlag(t.provider, t.startupArgs[i])
  {
    hide SpecOk, NormalSpec, AgentsNormalize, NormalAgents, NormalizeAll, Arranged, ValidConfig, Signed, ModelFlag,
         IsModelFlag;
    AgentAt(c.agents, k);
    AgentStartsWithModel(c.agents[k]);
    ArrangedKeepsAgents(c.(agents := NormalAgents(c.agents), defaultAgents := NormalizeAll(c.defaultAgents).value));
    SignedKeeps(Arranged(c.(agents := NormalAgents(c.agents),
                            defaultAgents := NormalizeAll(c.defaultAgents).value)).config);
  }

  // ---- Normalising an agent twice ----

  lemma LowerIsSpaceless(s: string)
    ensures AllSpace(Lower(s)) <==> AllSpace(s)
    ensures Trimmed(s) ==> Trimmed(Lower(s))
    ensures Lower(Lower(s)) == Lower(s)
  {
    assert forall i :: 0 <= i < |s| ==> (IsSpace(Lower(s)[i]) <==> IsSpace(s[i]));
  }

  lemma LowerTrimFixpoint(s: string)
    ensures Lower(Trim(Lower(Trim(s)))) == Lower(Trim(s)) && Trim(Lower(Trim(s))) == Lower(Trim(s))
    ensures Trim(Trim(s)) == Trim(s)
  {
    hide Trim, Trimmed, Lower;
    TrimIsTrimmed(s);
    TrimOfTrimmed(Trim(s));
    LowerIsSpaceless(Trim(s));
    TrimOfTrimmed(Lower(Trim(s)));
  }

  lemma CanonicalFixpoint(id: string)
    ensures var c := CanonicalRoleId(id);
            CanonicalRoleId(c) == c && Lower(Trim(c)) == c && Trim(c) == c && (Trim(id) != "" ==> c != "")
  {
    hide Trim, Lower;
    LowerTrimFixpoint(id);
    NewIdsFixed();
    assert |Lower(Trim(id))| == |Trim(id)|;
  }

  /** Two ids of old are renamed, every other is trimmed and lower-cased. A model's name is treated as if it were an
      id. */
  lemma CanonicalIds(id: string)
    ensures Lower(Trim(id)) == "ccbr.archi" ==> CanonicalRoleId(id) == "agentroles.archi"
    ensures Lower(Trim(id)) == "agentrole.ccbr_self" ==> CanonicalRoleId(id) == "agentroles.ccbr_self"
    ensures Lower(Trim(id)) !in {"ccbr.archi", "agentrole.ccbr_self"} ==> CanonicalRoleId(id) == Lower(Trim(id))
  {
    hide Trim, Lower;
  }

  lemma RoleIsFixed(s: string)
    requires RoleOk(s)
    ensures Lower(s) == s && Trim(s) == s
  {
    forall i | 0 <= i < |s| ensures Lower(s)[i] == s[i] {
      assert s[i] in s && IsRoleChar(s[i]);
    }
    assert Lower(s) == s;
    assert s[0] in s && s[|s| - 1] in s;
    TrimOfTrimmed(s);
  }

  lemma NewIdsAreRoles()
    ensures RoleOk("agentroles.archi") && RoleOk("agentroles.ccbr_self")
  {
    assert "agentroles.archi"[10] == '.' && "agentroles.ccbr_self"[10] == '.';
  }

  lemma NewIdsFixed()
    ensures Trim("agentroles.archi") == "agentroles.archi" && Lower("agentroles.archi") == "agentroles.archi"
    ensures Trim("agentroles.ccbr_self") == "agentroles.ccbr_self" &&
              Lower("agentroles.ccbr_self") == "agentroles.ccbr_self"
    ensures RoleOk("agentroles.archi") && RoleOk("agentroles.ccbr_self")
  {
    hide Trim, Lower, RoleOk;
    NewIdsAreRoles();
    RoleIsFixed("agentroles.archi");
    RoleIsFixed("agentroles.ccbr_self");
  }

  /** Compiling the model into the arguments twice is the same as once: the second time the prefix is found. */
  lemma ArgsFixpoint(provider: string, model: Option<string>, args: seq<string>)
    requires NormalArgs(provider, model, args).Some?
    ensures var once := NormalArgs(provider, model, args).value; NormalArgs(provider, model, once) == Some(once)
  {
    hide HasModelFlag;
    if model.Some? {
      var compiled := ModelArgs(provider, model.value).value;
      assert (compiled + args)[|compiled|..] == args;
    }
  }

  lemma RoleFixpoint(role: string)
    requires RoleOk(Lower(Trim(role)))
    ensures var r := CanonicalRoleId(Lower(Trim(role)));
            RoleOk(Lower(Trim(r))) && CanonicalRoleId(Lower(Trim(r))) == r
  {
    hide Trim, Lower, RoleOk;
    LowerTrimFixpoint(role);
    CanonicalFixpoint(Lower(Trim(role)));
    NewIdsFixed();
  }

  lemma NameFixpoint(name: string)
    requires NormalizeAgentName(name).Some?
    ensures NormalizeAgentName(NormalizeAgentName(name).value) == NormalizeAgentName(name)
  {
    NormalizeFixpoint(name);
    NormalizeFixpoint(NormalizeAgentName(name).value);
  }

  /** A normalised agent is acceptable and normalising it again changes nothing, the model flags included. */
  lemma SpecFixpoint(s: AgentSpec)
    requires SpecOk(s)
    ensures SpecOk(NormalSpec(s)) && NormalSpec(NormalSpec(s)) == NormalSpec(s)
    ensures IsAgentName(NormalSpec(s).name)
  {
    hide Trim, Lower, NormalizeAgentName, NormalArgs, RoleOk, CanonicalRoleId, CountMatches, IsAgentName;
    NameFixpoint(s.name);
    NormalizeFixpoint(s.name);
    LowerTrimFixpoint(s.provider);
    LowerTrimFixpoint(s.target);
    if s.workspaceRoot.Some? { LowerTrimFixpoint(s.workspaceRoot.value); }
    if s.workspacePath.Some? { LowerTrimFixpoint(s.workspacePath.value); }
    if s.commandTemplate.Some? { LowerTrimFixpoint(s.commandTemplate.value); }
    if s.workspaceGroup.Some? { NameFixpoint(s.workspaceGroup.value); }
    if s.role.Some? { RoleFixpoint(s.role.value); }
    if s.model.Some? {
      LowerTrimFixpoint(s.model.value);
      CanonicalFixpoint(Trim(s.model.value));
    }
    ArgsFixpoint(Lower(Trim(s.provider)), NormalModel(s), s.startupArgs);
  }

  // ---- Configurations ----

  datatype WindowSpec = WindowSpec(name: string, order: nat, layoutSpec: string, agentNames: seq<string>)

  datatype ToolRecord = ToolRecord(name: string, order: U32, command: string)

  /** The width as text: a count and a percentage without its sign are written alike. */
  datatype SidebarRecord = SidebarRecord(mode: string, width: string, bottomHeight: U32)

  /** What the topology signature is a digest of. */
  datatype Topology = Topology(
    windows: seq<WindowSpec>, tools: seq<ToolRecord>, entry: string, sidebar: Option<SidebarRecord>)

  datatype Config = Config(
    version: nat, defaultAgents: seq<string>, agents: map<string, AgentSpec>, cmdEnabled: bool,
    layoutSpec: Option<string>, windows: Option<seq<WindowSpec>>, tools: Option<seq<ToolWindowSpec>>,
    entryWindow: Option<string>, sidebar: Option<SidebarSpec>, sidebarView: Option<SidebarViewSpec>,
    heartbeat: Option<HeartbeatSpec>, windowsExplicit: Option<bool>, signature: Option<Topology>)

  /** Rejected with an error, or a panic; `left` is what the configuration holds then. */
  datatype Outcome = Done(config: Config) | Rejected(left: Config) | Crash(left: Config)

  /** `WindowSpec::validate`. */
  predicate WindowOk(w: WindowSpec) {
    && WindowName(w.name).Some? && Trim(w.layoutSpec) != "" && w.agentNames != []
    && (forall i :: 0 <= i < |w.agentNames| ==> NormalizeAgentName(w.agentNames[i]).Some?)
    && (forall i, j :: 0 <= i < j < |w.agentNames| ==>
          NormalizeAgentName(w.agentNames[i]) != NormalizeAgentName(w.agentNames[j]))
  }

  function Ordered(ws: seq<WindowSpec>): seq<WindowSpec> {
    seq(|ws|, i requires 0 <= i < |ws| => ws[i].(order := i))
  }

  /** The agents of all windows, window after window. */
  function WindowAgents(ws: seq<WindowSpec>): seq<string> {
    if ws == [] then [] else WindowAgents(ws[..|ws| - 1]) + ws[|ws| - 1].agentNames
  }

  predicate WindowsOk(c: Config)
    requires c.windows.Some?
  {
    var ws := c.windows.value;
    && ws != [] && (forall i :: 0 <= i < |ws| ==> WindowOk(ws[i]))
    && (forall i, j :: 0 <= i < j < |ws| ==> ws[i].name != ws[j].name)
    && Distinct(WindowAgents(ws)) && (set a | a in WindowAgents(ws)) == c.agents.Keys
    && var entry := WindowName(if c.entryWindow.Some? then c.entryWindow.value else ws[0].name);
       entry.Some? && exists i :: 0 <= i < |ws| && ws[i].name == entry.value
  }

  function FlatOf(c: Config): FlatConfig {
    FlatConfig(c.defaultAgents, map n | n in c.agents :: c.agents[n].name, c.cmdEnabled, c.layoutSpec)
  }

  function ToolsOf(c: Config): seq<ToolWindowSpec> { if c.tools.Some? then c.tools.value else [] }

  /** The optional parts are acceptable where they are given. */
  predicate UiOk(c: Config) {
    && ToolsOk(ToolsOf(c)) && (c.sidebar.Some? ==> SidebarOk(c.sidebar.value))
    && (c.sidebarView.Some? ==> SidebarViewOk(c.sidebarView.value))
    && (c.heartbeat.Some? ==> HeartbeatOk(c.heartbeat.value))
  }

  /** Without windows there is nothing to enter, no sidebar and no tool window. */
  predicate NoWindowUi(c: Config) { c.entryWindow.None? && c.sidebar.None? && c.sidebarView.None? && ToolsOf(c) == [] }

  /** `ProjectConfig::validate`. */
  predicate ValidConfig(c: Config) {
    && c.version == 2 && AgentsOk(FlatOf(c)) && DefaultsOk(FlatOf(c)) && UiOk(c)
    && if c.windows.Some? then WindowsOk(c) else NoWindowUi(c) && LayoutOk(FlatOf(c))
  }

  /** Every agent normalises, and no two get one name. */
  predicate AgentsNormalize(agents: map<string, AgentSpec>) {
    && (forall k :: k in agents ==> SpecOk(agents[k]))
    && (forall j, k ::
          j in agents && k in agents && NormalSpec(agents[j]).name == NormalSpec(agents[k]).name ==> j == k)
  }

  function NormalAgents(agents: map<string, AgentSpec>): map<string, AgentSpec>
    requires AgentsNormalize(agents)
  {
    map k | k in agents :: NormalSpec(agents[k]).name := NormalSpec(agents[k])
  }

  function Providers(agents: map<string, AgentSpec>): map<string, string> { map n | n in agents :: agents[n].provider }

  /** Worktree agents are marked `git-worktree`, a mode the layout has no written form for. */
  function Modes(agents: map<string, AgentSpec>): map<string, string> {
    map n | n in agents && agents[n].mode == GitWorktree :: "git-worktree"
  }

  function ToolRecords(tools: seq<ToolWindowSpec>): seq<ToolRecord> {
    seq(|tools|, i requires 0 <= i < |tools| => ToolRecord(tools[i].name, tools[i].order, tools[i].command))
  }

  function SidebarRecordOf(s: Option<SidebarSpec>): Option<SidebarRecord> {
    match s
    case None => None
    case Some(bar) =>
      var width := match bar.width case Percent(text) => text case Pixels(n) => ShowNat(n);
      Some(SidebarRecord(bar.mode, width, bar.bottomHeight))
  }

  /** The defaults filled in that are missing: a sidebar only beside windows, a heartbeat always. */
  function Filled(c: Config): Config {
    c.(sidebar := if c.windows.Some? && c.sidebar.None? then Some(DEFAULT_SIDEBAR) else c.sidebar,
       sidebarView := if c.windows.Some? && c.sidebarView.None? then Some(DEFAULT_SIDEBAR_VIEW) else c.sidebarView,
       heartbeat := if c.heartbeat.None? then Some(DEFAULT_HEARTBEAT) else c.heartbeat)
  }

  /** The configuration filled in and signed. */
  function Signed(c: Config): Config {
    var ws := if c.windows.Some? then c.windows.value else [];
    var entry := if c.entryWindow.Some? then c.entryWindow.value else if ws == [] then "" else ws[0].name;
    Filled(c).(signature := Some(Topology(ws, ToolRecords(ToolsOf(c)), entry, SidebarRecordOf(Filled(c).sidebar))))
  }

  /** What the signature covers: the windows, of each tool window name, position and command, the entry window, and of
      the sidebar mode, width as text and bottom height. */
  lemma SignatureCovers(c: Config)
    ensures Signed(c).signature.Some?
    ensures var t, tools := Signed(c).signature.value, if c.tools.Some? then c.tools.value else [];
      && t.windows == (if c.windows.Some? then c.windows.value else [])
      && |t.tools| == |tools|
      && (forall i :: 0 <= i < |tools| ==>
            && t.tools[i].name == tools[i].name && t.tools[i].order == tools[i].order
            && t.tools[i].command == tools[i].command)
      && t.entry == (if c.entryWindow.Some? then c.entryWindow.value
                     else if t.windows == [] then "" else t.windows[0].name)
      && (t.sidebar.None? <==> Signed(c).sidebar.None?)
      && (t.sidebar.Some? ==>
            && t.sidebar.value.mode == Signed(c).sidebar.value.mode
            && t.sidebar.value.bottomHeight == Signed(c).sidebar.value.bottomHeight
            && t.sidebar.value.width ==
                 match Signed(c).sidebar.value.width case Percent(text) => text case Pixels(n) => ShowNat(n))
  {
    hide ShowNat;
  }

  /** What is filled in: the default sidebar and view where there are windows, the default heartbeat everywhere, each
      only if none is given. */
  lemma FilledExactly(c: Config)
    ensures Filled(c).sidebar ==
            if c.sidebar.Some? || c.windows.None? then c.sidebar
            else Some(SidebarSpec("every_window", Percent("15%"), 20))
    ensures Filled(c).heartbeat ==
            if c.heartbeat.Some? then c.heartbeat
            else Some(HeartbeatSpec(false, "ccbr_self", 3600, 300, 3, "report_only", true))
    ensures c.sidebarView.Some? || c.windows.None? ==> Filled(c).sidebarView == c.sidebarView
    ensures c.sidebarView.None? && c.windows.Some? ==>
      && Filled(c).sidebarView.Some?
      && var v := Filled(c).sidebarView.value;
      && v.agentsHeight == Percent("50%") && v.commsHeight == Percent("15%") && v.tipsHeight == Percent("35%")
      && v.commsLimit == 5 && v.commsCompact && v.tipsEnabled && |v.tips| == 17
    ensures Filled(c).(sidebar := c.sidebar, sidebarView := c.sidebarView, heartbeat := c.heartbeat) == c
  {}

  /** The first window from `i` on that is not acceptable, or `|ws|`. */
  function FirstBad(ws: seq<WindowSpec>, i: nat): (k: nat)
    requires i <= |ws|
    ensures i <= k <= |ws|
    decreases |ws| - i
  {
    if i == |ws| || !WindowOk(ws[i]) then i else FirstBad(ws, i + 1)
  }

  lemma {:induction false} FirstBadIs(ws: seq<WindowSpec>, i: nat)
    requires i <= |ws|
    ensures var k := FirstBad(ws, i);
      (k < |ws| ==> !WindowOk(ws[k])) && forall j :: i <= j < k ==> WindowOk(ws[j])
    decreases |ws| - i
  {
    hide WindowOk;
    if i < |ws| && WindowOk(ws[i]) { FirstBadIs(ws, i + 1); }
  }

  /** The windows once the positions of the first `i` are set. */
  function OrderedUpTo(ws: seq<WindowSpec>, i: nat): (r: seq<WindowSpec>)
    requires i <= |ws|
    ensures |r| == |ws|
  {
    Ordered(ws)[..i] + ws[i..]
  }

  lemma OrderedEnds(ws: seq<WindowSpec>)
    ensures OrderedUpTo(ws, 0) == ws && OrderedUpTo(ws, |ws|) == Ordered(ws)
  {}

  lemma OrderedStep(ws: seq<WindowSpec>, i: nat)
    requires i < |ws|
    ensures OrderedUpTo(ws, i)[i] == ws[i] && Ordered(ws)[i] == ws[i].(order := i)
    ensures OrderedUpTo(ws, i)[i := ws[i].(order := i)] == OrderedUpTo(ws, i + 1)
  {}

  lemma SignedAfterFilled(c: Config)
    ensures Filled(c).(signature := Signed(Filled(c)).signature) == Signed(c)
  {
    hide ToolRecords, SidebarRecordOf;
  }

  /** Windows or layout, for a configuration whose agents and defaults are normalised. */
  function Arranged(c: Config): Outcome {
    if c.windows.Some? then
      var given, ws, d := c.windows.value, Ordered(c.windows.value), c.(windowsExplicit := Some(true));
      var bad := FirstBad(ws, 0);
      if c.layoutSpec.Some? || c.cmdEnabled then Rejected(d)
      else if bad < |ws| then Rejected(d.(windows := Some(OrderedUpTo(given, bad + 1))))
      else if c.entryWindow.None? && ws == [] then Crash(d)
      else
        var entry := WindowName(if c.entryWindow.Some? then c.entryWindow.value else ws[0].name);
        if entry.None? then Rejected(d.(windows := Some(ws)))
        else Done(d.(windows := Some(ws), entryWindow := entry))
    else if c.layoutSpec.Some? && Trim(c.layoutSpec.value) != "" then Done(c.(windowsExplicit := Some(false)))
    else
      var names := CleanNames(c.defaultAgents);
      if names == [] then Crash(c.(windowsExplicit := Some(false)))
      else
        var layout := Balanced(names, Providers(c.agents), Modes(c.agents), c.cmdEnabled);
        Done(c.(layoutSpec := Some(Render(layout)), windowsExplicit := Some(false)))
  }

  /** `ProjectConfig::normalize`. The agents are drained from the old map, so a bad one leaves an empty map. */
  function Normalized(c: Config): Outcome {
    if c.version != 2 then Rejected(c)
    else if !AgentsNormalize(c.agents) then Rejected(c.(agents := map[]))
    else if NormalizeAll(c.defaultAgents).Failed? then Rejected(c.(agents := NormalAgents(c.agents)))
    else
      match Arranged(c.(agents := NormalAgents(c.agents), defaultAgents := NormalizeAll(c.defaultAgents).value))
      case Done(d) => if ValidConfig(Signed(d)) then Done(Signed(d)) else Rejected(Signed(d))
      case other => other
  }

  // ---- Idempotence ----

  lemma NormalAgentsFixed(agents: map<string, AgentSpec>)
    requires AgentsNormalize(agents)
    ensures AgentsNormalize(NormalAgents(agents)) && NormalAgents(NormalAgents(agents)) == NormalAgents(agents)
    ensures forall n :: n in NormalAgents(agents) ==> NormalAgents(agents)[n].name == n
  {
    hide SpecOk, NormalSpec;
    var once := NormalAgents(agents);
    forall n | n in once ensures SpecOk(once[n]) && NormalSpec(once[n]) == once[n] && once[n].name == n {
      var k :| k in agents && NormalSpec(agents[k]).name == n;
      SpecFixpoint(agents[k]);
    }
    assert forall n :: n in NormalAgents(once) <==> n in once;
  }

  lemma {:induction false} NormalizeAllFixed(names: seq<string>)
    requires NormalizeAll(names).Planned?
    ensures NormalizeAll(NormalizeAll(names).value) == NormalizeAll(names)
    ensures forall n :: n in NormalizeAll(names).value ==> IsAgentName(n)
  {
    hide NormalizeAgentName, IsAgentName;
    if names != [] {
      NormalizeFixpoint(names[0]);
      NameFixpoint(names[0]);
      NormalizeAllFixed(names[1..]);
      var once := NormalizeAll(names).value;
      assert once[1..] == NormalizeAll(names[1..]).value;
    }
  }

  lemma WindowNameFixed(name: string)
    requires WindowName(name).Some?
    ensures WindowName(WindowName(name).value) == WindowName(name)
  {
    hide Trim;
    LowerTrimFixpoint(name);
  }

  lemma OrderedTwice(ws: seq<WindowSpec>)
    ensures Ordered(Ordered(ws)) == Ordered(ws)
  {}

  /** Generated text starts with a pane name, so it is not blank. */
  lemma {:induction false} RenderStarts(n: LayoutNode)
    requires n.LeafCount() > 0 && n.Leaves()[0].name != "" && !IsSpace(n.Leaves()[0].name[0])
    ensures Render(n) != [] && !IsSpace(Render(n)[0])
  {
    hide IsSpace;
    if n.Split? {
      NamesOfLeaves(n.left);
      RenderStarts(n.left);
      RoundTrip.ChildText(n.left, n.kind);
      MarksAreNotSpace();
    }
  }

  lemma GeneratedIsNotBlank(names: seq<string>, providers: map<string, string>, modes: map<string, string>, cmd: bool)
    requires names != [] && forall n :: n in names ==> IsAgentName(n)
    ensures Trim(Render(Balanced(names, providers, modes, cmd))) != ""
  {
    hide Trim, IsSpace, Balanced;
    var b := Balanced(names, providers, modes, cmd);
    BalancedLeaves(names, providers, modes, cmd);
    var leaves := CmdLeaf(cmd) + AgentLeaves(names, providers, modes);
    assert leaves[0] == if cmd then NamedLeaf("cmd") else AgentLeaf(names[0], providers, modes);
    assert b.Leaves()[0] == leaves[0].leaf;
    assert names[0] in names;
    StartsWithLetter(names[0]);
    RenderStarts(b);
    TrimIsTrimmed(Render(b));
  }

  lemma StartsWithLetter(n: string)
    requires IsAgentName(n)
    ensures n != "" && !IsSpace(n[0]) && !IsSpace("cmd"[0])
  {}

  lemma {:induction false} CleanAgentNames(names: seq<string>)
    requires forall n :: n in names ==> IsAgentName(n)
    ensures CleanNames(names) == names
  {
    hide Trim, IsAgentName;
    if names != [] {
      TrimmedAgent(names[0]);
      CleanAgentNames(names[1..]);
    }
  }

  /** Arranging an arranged configuration changes nothing. */
  lemma ArrangedFixed(c: Config)
    requires Arranged(c).Done? && forall n :: n in c.defaultAgents ==> IsAgentName(n)
    ensures Arranged(Signed(Arranged(c).config)) == Done(Signed(Arranged(c).config))
  {
    hide Trim, WindowOk, Balanced, Render, IsAgentName, WindowName;
    var d := Arranged(c).config;
    if c.windows.Some? {
      OrderedTwice(c.windows.value);
      WindowNameFixed(if c.entryWindow.Some? then c.entryWindow.value else Ordered(c.windows.value)[0].name);
    } else if !(c.layoutSpec.Some? && Trim(c.layoutSpec.value) != "") {
      CleanAgentNames(c.defaultAgents);
      GeneratedIsNotBlank(c.defaultAgents, Providers(c.agents), Modes(c.agents), c.cmdEnabled);
    }
  }

  /** Normalising a configuration that was normalised succeeds and changes nothing. */
  lemma NormalizeIdempotent(c: Config)
    requires Normalized(c).Done?
    ensures Normalized(Normalized(c).config) == Normalized(c)
  {
    hide Arranged, ValidConfig, AgentsNormalize, NormalAgents;
    var d := c.(agents := NormalAgents(c.agents), defaultAgents := NormalizeAll(c.defaultAgents).value);
    NormalAgentsFixed(c.agents);
    NormalizeAllFixed(c.defaultAgents);
    ArrangedKeepsAgents(d);
    ArrangedFixed(d);
  }

  lemma ArrangedKeepsAgents(c: Config)
    requires Arranged(c).Done?
    ensures var d := Arranged(c).config;
            d.agents == c.agents && d.defaultAgents == c.defaultAgents && d.version == c.version
    ensures Signed(Signed(Arranged(c).config)) == Signed(Arranged(c).config)
  {
    hide WindowOk, Balanced, Render;
  }

  /** On success agents are filed under their names, default agents are distinct and configured, and windows, if any,
      share out the configured agents: each is in exactly one window. */
  lemma NormalizedIsConsistent(c: Config)
    requires Normalized(c).Done?
    ensures var d := Normalized(c).config;
      && (forall n :: n in d.agents ==> d.agents[n].name == n && IsAgentName(n))
      && Distinct(d.defaultAgents) && d.defaultAgents != [] && (forall n :: n in d.defaultAgents ==> n in d.agents)
      && (d.windows.Some? ==>
            && Distinct(WindowAgents(d.windows.value))
            && (set a | a in WindowAgents(d.windows.value)) == d.agents.Keys
            && (forall i :: 0 <= i < |d.windows.value| ==> d.windows.value[i].order == i)
            && (forall i, j :: 0 <= i < j < |d.windows.value| ==> d.windows.value[i].name != d.windows.value[j].name)
            && d.entryWindow.Some?
            && exists i :: 0 <= i < |d.windows.value| && Some(d.windows.value[i].name) == d.entryWindow)
      && (d.windows.None? ==> d.entryWindow.None? && LayoutOk(FlatOf(d)))
  {
    hide AgentsNormalize, NormalAgents, NormalizeAgentName, NormalizeAll, LayoutOk, AgentsOk, DefaultsOk, WindowsOk,
         Arranged, Signed, IsAgentName;
    var n := c.(agents := NormalAgents(c.agents), defaultAgents := NormalizeAll(c.defaultAgents).value);
    var d := Normalized(c).config;
    NormalAgentsNamed(c.agents);
    NormalizeAllFixed(c.defaultAgents);
    ArrangedKeepsAgents(n);
    SignedKeeps(Arranged(n).config);
    DefaultsConfigured(d);
    WindowsShareAgents(n);
  }

  /** Also on success, a sidebar and tool windows stand only beside windows, tool windows are named apart, and what is
      given or filled in is acceptable. */
  lemma NormalizedUiIsConsistent(c: Config)
    requires Normalized(c).Done?
    ensures var d := Normalized(c).config;
      && d.windowsExplicit == Some(d.windows.Some?)
      && (d.windows.None? ==> d.sidebar.None? && d.sidebarView.None? && (d.tools.None? || d.tools.value == []))
      && (d.windows.Some? ==> d.sidebar.Some? && d.sidebarView.Some?)
      && (d.sidebar.Some? ==> SidebarOk(d.sidebar.value))
      && (d.sidebarView.Some? ==> SidebarViewOk(d.sidebarView.value))
      && (d.tools.Some? ==>
            && (forall i :: 0 <= i < |d.tools.value| ==> ToolOk(d.tools.value[i]))
            && forall i, j :: 0 <= i < j < |d.tools.value| ==> d.tools.value[i].name != d.tools.value[j].name)
      && d.heartbeat.Some? && HeartbeatOk(d.heartbeat.value)
  {
    hide AgentsNormalize, NormalAgents, NormalizeAll, AgentsOk, DefaultsOk, LayoutOk, WindowsOk, SidebarOk,
         SidebarViewOk, HeartbeatOk, ToolOk, FirstBad, OrderedUpTo, Ordered, WindowName, CleanNames, Balanced, Render,
         Trim;
  }

  lemma NormalAgentsNamed(agents: map<string, AgentSpec>)
    requires AgentsNormalize(agents)
    ensures forall n :: n in NormalAgents(agents) ==> NormalAgents(agents)[n].name == n && IsAgentName(n)
  {
    hide SpecOk, NormalSpec, IsAgentName;
    forall n | n in NormalAgents(agents) ensures NormalAgents(agents)[n].name == n && IsAgentName(n) {
      var k :| k in agents && NormalSpec(agents[k]).name == n;
      SpecFixpoint(agents[k]);
    }
  }

  lemma SignedKeeps(c: Config)
    ensures var d := Signed(c);
      d.agents == c.agents && d.defaultAgents == c.defaultAgents && d.windows == c.windows && d.version == c.version
  {}

  lemma DefaultsConfigured(c: Config)
    requires DefaultsOk(FlatOf(c)) && forall n :: n in c.defaultAgents ==> IsAgentName(n)
    ensures Distinct(c.defaultAgents) && c.defaultAgents != [] && forall n :: n in c.defaultAgents ==> n in c.agents
  {
    hide NormalizeAgentName, IsAgentName;
    forall i | 0 <= i < |c.defaultAgents|
      ensures NormalizeAgentName(c.defaultAgents[i]) == Some(c.defaultAgents[i])
    {
      assert c.defaultAgents[i] in c.defaultAgents;
      NormalizeFixpoint(c.defaultAgents[i]);
    }
  }

  lemma WindowsShareAgents(c: Config)
    requires Arranged(c).Done? && ValidConfig(Signed(Arranged(c).config))
    ensures var d := Signed(Arranged(c).config);
      && (d.windows.Some? ==>
            && Distinct(WindowAgents(d.windows.value))
            && (set a | a in WindowAgents(d.windows.value)) == d.agents.Keys
            && (forall i :: 0 <= i < |d.windows.value| ==> d.windows.value[i].order == i)
            && (forall i, j :: 0 <= i < j < |d.windows.value| ==> d.windows.value[i].name != d.windows.value[j].name)
            && d.entryWindow.Some?
            && exists i :: 0 <= i < |d.windows.value| && Some(d.windows.value[i].name) == d.entryWindow)
      && (d.windows.None? ==> d.entryWindow.None? && LayoutOk(FlatOf(d)))
  {
    hide AgentsOk, DefaultsOk, LayoutOk, UiOk, WindowOk, WindowName, Balanced, Render, WindowAgents, Distinct,
         ToolRecords, SidebarRecordOf, CleanNames, ToolsOf;
    if c.windows.Some? {
      WindowNameFixed(if c.entryWindow.Some? then c.entryWindow.value else Ordered(c.windows.value)[0].name);
    }
  }

  /** Normalising panics, instead of reporting an error, exactly when the agents are acceptable and there is neither a
      window to enter nor an agent to lay out. */
  lemma NormalizePanics(c: Config)
    ensures Normalized(c).Crash? <==>
      && c.version == 2 && AgentsNormalize(c.agents) && NormalizeAll(c.defaultAgents).Planned?
      && if c.windows.Some? then c.windows.value == [] && c.entryWindow.None? && c.layoutSpec.None? && !c.cmdEnabled
         else c.defaultAgents == [] && (c.layoutSpec.None? || Trim(c.layoutSpec.value) == "")
  {
    hide AgentsNormalize, NormalAgents, WindowOk, Balanced, Render, Trim, NormalizeAgentName, IsAgentName, ValidConfig;
    if NormalizeAll(c.defaultAgents).Planned? {
      NormalizeAllFixed(c.defaultAgents);
      CleanAgentNames(NormalizeAll(c.defaultAgents).value);
    }
  }

  /** An empty list of windows, where the first one is to be entered. */
  lemma EmptyWindowsPanic()
    ensures Normalized(Config(2, [], map[], false, None, Some([]), None, None, None, None, None, None, None)).Crash?
  {
    hide Normalized;
    NormalizePanics(Config(2, [], map[], false, None, Some([]), None, None, None, None, None, None, None));
  }

  /** Without windows and without a layout text, a configuration whose agents are acceptable is accepted: the layout
      generated from its default agents passes the check, provided the providers can be written. */
  lemma GeneratedConfigAccepted(c: Config)
    requires c.version == 2 && c.windows.None? && NoWindowUi(c) && UiOk(c)
    requires c.layoutSpec.None? || Trim(c.layoutSpec.value) == ""
    requires AgentsNormalize(c.agents) && NormalizeAll(c.defaultAgents).Planned?
    requires var defaults, agents := NormalizeAll(c.defaultAgents).value, NormalAgents(c.agents);
      && defaults != [] && Distinct(defaults)
      && forall n :: n in defaults ==> n in agents && IsProvider(agents[n].provider)
    ensures Normalized(c).Done?
    ensures var d := Normalized(c).config;
      d.defaultAgents != [] &&
      d.layoutSpec == Some(Render(Balanced(d.defaultAgents, Providers(d.agents), Modes(d.agents), d.cmdEnabled)))
  {
    hide AgentsNormalize, NormalAgents, NormalizeAll, Arranged, ValidConfig, Signed, Balanced, Render, IsProvider,
         IsAgentName, Trim, Distinct, Providers, Modes;
    var n := c.(agents := NormalAgents(c.agents), defaultAgents := NormalizeAll(c.defaultAgents).value);
    NormalizeAllFixed(c.defaultAgents);
    NormalAgentsNamed(c.agents);
    GeneratedIsValid(n);
  }

  /** With any providers whose text has no mark, such a configuration is accepted exactly when every default agent with
      its normalised provider reads as a leaf. */
  lemma GeneratedConfigDecided(c: Config)
    requires c.version == 2 && c.windows.None? && NoWindowUi(c) && UiOk(c)
    requires c.layoutSpec.None? || Trim(c.layoutSpec.value) == ""
    requires AgentsNormalize(c.agents) && NormalizeAll(c.defaultAgents).Planned?
    requires var defaults, agents := NormalizeAll(c.defaultAgents).value, NormalAgents(c.agents);
      && defaults != [] && Distinct(defaults)
      && forall n :: n in defaults ==> n in agents && PlainProvider(agents[n].provider)
    ensures var defaults, agents := NormalizeAll(c.defaultAgents).value, NormalAgents(c.agents);
      Normalized(c).Done? <==> forall n :: n in defaults ==> ParseLeaf(n + ":" + agents[n].provider).Some?
  {
    hide AgentsNormalize, NormalAgents, NormalizeAll, Arranged, ValidConfig, Signed, PlainProvider, IsAgentName, Trim,
         Distinct, ParseLeaf;
    var n := c.(agents := NormalAgents(c.agents), defaultAgents := NormalizeAll(c.defaultAgents).value);
    NormalizeAllFixed(c.defaultAgents);
    NormalAgentsNamed(c.agents);
    GeneratedIsDecided(n);
  }

  /** For a configuration whose agents and defaults are normalised already. */
  lemma GeneratedIsDecided(c: Config)
    requires c.version == 2 && c.windows.None? && NoWindowUi(c) && UiOk(c)
    requires c.layoutSpec.None? || Trim(c.layoutSpec.value) == ""
    requires forall n :: n in c.agents ==> c.agents[n].name == n && IsAgentName(n)
    requires c.defaultAgents != [] && Distinct(c.defaultAgents)
    requires forall n :: n in c.defaultAgents ==> n in c.agents && PlainProvider(c.agents[n].provider) && IsAgentName(n)
    ensures Arranged(c).Done?
    ensures ValidConfig(Signed(Arranged(c).config)) <==>
            forall n :: n in c.defaultAgents ==> ParseLeaf(n + ":" + c.agents[n].provider).Some?
  {
    hide Balanced, Render, PlainProvider, IsAgentName, Trim, LayoutOk, Distinct, AgentsOk, DefaultsOk, ParseLeaf;
    CleanAgentNames(c.defaultAgents);
    var d := Signed(Arranged(c).config);
    assert c.defaultAgents[0] in c.defaultAgents && c.defaultAgents[0] in c.agents;
    AgentsFiled(d);
    FilledIsOk(Arranged(c).config);
    NormalDefaultsOk(FlatOf(d));
    GeneratedLayoutDecided(FlatOf(d), Providers(d.agents), Modes(d.agents));
  }

  lemma AgentsFiled(c: Config)
    requires c.agents != map[] && forall n :: n in c.agents ==> c.agents[n].name == n && IsAgentName(n)
    ensures AgentsOk(FlatOf(c))
  {
    hide NormalizeAgentName, IsAgentName;
    var flat := FlatOf(c);
    forall k | k in flat.agents ensures NormalizeAgentName(k) == Some(flat.agents[k]) { NormalizeFixpoint(k); }
    var some :| some in c.agents;
    assert some in flat.agents;
  }

  lemma FilledIsOk(c: Config)
    requires UiOk(c)
    ensures UiOk(Filled(c)) && UiOk(Signed(c))
  {
    hide SidebarOk, SidebarViewOk, HeartbeatOk, ToolsOk;
    DefaultsAreOk();
  }

  /** For a configuration whose agents and defaults are normalised already. */
  lemma GeneratedIsValid(c: Config)
    requires c.version == 2 && c.windows.None? && NoWindowUi(c) && UiOk(c)
    requires c.layoutSpec.None? || Trim(c.layoutSpec.value) == ""
    requires forall n :: n in c.agents ==> c.agents[n].name == n && IsAgentName(n)
    requires c.defaultAgents != [] && Distinct(c.defaultAgents)
    requires forall n :: n in c.defaultAgents ==> n in c.agents && IsProvider(c.agents[n].provider) && IsAgentName(n)
    ensures Arranged(c).Done? && ValidConfig(Signed(Arranged(c).config))
    ensures var d := Signed(Arranged(c).config);
      d.defaultAgents != [] &&
      d.layoutSpec == Some(Render(Balanced(d.defaultAgents, Providers(d.agents), Modes(d.agents), d.cmdEnabled)))
  {
    hide Balanced, Render, IsProvider, IsAgentName, Trim, LayoutOk, Distinct, AgentsOk, DefaultsOk;
    CleanAgentNames(c.defaultAgents);
    var d := Signed(Arranged(c).config);
    assert c.defaultAgents[0] in c.defaultAgents && c.defaultAgents[0] in c.agents;
    AgentsFiled(d);
    FilledIsOk(Arranged(c).config);
    GeneratedLayoutIsValid(FlatOf(d), Providers(d.agents), Modes(d.agents));
  }

  // ---- The procedure as written ----

  function WithKeys(agents: map<string, AgentSpec>, keys: set<string>): map<string, AgentSpec> {
    map k | k in agents && k in keys :: agents[k]
  }

  /** Normalising one more agent: it must be acceptable and its name must be new. */
  lemma NormalizeOneMore(agents: map<string, AgentSpec>, seen: set<string>, k: string)
    requires k in agents && k !in seen && AgentsNormalize(WithKeys(agents, seen))
    ensures AgentsNormalize(WithKeys(agents, seen + {k})) <==>
              SpecOk(agents[k]) && NormalSpec(agents[k]).name !in NormalAgents(WithKeys(agents, seen))
    ensures AgentsNormalize(WithKeys(agents, seen + {k})) ==>
              NormalAgents(WithKeys(agents, seen + {k})) ==
              NormalAgents(WithKeys(agents, seen))[NormalSpec(agents[k]).name := NormalSpec(agents[k])]
  {
    hide AgentsNormalize, NormalAgents, SpecOk, NormalSpec;
    assert WithKeys(agents, seen + {k}) == WithKeys(agents, seen)[k := agents[k]];
    AddAgent(WithKeys(agents, seen), k, agents[k]);
  }

  lemma AddAgent(m: map<string, AgentSpec>, k: string, s: AgentSpec)
    requires k !in m && AgentsNormalize(m)
    ensures AgentsNormalize(m[k := s]) <==> SpecOk(s) && NormalSpec(s).name !in NormalAgents(m)
    ensures AgentsNormalize(m[k := s]) ==>
              NormalAgents(m[k := s]) == NormalAgents(m)[NormalSpec(s).name := NormalSpec(s)]
  {
    hide SpecOk, NormalSpec;
    var after := m[k := s];
    assert after[k] == s && forall j :: j in m ==> after[j] == m[j] && j != k;
    if AgentsNormalize(after) {
      assert SpecOk(after[k]);
      AddedAgents(m, k, s);
    } else if SpecOk(s) {
      NameIsTaken(m, k, s);
    }
  }

  lemma NameIsTaken(m: map<string, AgentSpec>, k: string, s: AgentSpec)
    requires k !in m && AgentsNormalize(m) && SpecOk(s) && !AgentsNormalize(m[k := s])
    ensures NormalSpec(s).name in NormalAgents(m)
  {
    hide SpecOk, NormalSpec;
    var after := m[k := s];
    assert forall j :: j in after ==> SpecOk(after[j]);
    var i, j :| i in after && j in after && NormalSpec(after[i]).name == NormalSpec(after[j]).name && i != j;
    assert i != k ==> i in m && after[i] == m[i];
    assert j != k ==> j in m && after[j] == m[j];
  }

  lemma AddedAgents(m: map<string, AgentSpec>, k: string, s: AgentSpec)
    requires k !in m && AgentsNormalize(m) && SpecOk(s) && AgentsNormalize(m[k := s])
    ensures NormalSpec(s).name !in NormalAgents(m)
    ensures NormalAgents(m[k := s]) == NormalAgents(m)[NormalSpec(s).name := NormalSpec(s)]
  {
    hide SpecOk, NormalSpec, NormalAgents, AgentsNormalize;
    var after, name := m[k := s], NormalSpec(s).name;
    NameIsNew(m, k, s);
    forall n | n in NormalAgents(m) ensures n in NormalAgents(after) && NormalAgents(after)[n] == NormalAgents(m)[n] {
      var j := AgentFrom(m, n);
      assert after[j] == m[j];
      AgentAt(after, j);
    }
    AgentAt(after, k);
    forall n | n in NormalAgents(after) ensures n in NormalAgents(m) || n == name {
      var j := AgentFrom(after, n);
      if j != k {
        assert after[j] == m[j];
        AgentAt(m, j);
      }
    }
  }

  lemma AgentFrom(m: map<string, AgentSpec>, n: string) returns (j: string)
    requires AgentsNormalize(m) && n in NormalAgents(m)
    ensures j in m && SpecOk(m[j]) && NormalSpec(m[j]).name == n && NormalAgents(m)[n] == NormalSpec(m[j])
  {
    hide SpecOk, NormalSpec;
    j :| j in m && NormalSpec(m[j]).name == n;
  }

  lemma AgentAt(m: map<string, AgentSpec>, j: string)
    requires AgentsNormalize(m) && j in m
    ensures SpecOk(m[j])
    ensures NormalSpec(m[j]).name in NormalAgents(m) && NormalAgents(m)[NormalSpec(m[j]).name] == NormalSpec(m[j])
  {
    hide SpecOk, NormalSpec;
  }

  lemma NameIsNew(m: map<string, AgentSpec>, k: string, s: AgentSpec)
    requires k !in m && AgentsNormalize(m) && SpecOk(s) && AgentsNormalize(m[k := s])
    ensures NormalSpec(s).name !in NormalAgents(m)
  {
    hide SpecOk, NormalSpec;
    var after, name := m[k := s], NormalSpec(s).name;
    forall j | j in m ensures NormalSpec(m[j]).name != name {
      assert after[j] == m[j] && after[k] == s;
    }
  }

  lemma AgentsNormalizePart(agents: map<string, AgentSpec>, seen: set<string>)
    requires AgentsNormalize(agents)
    ensures AgentsNormalize(WithKeys(agents, seen))
  {
    hide SpecOk, NormalSpec;
  }

  method NormalizeAgents(agents: map<string, AgentSpec>) returns (r: Option<map<string, AgentSpec>>)
    ensures r.Some? <==> AgentsNormalize(agents)
    ensures r.Some? ==> r.value == NormalAgents(agents)
  {
    hide SpecOk, NormalSpec, AgentsNormalize, NormalAgents;
    var normalized: map<string, AgentSpec> := map[];
    var todo := agents.Keys;
    NoAgents(agents, agents.Keys - todo);
    while todo != {}
      invariant todo <= agents.Keys
      invariant AgentsNormalize(WithKeys(agents, agents.Keys - todo))
      invariant normalized == NormalAgents(WithKeys(agents, agents.Keys - todo))
      decreases |todo|
    {
      var key :| key in todo;
      NormalizeOneMore(agents, agents.Keys - todo, key);
      assert agents.Keys - (todo - {key}) == agents.Keys - todo + {key};
      var spec := NormalizeSpec(agents[key]);
      if spec.None? || spec.value.name in normalized {
        if AgentsNormalize(agents) { AgentsNormalizePart(agents, agents.Keys - todo + {key}); }
        return None;
      }
      todo := todo - {key};
      normalized := normalized[spec.value.name := spec.value];
    }
    assert WithKeys(agents, agents.Keys - todo) == agents;
    return Some(normalized);
  }

  lemma NoAgents(agents: map<string, AgentSpec>, seen: set<string>)
    requires seen == {}
    ensures AgentsNormalize(WithKeys(agents, seen)) && NormalAgents(WithKeys(agents, seen)) == map[]
  {}

  lemma {:induction false} NormalizeAllSnoc(names: seq<string>, name: string)
    ensures NormalizeAll(names + [name]) ==
      if NormalizeAll(names).Failed? then NormalizeAll(names)
      else if NormalizeAgentName(name).None? then Failed(BadAgentName)
      else Planned(NormalizeAll(names).value + [NormalizeAgentName(name).value])
  {
    hide NormalizeAgentName;
    if names == [] {
      assert [] + [name] == [name] && [name][1..] == [];
      assert NormalizeAll([name][1..]) == Planned([]);
      if NormalizeAgentName(name).Some? {
        var n := NormalizeAgentName(name).value;
        assert [n] + [] == [n] && [] + [n] == [n];
      }
    } else {
      ConcatTail(names, [name]);
      NormalizeAllSnoc(names[1..], name);
      var first, last := NormalizeAgentName(names[0]), NormalizeAgentName(name);
      if first.Some? && last.Some? && NormalizeAll(names[1..]).Planned? {
        var rest := NormalizeAll(names[1..]).value;
        assert [first.value] + (rest + [last.value]) == [first.value] + rest + [last.value];
      }
    }
  }

  lemma {:induction false} NormalizeAllStops(names: seq<string>, i: nat)
    requires i <= |names| && NormalizeAll(names[..i]).Failed?
    ensures NormalizeAll(names).Failed?
    decreases |names| - i
  {
    hide NormalizeAll;
    if i == |names| {
      assert names[..i] == names;
    } else {
      NormalizeAllSnoc(names[..i], names[i]);
      assert names[..i + 1] == names[..i] + [names[i]];
      NormalizeAllStops(names, i + 1);
    }
  }

  method NormalizeDefaults(names: seq<string>) returns (r: Option<seq<string>>)
    ensures r.Some? <==> NormalizeAll(names).Planned?
    ensures r.Some? ==> r.value == NormalizeAll(names).value
  {
    hide NormalizeAgentName;
    var normalized := [];
    for i := 0 to |names|
      invariant NormalizeAll(names[..i]) == Planned(normalized)
    {
      NormalizeAllSnoc(names[..i], names[i]);
      assert names[..i + 1] == names[..i] + [names[i]];
      var n := NormalizeAgentName(names[i]);
      if n.None? {
        NormalizeAllStops(names, i + 1);
        return None;
      }
      normalized := normalized + [n.value];
    }
    assert names[..|names|] == names;
    return Some(normalized);
  }

  /** `WindowSpec::validate`. */
  method CheckWindow(w: WindowSpec) returns (ok: bool)
    ensures ok <==> WindowOk(w)
  {
    hide NormalizeAgentName, Trim, WindowName;
    if WindowName(w.name).None? || Trim(w.layoutSpec) == "" || w.agentNames == [] {
      return false;
    }
    var seen := {};
    for i := 0 to |w.agentNames|
      invariant forall k :: 0 <= k < i ==> NormalizeAgentName(w.agentNames[k]).Some?
      invariant forall j, k :: 0 <= j < k < i ==>
                  NormalizeAgentName(w.agentNames[j]) != NormalizeAgentName(w.agentNames[k])
      invariant forall n :: n in seen <==> exists k :: 0 <= k < i && NormalizeAgentName(w.agentNames[k]) == Some(n)
    {
      var n := NormalizeAgentName(w.agentNames[i]);
      if n.None? || n.value in seen {
        return false;
      }
      seen := seen + {n.value};
    }
    return true;
  }

  lemma DistinctPrefix(s: seq<string>, more: seq<string>)
    requires Distinct(s + more)
    ensures Distinct(s)
  {
    assert forall i :: 0 <= i < |s| ==> (s + more)[i] == s[i];
  }

  lemma DistinctSnoc(s: seq<string>, x: string)
    ensures Distinct(s + [x]) <==> Distinct(s) && x !in s
  {
    var t := s + [x];
    assert forall i :: 0 <= i < |s| ==> t[i] == s[i];
    assert t[|s|] == x;
    if Distinct(t) { DistinctPrefix(s, [x]); }
  }

  lemma {:induction false} WindowAgentsGrow(ws: seq<WindowSpec>, i: nat)
    requires i <= |ws|
    ensures exists more :: WindowAgents(ws) == WindowAgents(ws[..i]) + more
    decreases |ws| - i
  {
    if i == |ws| {
      assert ws[..i] == ws;
      assert WindowAgents(ws) == WindowAgents(ws[..i]) + [];
    } else {
      WindowAgentsGrow(ws, i + 1);
      var more :| WindowAgents(ws) == WindowAgents(ws[..i + 1]) + more;
      assert ws[..i + 1][..i] == ws[..i];
      assert WindowAgents(ws) == WindowAgents(ws[..i]) + (ws[i].agentNames + more);
    }
  }

  /** Agents of windows seen so far that repeat, or are unknown, spoil the whole. */
  lemma BadPrefixSpoils(ws: seq<WindowSpec>, i: nat, head: seq<string>, known: set<string>)
    requires i < |ws| && exists more :: WindowAgents(ws[..i + 1]) == head + more
    requires !Distinct(head) || exists a :: a in head && a !in known
    ensures !(Distinct(WindowAgents(ws)) && (set a | a in WindowAgents(ws)) == known)
  {
    hide WindowAgents, Distinct;
    WindowAgentsGrow(ws, i + 1);
    var more :| WindowAgents(ws[..i + 1]) == head + more;
    var rest :| WindowAgents(ws) == WindowAgents(ws[..i + 1]) + rest;
    assert WindowAgents(ws) == head + (more + rest);
    if Distinct(WindowAgents(ws)) { DistinctPrefix(head, more + rest); }
  }

  /** The window part of `ProjectConfig::validate`, two nested loops over the agents of the windows. */
  method CheckWindowAgents(ws: seq<WindowSpec>, known: set<string>) returns (ok: bool)
    ensures ok <==> Distinct(WindowAgents(ws)) && (set a | a in WindowAgents(ws)) == known
  {
    hide WindowAgents, Distinct;
    NoWindowAgents(ws);
    var seen := {};
    for i := 0 to |ws|
      invariant Distinct(WindowAgents(ws[..i])) && seen == (set a | a in WindowAgents(ws[..i])) && seen <= known
    {
      ghost var before := WindowAgents(ws[..i]);
      var names := ws[i].agentNames;
      OneMoreWindow(ws, i);
      assert before + names[..0] == before;
      for j := 0 to |names|
        invariant Distinct(before + names[..j]) && seen == (set a | a in before + names[..j]) && seen <= known
      {
        ghost var head := before + names[..j + 1];
        assert head == before + names[..j] + [names[j]];
        assert before + names == head + names[j + 1..];
        DistinctSnoc(before + names[..j], names[j]);
        if names[j] !in known || names[j] in seen {
          assert names[j] in head;
          BadPrefixSpoils(ws, i, head, known);
          return false;
        }
        seen := seen + {names[j]};
      }
      assert names[..|names|] == names;
    }
    assert ws[..|ws|] == ws;
    return seen == known;
  }

  lemma NoWindowAgents(ws: seq<WindowSpec>)
    ensures WindowAgents(ws[..0]) == [] && Distinct<string>([])
  {}

  lemma OneMoreWindow(ws: seq<WindowSpec>, i: nat)
    requires i < |ws|
    ensures WindowAgents(ws[..i + 1]) == WindowAgents(ws[..i]) + ws[i].agentNames
  {
    assert ws[..i + 1][..i] == ws[..i];
  }

  method CheckWindows(c: Config) returns (ok: bool)
    requires c.windows.Some?
    ensures ok <==> WindowsOk(c)
  {
    hide WindowOk, WindowName, WindowAgents, Distinct;
    var ws := c.windows.value;
    if ws == [] {
      return false;
    }
    var seen := {};
    for i := 0 to |ws|
      invariant forall k :: 0 <= k < i ==> WindowOk(ws[k])
      invariant forall j, k :: 0 <= j < k < i ==> ws[j].name != ws[k].name
      invariant forall n :: n in seen <==> exists k :: 0 <= k < i && ws[k].name == n
    {
      var good := CheckWindow(ws[i]);
      if !good || ws[i].name in seen {
        return false;
      }
      seen := seen + {ws[i].name};
    }
    var agentsOk := CheckWindowAgents(ws, c.agents.Keys);
    var entry := WindowName(if c.entryWindow.Some? then c.entryWindow.value else ws[0].name);
    return agentsOk && entry.Some? && entry.value in seen;
  }

  /** `ProjectConfig::validate`. */
  method ValidateConfig(c: Config) returns (ok: bool)
    ensures ok <==> ValidConfig(c)
  {
    hide AgentsOk, DefaultsOk, LayoutOk, WindowsOk;
    if c.version != 2 {
      return false;
    }
    var agentsOk := CheckAgents(FlatOf(c));
    var defaultsOk := CheckDefaults(FlatOf(c));
    if !agentsOk || !defaultsOk {
      return false;
    }
    if c.windows.Some? {
      var windowsOk := CheckWindows(c);
      if !windowsOk {
        return false;
      }
    } else {
      if !NoWindowUi(c) {
        return false;
      }
      var layoutOk := Validate(FlatOf(c));
      if !layoutOk {
        return false;
      }
    }
    ok := CheckUi(c);
  }

  /** The optional parts, as the end of `ProjectConfig::validate` checks them. */
  method CheckUi(c: Config) returns (ok: bool)
    ensures ok <==> UiOk(c)
  {
    hide SidebarOk, SidebarViewOk, HeartbeatOk, ToolsOk;
    var toolsOk := CheckTools(ToolsOf(c));
    if !toolsOk || (c.sidebar.Some? && !SidebarOk(c.sidebar.value)) {
      return false;
    }
    if c.sidebarView.Some? {
      var viewOk := CheckSidebarView(c.sidebarView.value);
      if !viewOk {
        return false;
      }
    }
    return c.heartbeat.Some? ==> HeartbeatOk(c.heartbeat.value);
  }

  datatype Verdict = Accepted | Refused | Panicked

  /** A step that ends as `o` says, with verdict `v`, leaves the configuration `c`. */
  predicate Ends(o: Outcome, v: Verdict, c: Config) {
    match o
    case Done(d) => v == Accepted && c == d
    case Rejected(d) => v == Refused && c == d
    case Crash(d) => v == Panicked && c == d
  }

  class ProjectConfig {
    var version: nat
    var defaultAgents: seq<string>
    var agents: map<string, AgentSpec>
    var cmdEnabled: bool
    var layoutSpec: Option<string>
    var windows: Option<seq<WindowSpec>>
    var tools: Option<seq<ToolWindowSpec>>
    var entryWindow: Option<string>
    var sidebar: Option<SidebarSpec>
    var sidebarView: Option<SidebarViewSpec>
    var heartbeat: Option<HeartbeatSpec>
    var windowsExplicit: Option<bool>
    var signature: Option<Topology>

    function Value(): Config reads this {
      Config(version, defaultAgents, agents, cmdEnabled, layoutSpec, windows, tools, entryWindow, sidebar, sidebarView,
             heartbeat, windowsExplicit, signature)
    }

    /** Each window gets its position and is checked, up to the first that is not acceptable. */
    method OrderWindows() returns (ok: bool)
      requires windows.Some?
      modifies this`windows
      ensures var given := old(windows.value);
        var bad := FirstBad(Ordered(given), 0);
        && (ok <==> bad == |given|)
        && windows == Some(OrderedUpTo(given, if ok then |given| else bad + 1))
    {
      hide WindowOk, OrderedUpTo, FirstBad;
      ghost var given := windows.value;
      OrderedEnds(given);
      FirstBadIs(Ordered(given), 0);
      for i := 0 to |windows.value|
        invariant windows == Some(OrderedUpTo(given, i))
        invariant forall k :: 0 <= k < i ==> WindowOk(Ordered(given)[k])
      {
        OrderedStep(given, i);
        var w := windows.value[i].(order := i);
        windows := Some(windows.value[i := w]);
        var good := CheckWindow(w);
        if !good {
          return false;
        }
      }
      return true;
    }

    /** Windows get their positions, each is checked, and the entry window is settled. */
    method ArrangeWindows() returns (v: Verdict)
      requires windows.Some?
      modifies this
      ensures Ends(Arranged(old(Value())), v, Value())
    {
      hide WindowName, OrderedUpTo, FirstBad;
      windowsExplicit := Some(true);
      if layoutSpec.Some? || cmdEnabled {
        return Refused;
      }
      OrderedEnds(windows.value);
      var ok := OrderWindows();
      if !ok {
        return Refused;
      }
      if entryWindow.None? && windows.value == [] {
        return Panicked;
      }
      var entry := WindowName(if entryWindow.Some? then entryWindow.value else windows.value[0].name);
      if entry.None? {
        return Refused;
      }
      entryWindow := entry;
      return Accepted;
    }

    /** A blank layout is generated from the default agents. */
    method ArrangeLayout() returns (v: Verdict)
      requires windows.None?
      modifies this
      ensures Ends(Arranged(old(Value())), v, Value())
    {
      hide Trim, Balanced, Render, CleanNames;
      windowsExplicit := Some(false);
      if layoutSpec.Some? && Trim(layoutSpec.value) != "" {
        return Accepted;
      }
      var layout := BuildBalancedLayout(defaultAgents, Providers(agents), Modes(agents), cmdEnabled);
      if layout.None? {
        return Panicked;
      }
      layoutSpec := Some(Render(layout.value));
      return Accepted;
    }

    /** The missing parts get their defaults. */
    method FillDefaults()
      modifies this
      ensures Value() == Filled(old(Value()))
    {
      if windows.Some? {
        if sidebar.None? {
          sidebar := Some(DEFAULT_SIDEBAR);
        }
        if sidebarView.None? {
          sidebarView := Some(DEFAULT_SIDEBAR_VIEW);
        }
      }
      if heartbeat.None? {
        heartbeat := Some(DEFAULT_HEARTBEAT);
      }
    }

    /** The end of normalisation: defaults, signature, and the check of the whole. */
    method Finish() returns (ok: bool)
      modifies this
      ensures Value() == Signed(old(Value())) && (ok <==> ValidConfig(Value()))
    {
      hide Filled, ToolRecords, SidebarRecordOf, ValidConfig;
      SignedAfterFilled(Value());
      FillDefaults();
      signature := Signed(Value()).signature;
      ok := ValidateConfig(Value());
    }

    /** `ProjectConfig::normalize`, with what the fields hold after an error. */
    method Normalize() returns (v: Verdict)
      modifies this
      ensures Ends(Normalized(old(Value())), v, Value())
    {
      hide AgentsNormalize, NormalAgents, NormalizeAll, Arranged, ValidConfig, Signed;
      if version != 2 {
        return Refused;
      }
      var drained := agents;
      agents := map[];
      var normalAgents := NormalizeAgents(drained);
      if normalAgents.None? {
        return Refused;
      }
      agents := normalAgents.value;
      var normalDefaults := NormalizeDefaults(defaultAgents);
      if normalDefaults.None? {
        return Refused;
      }
      defaultAgents := normalDefaults.value;
      if windows.Some? {
        v := ArrangeWindows();
      } else {
        v := ArrangeLayout();
      }
      if v != Accepted {
        return;
      }
      var ok := Finish();
      if !ok {
        return Refused;
      }
      return Accepted;
    }
  }
}
