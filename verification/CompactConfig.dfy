/** Compact configuration files: a layout text that declares the agents, and writing such a configuration back. */
module CompactConfigs {
  import opened Text
  import opened Layout
  import opened LeafToken
  import opened Grammar
  import opened LayoutParsing
  import opened RoundTrip
  import opened AgentNames
  import opened AgentSpecs
  import opened LayoutPlanning
  import opened ConfigNormalizing

  // ---- What kind of document a text is ----

  datatype DocumentKind = Rich | Compact | Hybrid(firstRich: nat)

  function Body(line: string): string { Trim(StripComment(line)) }

  predicate IsRichLine(line: string) { Body(line) != "" && (Body(line)[0] == '[' || '=' in Body(line)) }

  /** The first line from `i` on that is not blank, or `|lines|`. */
  function FirstMeaningful(lines: seq<string>, i: nat): (k: nat)
    requires i <= |lines|
    ensures i <= k <= |lines|
    decreases |lines| - i
  {
    if i == |lines| || Body(lines[i]) != "" then i else FirstMeaningful(lines, i + 1)
  }

  function FirstRich(lines: seq<string>, i: nat): (k: nat)
    requires i <= |lines|
    ensures i <= k <= |lines|
    decreases |lines| - i
  {
    if i == |lines| || IsRichLine(lines[i]) then i else FirstRich(lines, i + 1)
  }

  function Classify(lines: seq<string>): DocumentKind {
    var m, r := FirstMeaningful(lines, 0), FirstRich(lines, 0);
    if r == |lines| then Compact else if m == r then Rich else Hybrid(r)
  }

  /** `classify_config_document`: the lines are scanned until a rich one is met. */
  method ClassifyDocument(lines: seq<string>) returns (kind: DocumentKind)
    ensures kind == Classify(lines)
  {
    hide Body;
    var firstIsRich: Option<bool> := None;
    var firstRich: Option<nat> := None;
    var index := 0;
    while index < |lines| && firstRich.None?
      invariant index <= |lines|
      invariant firstRich.None? ==> FirstRich(lines, index) == FirstRich(lines, 0)
      invariant firstRich.Some? ==> FirstRich(lines, 0) == firstRich.value < |lines|
      invariant firstIsRich.None? ==> firstRich.None? && FirstMeaningful(lines, index) == FirstMeaningful(lines, 0)
      invariant firstIsRich.Some? && firstIsRich.value ==>
                  firstRich.Some? && firstRich.value == FirstMeaningful(lines, 0)
      invariant firstIsRich.Some? && !firstIsRich.value ==>
                  FirstMeaningful(lines, 0) < index && (firstRich.Some? ==> FirstMeaningful(lines, 0) < firstRich.value)
      decreases |lines| - index, firstRich.None?
    {
      var body := Body(lines[index]);
      if body == "" {
        index := index + 1;
        continue;
      }
      var rich := body[0] == '[' || '=' in body;
      if firstIsRich.None? {
        firstIsRich := Some(rich);
      }
      if rich {
        firstRich := Some(index);
      } else {
        index := index + 1;
      }
    }
    if firstRich.None? {
      return Compact;
    }
    if firstIsRich.value {
      return Rich;
    }
    return Hybrid(firstRich.value);
  }

  predicate IsFirst(k: nat, lines: seq<string>, kind: string -> bool) {
    k < |lines| && kind(lines[k]) && forall i :: 0 <= i < k ==> !kind(lines[i])
  }

  /** The kind is decided by the first line that says anything and the first rich line. */
  lemma ClassifyDecides(lines: seq<string>)
    ensures Classify(lines) == Compact <==> forall i :: 0 <= i < |lines| ==> !IsRichLine(lines[i])
    ensures Classify(lines) == Rich <==> exists k: nat :: IsFirst(k, lines, l => Body(l) != "") && IsRichLine(lines[k])
    ensures forall k: nat :: Classify(lines) == Hybrid(k) <==>
              IsFirst(k, lines, IsRichLine) && exists i :: 0 <= i < k && Body(lines[i]) != ""
  {
    hide Body;
    FirstMeaningfulIs(lines, 0);
    FirstRichIs(lines, 0);
    var m, r := FirstMeaningful(lines, 0), FirstRich(lines, 0);
    if r < |lines| {
      RichLineSaysSomething(lines[r]);
      assert m <= r;
    }
    if m < |lines| {
      assert IsFirst(m, lines, l => Body(l) != "");
    }
  }

  lemma RichLineSaysSomething(line: string)
    requires IsRichLine(line)
    ensures Body(line) != ""
  {
  }

  lemma {:induction false} FirstMeaningfulIs(lines: seq<string>, i: nat)
    requires i <= |lines|
    ensures var k := FirstMeaningful(lines, i);
      (forall j :: i <= j < k ==> Body(lines[j]) == "") && (k < |lines| ==> Body(lines[k]) != "")
    decreases |lines| - i
  {
    hide Body;
    if i < |lines| && Body(lines[i]) == "" { FirstMeaningfulIs(lines, i + 1); }
  }

  lemma {:induction false} FirstRichIs(lines: seq<string>, i: nat)
    requires i <= |lines|
    ensures var k := FirstRich(lines, i);
      (forall j :: i <= j < k ==> !IsRichLine(lines[j])) && (k < |lines| ==> IsRichLine(lines[k]))
    decreases |lines| - i
  {
    hide IsRichLine;
    if i < |lines| && !IsRichLine(lines[i]) { FirstRichIs(lines, i + 1); }
  }

  // ---- Reading a compact document ----

  /** The bodies of the lines, joined by single spaces. */
  function JoinBodies(lines: seq<string>): string {
    if lines == [] then ""
    else
      var head, body := JoinBodies(lines[..|lines| - 1]), Body(lines[|lines| - 1]);
      if body == "" then head else if head == "" then body else head + " " + body
  }

  /** `default_with_name`, with the declared provider and mode. */
  function DeclaredAgent(name: string, provider: string, mode: WorkspaceMode): AgentSpec {
    AgentSpec(name, provider, ".", mode, None, None, None, None, None, None, [], None)
  }

  function ModeOf(leaf: LayoutLeaf): WorkspaceMode { if leaf.mode == Some("worktree") then GitWorktree else Inplace }

  datatype Declared = Declared(names: seq<string>, agents: map<string, AgentSpec>, cmd: bool)

  /** The declarations in the leaves: `cmd` at most once and without provider, every agent with one. */
  function Declarations(leaves: seq<LayoutLeaf>): Option<Declared> {
    if leaves == [] then Some(Declared([], map[], false))
    else
      var last, d := leaves[|leaves| - 1], Declarations(leaves[..|leaves| - 1]);
      if d.None? then None
      else
        var token := Trim(last.name);
        if Lower(token) == "cmd" then
          if last.provider.Some? || d.value.cmd then None else Some(d.value.(cmd := true))
        else if last.provider.None? then None
        else
          var spec := DeclaredAgent(token, last.provider.value, ModeOf(last));
          Some(d.value.(names := d.value.names + [token], agents := d.value.agents[token := spec]))
  }

  function ReadCompact(lines: seq<string>): Option<(Declared, LayoutNode)> {
    if JoinBodies(lines) == "" then None
    else
      match ParseLayout(JoinBodies(lines))
      case Err(_) => None
      case Ok(layout) =>
        match Declarations(layout.Leaves())
        case None => None
        case Some(d) => if d.names == [] then None else Some((d, layout))
  }

  /** `parse_compact_config_document`. */
  method ParseCompactDocument(lines: seq<string>) returns (r: Option<(Declared, LayoutNode)>)
    ensures r == ReadCompact(lines)
  {
    hide Body, ParseLayout, Trim;
    var layoutText := "";
    for i := 0 to |lines|
      invariant layoutText == JoinBodies(lines[..i])
    {
      assert lines[..i + 1][..i] == lines[..i];
      var cleaned := Body(lines[i]);
      if cleaned != "" {
        if layoutText != "" {
          layoutText := layoutText + " ";
        }
        layoutText := layoutText + cleaned;
      }
    }
    assert lines[..|lines|] == lines;
    if layoutText == "" {
      return None;
    }
    var layout := ParseLayoutSpec(layoutText);
    if layout.Err? {
      return None;
    }
    var leaves := layout.value.Leaves();
    var names, agents, cmdEnabled := [], map[], false;
    for i := 0 to |leaves|
      invariant Declarations(leaves[..i]) == Some(Declared(names, agents, cmdEnabled))
    {
      assert leaves[..i + 1][..i] == leaves[..i];
      var leaf := leaves[i];
      var token := Trim(leaf.name);
      if Lower(token) == "cmd" {
        if leaf.provider.Some? || cmdEnabled {
          DeclarationsStop(leaves, i + 1);
          return None;
        }
        cmdEnabled := true;
        continue;
      }
      if leaf.provider.None? {
        DeclarationsStop(leaves, i + 1);
        return None;
      }
      names := names + [token];
      agents := agents[token := DeclaredAgent(token, leaf.provider.value, ModeOf(leaf))];
    }
    assert leaves[..|leaves|] == leaves;
    if names == [] {
      return None;
    }
    return Some((Declared(names, agents, cmdEnabled), layout.value));
  }

  lemma {:induction false} DeclarationsStop(leaves: seq<LayoutLeaf>, i: nat)
    requires i <= |leaves| && Declarations(leaves[..i]).None?
    ensures Declarations(leaves).None?
    decreases |leaves|
  {
    hide Trim, Lower;
    if i == |leaves| {
      assert leaves[..i] == leaves;
    } else {
      assert leaves[..|leaves| - 1][..i] == leaves[..i];
      DeclarationsStop(leaves[..|leaves| - 1], i);
    }
  }

  // ---- Loading: reading, then normalising ----

  /** The configuration a compact document gives, before it is normalised. */
  function ConfigOf(d: Declared, layoutSpec: string): Config {
    Config(2, d.names, d.agents, d.cmd, Some(layoutSpec), None, None, None, None, None, None, Some(false), None)
  }

  /** Loading the lines of a compact document. */
  function LoadLines(lines: seq<string>): Option<Config> {
    if Classify(lines) != Compact then None
    else
      match ReadCompact(lines)
      case None => None
      case Some((d, layout)) =>
        match Normalized(ConfigOf(d, Render(layout)))
        case Done(c) => Some(c)
        case _ => None
  }

  function Load(text: string): Option<Config> { LoadLines(Lines(text)) }

  // ---- Writing ----

  /** `is_compact_agent_compatible`: nothing but provider and mode differs from the defaults. */
  predicate IsCompactAgent(s: AgentSpec) {
    && s.target == "." && (s.mode == Inplace || s.mode == GitWorktree) && s.workspaceRoot.None?
    && s.model.None? && s.startupArgs == [] && s.branchTemplate.None?
  }

  /** An agent compatible with the compact form: nothing is set that the form cannot say, but for a path, a group, a
      command template and a role, which are not looked at. */
  lemma CompactAgentExactly(s: AgentSpec)
    ensures IsCompactAgent(s) <==>
      && s.mode != WorkspaceMode.Copy
      && s == AgentSpec(s.name, s.provider, ".", s.mode, None, s.workspacePath, s.workspaceGroup, None,
                        s.commandTemplate, None, [], s.role)
  {}

  predicate CanRenderCompact(c: Config) {
    c.cmdEnabled && forall n :: n in c.defaultAgents ==> n in c.agents && IsCompactAgent(c.agents[n])
  }

  function RenderCompact(c: Config): string
    requires CanRenderCompact(c)
  {
    LayoutText(ConfigNormalizing.FlatOf(c)) + "\n"
  }

  // ---- The round trip ----

  lemma {:induction false} RenderIsTrimmed(n: LayoutNode)
    requires WfTree(n)
    ensures Trimmed(Render(n)) && Render(n) != []
  {
    hide IsSpace, WfLeaf, RenderLeaf;
    match n
    case Leaf(l) => LeafIsTrimmed(l);
    case Split(k, l, r) =>
      RenderIsTrimmed(l);
      RenderIsTrimmed(r);
      ChildText(l, k);
      ChildText(r, k);
      MarksAreNotSpace();
      var a, b := RenderChild(l, k), RenderChild(r, k);
      assert Render(n)[0] == a[0] && Render(n)[|Render(n)| - 1] == b[|b| - 1];
  }

  lemma FirstIndexNone(s: string, c: char)
    requires c !in s
    ensures FirstIndex(s + [c], c) == |s|
  {
    FirstIndexAt(s, c, "");
    assert s + [c] + "" == s + [c];
  }

  /** The rendered line is read as it is. */
  lemma RenderedLine(n: LayoutNode)
    requires WfTree(n)
    ensures Lines(Render(n) + "\n") == [Render(n)] && Body(Render(n)) == Render(n) && !IsRichLine(Render(n))
  {
    hide Trim, IsSpace;
    var t := Render(n);
    RenderIsInert(n);
    RenderIsTrimmed(n);
    PlainTextIsOneLine(t);
    TrimOfTrimmed(t);
    OneLine(t);
  }

  lemma OneLine(t: string)
    requires t != [] && '\n' !in t && Trimmed(t)
    ensures Lines(t + "\n") == [t]
  {
    var s := t + ['\n'];
    FirstIndexNone(t, '\n');
    assert s[..|t|] == t && s[|t| + 1..] == [];
    assert t[|t| - 1] != '\r';
    assert Lines([]) == [];
  }

  /** Reading the rendered line gives the same declarations and the re-associated layout. */
  lemma RereadCompact(n: LayoutNode, d: Declared)
    requires WfTree(n) && Declarations(n.Leaves()) == Some(d) && d.names != []
    ensures Classify([Render(n)]) == Compact && ReadCompact([Render(n)]) == Some((d, Norm(n)))
  {
    hide Body, Declarations, Render, ParseLayout;
    var lines := [Render(n)];
    RenderedLine(n);
    RenderIsTrimmed(n);
    ParseRender(n);
    NormLeaves(n);
    assert lines[..0] == [] && JoinBodies([]) == "";
    assert JoinBodies(lines) == Render(n);
  }

  /** Writing a loaded configuration that has a `cmd` pane and loading the text again gives the same configuration:
      agents in order, providers, workspace modes and layout text. */
  lemma CompactRoundTrip(text: string, c: Config)
    requires Load(text) == Some(c) && c.cmdEnabled
    ensures CanRenderCompact(c) && Load(RenderCompact(c)) == Some(c)
  {
    hide ParseLayout, Render, Declarations, JoinBodies, Classify, Lines, Normalized, IsCompactAgent;
    var (d, layout) := ReadCompact(Lines(text)).value;
    ReparseIsStable(JoinBodies(Lines(text)), layout);
    DeclaredAreCompact(layout.Leaves());
    RenderIsTrimmed(layout);
    LoadedIsCompact(d, Render(layout));
    RereadCompact(layout, d);
    RenderedLine(layout);
    NormRenders(layout);
  }

  lemma {:induction false} DeclaredAreCompact(leaves: seq<LayoutLeaf>)
    requires Declarations(leaves).Some?
    ensures forall k :: k in Declarations(leaves).value.agents ==> IsCompactAgent(Declarations(leaves).value.agents[k])
    decreases |leaves|
  {
    hide Trim, Lower;
    if leaves != [] { DeclaredAreCompact(leaves[..|leaves| - 1]); }
  }

  lemma CompactStaysCompact(s: AgentSpec)
    requires IsCompactAgent(s) && SpecOk(s)
    ensures IsCompactAgent(NormalSpec(s))
  {
    TrimOfTrimmed(".");
  }

  /** Loading keeps the layout text of a compact document and its agents compact. */
  lemma LoadedIsCompact(d: Declared, layoutSpec: string)
    requires Normalized(ConfigOf(d, layoutSpec)).Done? && layoutSpec != [] && Trimmed(layoutSpec)
    requires forall k :: k in d.agents ==> IsCompactAgent(d.agents[k])
    ensures var c := Normalized(ConfigOf(d, layoutSpec)).config;
      && c.layoutSpec == Some(layoutSpec)
      && forall n :: n in c.defaultAgents ==> n in c.agents && IsCompactAgent(c.agents[n])
  {
    hide AgentsNormalize, NormalAgents, NormalizeAll, ValidConfig, IsCompactAgent, Trim, IsAgentName, Distinct,
         LayoutOk, ConfigNormalizing.WindowAgents;
    NormalizedIsConsistent(ConfigOf(d, layoutSpec));
    TrimOfTrimmed(layoutSpec);
    forall n | n in NormalAgents(d.agents) ensures IsCompactAgent(NormalAgents(d.agents)[n]) {
      var j := AgentFrom(d.agents, n);
      CompactStaysCompact(d.agents[j]);
    }
  }

  /** The layout of a loaded configuration shows exactly the normalised agents and `cmd`, each once. */
  lemma LoadedLayoutShowsAgents(text: string, c: Config)
    requires Load(text) == Some(c)
    ensures c.layoutSpec.Some? && var layout := ParseLayout(c.layoutSpec.value);
      && layout.Ok? && Render(layout.value) == c.layoutSpec.value && Distinct(layout.value.Names())
      && (set n | n in layout.value.Names()) == (set n | n in c.defaultAgents) + if c.cmdEnabled then {"cmd"} else {}
  {
    hide ParseLayout, Render, Declarations, JoinBodies, Classify, Lines, Distinct, Normalized;
    var (d, layout) := ReadCompact(Lines(text)).value;
    ReparseIsStable(JoinBodies(Lines(text)), layout);
    DeclaredAreCompact(layout.Leaves());
    RenderIsTrimmed(layout);
    LoadedIsCompact(d, Render(layout));
    LoadedIsValid(d, Render(layout));
  }

  lemma LoadedIsValid(d: Declared, layoutSpec: string)
    requires Normalized(ConfigOf(d, layoutSpec)).Done?
    ensures LayoutOk(ConfigNormalizing.FlatOf(Normalized(ConfigOf(d, layoutSpec)).config))
  {
    hide AgentsNormalize, NormalAgents, NormalizeAll, LayoutOk, AgentsOk, DefaultsOk, Trim;
  }
}
