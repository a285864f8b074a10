/** The parts of a project configuration around its windows: tool windows, sidebar, sidebar view and heartbeat. */
module UiSpecs {
  import opened Text
  import opened LeafToken
  import opened AgentNames

  datatype ToolWindowSpec = ToolWindowSpec(
    name: string, order: U32, command: string, caption: Option<string>, showInSidebar: bool)

  datatype SidebarDimension = Percent(text: string) | Pixels(count: U32)

  datatype SidebarSpec = SidebarSpec(mode: string, width: SidebarDimension, bottomHeight: U32)

  datatype SidebarViewSpec = SidebarViewSpec(
    agentsHeight: SidebarDimension, commsHeight: SidebarDimension, tipsHeight: SidebarDimension, commsLimit: U32,
    commsCompact: bool, tipsEnabled: bool, tips: seq<string>)

  datatype HeartbeatSpec = HeartbeatSpec(
    enabled: bool, assessor: string, interval: U32, minInterval: U32, unknownStreakCap: U32, escalationPolicy: string,
    startupEnsure: bool)

  // ---- Defaults ----

  const DEFAULT_TIPS: seq<string> :=
    ["C-b d  detach", "C-b h/j/k/l pane", "C-b H/J/K/L resize", "C-b o  next pane", "C-b z  zoom", "C-b w  tree",
     "C-b n/p next/prev", "C-b 0-9 jump win", "C-b [  copy mode", "copy: PgUp/PgDn", "copy: v select", "copy: y yank",
     "copy: q exit", "C-b ]  paste", "C-b c  new win", "C-b ,  rename", "C-b ?  keys"]

  const DEFAULT_SIDEBAR := SidebarSpec("every_window", Percent("15%"), 20)

  const DEFAULT_SIDEBAR_VIEW :=
    SidebarViewSpec(Percent("50%"), Percent("15%"), Percent("35%"), 5, true, true, DEFAULT_TIPS)

  const DEFAULT_HEARTBEAT := HeartbeatSpec(false, "ccbr_self", 3600, 300, 3, "report_only", true)

  // ---- Checks ----

  /** `validate_window_name`: trimmed, `^[A-Za-z][A-Za-z0-9_-]*$`. */
  function WindowName(name: string): Option<string> {
    var n := Trim(name);
    if n != "" && IsAlpha(n[0]) && AllIn(ProviderChar, n) then Some(n) else None
  }

  predicate ToolOk(t: ToolWindowSpec) { WindowName(t.name).Some? && Trim(t.command) != "" }

  predicate ToolsOk(tools: seq<ToolWindowSpec>) {
    && (forall i :: 0 <= i < |tools| ==> ToolOk(tools[i]))
    && forall i, j :: 0 <= i < j < |tools| ==> tools[i].name != tools[j].name
  }

  function DropPercents(s: string): string {
    if s != [] && s[|s| - 1] == '%' then DropPercents(s[..|s| - 1]) else s
  }

  /** `str::parse::<u32>`: digits after an optional plus sign, if the value fits. */
  function ParseUnsigned(s: string): Option<U32> {
    var digits := if s != [] && s[0] == '+' then s[1..] else s;
    if IsDigits(digits) && ReadNat(digits) < 0x1_0000_0000 then Some(ReadNat(digits)) else None
  }

  predicate SidebarOk(s: SidebarSpec) {
    && (Trim(s.mode) == "every_window" || Trim(s.mode) == "off")
    && match s.width
       case Pixels(n) => n > 0
       case Percent(text) => ParseUnsigned(DropPercents(text)).Some? && ParseUnsigned(DropPercents(text)).value != 0
  }

  predicate SidebarViewOk(v: SidebarViewSpec) {
    v.commsLimit != 0 && forall i :: 0 <= i < |v.tips| ==> Trim(v.tips[i]) != ""
  }

  predicate HeartbeatOk(h: HeartbeatSpec) {
    && NormalizeAgentName(h.assessor).Some?
    && 0 < h.minInterval <= h.interval && h.unknownStreakCap != 0
    && Lower(Trim(h.escalationPolicy)) in {"ask_user", "report_only"}
  }

  /** The loop over the tool windows in `ProjectConfig::validate`. */
  method CheckTools(tools: seq<ToolWindowSpec>) returns (ok: bool)
    ensures ok <==> ToolsOk(tools)
  {
    hide WindowName, Trim;
    var seen := {};
    for i := 0 to |tools|
      invariant forall k :: 0 <= k < i ==> ToolOk(tools[k])
      invariant forall j, k :: 0 <= j < k < i ==> tools[j].name != tools[k].name
      invariant forall n :: n in seen <==> exists k :: 0 <= k < i && tools[k].name == n
    {
      if !ToolOk(tools[i]) || tools[i].name in seen {
        return false;
      }
      seen := seen + {tools[i].name};
    }
    return true;
  }

  /** `SidebarViewSpec::validate`. */
  method CheckSidebarView(v: SidebarViewSpec) returns (ok: bool)
    ensures ok <==> SidebarViewOk(v)
  {
    hide Trim;
    if v.commsLimit == 0 {
      return false;
    }
    for i := 0 to |v.tips|
      invariant forall k :: 0 <= k < i ==> Trim(v.tips[k]) != ""
    {
      if Trim(v.tips[i]) == "" {
        return false;
      }
    }
    return true;
  }

  // ---- The checks, in the terms of the fields ----

  /** A window name is a letter followed by letters, digits, `_` and `-`, white space around it aside. */
  lemma WindowNameExactly(name: string)
    ensures var n := Trim(name);
      && (WindowName(name).Some? <==>
            && n != "" && ('a' <= n[0] <= 'z' || 'A' <= n[0] <= 'Z')
            && forall i :: 0 <= i < |n| ==>
                 'a' <= n[i] <= 'z' || 'A' <= n[i] <= 'Z' || '0' <= n[i] <= '9' || n[i] == '_' || n[i] == '-')
      && (WindowName(name).Some? ==> WindowName(name).value == n)
  {
    hide Trim;
  }

  lemma ToolExactly(t: ToolWindowSpec)
    ensures ToolOk(t) <==> WindowName(t.name) == Some(Trim(t.name)) && !AllSpace(t.command)
  {
    hide Trim, AllSpace;
    TrimIsTrimmed(t.command);
  }

  /** A heartbeat has a legal assessor, a smallest interval of at least one second that its interval is not below, a
      positive cap, and one of two policies. */
  lemma HeartbeatExactly(h: HeartbeatSpec)
    ensures HeartbeatOk(h) <==>
      && NormalizeAgentName(h.assessor) != None && h.interval > 0 && h.minInterval > 0 && h.minInterval <= h.interval
      && h.unknownStreakCap > 0
      && (Lower(Trim(h.escalationPolicy)) == "ask_user" || Lower(Trim(h.escalationPolicy)) == "report_only")
  {
    hide Trim, Lower, NormalizeAgentName;
  }

  lemma SidebarViewExactly(v: SidebarViewSpec)
    ensures SidebarViewOk(v) <==> v.commsLimit > 0 && forall tip :: tip in v.tips ==> !AllSpace(tip)
  {
    hide Trim, AllSpace;
    forall i | 0 <= i < |v.tips| ensures Trim(v.tips[i]) == "" <==> AllSpace(v.tips[i]) { TrimIsTrimmed(v.tips[i]); }
    assert forall i :: 0 <= i < |v.tips| ==> v.tips[i] in v.tips;
  }

  function Percents(k: nat): string { if k == 0 then "" else Percents(k - 1) + "%" }

  /** A width in percent is a number of at most 32 bits, other than zero, with a plus sign before it or not and any
      number of percent signs behind it; a width in columns is not zero. */
  lemma SidebarWidths(mode: string, digits: string, k: nat, n: U32, bottom: U32)
    requires IsDigits(digits) && (Trim(mode) == "every_window" || Trim(mode) == "off")
    ensures SidebarOk(SidebarSpec(mode, Percent(digits + Percents(k)), bottom)) <==> 0 < ReadNat(digits) < 0x1_0000_0000
    ensures SidebarOk(SidebarSpec(mode, Percent("+" + digits + Percents(k)), bottom)) <==>
            0 < ReadNat(digits) < 0x1_0000_0000
    ensures SidebarOk(SidebarSpec(mode, Pixels(n), bottom)) <==> n > 0
  {
    hide Trim, ReadNat;
    DigitsEnd(digits);
    PercentsDropped(digits, k);
    PercentsDropped("+" + digits, k);
    assert ("+" + digits)[1..] == digits && ("+" + digits)[|digits|] == digits[|digits| - 1];
  }

  lemma DigitsEnd(digits: string)
    requires IsDigits(digits)
    ensures digits[0] != '+' && digits[|digits| - 1] != '%'
  {
    assert InClass(Digit, digits[0]) && InClass(Digit, digits[|digits| - 1]);
  }

  lemma {:induction false} PercentsDropped(s: string, k: nat)
    requires s != "" && s[|s| - 1] != '%'
    ensures DropPercents(s + Percents(k)) == s
  {
    var t := s + Percents(k);
    if k == 0 {
      assert t == s;
    } else {
      assert t == s + Percents(k - 1) + "%" && t[..|t| - 1] == s + Percents(k - 1);
      PercentsDropped(s, k - 1);
    }
  }

  /** The sidebar has one of two modes, white space around it aside. */
  lemma SidebarModes(s: SidebarSpec)
    requires SidebarOk(s)
    ensures Trim(s.mode) == "every_window" || Trim(s.mode) == "off"
  {}

  // ---- The defaults are acceptable ----

  /** What normalisation fills in always passes the checks that follow. */
  lemma DefaultsAreOk()
    ensures SidebarOk(DEFAULT_SIDEBAR) && SidebarViewOk(DEFAULT_SIDEBAR_VIEW) && HeartbeatOk(DEFAULT_HEARTBEAT)
  {
    hide Trim, DropPercents, ParseUnsigned, NormalizeAgentName;
    assert Trimmed("every_window");
    TrimOfTrimmed("every_window");
    FifteenPercent();
    TipsSayMuch();
    DefaultHeartbeatOk();
  }

  lemma FifteenPercent()
    ensures ParseUnsigned(DropPercents("15%")) == Some(15)
  {
    assert "15%"[..2] == "15" && "15"[..1] == "1" && "1"[..0] == [];
    assert DropPercents("15") == "15";
    assert IsDigits("15");
  }

  lemma TipsSayMuch()
    ensures forall i :: 0 <= i < |DEFAULT_TIPS| ==> Trim(DEFAULT_TIPS[i]) != ""
  {
    hide Trim;
    forall i | 0 <= i < |DEFAULT_TIPS| ensures Trim(DEFAULT_TIPS[i]) != "" {
      assert DEFAULT_TIPS[i] != "" && !IsSpace(DEFAULT_TIPS[i][0]);
      TrimIsTrimmed(DEFAULT_TIPS[i]);
    }
  }

  lemma DefaultHeartbeatOk()
    ensures HeartbeatOk(DEFAULT_HEARTBEAT)
  {
    hide Trim, NormalizeAgentName, Lower;
    assert IsAgentName("ccbr_self") by { PlainLower("ccbr_self"); }
    NormalizeFixpoint("ccbr_self");
    assert Trimmed("report_only");
    TrimOfTrimmed("report_only");
    PlainLower("report_only");
  }

  lemma PlainLower(s: string)
    requires forall c :: c in s ==> !('A' <= c <= 'Z')
    ensures Lower(s) == s
  {
    assert forall i :: 0 <= i < |s| ==> s[i] in s;
  }
}
