/** Hot reload over whole topologies: which windows only grew, by which panes, and which agents are new. */
module AdditiveWindows {
  import opened AgentNames
  import opened LayoutParsing
  import opened RoundTrip
  import opened AppendPlanning
  import opened BalancedLayout

  datatype TopologyWindow = TopologyWindow(name: string, agentNames: seq<string>, userLayout: string, isTool: bool)

  function WindowAgents(w: TopologyWindow): seq<string> { CleanNames(w.agentNames) }

  /** Windows by name; of two with one name the later counts. */
  function WindowMap(topology: seq<TopologyWindow>): (m: map<string, TopologyWindow>)
    ensures forall n :: n in m ==> m[n] in topology && m[n].name == n
    ensures forall w :: w in topology ==> w.name in m
  {
    if topology == [] then map[]
    else
      var last := topology[|topology| - 1];
      WindowMap(topology[..|topology| - 1])[last.name := last]
  }

  // ---- One window ----

  /** `append_agent_plan_for_window`. */
  function WindowPlan(old_: TopologyWindow, new_: TopologyWindow): Outcome {
    var olds, news := WindowAgents(old_), WindowAgents(new_);
    if olds == news then Plan([])
    else if |news| < |olds| then Plan([])
    else if news[..|olds|] != olds then NoPlan
    else
      match PlanTexts(old_.userLayout, new_.userLayout)
      case Plan(plan) => if Agents(plan) != news[|olds|..] then NoPlan else Plan(plan)
      case other => other
  }

  predicate Shrinks(old_: TopologyWindow, new_: TopologyWindow) { |WindowAgents(new_)| < |WindowAgents(old_)| }

  /** A window that lost agents gets the empty plan, whatever else changed. */
  lemma ShrinkingWindow(old_: TopologyWindow, new_: TopologyWindow)
    requires |WindowAgents(new_)| < |WindowAgents(old_)|
    ensures WindowPlan(old_, new_) == Plan([])
  {}

  /** A window whose first agents changed gets no plan. */
  lemma ChangedWindow(old_: TopologyWindow, new_: TopologyWindow)
    requires |WindowAgents(old_)| <= |WindowAgents(new_)| && !(WindowAgents(old_) <= WindowAgents(new_))
    ensures WindowPlan(old_, new_) == NoPlan
  {}

  /** A window that kept its agents and gained some gets the layouts' plan, if that names the gained agents. */
  lemma GrownWindow(old_: TopologyWindow, new_: TopologyWindow)
    requires |WindowAgents(old_)| < |WindowAgents(new_)| && WindowAgents(old_) <= WindowAgents(new_)
    ensures var layouts := PlanTexts(old_.userLayout, new_.userLayout);
      WindowPlan(old_, new_) ==
        if layouts.Plan? && WindowAgents(old_) + Agents(layouts.appends) != WindowAgents(new_) then NoPlan else layouts
  {
    hide CleanNames, PlanTexts, Agents;
    var olds, news := WindowAgents(old_), WindowAgents(new_);
    assert news == olds + news[|olds|..];
    if PlanTexts(old_.userLayout, new_.userLayout).Plan? {
      var agents := Agents(PlanTexts(old_.userLayout, new_.userLayout).appends);
      assert (olds + agents)[|olds|..] == agents;
    }
  }

  /** A plan for a window that does not shrink names exactly its added agents. Replaying it on the old layout gives the
      new one, up to names and re-association, exactly when it is not empty or the layouts are alike: with the same
      agents the plan is empty, and the layouts are not looked at. */
  lemma WindowPlanSound(old_: TopologyWindow, new_: TopologyWindow)
    requires WindowPlan(old_, new_).Plan? && !Shrinks(old_, new_)
    ensures var plan := WindowPlan(old_, new_).appends;
      && WindowAgents(new_) == WindowAgents(old_) + Agents(plan)
      && (plan == [] <==> WindowAgents(new_) == WindowAgents(old_))
      && var o, n := ParseLayout(old_.userLayout), ParseLayout(new_.userLayout);
         && (plan != [] ==> o.Ok? && n.Ok?)
         && (o.Ok? && n.Ok? ==>
               (SameShape(n.value, Replay(o.value, plan)) <==> plan != [] || SameShape(n.value, o.value)))
  {
    hide ParseLayout, CleanNames, SameShape, PlanTrees;
    var plan := WindowPlan(old_, new_).appends;
    var olds, news := WindowAgents(old_), WindowAgents(new_);
    if olds != news {
      assert news == news[..|olds|] + news[|olds|..];
      var o, n := ParseLayout(old_.userLayout).value, ParseLayout(new_.userLayout).value;
      ReparseIsStable(old_.userLayout, o);
      ReparseIsStable(new_.userLayout, n);
      PlanSound(o, n);
      CountNames(o);
      CountNames(n);
      assert |Agents(plan)| == |plan|;
    } else {
      assert olds + Agents([]) == olds;
      if ParseLayout(old_.userLayout).Ok? { ReplayNothing(ParseLayout(old_.userLayout).value); }
    }
  }

  function LowerNames(names: seq<string>): seq<string> {
    seq(|names|, i requires 0 <= i < |names| => Lower(names[i]))
  }

  /** The layout reads, and the agents are its pane names in lower case, as when a window is read from a
      configuration. */
  predicate ListsNormalised(w: TopologyWindow) {
    ParseLayout(w.userLayout).Ok? && WindowAgents(w) == LowerNames(ParseLayout(w.userLayout).value.Names())
  }

  /** A window that gained agents gets a plan exactly when its layouts do and the added panes are written in lower case:
      the plan takes the names from the layout, the agents are normalised. */
  lemma GrownWindowPlan(old_: TopologyWindow, new_: TopologyWindow)
    requires ListsNormalised(old_) && ListsNormalised(new_)
    requires |WindowAgents(old_)| < |WindowAgents(new_)|
    ensures var o, n := ParseLayout(old_.userLayout).value, ParseLayout(new_.userLayout).value;
      WindowPlan(old_, new_).Plan? <==>
        PlanTrees(o, n).Plan? && forall i :: |o.Names()| <= i < |n.Names()| ==> Lower(n.Names()[i]) == n.Names()[i]
  {
    hide ParseLayout, WindowAgents, PlanTrees, Lower, LowerNames;
    var o, n := ParseLayout(old_.userLayout).value, ParseLayout(new_.userLayout).value;
    if PlanTrees(o, n).Plan? {
      ReparseIsStable(old_.userLayout, o);
      ReparseIsStable(new_.userLayout, n);
      PlanSound(o, n);
      LowerTail(o.Names(), Agents(PlanTrees(o, n).appends));
    }
  }

  /** Lower-casing a list longer than `a` keeps its tail exactly when the tail is in lower case. */
  lemma LowerTail(a: seq<string>, b: seq<string>)
    ensures |LowerNames(a)| == |a| && LowerNames(a + b)[..|a|] == LowerNames(a)
    ensures LowerNames(a + b)[|a|..] == b <==>
            forall i :: |a| <= i < |a + b| ==> Lower((a + b)[i]) == (a + b)[i]
  {
    hide Lower;
    var tail := LowerNames(a + b)[|a|..];
    assert forall i :: 0 <= i < |b| ==> (a + b)[|a| + i] == b[i];
    assert forall i :: 0 <= i < |b| ==> tail[i] == Lower(b[i]);
    if tail == b {
      forall i | |a| <= i < |a + b| ensures Lower((a + b)[i]) == (a + b)[i] {
        assert tail[i - |a|] == b[i - |a|];
      }
    }
    if forall i :: |a| <= i < |a + b| ==> Lower((a + b)[i]) == (a + b)[i] {
      forall k | 0 <= k < |b| ensures tail[k] == b[k] { assert Lower((a + b)[|a| + k]) == (a + b)[|a| + k]; }
    }
  }

  /** The agents are the panes of the layout, as when a window is read from a configuration. */
  predicate ListsItsPanes(w: TopologyWindow) {
    ParseLayout(w.userLayout).Ok? ==> |WindowAgents(w)| == ParseLayout(w.userLayout).value.LeafCount()
  }

  /** Planning a window panics exactly when its agent list grew while its layout lost panes; the length guard excludes
      that for windows that list the panes of their layouts. */
  lemma WindowPlanPanics(old_: TopologyWindow, new_: TopologyWindow)
    ensures WindowPlan(old_, new_) == Panics <==>
            var olds, news := WindowAgents(old_), WindowAgents(new_);
            var o, n := ParseLayout(old_.userLayout), ParseLayout(new_.userLayout);
            |olds| < |news| && news[..|olds|] == olds && o.Ok? && n.Ok? && n.value.LeafCount() < o.value.LeafCount()
    ensures ListsItsPanes(old_) && ListsItsPanes(new_) ==> WindowPlan(old_, new_) != Panics
  {
    hide ParseLayout, CleanNames, PlanTexts;
    PlannerPanics(old_.userLayout, new_.userLayout);
    var olds, news := WindowAgents(old_), WindowAgents(new_);
    if |olds| == |news| { assert news[..|olds|] == news; }
  }

  // ---- Whole topologies ----

  datatype Windows = Appends(plans: map<string, seq<Append>>) | NotAdditive | Crash

  /** The windows in both topologies. */
  function Kept(old_: seq<TopologyWindow>, new_: seq<TopologyWindow>): set<string> {
    WindowMap(new_).Keys * WindowMap(old_).Keys
  }

  function KeptPlan(old_: seq<TopologyWindow>, new_: seq<TopologyWindow>, n: string): Outcome
    requires n in Kept(old_, new_)
  {
    WindowPlan(WindowMap(old_)[n], WindowMap(new_)[n])
  }

  /** The plans of the kept windows in `seen` that have one to carry out. */
  function PlansIn(seen: set<string>, old_: seq<TopologyWindow>, new_: seq<TopologyWindow>): map<string, seq<Append>>
    requires forall n :: n in seen && n in Kept(old_, new_) ==> KeptPlan(old_, new_, n).Plan?
  {
    map n | n in seen && n in Kept(old_, new_) && KeptPlan(old_, new_, n).appends != []
      :: KeptPlan(old_, new_, n).appends
  }

  /** `append_agent_windows`, over the windows in any order. */
  method AppendAgentWindows(old_: seq<TopologyWindow>, new_: seq<TopologyWindow>) returns (r: Windows)
    ensures r.Appends? <==> forall n :: n in Kept(old_, new_) ==> KeptPlan(old_, new_, n).Plan?
    ensures r.Appends? ==> r.plans == PlansIn(Kept(old_, new_), old_, new_)
    ensures r.NotAdditive? ==> exists n :: n in Kept(old_, new_) && KeptPlan(old_, new_, n) == NoPlan
    ensures r.Crash? ==> exists n :: n in Kept(old_, new_) && KeptPlan(old_, new_, n) == Panics
  {
    hide WindowMap, KeptPlan, PlansIn;
    var oldWindows, newWindows := WindowMap(old_), WindowMap(new_);
    var append: map<string, seq<Append>> := map[];
    var todo := newWindows.Keys;
    NoPlansYet(newWindows.Keys - todo, old_, new_);
    while todo != {}
      invariant todo <= newWindows.Keys
      invariant forall n :: n in newWindows.Keys - todo && n in Kept(old_, new_) ==> KeptPlan(old_, new_, n).Plan?
      invariant append == PlansIn(newWindows.Keys - todo, old_, new_)
      decreases |todo|
    {
      var name :| name in todo;
      PlansOneMore(newWindows.Keys - todo, name, old_, new_);
      assert newWindows.Keys - (todo - {name}) == newWindows.Keys - todo + {name};
      todo := todo - {name};
      if name !in oldWindows {
        continue;
      }
      assert name in Kept(old_, new_);
      match WindowPlan(oldWindows[name], newWindows[name])
      case NoPlan => return NotAdditive;
      case Panics => return Crash;
      case Plan(plan) =>
        if plan != [] {
          append := append[name := plan];
        }
    }
    PlansOfKept(newWindows.Keys - todo, old_, new_);
    return Appends(append);
  }

  lemma NoPlansYet(seen: set<string>, old_: seq<TopologyWindow>, new_: seq<TopologyWindow>)
    requires seen == {}
    ensures PlansIn(seen, old_, new_) == map[]
  {}

  lemma PlansOneMore(seen: set<string>, x: string, old_: seq<TopologyWindow>, new_: seq<TopologyWindow>)
    requires forall n :: n in seen && n in Kept(old_, new_) ==> KeptPlan(old_, new_, n).Plan?
    ensures x in Kept(old_, new_) ==> KeptPlan(old_, new_, x) == WindowPlan(WindowMap(old_)[x], WindowMap(new_)[x])
    ensures (x in Kept(old_, new_) ==> KeptPlan(old_, new_, x).Plan?) ==>
      PlansIn(seen + {x}, old_, new_) ==
        if x in Kept(old_, new_) && KeptPlan(old_, new_, x).appends != []
        then PlansIn(seen, old_, new_)[x := KeptPlan(old_, new_, x).appends] else PlansIn(seen, old_, new_)
  {
    hide WindowPlan, WindowMap;
  }

  lemma PlansOfKept(seen: set<string>, old_: seq<TopologyWindow>, new_: seq<TopologyWindow>)
    requires Kept(old_, new_) <= seen && forall n :: n in Kept(old_, new_) ==> KeptPlan(old_, new_, n).Plan?
    ensures PlansIn(seen, old_, new_) == PlansIn(Kept(old_, new_), old_, new_)
  {
    hide WindowPlan, WindowMap;
  }

  /** All (window, agent) pairs of a topology. */
  function AgentPairs(topology: seq<TopologyWindow>): set<(string, string)> {
    set w, a | w in topology && a in WindowAgents(w) :: (w.name, a)
  }

  function NewAgentTargets(old_: seq<TopologyWindow>, new_: seq<TopologyWindow>): set<(string, string)> {
    AgentPairs(new_) - AgentPairs(old_)
  }

  /** The agents of windows that did not exist before. */
  function BrandNewTargets(old_: seq<TopologyWindow>, new_: seq<TopologyWindow>): set<(string, string)> {
    set w, a | w in new_ && w.name !in WindowMap(old_) && a in WindowAgents(w) :: (w.name, a)
  }

  /** The planned agents that their window did not have already. */
  function PlannedTargets(plans: map<string, seq<Append>>, old_: seq<TopologyWindow>): set<(string, string)> {
    set n, p | n in plans && n in WindowMap(old_) && p in plans[n] && p.agent !in WindowAgents(WindowMap(old_)[n])
      :: (n, p.agent)
  }

  predicate NothingShrinks(old_: seq<TopologyWindow>, new_: seq<TopologyWindow>) {
    forall n :: n in Kept(old_, new_) ==> !Shrinks(WindowMap(old_)[n], WindowMap(new_)[n])
  }

  lemma AgentsMembers(plan: seq<Append>, a: string)
    ensures a in Agents(plan) <==> exists p :: p in plan && p.agent == a
  {
    if a in Agents(plan) {
      var i :| 0 <= i < |plan| && Agents(plan)[i] == a;
      assert plan[i] in plan;
    }
    if exists p :: p in plan && p.agent == a {
      var p :| p in plan && p.agent == a;
      var i :| 0 <= i < |plan| && plan[i] == p;
      assert Agents(plan)[i] == a;
    }
  }

  lemma KeptAgents(old_: seq<TopologyWindow>, new_: seq<TopologyWindow>, n: string, a: string)
    requires n in Kept(old_, new_) && KeptPlan(old_, new_, n).Plan? && !Shrinks(WindowMap(old_)[n], WindowMap(new_)[n])
    ensures a in WindowAgents(WindowMap(new_)[n]) && a !in WindowAgents(WindowMap(old_)[n]) <==>
            a !in WindowAgents(WindowMap(old_)[n]) && exists p :: p in KeptPlan(old_, new_, n).appends && p.agent == a
  {
    hide WindowMap, WindowAgents, WindowPlan;
    WindowPlanSound(WindowMap(old_)[n], WindowMap(new_)[n]);
    AgentsMembers(KeptPlan(old_, new_, n).appends, a);
  }

  /** The agents of all windows called `n`; validation keeps agent windows apart, but not from tool windows. */
  function NamedAgents(topology: seq<TopologyWindow>, n: string): set<string> {
    set w, a | w in topology && w.name == n && a in WindowAgents(w) :: a
  }

  function AgentSet(w: TopologyWindow): set<string> { set a | a in WindowAgents(w) }

  /** Looking only at the windows in the maps gives the right agents to add under the name `n`. */
  predicate MapsSuffice(old_: seq<TopologyWindow>, new_: seq<TopologyWindow>, n: string)
    requires n in Kept(old_, new_)
  {
    NamedAgents(new_, n) - NamedAgents(old_, n) == AgentSet(WindowMap(new_)[n]) - AgentSet(WindowMap(old_)[n])
  }

  /** When every kept window has a plan and none shrinks, the new agents are those of brand-new windows together with
      the planned ones exactly when, under each kept name, the windows in the maps gained what all windows of that name
      gained. */
  lemma TargetsArePlanned(old_: seq<TopologyWindow>, new_: seq<TopologyWindow>)
    requires NothingShrinks(old_, new_)
    requires forall n :: n in Kept(old_, new_) ==> KeptPlan(old_, new_, n).Plan?
    ensures NewAgentTargets(old_, new_) ==
              BrandNewTargets(old_, new_) + PlannedTargets(PlansIn(Kept(old_, new_), old_, new_), old_)
            <==> forall n :: n in Kept(old_, new_) ==> MapsSuffice(old_, new_, n)
  {
    hide WindowMap, WindowAgents, KeptPlan, NewAgentTargets, BrandNewTargets, PlannedTargets, Shrinks, NamedAgents,
         AgentSet;
    var plans := PlansIn(Kept(old_, new_), old_, new_);
    var targets, planned := NewAgentTargets(old_, new_), BrandNewTargets(old_, new_) + PlannedTargets(plans, old_);
    forall n, a
      ensures n !in Kept(old_, new_) ==> ((n, a) in targets <==> (n, a) in planned)
      ensures n in Kept(old_, new_) ==>
        ((n, a) in targets <==> a in NamedAgents(new_, n) - NamedAgents(old_, n)) &&
        ((n, a) in planned <==> a in AgentSet(WindowMap(new_)[n]) - AgentSet(WindowMap(old_)[n]))
    {
      TargetIsPlanned(old_, new_, n, a);
    }
    SameByName(targets, planned, old_, new_);
  }

  lemma SameByName(targets: set<(string, string)>, planned: set<(string, string)>, old_: seq<TopologyWindow>,
                   new_: seq<TopologyWindow>)
    requires forall n, a :: n !in Kept(old_, new_) ==> ((n, a) in targets <==> (n, a) in planned)
    requires forall n, a :: n in Kept(old_, new_) ==>
      ((n, a) in targets <==> a in NamedAgents(new_, n) - NamedAgents(old_, n)) &&
      ((n, a) in planned <==> a in AgentSet(WindowMap(new_)[n]) - AgentSet(WindowMap(old_)[n]))
    ensures targets == planned <==> forall n :: n in Kept(old_, new_) ==> MapsSuffice(old_, new_, n)
  {
    hide WindowMap, WindowAgents, NamedAgents, AgentSet;
    if forall n :: n in Kept(old_, new_) ==> MapsSuffice(old_, new_, n) {
      forall t: (string, string) ensures t in targets <==> t in planned {
        assert t == (t.0, t.1);
        if t.0 in Kept(old_, new_) { assert MapsSuffice(old_, new_, t.0); }
      }
    }
    if targets == planned {
      forall n | n in Kept(old_, new_) ensures MapsSuffice(old_, new_, n) {
        forall a ensures a in NamedAgents(new_, n) - NamedAgents(old_, n) <==>
                         a in AgentSet(WindowMap(new_)[n]) - AgentSet(WindowMap(old_)[n])
        {
          assert (n, a) in targets <==> (n, a) in planned;
        }
      }
    }
  }

  lemma PairsByName(topology: seq<TopologyWindow>, n: string, a: string)
    ensures (n, a) in AgentPairs(topology) <==> a in NamedAgents(topology, n)
  {
    hide WindowAgents;
  }

  lemma TargetIsPlanned(old_: seq<TopologyWindow>, new_: seq<TopologyWindow>, n: string, a: string)
    requires NothingShrinks(old_, new_)
    requires forall n :: n in Kept(old_, new_) ==> KeptPlan(old_, new_, n).Plan?
    ensures var planned := BrandNewTargets(old_, new_) + PlannedTargets(PlansIn(Kept(old_, new_), old_, new_), old_);
      && (n !in Kept(old_, new_) ==> ((n, a) in NewAgentTargets(old_, new_) <==> (n, a) in planned))
      && (n in Kept(old_, new_) ==>
            ((n, a) in NewAgentTargets(old_, new_) <==> a in NamedAgents(new_, n) - NamedAgents(old_, n)) &&
            ((n, a) in planned <==> a in AgentSet(WindowMap(new_)[n]) - AgentSet(WindowMap(old_)[n])))
  {
    hide WindowMap, WindowAgents, KeptPlan, AgentPairs, Shrinks, NamedAgents;
    var plans := PlansIn(Kept(old_, new_), old_, new_);
    PairsByName(old_, n, a);
    PairsByName(new_, n, a);
    BrandNewByName(old_, new_, n, a);
    if n in Kept(old_, new_) {
      KeptAgents(old_, new_, n, a);
      if (n, a) in PlannedTargets(plans, old_) {
        var p: Append :| n in plans && p in plans[n] && p.agent == a && a !in WindowAgents(WindowMap(old_)[n]);
        assert p in KeptPlan(old_, new_, n).appends;
      }
    } else {
      NamedIsKnown(old_, n, a);
      NamedIsKnown(new_, n, a);
    }
  }

  lemma NamedIsKnown(topology: seq<TopologyWindow>, n: string, a: string)
    ensures a in NamedAgents(topology, n) ==> n in WindowMap(topology)
  {
    hide WindowAgents;
  }

  lemma BrandNewByName(old_: seq<TopologyWindow>, new_: seq<TopologyWindow>, n: string, a: string)
    ensures (n, a) in BrandNewTargets(old_, new_) <==> n !in WindowMap(old_) && a in NamedAgents(new_, n)
  {
    hide WindowAgents;
  }

  /** Where the window's agents are distinct, as validation demands, a plan names no agent the window had already. */
  lemma PlannedAreNew(old_: seq<TopologyWindow>, new_: seq<TopologyWindow>, n: string)
    requires n in Kept(old_, new_) && KeptPlan(old_, new_, n).Plan? && !Shrinks(WindowMap(old_)[n], WindowMap(new_)[n])
    requires forall i, j :: 0 <= i < j < |WindowAgents(WindowMap(new_)[n])| ==>
               WindowAgents(WindowMap(new_)[n])[i] != WindowAgents(WindowMap(new_)[n])[j]
    ensures forall p :: p in KeptPlan(old_, new_, n).appends ==> p.agent !in WindowAgents(WindowMap(old_)[n])
  {
    hide WindowMap, WindowAgents, WindowPlan, Agents;
    var olds, plan := WindowAgents(WindowMap(old_)[n]), KeptPlan(old_, new_, n).appends;
    WindowPlanSound(WindowMap(old_)[n], WindowMap(new_)[n]);
    DistinctTail(olds, Agents(plan));
    forall p | p in plan ensures p.agent !in olds { AgentsMembers(plan, p.agent); }
  }

  lemma DistinctTail(olds: seq<string>, added: seq<string>)
    requires forall i, j :: 0 <= i < j < |olds + added| ==> (olds + added)[i] != (olds + added)[j]
    ensures forall a :: a in added ==> a !in olds
  {
    forall i, k | 0 <= i < |olds| && 0 <= k < |added| ensures olds[i] != added[k] {
      assert (olds + added)[i] == olds[i] && (olds + added)[|olds| + k] == added[k];
    }
  }
}
