/** Start-up reconciliation of agent worktrees: collect what must go, refuse if anything would be lost, else commit. */
module Reconciliation {
  import opened Text
  import opened AgentSpecs

  // ---- Agents and their workspaces ----

  datatype Scope = InplaceScope | External | Group | Agent

  datatype WorkspacePlan = WorkspacePlan(scope: Scope, path: string, branch: Option<string>)

  /** The project: where workspaces live, how branch names are rendered (with an error for a bad template), and how the
      file system resolves a path. */
  datatype Context = Context(
    projectRoot: string,
    expandUser: string -> string,
    groupPath: string -> string,
    agentPath: (string, Option<string>) -> string,
    renderBranch: (string, Option<string>) -> Option<string>,
    nameOk: string -> bool,
    resolve: string -> string,
    underWorkspaces: string -> bool)

  /** `WorkspacePlanner::plan`. */
  function Plan(spec: AgentSpec, ctx: Context): Option<WorkspacePlan> {
    if !ctx.nameOk(spec.name) then None
    else if spec.mode == Inplace then Some(WorkspacePlan(InplaceScope, ctx.projectRoot, None))
    else if spec.workspacePath.Some? then
      Some(WorkspacePlan(External, ctx.expandUser(spec.workspacePath.value), None))
    else if spec.workspaceGroup.Some? then
      var group := spec.workspaceGroup.value;
      Some(WorkspacePlan(Group, ctx.groupPath(group), Some("ccbr/group/" + group)))
    else
      match ctx.renderBranch(spec.name, spec.branchTemplate)
      case None => None
      case Some(branch) =>
        var path := ctx.agentPath(spec.name, spec.workspaceRoot);
        Some(WorkspacePlan(Agent, path, if spec.mode == Copy then None else Some(branch)))
  }

  type Specs = map<string, AgentSpec>

  /** Specs are filed under their own names. */
  predicate KeyedByName(specs: Specs) { forall n :: n in specs ==> specs[n].name == n }

  datatype Reason = RemovedFromConfig | ModeChanged | IdentityChanged

  function RetirementReason(persisted: AgentSpec, desired: Option<AgentSpec>, ctx: Context): Option<Reason> {
    if desired.None? then Some(RemovedFromConfig)
    else if desired.value.mode != GitWorktree then Some(ModeChanged)
    else
      match (Plan(desired.value, ctx), Plan(persisted, ctx))
      case (Some(c), Some(p)) => if c.path != p.path || c.branch != p.branch then Some(IdentityChanged) else None
      case (_, _) => None
  }

  function Lookup(specs: Specs, name: string): Option<AgentSpec> { if name in specs then Some(specs[name]) else None }

  function Identity(plan: WorkspacePlan, ctx: Context): (string, string) {
    (ctx.resolve(plan.path), if plan.branch.Some? then plan.branch.value else "")
  }

  /** A desired agent that works in a git worktree managed here. */
  predicate Managed(spec: AgentSpec, ctx: Context) {
    spec.mode == GitWorktree && Plan(spec, ctx).Some? && Plan(spec, ctx).value.scope != External
  }

  /** Another desired agent has the workspace `plan` describes. */
  ghost predicate Referenced(name: string, plan: WorkspacePlan, desired: Specs, ctx: Context) {
    exists n :: n in desired && n != name && Managed(desired[n], ctx) &&
                Identity(Plan(desired[n], ctx).value, ctx) == Identity(plan, ctx)
  }

  // ---- The world: git, directories and persisted agent state ----

  /** A directory that exists: without `.git`, or a checkout that is clean or dirty. */
  datatype Directory = Plain | Clean | Dirty

  datatype World = World(
    registered: set<string>,
    dirs: map<string, Directory>,
    branches: map<string, bool>,  // each existing branch, and whether it is merged into HEAD
    state: Specs)

  function IsDirty(w: World, path: string): Option<bool> {
    if path in w.dirs && w.dirs[path] != Plain then Some(w.dirs[path] == Dirty) else None
  }

  function IsMerged(w: World, branch: Option<string>): Option<bool> {
    if branch.Some? && branch.value in w.branches then Some(w.branches[branch.value]) else None
  }

  datatype Alert = Alert(agent: string, reason: Option<Reason>, plan: WorkspacePlan, dirty: Option<bool>,
                         merged: Option<bool>)
  {
    predicate NeedsMerge() { dirty == Some(true) || merged == Some(false) }
  }

  /** `inspect_worktree`; an active worktree is inspected with no reason to retire it. */
  function Inspect(w: World, spec: AgentSpec, plan: WorkspacePlan, reason: Option<Reason>): Alert {
    Alert(spec.name, reason, plan, IsDirty(w, plan.path), IsMerged(w, plan.branch))
  }

  /** `git worktree prune` forgets every registration whose directory is gone. */
  function Prune(w: World): World { w.(registered := w.registered * w.dirs.Keys) }

  /** `remove_registered_worktree`, then the leftover directory, then the branch. */
  function RemoveWorkspace(w: World, plan: WorkspacePlan, ctx: Context): World {
    var w1 := RemoveDirectory(w, plan.path, ctx);
    if plan.branch.Some? then w1.(branches := w1.branches - {plan.branch.value}) else w1
  }

  function RemoveDirectory(w: World, path: string, ctx: Context): World {
    if path in w.registered then
      if path in w.dirs then w.(registered := w.registered - {path}, dirs := w.dirs - {path}) else Prune(w)
    else if ctx.underWorkspaces(path) then w.(dirs := w.dirs - {path})
    else w
  }

  // ---- What a run does, in closed form ----

  /** Every plan the run needs can be made. */
  ghost predicate PlansOk(state: Specs, desired: Specs, ctx: Context) {
    && (forall n :: n in state && state[n].mode == GitWorktree ==> Plan(state[n], ctx).Some?)
    && (forall n :: n in desired && desired[n].mode == GitWorktree ==> Plan(desired[n], ctx).Some?)
  }

  /** The persisted agent `n` has a managed worktree that is no longer wanted as it is. */
  predicate Due(n: string, state: Specs, desired: Specs, ctx: Context) {
    && n in state && Managed(state[n], ctx)
    && RetirementReason(state[n], Lookup(desired, n), ctx).Some?
  }

  function PlanOf(n: string, state: Specs, ctx: Context): WorkspacePlan
    requires n in state && Plan(state[n], ctx).Some?
  {
    Plan(state[n], ctx).value
  }

  predicate Blocks(n: string, w: World, desired: Specs, ctx: Context) {
    && Due(n, w.state, desired, ctx)
    && Inspect(w, w.state[n], PlanOf(n, w.state, ctx), None).NeedsMerge()
  }

  /** The workspace of `n` is removed: it is due and no other desired agent has it. */
  ghost predicate Doomed(n: string, w: World, desired: Specs, ctx: Context) {
    Due(n, w.state, desired, ctx) && !Referenced(n, PlanOf(n, w.state, ctx), desired, ctx)
  }

  ghost function DoomedPlans(w: World, desired: Specs, ctx: Context): set<WorkspacePlan> {
    set n | n in w.state && Doomed(n, w, desired, ctx) :: PlanOf(n, w.state, ctx)
  }

  function Paths(plans: set<WorkspacePlan>): set<string> { set p | p in plans :: p.path }

  function Branches(plans: set<WorkspacePlan>): set<string> {
    set p | p in plans && p.branch.Some? :: p.branch.value
  }

  /** Retiring a missing but registered worktree prunes all missing registrations. */
  predicate Prunes(w: World, plans: set<WorkspacePlan>) {
    exists p :: p in plans && p.path in w.registered && p.path !in w.dirs
  }

  function KeptRegistrations(w: World, plans: set<WorkspacePlan>): set<string> {
    set p | p in w.registered && p !in Paths(plans) && (Prunes(w, plans) ==> p in w.dirs)
  }

  function ClearedDirs(w: World, plans: set<WorkspacePlan>, ctx: Context): set<string> {
    set p | p in Paths(plans) && (p in w.registered || ctx.underWorkspaces(p))
  }

  /** The world after the workspaces of `plans` are removed, in whatever order. */
  function Removed(w: World, plans: set<WorkspacePlan>, ctx: Context): World {
    World(KeptRegistrations(w, plans), w.dirs - ClearedDirs(w, plans, ctx), w.branches - Branches(plans), w.state)
  }

  /** The world after a run that is not refused. */
  ghost function Committed(w: World, desired: Specs, ctx: Context): World {
    Removed(w, DoomedPlans(w, desired, ctx), ctx).(state := w.state - (w.state.Keys - desired.Keys))
  }

  /** The run is refused: a plan cannot be made, or something due would lose work. */
  ghost predicate Refused(w: World, desired: Specs, ctx: Context) {
    !PlansOk(w.state, desired, ctx) || exists n :: Blocks(n, w, desired, ctx)
  }

  /** The world after a run. */
  ghost function Reconciled(w: World, desired: Specs, ctx: Context): World {
    if Refused(w, desired, ctx) then w else Committed(w, desired, ctx)
  }

  lemma RemovedNone(w: World, ctx: Context)
    ensures Removed(w, {}, ctx) == w
  {
    assert Paths({}) == {} && Branches({}) == {} && ClearedDirs(w, {}, ctx) == {};
    assert !Prunes(w, {});
    assert KeptRegistrations(w, {}) == w.registered;
    assert w.dirs - {} == w.dirs && w.branches - {} == w.branches;
  }

  lemma PathsAdd(plans: set<WorkspacePlan>, plan: WorkspacePlan)
    ensures Paths(plans + {plan}) == Paths(plans) + {plan.path}
    ensures Branches(plans + {plan}) == Branches(plans) + if plan.branch.Some? then {plan.branch.value} else {}
  {
    assert forall q :: q in plans ==> q in plans + {plan};
    assert plan in plans + {plan};
  }

  lemma PrunesAdd(w: World, plans: set<WorkspacePlan>, plan: WorkspacePlan)
    ensures Prunes(w, plans + {plan}) <==> Prunes(w, plans) || (plan.path in w.registered && plan.path !in w.dirs)
  {
    if plan.path in w.registered && plan.path !in w.dirs { assert plan in plans + {plan}; }
    if Prunes(w, plans) {
      var p :| p in plans && p.path in w.registered && p.path !in w.dirs;
      assert p in plans + {plan};
    }
  }

  lemma MissingPathPrunes(w: World, plans: set<WorkspacePlan>, path: string)
    requires path in Paths(plans) && path in w.registered && path !in w.dirs
    ensures Prunes(w, plans)
  {}

  /** Removing one more workspace extends the closed form, so the order of removals does not matter. */
  lemma RemoveOneMore(w: World, plans: set<WorkspacePlan>, plan: WorkspacePlan, ctx: Context)
    ensures RemoveWorkspace(Removed(w, plans, ctx), plan, ctx) == Removed(w, plans + {plan}, ctx)
  {
    hide Prunes, Paths, Branches;
    var path := plan.path;
    PathsAdd(plans, plan);
    PrunesAdd(w, plans, plan);
    if path in w.registered && path in Paths(plans) && path !in w.dirs { MissingPathPrunes(w, plans, path); }
    RegistrationsAdd(w, plans, plan, ctx);
    DirsAdd(w, plans, plan, ctx);
    BranchesAdd(w, plans, plan, ctx);
  }

  lemma RegistrationsAdd(w: World, plans: set<WorkspacePlan>, plan: WorkspacePlan, ctx: Context)
    requires Paths(plans + {plan}) == Paths(plans) + {plan.path}
    requires Prunes(w, plans + {plan}) <==> Prunes(w, plans) || (plan.path in w.registered && plan.path !in w.dirs)
    requires plan.path in w.registered && plan.path in Paths(plans) && plan.path !in w.dirs ==> Prunes(w, plans)
    ensures RemoveWorkspace(Removed(w, plans, ctx), plan, ctx).registered == KeptRegistrations(w, plans + {plan})
  {
    hide Prunes, Paths, Branches;
  }

  lemma DirsAdd(w: World, plans: set<WorkspacePlan>, plan: WorkspacePlan, ctx: Context)
    requires Paths(plans + {plan}) == Paths(plans) + {plan.path}
    ensures RemoveWorkspace(Removed(w, plans, ctx), plan, ctx).dirs == w.dirs - ClearedDirs(w, plans + {plan}, ctx)
  {
    hide Prunes, Paths, Branches, KeptRegistrations;
    var path := plan.path;
    var more := if path in w.registered || ctx.underWorkspaces(path) then {path} else {};
    assert ClearedDirs(w, plans + {plan}, ctx) == ClearedDirs(w, plans, ctx) + more;
    SubtractTwice(w.dirs, ClearedDirs(w, plans, ctx), more);
    DirsAfterOne(w, plans, path, ctx);
  }

  lemma DirsAfterOne(w: World, plans: set<WorkspacePlan>, path: string, ctx: Context)
    ensures var more := if path in w.registered || ctx.underWorkspaces(path) then {path} else {};
      RemoveDirectory(Removed(w, plans, ctx), path, ctx).dirs == w.dirs - ClearedDirs(w, plans, ctx) - more
  {
    hide Prunes, Paths, Branches;
  }

  lemma BranchesAdd(w: World, plans: set<WorkspacePlan>, plan: WorkspacePlan, ctx: Context)
    requires Branches(plans + {plan}) == Branches(plans) + if plan.branch.Some? then {plan.branch.value} else {}
    ensures RemoveWorkspace(Removed(w, plans, ctx), plan, ctx).branches == w.branches - Branches(plans + {plan})
  {
    hide Prunes, Paths, Branches, KeptRegistrations, ClearedDirs;
    if plan.branch.Some? { SubtractTwice(w.branches, Branches(plans), {plan.branch.value}); }
    assert Branches(plans) + {} == Branches(plans);
  }

  lemma SubtractTwice<K, V>(m: map<K, V>, a: set<K>, b: set<K>)
    ensures m - a - b == m - (a + b)
  {}

  // ---- Properties of a run ----

  /** The directory of the workspace is a dirty checkout, or its branch exists and is not merged. */
  predicate HasUnsavedWork(w: World, plan: WorkspacePlan) {
    || (plan.path in w.dirs && w.dirs[plan.path] == Dirty)
    || (plan.branch.Some? && plan.branch.value in w.branches && !w.branches[plan.branch.value])
  }

  /** The alert shows the world: `dirty` only for a checkout, `merged` only for a branch that exists. It needs a merge
      exactly when there is unsaved work. */
  lemma AlertShowsWorld(w: World, spec: AgentSpec, plan: WorkspacePlan, reason: Option<Reason>)
    ensures var alert := Inspect(w, spec, plan, reason);
      && alert.agent == spec.name && alert.plan == plan && alert.reason == reason
      && (alert.dirty.None? <==> plan.path !in w.dirs || w.dirs[plan.path] == Plain)
      && (alert.dirty.Some? ==> (alert.dirty.value <==> w.dirs[plan.path] == Dirty))
      && (alert.merged.None? <==> plan.branch.None? || plan.branch.value !in w.branches)
      && (alert.merged.Some? ==> alert.merged.value == w.branches[plan.branch.value])
      && (alert.NeedsMerge() <==> HasUnsavedWork(w, plan))
  {}

  /** Which persisted agents are due, and why: worktrees managed here whose agent is gone, works otherwise now, or is
      to have another path or branch. */
  lemma DueExactly(n: string, state: Specs, desired: Specs, ctx: Context)
    ensures Due(n, state, desired, ctx) <==>
      && n in state && state[n].mode == GitWorktree && state[n].workspacePath.None? && Plan(state[n], ctx).Some?
      && (|| n !in desired || desired[n].mode != GitWorktree
          || (Plan(desired[n], ctx).Some? &&
              var old_, new_ := Plan(state[n], ctx).value, Plan(desired[n], ctx).value;
              old_.path != new_.path || old_.branch != new_.branch))
    ensures Due(n, state, desired, ctx) ==>
      RetirementReason(state[n], Lookup(desired, n), ctx) ==
        Some(if n !in desired then RemovedFromConfig
             else if desired[n].mode != GitWorktree then ModeChanged else IdentityChanged)
  {}

  /** A run is refused exactly when a plan fails or something due has unsaved work. */
  lemma RefusedExactly(w: World, desired: Specs, ctx: Context)
    ensures Refused(w, desired, ctx) <==>
      || (exists n :: n in w.state && w.state[n].mode == GitWorktree && Plan(w.state[n], ctx).None?)
      || (exists n :: n in desired && desired[n].mode == GitWorktree && Plan(desired[n], ctx).None?)
      || (exists n :: Due(n, w.state, desired, ctx) && HasUnsavedWork(w, PlanOf(n, w.state, ctx)))
  {
    hide Plan, RetirementReason;
    forall n | Due(n, w.state, desired, ctx)
      ensures Blocks(n, w, desired, ctx) <==> HasUnsavedWork(w, PlanOf(n, w.state, ctx))
    {
      AlertShowsWorld(w, w.state[n], PlanOf(n, w.state, ctx), None);
    }
    forall n | n in w.state && Blocks(n, w, desired, ctx) ensures Due(n, w.state, desired, ctx) {}
  }

  /** A run never removes a dirty directory or a branch that is not merged. If anything due has unsaved work, or a plan
      fails, nothing changes at all. */
  lemma AllOrNothing(w: World, desired: Specs, ctx: Context)
    ensures var v := Reconciled(w, desired, ctx);
      && (forall p :: p in w.dirs && p !in v.dirs ==> w.dirs[p] != Dirty)
      && (forall b :: b in w.branches && b !in v.branches ==> w.branches[b])
      && (v != w ==> forall n :: Due(n, w.state, desired, ctx) ==> !HasUnsavedWork(w, PlanOf(n, w.state, ctx)))
  {
    hide Due, Blocks, PlansOk, SafeToRemove;
    RemovalIsSafe(w, desired, ctx);
    RefusedExactly(w, desired, ctx);
    forall p | p in w.dirs && p !in Reconciled(w, desired, ctx).dirs ensures w.dirs[p] != Dirty {
      SafePathIsSaved(p, w, desired, ctx);
    }
  }

  lemma SafePathIsSaved(p: string, w: World, desired: Specs, ctx: Context)
    requires SafePath(p, w, desired, ctx) && p in w.dirs
    ensures w.dirs[p] != Dirty
  {}

  /** The worktree of `n` is due for retirement and has unsaved work. */
  predicate LosesWork(n: string, w: World, desired: Specs, ctx: Context) {
    Due(n, w.state, desired, ctx) && HasUnsavedWork(w, PlanOf(n, w.state, ctx))
  }

  lemma LostWorkIsRefused(w: World, desired: Specs, ctx: Context)
    ensures (exists n :: LosesWork(n, w, desired, ctx)) ==>
              Refused(w, desired, ctx) && BlockersIn(w.state.Keys, w, desired, ctx) != {}
  {
    hide PlansOk;
    if n :| LosesWork(n, w, desired, ctx) {
      assert Blocks(n, w, desired, ctx);
      assert AlertOf(n, w, desired, ctx) in BlockersIn(w.state.Keys, w, desired, ctx);
    }
  }

  /** Why the workspace of `n` may go: nothing in it is unsaved, and no other desired agent has its identity. */
  ghost predicate SafeToRemove(n: string, w: World, desired: Specs, ctx: Context) {
    && Due(n, w.state, desired, ctx)
    && var plan := PlanOf(n, w.state, ctx);
       && plan.scope != External && w.state[n].mode == GitWorktree
       && !HasUnsavedWork(w, plan)
       && forall d :: d in desired && d != n && Managed(desired[d], ctx) ==>
            Identity(Plan(desired[d], ctx).value, ctx) != Identity(plan, ctx)
  }

  lemma DoomedIsSafe(n: string, w: World, desired: Specs, ctx: Context)
    requires !Refused(w, desired, ctx) && n in w.state && Doomed(n, w, desired, ctx)
    ensures SafeToRemove(n, w, desired, ctx)
  {
    assert !Blocks(n, w, desired, ctx);
  }

  /** Every directory and every branch that disappears belonged to a workspace that was safe to remove; a registration
      that disappears belonged to one, or its directory was already missing. Nothing is ever added or changed. */
  lemma RemovalIsSafe(w: World, desired: Specs, ctx: Context)
    ensures var v := Reconciled(w, desired, ctx);
      && v.registered <= w.registered && v.state.Keys <= w.state.Keys
      && v.dirs == w.dirs - (w.dirs.Keys - v.dirs.Keys)
      && v.branches == w.branches - (w.branches.Keys - v.branches.Keys)
      && (forall p :: p in w.dirs && p !in v.dirs ==> SafePath(p, w, desired, ctx))
      && (forall b :: b in w.branches && b !in v.branches ==> w.branches[b] && SafeBranch(b, w, desired, ctx))
      && (forall p :: p in w.registered && p !in v.registered ==> p !in w.dirs || SafePath(p, w, desired, ctx))
  {
    hide SafePath, SafeBranch, Paths, Branches, DoomedPlans, PlansOk, Blocks;
    if !Refused(w, desired, ctx) {
      var plans := DoomedPlans(w, desired, ctx);
      forall p | p in Paths(plans) ensures SafePath(p, w, desired, ctx) {
        DoomedPathIsSafe(p, w, desired, ctx);
      }
      forall b | b in Branches(plans) && b in w.branches ensures w.branches[b] && SafeBranch(b, w, desired, ctx) {
        DoomedBranchIsSafe(b, w, desired, ctx);
      }
    }
  }

  /** Some workspace to be removed is registered although its directory is gone. */
  ghost predicate MissingIsDoomed(w: World, desired: Specs, ctx: Context) {
    exists n :: n in w.state && Doomed(n, w, desired, ctx) &&
                PlanOf(n, w.state, ctx).path in w.registered && PlanOf(n, w.state, ctx).path !in w.dirs
  }

  /** Which registrations a run removes: those of the workspaces it removes, and, if the directory of one of these is
      gone, all whose directory is gone. */
  lemma RegistrationsRemoved(w: World, desired: Specs, ctx: Context, p: string)
    requires p in w.registered
    ensures p !in Reconciled(w, desired, ctx).registered <==>
            && !Refused(w, desired, ctx)
            && ((exists n :: n in w.state && Doomed(n, w, desired, ctx) && PlanOf(n, w.state, ctx).path == p)
                || (p !in w.dirs && MissingIsDoomed(w, desired, ctx)))
  {
    hide Refused, Referenced, RetirementReason, Plan;
    var plans := DoomedPlans(w, desired, ctx);
    forall n | n in w.state && Doomed(n, w, desired, ctx)
      ensures PlanOf(n, w.state, ctx) in plans && PlanOf(n, w.state, ctx).path in Paths(plans)
    {
      assert PlanOf(n, w.state, ctx) in plans;
    }
  }

  /** Retiring `a`, whose directory is gone, unregisters the directory of `/other` too, which no agent mentions. */
  lemma UnrelatedRegistrationIsPruned()
    ensures var ctx, state := LinkedProject(), map["a" := LinkedAgent(Some("/srv"))];
      var w := World({"/srv/p/a", "/other"}, map[], map[], state);
      "/other" !in Reconciled(w, map[], ctx).registered && !SafePath("/other", w, map[], ctx)
  {
    var ctx, w := LinkedProject(), World({"/srv/p/a", "/other"}, map[], map[], map["a" := LinkedAgent(Some("/srv"))]);
    var desired: Specs := map[];
    LinkedPlans();
    assert Doomed("a", w, desired, ctx) && !Refused(w, desired, ctx);
    RegistrationsRemoved(w, desired, ctx, "/other");
  }

  /** `p` is the directory of a workspace that is safe to remove. */
  ghost predicate SafePath(p: string, w: World, desired: Specs, ctx: Context) {
    exists n :: SafeToRemove(n, w, desired, ctx) && PlanOf(n, w.state, ctx).path == p
  }

  ghost predicate SafeBranch(b: string, w: World, desired: Specs, ctx: Context) {
    exists n :: SafeToRemove(n, w, desired, ctx) && PlanOf(n, w.state, ctx).branch == Some(b)
  }

  lemma DoomedPathIsSafe(p: string, w: World, desired: Specs, ctx: Context)
    requires !Refused(w, desired, ctx) && p in Paths(DoomedPlans(w, desired, ctx))
    ensures SafePath(p, w, desired, ctx)
  {
    hide SafeToRemove, Refused, Referenced, Inspect;
    var n :| n in w.state && Doomed(n, w, desired, ctx) && PlanOf(n, w.state, ctx).path == p;
    DoomedIsSafe(n, w, desired, ctx);
  }

  lemma DoomedBranchIsSafe(b: string, w: World, desired: Specs, ctx: Context)
    requires !Refused(w, desired, ctx) && b in Branches(DoomedPlans(w, desired, ctx)) && b in w.branches
    ensures w.branches[b] && SafeBranch(b, w, desired, ctx)
  {
    hide Refused, Referenced, Inspect;
    var n :| n in w.state && Doomed(n, w, desired, ctx) && PlanOf(n, w.state, ctx).branch == Some(b);
    DoomedIsSafe(n, w, desired, ctx);
  }

  // ---- What plans are like ----

  /** Every member of a group has the group's workspace and branch, whatever its own name and root; an agent with a
      path of its own has no branch here; in place there is neither. */
  lemma PlansByScope(spec: AgentSpec, ctx: Context)
    requires Plan(spec, ctx).Some?
    ensures var plan := Plan(spec, ctx).value;
      && (spec.mode == Inplace ==> plan == WorkspacePlan(InplaceScope, ctx.projectRoot, None))
      && (spec.mode != Inplace && spec.workspacePath.Some? ==>
            plan == WorkspacePlan(External, ctx.expandUser(spec.workspacePath.value), None))
      && (spec.mode != Inplace && spec.workspacePath.None? && spec.workspaceGroup.Some? ==>
            && plan.scope == Group && plan.path == ctx.groupPath(spec.workspaceGroup.value)
            && plan.branch == Some("ccbr/group/" + spec.workspaceGroup.value))
      && (spec.mode != Inplace && spec.workspacePath.None? && spec.workspaceGroup.None? ==>
            && plan.scope == Agent && plan.path == ctx.agentPath(spec.name, spec.workspaceRoot)
            && (spec.mode == Copy ==> plan.branch == None)
            && (spec.mode == GitWorktree ==> plan.branch == ctx.renderBranch(spec.name, spec.branchTemplate)))
  {}

  /** A group's workspace outlives a member that leaves while another one stays. */
  lemma GroupOutlivesMember(w: World, n: string, d: string, desired: Specs, ctx: Context)
    requires n in w.state && d in desired && n != d
    requires w.state[n].mode == desired[d].mode == GitWorktree
    requires w.state[n].workspacePath.None? && desired[d].workspacePath.None?
    requires w.state[n].workspaceGroup.Some? && w.state[n].workspaceGroup == desired[d].workspaceGroup
    requires Plan(w.state[n], ctx).Some? && Plan(desired[d], ctx).Some?
    ensures !Doomed(n, w, desired, ctx)
  {
    hide Plan;
    PlansByScope(w.state[n], ctx);
    PlansByScope(desired[d], ctx);
    assert Managed(desired[d], ctx);
  }

  /** Some desired agent, the one of the same name included, has the identity of the workspace of `n`. */
  ghost predicate IdentityWanted(n: string, w: World, desired: Specs, ctx: Context)
    requires n in w.state && Plan(w.state[n], ctx).Some?
  {
    exists d :: d in desired && Managed(desired[d], ctx) &&
                Identity(Plan(desired[d], ctx).value, ctx) == Identity(PlanOf(n, w.state, ctx), ctx)
  }

  /** The guard skips the agent of the same name. So a removed workspace is wanted by no desired agent at all, except
      when its own agent moved to a path that is written differently but resolves to the same place, on the same
      branch; then the workspace it moved to is removed. */
  lemma RemovedIdentityUnwanted(n: string, w: World, desired: Specs, ctx: Context)
    requires Doomed(n, w, desired, ctx)
    ensures IdentityWanted(n, w, desired, ctx) <==>
            n in desired && Managed(desired[n], ctx) &&
            var old_, new_ := PlanOf(n, w.state, ctx), Plan(desired[n], ctx).value;
            old_.path != new_.path && ctx.resolve(old_.path) == ctx.resolve(new_.path) && old_.branch == new_.branch
  {
    if n in desired && Managed(desired[n], ctx) {
      assert Plan(desired[n], ctx).value.branch.Some? && PlanOf(n, w.state, ctx).branch.Some?;
    }
  }

  /** A project `/p` whose workspace root `/srv` can also be reached through a link. */
  function LinkedProject(): Context {
    Context("/p", p => p, g => "/p/.ccbr/workspaces/groups/" + g,
            (n: string, root: Option<string>) =>
              if root.Some? then root.value + "/p/" + n else "/p/.ccbr/workspaces/" + n,
            (n: string, template: Option<string>) => Some("b"),
            n => true, p => if p == "/link/p/a" then "/srv/p/a" else p, p => "/p/.ccbr/workspaces/" <= p)
  }

  lemma LinkedPlans()
    ensures Plan(LinkedAgent(Some("/srv")), LinkedProject()) == Some(WorkspacePlan(Agent, "/srv/p/a", Some("b")))
    ensures Plan(LinkedAgent(Some("/link")), LinkedProject()) == Some(WorkspacePlan(Agent, "/link/p/a", Some("b")))
  {
    assert "/srv" + "/p/" + "a" == "/srv/p/a" && "/link" + "/p/" + "a" == "/link/p/a";
  }

  function LinkedAgent(root: Option<string>): AgentSpec {
    AgentSpec("a", "codex", ".", GitWorktree, root, None, None, None, None, None, [], None)
  }

  /** Writing the same directory through the link makes the run remove the workspace the agent still wants. */
  lemma RewrittenPathLosesWorkspace()
    ensures var ctx, specs := LinkedProject(), map["a" := LinkedAgent(Some("/srv"))];
      var desired := map["a" := LinkedAgent(Some("/link"))];
      var w := World({"/srv/p/a"}, map["/srv/p/a" := Clean], map["b" := true], specs);
      && Doomed("a", w, desired, ctx) && IdentityWanted("a", w, desired, ctx)
      && "/srv/p/a" !in Reconciled(w, desired, ctx).dirs
  {
    var ctx, specs := LinkedProject(), map["a" := LinkedAgent(Some("/srv"))];
    var desired := map["a" := LinkedAgent(Some("/link"))];
    var w := World({"/srv/p/a"}, map["/srv/p/a" := Clean], map["b" := true], specs);
    LinkedPlans();
    assert Doomed("a", w, desired, ctx);
    RemovedIdentityUnwanted("a", w, desired, ctx);
    assert !Refused(w, desired, ctx);
    Progress(w, desired, ctx);
  }

  /** A run that is not refused keeps state for desired agents only, and keeps theirs as it was. */
  lemma Progress(w: World, desired: Specs, ctx: Context)
    requires !Refused(w, desired, ctx)
    ensures var v := Reconciled(w, desired, ctx);
      && v.state.Keys == w.state.Keys * desired.Keys
      && (forall n :: n in v.state ==> v.state[n] == w.state[n])
      && forall n :: n in w.state && Doomed(n, w, desired, ctx) ==>
           var plan := PlanOf(n, w.state, ctx);
           && plan.path !in v.registered && (plan.branch.Some? ==> plan.branch.value !in v.branches)
           && (plan.path in v.dirs ==> plan.path !in w.registered && !ctx.underWorkspaces(plan.path))
  {
    forall n | n in w.state && Doomed(n, w, desired, ctx)
      ensures PlanOf(n, w.state, ctx) in DoomedPlans(w, desired, ctx)
    {}
    assert forall p :: p in DoomedPlans(w, desired, ctx) ==> p.path in Paths(DoomedPlans(w, desired, ctx));
  }

  lemma DueAgain(n: string, w: World, desired: Specs, ctx: Context)
    requires !Refused(w, desired, ctx) && Due(n, Committed(w, desired, ctx).state, desired, ctx)
    ensures var v := Committed(w, desired, ctx);
      && Due(n, w.state, desired, ctx) && v.state[n] == w.state[n]
      && !Blocks(n, v, desired, ctx)
      && (Doomed(n, v, desired, ctx) <==> Doomed(n, w, desired, ctx))
  {
    assert !Blocks(n, w, desired, ctx);
  }

  /** After a run that was not refused, a second run is not refused either and changes nothing. */
  lemma SecondRunIsIdle(w: World, desired: Specs, ctx: Context)
    requires !Refused(w, desired, ctx)
    ensures var v := Reconciled(w, desired, ctx);
      !Refused(v, desired, ctx) && Reconciled(v, desired, ctx) == v
  {
    var v := Committed(w, desired, ctx);
    forall n ensures !Blocks(n, v, desired, ctx) {
      if Due(n, v.state, desired, ctx) { DueAgain(n, w, desired, ctx); }
    }
    assert PlansOk(v.state, desired, ctx);
    var before, again := DoomedPlans(w, desired, ctx), DoomedPlans(v, desired, ctx);
    forall p | p in again ensures p in before {
      var n :| n in v.state && Doomed(n, v, desired, ctx) && PlanOf(n, v.state, ctx) == p;
      DueAgain(n, w, desired, ctx);
    }
    RemovingAgain(w, before, again, ctx, v);
    assert v.state - (v.state.Keys - desired.Keys) == v.state;
  }

  lemma RemovingAgain(w: World, before: set<WorkspacePlan>, again: set<WorkspacePlan>, ctx: Context, v: World)
    requires again <= before && v == Removed(w, before, ctx).(state := v.state)
    ensures Removed(v, again, ctx) == v
  {
    assert forall p :: p in again ==> p in before && p.path in Paths(before);
    assert Paths(again) <= Paths(before);
    assert Branches(again) <= Branches(before);
    assert !Prunes(v, again);
    var u := Removed(v, again, ctx);
    assert u.registered == v.registered;
    assert u.dirs == v.dirs;
    assert u.branches == v.branches;
  }

  // ---- The procedure as written ----

  /** A worktree to retire once nothing blocks. */
  datatype Pending = Pending(spec: AgentSpec, plan: WorkspacePlan, reason: Reason, removeState: bool,
                             removeWorkspace: bool)

  datatype Retirement = Retirement(agent: string, reason: Reason, removedState: bool)

  datatype Summary = Summary(warnings: seq<Alert>, blockers: seq<Alert>, retired: seq<Retirement>)

  function Elements<T>(s: seq<T>): set<T> { set x | x in s }

  lemma ElementsSnoc<T>(s: seq<T>, x: T)
    ensures Elements(s + [x]) == Elements(s) + {x}
  {}

  function AlertOf(n: string, w: World, desired: Specs, ctx: Context): Alert
    requires n in w.state && Plan(w.state[n], ctx).Some?
  {
    Inspect(w, w.state[n], PlanOf(n, w.state, ctx), RetirementReason(w.state[n], Lookup(desired, n), ctx))
  }

  ghost function PendingOf(n: string, w: World, desired: Specs, ctx: Context): Pending
    requires Due(n, w.state, desired, ctx)
  {
    var plan := PlanOf(n, w.state, ctx);
    Pending(w.state[n], plan, RetirementReason(w.state[n], Lookup(desired, n), ctx).value,
            n !in desired, !Referenced(n, plan, desired, ctx))
  }

  /** Agents gone from the configuration that have no managed worktree: only their state goes. */
  predicate StateOnly(n: string, state: Specs, desired: Specs, ctx: Context) {
    n in state && n !in desired && !Managed(state[n], ctx)
  }

  predicate Retires(n: string, w: World, desired: Specs, ctx: Context) {
    Due(n, w.state, desired, ctx) && !Blocks(n, w, desired, ctx)
  }

  function BlockersIn(seen: set<string>, w: World, desired: Specs, ctx: Context): set<Alert> {
    set n | n in seen && Blocks(n, w, desired, ctx) :: AlertOf(n, w, desired, ctx)
  }

  ghost function PendingIn(seen: set<string>, w: World, desired: Specs, ctx: Context): set<Pending> {
    set n | n in seen && Retires(n, w, desired, ctx) :: PendingOf(n, w, desired, ctx)
  }

  function CleanupIn(seen: set<string>, w: World, desired: Specs, ctx: Context): set<string> {
    set n | n in seen && StateOnly(n, w.state, desired, ctx)
  }

  lemma SeeOneMore(seen: set<string>, x: string, w: World, desired: Specs, ctx: Context)
    ensures BlockersIn(seen + {x}, w, desired, ctx) ==
            BlockersIn(seen, w, desired, ctx) + if Blocks(x, w, desired, ctx) then {AlertOf(x, w, desired, ctx)} else {}
    ensures PendingIn(seen + {x}, w, desired, ctx) ==
            PendingIn(seen, w, desired, ctx) +
            if Retires(x, w, desired, ctx) then {PendingOf(x, w, desired, ctx)} else {}
    ensures CleanupIn(seen + {x}, w, desired, ctx) ==
            CleanupIn(seen, w, desired, ctx) + if StateOnly(x, w.state, desired, ctx) then {x} else {}
  {
    hide Blocks, Retires, StateOnly, AlertOf, PendingOf;
    assert forall n :: n in seen + {x} <==> n in seen || n == x;
  }

  /** The first loop's findings over the persisted agents in `seen`. */
  ghost predicate Collected(seen: set<string>, blockers: seq<Alert>, pending: seq<Pending>, cleanup: seq<string>,
                            w: World, desired: Specs, ctx: Context)
  {
    && (forall n :: n in seen ==> n in w.state && (w.state[n].mode == GitWorktree ==> Plan(w.state[n], ctx).Some?))
    && Elements(blockers) == BlockersIn(seen, w, desired, ctx)
    && Elements(pending) == PendingIn(seen, w, desired, ctx)
    && Elements(cleanup) == CleanupIn(seen, w, desired, ctx)
  }

  ghost function DoomedPlansOf(pending: seq<Pending>): set<WorkspacePlan> {
    set p | p in pending && p.removeWorkspace :: p.plan
  }

  ghost function StateRemovedBy(pending: seq<Pending>): set<string> {
    set p | p in pending && p.removeState :: p.spec.name
  }

  /** What the branches of the first loop find out about the persisted agent `n`. */
  lemma Classify(n: string, w: World, desired: Specs, ctx: Context)
    requires n in w.state
    ensures var spec, wanted := w.state[n], Lookup(desired, n);
      var plan, reason := Plan(spec, ctx), RetirementReason(spec, wanted, ctx);
      var managed := spec.mode == GitWorktree && plan.Some? && plan.value.scope != External;
      && (wanted.None? <==> n !in desired) && (wanted.None? ==> reason.Some?)
      && (!managed || reason.None? ==> !Blocks(n, w, desired, ctx) && !Retires(n, w, desired, ctx))
      && (StateOnly(n, w.state, desired, ctx) <==> !managed && wanted.None?)
      && (managed && reason.Some? ==>
            && (Retires(n, w, desired, ctx) <==> !Blocks(n, w, desired, ctx))
            && Due(n, w.state, desired, ctx)
            && AlertOf(n, w, desired, ctx) == Inspect(w, spec, plan.value, reason)
            && (Blocks(n, w, desired, ctx) <==> Inspect(w, spec, plan.value, reason).NeedsMerge())
            && PendingOf(n, w, desired, ctx) ==
                 Pending(spec, plan.value, reason.value, wanted.None?, !Referenced(n, plan.value, desired, ctx)))
  {
    hide Plan, Referenced;
  }

  lemma CollectOneMore(seen: set<string>, x: string, blockers: seq<Alert>, pending: seq<Pending>, cleanup: seq<string>,
                       w: World, desired: Specs, ctx: Context)
    requires Collected(seen, blockers, pending, cleanup, w, desired, ctx) && x in w.state
    ensures w.state[x].mode == GitWorktree ==> Plan(w.state[x], ctx).Some? ==>
              CollectedWith(seen, x, blockers, pending, cleanup, w, desired, ctx)
    ensures w.state[x].mode != GitWorktree ==> CollectedWith(seen, x, blockers, pending, cleanup, w, desired, ctx)
  {
    hide Plan, Inspect, RetirementReason, BlockersIn, PendingIn, CleanupIn, Elements;
    SeeOneMore(seen, x, w, desired, ctx);
    if Blocks(x, w, desired, ctx) { ElementsSnoc(blockers, AlertOf(x, w, desired, ctx)); }
    if Retires(x, w, desired, ctx) { ElementsSnoc(pending, PendingOf(x, w, desired, ctx)); }
    if StateOnly(x, w.state, desired, ctx) { ElementsSnoc(cleanup, x); }
  }

  /** The lists extended by what is found out about `x`. */
  ghost predicate CollectedWith(seen: set<string>, x: string, blockers: seq<Alert>, pending: seq<Pending>,
                                cleanup: seq<string>, w: World, desired: Specs, ctx: Context)
  {
    Collected(seen + {x},
      if Blocks(x, w, desired, ctx) then blockers + [AlertOf(x, w, desired, ctx)] else blockers,
      if Retires(x, w, desired, ctx) then pending + [PendingOf(x, w, desired, ctx)] else pending,
      if StateOnly(x, w.state, desired, ctx) then cleanup + [x] else cleanup, w, desired, ctx)
  }

  lemma NothingCollected(w: World, desired: Specs, ctx: Context)
    ensures Collected(w.state.Keys - w.state.Keys, [], [], [], w, desired, ctx)
  {
    assert w.state.Keys - w.state.Keys == {};
  }

  class Workspaces {
    var registered: set<string>
    var dirs: map<string, Directory>
    var branches: map<string, bool>
    var state: Specs

    function Snapshot(): World reads this { World(registered, dirs, branches, state) }

    /** `workspace_referenced_by_other_desired_agent`; `None` when a plan cannot be made. */
    method IsReferenced(name: string, plan: WorkspacePlan, desired: Specs, ctx: Context) returns (r: Option<bool>)
      requires KeyedByName(desired)
      ensures r.None? ==> exists n :: n in desired && desired[n].mode == GitWorktree && Plan(desired[n], ctx).None?
      ensures r.Some? ==> (r.value <==> Referenced(name, plan, desired, ctx))
    {
      var todo := desired.Keys;
      while todo != {}
        invariant todo <= desired.Keys
        invariant forall n :: n in desired && n !in todo && n != name && Managed(desired[n], ctx) ==>
                    Identity(Plan(desired[n], ctx).value, ctx) != Identity(plan, ctx)
        decreases |todo|
      {
        var n :| n in todo;
        todo := todo - {n};
        if desired[n].name == name || desired[n].mode != GitWorktree {
          continue;
        }
        var p := Plan(desired[n], ctx);
        if p.None? {
          return None;
        }
        if p.value.scope == External {
          continue;
        }
        if Identity(p.value, ctx) == Identity(plan, ctx) {
          assert Managed(desired[n], ctx);
          return Some(true);
        }
      }
      return Some(false);
    }

    /** The first loop: what blocks, what is to be retired, whose state alone is to go. */
    method Collect(desired: Specs, ctx: Context)
      returns (ok: bool, blockers: seq<Alert>, pending: seq<Pending>, cleanup: seq<string>)
      requires KeyedByName(desired) && KeyedByName(state)
      ensures !ok ==> !PlansOk(state, desired, ctx)
      ensures ok ==> Collected(state.Keys, blockers, pending, cleanup, Snapshot(), desired, ctx)
    {
      hide Plan, Referenced, RetirementReason, Collected, Blocks, Retires, StateOnly, Due, AlertOf, PendingOf, Lookup,
           Inspect, Alert.NeedsMerge;
      var w := Snapshot();
      NothingCollected(w, desired, ctx);
      blockers, pending, cleanup := [], [], [];
      var todo := w.state.Keys;
      while todo != {}
        invariant todo <= w.state.Keys
        invariant Collected(w.state.Keys - todo, blockers, pending, cleanup, w, desired, ctx)
        decreases |todo|
      {
        var name :| name in todo;
        assert w.state.Keys - (todo - {name}) == w.state.Keys - todo + {name};
        Classify(name, w, desired, ctx);
        CollectOneMore(w.state.Keys - todo, name, blockers, pending, cleanup, w, desired, ctx);
        todo := todo - {name};
        var spec, wanted := w.state[name], Lookup(desired, name);
        if spec.mode == GitWorktree {
          var plan := Plan(spec, ctx);
          if plan.None? {
            return false, [], [], [];
          }
          var reason := RetirementReason(spec, wanted, ctx);
          if reason.None? {
            continue;
          }
          if plan.value.scope == External {
            if wanted.None? {
              cleanup := cleanup + [name];
            }
            continue;
          }
          var alert := Inspect(w, spec, plan.value, reason);
          if alert.NeedsMerge() {
            blockers := blockers + [alert];
            continue;
          }
          var referenced := IsReferenced(name, plan.value, desired, ctx);
          if referenced.None? {
            return false, [], [], [];
          }
          pending := pending + [Pending(spec, plan.value, reason.value, wanted.None?, !referenced.value)];
          continue;
        }
        if wanted.None? {
          cleanup := cleanup + [name];
        }
      }
      assert w.state.Keys - {} == w.state.Keys;
      return true, blockers, pending, cleanup;
    }

    /** The second loop: active worktrees that hold unsaved work, reported but left alone. */
    method Warn(desired: Specs, ctx: Context) returns (ok: bool, warnings: seq<Alert>)
      ensures !ok ==> !PlansOk(state, desired, ctx)
      ensures ok ==> Warned(desired.Keys, warnings, Snapshot(), desired, ctx)
    {
      hide Plan, Warned, Warns, Inspect, Alert.NeedsMerge;
      var w := Snapshot();
      NothingWarned(w, desired, ctx);
      warnings := [];
      var todo := desired.Keys;
      assert desired.Keys - todo == {};
      while todo != {}
        invariant todo <= desired.Keys
        invariant Warned(desired.Keys - todo, warnings, w, desired, ctx)
        decreases |todo|
      {
        var name :| name in todo;
        assert desired.Keys - (todo - {name}) == desired.Keys - todo + {name};
        WarnOneMore(desired.Keys - todo, name, warnings, w, desired, ctx);
        todo := todo - {name};
        var spec := desired[name];
        if spec.mode != GitWorktree {
          continue;
        }
        var plan := Plan(spec, ctx);
        if plan.None? {
          return false, [];
        }
        if plan.value.scope == External {
          continue;
        }
        var alert := Inspect(w, spec, plan.value, None);
        if alert.NeedsMerge() {
          warnings := warnings + [alert];
        }
      }
      assert desired.Keys - {} == desired.Keys;
      return true, warnings;
    }

    method RetireWorktree(pending: Pending, ctx: Context) returns (r: Retirement)
      modifies this
      ensures r == Retirement(pending.spec.name, pending.reason, pending.removeState)
      ensures Snapshot() == RetireIn(old(Snapshot()), pending, ctx)
    {
      if pending.removeWorkspace {
        var path := pending.plan.path;
        if path in registered {
          if path in dirs {
            registered := registered - {path};
            dirs := dirs - {path};
          } else {
            registered := registered * dirs.Keys;
          }
        } else if ctx.underWorkspaces(path) && path in dirs {
          dirs := dirs - {path};
        } else {
          assert path !in dirs ==> dirs - {path} == dirs;
        }
        if pending.plan.branch.Some? {
          branches := branches - {pending.plan.branch.value};
        }
      }
      assert state - {} == state;
      if pending.removeState {
        state := state - {pending.spec.name};
      }
      return Retirement(pending.spec.name, pending.reason, pending.removeState);
    }

    /** The last two loops: retire the collected worktrees, then remove the leftover state. */
    method Commit(pending: seq<Pending>, cleanup: seq<string>, ctx: Context) returns (retired: seq<Retirement>)
      modifies this
      ensures Snapshot() == CommittedBy(old(Snapshot()), pending, cleanup, ctx)
      ensures Elements(retired) == RetirementsOf(pending) + CleanupRetirements(cleanup)
    {
      hide Removed, RetireIn, CommittedBy, DoomedPlansOf, StateRemovedBy, RetirementsOf, Elements, CleanupRetirements;
      ghost var w := Snapshot();
      retired := [];
      NothingCommitted(w, ctx);
      assert pending[..0] == [] && cleanup[..0] == [];
      for i := 0 to |pending|
        invariant Snapshot() == CommittedBy(w, pending[..i], [], ctx)
        invariant Elements(retired) == RetirementsOf(pending[..i])
      {
        PendingSnoc(pending, i);
        CommitPending(w, pending, i, ctx);
        var one := RetireWorktree(pending[i], ctx);
        ElementsSnoc(retired, one);
        retired := retired + [one];
      }
      assert pending[..|pending|] == pending;
      for i := 0 to |cleanup|
        invariant Snapshot() == CommittedBy(w, pending, cleanup[..i], ctx)
        invariant Elements(retired) == RetirementsOf(pending) + CleanupRetirements(cleanup[..i])
      {
        CleanupSnoc(cleanup, i);
        CommitCleanup(w, pending, cleanup, i, ctx);
        var one := Retirement(cleanup[i], RemovedFromConfig, true);
        state := state - {cleanup[i]};
        ElementsSnoc(retired, one);
        retired := retired + [one];
      }
      assert cleanup[..|cleanup|] == cleanup;
    }

    /** `reconcile_start_workspaces`; `None` is an error from planning. */
    method ReconcileStart(desired: Specs, ctx: Context) returns (r: Option<Summary>)
      requires KeyedByName(desired) && KeyedByName(state)
      modifies this
      ensures Snapshot() == Reconciled(old(Snapshot()), desired, ctx)
      ensures r.None? <==> !PlansOk(old(state), desired, ctx)
      ensures r.Some? ==> var w := old(Snapshot());
        && Elements(r.value.warnings) == Warnings(desired.Keys, w, desired, ctx)
        && Elements(r.value.blockers) == BlockersIn(w.state.Keys, w, desired, ctx)
        && (r.value.blockers != [] ==> r.value.retired == [])
        && (r.value.blockers == [] ==> Elements(r.value.retired) == Retirements(w, desired, ctx))
      ensures (exists n :: LosesWork(n, old(Snapshot()), desired, ctx)) ==>
        Snapshot() == old(Snapshot()) && (r.Some? ==> r.value.blockers != [] && r.value.retired == [])
      ensures forall p :: p in old(dirs) && p !in dirs ==> old(dirs)[p] != Dirty
      ensures forall b :: b in old(branches) && b !in branches ==> old(branches)[b]
    {
      hide Removed, DoomedPlansOf, DoomedPlans, StateRemovedBy, RetirementsOf, CleanupRetirements, Retirements,
           Elements, Warnings, BlockersIn, PendingIn, CleanupIn, Plan, Blocks;
      ghost var w := Snapshot();
      LostWorkIsRefused(w, desired, ctx);
      AllOrNothing(w, desired, ctx);
      var ok, blockers, pending, cleanup := Collect(desired, ctx);
      if !ok {
        return None;
      }
      var warned, warnings := Warn(desired, ctx);
      if !warned {
        return None;
      }
      if blockers != [] {
        BlockedIsRefused(blockers, w, desired, ctx);
        return Some(Summary(warnings, blockers, []));
      }
      NothingBlocks(blockers, pending, cleanup, w, desired, ctx);
      var retired := Commit(pending, cleanup, ctx);
      return Some(Summary(warnings, [], retired));
    }
  }

  /** `retire_worktree_spec` on the world. */
  function RetireIn(w: World, p: Pending, ctx: Context): World {
    var v := if p.removeWorkspace then RemoveWorkspace(w, p.plan, ctx) else w;
    v.(state := v.state - if p.removeState then {p.spec.name} else {})
  }

  /** The world after the listed worktrees and the listed leftover state are gone. */
  ghost function CommittedBy(w: World, pending: seq<Pending>, cleanup: seq<string>, ctx: Context): World {
    Removed(w, DoomedPlansOf(pending), ctx).(state := w.state - (StateRemovedBy(pending) + Elements(cleanup)))
  }

  lemma CommitPending(w: World, pending: seq<Pending>, i: nat, ctx: Context)
    requires i < |pending|
    ensures RetireIn(CommittedBy(w, pending[..i], [], ctx), pending[i], ctx) ==
              CommittedBy(w, pending[..i + 1], [], ctx)
  {
    hide Removed, RemoveWorkspace, DoomedPlansOf, StateRemovedBy;
    var plans, names := DoomedPlansOf(pending[..i]), StateRemovedBy(pending[..i]);
    PendingSnoc(pending, i);
    assert forall s: set<string> :: s + Elements([]) == s;
    assert plans + {} == plans;
    SubtractTwice(w.state, names, if pending[i].removeState then {pending[i].spec.name} else {});
    RemoveOneMore(w, plans, pending[i].plan, ctx);
    RemoveIgnoresState(Removed(w, plans, ctx), w.state - names, pending[i].plan, ctx);
  }

  lemma CommitCleanup(w: World, pending: seq<Pending>, cleanup: seq<string>, i: nat, ctx: Context)
    requires i < |cleanup|
    ensures var v := CommittedBy(w, pending, cleanup[..i], ctx);
            v.(state := v.state - {cleanup[i]}) == CommittedBy(w, pending, cleanup[..i + 1], ctx)
  {
    hide Removed, RemoveWorkspace, DoomedPlansOf, StateRemovedBy, Elements;
    CleanupSnoc(cleanup, i);
    var gone := StateRemovedBy(pending);
    SubtractTwice(w.state, gone + Elements(cleanup[..i]), {cleanup[i]});
    assert gone + (Elements(cleanup[..i]) + {cleanup[i]}) == gone + Elements(cleanup[..i]) + {cleanup[i]};
  }

  lemma NothingCommitted(w: World, ctx: Context)
    ensures CommittedBy(w, [], [], ctx) == w
    ensures forall s: set<Retirement> :: s + CleanupRetirements([]) == s
    ensures DoomedPlansOf([]) == {} && StateRemovedBy([]) == {} && RetirementsOf([]) == {} &&
              Elements<Retirement>([]) == {}
    ensures CleanupRetirements([]) == {} && Elements<string>([]) == {}
    ensures Removed(w, {}, ctx) == w && w.state - {} == w.state
  {
    RemovedNone(w, ctx);
    assert DoomedPlansOf([]) == {} && StateRemovedBy([]) + Elements<string>([]) == {};
  }

  lemma CleanupSnoc(cleanup: seq<string>, i: nat)
    requires i < |cleanup|
    ensures Elements(cleanup[..i + 1]) == Elements(cleanup[..i]) + {cleanup[i]}
    ensures CleanupRetirements(cleanup[..i + 1]) ==
            CleanupRetirements(cleanup[..i]) + {Retirement(cleanup[i], RemovedFromConfig, true)}
  {
    assert cleanup[..i + 1] == cleanup[..i] + [cleanup[i]];
    assert forall n :: n in cleanup[..i + 1] <==> n in cleanup[..i] || n == cleanup[i];
  }

  lemma BlockedIsRefused(blockers: seq<Alert>, w: World, desired: Specs, ctx: Context)
    requires blockers != [] && Elements(blockers) == BlockersIn(w.state.Keys, w, desired, ctx)
    ensures Refused(w, desired, ctx)
  {
    hide Blocks, PlansOk;
    assert blockers[0] in Elements(blockers);
  }

  ghost function Warnings(seen: set<string>, w: World, desired: Specs, ctx: Context): set<Alert>
    requires seen <= desired.Keys
  {
    set n | n in seen && Warns(n, w, desired, ctx) :: Inspect(w, desired[n], Plan(desired[n], ctx).value, None)
  }

  predicate Warns(n: string, w: World, desired: Specs, ctx: Context)
    requires n in desired
  {
    Managed(desired[n], ctx) && Inspect(w, desired[n], Plan(desired[n], ctx).value, None).NeedsMerge()
  }

  /** The second loop's findings over the desired agents in `seen`. */
  ghost predicate Warned(seen: set<string>, warnings: seq<Alert>, w: World, desired: Specs, ctx: Context) {
    && seen <= desired.Keys
    && (forall n :: n in seen && desired[n].mode == GitWorktree ==> Plan(desired[n], ctx).Some?)
    && Elements(warnings) == Warnings(seen, w, desired, ctx)
  }

  lemma NothingWarned(w: World, desired: Specs, ctx: Context)
    ensures Warned({}, [], w, desired, ctx)
  {}

  lemma WarnOneMore(seen: set<string>, x: string, warnings: seq<Alert>, w: World, desired: Specs, ctx: Context)
    requires Warned(seen, warnings, w, desired, ctx) && x in desired
    ensures Warns(x, w, desired, ctx) <==>
              && desired[x].mode == GitWorktree && Plan(desired[x], ctx).Some?
              && Plan(desired[x], ctx).value.scope != External
              && Inspect(w, desired[x], Plan(desired[x], ctx).value, None).NeedsMerge()
    ensures desired[x].mode != GitWorktree || Plan(desired[x], ctx).Some? ==>
              Warned(seen + {x},
                if Warns(x, w, desired, ctx) then warnings + [Inspect(w, desired[x], Plan(desired[x], ctx).value, None)]
                else warnings, w, desired, ctx)
  {
    hide Plan, Inspect, Elements;
    assert forall n :: n in seen + {x} <==> n in seen || n == x;
    if Warns(x, w, desired, ctx) { ElementsSnoc(warnings, Inspect(w, desired[x], Plan(desired[x], ctx).value, None)); }
  }

  /** What a committed run reports as retired: every due agent, and every agent whose state alone went. */
  ghost function Retirements(w: World, desired: Specs, ctx: Context): set<Retirement> {
    (set n | n in w.state && Due(n, w.state, desired, ctx)
           :: Retirement(n, RetirementReason(w.state[n], Lookup(desired, n), ctx).value, n !in desired))
    + (set n | n in w.state && StateOnly(n, w.state, desired, ctx) :: Retirement(n, RemovedFromConfig, true))
  }

  lemma PendingSnoc(pending: seq<Pending>, i: nat)
    requires i < |pending|
    ensures pending[..i + 1] == pending[..i] + [pending[i]]
    ensures DoomedPlansOf(pending[..i + 1]) ==
            DoomedPlansOf(pending[..i]) + if pending[i].removeWorkspace then {pending[i].plan} else {}
    ensures StateRemovedBy(pending[..i + 1]) ==
            StateRemovedBy(pending[..i]) + if pending[i].removeState then {pending[i].spec.name} else {}
    ensures RetirementsOf(pending[..i + 1]) == RetirementsOf(pending[..i]) +
            {Retirement(pending[i].spec.name, pending[i].reason, pending[i].removeState)}
  {
    assert pending[..i + 1] == pending[..i] + [pending[i]];
    assert forall p :: p in pending[..i + 1] <==> p in pending[..i] || p == pending[i];
  }

  lemma RemoveIgnoresState(w: World, s: Specs, plan: WorkspacePlan, ctx: Context)
    ensures RemoveWorkspace(w.(state := s), plan, ctx) == RemoveWorkspace(w, plan, ctx).(state := s)
  {
    hide RemoveDirectory;
    RemoveDirectoryIgnoresState(w, s, plan.path, ctx);
    assert RemoveDirectory(w, plan.path, ctx).branches == w.branches;
  }

  lemma RemoveDirectoryIgnoresState(w: World, s: Specs, path: string, ctx: Context)
    ensures RemoveDirectory(w.(state := s), path, ctx) == RemoveDirectory(w, path, ctx).(state := s)
    ensures RemoveDirectory(w, path, ctx).branches == w.branches
  {}

  lemma BlockerIsCollected(n: string, w: World, desired: Specs, ctx: Context)
    requires Blocks(n, w, desired, ctx)
    ensures BlockersIn(w.state.Keys, w, desired, ctx) != {}
  {
    assert AlertOf(n, w, desired, ctx) in BlockersIn(w.state.Keys, w, desired, ctx);
  }

  /** With nothing blocking, the collected lists describe the committed world. */
  lemma NothingBlocks(blockers: seq<Alert>, pending: seq<Pending>, cleanup: seq<string>, w: World, desired: Specs,
                      ctx: Context)
    requires KeyedByName(w.state)
    requires Collected(w.state.Keys, blockers, pending, cleanup, w, desired, ctx) && blockers == []
    ensures forall n :: !Blocks(n, w, desired, ctx)
    ensures DoomedPlansOf(pending) == DoomedPlans(w, desired, ctx)
    ensures StateRemovedBy(pending) + Elements(cleanup) == w.state.Keys - desired.Keys
    ensures RetirementsOf(pending) + CleanupRetirements(cleanup) == Retirements(w, desired, ctx)
  {
    hide Plan, Identity, Referenced;
    forall n ensures !Blocks(n, w, desired, ctx) {
      if Blocks(n, w, desired, ctx) { BlockerIsCollected(n, w, desired, ctx); }
    }
    forall n | Due(n, w.state, desired, ctx) ensures PendingOf(n, w, desired, ctx) in pending {
      assert PendingOf(n, w, desired, ctx) in Elements(pending);
    }
    forall p | p in pending
      ensures Due(p.spec.name, w.state, desired, ctx) && p == PendingOf(p.spec.name, w, desired, ctx)
    {
      assert p in Elements(pending);
    }
    forall n ensures n in cleanup <==> StateOnly(n, w.state, desired, ctx) {
      assert n in cleanup <==> n in Elements(cleanup);
    }
    PendingDescribes(pending, cleanup, w, desired, ctx);
  }

  function RetirementsOf(pending: seq<Pending>): set<Retirement> {
    set p | p in pending :: Retirement(p.spec.name, p.reason, p.removeState)
  }

  function CleanupRetirements(cleanup: seq<string>): set<Retirement> {
    set n | n in cleanup :: Retirement(n, RemovedFromConfig, true)
  }

  lemma PendingDescribes(pending: seq<Pending>, cleanup: seq<string>, w: World, desired: Specs, ctx: Context)
    requires KeyedByName(w.state)
    requires forall n :: Due(n, w.state, desired, ctx) ==> PendingOf(n, w, desired, ctx) in pending
    requires forall p :: p in pending ==>
               Due(p.spec.name, w.state, desired, ctx) && p == PendingOf(p.spec.name, w, desired, ctx)
    requires forall n :: n in cleanup <==> StateOnly(n, w.state, desired, ctx)
    ensures DoomedPlansOf(pending) == DoomedPlans(w, desired, ctx)
    ensures StateRemovedBy(pending) + Elements(cleanup) == w.state.Keys - desired.Keys
    ensures RetirementsOf(pending) + CleanupRetirements(cleanup) == Retirements(w, desired, ctx)
  {
    hide Plan, Identity, Referenced;
    DoomedDescribed(pending, w, desired, ctx);
    forall n | n in w.state && n !in desired ensures n in StateRemovedBy(pending) + Elements(cleanup) {
      if Managed(w.state[n], ctx) {
        assert Due(n, w.state, desired, ctx) && PendingOf(n, w, desired, ctx) in pending;
      } else {
        assert n in cleanup;
      }
    }
    forall n | Due(n, w.state, desired, ctx)
      ensures var reason := RetirementReason(w.state[n], Lookup(desired, n), ctx).value;
              Retirement(n, reason, n !in desired) in RetirementsOf(pending)
    {
      assert PendingOf(n, w, desired, ctx) in pending;
    }
  }

  lemma DoomedDescribed(pending: seq<Pending>, w: World, desired: Specs, ctx: Context)
    requires KeyedByName(w.state)
    requires forall n :: Due(n, w.state, desired, ctx) ==> PendingOf(n, w, desired, ctx) in pending
    requires forall p :: p in pending ==>
               Due(p.spec.name, w.state, desired, ctx) && p == PendingOf(p.spec.name, w, desired, ctx)
    ensures DoomedPlansOf(pending) == DoomedPlans(w, desired, ctx)
  {
    hide Plan, Identity, Referenced, RetirementReason;
    forall n | n in w.state && Doomed(n, w, desired, ctx) ensures PlanOf(n, w.state, ctx) in DoomedPlansOf(pending) {
      assert PendingOf(n, w, desired, ctx) in pending;
    }
  }
}
