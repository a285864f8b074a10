/** The configuration of one agent. */
module AgentSpecs {
  import opened Text

  datatype WorkspaceMode = GitWorktree | Copy | Inplace

  /** Environment, API, provider profile, labels, description and watch paths are not shown: nothing here reads them. */
  datatype AgentSpec = AgentSpec(
    name: string, provider: string, target: string, mode: WorkspaceMode,
    workspaceRoot: Option<string>, workspacePath: Option<string>, workspaceGroup: Option<string>,
    branchTemplate: Option<string>, commandTemplate: Option<string>,
    model: Option<string>, startupArgs: seq<string>, role: Option<string>)
}
