# Verified models of ccbr's layout, workspace and configuration logic

ccbr runs a team of command-line agents in terminal panes. This project models the parts of it whose results other
parts build on without re-checking them, and proves what those parts rely on.

**The layout language** (`Layout`, `LeafToken`, `Tokenizer`, `Grammar`, `LayoutParser`, `RoundTrip`). A layout is a
binary tree of panes written as text: `;` puts panes side by side and binds loosely, `,` stacks them and binds tightly,
parentheses group. The model starts at characters: comments, the tokenizer with its two meanings of `(`, the parser with
its mutable index, the leaf expression with bounded name, white space, `(worktree)` and `@percent`, and the renderer.
The renderer leaves out parentheses around a child of the same operator, so reading back rendered text does not give the
same tree but the tree with each chain re-associated to the left (`Norm`). That law holds *exactly* for trees whose
leaves have a written form, and two such trees render alike exactly when rotations turn one into the other.

**What is built on the layout language.** Pruning and the layout signature (`Pruning`), the generated two-column layout
(`BalancedLayout`), the plan of visible panes (`LayoutPlan`), the configuration's normalisation and validation
(`AgentNames`, `AgentSpecs`, `UiSpecs`, `ConfigNormalize`), compact configuration files (`CompactConfig`,
`CompactLoading`, `CompactWriting`), and the hot-reload planners that turn an old and a new layout into a list of pane splits (`AppendPlan`,
`AdditiveWindows`, `ConfigTopology`).

**Workspaces** (`Calendar`, `Reconcile`). The closed-form date of a day number is proved to be the calendar of Appendix C
and section 5.7 of RFC 3339 for every integer. Reconciliation at start is a collect-then-commit procedure over persisted
and desired agents; git and the file system are an abstract world of registrations, directories, branches and state.

**Smaller stateful services.** Fault injection (`FaultInjection`), role discovery with precedence (`Roles`) and version
selection (`Ordering`, `Versions`).

Code that changes state keeps that form: the parser, the workspace guard, the configuration and the fault service are
classes whose methods are proved against functions on values; loops over lists and maps are methods with invariants. A
loop over a hash map takes its keys in any order, so its result is proved for every order.

`dafny verify dfyconfig.toml` checks the whole project.

## Where the code falls short of the obvious statement

Each of these is proved, with the exact condition and, where it helps, a concrete input.

- A layout rearranged without adding a pane gets an *empty append plan*, as if nothing had changed, if its panes kept
  their order; otherwise it gets none (`SameCountPlan`, `PlanSound`, `RearrangedGetsEmptyPlan`).
- A tool window may have the name of an agent window and then hides it from the planner: an agent added to that window is
  neither planned nor in a brand-new window (`TargetsArePlanned`, `ConfigTargetsArePlanned`, `ToolWindowHidesGrowth`).
- The append planner *panics* when both texts parse and the new one has fewer panes (`PlannerPanics`, `LostPanePanics`).
  A window whose agents are its panes never gets there (`WindowPlanPanics`).
- A plan whose last append continues the chain the rightmost leaf is in cannot be told from a longer chain once the new
  layout is text, so it is not found again, unless the whole layout is that chain and every append continues it
  (`PlanSurvivesText`, `WrittenPlanIsLost`).
- A plan of the second strategy ignores that an old pane changed its provider, mode or size (`PlanKeepsAnnotations`,
  `ChangedPaneIsMissed`).
- A window that gained a pane written with an upper-case letter gets no plan, because its agent is called otherwise
  (`GrownWindowPlan`, `UpperCasePaneGetsNoPlan`).
- The generated layout marks worktree agents with the mode `git-worktree`, which the renderer does not write: the mark is
  lost (`GeneratedLayoutParses`, `WorktreeMarkerIsLost`).
- The layout generated for an agent whose provider does not read as one, such as a provider of two words, fails the check
  that follows; this is decided for providers without marks (`GeneratedTextParses`, `GeneratedLayoutDecided`,
  `GeneratedConfigDecided`, `TwoWordProvider`).
- A configuration may be written compactly although the text does not give it back, for instance when its layout does
  not name the providers (`CompactWritesExactly`, `BarePaneDoesNotLoad`).
- A pane sized with a percent of 2^32 or more is accepted and its size silently dropped (`PercentIsKept`,
  `LargePercentIsLost`).
- Removing a worktree that is gone prunes *every* registration whose directory is gone; only such registrations are
  affected (`RegistrationsRemoved`, `UnrelatedRegistrationIsPruned`).
- The guard that spares a workspace another desired agent uses skips the agent itself. When a configuration writes the
  same directory in another way, the run removes the workspace the agent still wants (`RemovedIdentityUnwanted`,
  `RewrittenPathLosesWorkspace`).
- Normalising a configuration panics on an empty window list and when a layout has to be generated for no agent
  (`NormalizePanics`, `EmptyWindowsPanic`).
- A compact document that writes an agent with an upper-case letter is rejected: its layout lacks the normalised name
  (`LoadsExactly`, `UpperCaseAgentIsRejected`).
- A fault armed for a task id with white space at its ends never fires (`RuleCanFire`, `StuckRule`).
- A model's name is normalised like a role id: lower-cased, and renamed if it equals a legacy id (`CanonicalIds`,
  `NormalizeSpec`).
- A version segment of 2^64 or more is dropped from the key. A version is ordered rightly among those that fit exactly
  when it fits too; otherwise some smaller version counts as newer (`KeyIsNumbers`, `FitsExactly`, `SmallerIsNewer`,
  `HugeVersionIsOld`).
- The year of a date is narrowed to 32 bits, which is exact on one interval of days (`NarrowingIsExact`).

## Model

| member | source | states |
|---|---|---|
| Text.LinesGoOn | crates/ccbr-agents/src/layout.rs:288 | A line ends at a line feed, with or without a carriage return before it, and the lines of the rest follow |
| Text.CommentIsCut | crates/ccbr-agents/src/layout.rs:289-295 | What is scanned of a line is exactly what stands before its first `#` or `//` |
| Text.CommentsAreIgnored | crates/ccbr-agents/src/layout.rs:289-295 | Text behind `#`, or behind `//` that no slash precedes, never matters |
| Text.SpacesExactly | crates/ccbr-agents/src/layout.rs:321-327 | White space is 25 characters, by code point |
| LeafToken.NameExactly | crates/ccbr-agents/src/layout.rs:148 | A pane name is a letter and up to 63 letters, digits, `_`, `.` and `-` |
| LeafToken.CaptureDecidesMatch | crates/ccbr-agents/src/layout.rs:144-156 | The deterministic leaf scanner succeeds with given captures exactly when the leaf expression matches the token with those captures, so a match is unique |
| LeafToken.LeafRoundTrip | crates/ccbr-agents/src/layout.rs:90-105 | Reading a rendered leaf gives that leaf exactly when its name, provider, mode and percent lie in the expression's language |
| LeafToken.ParsedLeafIsWf | crates/ccbr-agents/src/layout.rs:228-246 | Every leaf the parser accepts has a written form |
| LeafToken.PercentIsKept | crates/ccbr-agents/src/layout.rs:235-237 | The percent of an accepted token is the number after `@` if that fits 32 bits, and missing otherwise |
| LeafToken.LargePercentIsLost | crates/ccbr-agents/src/layout.rs:235-237 | A name with `@` and any number of 2^32 or more reads as the pane without a size |
| Tokenizer.Tokenize | crates/ccbr-agents/src/layout.rs:285-327 | The two nested loops over tokens, buffer and index compute the recursive scanner, including the leaf-group reading of an opening parenthesis and its end-of-line case |
| Tokenizer.TokensAreTrimmed | crates/ccbr-agents/src/layout.rs:321-327 | No token is blank or carries white space at its ends |
| Tokenizer.ScanConserves | crates/ccbr-agents/src/layout.rs:285-327 | White space aside, the concatenated tokens of a line are the line: nothing is lost, added or moved |
| Tokenizer.TokensOfLines | crates/ccbr-agents/src/layout.rs:288-319 | The tokens of a text are those of its first line followed by those of the rest, for both kinds of line ends |
| Tokenizer.CommentsHaveNoTokens | crates/ccbr-agents/src/layout.rs:289-295 | A comment at the end of a line yields no tokens |
| Grammar.ParserDecidesGrammar | crates/ccbr-agents/src/layout.rs:171-246 | Parsing returns a tree exactly when the grammar of `;` chains over `,` chains over leaves and groups derives the whole token list as that tree, both chains associating to the left; the tree is unique |
| Grammar.ParsedLeaves | crates/ccbr-agents/src/layout.rs:211-246 | The leaves of a parsed tree are the leaf tokens in order, each well formed |
| Grammar.ErrorsAreLocated | crates/ccbr-agents/src/layout.rs:185-271 | Every parsing step stops at a suffix of its tokens, and an error describes the token standing there: the end, a misplaced mark, something other than the closing parenthesis, or just before it a token that is no leaf |
| LayoutParsing.LayoutParser.constructor | crates/ccbr-agents/src/layout.rs:164-169 | The parser starts at the first token |
| LayoutParsing.LayoutParser.Consume | crates/ccbr-agents/src/layout.rs:252-261 | Moves past the expected token, or reports what was found instead and stays where it is |
| LayoutParsing.LayoutParser.Parse | crates/ccbr-agents/src/layout.rs:171-183 | The parser with its mutable index returns the tree or error of the parsing function on all tokens, an empty list and left-over tokens included |
| LayoutParsing.LayoutParser.ParseHorizontalStep | crates/ccbr-agents/src/layout.rs:185-196 | Reads a maximal `;` chain, leaving the index exactly where the parsing function stops, on success and on error; terminates on tokens left and rule rank |
| LayoutParsing.LayoutParser.ParseVerticalStep | crates/ccbr-agents/src/layout.rs:198-209 | The same for a `,` chain |
| LayoutParsing.LayoutParser.ParsePrimaryStep | crates/ccbr-agents/src/layout.rs:211-226 | The same for a leaf or a group, with the errors for a missing or misplaced token |
| LayoutParsing.ParseLayoutSpec | crates/ccbr-agents/src/layout.rs:274-276 | Tokenizer and parser together compute the layout of a text |
| RoundTrip.RenderTokenizes | crates/ccbr-agents/src/layout.rs:69-130 | Rendered text splits into exactly the leaf texts, operators and needed parentheses of the tree, for written leaves and for any leaf text without marks |
| RoundTrip.ParseRender | crates/ccbr-agents/src/layout.rs:69-130 | Parsing what a tree renders to gives the tree re-associated to the left, if and only if every leaf has a written form |
| RoundTrip.ParseTwoLines | crates/ccbr-agents/src/layout.rs:274-319 | Every written layout broken into two lines behind its last separator parses to the same re-associated tree |
| RoundTrip.ParseRenderedText | crates/ccbr-agents/src/layout.rs:228-276 | The text of a left-leaning tree whose leaf texts are single tokens parses if and only if all of them read as leaves, and then to the tree of what they read as |
| RoundTrip.ReparseIsStable | crates/ccbr-agents/src/layout.rs:274-276 | For the result of any successful parse, rendering, parsing and rendering again gives the same text; the same tree comes back exactly when its chains lean to the left |
| RoundTrip.RenderDecidesEquivalence | crates/ccbr-agents/src/layout.rs:115-130 | Two trees with written leaves render to the same text exactly when rotations turn one into the other |
| Layout.NormDecidesEquivalence | crates/ccbr-agents/src/layout.rs:115-130 | Re-association to the left is a complete invariant of rotation inside chains |
| Layout.NormFixpoint | crates/ccbr-agents/src/layout.rs:185-209 | Re-association is idempotent and leaves alone exactly the trees with left-leaning chains, the form the parser's loops build |
| Layout.NormRenders | crates/ccbr-agents/src/layout.rs:115-130 | Rendering forgets how a chain was associated |
| Layout.NormLeaves | crates/ccbr-agents/src/layout.rs:51-67 | Re-association keeps every leaf and its position |
| Pruning.PruneFilters | crates/ccbr-agents/src/layout.rs:392-426 | The panes kept are those asked for, in their old order; nothing is left exactly when none was asked for |
| Pruning.KeptByRequest | crates/ccbr-agents/src/layout.rs:392-426 | A pane is kept exactly when some requested name, white space around it aside, is its name |
| Pruning.PruneTwice | crates/ccbr-agents/src/layout.rs:392-426 | Pruning twice is pruning by the intersection |
| Pruning.PruneRespectsEquivalence | crates/ccbr-agents/src/layout.rs:392-426 | Equivalent layouts pruned by the same names stay equivalent and vanish together |
| Pruning.SignatureDependsOnNorm | crates/ccbr-agents/src/models.rs:1316-1332 | The layout signature depends only on the layout up to re-association and on the set of included names |
| Pruning.SignatureIsFaithful | crates/ccbr-agents/src/models.rs:1316-1332 | Equal signatures mean equivalent pruned layouts, and so the same visible panes in the same order; and conversely |
| BalancedLayout.StackVertical | crates/ccbr-agents/src/layout.rs:378-390 | The loop builds the left-leaning column of its leaves, or nothing for none |
| BalancedLayout.BuildBalancedLayout | crates/ccbr-agents/src/layout.rs:329-376 | The two loops trim, drop blank names, attach providers and modes and build the two columns; without a name left there is the panic |
| BalancedLayout.ColumnsShape | crates/ccbr-agents/src/layout.rs:360-376 | Each pane appears once, in order; the left column holds the larger half; the tree already leans to the left |
| BalancedLayout.ParseRenderLexable | crates/ccbr-agents/src/layout.rs:90-105 | Reading back a layout with unwritten modes gives its written form, re-associated |
| BalancedLayout.GeneratedLayoutParses | crates/ccbr-agents/src/models.rs:1157-1174 | The generated text parses, `cmd` first if enabled and then the agents in order; it is the generated tree exactly when no agent's mode is lost in writing |
| BalancedLayout.GeneratedTextParses | crates/ccbr-agents/src/models.rs:1157-1174 | For any providers whose text has no mark, comment or surrounding white space, the generated text parses if and only if every agent with its provider reads as a leaf, and then shows the panes in order |
| BalancedLayout.TwoWordProvider | crates/ccbr-agents/src/layout.rs:144-156 | An agent whose provider is two words does not read as a leaf |
| BalancedLayout.SizedProvider | crates/ccbr-agents/src/layout.rs:144-156 | A provider that is not one, but reads as a provider and a size |
| BalancedLayout.WorktreeMarkerIsLost | crates/ccbr-agents/src/models.rs:1162-1167 | With the mode that normalisation passes for worktree agents the generated tree does not come back |
| AppendPlanning.RightmostSound | crates/ccbr-daemon/src/reload_append_layout.rs:58-106 | Replaying the plan of the first strategy at the rightmost leaf gives the new layout up to re-association, with provider, mode and size of all old panes; only the added panes are reduced to their names |
| AppendPlanning.TrailingSound | crates/ccbr-daemon/src/reload_append_layout.rs:108-173 | A plan of the second strategy names exactly the panes added at the end, and replaying it gives the new layout whenever it adds one |
| AppendPlanning.PlanSound | crates/ccbr-daemon/src/reload_append_layout.rs:58-145 | The new names are the old names followed by the plan's agents; the replayed plan gives the new layout if and only if a pane was added or the skeletons render alike |
| AppendPlanning.PlanKeepsAnnotations | crates/ccbr-daemon/src/reload_append_layout.rs:58-145 | When panes were added, the replayed plan is the new layout with its old panes as annotated, up to re-association, if and only if these annotations did not change |
| AppendPlanning.ChangedPaneIsMissed | crates/ccbr-daemon/src/reload_append_layout.rs:108-145 | A concrete plan that does not notice a pane with another provider and size |
| AppendPlanning.SameCountPlan | crates/ccbr-daemon/src/reload_append_layout.rs:108-145 | With as many panes as before the outcome depends on names alone: the empty plan if they kept their order, else no plan |
| AppendPlanning.RearrangedGetsEmptyPlan | crates/ccbr-daemon/src/reload_append_layout.rs:108-145 | A concrete rearrangement of two panes gets the empty plan, which does not reach it |
| AppendPlanning.PlannerPanics | crates/ccbr-daemon/src/reload_append_layout.rs:122 | The slice is out of bounds exactly when both texts parse and the new layout has fewer panes |
| AppendPlanning.UnreadableGetsNoPlan | crates/ccbr-daemon/src/reload_append_layout.rs:21-32 | A text that does not parse gets no plan; two that do get the plan of their layouts |
| AppendPlanning.LostPanePanics | crates/ccbr-daemon/src/reload_append_layout.rs:122 | The planner panics on the texts `a; b` and `a` |
| AppendPlanning.ReplayIsPlanned | crates/ccbr-daemon/src/reload_append_layout.rs:58-106 | Completeness on trees: from a tree to what any plan makes of it, exactly that plan is found |
| AppendPlanning.StrategiesAgree | crates/ccbr-daemon/src/reload_append_layout.rs:58-145 | When both strategies find a plan it is the same plan |
| AppendPlanning.PlanSurvivesText | crates/ccbr-daemon/src/reload_append_layout.rs:21-32 | Completeness on texts, for every written old layout: the plan is found again from the rendered old and replayed layouts if and only if its last append does not continue the chain of the rightmost leaf, or the whole layout is that chain and every append continues it |
| AppendPlanning.WrittenPlanIsLost | crates/ccbr-daemon/src/reload_append_layout.rs:21-32 | A concrete plan of two appends that is not found again from text |
| AdditiveWindows.ShrinkingWindow | crates/ccbr-daemon/src/reload_additive_agents.rs:230-234 | A window that lost agents gets the empty plan, whatever else changed |
| AdditiveWindows.ChangedWindow | crates/ccbr-daemon/src/reload_additive_agents.rs:235-237 | A window that did not lose agents but whose first agents changed gets no plan |
| AdditiveWindows.GrownWindow | crates/ccbr-daemon/src/reload_additive_agents.rs:238-243 | A window that kept its agents and gained some gets what its layouts get, unless that plan names other agents |
| AdditiveWindows.WindowPlanSound | crates/ccbr-daemon/src/reload_additive_agents.rs:223-244 | A planned window that does not shrink has its old agents followed by the plan's agents; the plan is empty exactly when the agents are the same, and replaying it gives the new layout's shape exactly when it is not empty or the layouts had one shape already |
| AdditiveWindows.GrownWindowPlan | crates/ccbr-daemon/src/reload_additive_agents.rs:223-244 | A window whose agents are its pane names in lower case and that gained some gets a plan if and only if its layouts get one and the added panes are written in lower case |
| AdditiveWindows.WindowPlanPanics | crates/ccbr-daemon/src/reload_additive_agents.rs:223-244 | The exact condition under which planning a window panics; it never does for windows whose agents are their layout's panes |
| AdditiveWindows.AppendAgentWindows | crates/ccbr-daemon/src/reload_additive_agents.rs:194-220 | In any order of windows, it succeeds exactly when each kept window has a plan, and then returns exactly the non-empty ones; it gives up or crashes only for a kept window that does |
| AdditiveWindows.TargetsArePlanned | crates/ccbr-daemon/src/reload_additive_agents.rs:247-273 | For any two topologies where nothing shrinks and kept windows have plans: the new agents are the agents of brand-new windows and the planned agents their window lacked, if and only if under each kept name the mapped windows gained what all windows of that name gained |
| AdditiveWindows.PlannedAreNew | crates/ccbr-daemon/src/reload_additive_agents.rs:223-244 | Where the agents of a window are distinct, no planned agent was in the window before, so leaving those out removes nothing |
| ConfigTopologies.BuildNamespaceTopology | crates/ccbr-daemon/src/reload_additive_agents.rs:25-48 | The two loops give the agent windows and then the tool windows, these without agents or layout |
| ConfigTopologies.TopologyExactly | crates/ccbr-daemon/src/reload_additive_agents.rs:25-48 | Each window of the topology, field by field |
| ConfigTopologies.ConfigTargetsArePlanned | crates/ccbr-daemon/src/reload_additive_agents.rs:189-261 | Between two configurations that validation accepts, all new agents are planned or in brand-new windows if and only if no agent window gained one behind a tool window of its name |
| ConfigTopologies.ToolWindowHidesGrowth | crates/ccbr-agents/src/models.rs:1074-1085 | Two concrete accepted configurations between which an agent is added that no plan and no brand-new window shows |
| ConfigTopologies.UpperCasePaneGetsNoPlan | crates/ccbr-agents/src/config.rs:436-463 | A concrete window to which the pane `B` is added and which gets no plan |
| Calendar.IntermediateRanges | crates/ccbr-agents/src/workspace.rs:1299-1305 | For every integer day the day of era, year of era, day of year and month index stay in 0..146096, 0..399, 0..365 and 0..11 |
| Calendar.CivilIsValid | crates/ccbr-agents/src/workspace.rs:1297-1309 | Every integer day gets a valid Gregorian date, whose day number it is |
| Calendar.CivilInverts | crates/ccbr-agents/src/workspace.rs:1297-1309 | Every valid date comes back from its day number |
| Calendar.CivilFollowsCalendar | crates/ccbr-agents/src/workspace.rs:1297-1309 | Day 0 is 1970-01-01 and each next day is the calendar successor, so the closed form is the calendar of RFC 3339 |
| Calendar.NarrowingIsExact | crates/ccbr-agents/src/workspace.rs:1308 | The narrowing of the year to 32 bits, with its overflow, keeps the date exactly on one interval of days |
| Calendar.SuccessorIsNextDay | crates/ccbr-agents/src/workspace.rs:1297-1309 | The next calendar day is valid and has the next day number, across month ends and leap days |
| Calendar.DayNumberInjective | crates/ccbr-agents/src/workspace.rs:1297-1309 | Different dates have different day numbers |
| Reconciliation.PlansByScope | crates/ccbr-agents/src/workspace.rs:100-170 | The path and the branch of a plan, by the agent's mode, own path and group |
| Reconciliation.GroupOutlivesMember | crates/ccbr-agents/src/workspace.rs:1158-1182 | The workspace of a group is not removed for a member that leaves while another one stays |
| Reconciliation.AlertShowsWorld | crates/ccbr-agents/src/workspace.rs:1134-1156 | An alert shows whether the directory is a dirty checkout and whether the branch exists and is merged; it needs a merge exactly when there is unsaved work |
| Reconciliation.DueExactly | crates/ccbr-agents/src/workspace.rs:1111-1132 | Which persisted agents are due and for which reason: managed worktrees whose agent is gone, has another mode, or another path or branch |
| Reconciliation.RefusedExactly | crates/ccbr-agents/src/workspace.rs:983-1045 | A run is refused if and only if a plan fails or some due agent has a dirty directory or an existing branch that is not merged |
| Reconciliation.Workspaces.IsReferenced | crates/ccbr-agents/src/workspace.rs:1158-1182 | The search over desired agents decides whether another one has the same path and branch, in any order of agents |
| Reconciliation.Workspaces.Collect | crates/ccbr-agents/src/workspace.rs:983-1023 | The first loop sorts persisted agents into blockers, retirements, state clean-ups and the rest, each exactly as its own data decides, and changes nothing |
| Reconciliation.Workspaces.Warn | crates/ccbr-agents/src/workspace.rs:1025-1037 | The second loop warns of exactly the desired, managed worktrees that hold unsaved work |
| Reconciliation.Workspaces.RetireWorktree | crates/ccbr-agents/src/workspace.rs:1193-1240 | Retiring removes registration, directory and branch if asked to, the agent's state if asked to, and nothing else |
| Reconciliation.Workspaces.Commit | crates/ccbr-agents/src/workspace.rs:1047-1068 | The commit loops perform all collected retirements in turn and report each |
| Reconciliation.Workspaces.ReconcileStart | crates/ccbr-agents/src/workspace.rs:966-1075 | Whatever the order of the maps, the world becomes one function of the old world, and the summary holds exactly the warnings, blockers and retirements it describes; no dirty directory and no unmerged branch goes, and if anything due has unsaved work, there is a blocker and the world stays as it was |
| Reconciliation.RemoveOneMore | crates/ccbr-agents/src/workspace.rs:788-821 | Removals commute: the world after removing a set of workspaces does not depend on the order, even for shared workspaces and with the prune in between |
| Reconciliation.AllOrNothing | crates/ccbr-agents/src/workspace.rs:1039-1045 | A run never removes a dirty directory or a branch that is not merged; if anything due has unsaved work, nothing in the world changes |
| Reconciliation.DoomedIsSafe | crates/ccbr-agents/src/workspace.rs:1111-1182 | A worktree removed by a run was managed, neither dirty nor unmerged, and not the workspace of another desired agent |
| Reconciliation.RemovalIsSafe | crates/ccbr-agents/src/workspace.rs:966-1075 | Each directory and branch a run removes belongs to a safely removable worktree, removed branches were merged, and a registration goes only with its worktree or because its directory is gone; all else stays as it was |
| Reconciliation.RegistrationsRemoved | crates/ccbr-agents/src/workspace.rs:788-821 | A registration goes if and only if its worktree is removed, or its directory is gone and so is that of some registered worktree to be removed |
| Reconciliation.UnrelatedRegistrationIsPruned | crates/ccbr-agents/src/workspace.rs:808-821 | A concrete run that unregisters a worktree no agent mentions |
| Reconciliation.RemovedIdentityUnwanted | crates/ccbr-agents/src/workspace.rs:1158-1191 | A removed identity is wanted by some desired agent exactly when that is the same agent, written with another path to the same directory and the same branch |
| Reconciliation.RewrittenPathLosesWorkspace | crates/ccbr-agents/src/workspace.rs:1158-1191 | A concrete run that removes the workspace its agent still wants |
| Reconciliation.Progress | crates/ccbr-agents/src/workspace.rs:1047-1074 | After a run without blockers there is state for desired agents only, theirs unchanged, and every doomed worktree is unregistered, branchless and, where ccbr owns it, gone |
| Reconciliation.SecondRunIsIdle | crates/ccbr-agents/src/workspace.rs:966-1075 | After such a run a second one has no blocker either and changes nothing, shared workspaces included |
| AgentNames.NormalizeFixpoint | crates/ccbr-agents/src/models.rs:13-43 | Normalising a name gives a lower-case, unreserved pane name, and leaves exactly such names alone |
| AgentNames.NormalizeExactly | crates/ccbr-agents/src/models.rs:23-43 | Which names normalise, and to what: trimmed and lower-cased they have the shape of a name and are not reserved |
| AgentNames.NameShape | crates/ccbr-agents/src/models.rs:13-16 | An agent name is a letter and up to 31 letters, digits, `_` and `-` |
| LayoutPlanning.CheckDefaults | crates/ccbr-agents/src/models.rs:947-965 | The loop over default agents decides that they are non-empty, known and distinct after normalisation |
| LayoutPlanning.CheckAgents | crates/ccbr-agents/src/models.rs:966-980 | The loop over the agent map, in any order, decides that every key normalises to its agent's name and names are distinct |
| LayoutPlanning.Validate | crates/ccbr-agents/src/models.rs:1049-1073 | Comparing sets and counts decides that the layout shows exactly the expected panes, each once, `cmd` first if enabled |
| LayoutPlanning.SelectLayoutTargets | crates/ccbr-agents/src/models.rs:1257-1278 | The loop computes the selection: the default agents when nothing is requested, else the requests in turn |
| LayoutPlanning.SelectionIsRequested | crates/ccbr-agents/src/models.rs:1264-1277 | A selection succeeds exactly when each request names a known agent, and then holds just those agents, each once |
| LayoutPlanning.SelectionGrows | crates/ccbr-agents/src/models.rs:1264-1277 | Later requests only add at the end, so agents stand in the order of their first request |
| LayoutPlanning.PlanTargets | crates/ccbr-agents/src/models.rs:1285-1292 | The targets of a plan: explicit ones normalised in place, else the distinct known agents requested, else the default agents |
| LayoutPlanning.NoLayoutNoPlan | crates/ccbr-agents/src/models.rs:1293-1300 | Without a layout there is no plan and the check fails |
| LayoutPlanning.PlanShowsTargets | crates/ccbr-agents/src/models.rs:1280-1324 | On a validated configuration the visible panes are the layout's panes that are `cmd` or a target, in layout order; planning fails only for a bad target or an empty selection, and the error about losing `cmd` cannot occur |
| LayoutPlanning.DefaultPlanShowsAll | crates/ccbr-agents/src/models.rs:1280-1324 | Starting everything shows the whole layout, whose rendering is the signature |
| LayoutPlanning.GeneratedLayoutIsValid | crates/ccbr-agents/src/models.rs:1049-1073 | A configuration whose layout was generated from its distinct default agents passes the layout check, provided their providers are letters, digits, `_` and `-` as the leaf expression wants them |
| LayoutPlanning.GeneratedLayoutDecided | crates/ccbr-agents/src/models.rs:1049-1073 | With any mark-free providers it passes if and only if every default agent with its provider reads as a leaf |
| ConfigNormalizing.NormalizeSpec | crates/ccbr-agents/src/models.rs:691-808 | The step-by-step normalisation of an agent succeeds exactly when the agent is acceptable, with the field values of the function on values |
| ConfigNormalizing.NormalizeStartupArgs | crates/ccbr-agents/src/models.rs:810-844 | Compiling the model into the arguments, with the loop over model flags, computes the arguments or the error |
| ConfigNormalizing.AgentStartsWithModel | crates/ccbr-agents/src/models.rs:810-844 | An agent with a model starts with its provider's flag and the model, once, followed by the given arguments, with no other model flag |
| ConfigNormalizing.AgentsStartWithModel | crates/ccbr-agents/src/models.rs:1104-1118 | The same for every agent of a normalised configuration |
| ConfigNormalizing.AgentWithoutModel | crates/ccbr-agents/src/models.rs:810-844 | Without a model the arguments stay |
| ConfigNormalizing.ModelIsAccepted | crates/ccbr-agents/src/models.rs:810-844 | A model is accepted exactly for the four providers with a flag, if the arguments give no other model |
| ConfigNormalizing.CanonicalIds | crates/ccbr-agents/src/roles.rs:9-17 | Two legacy ids are renamed, any other is trimmed and lower-cased |
| ConfigNormalizing.RoleExactly | crates/ccbr-agents/src/models.rs:751-765 | A role is made of small letters, digits, `.`, `_` and `-`, and has a dot |
| ConfigNormalizing.MatchesCounted | crates/ccbr-agents/src/models.rs:726-739 | Placeholders in a command template are counted from the left without overlap, none is missed |
| ConfigNormalizing.NothingCounted | crates/ccbr-agents/src/models.rs:726-739 | A template without the placeholder counts none |
| ConfigNormalizing.ArgsFixpoint | crates/ccbr-agents/src/models.rs:810-844 | Compiling the model into the start arguments twice is the same as once |
| ConfigNormalizing.SpecFixpoint | crates/ccbr-agents/src/models.rs:691-844 | A normalised agent is acceptable again and normalising it again changes nothing |
| ConfigNormalizing.NormalizeAgents | crates/ccbr-agents/src/models.rs:1104-1118 | Draining the map in any order succeeds exactly when all agents normalise to different names, and gives them under those names |
| ConfigNormalizing.NormalizeDefaults | crates/ccbr-agents/src/models.rs:1120-1124 | Normalises every default agent, or fails if one is not a name |
| ConfigNormalizing.CheckWindow | crates/ccbr-agents/src/models.rs:557-582 | Decides that a window has a legal name, a layout that is not blank, and agents, all of them legal names that differ after normalisation |
| ConfigNormalizing.CheckWindows | crates/ccbr-agents/src/models.rs:981-1027 | The nested loops decide that windows are valid, named apart, and partition the configured agents, and that the entry window exists |
| ConfigNormalizing.ValidateConfig | crates/ccbr-agents/src/models.rs:936-1096 | Decides validity of a configuration with or without windows, with its tool windows, sidebar and heartbeat |
| ConfigNormalizing.CheckUi | crates/ccbr-agents/src/models.rs:1074-1094 | Decides that tool windows, sidebar, sidebar view and heartbeat are acceptable where given |
| ConfigNormalizing.FilledExactly | crates/ccbr-agents/src/models.rs:1177-1187 | The defaults filled in, by value, and that nothing else changes |
| ConfigNormalizing.SignatureCovers | crates/ccbr-agents/src/models.rs:1193-1220 | What the signature covers, field by field |
| UiSpecs.WindowNameExactly | crates/ccbr-agents/src/models.rs:531-544 | A window name is a letter followed by letters, digits, `_` and `-` |
| UiSpecs.SidebarWidths | crates/ccbr-agents/src/models.rs:413-437 | A width in percent is a number of 1 to 2^32 - 1, a width in columns is not zero |
| UiSpecs.HeartbeatExactly | crates/ccbr-agents/src/models.rs:250-285 | The conditions on a heartbeat, field by field |
| UiSpecs.CheckTools | crates/ccbr-agents/src/models.rs:1074-1085 | The loop decides that tool windows have legal names and commands and are named apart from each other |
| UiSpecs.CheckSidebarView | crates/ccbr-agents/src/models.rs:500-514 | The loop decides that some messages are shown and no tip is blank |
| UiSpecs.DefaultsAreOk | crates/ccbr-agents/src/models.rs:1177-1187 | The sidebar, sidebar view and heartbeat that normalisation fills in pass their own checks |
| ConfigNormalizing.ProjectConfig.ArrangeWindows | crates/ccbr-agents/src/models.rs:1126-1147 | Numbers the windows, checks them and settles the entry window; on a refusal or a panic the fields are what had been done until then |
| ConfigNormalizing.ProjectConfig.OrderWindows | crates/ccbr-agents/src/models.rs:1138-1141 | The loop sets the positions up to and including the first window that is not acceptable, and succeeds exactly when there is none |
| ConfigNormalizing.ProjectConfig.ArrangeLayout | crates/ccbr-agents/src/models.rs:1148-1176 | Generates a layout exactly when there is none, with the panic when there is no agent to show, and the fields in each case |
| ConfigNormalizing.ProjectConfig.Finish | crates/ccbr-agents/src/models.rs:1177-1190 | Fills in the missing defaults, signs what results, and succeeds exactly when that is valid |
| ConfigNormalizing.ProjectConfig.Normalize | crates/ccbr-agents/src/models.rs:1098-1191 | The method that rewrites the configuration in place accepts, refuses or panics as the function on values says, and in each case leaves the fields it describes: drained agents after a bad agent, the finished configuration after a failed check |
| ConfigNormalizing.NormalizeIdempotent | crates/ccbr-agents/src/models.rs:1098-1191 | Normalising a normalised configuration succeeds and changes nothing: start arguments, windows, generated layout, defaults and signature included |
| ConfigNormalizing.NormalizedIsConsistent | crates/ccbr-agents/src/models.rs:936-1073 | After success each agent is filed under its own normalised name, default agents are distinct and configured, windows are in order, named apart and partition the agents, the entry window is one of them, and without windows the layout shows exactly the expected panes |
| ConfigNormalizing.NormalizedUiIsConsistent | crates/ccbr-agents/src/models.rs:1028-1095 | After success a sidebar and tool windows stand only beside windows, tool windows are named apart, and sidebar, view, tools and heartbeat pass their own checks |
| ConfigNormalizing.NormalizePanics | crates/ccbr-agents/src/models.rs:1126-1176 | The exact condition under which normalisation panics |
| ConfigNormalizing.EmptyWindowsPanic | crates/ccbr-agents/src/models.rs:1142-1146 | Normalising a configuration with an empty list of windows panics |
| ConfigNormalizing.GeneratedConfigAccepted | crates/ccbr-agents/src/models.rs:1148-1190 | A configuration without windows and layout, with distinct known default agents, lexable providers and no unacceptable optional part, is always accepted, with the generated layout as its layout |
| ConfigNormalizing.GeneratedConfigDecided | crates/ccbr-agents/src/models.rs:1148-1190 | With any mark-free providers such a configuration is accepted if and only if every default agent with its normalised provider reads as a leaf |
| CompactConfigs.ClassifyDocument | crates/ccbr-agents/src/config.rs:160-199 | The loop with its early exit computes the kind of a document |
| CompactConfigs.ClassifyDecides | crates/ccbr-agents/src/config.rs:160-199 | Compact means no rich line, rich means the first line that says anything is rich, hybrid at k means the first rich line is k and some line before it says something |
| CompactConfigs.ParseCompactDocument | crates/ccbr-agents/src/config.rs:536-621 | Joining the lines, parsing and collecting declarations in two loops computes the declared agents and the layout, or fails; what these are is stated by LoadsAs and PaneModes |
| CompactConfigs.CompactRoundTrip | crates/ccbr-agents/src/config.rs:760-766 | For every compact text with a `cmd` pane that loads, the loaded configuration is written compactly and loading that text gives the same configuration |
| CompactConfigs.LoadedLayoutShowsAgents | crates/ccbr-agents/src/config.rs:576-621 | A loaded layout text is a fixed point of reading and writing and shows exactly the agents and `cmd`, each once |
| CompactLoading.LoadsExactly | crates/ccbr-agents/src/models.rs:1049-1073 | A compact text loads if and only if it is a layout whose panes have different names, each an agent with a provider and an already normalised name or `cmd` without provider, with an agent among them and `cmd` only in front |
| CompactLoading.UpperCaseAgentIsRejected | crates/ccbr-agents/src/models.rs:1049-1073 | The document `A:codex` does not load |
| CompactLoading.LoadableTextLoads | crates/ccbr-agents/src/config.rs:536-621 | The rendered text of a layout loads exactly when its panes are acceptable in this sense, so every such layout is a compact document |
| CompactWriting.LoadsAs | crates/ccbr-agents/src/config.rs:536-621 | For every text, loading gives nothing or, in closed form, the configuration its panes spell out: agents in order with lower-cased providers and modes, the rendered layout, and defaults elsewhere |
| CompactWriting.PaneModes | crates/ccbr-agents/src/config.rs:583-600 | Every pane other than `cmd` gives an agent with its name and lower-cased provider, in a git worktree if it is marked `(worktree)` and in place otherwise, all else at its default |
| CompactWriting.OneWorktreeLoads | crates/ccbr-agents/src/config.rs:583-600 | The document `cmd; a:codex(worktree), b:claude` gives `a` a git worktree and lets `b` work in place |
| CompactWriting.CompactTwoLines | crates/ccbr-agents/src/config.rs:540-556 | A layout broken into two lines behind a separator loads as on one line |
| CompactWriting.BlankLinesAreIgnored | crates/ccbr-agents/src/config.rs:540-556 | Lines without text outside comments count for nothing |
| CompactConfigs.CompactAgentExactly | crates/ccbr-agents/src/config.rs:1124-1146 | Which agents are compatible with the compact form, by value |
| CompactWriting.CompactWritesExactly | crates/ccbr-agents/src/config.rs:760-766 | A normalised configuration that may be written compactly comes back from its own text if and only if the layout is as rendered, its panes give every agent with provider and mode in the order of the default agents, and there are no other tools or heartbeat than the default |
| CompactWriting.BarePaneDoesNotLoad | crates/ccbr-agents/src/config.rs:1111-1132 | A concrete accepted configuration that may be written compactly and whose text does not load |
| RoleDiscovery.ScanRoles | crates/ccbr-agents/src/rolepacks.rs:563-603 | The scan with its two maps keeps, for every id, the specified winner so far and the labels of all other occurrences in the order they were displaced |
| RoleDiscovery.DiscoverRoles | crates/ccbr-agents/src/rolepacks.rs:559-612 | For any scan order the result is strictly sorted by id and holds, for each id found, the specified winner and the labels of all its other occurrences in order |
| RoleDiscovery.ScanOneMore | crates/ccbr-agents/src/rolepacks.rs:582-603 | One more occurrence replaces the winner exactly when it upgrades a reference role of the same source; the loser is recorded last |
| RoleDiscovery.OccurrencesAccountedFor | crates/ccbr-agents/src/rolepacks.rs:582-603 | The winner and the recorded duplicates are together all occurrences of the id |
| RoleDiscovery.WinnerIsFinal | crates/ccbr-agents/src/rolepacks.rs:661-665 | The winner is the first occurrence or an upgrade of it, and no occurrence upgrades the winner: there is at most one replacement |
| RoleDiscovery.WinnerByPath | crates/ccbr-agents/src/rolepacks.rs:582-603 | In terms of paths: a first occurrence outside `reference_roles` wins; one inside is replaced by the first later one of the same source inside `roles`, if there is any |
| RoleDiscovery.ActualRoleWins | crates/ccbr-agents/src/rolepacks.rs:661-676 | A reference role and the actual one of a source, in both orders |
| RoleDiscovery.CatalogIsNearest | crates/ccbr-agents/src/rolepacks.rs:667-676 | The catalog directory of a role is the nearest of the two on its path |
| FaultInjection.FaultInjectionService.ArmRule | crates/ccbr-daemon/src/fault_injection.rs:89-115 | A rule is stored exactly when it is valid, with its reason lower-cased and the default message filled in |
| FaultInjection.ValidExactly | crates/ccbr-daemon/src/fault_injection.rs:27-42 | Which rules are accepted: neither id nor task blank, a positive count, one of two reasons |
| FaultInjection.FaultInjectionService.ClearRule | crates/ccbr-daemon/src/fault_injection.rs:117-130 | Removes and returns one rule or all, and fails exactly for a blank or unknown target |
| FaultInjection.FaultInjectionService.Consume | crates/ccbr-daemon/src/fault_injection.rs:132-166 | Fires exactly when some stored rule matches the agent and the trimmed task; whichever one the map's order yields loses one count or is dropped at its last, and no other rule changes |
| FaultInjection.StepConserves | crates/ccbr-daemon/src/fault_injection.rs:89-166 | No operation creates or loses a fault, per rule or per agent and task |
| FaultInjection.StepKeepsRule | crates/ccbr-daemon/src/fault_injection.rs:89-166 | A step leaves a stored rule alone, but for the count and time of one that fired |
| FaultInjection.StoredAsArmed | crates/ccbr-daemon/src/fault_injection.rs:89-166 | Over every run, a stored rule is as armed in agent, task, reason, message and creation time, with at most its count left |
| FaultInjection.RunConserves | crates/ccbr-daemon/src/fault_injection.rs:89-166 | Over every run, armed = consumed + remaining + cleared for each rule and each agent and task, and stored rules keep a positive count |
| FaultInjection.RuleFiresItsCount | crates/ccbr-daemon/src/fault_injection.rs:132-166 | A rule that is never cleared has fired as often as it was armed exactly when it is no longer stored, and never oftener |
| FaultInjection.RemainingIsConsumable | crates/ccbr-daemon/src/fault_injection.rs:132-145 | For a trimmed, non-blank task id a consumption succeeds exactly while shots are left for the agent and the task |
| FaultInjection.TargetIsDrained | crates/ccbr-daemon/src/fault_injection.rs:132-166 | Consuming again and again yields every shot left, one at a time, and then nothing, whichever rules are picked |
| FaultInjection.RuleCanFire | crates/ccbr-daemon/src/fault_injection.rs:132-145 | A valid rule can fire for some task exactly when its task id has no white space at its ends |
| FaultInjection.TargetsUntrimmedNeverFire | crates/ccbr-daemon/src/fault_injection.rs:132-145 | Over every run, nothing is consumed for a task id with white space at its ends |
| FaultInjection.StuckRule | crates/ccbr-daemon/src/fault_injection.rs:27-42 | A concrete rule that is accepted and never fires |
| Versions.IsNumericVersion | crates/ccbr-cli/src/versioning.rs:155-173 | The one-pass scanner with its flag accepts exactly one or more digit runs separated by single dots |
| Versions.KeyIsNumbers | crates/ccbr-cli/src/versioning.rs:499-504 | The key of a version is its list of numbers exactly when each fits 64 bits |
| Versions.SegmentsRead | crates/ccbr-cli/src/versioning.rs:499-504 | A segment is read as a number of at most 64 bits, a plus sign before it aside |
| Versions.LargestFits | crates/ccbr-cli/src/versioning.rs:499-504 | 2^64 - 1 is read and 2^64 is dropped |
| Versions.NewerIsNumeric | crates/ccbr-cli/src/versioning.rs:539-541 | For two versions whose numbers fit 64 bits, newer means a greater tuple of numbers |
| Versions.SmallerIsNewer | crates/ccbr-cli/src/versioning.rs:499-504 | For every version with a number that does not fit there is one that fits, is smaller as a tuple and yet counts as newer |
| Versions.FitsExactly | crates/ccbr-cli/src/versioning.rs:499-541 | A version is compared rightly with all versions that fit, in either direction and in picking the latest of two, if and only if it fits itself |
| Versions.LatestIsNumericMaximum | crates/ccbr-cli/src/versioning.rs:526-534 | Among such versions, to be the latest is to be exceeded by none as a tuple of numbers |
| Versions.HugeVersionIsOld | crates/ccbr-cli/src/versioning.rs:499-504 | With the number 2^64 the order is lost: `1` counts as newer |
| Versions.LatestVersion | crates/ccbr-cli/src/versioning.rs:526-534 | A greatest of the trimmed, non-blank versions, the first of equals, if there is any |
| Versions.MatchesExactly | crates/ccbr-cli/src/versioning.rs:509-518 | A version matches exactly when it is the target or goes on behind it with a dot |
| Versions.FindMatchingVersion | crates/ccbr-cli/src/versioning.rs:509-521 | A greatest of the versions equal to the target or extending it by whole segments, the first of equals, if there is any; when all their numbers fit, none exceeds it as a tuple of numbers |
| Versions.UpdateAvailable | crates/ccbr-cli/src/commands.rs:713-733 | Comparing only the latest version reports an update exactly when some published version is strictly newer; when all numbers fit, exactly when some version is a greater tuple of numbers |
| Ordering.Trichotomy | crates/ccbr-cli/src/versioning.rs:539-541 | Comparing keys decides: of two keys exactly one is newer, or they are equal |

## Left out

- ConfigNormalizing.SpecFixpoint: an agent is normalised as a value, because the map owns it; its environment, labels, API and profile are not in the record. They are only trimmed and copied, but keys of a profile's environment that agree once trimmed overwrite each other in hash-map order.
- Calendar.CivilIsValid: day numbers are unbounded; the overflow of 64-bit arithmetic at the far end of the range is not modelled.
- Reconciliation.SecondRunIsIdle: both runs resolve paths and render branch names alike. The source resolves links only of paths that exist, so a removal can change what a path resolves to, and a `{date}` in a branch template changes the name from day to day.
- Worktrees: the branch that matters for a worktree is the one its plan names; a worktree with another branch checked out, as a `{date}` template leaves behind, is judged by the planned branch, as in the source, and what happens to the other branch is not modelled.
- Generated layouts: whether one passes its check is decided for providers without marks, comment characters or surrounding white space; a provider that itself contains separators or parentheses is not.
- Layout texts: characters are ASCII where the source asks for digits or lower case; other Unicode digits and case pairs are not modelled, nor is the depth of recursion.
- Error texts, and which of several errors is reported first where hash-map order decides it.
- Git, tmux, files, clocks and processes: git and the file system are an abstract world, commands are assumed to succeed (deleting a merged branch included), directories are removed as a whole, and nested paths are separate. Fresh rule ids and times are parameters.
- Agent state directories are keyed by the agent's name, as they are written.
- TOML, hybrid and JSON documents, and the rendering of windows, sidebar and heartbeat into them.
- The SHA-256 topology signature is the record it is computed from.
- Listing fault rules, fetching and filtering published versions, reading role manifests, and role digests.
- The completion tracker, the daemon's supervision loop, command-line parsing and rendering of views: their interesting parts depend on code outside these files or are input and output.
