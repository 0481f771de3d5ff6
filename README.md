# moon task model in Dafny

This project models the task model of moon, a build system for monorepos,
and the rules around it:

- how a task is built from its configuration and merged with further configuration
  (`crates/core/task/src/task.rs`);
- the task-configuration validators (`nextgen/config/src/project/task_config.rs`);
- how the project-graph builder expands a project's tasks, creates projects, loads
  them once each while skipping cycles, and enforces the persistent-dependency
  constraint (`crates/core/project-graph/src/project_builder.rs`);
- how global task files are looked up, stamped and merged
  (`nextgen/config/src/inherited_tasks_config.rs`);
- how the CLI normalises the colour level in the process environment
  (`crates/cli/src/helpers.rs`);
- how the action pipeline tallies results (`crates/core/action-pipeline/src/pipeline.rs`).

The files, one module each:

| file | module | models |
|---|---|---|
| `common.dfy` | `Common` | option and result types, ids, paths, targets |
| `task_config.dfy` | `TaskConfigs` | `TaskConfig` and its enums, `validate_command`, `validate_deps` |
| `task.dfy` | `Tasks` | the `Task` class: `from_config`, `to_config`, `merge`, `determine_type`, `is_affected`, `get_affected_files`, the merge strategies |
| `project_builder.dfy` | `ProjectBuilder` | `resolve_id`, the `expand_task_*` steps, `create_project`, `expand_project`, the persistent check |
| `project_loading.dfy` | `ProjectLoading` | `internal_load`, `load`, `load_all` on a builder class; the finding below |
| `inherited_tasks.dfy` | `InheritedTasks` | `merge_fxhashmap`, `add_config`, `get_lookup_order`, the stamping and merge loop of `get_inherited_config` |
| `colors.dfy` | `Colors` | `setup_colors` and `setup_no_colors` on an environment map |
| `pipeline.dfy` | `Pipeline` | the counters of `render_stats`, the failed flag of `render_results`, the result loop of `run` |

Code that updates state in place is modelled as classes and methods:
`Task`, `ProjectGraphBuilder`, `InheritedTasksManager` and `ProcessEnv`.
Each such method's postcondition ties the new state to a specification
function of the old state, and lemmas prove properties of those functions.

Code the model cannot see becomes a parameter:

- `split_args` becomes `split: string -> Option<seq<string>>`;
- the `ENV_VAR` pattern becomes `isEnvVar`;
- `TokenResolver::resolve` becomes `resolve`;
- glob-set matching becomes `globMatch`;
- `detect_task_platform` becomes `detect`;
- the parsed `.env` file becomes `envFile`;
- the platform's implicit dependencies and inferred tasks become a `PlatformContribution`;
- schematic's `PartialConfig::merge` becomes `merge`;
- `no_color()` and `supports_color()` become `noColor` and `supportsColor`;
- each spawned action's outcome becomes an `Outcome`.

## Model

| member | source | states |
|---|---|---|
| `Tasks.CommandAndArgs` | crates/core/task/src/task.rs:383-406 | Fails iff the command or the args cannot be split. On success there is no command iff the command list is empty, and the command followed by the arguments is exactly the command list followed by the args list. |
| `Tasks.GetCommandAndArgs` | crates/core/task/src/task.rs:383-406 | The step-by-step code computes `CommandAndArgs`: it takes the head of the command list as the command, then extends the arguments with the rest and with the args list, returning either split error early. |
| `Tasks.MergeVec` | crates/core/task/src/task.rs:355-380 | Append gives base ++ next, Prepend gives next ++ base, Replace gives next. The length is |base|+|next|, or |next| for Replace. |
| `Tasks.MergeEnvVars` | crates/core/task/src/task.rs:334-353 | Append: next wins on shared keys. Prepend: base wins. Replace: exactly next. The keys are the union except for Replace. |
| `Tasks.Task.FromParts` | crates/core/task/src/task.rs:86-131 | A missing command becomes "noop". The task is local iff `local` is set or the command is dev, serve or start. Local tasks are Run and others Test. NoInputs is set iff the inputs are `Some([])`. Every other field is copied from the configuration. |
| `Tasks.Task.FromConfig` | crates/core/task/src/task.rs:81-134 | Fails iff the command and args cannot be split. Otherwise it returns a fresh task built from the split command and arguments. |
| `Tasks.Task.ToConfig` | crates/core/task/src/task.rs:136-168 | The command becomes the sequence [command] ++ args with no args. Inputs are emitted, as the task's list, iff non-empty, and so are outputs. Deps, env and platform are carried over. The global inputs, `local` and the type keep their defaults. |
| `Tasks.ToConfigRoundTrip` | crates/core/task/src/task.rs:136-141 | `get_command_and_args(to_config(t))` returns `(Some(t.command), t.args)`. |
| `Tasks.Task.IsNoOp` | crates/core/task/src/task.rs:263-265 | Holds exactly when the command is "nop", "noop" or "no-op". |
| `Tasks.MissingCommandIsNoOp` | crates/core/task/src/task.rs:86-88 | A task configured without a command is a no-op (`is_no_op`), and its type depends only on `local`. |
| `Tasks.LocalTaskDefaults` | crates/core/task/src/task.rs:87-88 | Without explicit options, a task is persistent iff it is local, and a local task does not run in CI. |
| `Tasks.Task.ShouldRunInCi` | crates/core/task/src/task.rs:326-332 | True iff `runInCI` is set and the task is not a Run task, i.e. it is Build or Test. |
| `Tasks.BuildTasksRunInCi` | crates/core/task/src/task.rs:178-182 | A task typed Build because it has outputs runs in CI exactly when `runInCI` is set. |
| `Tasks.Task.DetermineType` | crates/core/task/src/task.rs:178-182 | The type becomes Build iff outputs are non-empty; otherwise it is unchanged. |
| `Tasks.Task.Merge` | crates/core/task/src/task.rs:281-324 | Fails, changing nothing, iff the command or args cannot be split. Otherwise the task is the configuration layered over it, as the three steps below state. |
| `Tasks.Task.MergeHead` | crates/core/task/src/task.rs:284-294 | Options are merged first. An unknown platform or an absent command leaves that field unchanged. |
| `Tasks.Task.MergeArgsDepsEnv` | crates/core/task/src/task.rs:296-307 | Empty args, deps or env leave the field unchanged. Otherwise the field is merged with the strategy from the merged options. |
| `Tasks.Task.MergeInputsOutputs` | crates/core/task/src/task.rs:309-321 | `Some([])` sets NoInputs and clears the inputs. A non-empty list removes NoInputs and merges. Absent inputs change nothing. Outputs are merged when given. |
| `Tasks.Task.IsAffected` | crates/core/task/src/task.rs:210-255 | True iff NoInputs is set, or some input variable is set to a non-empty value, or some touched file is an input path or matches the globs. NoInputs alone makes it true. |
| `Tasks.Task.GetAffectedFiles` | crates/core/task/src/task.rs:185-207 | The loop returns the specification list: the touched files inside the project that are input paths or match the globs, made relative with a leading ".", in order. |
| `Tasks.AffectedFilesMembership` | crates/core/task/src/task.rs:194-203 | A path is affected iff it is "./" plus the project-relative part of a touched file inside the project that is an input path or matches. |
| `Tasks.AffectedFilesSnoc` | crates/core/task/src/task.rs:192-204 | Adding one touched file appends at most that file's relative path. |
| `TaskConfigs.FirstSegment` | nextgen/config/src/project/task_config.rs:16-19 | The result is the prefix before the first space: it holds no space, and the next character is a space. |
| `TaskConfigs.ValidateCommand` | nextgen/config/src/project/task_config.rs:11-34 | Accepts `None`. A string is rejected iff it is empty or starts with a space. A sequence is rejected iff it is empty or its first item is empty. |
| `TaskConfigs.ValidateDeps` | nextgen/config/src/project/task_config.rs:36-47 | Succeeds iff no dependency has scope All or Tag. Otherwise it reports the first such index. |
| `TaskConfigs.DefaultTaskConfigIsValid` | nextgen/config/src/project/task_config.rs:49-68 | The default type is Test and the default command is None. The default configuration passes both validators. |
| `ProjectBuilder.ResolveId` | crates/core/project-graph/src/project_builder.rs:756-761 | An alias resolves to its project id. Any other input is returned unchanged. |
| `ProjectBuilder.ResolveIdIdempotent` | crates/core/project-graph/src/project_builder.rs:756-761 | When no project id is itself an alias, resolving twice equals resolving once. |
| `ProjectBuilder.DedupProperties` | crates/core/project-graph/src/project_builder.rs:346-353 | `push_target` deduplication gives a list with no repeats and exactly the same elements. |
| `ProjectBuilder.DedupFirstOccurrence` | crates/core/project-graph/src/project_builder.rs:346-353 | Each element sits at its first-occurrence position, after everything that occurred before it: the order is kept. |
| `ProjectBuilder.PushTarget` | crates/core/project-graph/src/project_builder.rs:349-353 | Pushing a target onto the deduplicated list of what was seen gives the deduplicated list of what was seen plus that target. |
| `ProjectBuilder.ExpandDep` | crates/core/project-graph/src/project_builder.rs:355-393 | One dependency's candidates are pushed in order, or its error is returned. |
| `ProjectBuilder.ExpandTaskDeps` | crates/core/project-graph/src/project_builder.rs:332-398 | The implicit deps are appended. The result is the deduplicated candidate list of every dependency in order, or the first error. On error the appended list is left in place. |
| `ProjectBuilder.ResolveDeps` | crates/core/project-graph/src/project_builder.rs:355-393 | The dependency loop returns the deduplicated candidates of all dependencies in order, or the error of the first failing one. |
| `ProjectBuilder.CandidatesNeverSelf` | crates/core/project-graph/src/project_builder.rs:369-383 | The task itself is never a candidate: `~:self` and `project:self` are dropped. |
| `ProjectBuilder.DepsScopeNeverSelf` | crates/core/project-graph/src/project_builder.rs:358-366 | `^:task` yields only targets of dependency projects, never of the project itself. |
| `ProjectBuilder.OwnSelfBecomesProjectTarget` | crates/core/project-graph/src/project_builder.rs:369-375 | Any other `~:t` becomes `project:t` in the expanded list. |
| `ProjectBuilder.CandidatesContain` | crates/core/project-graph/src/project_builder.rs:355-393 | Every candidate of every dependency reaches the expanded list. |
| `ProjectBuilder.UnsupportedScopeFails` | crates/core/project-graph/src/project_builder.rs:384-391 | Any dependency with scope All or Tag makes expansion fail. |
| `ProjectBuilder.NonEnvInputsMembership` | crates/core/project-graph/src/project_builder.rs:472-479 | The kept inputs are exactly the inputs that do not match the env-var pattern. |
| `ProjectBuilder.SplitEnvInputs` | crates/core/project-graph/src/project_builder.rs:472-479 | The `retain` loop keeps the non-variable inputs in order and collects each variable input without its first character. |
| `ProjectBuilder.ExpandTaskInputs` | crates/core/project-graph/src/project_builder.rs:462-508 | Implicit inputs are appended and `$VAR` inputs move to `input_vars`. The list defaults to "**/*" unless NoInputs is set. "/.moon/*.yml" is always appended to `global_inputs`. Resolved paths and globs are added; on a resolver error nothing is added. |
| `ProjectBuilder.ExpandTaskOutputs` | crates/core/project-graph/src/project_builder.rs:511-536 | Without outputs nothing changes. Otherwise resolved paths leave `input_paths` and join `output_paths`, and globs join `output_globs`. No new output path remains an input. |
| `ProjectBuilder.OrInsertAll` | crates/core/project-graph/src/project_builder.rs:422-427 | `entry().or_insert` keeps every existing value and adds only keys that are missing. |
| `ProjectBuilder.OrInsertEach` | crates/core/project-graph/src/project_builder.rs:422-427 | The loop over the `.env` entries computes `OrInsertAll`. |
| `ProjectBuilder.OrInsertMap` | crates/core/project-graph/src/project_builder.rs:438-445 | The project variables are added only where the task has none: the task's values win. |
| `ProjectBuilder.ExpandTaskEnv` | crates/core/project-graph/src/project_builder.rs:401-446 | The env file becomes an input. Task values win over env-file values, and both win over project values. Every project key ends up present. |
| `ProjectBuilder.InheritDependencies` | crates/core/project-graph/src/project_builder.rs:122-130 | Explicit dependencies keep their configs. Implicit ones fill only the missing ids. |
| `ProjectBuilder.AddImplicitDependencies` | crates/core/project-graph/src/project_builder.rs:122-130 | The loop computes `InheritDependencies`. |
| `ProjectBuilder.FindAlias` | crates/core/project-graph/src/project_builder.rs:113-118 | The project's alias is one whose value is the project id. With no such alias, the alias is unchanged. |
| `ProjectBuilder.AddInferredTasks` | crates/core/project-graph/src/project_builder.rs:132-141 | Explicit tasks are kept. Every other inferred name gets a fresh task, built by `from_config` with target `project:name` from the first configuration of that name. It fails iff the first configuration of some name that is not explicit has a command or args that cannot be split. |
| `ProjectBuilder.AddInferredTask` | crates/core/project-graph/src/project_builder.rs:134-140 | One turn of the loop for a name not yet present: the task built from that configuration is added, or the loop fails. |
| `ProjectBuilder.BuildInferred` | crates/core/project-graph/src/project_builder.rs:137 | `from_config` on an inferred configuration fails iff its command or args cannot be split, and otherwise builds a fresh task from it. |
| `ProjectBuilder.CreateProject` | crates/core/project-graph/src/project_builder.rs:104-145 | Combines alias lookup, implicit dependencies and inferred tasks, with explicit configuration winning. Each inferred task is built from the first configuration of its name. It fails iff there is a platform and an inferred task fails as `AddInferredTasks` states. Without a platform nothing is inherited. The id, env, implicit deps, implicit inputs and platform are kept. |
| `ProjectBuilder.EnforcePersistent` | crates/core/project-graph/src/project_builder.rs:173-203 | Fails iff some non-persistent task has a `project:task` dependency on a loaded persistent task. The error names that task and its dependency. |
| `ProjectBuilder.ExpandedPlatform` | crates/core/project-graph/src/project_builder.rs:218-229 | A known task platform is kept. Otherwise the project's platform is used if known, else the detected one. The result is unknown only if all three are. |
| `ProjectBuilder.ExpandedPlatformIdempotent` | crates/core/project-graph/src/project_builder.rs:218-229 | Expanding the platform twice equals expanding it once. |
| `ProjectBuilder.ExpandTask` | crates/core/project-graph/src/project_builder.rs:217-240 | The task platform becomes `ExpandedPlatform` of its own, the project's and the detected platform. On success the workspace config glob is a global input, and the type is Build iff there are outputs, else unchanged. |
| `ProjectBuilder.ExpandProject` | crates/core/project-graph/src/project_builder.rs:212-248 | On success every task's platform is expanded with its detected platform, and every task with outputs is a Build task. |
| `ProjectLoading.Load` | crates/core/project-graph/src/project_builder.rs:538-599 | An indexed id returns its index with no change. A missing source gives UnconfiguredID with no change. On success the id is indexed at the returned index, and the set of projects in progress is restored. |
| `ProjectLoading.SkippedDependency` | crates/core/project-graph/src/project_builder.rs:570-577 | A dependency already in progress is skipped: no load and no edge. |
| `ProjectLoading.LoadValid` | crates/core/project-graph/src/project_builder.rs:538-599 | Loading keeps the graph consistent: indices and nodes agree, edges join nodes, and no project in progress is in the graph. |
| `ProjectLoading.LoadNodesDistinct` | crates/core/project-graph/src/project_builder.rs:538-599 | No project is added to the graph twice. |
| `ProjectLoading.LoadCycleOnce` | crates/core/project-graph/src/project_builder.rs:570-581 | For A depending on B and C, and C on A, loading A adds B, C, A once each and returns index 2. |
| `ProjectLoading.AsWrittenLoadsProjectTwice` | crates/core/project-graph/src/project_builder.rs:594-596 | As written, the same workspace yields nodes B, A, C, A: A is added twice. |
| `ProjectLoading.LoadAsWritten` | crates/core/project-graph/src/project_builder.rs:538-599 | The load as the source writes it. An indexed id returns its index with no change, and a missing source gives UnconfiguredID with no change. On success the id is indexed at the returned index, and a new load leaves nothing in progress (`created.clear()`). Nodes are only appended. |
| `ProjectLoading.LoadDepsAsWritten` | crates/core/project-graph/src/project_builder.rs:570-577 | The dependency loop as written, which tests the unresolved dependency id. On success the collected indices include those given, and the set in progress is either unchanged or empty. Nodes are only appended. |
| `ProjectLoading.AsWrittenAliasLoadsTwice` | crates/core/project-graph/src/project_builder.rs:570-571 | As written, for A depending on B and B depending on A through its alias "a", loading A yields nodes A, B, A: the unresolved "a" is not in progress, so A loads again. |
| `ProjectLoading.LoadAliasOnce` | crates/core/project-graph/src/project_builder.rs:538-599 | The same workspace loaded as intended adds B then A, once each. |
| `ProjectLoading.ProjectGraphBuilder.InternalLoad` | crates/core/project-graph/src/project_builder.rs:538-599 | The recursive load of the builder computes `Load`. |
| `ProjectLoading.ProjectGraphBuilder.LoadDependencies` | crates/core/project-graph/src/project_builder.rs:566-581 | The dependency loop computes `LoadDeps`. |
| `ProjectLoading.ProjectGraphBuilder.LoadProject` | crates/core/project-graph/src/project_builder.rs:79-83 | `load` computes `Load`, keeps the graph valid, indexes the project, and leaves nothing in progress on success. |
| `ProjectLoading.ProjectGraphBuilder.LoadAll` | crates/core/project-graph/src/project_builder.rs:85-97 | On success every configured project id is indexed and nothing is in progress. Nodes already in the graph stay, and indexed ids keep their indices. |
| `InheritedTasks.MergeFxHashMap` | nextgen/config/src/inherited_tasks_config.rs:14-27 | The keys are the union. `next` wins on shared keys and `prev` keeps the rest: the right-biased map union. |
| `InheritedTasks.IsJsPlatform` | nextgen/config/src/inherited_tasks_config.rs:79-81 | Holds exactly for the Deno and Node platforms. |
| `InheritedTasks.FileName` | nextgen/config/src/inherited_tasks_config.rs:90-94 | A non-empty path whose last component is not ".." gives that component. An empty path, or one ending in "..", gives the empty name. |
| `InheritedTasks.ConfigKey` | nextgen/config/src/inherited_tasks_config.rs:96-102 | "tasks.yml" is stored under "*". Any other ".yml" name loses the suffix. Any other name is unchanged. |
| `InheritedTasks.ConfigKeyOfLookupFile` | nextgen/config/src/inherited_tasks_config.rs:96-102 | The file `{lookup}.yml` is stored under `lookup`, so lookups find their files. The one exception is "tasks", which is stored under "*". |
| `InheritedTasks.InheritedTasksManager.AddConfig` | nextgen/config/src/inherited_tasks_config.rs:89-105 | Inserts the config under the file's key, replacing any previous config. |
| `InheritedTasks.LookupOrder` | nextgen/config/src/inherited_tasks_config.rs:107-133 | Starts with "*". Has length 3+|tags|, plus 2 for Deno and Node. The platform entries appear only for JS platforms. It ends with "tag-{tag}" for each tag in order. |
| `InheritedTasks.NonJsLookups` | nextgen/config/src/inherited_tasks_config.rs:116-124 | For other platforms every lookup is "*", language-based or a tag. |
| `InheritedTasks.InheritedTasksManager.GetLookupOrder` | nextgen/config/src/inherited_tasks_config.rs:107-133 | The pushes compute `LookupOrder`. |
| `InheritedTasks.StampTask` | nextgen/config/src/inherited_tasks_config.rs:158-169 | "/.moon/tasks/{lookup}.yml" is appended to `global_inputs`, which is created if absent. The platform changes only when it was unset or unknown. |
| `InheritedTasks.Stamped` | nextgen/config/src/inherited_tasks_config.rs:151-172 | The "*" config is untouched. Otherwise every task gets the lookup's file as a global input, and the other settings are kept. |
| `InheritedTasks.InheritedTasksManager.StampTasks` | nextgen/config/src/inherited_tasks_config.rs:152-170 | The loop over the tasks stamps each one. |
| `InheritedTasks.InheritedTasksManager.StampConfig` | nextgen/config/src/inherited_tasks_config.rs:151-170 | The stamping step computes `Stamped`. |
| `InheritedTasks.InheritedTasksManager.MergeInOrder` | nextgen/config/src/inherited_tasks_config.rs:147-176 | The lookup loop computes `MergeLookups`: it stamps and merges each registered lookup in order and stops at the first merge error. |
| `InheritedTasks.Present` | nextgen/config/src/inherited_tasks_config.rs:147-176 | Every config taken part is the stamped config of a registered lookup. With no registered lookup, none takes part. |
| `InheritedTasks.MergeLookupsInOrder` | nextgen/config/src/inherited_tasks_config.rs:147-176 | The lookup loop equals folding `merge` over the stamped configs of the lookups that have one, in lookup order. |
| `InheritedTasks.NoConfigsMergeNothing` | nextgen/config/src/inherited_tasks_config.rs:147-176 | With no registered lookups, nothing is merged. |
| `InheritedTasks.InheritedTasksManager.GetInheritedConfig` | nextgen/config/src/inherited_tasks_config.rs:135-176 | The result is the fold of `merge` over the stamped present configs in lookup order. |
| `Colors.RequestedLevel` | crates/cli/src/helpers.rs:51-53 | The level is MOON_COLOR, else FORCE_COLOR, else "3". |
| `Colors.NormalizeLevel` | crates/cli/src/helpers.rs:56-60 | "" and "true" become "1", and "false" becomes "0". The result is "0" iff the level was "0" or "false". |
| `Colors.NormalizeLevelIdempotent` | crates/cli/src/helpers.rs:56-60 | A normalised level normalises to itself. |
| `Colors.NoColors` | crates/cli/src/helpers.rs:35-42 | NO_COLOR becomes "1" and CLICOLOR "0", and colours are off. Other variables are kept. |
| `Colors.ForcedZeroDisables` | crates/cli/src/helpers.rs:62-63 | A forced level of "0" or "false" turns colours off via `setup_no_colors`. |
| `Colors.ForcedLevelEnables` | crates/cli/src/helpers.rs:64-71 | A forced non-zero level enables colours and writes the normalised level to CLICOLOR_FORCE and FORCE_COLOR. Nothing else changes. |
| `Colors.UnforcedFollowsTerminal` | crates/cli/src/helpers.rs:76-80 | Not forced: `no_color()` disables colours. Otherwise only CLICOLOR is set, to the supported level. |
| `Colors.SetupColorsIdempotent` | crates/cli/src/helpers.rs:44-81 | Running `setup_colors` twice with the same inputs equals running it once. |
| `Colors.NoColorSetsVars` | crates/cli/src/helpers.rs:134-145 | With NO_COLOR set, CLICOLOR is "0" and NO_COLOR is "1". |
| `Colors.DisablesIfZeroOrFalse` | crates/cli/src/helpers.rs:177-205 | "0" or "false" in MOON_COLOR or FORCE_COLOR gives CLICOLOR "0" and NO_COLOR "1". |
| `Colors.EnablesIfEmptyOrTrue` | crates/cli/src/helpers.rs:207-235 | "" or "true" in MOON_COLOR or FORCE_COLOR gives CLICOLOR_FORCE and FORCE_COLOR "1". |
| `Colors.ProcessEnv.SetupNoColors` | crates/cli/src/helpers.rs:35-42 | The environment becomes `NoColors` of the old one. |
| `Colors.ProcessEnv.SetupColors` | crates/cli/src/helpers.rs:44-81 | The step-by-step updates give the state the specification function describes. |
| `Pipeline.TallyBounds` | crates/core/action-pipeline/src/pipeline.rs:302-317 | cached ≤ pass, and pass + fail + invalid ≤ the number of results: no result counts twice. |
| `Pipeline.UncountedIgnored` | crates/core/action-pipeline/src/pipeline.rs:295-300 | In compact mode a result whose label names neither RunTarget nor RunPersistentTarget changes no counter. |
| `Pipeline.CountZero` | crates/core/action-pipeline/src/pipeline.rs:302-317 | A counter is zero iff no counted result has a status of its class. |
| `Pipeline.CountsMessageShape` | crates/core/action-pipeline/src/pipeline.rs:320-338 | There is one entry per non-zero pass, fail and invalid count, in that order. |
| `Pipeline.ToTheMoonMeansAllCached` | crates/core/action-pipeline/src/pipeline.rs:346-348 | The label is added iff no counted result passed uncached, was skipped, or failed. |
| `Pipeline.RenderStats` | crates/core/action-pipeline/src/pipeline.rs:288-348 | The counters are those of `Tally`, the message has the entries above, and the label rule holds. |
| `Pipeline.RenderResults` | crates/core/action-pipeline/src/pipeline.rs:236-286 | Returns true iff some result is Failed or FailedAndAbort. |
| `Pipeline.RenderResultsAgreesWithStats` | crates/core/action-pipeline/src/pipeline.rs:240-251 | The failed flag is set iff the full statistics count a failure. |
| `Pipeline.CountAction` | crates/core/action-pipeline/src/pipeline.rs:168-174 | A failed result increments failed. A cached result that did not fail increments cached. Any other result increments passed. Exactly one counter grows, by one. |
| `Pipeline.CollectStopsAtFirst` | crates/core/action-pipeline/src/pipeline.rs:160-191 | A batch aborts iff one of its outcomes is an aborting action, a processing error or a lost task. The abort message is that of the first such outcome. |
| `Pipeline.CollectKeeps` | crates/core/action-pipeline/src/pipeline.rs:160-191 | A batch keeps only results that neither should abort nor, with bail, failed. Without an abort every counted result is kept. |
| `Pipeline.RunKeepsAllowed` | crates/core/action-pipeline/src/pipeline.rs:109-207 | A finished run keeps only allowed results, and its three counters sum to the number of results. |
| `Pipeline.RunCountsAgreeWithStats` | crates/core/action-pipeline/src/pipeline.rs:166-181 | A finished run's failed and cached counters equal `render_stats`' failed and cached counts of its results. |
| `Pipeline.Run` | crates/core/action-pipeline/src/pipeline.rs:158-207 | The wait loops compute `RunBatches`. The first aborting result or error of a batch ends the run with that message. |
| `Pipeline.BailStopsAtFirstFailure` | crates/core/action-pipeline/src/pipeline.rs:176-181 | One example batch: a passed action, then a failed one with error "boom". With bail the run aborts with "boom". Without bail both are kept, one counted as passed and one as failed. |

## Left out

- Graph nodes are reduced to project ids. `create_project` and `expand_project` are not called from `ProjectLoading.Load`, so their errors inside `internal_load` are not modelled. The dependency ids each project gets are an input.
- `ProjectLoading.LoadAsWritten` carries a fuel bound; it gives no result when the fuel runs out.
- `expand_task_args`, `expand_task_command` and token substitution are not modelled. `TokenResolver` is the abstract `resolve`.
- The `ENV_VAR_SUBSTITUTE` expansion of env values is not modelled. Neither are `.env` parse errors, because the parsed file is an input.
- `enforce_constraints`' project-type and tag relationships are not modelled; they live in code that is not part of this model.
- `preload`, `generate_hash`, the file system, VCS and hashing are left out.
- `Pipeline.Run` takes the batches as input: the topological batching and its error return (`sort_batched_topological()?`) are not modelled.
- Async and concurrency in the pipeline are left out: spawning, the semaphore, handle aborting, emitter events and report writing. An action whose node is missing (`UnknownActionNode`) is also left out.
- Terminal output is left out: colours, durations and the rendered lines of `render_results`.
- schematic's merge, `finalize` and `validate` are left out. `InheritedTasks.GetInheritedConfig` returns the merged partial configuration.
- A partial task configuration holds only the two settings the lookup stamps.
- `TaskOptions` (`task_options.rs`) is not part of this model. Its merge is modelled as "each setting the configuration gives replaces the current one". Its defaults are assumed: persistent iff local, run in CI iff not local, every merge strategy Append.
- `moon_action` is not part of this model. `has_failed`, `was_cached` and `should_abort` are assumed to test for Failed/FailedAndAbort, Cached/CachedFromRemote and FailedAndAbort.
- Display forms are assumed: `PlatformType` displays in lower case, `consts::CONFIG_TASKS_FILENAME` is "tasks.yml", and `LanguageType`/`ProjectType` are passed as their display strings.
- `Tasks.Task.ToConfig` does not state the options: `TaskOptions::to_config` is not visible, so it emits the default options.
- `Tasks.Task.ToConfig` drops a redundant test. The source's `inputs.len() == 1 && inputs[0] == "**/*"` is implied by the inputs being non-empty, so the model emits inputs iff they are non-empty.
- `ProjectBuilder.ExpandTask` states only the platform, the global input and the type. The env, deps, inputs and outputs results are stated by `ExpandTaskEnv`, `ExpandTaskDeps`, `ExpandTaskInputs` and `ExpandTaskOutputs`, which it calls in that order.
- `ProjectBuilder.ExpandProject` states only the expanded platforms and types of the tasks.
- `ProjectBuilder.FindAlias` returns some alias of the project, not necessarily the last one in the map's iteration order. `FxHashMap` order is unspecified.
- `ProjectBuilder.ExpandDep` returns `MissingDependencyIndex` where the source unwraps a missing index for `^:task` and would panic. The panic is reachable: when A and B depend on each other, loading A skips B's dependency on A as a cycle, and B's tasks are expanded before A is indexed.
- `Tasks.Task.IsAffected` and `Tasks.Task.GetAffectedFiles` cannot fail: glob matching is the total `globMatch`, so the error of building the glob set is not modelled.
- `Tasks.Task.FromConfig` assumes the target's task id is a valid `Id`: the error of `Id::new` is not modelled. Likewise `ProjectBuilder.CreateProject` and `ProjectBuilder.ExpandDep` assume `Target::new` succeeds.
- `ProjectBuilder.CreateProject` does not model errors from loading the platform's implicit dependencies or inferred tasks: they are an input, the `PlatformContribution`.
- `Colors.ProcessEnv.SetupColors` does not model what `no_color()` and `supports_color()` read from the terminal: they are inputs.

## Findings

| source | as written | input that shows it | evidently intended | confidence | as-written member | corrected member |
|---|---|---|---|---|---|---|
| crates/core/project-graph/src/project_builder.rs:596 | `internal_load` clears all of `created` when any project finishes loading, including a nested dependency. The cycle check then no longer sees the outer projects still in progress. | Project A depends on B then C, and C depends on A. Loading A: finishing B clears A's mark, so C loads A again. The graph gets nodes B, A, C, A, with A added twice. | `created` holds exactly the projects in progress: a finished load removes only its own id. No project is then ever added twice, and loading A gives B, C, A. | not executed | `ProjectLoading.AsWrittenLoadsProjectTwice` | `ProjectLoading.LoadNodesDistinct` |
| crates/core/project-graph/src/project_builder.rs:571 | The cycle check looks up the dependency id as written in `created`, which holds resolved ids. A dependency given by alias is never seen as in progress. | Project A depends on B, and B depends on "a", an alias of A. Loading A: B's dependency "a" is not in `created`, so A loads again inside B. No load has finished yet, so clearing `created` plays no part. The graph gets nodes A, B, A. | The cycle check compares the resolved dependency id. Loading A then gives B, A. | not executed | `ProjectLoading.AsWrittenAliasLoadsTwice` | `ProjectLoading.LoadNodesDistinct` |
