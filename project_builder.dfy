/** Project creation and task expansion inside the project-graph builder
    (crates/core/project-graph/src/project_builder.rs). */
module ProjectBuilder {
  import opened Common
  import opened TaskConfigs
  import opened Tasks

  /** Alias to project id, and project id to source directory. */
  type ProjectsAliasesMap = map<string, Id>
  type ProjectsSourcesMap = map<Id, string>

  datatype DependencyScope = BuildScope | Development | Peer | Production
  datatype DependencyConfig = DependencyConfig(id: Id, scope: DependencyScope)

  /** The parts of a project that creation and task expansion use: its
      dependencies keyed by project id, the project-level `env`, the
      implicit deps and inputs it inherits, its configured platform and its
      tasks. */
  datatype Project = Project(
    id: Id,
    alias: Option<string>,
    dependencies: map<Id, DependencyConfig>,
    env: map<string, string>,
    implicitDeps: seq<Target>,
    implicitInputs: seq<string>,
    platform: PlatformType,
    tasks: map<Id, Task>)

  datatype ProjectGraphError =
    /** The two targets of the persistence rule, in the order the raising
        site gives them: the dependency expansion passes the dependency
        first, the persistence check the task first. */
    | PersistentDepRequirement(first: Target, second: Target)
    | UnconfiguredId(id: Id)
    | MissingDependencyIndex(id: Id)
    | TaskFailure(error: TaskError)
    | TokenFailure(message: string)

  /** `resolve_id`: an alias stands for its project id; anything else is taken as an id. */
  function ResolveId(aliases: ProjectsAliasesMap, aliasOrId: string): (id: Id)
    ensures aliasOrId in aliases ==> id == aliases[aliasOrId]
    ensures aliasOrId !in aliases ==> id == aliasOrId
    ensures id == aliasOrId || id in aliases.Values
  {
    if aliasOrId in aliases then aliases[aliasOrId] else aliasOrId
  }

  /** When no project id is itself an alias, resolving twice is resolving once. */
  lemma ResolveIdIdempotent(aliases: ProjectsAliasesMap, aliasOrId: string)
    requires forall a :: a in aliases ==> aliases[a] !in aliases
    ensures ResolveId(aliases, ResolveId(aliases, aliasOrId)) == ResolveId(aliases, aliasOrId)
  {
  }

  // ---------------------------------------------------------------------------
  // Order-preserving de-duplication (the `push_target` closure)

  /** The list `push_target` builds from `s`: each item the first time it appears. */
  function Dedup<T(==)>(s: seq<T>): seq<T>
  {
    if s == [] then []
    else
      var r := Dedup(s[..|s| - 1]);
      if s[|s| - 1] in r then r else r + [s[|s| - 1]]
  }

  lemma {:induction false} DedupProperties<T>(s: seq<T>)
    ensures Distinct(Dedup(s))
    ensures forall x :: x in Dedup(s) <==> x in s
  {
    if s != [] {
      DedupProperties(s[..|s| - 1]);
      forall x ensures x in s <==> x in s[..|s| - 1] || x == s[|s| - 1] {
        if x in s {
          var i :| 0 <= i < |s| && s[i] == x;
          if i < |s| - 1 { assert s[..|s| - 1][i] == x; }
        }
      }
    }
  }

  /** Dedup of a prefix is a prefix of the dedup of the whole list. */
  lemma {:induction false} DedupPrefix<T>(s: seq<T>, i: nat)
    requires i <= |s|
    ensures Dedup(s[..i]) <= Dedup(s)
    decreases |s| - i
  {
    if i < |s| {
      DedupPrefix(s, i + 1);
      assert s[..i + 1][..i] == s[..i];
    } else {
      assert s[..i] == s;
    }
  }

  /** `push_target` keeps the first-occurrence order: an item first seen at
      position `i` comes after every item seen before it. */
  lemma DedupFirstOccurrence<T>(s: seq<T>, i: nat)
    requires i < |s| && s[i] !in s[..i]
    ensures var r := Dedup(s); var p := |Dedup(s[..i])|;
      p < |r| && r[p] == s[i] && forall y :: y in s[..i] ==> y in r[..p]
  {
    DedupPrefix(s, i + 1);
    DedupProperties(s[..i]);
    assert s[..i + 1][..i] == s[..i];
    assert Dedup(s[..i + 1]) == Dedup(s[..i]) + [s[i]];
    var r := Dedup(s);
    var p := |Dedup(s[..i])|;
    assert r[..p] == Dedup(s[..i]);
  }

  // ---------------------------------------------------------------------------
  // expand_task_deps

  /** The targets one dependency stands for before de-duplication. `depIds`
      lists the project's dependency ids in iteration order, and `loaded` gives,
      for each project already in the graph, the target of each of its tasks. */
  function DepCandidates(dep: Target, projectId: Id, task: Target, taskId: Id, depIds: seq<Id>,
                         loaded: map<Id, map<Id, Target>>): Result<seq<Target>, ProjectGraphError>
  {
    match dep.scope
    case Deps => DepsScopeCandidates(dep.taskId, depIds, loaded)
    case OwnSelf => if dep.taskId == taskId then Ok([]) else Ok([NewTarget(projectId, dep.taskId)])
    case Project(pid) => if pid == projectId && dep.taskId == taskId then Ok([]) else Ok([dep])
    case _ => Err(PersistentDepRequirement(dep, task))
  }

  /** `^:task`: the task of that name in every dependency project that has one. */
  function DepsScopeCandidates(taskId: Id, depIds: seq<Id>, loaded: map<Id, map<Id, Target>>)
    : Result<seq<Target>, ProjectGraphError>
  {
    if depIds == [] then Ok([])
    else
      match DepsScopeCandidates(taskId, depIds[..|depIds| - 1], loaded)
      case Err(e) => Err(e)
      case Ok(c) =>
        var d := depIds[|depIds| - 1];
        if d !in loaded then Err(MissingDependencyIndex(d))
        else if taskId in loaded[d] then Ok(c + [loaded[d][taskId]])
        else Ok(c)
  }

  /** All candidates of a dependency list, in order; the first failing dependency decides the error. */
  function AllCandidates(deps: seq<Target>, projectId: Id, task: Target, taskId: Id, depIds: seq<Id>,
                         loaded: map<Id, map<Id, Target>>): Result<seq<Target>, ProjectGraphError>
  {
    if deps == [] then Ok([])
    else
      match AllCandidates(deps[..|deps| - 1], projectId, task, taskId, depIds, loaded)
      case Err(e) => Err(e)
      case Ok(c) =>
        match DepCandidates(deps[|deps| - 1], projectId, task, taskId, depIds, loaded)
        case Err(e) => Err(e)
        case Ok(c2) => Ok(c + c2)
  }

  /** The deps `expand_task_deps` computes from the full dependency list. */
  function ExpandedDeps(all: seq<Target>, projectId: Id, task: Target, taskId: Id, depIds: seq<Id>,
                        loaded: map<Id, map<Id, Target>>): Result<seq<Target>, ProjectGraphError>
  {
    match AllCandidates(all, projectId, task, taskId, depIds, loaded)
    case Err(e) => Err(e)
    case Ok(c) => Ok(Dedup(c))
  }

  /** `expand_task_deps`: appends the inherited implicit deps, then resolves
      every dependency to targets, dropping self references and duplicates. */
  method ExpandTaskDeps(project: Project, task: Task, depIds: seq<Id>, loaded: map<Id, map<Id, Target>>)
    returns (r: Result<(), ProjectGraphError>)
    modifies task`deps
    ensures var all := old(task.deps) + project.implicitDeps;
      var e := ExpandedDeps(all, project.id, task.target, task.id, depIds, loaded);
      && (r.Err? <==> e.Err?)
      && (r.Err? ==> r.error == e.error && task.deps == all)
      && (r.Ok? ==> task.deps == e.value)
  {
    if project.implicitDeps != [] {
      task.deps := task.deps + project.implicitDeps;
    }
    var all := task.deps;
    assert all == old(task.deps) + project.implicitDeps;
    if all == [] {
      return Ok(());
    }
    var e := ResolveDeps(all, project.id, task.target, task.id, depIds, loaded);
    if e.Err? {
      return Err(e.error);
    }
    task.deps := e.value;
    r := Ok(());
  }

  /** The loop of `expand_task_deps` over the full dependency list. */
  method ResolveDeps(all: seq<Target>, projectId: Id, task: Target, taskId: Id, depIds: seq<Id>,
                     loaded: map<Id, map<Id, Target>>)
    returns (r: Result<seq<Target>, ProjectGraphError>)
    ensures r == ExpandedDeps(all, projectId, task, taskId, depIds, loaded)
  {
    var depTargets: seq<Target> := [];
    var i := 0;
    while i < |all|
      invariant 0 <= i <= |all|
      invariant AllCandidates(all[..i], projectId, task, taskId, depIds, loaded).Ok?
      invariant depTargets == Dedup(AllCandidates(all[..i], projectId, task, taskId, depIds, loaded).value)
    {
      assert all[..i + 1][..i] == all[..i];
      ghost var before := AllCandidates(all[..i], projectId, task, taskId, depIds, loaded).value;
      var next := ExpandDep(depTargets, before, all[i], projectId, task, taskId, depIds, loaded);
      if next.Err? {
        AllCandidatesErrPrefix(all, i + 1, projectId, task, taskId, depIds, loaded);
        return Err(next.error);
      }
      depTargets := next.value;
      i := i + 1;
    }
    assert all[..i] == all;
    r := Ok(depTargets);
  }

  /** The body of the `expand_task_deps` loop for one dependency, given the
      targets gathered so far. */
  method ExpandDep(depTargets: seq<Target>, ghost before: seq<Target>, dep: Target, projectId: Id, task: Target,
                   taskId: Id, depIds: seq<Id>, loaded: map<Id, map<Id, Target>>)
    returns (r: Result<seq<Target>, ProjectGraphError>)
    requires depTargets == Dedup(before)
    ensures var c := DepCandidates(dep, projectId, task, taskId, depIds, loaded);
      && (r.Err? <==> c.Err?)
      && (r.Err? ==> r.error == c.error)
      && (r.Ok? ==> r.value == Dedup(before + c.value))
  {
    match dep.scope {
      case Deps =>
        var targets := depTargets;
        var j := 0;
        assert depIds[..0] == [] && before + [] == before;
        while j < |depIds|
          invariant 0 <= j <= |depIds|
          invariant DepsScopeCandidates(dep.taskId, depIds[..j], loaded).Ok?
          invariant targets == Dedup(before + DepsScopeCandidates(dep.taskId, depIds[..j], loaded).value)
        {
          var d := depIds[j];
          assert depIds[..j + 1][..j] == depIds[..j];
          if d !in loaded {
            DepsScopeErrPrefix(dep.taskId, depIds, j + 1, loaded);
            return Err(MissingDependencyIndex(d));
          }
          ghost var seen := before + DepsScopeCandidates(dep.taskId, depIds[..j], loaded).value;
          if dep.taskId in loaded[d] {
            targets := PushTarget(targets, seen, loaded[d][dep.taskId]);
            assert before + DepsScopeCandidates(dep.taskId, depIds[..j + 1], loaded).value
                == seen + [loaded[d][dep.taskId]];
          }
          j := j + 1;
        }
        assert depIds[..j] == depIds;
        r := Ok(targets);
      case OwnSelf =>
        if dep.taskId != taskId {
          var targets := PushTarget(depTargets, before, NewTarget(projectId, dep.taskId));
          r := Ok(targets);
        } else {
          assert before + [] == before;
          r := Ok(depTargets);
        }
      case Project(pid) =>
        if !(pid == projectId && dep.taskId == taskId) {
          var targets := PushTarget(depTargets, before, dep);
          r := Ok(targets);
        } else {
          assert before + [] == before;
          r := Ok(depTargets);
        }
      case _ =>
        r := Err(PersistentDepRequirement(dep, task));
    }
  }

  /** One call of `push_target`. */
  method PushTarget(depTargets: seq<Target>, ghost seen: seq<Target>, dep: Target) returns (out: seq<Target>)
    requires depTargets == Dedup(seen)
    ensures out == Dedup(seen + [dep])
  {
    assert (seen + [dep])[..|seen|] == seen;
    out := depTargets;
    if dep !in out {
      out := out + [dep];
    }
  }

  /** Once a prefix of the dependencies fails, the whole list fails the same way. */
  lemma {:induction false} AllCandidatesErrPrefix(deps: seq<Target>, i: nat, projectId: Id, task: Target, taskId: Id,
                                                  depIds: seq<Id>, loaded: map<Id, map<Id, Target>>)
    requires i <= |deps| && AllCandidates(deps[..i], projectId, task, taskId, depIds, loaded).Err?
    ensures AllCandidates(deps, projectId, task, taskId, depIds, loaded)
         == AllCandidates(deps[..i], projectId, task, taskId, depIds, loaded)
    decreases |deps| - i
  {
    if i == |deps| {
      assert deps[..i] == deps;
    } else {
      assert deps[..i + 1][..i] == deps[..i];
      AllCandidatesErrPrefix(deps, i + 1, projectId, task, taskId, depIds, loaded);
    }
  }

  lemma {:induction false} DepsScopeErrPrefix(taskId: Id, depIds: seq<Id>, i: nat, loaded: map<Id, map<Id, Target>>)
    requires i <= |depIds| && DepsScopeCandidates(taskId, depIds[..i], loaded).Err?
    ensures DepsScopeCandidates(taskId, depIds, loaded) == DepsScopeCandidates(taskId, depIds[..i], loaded)
    decreases |depIds| - i
  {
    if i == |depIds| {
      assert depIds[..i] == depIds;
    } else {
      assert depIds[..i + 1][..i] == depIds[..i];
      DepsScopeErrPrefix(taskId, depIds, i + 1, loaded);
    }
  }

  /** The expanded deps never hold the task itself, provided the project does
      not list itself as a dependency and loaded task targets are scoped to
      their own project. */
  lemma {:induction false} CandidatesNeverSelf(deps: seq<Target>, projectId: Id, task: Target, taskId: Id,
                                               depIds: seq<Id>, loaded: map<Id, map<Id, Target>>)
    requires projectId !in depIds
    requires forall d, t :: d in loaded && t in loaded[d] ==> loaded[d][t].scope == TargetScope.Project(d)
    requires AllCandidates(deps, projectId, task, taskId, depIds, loaded).Ok?
    ensures NewTarget(projectId, taskId) !in AllCandidates(deps, projectId, task, taskId, depIds, loaded).value
  {
    if deps != [] {
      CandidatesNeverSelf(deps[..|deps| - 1], projectId, task, taskId, depIds, loaded);
      var dep := deps[|deps| - 1];
      if dep.scope.Deps? {
        DepsScopeNeverSelf(dep.taskId, depIds, loaded, projectId);
      }
    }
  }

  lemma {:induction false} DepsScopeNeverSelf(taskId: Id, depIds: seq<Id>, loaded: map<Id, map<Id, Target>>, projectId: Id)
    requires projectId !in depIds
    requires forall d, t :: d in loaded && t in loaded[d] ==> loaded[d][t].scope == TargetScope.Project(d)
    requires DepsScopeCandidates(taskId, depIds, loaded).Ok?
    ensures forall t :: t in DepsScopeCandidates(taskId, depIds, loaded).value ==> t.scope != TargetScope.Project(projectId)
  {
    if depIds != [] {
      DepsScopeNeverSelf(taskId, depIds[..|depIds| - 1], loaded, projectId);
    }
  }

  /** `~:t` for another task `t` becomes `project:t` in the expanded deps. */
  lemma OwnSelfBecomesProjectTarget(deps: seq<Target>, k: nat, projectId: Id, task: Target, taskId: Id,
                                    depIds: seq<Id>, loaded: map<Id, map<Id, Target>>)
    requires k < |deps| && deps[k].scope == OwnSelf && deps[k].taskId != taskId
    requires AllCandidates(deps, projectId, task, taskId, depIds, loaded).Ok?
    ensures NewTarget(projectId, deps[k].taskId) in Dedup(AllCandidates(deps, projectId, task, taskId, depIds, loaded).value)
  {
    CandidatesContain(deps, k, projectId, task, taskId, depIds, loaded);
    DedupProperties(AllCandidates(deps, projectId, task, taskId, depIds, loaded).value);
  }

  lemma {:induction false} CandidatesContain(deps: seq<Target>, k: nat, projectId: Id, task: Target, taskId: Id,
                                             depIds: seq<Id>, loaded: map<Id, map<Id, Target>>)
    requires k < |deps|
    requires AllCandidates(deps, projectId, task, taskId, depIds, loaded).Ok?
    ensures DepCandidates(deps[k], projectId, task, taskId, depIds, loaded).Ok?
    ensures forall t :: t in DepCandidates(deps[k], projectId, task, taskId, depIds, loaded).value ==>
      t in AllCandidates(deps, projectId, task, taskId, depIds, loaded).value
  {
    if k < |deps| - 1 {
      assert deps[..|deps| - 1][k] == deps[k];
      CandidatesContain(deps[..|deps| - 1], k, projectId, task, taskId, depIds, loaded);
    }
  }

  /** A dependency of scope `:` or `#tag` fails the expansion. */
  lemma {:induction false} UnsupportedScopeFails(deps: seq<Target>, k: nat, projectId: Id, task: Target, taskId: Id,
                                                 depIds: seq<Id>, loaded: map<Id, map<Id, Target>>)
    requires k < |deps| && UnsupportedDepScope(deps[k])
    ensures AllCandidates(deps, projectId, task, taskId, depIds, loaded).Err?
  {
    if k < |deps| - 1 {
      assert deps[..|deps| - 1][k] == deps[k];
      UnsupportedScopeFails(deps[..|deps| - 1], k, projectId, task, taskId, depIds, loaded);
    }
  }

  // ---------------------------------------------------------------------------
  // expand_task_inputs

  /** The inputs `retain` keeps: those that are not environment variables. */
  function NonEnvInputs(inputs: seq<string>, isEnvVar: string -> bool): seq<string>
  {
    if inputs == [] then []
    else
      var rest := NonEnvInputs(inputs[..|inputs| - 1], isEnvVar);
      if isEnvVar(inputs[|inputs| - 1]) then rest else rest + [inputs[|inputs| - 1]]
  }

  lemma {:induction false} NonEnvInputsMembership(inputs: seq<string>, isEnvVar: string -> bool)
    ensures forall x :: x in NonEnvInputs(inputs, isEnvVar) <==> x in inputs && !isEnvVar(x)
  {
    if inputs != [] {
      var init := inputs[..|inputs| - 1];
      NonEnvInputsMembership(init, isEnvVar);
      assert inputs == init + [inputs[|inputs| - 1]];
    }
  }

  /** An environment-variable input names the variable after its leading `$`
      (every input the variable pattern matches starts with `$`). */
  function VarName(input: string): string
  {
    if input != [] then input[1..] else input
  }

  /** The names of the `$VAR` inputs, without the `$`. */
  function EnvVarNames(inputs: seq<string>, isEnvVar: string -> bool): set<string>
  {
    set x | x in inputs && isEnvVar(x) :: VarName(x)
  }

  /** The pattern every file-set input resolves to when a task lists none. */
  const AllFilesGlob: string := "**/*"
  /** The workspace configuration files every task depends on. */
  const WorkspaceConfigGlob: string := "/.moon/*.yml"

  /** What `expand_task_inputs` leaves in the task's input fields. */
  twostate predicate InputsExpanded(project: Project, task: Task, isEnvVar: string -> bool,
                                    resolve: seq<string> -> Result<(set<Path>, set<string>), string>,
                                    new r: Result<(), ProjectGraphError>)
    reads task
  {
    && (var all := old(task.inputs) + project.implicitInputs;
        var kept := NonEnvInputs(all, isEnvVar);
        task.inputVars == old(task.inputVars) + EnvVarNames(all, isEnvVar)
        && task.inputs == (if kept == [] && NoInputs !in task.flags then [AllFilesGlob] else kept))
    && task.globalInputs == old(task.globalInputs) + [WorkspaceConfigGlob]
    && var res := resolve(task.inputs + task.globalInputs);
      && (r.Err? <==> res.Err?)
      && (r.Ok? ==> task.inputPaths == old(task.inputPaths) + res.value.0
                    && task.inputGlobs == old(task.inputGlobs) + res.value.1)
      && (r.Err? ==> r.error == TokenFailure(res.error)
                     && task.inputPaths == old(task.inputPaths) && task.inputGlobs == old(task.inputGlobs))
  }

  /** `expand_task_inputs`: appends the implicit inputs, moves `$VAR` inputs to
      `input_vars` (without the `$`), defaults to every file unless the task
      has no inputs, always adds the workspace config to `global_inputs`, and
      resolves the whole list to paths and globs with `resolve`. */
  method ExpandTaskInputs(project: Project, task: Task, isEnvVar: string -> bool,
                          resolve: seq<string> -> Result<(set<Path>, set<string>), string>)
    returns (r: Result<(), ProjectGraphError>)
    modifies task`inputs, task`inputVars, task`globalInputs, task`inputPaths, task`inputGlobs
    ensures InputsExpanded(project, task, isEnvVar, resolve, r)
  {
    if project.implicitInputs != [] {
      task.inputs := task.inputs + project.implicitInputs;
    }
    var all := task.inputs;
    assert all == old(task.inputs) + project.implicitInputs;
    var kept, vars := SplitEnvInputs(all, isEnvVar);
    task.inputs := kept;
    task.inputVars := task.inputVars + vars;
    if task.inputs == [] && NoInputs !in task.flags {
      task.inputs := task.inputs + [AllFilesGlob];
    }
    task.globalInputs := task.globalInputs + [WorkspaceConfigGlob];
    // The list to resolve always holds the workspace config glob, so the
    // source's emptiness check on it never succeeds.
    var toResolve := task.inputs + task.globalInputs;
    var res := resolve(toResolve);
    if res.Err? {
      return Err(TokenFailure(res.error));
    }
    task.inputPaths := task.inputPaths + res.value.0;
    task.inputGlobs := task.inputGlobs + res.value.1;
    r := Ok(());
  }

  /** The `retain` pass of `expand_task_inputs`: environment-variable inputs
      leave the list and give their names, without the leading `$`. */
  method SplitEnvInputs(inputs: seq<string>, isEnvVar: string -> bool) returns (kept: seq<string>, vars: set<string>)
    ensures kept == NonEnvInputs(inputs, isEnvVar)
    ensures vars == EnvVarNames(inputs, isEnvVar)
  {
    kept, vars := [], {};
    var i := 0;
    while i < |inputs|
      invariant 0 <= i <= |inputs|
      invariant kept == NonEnvInputs(inputs[..i], isEnvVar)
      invariant vars == EnvVarNames(inputs[..i], isEnvVar)
    {
      var input := inputs[i];
      assert inputs[..i + 1][..i] == inputs[..i] && inputs[..i + 1][i] == input;
      assert forall x :: x in inputs[..i + 1] <==> x in inputs[..i] || x == input;
      if isEnvVar(input) {
        vars := vars + {VarName(input)};
      } else {
        kept := kept + [input];
      }
      i := i + 1;
    }
    assert inputs[..i] == inputs;
  }

  // ---------------------------------------------------------------------------
  // expand_task_outputs

  /** What `expand_task_outputs` leaves in the task's path and glob sets. */
  twostate predicate OutputsExpanded(task: Task, resolve: seq<string> -> Result<(set<Path>, set<string>), string>,
                                     new r: Result<(), ProjectGraphError>)
    reads task
  {
    && (task.outputs == [] ==> r.Ok? && unchanged(task))
    && (task.outputs != [] ==>
          var res := resolve(task.outputs);
          && (r.Err? <==> res.Err?)
          && (r.Err? ==> r.error == TokenFailure(res.error) && unchanged(task))
          && (r.Ok? ==>
                && task.inputPaths == old(task.inputPaths) - res.value.0
                && task.outputPaths == old(task.outputPaths) + res.value.0
                && task.outputGlobs == old(task.outputGlobs) + res.value.1))
  }

  /** `expand_task_outputs`: resolved output paths leave `input_paths` and
      join `output_paths`; resolved globs join `output_globs`. */
  method ExpandTaskOutputs(project: Project, task: Task,
                           resolve: seq<string> -> Result<(set<Path>, set<string>), string>)
    returns (r: Result<(), ProjectGraphError>)
    modifies task`inputPaths, task`outputPaths, task`outputGlobs
    ensures OutputsExpanded(task, resolve, r)
    ensures r.Ok? ==> forall p :: p in task.outputPaths - old(task.outputPaths) ==> p !in task.inputPaths
  {
    if task.outputs == [] {
      return Ok(());
    }
    var res := resolve(task.outputs);
    if res.Err? {
      return Err(TokenFailure(res.error));
    }
    var (paths, globs) := res.value;
    task.outputGlobs := task.outputGlobs + globs;
    var pending := paths;
    while pending != {}
      invariant pending <= paths && task.outputGlobs == old(task.outputGlobs) + globs
      invariant task.inputPaths == old(task.inputPaths) - (paths - pending)
      invariant task.outputPaths == old(task.outputPaths) + (paths - pending)
      decreases pending
    {
      var path :| path in pending;
      if path in task.inputPaths {
        task.inputPaths := task.inputPaths - {path};
      }
      task.outputPaths := task.outputPaths + {path};
      pending := pending - {path};
    }
    r := Ok(());
  }

  // ---------------------------------------------------------------------------
  // expand_task_env

  /** `entry(key).or_insert(value)` for every pair in order: a key keeps the
      value it already has, or else the first value listed for it. */
  function OrInsertAll(env: map<string, string>, entries: seq<(string, string)>): (r: map<string, string>)
    ensures forall k :: k in env ==> k in r && r[k] == env[k]
    ensures forall k :: k in r <==> k in env || exists i :: 0 <= i < |entries| && entries[i].0 == k
  {
    if entries == [] then env
    else
      var last := entries[|entries| - 1];
      var m := OrInsertAll(env, entries[..|entries| - 1]);
      assert forall i :: 0 <= i < |entries| - 1 ==> entries[..|entries| - 1][i] == entries[i];
      if last.0 in m then m else m[last.0 := last.1]
  }

  /** What `expand_task_env` leaves in the task's inputs and env. */
  twostate predicate EnvExpanded(project: Project, task: Task, envFile: Option<seq<(string, string)>>)
    reads task
  {
    && task.inputs == old(task.inputs) + (if task.options.envFile.Some? then [task.options.envFile.value] else [])
    && var fileEntries := if task.options.envFile.Some? && envFile.Some? then envFile.value else [];
       task.env == project.env + OrInsertAll(old(task.env), fileEntries)
  }

  /** `expand_task_env`: the env file's variables, then the project's, are
      added only where the task does not set the variable already. `envFile`
      holds the parsed file, or none when the file does not exist. */
  method ExpandTaskEnv(project: Project, task: Task, envFile: Option<seq<(string, string)>>)
    modifies task`inputs, task`env
    ensures EnvExpanded(project, task, envFile)
    ensures forall k :: k in old(task.env) ==> k in task.env && task.env[k] == old(task.env)[k]
    ensures forall k :: k in project.env ==> k in task.env
  {
    if task.options.envFile.Some? {
      task.inputs := task.inputs + [task.options.envFile.value];
      if envFile.Some? {
        task.env := OrInsertEach(task.env, envFile.value);
      }
    }
    task.env := OrInsertMap(task.env, project.env);
  }

  /** The `.env` loop of `expand_task_env`: `or_insert` for each entry in turn. */
  method OrInsertEach(env: map<string, string>, entries: seq<(string, string)>) returns (r: map<string, string>)
    ensures r == OrInsertAll(env, entries)
  {
    r := env;
    var i := 0;
    while i < |entries|
      invariant 0 <= i <= |entries|
      invariant r == OrInsertAll(env, entries[..i])
    {
      assert entries[..i + 1][..i] == entries[..i];
      var (key, value) := entries[i];
      if key !in r {
        r := r[key := value];
      }
      i := i + 1;
    }
    assert entries[..i] == entries;
  }

  /** The project-env loop of `expand_task_env`: a project variable is added
      only where the task does not set it. */
  method OrInsertMap(env: map<string, string>, defaults: map<string, string>) returns (r: map<string, string>)
    ensures r == defaults + env
  {
    r := env;
    var pending := defaults.Keys;
    while pending != {}
      invariant pending <= defaults.Keys
      invariant r == (defaults - pending) + env
      decreases pending
    {
      var key :| key in pending;
      if key !in r {
        r := r[key := defaults[key]];
      }
      pending := pending - {key};
    }
    assert defaults - {} == defaults;
  }

  // ---------------------------------------------------------------------------
  // create_project

  /** What the project's platform contributes: implicit dependencies and
      inferred tasks (in the order the platform lists them). */
  datatype PlatformContribution = PlatformContribution(
    implicitDeps: seq<DependencyConfig>,
    tasks: seq<(Id, TaskConfig)>)

  /** Dependencies after `or_insert_with`: explicit entries win over implicit ones. */
  function InheritDependencies(explicit: map<Id, DependencyConfig>, implicit: seq<DependencyConfig>)
    : (r: map<Id, DependencyConfig>)
    ensures forall k :: k in explicit ==> k in r && r[k] == explicit[k]
    ensures forall k :: k in r <==> k in explicit || exists i :: 0 <= i < |implicit| && implicit[i].id == k
  {
    if implicit == [] then explicit
    else
      var last := implicit[|implicit| - 1];
      var m := InheritDependencies(explicit, implicit[..|implicit| - 1]);
      assert forall i :: 0 <= i < |implicit| - 1 ==> implicit[..|implicit| - 1][i] == implicit[i];
      if last.id in m then m else m[last.id := last]
  }

  /** Whether some alias names the project. */
  predicate HasAlias(aliases: ProjectsAliasesMap, id: Id)
  {
    exists a :: a in aliases && aliases[a] == id
  }

  /** The alias loop of `create_project`: the project takes an alias that
      names it, if there is one, and keeps its own otherwise. */
  method FindAlias(aliases: ProjectsAliasesMap, id: Id, current: Option<string>) returns (alias: Option<string>)
    ensures HasAlias(aliases, id) ==> alias.Some? && alias.value in aliases && aliases[alias.value] == id
    ensures !HasAlias(aliases, id) ==> alias == current
  {
    alias := current;
    var pending := aliases.Keys;
    while pending != {}
      invariant pending <= aliases.Keys
      invariant if exists a :: a in aliases.Keys - pending && aliases[a] == id
                then alias.Some? && alias.value in aliases && aliases[alias.value] == id
                else alias == current
      decreases pending
    {
      var a :| a in pending;
      if aliases[a] == id {
        alias := Some(a);
      }
      pending := pending - {a};
    }
  }

  /** The implicit-dependency loop of `create_project`. */
  method AddImplicitDependencies(explicit: map<Id, DependencyConfig>, implicit: seq<DependencyConfig>)
    returns (deps: map<Id, DependencyConfig>)
    ensures deps == InheritDependencies(explicit, implicit)
  {
    deps := explicit;
    var i := 0;
    while i < |implicit|
      invariant 0 <= i <= |implicit|
      invariant deps == InheritDependencies(explicit, implicit[..i])
    {
      var dep := implicit[i];
      assert implicit[..i + 1][..i] == implicit[..i] && implicit[..i + 1][i] == dep;
      assert InheritDependencies(explicit, implicit[..i + 1])
          == if dep.id in deps then deps else deps[dep.id := dep];
      if dep.id !in deps {
        deps := deps[dep.id := dep];
      }
      i := i + 1;
    }
    assert implicit[..i] == implicit;
  }

  /** The index of the first inferred task named `k`, or the length when there is none. */
  function FirstIndexOf(inferred: seq<(Id, TaskConfig)>, k: Id): (i: nat)
    ensures i <= |inferred|
    ensures i < |inferred| ==> inferred[i].0 == k
    ensures forall j :: 0 <= j < i ==> inferred[j].0 != k
  {
    if inferred == [] then 0
    else if inferred[0].0 == k then 0
    else 1 + FirstIndexOf(inferred[1..], k)
  }

  /** `t` is the task `from_config` builds from the first inferred
      configuration named `k`. */
  ghost predicate InferredTaskBuilt(projectId: Id, inferred: seq<(Id, TaskConfig)>, split: string -> Option<seq<string>>,
                                    k: Id, t: Task)
    reads t
  {
    var i := FirstIndexOf(inferred, k);
    && i < |inferred|
    && CommandAndArgs(inferred[i].1, split).Ok?
    && t.BuiltFrom(NewTarget(projectId, k), inferred[i].1, CommandAndArgs(inferred[i].1, split).value.0,
                   CommandAndArgs(inferred[i].1, split).value.1)
  }

  /** Some inferred task that the project does not define, in its first
      occurrence, has a command or args that cannot be split. */
  predicate InferredSplitFails(explicit: set<Id>, inferred: seq<(Id, TaskConfig)>, split: string -> Option<seq<string>>)
  {
    exists i :: 0 <= i < |inferred| && inferred[i].0 !in explicit && FirstIndexOf(inferred, inferred[i].0) == i
                && CommandAndArgs(inferred[i].1, split).Err?
  }

  /** The names `tasks` holds after the first `j` inferred tasks: the
      explicit tasks unchanged, each other name whose first index is below
      `j`, and no failure so far. */
  ghost predicate InferredKeysSoFar(explicit: map<Id, Task>, inferred: seq<(Id, TaskConfig)>,
                              split: string -> Option<seq<string>>, tasks: map<Id, Task>, j: nat)
  {
    && j <= |inferred|
    && (forall k :: k in explicit ==> k in tasks && tasks[k] == explicit[k])
    && (forall k :: k in tasks <==> k in explicit || FirstIndexOf(inferred, k) < j)
    && (forall i :: 0 <= i < j && inferred[i].0 !in explicit && FirstIndexOf(inferred, inferred[i].0) == i ==>
          CommandAndArgs(inferred[i].1, split).Ok?)
  }

  /** Every task in `tasks` that is not explicit was built from its first configuration. */
  ghost predicate InferredBuiltSoFar(projectId: Id, explicit: map<Id, Task>, inferred: seq<(Id, TaskConfig)>,
                                     split: string -> Option<seq<string>>, tasks: map<Id, Task>)
    reads tasks.Values
  {
    forall k :: k in tasks && k !in explicit ==> InferredTaskBuilt(projectId, inferred, split, k, tasks[k])
  }

  /** The inferred-task loop of `create_project`: a task the project defines
      itself is kept; every other inferred task is built with `from_config`
      from the first configuration of that name. */
  method AddInferredTasks(projectId: Id, explicit: map<Id, Task>, inferred: seq<(Id, TaskConfig)>,
                          split: string -> Option<seq<string>>)
    returns (r: Result<map<Id, Task>, ProjectGraphError>)
    ensures r.Err? <==> InferredSplitFails(explicit.Keys, inferred, split)
    ensures r.Ok? ==> forall k :: k in explicit ==> k in r.value && r.value[k] == explicit[k]
    ensures r.Ok? ==> forall k :: k in r.value <==> k in explicit || exists i :: 0 <= i < |inferred| && inferred[i].0 == k
    ensures r.Ok? ==> forall k :: k in r.value && k !in explicit ==> fresh(r.value[k])
    ensures r.Ok? ==> forall k :: k in r.value && k !in explicit ==> InferredTaskBuilt(projectId, inferred, split, k, r.value[k])
  {
    var tasks := explicit;
    var j := 0;
    while j < |inferred|
      invariant InferredKeysSoFar(explicit, inferred, split, tasks, j)
      invariant InferredBuiltSoFar(projectId, explicit, inferred, split, tasks)
      invariant forall k :: k in tasks && k !in explicit ==> fresh(tasks[k])
    {
      if inferred[j].0 in tasks {
        InferredKeysSkip(explicit, inferred, split, tasks, j);
      } else {
        var next := AddInferredTask(projectId, explicit, inferred, split, tasks, j);
        if next.Err? {
          return next;
        }
        tasks := next.value;
      }
      j := j + 1;
    }
    InferredKeysDone(explicit, inferred, split, tasks);
    r := Ok(tasks);
  }

  /** After the whole loop, the names are the explicit ones and the inferred
      ones, and no first occurrence failed. */
  lemma InferredKeysDone(explicit: map<Id, Task>, inferred: seq<(Id, TaskConfig)>,
                         split: string -> Option<seq<string>>, tasks: map<Id, Task>)
    requires InferredKeysSoFar(explicit, inferred, split, tasks, |inferred|)
    ensures forall k :: k in tasks <==> k in explicit || exists i :: 0 <= i < |inferred| && inferred[i].0 == k
    ensures !InferredSplitFails(explicit.Keys, inferred, split)
  {
    FirstIndexOfFinds(inferred);
  }

  /** One turn of the inferred-task loop for a name not yet present: the
      `j`-th inferred task is built and added. */
  method AddInferredTask(projectId: Id, explicit: map<Id, Task>, inferred: seq<(Id, TaskConfig)>,
                         split: string -> Option<seq<string>>, tasks: map<Id, Task>, j: nat)
    returns (r: Result<map<Id, Task>, ProjectGraphError>)
    requires j < |inferred| && InferredKeysSoFar(explicit, inferred, split, tasks, j) && inferred[j].0 !in tasks
    requires InferredBuiltSoFar(projectId, explicit, inferred, split, tasks)
    ensures r.Ok? ==> InferredKeysSoFar(explicit, inferred, split, r.value, j + 1)
    ensures r.Ok? ==> InferredBuiltSoFar(projectId, explicit, inferred, split, r.value)
    ensures r.Ok? ==> r.value == tasks[inferred[j].0 := r.value[inferred[j].0]] && fresh(r.value[inferred[j].0])
    ensures r.Err? ==> InferredSplitFails(explicit.Keys, inferred, split)
  {
    InferredKeysFirst(explicit, inferred, split, tasks, j);
    var made := BuildInferred(projectId, inferred, split, j);
    if made.Err? {
      return Err(TaskFailure(made.error));
    }
    InferredKeysAdd(explicit, inferred, split, tasks, j, made.value);
    InferredBuiltExtend(projectId, explicit, inferred, split, tasks, inferred[j].0, made.value);
    r := Ok(tasks[inferred[j].0 := made.value]);
  }

  /** `from_config` on the first inferred configuration of a name. */
  method BuildInferred(projectId: Id, inferred: seq<(Id, TaskConfig)>, split: string -> Option<seq<string>>, j: nat)
    returns (r: Result<Task, TaskError>)
    requires j < |inferred| && FirstIndexOf(inferred, inferred[j].0) == j
    ensures r.Err? <==> CommandAndArgs(inferred[j].1, split).Err?
    ensures r.Ok? ==> fresh(r.value) && InferredTaskBuilt(projectId, inferred, split, inferred[j].0, r.value)
  {
    var (taskId, config) := inferred[j];
    r := Task.FromConfig(NewTarget(projectId, taskId), config, split);
  }

  /** A name already present is skipped. */
  lemma InferredKeysSkip(explicit: map<Id, Task>, inferred: seq<(Id, TaskConfig)>,
                         split: string -> Option<seq<string>>, tasks: map<Id, Task>, j: nat)
    requires j < |inferred| && InferredKeysSoFar(explicit, inferred, split, tasks, j) && inferred[j].0 in tasks
    ensures InferredKeysSoFar(explicit, inferred, split, tasks, j + 1)
  {
    FirstIndexOfStep(inferred, j);
  }

  /** A name not yet present is met for the first time, and its failure to
      split is a failure of the whole loop. */
  lemma InferredKeysFirst(explicit: map<Id, Task>, inferred: seq<(Id, TaskConfig)>,
                          split: string -> Option<seq<string>>, tasks: map<Id, Task>, j: nat)
    requires j < |inferred| && InferredKeysSoFar(explicit, inferred, split, tasks, j) && inferred[j].0 !in tasks
    ensures FirstIndexOf(inferred, inferred[j].0) == j && inferred[j].0 !in explicit
    ensures CommandAndArgs(inferred[j].1, split).Err? ==> InferredSplitFails(explicit.Keys, inferred, split)
  {
    assert inferred[j].0 !in explicit.Keys;
  }

  /** A name met for the first time is added. */
  lemma InferredKeysAdd(explicit: map<Id, Task>, inferred: seq<(Id, TaskConfig)>,
                        split: string -> Option<seq<string>>, tasks: map<Id, Task>, j: nat, t: Task)
    requires j < |inferred| && InferredKeysSoFar(explicit, inferred, split, tasks, j) && inferred[j].0 !in tasks
    requires FirstIndexOf(inferred, inferred[j].0) == j && CommandAndArgs(inferred[j].1, split).Ok?
    ensures InferredKeysSoFar(explicit, inferred, split, tasks[inferred[j].0 := t], j + 1)
  {
    FirstIndexOfStep(inferred, j);
  }

  /** Adding a task built from its first configuration keeps every task so built. */
  lemma InferredBuiltExtend(projectId: Id, explicit: map<Id, Task>, inferred: seq<(Id, TaskConfig)>,
                            split: string -> Option<seq<string>>, tasks: map<Id, Task>, k: Id, t: Task)
    requires InferredBuiltSoFar(projectId, explicit, inferred, split, tasks)
    requires InferredTaskBuilt(projectId, inferred, split, k, t)
    ensures InferredBuiltSoFar(projectId, explicit, inferred, split, tasks[k := t])
  {
    var next := tasks[k := t];
    forall k' | k' in next && k' !in explicit
      ensures InferredTaskBuilt(projectId, inferred, split, k', next[k'])
    {
      if k' != k {
        assert next[k'] == tasks[k'];
      }
    }
  }

  /** The names whose first index is below `j + 1` are those below `j` and the `j`-th name. */
  lemma FirstIndexOfStep(inferred: seq<(Id, TaskConfig)>, j: nat)
    requires j < |inferred|
    ensures forall k :: FirstIndexOf(inferred, k) < j + 1 <==> FirstIndexOf(inferred, k) < j || k == inferred[j].0
  {
  }

  /** A name occurs among the inferred tasks exactly when its first index is in range. */
  lemma FirstIndexOfFinds(inferred: seq<(Id, TaskConfig)>)
    ensures forall k :: (exists i :: 0 <= i < |inferred| && inferred[i].0 == k) <==> FirstIndexOf(inferred, k) < |inferred|
  {
    forall k | exists i :: 0 <= i < |inferred| && inferred[i].0 == k
      ensures FirstIndexOf(inferred, k) < |inferred|
    {
      var i :| 0 <= i < |inferred| && inferred[i].0 == k;
      assert FirstIndexOf(inferred, k) <= i;
    }
  }

  /** `create_project` from the project `Project::new` gives: records an alias
      of the project, lets explicit dependencies and tasks win over the ones
      the platform implies, and builds each inferred task with `from_config`. */
  method CreateProject(base: Project, aliases: ProjectsAliasesMap, platform: Option<PlatformContribution>,
                       split: string -> Option<seq<string>>)
    returns (r: Result<Project, ProjectGraphError>)
    ensures r.Ok? ==> r.value.id == base.id && r.value.env == base.env
    ensures r.Ok? ==> (r.value.implicitDeps == base.implicitDeps && r.value.implicitInputs == base.implicitInputs
                       && r.value.platform == base.platform)
    ensures r.Ok? && HasAlias(aliases, base.id) ==>
      r.value.alias.Some? && r.value.alias.value in aliases && aliases[r.value.alias.value] == base.id
    ensures r.Ok? && !HasAlias(aliases, base.id) ==> r.value.alias == base.alias
    ensures r.Ok? && platform.None? ==> r.value.dependencies == base.dependencies && r.value.tasks == base.tasks
    ensures r.Ok? && platform.Some? ==>
      r.value.dependencies == InheritDependencies(base.dependencies, platform.value.implicitDeps)
    ensures r.Ok? ==> forall k :: k in base.tasks ==> k in r.value.tasks && r.value.tasks[k] == base.tasks[k]
    ensures r.Ok? && platform.Some? ==> forall k :: k in r.value.tasks <==>
      k in base.tasks || exists i :: 0 <= i < |platform.value.tasks| && platform.value.tasks[i].0 == k
    ensures r.Ok? ==> forall k :: k in r.value.tasks && k !in base.tasks ==> fresh(r.value.tasks[k])
    ensures r.Ok? && platform.Some? ==> forall k :: k in r.value.tasks && k !in base.tasks ==>
      InferredTaskBuilt(base.id, platform.value.tasks, split, k, r.value.tasks[k])
    ensures r.Err? <==> platform.Some? && InferredSplitFails(base.tasks.Keys, platform.value.tasks, split)
  {
    var alias := FindAlias(aliases, base.id, base.alias);
    var project := base.(alias := alias);
    if platform.Some? {
      var deps := AddImplicitDependencies(project.dependencies, platform.value.implicitDeps);
      var tasks := AddInferredTasks(base.id, project.tasks, platform.value.tasks, split);
      if tasks.Err? {
        return Err(tasks.error);
      }
      project := project.(dependencies := deps, tasks := tasks.value);
    }
    r := Ok(project);
  }

  // ---------------------------------------------------------------------------
  // enforce_constraints: persistent tasks

  /** Every task object of every project in the graph. */
  ghost function AllTasks(nodes: seq<Project>): set<Task>
  {
    set p, k | 0 <= p < |nodes| && k in nodes[p].tasks :: nodes[p].tasks[k]
  }

  /** The task a `project:task` dependency of a task in `nodes[p]` points at, if loaded. */
  function DepTask(nodes: seq<Project>, indices: map<Id, nat>, aliases: ProjectsAliasesMap, p: nat, dep: Target)
    : Option<Task>
    requires p < |nodes| && dep.scope.Project?
    requires forall id :: id in indices ==> indices[id] < |nodes|
  {
    var projectId := ResolveId(aliases, dep.scope.projectId);
    var owner := if projectId == nodes[p].id then Some(p)
                 else if projectId in indices then Some(indices[projectId]) else None;
    if owner.Some? && dep.taskId in nodes[owner.value].tasks then Some(nodes[owner.value].tasks[dep.taskId])
    else None
  }

  /** Task `k` of project `p` is not persistent but its `d`-th dependency is. */
  ghost predicate PersistentViolation(nodes: seq<Project>, indices: map<Id, nat>, aliases: ProjectsAliasesMap,
                                      p: nat, k: Id, d: nat)
    requires forall id :: id in indices ==> indices[id] < |nodes|
    reads AllTasks(nodes)
  {
    && p < |nodes| && k in nodes[p].tasks
    && var task := nodes[p].tasks[k];
       && d < |task.deps| && task.deps[d].scope.Project?
       && var dt := DepTask(nodes, indices, aliases, p, task.deps[d]);
          dt.Some? && !task.options.persistent && dt.value.options.persistent
  }

  /** The persistent-task check of `enforce_constraints`: fails iff some
      non-persistent task depends on a persistent task, naming both targets. */
  method EnforcePersistent(nodes: seq<Project>, indices: map<Id, nat>, aliases: ProjectsAliasesMap)
    returns (r: Result<(), ProjectGraphError>)
    requires forall id :: id in indices ==> indices[id] < |nodes|
    ensures r.Ok? <==> forall p: nat, k: Id, d: nat :: !PersistentViolation(nodes, indices, aliases, p, k, d)
    ensures r.Err? ==> exists p: nat, k: Id, d: nat ::
      && PersistentViolation(nodes, indices, aliases, p, k, d)
      && var task := nodes[p].tasks[k];
         r.error == PersistentDepRequirement(task.target, DepTask(nodes, indices, aliases, p, task.deps[d]).value.target)
  {
    var p := 0;
    while p < |nodes|
      invariant 0 <= p <= |nodes|
      invariant forall q: nat, k: Id, d: nat :: q < p ==> !PersistentViolation(nodes, indices, aliases, q, k, d)
    {
      var pending := nodes[p].tasks.Keys;
      while pending != {}
        invariant pending <= nodes[p].tasks.Keys
        invariant forall q: nat, k: Id, d: nat :: q < p ==> !PersistentViolation(nodes, indices, aliases, q, k, d)
        invariant forall k: Id, d: nat :: k !in pending ==> !PersistentViolation(nodes, indices, aliases, p, k, d)
        decreases pending
      {
        var k :| k in pending;
        var task := nodes[p].tasks[k];
        var d := 0;
        while d < |task.deps|
          invariant 0 <= d <= |task.deps|
          invariant forall e: nat :: e < d ==> !PersistentViolation(nodes, indices, aliases, p, k, e)
        {
          var dep := task.deps[d];
          if dep.scope.Project? {
            var depTask := DepTask(nodes, indices, aliases, p, dep);
            if depTask.Some? && !task.options.persistent && depTask.value.options.persistent {
              assert PersistentViolation(nodes, indices, aliases, p, k, d);
              return Err(PersistentDepRequirement(task.target, depTask.value.target));
            }
          }
          d := d + 1;
        }
        pending := pending - {k};
      }
      p := p + 1;
    }
    r := Ok(());
  }

  // ---------------------------------------------------------------------------
  // expand_project

  /** The platform a task runs on after expansion: its own when known, else
      the project's when known, else the one detected from its command. */
  function ExpandedPlatform(task: PlatformType, project: PlatformType, detected: PlatformType): (r: PlatformType)
    ensures !task.IsUnknown() ==> r == task
    ensures r.IsUnknown() <==> task.IsUnknown() && project.IsUnknown() && detected.IsUnknown()
    ensures task.IsUnknown() && !project.IsUnknown() ==> r == project
  {
    if task.IsUnknown() then (if project.IsUnknown() then detected else project) else task
  }

  /** Expanding twice decides the platform once. */
  lemma ExpandedPlatformIdempotent(task: PlatformType, project: PlatformType, detected: PlatformType)
    ensures ExpandedPlatform(ExpandedPlatform(task, project, detected), project, detected)
         == ExpandedPlatform(task, project, detected)
  {
  }

  /** The body of the `expand_project` loop for one task: the platform, then
      env, deps, inputs and outputs in that order, then the type. `detected`
      is the platform detected from the task's command. */
  method ExpandTask(project: Project, task: Task, detected: PlatformType,
                    depIds: seq<Id>, loaded: map<Id, map<Id, Target>>, envFile: Option<seq<(string, string)>>,
                    isEnvVar: string -> bool, resolve: seq<string> -> Result<(set<Path>, set<string>), string>)
    returns (r: Result<(), ProjectGraphError>)
    modifies task`platform, task`env, task`deps, task`inputs, task`inputVars, task`globalInputs,
             task`inputPaths, task`inputGlobs, task`outputPaths, task`outputGlobs, task`typeOf
    ensures task.platform == ExpandedPlatform(old(task.platform), project.platform, detected)
    ensures r.Ok? ==> WorkspaceConfigGlob in task.globalInputs
    ensures r.Ok? ==> task.typeOf == if task.outputs != [] then Build else old(task.typeOf)
  {
    if task.platform.IsUnknown() {
      task.platform := if project.platform.IsUnknown() then detected else project.platform;
    }
    ExpandTaskEnv(project, task, envFile);
    r := ExpandTaskFiles(project, task, depIds, loaded, isEnvVar, resolve);
  }

  /** The second half of `ExpandTask`: deps, inputs and outputs in that
      order, stopping at the first error, then the type. */
  method ExpandTaskFiles(project: Project, task: Task, depIds: seq<Id>, loaded: map<Id, map<Id, Target>>,
                         isEnvVar: string -> bool, resolve: seq<string> -> Result<(set<Path>, set<string>), string>)
    returns (r: Result<(), ProjectGraphError>)
    modifies task`deps, task`inputs, task`inputVars, task`globalInputs,
             task`inputPaths, task`inputGlobs, task`outputPaths, task`outputGlobs, task`typeOf
    ensures r.Ok? ==> WorkspaceConfigGlob in task.globalInputs
    ensures r.Ok? ==> task.typeOf == if task.outputs != [] then Build else old(task.typeOf)
  {
    r := ExpandTaskDeps(project, task, depIds, loaded);
    if r.Err? {
      return;
    }
    r := ExpandTaskInputs(project, task, isEnvVar, resolve);
    if r.Err? {
      return;
    }
    assert WorkspaceConfigGlob in task.globalInputs;
    r := ExpandTaskOutputs(project, task, resolve);
    if r.Err? {
      return;
    }
    task.DetermineType();
  }

  /** The task objects of a project, which no two ids share. */
  ghost predicate DistinctTasks(tasks: map<Id, Task>)
  {
    forall a, b :: a in tasks && b in tasks && a != b ==> tasks[a] != tasks[b]
  }

  /** `expand_project`: expands every task of the project; on success every
      task has its platform decided and every task with outputs is a build
      task. `detect` gives the platform detected from each task's command. */
  method ExpandProject(project: Project, detect: Id -> PlatformType,
                       depIds: seq<Id>, loaded: map<Id, map<Id, Target>>, envFiles: map<string, seq<(string, string)>>,
                       isEnvVar: string -> bool, resolve: seq<string> -> Result<(set<Path>, set<string>), string>)
    returns (r: Result<(), ProjectGraphError>)
    requires DistinctTasks(project.tasks)
    modifies project.tasks.Values
    ensures r.Ok? ==> forall k :: k in project.tasks ==>
      project.tasks[k].platform == ExpandedPlatform(old(project.tasks[k].platform), project.platform, detect(k))
    ensures r.Ok? ==> forall k :: k in project.tasks && project.tasks[k].outputs != [] ==>
      project.tasks[k].typeOf == Build
  {
    var pending := project.tasks.Keys;
    while pending != {}
      invariant pending <= project.tasks.Keys
      invariant forall k :: k in project.tasks ==>
        && project.tasks[k].outputs == old(project.tasks[k].outputs)
        && project.tasks[k].platform
           == (if k in pending then old(project.tasks[k].platform)
               else ExpandedPlatform(old(project.tasks[k].platform), project.platform, detect(k)))
        && (k !in pending && project.tasks[k].outputs != [] ==> project.tasks[k].typeOf == Build)
      decreases pending
    {
      var k :| k in pending;
      var task := project.tasks[k];
      var envFile := if task.options.envFile.Some? && task.options.envFile.value in envFiles
                     then Some(envFiles[task.options.envFile.value]) else None;
      r := ExpandTask(project, task, detect(k), depIds, loaded, envFile, isEnvVar, resolve);
      if r.Err? {
        return;
      }
      pending := pending - {k};
    }
    r := Ok(());
  }
}
