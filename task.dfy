/** The expanded task and the rules that build and merge it
    (crates/core/task/src/task.rs). */
module Tasks {
  import opened Common
  import opened TaskConfigs

  datatype TaskFlag = NoInputs

  /** The commands that make a task a no-op. */
  const NoOpCommands: set<string> := {"nop", "noop", "no-op"}

  /** The resolved options of a task that this model follows. */
  datatype TaskOptions = TaskOptions(
    envFile: Option<string>,
    mergeArgs: TaskMergeStrategy,
    mergeDeps: TaskMergeStrategy,
    mergeEnv: TaskMergeStrategy,
    mergeInputs: TaskMergeStrategy,
    mergeOutputs: TaskMergeStrategy,
    persistent: bool,
    runInCi: bool)

  /** `TaskOptions::merge`: every setting the configuration gives replaces the current one. */
  function MergeOptions(o: TaskOptions, c: TaskOptionsConfig): TaskOptions
  {
    TaskOptions(
      if c.envFile.Some? then c.envFile else o.envFile,
      if c.mergeArgs.Some? then c.mergeArgs.value else o.mergeArgs,
      if c.mergeDeps.Some? then c.mergeDeps.value else o.mergeDeps,
      if c.mergeEnv.Some? then c.mergeEnv.value else o.mergeEnv,
      if c.mergeInputs.Some? then c.mergeInputs.value else o.mergeInputs,
      if c.mergeOutputs.Some? then c.mergeOutputs.value else o.mergeOutputs,
      if c.persistent.Some? then c.persistent.value else o.persistent,
      if c.runInCi.Some? then c.runInCi.value else o.runInCi)
  }

  /** `TaskOptions::from_config`: local tasks default to persistent and not run in CI. */
  function OptionsFromConfig(c: TaskOptionsConfig, isLocal: bool): TaskOptions
  {
    MergeOptions(TaskOptions(None, Append, Append, Append, Append, Append, isLocal, !isLocal), c)
  }

  datatype TaskError = ArgsSplitError(text: string)

  /** The list a command or args setting stands for; `split` is the shell-style
      `split_args`, which gives `None` when it cannot parse its input. */
  function CommandItems(c: TaskCommandArgs, split: string -> Option<seq<string>>): Option<seq<string>>
  {
    match c
    case CommandNone => Some([])
    case CommandString(text) => split(text)
    case CommandSequence(items) => Some(items)
  }

  /** The value `get_command_and_args` computes: the command list's head is the
      command, and its tail followed by the args list are the arguments. */
  function CommandAndArgs(config: TaskConfig, split: string -> Option<seq<string>>)
    : (r: Result<(Option<string>, seq<string>), TaskError>)
    ensures r.Err? <==> CommandItems(config.command, split).None? || CommandItems(config.args, split).None?
    ensures r.Ok? ==>
      var cmdList := CommandItems(config.command, split).value;
      var argList := CommandItems(config.args, split).value;
      && (r.value.0.None? <==> cmdList == [])
      && (if r.value.0.Some? then [r.value.0.value] else []) + r.value.1 == cmdList + argList
  {
    match CommandItems(config.command, split)
    case None => Err(ArgsSplitError(config.command.text))
    case Some(cmdList) =>
      match CommandItems(config.args, split)
      case None => Err(ArgsSplitError(config.args.text))
      case Some(argList) =>
        if cmdList == [] then Ok((None, argList))
        else Ok((Some(cmdList[0]), cmdList[1..] + argList))
  }

  /** `get_command_and_args`. */
  method GetCommandAndArgs(config: TaskConfig, split: string -> Option<seq<string>>)
    returns (r: Result<(Option<string>, seq<string>), TaskError>)
    ensures r == CommandAndArgs(config, split)
  {
    var command: Option<string> := None;
    var args: seq<string> := [];
    var cmdList := CommandItems(config.command, split);
    if cmdList.None? {
      return Err(ArgsSplitError(config.command.text));
    }
    var list := cmdList.value;
    if list != [] {
      command := Some(list[0]);
      list := list[1..];
      args := args + list;
      assert args == cmdList.value[1..];
    } else {
      assert args == [];
    }
    var argList := CommandItems(config.args, split);
    if argList.None? {
      return Err(ArgsSplitError(config.args.text));
    }
    args := args + argList.value;
    r := Ok((command, args));
    assert cmdList.Some? && argList.Some?;
    if cmdList.value == [] {
      assert command == None;
      assert args == argList.value;
      assert r == Ok((None, argList.value));
    } else {
      assert r == Ok((Some(cmdList.value[0]), cmdList.value[1..] + argList.value));
    }
  }

  /** The list `merge_vec` builds for a strategy. */
  function MergeList<T>(base: seq<T>, next: seq<T>, strategy: TaskMergeStrategy): seq<T>
  {
    match strategy
    case Append => base + next
    case Prepend => next + base
    case Replace => next
  }

  /** `merge_vec`: copies `base` and `next` one item at a time in the order the strategy asks for. */
  method MergeVec<T>(base: seq<T>, next: seq<T>, strategy: TaskMergeStrategy) returns (list: seq<T>)
    ensures strategy == Append ==> list == base + next
    ensures strategy == Prepend ==> list == next + base
    ensures strategy == Replace ==> list == next
    ensures |list| == if strategy == Replace then |next| else |base| + |next|
    ensures list == MergeList(base, next, strategy)
  {
    list := [];
    match strategy
    case Append =>
      list := PushAll(list, base);
      list := PushAll(list, next);
    case Prepend =>
      list := PushAll(list, next);
      list := PushAll(list, base);
    case Replace =>
      list := PushAll(list, next);
  }

  /** The `merge` closure of `merge_vec`: pushes every item of `inner` onto `list`. */
  method PushAll<T>(list: seq<T>, inner: seq<T>) returns (out: seq<T>)
    ensures out == list + inner
  {
    out := list;
    var i := 0;
    while i < |inner|
      invariant 0 <= i <= |inner|
      invariant out == list + inner[..i]
    {
      out := out + [inner[i]];
      i := i + 1;
    }
  }

  /** `merge_env_vars`: Append lets `next` win on a shared key, Prepend lets
      `base` win, Replace keeps `next` alone. */
  function MergeEnvVars(base: map<string, string>, next: map<string, string>, strategy: TaskMergeStrategy)
    : (r: map<string, string>)
    ensures strategy != Replace ==> r.Keys == base.Keys + next.Keys
    ensures strategy == Append ==>
      (forall k :: k in next ==> r[k] == next[k]) && (forall k :: k in base && k !in next ==> r[k] == base[k])
    ensures strategy == Prepend ==>
      (forall k :: k in base ==> r[k] == base[k]) && (forall k :: k in next && k !in base ==> r[k] == next[k])
    ensures strategy == Replace ==> r == next
  {
    match strategy
    case Append => base + next
    case Prepend => next + base
    case Replace => next
  }

  /** A task is local when configured so or when its command runs a server. */
  predicate IsLocalCommand(config: TaskConfig, command: string)
  {
    config.local || command == "dev" || command == "serve" || command == "start"
  }

  /** The configuration sets `inputs: []`, which means "no inputs". */
  predicate HasEmptyInputs(config: TaskConfig)
  {
    config.inputs == Some([])
  }

  class Task {
    var args: seq<string>
    var command: string
    var deps: seq<Target>
    var env: map<string, string>
    var flags: set<TaskFlag>
    var globalInputs: seq<string>
    var id: Id
    var inputs: seq<string>
    var inputGlobs: set<string>
    var inputPaths: set<Path>
    var inputVars: set<string>
    var options: TaskOptions
    var outputs: seq<string>
    var outputGlobs: set<string>
    var outputPaths: set<Path>
    var platform: PlatformType
    var target: Target
    var typeOf: TaskType

    /** `Task::default()`. */
    constructor ()
      ensures args == [] && command == "" && deps == [] && env == map[] && flags == {}
      ensures globalInputs == [] && id == "" && inputs == [] && inputGlobs == {} && inputPaths == {}
      ensures inputVars == {} && outputs == [] && outputGlobs == {} && outputPaths == {}
      ensures options == OptionsFromConfig(DefaultOptionsConfig, false)
      ensures platform == Unknown && target == Target(All, "") && typeOf == Test
    {
      args, command, deps, env, flags := [], "", [], map[], {};
      globalInputs, id, inputs, inputGlobs, inputPaths := [], "", [], {}, {};
      inputVars, outputs, outputGlobs, outputPaths := {}, [], {}, {};
      options := OptionsFromConfig(DefaultOptionsConfig, false);
      platform, target, typeOf := Unknown, Target(All, ""), Test;
    }

    /** The task `Task::from_config` builds once the command and arguments are known. */
    constructor FromParts(target: Target, config: TaskConfig, cmd: Option<string>, args: seq<string>)
      ensures BuiltFrom(target, config, cmd, args)
    {
      var command := if cmd.Some? then cmd.value else "noop";
      var isLocal := config.local || command == "dev" || command == "serve" || command == "start";
      this.args := args;
      this.command := command;
      deps := config.deps;
      env := config.env;
      flags := if config.inputs.Some? && config.inputs.value == [] then {NoInputs} else {};
      globalInputs := config.globalInputs;
      id := target.taskId;
      inputs := if config.inputs.Some? then config.inputs.value else [];
      inputGlobs, inputPaths, inputVars := {}, {}, {};
      options := OptionsFromConfig(config.options, isLocal);
      outputs := if config.outputs.Some? then config.outputs.value else [];
      outputGlobs, outputPaths := {}, {};
      platform := config.platform;
      this.target := target;
      typeOf := if isLocal then Run else Test;
    }

    /** The fields of a task made from `config` with command `cmd` and arguments
        `args`: a missing command becomes "noop"; local tasks are of type Run and
        all others Test; `inputs: []` sets the NoInputs flag. */
    ghost predicate BuiltFrom(target: Target, config: TaskConfig, cmd: Option<string>, args: seq<string>)
      reads this
    {
      && command == (if cmd.Some? then cmd.value else "noop")
      && this.args == args
      && typeOf == (if IsLocalCommand(config, command) then Run else Test)
      && options == OptionsFromConfig(config.options, IsLocalCommand(config, command))
      && (NoInputs in flags <==> HasEmptyInputs(config)) && flags <= {NoInputs}
      && deps == config.deps && env == config.env && globalInputs == config.globalInputs
      && inputs == (if config.inputs.Some? then config.inputs.value else [])
      && outputs == (if config.outputs.Some? then config.outputs.value else [])
      && id == target.taskId && this.target == target && platform == config.platform
      && inputGlobs == {} && inputPaths == {} && inputVars == {}
      && outputGlobs == {} && outputPaths == {}
    }

    /** `Task::from_config`: fails only when the command or args cannot be split. */
    static method FromConfig(target: Target, config: TaskConfig, split: string -> Option<seq<string>>)
      returns (r: Result<Task, TaskError>)
      ensures r.Err? <==> CommandAndArgs(config, split).Err?
      ensures r.Ok? ==> fresh(r.value)
      ensures r.Ok? ==> r.value.BuiltFrom(target, config, CommandAndArgs(config, split).value.0,
                                          CommandAndArgs(config, split).value.1)
    {
      var ca := GetCommandAndArgs(config, split);
      if ca.Err? {
        return Err(ca.error);
      }
      var task := new Task.FromParts(target, config, ca.value.0, ca.value.1);
      r := Ok(task);
    }

    /** `Task::to_config`: the command and the arguments become one sequence. */
    function ToConfig(): (c: TaskConfig)
      reads this
      ensures c.command == CommandSequence([command] + args) && c.args == CommandNone
      ensures c.inputs.Some? <==> inputs != []
      ensures c.inputs.Some? ==> c.inputs.value == inputs
      ensures c.outputs.Some? <==> outputs != []
      ensures c.outputs.Some? ==> c.outputs.value == outputs
      ensures c.deps == deps && c.env == env && c.platform == platform
      ensures c.globalInputs == [] && !c.local && c.typeOf.None?
    {
      TaskConfig(
        CommandSequence([command] + args),
        CommandNone,
        deps,
        env,
        [],
        if inputs != [] then Some(inputs) else None,
        false,
        if outputs != [] then Some(outputs) else None,
        DefaultOptionsConfig,
        platform,
        None)
    }

    predicate IsBuildType() reads this { typeOf == Build }
    predicate IsRunType() reads this { typeOf == Run }
    predicate IsTestType() reads this { typeOf == Test }
    predicate IsPersistent() reads this { options.persistent }

    /** `is_no_op`: the command is one of the three no-op spellings. */
    function IsNoOp(): (r: bool)
      reads this
      ensures r <==> command in NoOpCommands
    {
      command == "nop" || command == "noop" || command == "no-op"
    }

    /** `should_run_in_ci`: only build and test tasks with `runInCI` run in CI. */
    function ShouldRunInCi(): (r: bool)
      reads this
      ensures r <==> options.runInCi && !IsRunType()
    {
      if !options.runInCi then false else IsBuildType() || IsTestType()
    }

    /** `determine_type`: any output makes a build task. */
    method DetermineType()
      modifies this`typeOf
      ensures typeOf == if outputs != [] then Build else old(typeOf)
    {
      if outputs != [] {
        typeOf := Build;
      }
    }

    /** `merge`: layers a configuration over this task, options first so that
        a changed merge strategy applies. Fails, changing nothing, when the
        command or args cannot be split. */
    method Merge(config: TaskConfig, split: string -> Option<seq<string>>)
      returns (r: Result<(), TaskError>)
      modifies this
      ensures r.Err? <==> CommandAndArgs(config, split).Err?
      ensures r.Err? ==> unchanged(this)
      ensures r.Ok? ==> MergedFrom(config, CommandAndArgs(config, split).value.0, CommandAndArgs(config, split).value.1)
    {
      var ca := GetCommandAndArgs(config, split);
      if ca.Err? {
        return Err(ca.error);
      }
      ApplyMerge(config, ca.value.0, ca.value.1);
      r := Ok(());
    }

    /** The state `merge` leaves once the command and arguments are known. An
        absent command, unknown platform, or empty args, deps or env leaves that
        field alone; `inputs: []` sets NoInputs and clears the inputs, while a
        non-empty list unsets it and merges. */
    twostate predicate MergedFrom(config: TaskConfig, cmd: Option<string>, a: seq<string>)
      reads this
    {
      && options == MergeOptions(old(options), config.options)
      && platform == (if config.platform.IsUnknown() then old(platform) else config.platform)
      && command == (if cmd.Some? then cmd.value else old(command))
      && args == (if a == [] then old(args) else MergeList(old(args), a, options.mergeArgs))
      && deps == (if config.deps == [] then old(deps) else MergeList(old(deps), config.deps, options.mergeDeps))
      && env == (if config.env == map[] then old(env) else MergeEnvVars(old(env), config.env, options.mergeEnv))
      && (config.inputs == None ==> inputs == old(inputs) && flags == old(flags))
      && (config.inputs == Some([]) ==> inputs == [] && flags == old(flags) + {NoInputs})
      && (config.inputs.Some? && config.inputs.value != [] ==>
            inputs == MergeList(old(inputs), config.inputs.value, options.mergeInputs)
            && flags == old(flags) - {NoInputs})
      && outputs == (if config.outputs.Some? then MergeList(old(outputs), config.outputs.value, options.mergeOutputs)
                     else old(outputs))
      && id == old(id) && target == old(target) && typeOf == old(typeOf)
      && globalInputs == old(globalInputs) && inputVars == old(inputVars)
      && inputGlobs == old(inputGlobs) && inputPaths == old(inputPaths)
      && outputGlobs == old(outputGlobs) && outputPaths == old(outputPaths)
    }

    method ApplyMerge(config: TaskConfig, cmd: Option<string>, a: seq<string>)
      modifies this
      ensures MergedFrom(config, cmd, a)
    {
      MergeHeadArgsDepsEnv(config, cmd, a);
      MergeInputsOutputs(config);
    }

    /** The options, platform, command, args, deps and env steps of `merge`. */
    method MergeHeadArgsDepsEnv(config: TaskConfig, cmd: Option<string>, a: seq<string>)
      modifies this`options, this`platform, this`command, this`args, this`deps, this`env
      ensures options == MergeOptions(old(options), config.options)
      ensures platform == (if config.platform.IsUnknown() then old(platform) else config.platform)
      ensures command == (if cmd.Some? then cmd.value else old(command))
      ensures args == (if a == [] then old(args) else MergeList(old(args), a, options.mergeArgs))
      ensures deps == (if config.deps == [] then old(deps) else MergeList(old(deps), config.deps, options.mergeDeps))
      ensures env == (if config.env == map[] then old(env) else MergeEnvVars(old(env), config.env, options.mergeEnv))
    {
      MergeHead(config, cmd);
      MergeArgsDepsEnv(config, a);
    }

    /** The options, platform and command steps of `merge`. */
    method MergeHead(config: TaskConfig, cmd: Option<string>)
      modifies this`options, this`platform, this`command
      ensures options == MergeOptions(old(options), config.options)
      ensures platform == (if config.platform.IsUnknown() then old(platform) else config.platform)
      ensures command == (if cmd.Some? then cmd.value else old(command))
    {
      options := MergeOptions(options, config.options);
      if !config.platform.IsUnknown() {
        platform := config.platform;
      }
      if cmd.Some? {
        command := cmd.value;
      }
    }

    /** The args, deps and env steps of `merge`. */
    method MergeArgsDepsEnv(config: TaskConfig, a: seq<string>)
      modifies this`args, this`deps, this`env
      ensures args == (if a == [] then old(args) else MergeList(old(args), a, options.mergeArgs))
      ensures deps == (if config.deps == [] then old(deps) else MergeList(old(deps), config.deps, options.mergeDeps))
      ensures env == (if config.env == map[] then old(env) else MergeEnvVars(old(env), config.env, options.mergeEnv))
    {
      if a != [] {
        args := MergeVec(args, a, options.mergeArgs);
      }
      if config.deps != [] {
        deps := MergeVec(deps, config.deps, options.mergeDeps);
      }
      if config.env != map[] {
        env := MergeEnvVars(env, config.env, options.mergeEnv);
      }
    }

    /** The inputs and outputs steps of `merge`. */
    method MergeInputsOutputs(config: TaskConfig)
      modifies this`inputs, this`flags, this`outputs
      ensures config.inputs == None ==> inputs == old(inputs) && flags == old(flags)
      ensures config.inputs == Some([]) ==> inputs == [] && flags == old(flags) + {NoInputs}
      ensures config.inputs.Some? && config.inputs.value != [] ==>
        inputs == MergeList(old(inputs), config.inputs.value, options.mergeInputs)
        && flags == old(flags) - {NoInputs}
      ensures outputs == (if config.outputs.Some? then MergeList(old(outputs), config.outputs.value, options.mergeOutputs)
                          else old(outputs))
    {
      if config.inputs.Some? {
        if config.inputs.value == [] {
          flags := flags + {NoInputs};
          inputs := [];
        } else {
          flags := flags - {NoInputs};
          inputs := MergeVec(inputs, config.inputs.value, options.mergeInputs);
        }
      }
      if config.outputs.Some? {
        outputs := MergeVec(outputs, config.outputs.value, options.mergeOutputs);
      }
    }

    /** `is_affected`: a task with no inputs is always affected; otherwise it is
        affected by a non-empty variable among its input variables, or by a
        touched file that is one of its input paths or matches its globs.
        `globMatch(inputGlobs, outputGlobs, file)` stands for the globset. */
    method IsAffected(touched: seq<Path>, envVars: map<string, string>,
                      globMatch: (set<string>, set<string>, Path) -> bool)
      returns (r: bool)
      ensures NoInputs in flags ==> r
      ensures r <==>
        || NoInputs in flags
        || (exists v :: v in inputVars && v in envVars && envVars[v] != "")
        || (exists i :: 0 <= i < |touched| && (touched[i] in inputPaths || globMatch(inputGlobs, outputGlobs, touched[i])))
    {
      if NoInputs in flags {
        return true;
      }
      var pending := inputVars;
      while pending != {}
        invariant pending <= inputVars
        invariant forall v :: v in inputVars - pending ==> !(v in envVars && envVars[v] != "")
        decreases pending
      {
        var name :| name in pending;
        if name in envVars && envVars[name] != "" {
          return true;
        }
        pending := pending - {name};
      }
      var i := 0;
      while i < |touched|
        invariant 0 <= i <= |touched|
        invariant forall j :: 0 <= j < i ==> !(touched[j] in inputPaths || globMatch(inputGlobs, outputGlobs, touched[j]))
      {
        if touched[i] in inputPaths {
          return true;
        }
        if globMatch(inputGlobs, outputGlobs, touched[i]) {
          return true;
        }
        i := i + 1;
      }
      return false;
    }

    /** `get_affected_files`: the touched files inside the project that are
        inputs, made relative to the project as "./rest". */
    method GetAffectedFiles(touched: seq<Path>, projectSource: Path,
                            globMatch: (set<string>, set<string>, Path) -> bool)
      returns (files: seq<Path>)
      ensures files == AffectedFiles(touched, projectSource, inputPaths, inputGlobs, outputGlobs, globMatch)
    {
      files := [];
      var i := 0;
      while i < |touched|
        invariant 0 <= i <= |touched|
        invariant files == AffectedFiles(touched[..i], projectSource, inputPaths, inputGlobs, outputGlobs, globMatch)
      {
        var file := touched[i];
        AffectedFilesSnoc(touched[..i], file, projectSource, inputPaths, inputGlobs, outputGlobs, globMatch);
        assert touched[..i + 1] == touched[..i] + [file];
        if !IsPrefix(projectSource, file) {
          i := i + 1;
          continue;
        }
        if file in inputPaths || globMatch(inputGlobs, outputGlobs, file) {
          files := files + [["."] + file[|projectSource|..]];
        }
        i := i + 1;
      }
      assert touched[..|touched|] == touched;
    }
  }

  /** `Path::starts_with`: whole components. */
  predicate IsPrefix(prefix: Path, p: Path)
  {
    |prefix| <= |p| && p[..|prefix|] == prefix
  }

  /** A touched file that `get_affected_files` reports: inside the project
      and an input path or a match of the input globs. */
  predicate IsAffectedFile(file: Path, source: Path, inputPaths: set<Path>, inputGlobs: set<string>,
                           outputGlobs: set<string>, globMatch: (set<string>, set<string>, Path) -> bool)
  {
    IsPrefix(source, file) && (file in inputPaths || globMatch(inputGlobs, outputGlobs, file))
  }

  /** The files `get_affected_files` reports, in the order of `touched`. */
  function AffectedFiles(touched: seq<Path>, source: Path, inputPaths: set<Path>, inputGlobs: set<string>,
                         outputGlobs: set<string>, globMatch: (set<string>, set<string>, Path) -> bool)
    : seq<Path>
  {
    if touched == [] then []
    else
      var file := touched[0];
      var rest := AffectedFiles(touched[1..], source, inputPaths, inputGlobs, outputGlobs, globMatch);
      if IsAffectedFile(file, source, inputPaths, inputGlobs, outputGlobs, globMatch)
      then [["."] + file[|source|..]] + rest
      else rest
  }

  lemma {:induction false} AffectedFilesSnoc(touched: seq<Path>, file: Path, source: Path,
                                             inputPaths: set<Path>, inputGlobs: set<string>, outputGlobs: set<string>,
                                             globMatch: (set<string>, set<string>, Path) -> bool)
    ensures AffectedFiles(touched + [file], source, inputPaths, inputGlobs, outputGlobs, globMatch)
         == AffectedFiles(touched, source, inputPaths, inputGlobs, outputGlobs, globMatch)
            + (if IsAffectedFile(file, source, inputPaths, inputGlobs, outputGlobs, globMatch)
               then [["."] + file[|source|..]] else [])
  {
    if touched == [] {
      assert touched + [file] == [file];
    } else {
      assert (touched + [file])[1..] == touched[1..] + [file];
      AffectedFilesSnoc(touched[1..], file, source, inputPaths, inputGlobs, outputGlobs, globMatch);
    }
  }

  /** Every reported file is "./" followed by the part of an affected touched
      file below the project source, and every affected touched file is reported. */
  lemma {:induction false} AffectedFilesMembership(touched: seq<Path>, source: Path, inputPaths: set<Path>,
                                                  inputGlobs: set<string>, outputGlobs: set<string>,
                                                  globMatch: (set<string>, set<string>, Path) -> bool, f: Path)
    ensures f in AffectedFiles(touched, source, inputPaths, inputGlobs, outputGlobs, globMatch) <==>
      exists i :: 0 <= i < |touched| && IsAffectedFile(touched[i], source, inputPaths, inputGlobs, outputGlobs, globMatch)
                  && f == ["."] + touched[i][|source|..]
  {
    if touched != [] {
      var tail := touched[1..];
      AffectedFilesMembership(tail, source, inputPaths, inputGlobs, outputGlobs, globMatch, f);
      if f in AffectedFiles(tail, source, inputPaths, inputGlobs, outputGlobs, globMatch) {
        var i :| 0 <= i < |tail| && IsAffectedFile(tail[i], source, inputPaths, inputGlobs, outputGlobs, globMatch)
                 && f == ["."] + tail[i][|source|..];
        assert touched[i + 1] == tail[i];
      }
      if exists i :: 0 <= i < |touched| && IsAffectedFile(touched[i], source, inputPaths, inputGlobs, outputGlobs, globMatch)
                     && f == ["."] + touched[i][|source|..] {
        var i :| 0 <= i < |touched| && IsAffectedFile(touched[i], source, inputPaths, inputGlobs, outputGlobs, globMatch)
                 && f == ["."] + touched[i][|source|..];
        if i > 0 {
          assert tail[i - 1] == touched[i];
        }
      }
    }
  }

  /** `to_config` then `get_command_and_args` gives back the task's command and arguments. */
  lemma ToConfigRoundTrip(t: Task, split: string -> Option<seq<string>>)
    ensures CommandAndArgs(t.ToConfig(), split) == Ok((Some(t.command), t.args))
  {
    assert ([t.command] + t.args)[1..] + [] == t.args;
  }

  /** A task configured without a command is the no-op task, and its type
      follows `local` alone. */
  lemma MissingCommandIsNoOp(t: Task, target: Target, config: TaskConfig, args: seq<string>)
    requires t.BuiltFrom(target, config, None, args)
    ensures t.IsNoOp() && t.command == "noop"
    ensures t.typeOf == if config.local then Run else Test
  {
  }

  /** After `determine_type`, a task with outputs is a build task, so it runs
      in CI exactly when `runInCI` is set. */
  lemma BuildTasksRunInCi(t: Task)
    requires t.outputs != [] && t.typeOf == Build
    ensures t.ShouldRunInCi() <==> t.options.runInCi
  {
  }

  /** A configuration without an explicit `persistent`/`runInCI` gives a local
      task that is persistent and never runs in CI, and any other task one
      that is not persistent. */
  lemma LocalTaskDefaults(config: TaskConfig, command: string)
    requires config.options.persistent.None? && config.options.runInCi.None?
    ensures OptionsFromConfig(config.options, IsLocalCommand(config, command)).persistent
            <==> IsLocalCommand(config, command)
    ensures IsLocalCommand(config, command) ==>
            !OptionsFromConfig(config.options, true).runInCi
  {
  }
}
