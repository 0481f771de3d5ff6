/** The task configuration types and their validators
    (nextgen/config/src/project/task_config.rs). */
module TaskConfigs {
  import opened Common

  /** `PlatformType`; its default is `Unknown`. */
  datatype PlatformType = Deno | Node | Rust | System | Unknown {
    predicate IsUnknown() { this == Unknown }
  }

  /** `TaskType`; its default is `Test`. */
  datatype TaskType = Build | Run | Test

  /** `TaskCommandArgs`: no value, one string to be split, or a list. Its default is none. */
  datatype TaskCommandArgs = CommandNone | CommandString(text: string) | CommandSequence(items: seq<string>)

  /** `TaskMergeStrategy`; its default is `Append`. */
  datatype TaskMergeStrategy = Append | Prepend | Replace

  /** The options of a task configuration that this model follows; every
      setting is optional so that an unset one can be told from a set one. */
  datatype TaskOptionsConfig = TaskOptionsConfig(
    envFile: Option<string>,
    mergeArgs: Option<TaskMergeStrategy>,
    mergeDeps: Option<TaskMergeStrategy>,
    mergeEnv: Option<TaskMergeStrategy>,
    mergeInputs: Option<TaskMergeStrategy>,
    mergeOutputs: Option<TaskMergeStrategy>,
    persistent: Option<bool>,
    runInCi: Option<bool>)

  /** `TaskConfig`. `inputs`: none means every file, an empty list means no inputs. */
  datatype TaskConfig = TaskConfig(
    command: TaskCommandArgs,
    args: TaskCommandArgs,
    deps: seq<Target>,
    env: map<string, string>,
    globalInputs: seq<string>,
    inputs: Option<seq<string>>,
    local: bool,
    outputs: Option<seq<string>>,
    options: TaskOptionsConfig,
    platform: PlatformType,
    typeOf: Option<TaskType>)

  const DefaultTaskType: TaskType := Test
  const DefaultCommandArgs: TaskCommandArgs := CommandNone
  const DefaultPlatform: PlatformType := Unknown
  const DefaultOptionsConfig: TaskOptionsConfig :=
    TaskOptionsConfig(None, None, None, None, None, None, None, None)

  /** `TaskConfig::default()`. */
  const DefaultTaskConfig: TaskConfig :=
    TaskConfig(DefaultCommandArgs, DefaultCommandArgs, [], map[], [], None, false, None,
               DefaultOptionsConfig, DefaultPlatform, None)

  datatype ValidateError = ValidateError(message: string, index: Option<nat>)

  /** The first item of `s.split(' ')`: everything before the first space. */
  function FirstSegment(s: string): (r: string)
    ensures |r| <= |s| && r == s[..|r|]
    ensures forall k :: 0 <= k < |r| ==> r[k] != ' '
    ensures |r| < |s| ==> s[|r|] == ' '
  {
    if s == [] || s[0] == ' ' then [] else [s[0]] + FirstSegment(s[1..])
  }

  /** `validate_command`: only an empty string command is an error, never an
      unset one. A string is empty when its first space-separated part is. */
  function ValidateCommand(cmd: TaskCommandArgs): (r: Result<(), ValidateError>)
    ensures r.Ok? <==> match cmd
                       case CommandNone => true
                       case CommandString(s) => s != [] && s[0] != ' '
                       case CommandSequence(items) => items != [] && items[0] != []
  {
    var empty := match cmd
      case CommandNone => false
      case CommandString(s) => FirstSegment(s) == []
      case CommandSequence(items) => items == [] || items[0] == [];
    if empty then Err(ValidateError("a command is required; use \"noop\" otherwise", None))
    else Ok(())
  }

  /** The scopes a task dependency may not use. */
  predicate UnsupportedDepScope(t: Target)
  {
    t.scope.All? || t.scope.Tag?
  }

  /** `validate_deps`: the first dependency whose scope is `:` (all) or a
      tag is reported by its index. */
  function ValidateDeps(deps: seq<Target>): (r: Result<(), ValidateError>)
    ensures r.Ok? <==> forall j :: 0 <= j < |deps| ==> !UnsupportedDepScope(deps[j])
    ensures r.Err? ==>
      (r.error.index.Some?
       && var i := r.error.index.value;
          i < |deps| && UnsupportedDepScope(deps[i])
          && forall j :: 0 <= j < i ==> !UnsupportedDepScope(deps[j]))
  {
    ValidateDepsFrom(deps, 0)
  }

  function ValidateDepsFrom(deps: seq<Target>, i: nat): (r: Result<(), ValidateError>)
    requires i <= |deps|
    requires forall j :: 0 <= j < i ==> !UnsupportedDepScope(deps[j])
    ensures r.Ok? <==> forall j :: i <= j < |deps| ==> !UnsupportedDepScope(deps[j])
    ensures r.Err? ==>
      (r.error.index.Some?
       && var k := r.error.index.value;
          i <= k < |deps| && UnsupportedDepScope(deps[k])
          && forall j :: 0 <= j < k ==> !UnsupportedDepScope(deps[j]))
    decreases |deps| - i
  {
    if i == |deps| then Ok(())
    else if UnsupportedDepScope(deps[i]) then
      Err(ValidateError("target scope not supported as a task dependency", Some(i)))
    else ValidateDepsFrom(deps, i + 1)
  }

  /** The default configuration passes command and dependency validation:
      an unset command is not an empty one. */
  lemma DefaultTaskConfigIsValid()
    ensures ValidateCommand(DefaultTaskConfig.command).Ok?
    ensures ValidateDeps(DefaultTaskConfig.deps).Ok?
    ensures DefaultTaskType == Test && DefaultCommandArgs == CommandNone
  {
  }
}
