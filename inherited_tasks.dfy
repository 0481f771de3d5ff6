/** Inherited-task lookup (nextgen/config/src/inherited_tasks_config.rs):
    which global task files apply to a project, in which order, and how the
    tasks they declare are stamped before they are merged. */
module InheritedTasks {
  import opened Common
  import opened TaskConfigs

  /** The two settings of a partial task configuration that the lookup
      touches; every other setting passes through unchanged. */
  datatype PartialTaskConfig = PartialTaskConfig(globalInputs: Option<seq<string>>, platform: Option<PlatformType>)

  /** `PartialInheritedTasksConfig`: every setting is optional. */
  datatype PartialInheritedTasksConfig = PartialInheritedTasksConfig(
    fileGroups: Option<map<Id, seq<string>>>,
    implicitDeps: Option<seq<Target>>,
    implicitInputs: Option<seq<string>>,
    tasks: Option<map<Id, PartialTaskConfig>>)

  /** `PartialInheritedTasksConfig::default()`. */
  const EmptyPartialConfig := PartialInheritedTasksConfig(None, None, None, None)

  /** `consts::CONFIG_TASKS_FILENAME`, the workspace-wide tasks file. */
  const ConfigTasksFileName := "tasks.yml"

  /** `merge_fxhashmap`: every entry of `next` is inserted into `prev`. */
  method MergeFxHashMap<K, V>(prev: map<K, V>, next: map<K, V>) returns (r: map<K, V>)
    ensures r.Keys == prev.Keys + next.Keys
    ensures forall k :: k in next ==> r[k] == next[k]
    ensures forall k :: k in prev && k !in next ==> r[k] == prev[k]
    ensures r == prev + next
  {
    r := prev;
    var pending := next.Keys;
    while pending != {}
      invariant pending <= next.Keys
      invariant r.Keys == prev.Keys + (next.Keys - pending)
      invariant forall k :: k in next && k !in pending ==> r[k] == next[k]
      invariant forall k :: k in prev && k !in next.Keys - pending ==> r[k] == prev[k]
      decreases pending
    {
      var k :| k in pending;
      r := r[k := next[k]];
      pending := pending - {k};
    }
  }

  /** `is_js_platform`. */
  function IsJsPlatform(platform: PlatformType): (r: bool)
    ensures r <==> platform == Deno || platform == Node
  {
    platform.Deno? || platform.Node?
  }

  /** The `Display` form of a platform, as it appears in lookup names. */
  function PlatformName(platform: PlatformType): string
  {
    match platform
    case Deno => "deno"
    case Node => "node"
    case Rust => "rust"
    case System => "system"
    case Unknown => "unknown"
  }

  /** `Path::file_name` with `unwrap_or_default`: the last component, or the
      empty name for an empty path or one ending in `..`. */
  function FileName(path: Path): (r: string)
    ensures r != [] ==> path != [] && r == path[|path| - 1]
    ensures path != [] && path[|path| - 1] != ".." ==> r == path[|path| - 1]
    ensures path == [] || path[|path| - 1] == ".." ==> r == ""
  {
    if path == [] || path[|path| - 1] == ".." then "" else path[|path| - 1]
  }

  predicate HasYmlSuffix(name: string)
  {
    |name| >= 4 && name[|name| - 4..] == ".yml"
  }

  /** The key `add_config` stores a file under. */
  function ConfigKey(name: string): (r: string)
    ensures name == ConfigTasksFileName ==> r == "*"
    ensures name != ConfigTasksFileName && HasYmlSuffix(name) ==> r + ".yml" == name
    ensures !HasYmlSuffix(name) ==> r == name
  {
    if name == ConfigTasksFileName then "*"
    else if HasYmlSuffix(name) then name[..|name| - 4]
    else name
  }

  /** The file of a lookup name is stored under that name; the workspace-wide
      file is stored under `*`. */
  lemma ConfigKeyOfLookupFile(lookup: string)
    ensures ConfigKey(lookup + ".yml") == if lookup == "tasks" then "*" else lookup
  {
    var name := lookup + ".yml";
    assert name[|name| - 4..] == ".yml" && name[..|name| - 4] == lookup;
    if lookup == "tasks" {
      assert name == ConfigTasksFileName;
    }
  }

  /** The tag lookups, `tag-{tag}` for each tag in order. */
  function TagLookups(tags: seq<Id>): (r: seq<string>)
    ensures |r| == |tags| && forall i :: 0 <= i < |tags| ==> r[i] == "tag-" + tags[i]
  {
    seq(|tags|, i requires 0 <= i < |tags| => "tag-" + tags[i])
  }

  /** The lookups before the tags: `*`, then (for Deno and Node only) the
      platform, the language, (Deno and Node only) `{platform}-{project}`,
      and `{language}-{project}`. */
  function BaseLookups(platform: PlatformType, language: string, project: string): seq<string>
  {
    ["*"] + (if IsJsPlatform(platform) then [PlatformName(platform)] else [])
    + [language]
    + (if IsJsPlatform(platform) then [PlatformName(platform) + "-" + project] else [])
    + [language + "-" + project]
  }

  /** The lookup order `get_lookup_order` returns. `language` and `project`
      are the display forms of the language and project types. */
  function LookupOrder(platform: PlatformType, language: string, project: string, tags: seq<Id>): (r: seq<string>)
    ensures |r| == 3 + |tags| + (if IsJsPlatform(platform) then 2 else 0)
    ensures r[0] == "*"
    ensures language in r && language + "-" + project in r
    ensures IsJsPlatform(platform) ==>
      (r[1] == PlatformName(platform) && r[2] == language
       && r[3] == PlatformName(platform) + "-" + project && r[4] == language + "-" + project)
    ensures !IsJsPlatform(platform) ==> r[1] == language && r[2] == language + "-" + project
    ensures r[|r| - |tags|..] == TagLookups(tags)
  {
    BaseLookups(platform, language, project) + TagLookups(tags)
  }

  /** A platform lookup appears only for Deno and Node: for any other
      platform every lookup is `*`, language-based or a tag. */
  lemma NonJsLookups(platform: PlatformType, language: string, project: string, tags: seq<Id>)
    requires !IsJsPlatform(platform)
    ensures forall l :: l in LookupOrder(platform, language, project, tags) ==>
      l == "*" || l == language || l == language + "-" + project || exists t :: t in tags && l == "tag-" + t
  {
    var r := LookupOrder(platform, language, project, tags);
    forall l | l in r
      ensures l == "*" || l == language || l == language + "-" + project || exists t :: t in tags && l == "tag-" + t
    {
      var i :| 0 <= i < |r| && r[i] == l;
      if i >= 3 {
        assert r[3..] == TagLookups(tags);
        assert l == TagLookups(tags)[i - 3];
        assert tags[i - 3] in tags;
      }
    }
  }

  /** The workspace-relative file of a lookup, added to each of its tasks. */
  function GlobalLookupInput(lookup: string): string
  {
    "/.moon/tasks/" + lookup + ".yml"
  }

  /** Stamps one task of a looked-up config: its file becomes a global input
      and an unknown platform becomes the project's platform. */
  function StampTask(task: PartialTaskConfig, lookup: string, platform: PlatformType): (r: PartialTaskConfig)
    ensures r.globalInputs.Some?
    ensures var prev := if task.globalInputs.Some? then task.globalInputs.value else [];
      r.globalInputs.value == prev + [GlobalLookupInput(lookup)]
    ensures r.platform != task.platform ==> (task.platform.None? || task.platform.value.IsUnknown()) && r.platform == Some(platform)
    ensures task.platform.Some? && !task.platform.value.IsUnknown() ==> r.platform == task.platform
    ensures platform != Unknown ==> r.platform.Some? && !r.platform.value.IsUnknown()
  {
    var inputs := if task.globalInputs.Some? then task.globalInputs.value + [GlobalLookupInput(lookup)]
                  else [GlobalLookupInput(lookup)];
    var known := if task.platform.Some? then task.platform.value else DefaultPlatform;
    PartialTaskConfig(Some(inputs), if known.IsUnknown() then Some(platform) else task.platform)
  }

  /** Every task of a map stamped for one lookup. */
  function StampedTasks(tasks: map<Id, PartialTaskConfig>, lookup: string, platform: PlatformType): (r: map<Id, PartialTaskConfig>)
    ensures r.Keys == tasks.Keys
  {
    map id | id in tasks :: StampTask(tasks[id], lookup, platform)
  }

  /** The looked-up config as it is merged: the `*` config is taken as it is,
      any other has each of its tasks stamped. */
  function Stamped(config: PartialInheritedTasksConfig, lookup: string, platform: PlatformType): (r: PartialInheritedTasksConfig)
    ensures lookup == "*" ==> r == config
    ensures r.fileGroups == config.fileGroups && r.implicitDeps == config.implicitDeps
      && r.implicitInputs == config.implicitInputs
    ensures r.tasks.Some? <==> config.tasks.Some?
    ensures lookup != "*" && config.tasks.Some? ==>
      forall id :: id in config.tasks.value ==>
        id in r.tasks.value && r.tasks.value[id].globalInputs.Some? && GlobalLookupInput(lookup) in r.tasks.value[id].globalInputs.value
  {
    if lookup == "*" || config.tasks.None? then config
    else config.(tasks := Some(StampedTasks(config.tasks.value, lookup, platform)))
  }

  /** The loop of `get_inherited_config`: each lookup with a registered
      config is stamped and merged into `acc` by `merge` (schematic's
      `PartialConfig::merge`); the first merge error ends the loop. */
  function MergeLookups(configs: map<string, PartialInheritedTasksConfig>, lookups: seq<string>, platform: PlatformType,
                        merge: (PartialInheritedTasksConfig, PartialInheritedTasksConfig) -> Result<PartialInheritedTasksConfig, string>,
                        acc: PartialInheritedTasksConfig): Result<PartialInheritedTasksConfig, string>
    decreases |lookups|
  {
    if lookups == [] then Ok(acc)
    else if lookups[0] !in configs then MergeLookups(configs, lookups[1..], platform, merge, acc)
    else match merge(acc, Stamped(configs[lookups[0]], lookups[0], platform))
      case Err(e) => Err(e)
      case Ok(next) => MergeLookups(configs, lookups[1..], platform, merge, next)
  }

  /** The configs that take part, in lookup order, already stamped. */
  function Present(configs: map<string, PartialInheritedTasksConfig>, lookups: seq<string>, platform: PlatformType): (r: seq<PartialInheritedTasksConfig>)
    ensures |r| <= |lookups|
    ensures forall k :: 0 <= k < |r| ==>
      exists i :: 0 <= i < |lookups| && lookups[i] in configs && r[k] == Stamped(configs[lookups[i]], lookups[i], platform)
    ensures (forall i :: 0 <= i < |lookups| ==> lookups[i] !in configs) ==> r == []
  {
    if lookups == [] then []
    else if lookups[0] in configs then [Stamped(configs[lookups[0]], lookups[0], platform)] + Present(configs, lookups[1..], platform)
    else Present(configs, lookups[1..], platform)
  }

  /** A left fold of `merge` over a list of configs, stopping at the first error. */
  function MergeAll(acc: PartialInheritedTasksConfig, cs: seq<PartialInheritedTasksConfig>,
                    merge: (PartialInheritedTasksConfig, PartialInheritedTasksConfig) -> Result<PartialInheritedTasksConfig, string>): Result<PartialInheritedTasksConfig, string>
    decreases |cs|
  {
    if cs == [] then Ok(acc)
    else match merge(acc, cs[0])
      case Err(e) => Err(e)
      case Ok(next) => MergeAll(next, cs[1..], merge)
  }

  /** Configs are merged in lookup order and lookups without a config are
      skipped: the loop is the fold of `merge` over the present configs. */
  lemma {:induction false} MergeLookupsInOrder(configs: map<string, PartialInheritedTasksConfig>, lookups: seq<string>, platform: PlatformType,
                                               merge: (PartialInheritedTasksConfig, PartialInheritedTasksConfig) -> Result<PartialInheritedTasksConfig, string>,
                                               acc: PartialInheritedTasksConfig)
    ensures MergeLookups(configs, lookups, platform, merge, acc) == MergeAll(acc, Present(configs, lookups, platform), merge)
  {
    if lookups != [] {
      if lookups[0] !in configs {
        MergeLookupsInOrder(configs, lookups[1..], platform, merge, acc);
      } else {
        var c := Stamped(configs[lookups[0]], lookups[0], platform);
        var rest := Present(configs, lookups[1..], platform);
        assert Present(configs, lookups, platform) == [c] + rest;
        assert ([c] + rest)[0] == c && ([c] + rest)[1..] == rest;
        match merge(acc, c)
        case Err(e) =>
        case Ok(next) => MergeLookupsInOrder(configs, lookups[1..], platform, merge, next);
      }
    }
  }

  /** With no registered config for any lookup, the result is the starting config. */
  lemma {:induction false} NoConfigsMergeNothing(configs: map<string, PartialInheritedTasksConfig>, lookups: seq<string>, platform: PlatformType,
                                                 merge: (PartialInheritedTasksConfig, PartialInheritedTasksConfig) -> Result<PartialInheritedTasksConfig, string>,
                                                 acc: PartialInheritedTasksConfig)
    requires forall l :: l in lookups ==> l !in configs
    ensures MergeLookups(configs, lookups, platform, merge, acc) == Ok(acc)
  {
    if lookups != [] {
      assert lookups[0] in lookups;
      forall l | l in lookups[1..] ensures l !in configs {
        assert l in lookups;
      }
      NoConfigsMergeNothing(configs, lookups[1..], platform, merge, acc);
    }
  }

  /** `InheritedTasksManager`: the registered global task configs by key. */
  class InheritedTasksManager {
    var configs: map<string, PartialInheritedTasksConfig>

    /** `InheritedTasksManager::default()`. */
    constructor ()
      ensures configs == map[]
    {
      configs := map[];
    }

    /** `add_config`: stores `config` under the key named by the file,
      replacing any config stored there before. */
    method AddConfig(path: Path, config: PartialInheritedTasksConfig)
      modifies this
      ensures configs == old(configs)[ConfigKey(FileName(path)) := config]
    {
      configs := configs[ConfigKey(FileName(path)) := config];
    }

    /** `get_lookup_order`. */
    method GetLookupOrder(platform: PlatformType, language: string, project: string, tags: seq<Id>) returns (lookup: seq<string>)
      ensures lookup == LookupOrder(platform, language, project, tags)
    {
      lookup := ["*"];
      if IsJsPlatform(platform) {
        lookup := lookup + [PlatformName(platform)];
      }
      lookup := lookup + [language];
      if IsJsPlatform(platform) {
        lookup := lookup + [PlatformName(platform) + "-" + project];
      }
      lookup := lookup + [language + "-" + project];
      ghost var base := lookup;
      assert base == BaseLookups(platform, language, project);
      var i := 0;
      while i < |tags|
        invariant 0 <= i <= |tags|
        invariant lookup == base + TagLookups(tags[..i])
      {
        assert TagLookups(tags[..i + 1]) == TagLookups(tags[..i]) + ["tag-" + tags[i]];
        lookup := lookup + ["tag-" + tags[i]];
        i := i + 1;
      }
      assert tags[..i] == tags;
    }

    /** Stamps every task of a looked-up config for `lookup`. */
    method StampTasks(tasks: map<Id, PartialTaskConfig>, lookup: string, platform: PlatformType) returns (r: map<Id, PartialTaskConfig>)
      ensures r == StampedTasks(tasks, lookup, platform)
    {
      r := tasks;
      var pending := tasks.Keys;
      while pending != {}
        invariant pending <= tasks.Keys && r.Keys == tasks.Keys
        invariant forall id :: id in tasks && id !in pending ==> r[id] == StampTask(tasks[id], lookup, platform)
        invariant forall id :: id in pending ==> r[id] == tasks[id]
        decreases pending
      {
        var id :| id in pending;
        r := r[id := StampTask(r[id], lookup, platform)];
        pending := pending - {id};
      }
    }

    /** The stamping of one looked-up config in `get_inherited_config`. */
    method StampConfig(config: PartialInheritedTasksConfig, lookup: string, platform: PlatformType)
      returns (managed: PartialInheritedTasksConfig)
      ensures managed == Stamped(config, lookup, platform)
    {
      managed := config;
      if lookup != "*" && managed.tasks.Some? {
        var tasks := StampTasks(managed.tasks.value, lookup, platform);
        managed := managed.(tasks := Some(tasks));
      }
    }

    /** `get_inherited_config` up to schematic's `finalize` and `validate`:
      the registered configs of the lookup order, stamped and merged in
      that order into the default config. */
    method GetInheritedConfig(platform: PlatformType, language: string, project: string, tags: seq<Id>,
                              merge: (PartialInheritedTasksConfig, PartialInheritedTasksConfig) -> Result<PartialInheritedTasksConfig, string>)
      returns (r: Result<PartialInheritedTasksConfig, string>)
      ensures r == MergeAll(EmptyPartialConfig, Present(configs, LookupOrder(platform, language, project, tags), platform), merge)
    {
      var lookups := GetLookupOrder(platform, language, project, tags);
      r := MergeInOrder(lookups, platform, merge);
      MergeLookupsInOrder(configs, lookups, platform, merge, EmptyPartialConfig);
    }

    /** The loop of `get_inherited_config` over a lookup order. */
    method MergeInOrder(lookups: seq<string>, platform: PlatformType,
                        merge: (PartialInheritedTasksConfig, PartialInheritedTasksConfig) -> Result<PartialInheritedTasksConfig, string>)
      returns (r: Result<PartialInheritedTasksConfig, string>)
      ensures r == MergeLookups(configs, lookups, platform, merge, EmptyPartialConfig)
    {
      var config := EmptyPartialConfig;
      var i := 0;
      while i < |lookups|
        invariant 0 <= i <= |lookups|
        invariant MergeLookups(configs, lookups[i..], platform, merge, config)
               == MergeLookups(configs, lookups, platform, merge, EmptyPartialConfig)
      {
        var lookup := lookups[i];
        assert lookups[i..][0] == lookup && lookups[i..][1..] == lookups[i + 1..];
        if lookup in configs {
          var managed := StampConfig(configs[lookup], lookup, platform);
          var merged := merge(config, managed);
          if merged.Err? {
            return Err(merged.error);
          }
          config := merged.value;
        }
        i := i + 1;
      }
      r := Ok(config);
    }
  }
}
