/** Shared vocabulary of the model: optional values, results, identifiers,
    targets and file paths. */
module Common {

  datatype Option<+T> = None | Some(value: T)

  datatype Result<+T, +E> = Ok(value: T) | Err(error: E)

  /** Project and task identifiers (`moon_common::Id`) are plain strings. */
  type Id = string

  /** A file path as its list of components; `Path::starts_with` and
      `Path::strip_prefix` compare whole components, not characters. */
  type Path = seq<string>

  /** The scope part of a `moon_target::Target` (`:task`, `^:task`, `~:task`,
      `project:task`, `#tag:task`). */
  datatype TargetScope = All | Deps | OwnSelf | Project(projectId: Id) | Tag(tag: Id)

  datatype Target = Target(scope: TargetScope, taskId: Id)

  /** `Target::new(project, task)`. */
  function NewTarget(projectId: Id, taskId: Id): (t: Target)
    ensures t.scope == Project(projectId) && t.taskId == taskId
  {
    Target(Project(projectId), taskId)
  }

  /** True iff `needle` occurs as a contiguous part of `hay` (Rust's `str::contains`). */
  predicate ContainsSub(hay: string, needle: string)
    decreases |hay|
  {
    (|needle| <= |hay| && hay[..|needle|] == needle)
    || (hay != [] && ContainsSub(hay[1..], needle))
  }

  /** The strictly-increasing-position view of "no element occurs twice". */
  predicate Distinct<T(==)>(s: seq<T>)
  {
    forall i, j :: 0 <= i < j < |s| ==> s[i] != s[j]
  }
}
