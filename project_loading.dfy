/** The load-once and cycle-skip bookkeeping of `ProjectGraphBuilder::internal_load`
    (crates/core/project-graph/src/project_builder.rs). A graph node is
    reduced to its project id; the dependency ids `create_project` gives each
    project are an input. */
module ProjectLoading {
  import opened Common
  import opened ProjectBuilder

  /** What loading reads: the aliases, the configured project sources, and
      the dependency ids of each project (none when absent). */
  datatype Workspace = Workspace(aliases: ProjectsAliasesMap, sources: ProjectsSourcesMap, deps: map<Id, seq<Id>>)

  function DepIds(w: Workspace, id: Id): seq<Id>
  {
    if id in w.deps then w.deps[id] else []
  }

  /** The builder's graph: node weights, edges between node indices, the
      id-to-index map, and the ids whose loading is in progress. */
  datatype GraphState = GraphState(nodes: seq<Id>, edges: set<(nat, nat)>, indices: map<Id, nat>, created: set<Id>)

  const EmptyGraph := GraphState([], {}, map[], {})

  datatype Loaded = Loaded(result: Result<nat, ProjectGraphError>, state: GraphState)
  datatype DepsLoaded = DepsLoaded(result: Result<set<nat>, ProjectGraphError>, state: GraphState)

  /** The edges from a new node to the dependency nodes it collected. */
  function EdgesFrom(index: nat, deps: set<nat>): set<(nat, nat)>
  {
    set d | d in deps :: (index, d)
  }

  /** Every index names the node holding that id, every node is indexed, edges
      join existing nodes, and no project in progress is in the graph yet. */
  ghost predicate Valid(s: GraphState)
  {
    && (forall id :: id in s.indices ==> s.indices[id] < |s.nodes| && s.nodes[s.indices[id]] == id)
    && (forall i :: 0 <= i < |s.nodes| ==> s.nodes[i] in s.indices && s.indices[s.nodes[i]] == i)
    && (forall e :: e in s.edges ==> e.0 < |s.nodes| && e.1 < |s.nodes|)
    && (forall id :: id in s.created ==> id !in s.indices)
  }

  /** A project may be loaded unless it is in progress and not yet in the graph. */
  predicate Loadable(w: Workspace, s: GraphState, aliasOrId: string)
  {
    ResolveId(w.aliases, aliasOrId) in s.indices || ResolveId(w.aliases, aliasOrId) !in s.created
  }

  // ---------------------------------------------------------------------------
  // As intended: a finished project leaves `created`

  /** `internal_load` with `created` tracking exactly the projects in
      progress: a finished project removes only itself, and a dependency is
      skipped when its resolved id is in progress. */
  function Load(w: Workspace, s: GraphState, aliasOrId: string): (r: Loaded)
    requires Loadable(w, s, aliasOrId)
    ensures var id := ResolveId(w.aliases, aliasOrId);
      && (id in s.indices ==> r == Loaded(Ok(s.indices[id]), s))
      && (id !in s.indices && id !in w.sources ==> r == Loaded(Err(UnconfiguredId(id)), s))
      && (r.result.Ok? ==> id in r.state.indices && r.state.indices[id] == r.result.value)
    ensures r.result.Ok? ==> r.state.created == s.created
    ensures s.nodes <= r.state.nodes
    ensures forall id :: id in s.indices ==> id in r.state.indices && r.state.indices[id] == s.indices[id]
    decreases |w.sources.Keys - s.created|, 0
  {
    var id := ResolveId(w.aliases, aliasOrId);
    if id in s.indices then Loaded(Ok(s.indices[id]), s)
    else if id !in w.sources then Loaded(Err(UnconfiguredId(id)), s)
    else
      assert w.sources.Keys - (s.created + {id}) == (w.sources.Keys - s.created) - {id};
      var d := LoadDeps(w, s.(created := s.created + {id}), DepIds(w, id), {});
      if d.result.Err? then Loaded(Err(d.result.error), d.state)
      else
        var s2 := d.state;
        var index := |s2.nodes|;
        Loaded(Ok(index), GraphState(s2.nodes + [id], s2.edges + EdgesFrom(index, d.result.value),
                                     s2.indices[id := index], s2.created - {id}))
  }

  /** The dependency loop of `internal_load`: loads each dependency that is
      not in progress and collects the indices it returns. */
  function LoadDeps(w: Workspace, s: GraphState, ds: seq<Id>, acc: set<nat>): (r: DepsLoaded)
    ensures r.result.Ok? ==> r.state.created == s.created && acc <= r.result.value
    ensures s.nodes <= r.state.nodes
    ensures forall id :: id in s.indices ==> id in r.state.indices && r.state.indices[id] == s.indices[id]
    decreases |w.sources.Keys - s.created|, |ds| + 1
  {
    if ds == [] then DepsLoaded(Ok(acc), s)
    else if ResolveId(w.aliases, ds[0]) in s.created then LoadDeps(w, s, ds[1..], acc)
    else
      var l := Load(w, s, ds[0]);
      if l.result.Err? then DepsLoaded(Err(l.result.error), l.state)
      else LoadDeps(w, l.state, ds[1..], acc + {l.result.value})
  }

  /** Loading keeps the graph valid, so no project is ever added twice. */
  lemma {:induction false} LoadValid(w: Workspace, s: GraphState, aliasOrId: string)
    requires Valid(s) && Loadable(w, s, aliasOrId)
    ensures Valid(Load(w, s, aliasOrId).state)
    ensures Load(w, s, aliasOrId).result.Ok? ==> Load(w, s, aliasOrId).result.value < |Load(w, s, aliasOrId).state.nodes|
    decreases |w.sources.Keys - s.created|, 0
  {
    var id := ResolveId(w.aliases, aliasOrId);
    if id !in s.indices && id in w.sources {
      var s1 := s.(created := s.created + {id});
      assert w.sources.Keys - s1.created == (w.sources.Keys - s.created) - {id};
      LoadDepsValid(w, s1, DepIds(w, id), {});
      var d := LoadDeps(w, s1, DepIds(w, id), {});
      if d.result.Ok? {
        AddNodeValid(d.state, id, d.result.value);
      }
    }
  }

  /** Adding a project in progress as a new node, with edges to existing
      nodes, and ending its progress keeps the graph valid. */
  lemma AddNodeValid(s: GraphState, id: Id, deps: set<nat>)
    requires Valid(s) && id in s.created && forall d :: d in deps ==> d < |s.nodes|
    ensures Valid(GraphState(s.nodes + [id], s.edges + EdgesFrom(|s.nodes|, deps),
                             s.indices[id := |s.nodes|], s.created - {id}))
  {
    var index := |s.nodes|;
    var s2 := GraphState(s.nodes + [id], s.edges + EdgesFrom(index, deps), s.indices[id := index], s.created - {id});
    forall i | 0 <= i < |s2.nodes|
      ensures s2.nodes[i] in s2.indices && s2.indices[s2.nodes[i]] == i
    {
      if i < index {
        assert s2.nodes[i] == s.nodes[i];
      }
    }
  }

  lemma {:induction false} LoadDepsValid(w: Workspace, s: GraphState, ds: seq<Id>, acc: set<nat>)
    requires Valid(s) && forall d :: d in acc ==> d < |s.nodes|
    ensures var r := LoadDeps(w, s, ds, acc);
      Valid(r.state) && (r.result.Ok? ==> forall d :: d in r.result.value ==> d < |r.state.nodes|)
    decreases |w.sources.Keys - s.created|, 2 * |ds| + 1
  {
    if ds != [] {
      if ResolveId(w.aliases, ds[0]) in s.created {
        LoadDepsValid(w, s, ds[1..], acc);
      } else {
        LoadDepsStepValid(w, s, ds, acc);
      }
    }
  }

  /** `LoadDepsValid` for a first dependency that gets loaded. */
  lemma {:induction false} LoadDepsStepValid(w: Workspace, s: GraphState, ds: seq<Id>, acc: set<nat>)
    requires ds != [] && ResolveId(w.aliases, ds[0]) !in s.created
    requires Valid(s) && forall d :: d in acc ==> d < |s.nodes|
    ensures var r := LoadDeps(w, s, ds, acc);
      Valid(r.state) && (r.result.Ok? ==> forall d :: d in r.result.value ==> d < |r.state.nodes|)
    decreases |w.sources.Keys - s.created|, 2 * |ds|
  {
    var l := Load(w, s, ds[0]);
    LoadKeepsBounds(w, s, ds[0], acc);
    if l.result.Ok? {
      LoadDepsValid(w, l.state, ds[1..], acc + {l.result.value});
    }
  }

  /** After one load the graph is valid, the indices collected so far and
      the new one name nodes, and the set in progress is unchanged. */
  lemma LoadKeepsBounds(w: Workspace, s: GraphState, aliasOrId: string, acc: set<nat>)
    requires Valid(s) && Loadable(w, s, aliasOrId) && forall d :: d in acc ==> d < |s.nodes|
    ensures var l := Load(w, s, aliasOrId);
      && Valid(l.state)
      && (l.result.Ok? ==> l.state.created == s.created)
      && (l.result.Ok? ==> forall d :: d in acc + {l.result.value} ==> d < |l.state.nodes|)
    decreases |w.sources.Keys - s.created|, 1
  {
    LoadValid(w, s, aliasOrId);
    assert |s.nodes| <= |Load(w, s, aliasOrId).state.nodes|;
  }

  /** Loading into a valid graph never adds a project twice. */
  lemma LoadNodesDistinct(w: Workspace, s: GraphState, aliasOrId: string)
    requires Valid(s) && Loadable(w, s, aliasOrId)
    ensures Distinct(Load(w, s, aliasOrId).state.nodes)
  {
    LoadValid(w, s, aliasOrId);
  }

  /** A dependency already in progress is skipped: it adds no edge and loads nothing. */
  lemma SkippedDependency(w: Workspace, s: GraphState, ds: seq<Id>, acc: set<nat>)
    requires ds != [] && ResolveId(w.aliases, ds[0]) in s.created
    ensures LoadDeps(w, s, ds, acc) == LoadDeps(w, s, ds[1..], acc)
  {
  }

  // ---------------------------------------------------------------------------
  // As written: `created.clear()` at the end of every load

  /** `internal_load` as the source writes it: a finished project clears all
      of `created`, and the cycle check compares the unresolved dependency id.
      `fuel` bounds the recursion (none when it runs out). */
  function LoadAsWritten(w: Workspace, s: GraphState, aliasOrId: string, fuel: nat): (r: Option<Loaded>)
    ensures var id := ResolveId(w.aliases, aliasOrId);
      && (id in s.indices ==> r == Some(Loaded(Ok(s.indices[id]), s)))
      && (id !in s.indices && id !in w.sources ==> r == Some(Loaded(Err(UnconfiguredId(id)), s)))
      && (r.Some? && r.value.result.Ok? ==> id in r.value.state.indices && r.value.state.indices[id] == r.value.result.value)
      && (r.Some? && r.value.result.Ok? && id !in s.indices ==> r.value.state.created == {})
    ensures r.Some? ==> s.nodes <= r.value.state.nodes
    decreases fuel, 0
  {
    var id := ResolveId(w.aliases, aliasOrId);
    if id in s.indices then Some(Loaded(Ok(s.indices[id]), s))
    else if id !in w.sources then Some(Loaded(Err(UnconfiguredId(id)), s))
    else if fuel == 0 then None
    else
      match LoadDepsAsWritten(w, s.(created := s.created + {id}), DepIds(w, id), {}, fuel - 1)
      case None => None
      case Some(d) =>
        if d.result.Err? then Some(Loaded(Err(d.result.error), d.state))
        else
          var s2 := d.state;
          var index := |s2.nodes|;
          Some(Loaded(Ok(index), GraphState(s2.nodes + [id], s2.edges + EdgesFrom(index, d.result.value),
                                            s2.indices[id := index], {})))
  }

  /** The dependency loop as written: after any dependency that had to be
      loaded, nothing is left in progress. */
  function LoadDepsAsWritten(w: Workspace, s: GraphState, ds: seq<Id>, acc: set<nat>, fuel: nat): (r: Option<DepsLoaded>)
    ensures r.Some? && r.value.result.Ok? ==> acc <= r.value.result.value
    ensures r.Some? && r.value.result.Ok? ==> r.value.state.created == s.created || r.value.state.created == {}
    ensures r.Some? ==> s.nodes <= r.value.state.nodes
    decreases fuel, |ds| + 1
  {
    if ds == [] then Some(DepsLoaded(Ok(acc), s))
    else if ds[0] in s.created then LoadDepsAsWritten(w, s, ds[1..], acc, fuel)
    else
      match LoadAsWritten(w, s, ds[0], fuel)
      case None => None
      case Some(l) =>
        if l.result.Err? then Some(DepsLoaded(Err(l.result.error), l.state))
        else LoadDepsAsWritten(w, l.state, ds[1..], acc + {l.result.value}, fuel)
  }

  /** `l` is a successful load returning `index` and leaving state `s`. */
  ghost predicate LoadedAs(l: Option<Loaded>, index: nat, s: GraphState)
  {
    && l.Some? && l.value.result == Ok(index)
    && l.value.state.nodes == s.nodes && l.value.state.edges == s.edges
    && l.value.state.indices == s.indices && l.value.state.created == s.created
  }

  /** `l` is a successful dependency loop collecting `indices` and leaving state `s`. */
  ghost predicate DepsLoadedAs(l: Option<DepsLoaded>, indices: set<nat>, s: GraphState)
  {
    && l.Some? && l.value.result == Ok(indices)
    && l.value.state.nodes == s.nodes && l.value.state.edges == s.edges
    && l.value.state.indices == s.indices && l.value.state.created == s.created
  }

  /** Projects A, B and C where A depends on B then C, and C depends on A. */
  const CycleWorkspace := Workspace(map[], map["A" := "a", "B" := "b", "C" := "c"],
                                    map["A" := ["B", "C"], "B" := [], "C" := ["A"]])

  /** As written, loading A adds A to the graph twice: loading B clears the
      `created` mark of A, so C's dependency on A loads A again. */
  lemma AsWrittenLoadsProjectTwice()
    ensures var l := LoadAsWritten(CycleWorkspace, EmptyGraph, "A", 3);
      l.Some? && l.value.result.Ok? && l.value.state.nodes == ["B", "A", "C", "A"]
    ensures var l := LoadAsWritten(CycleWorkspace, EmptyGraph, "A", 3);
      l.Some? && !Distinct(l.value.state.nodes)
  {
    var w := CycleWorkspace;
    assert DepIds(w, "A") == ["B", "C"] && ["B", "C"][1..] == ["C"] && ["C"][1..] == [];
    var sA := GraphState([], {}, map[], {"A"});
    assert EmptyGraph.(created := EmptyGraph.created + {"A"}) == sA;
    var afterB := GraphState(["B"], {}, map["B" := 0], {});
    var afterC := GraphState(["B", "A", "C"], {(1, 0), (2, 1)}, map["B" := 0, "A" := 1, "C" := 2], {});
    AsWrittenLoadsB();
    AsWrittenLoadsC();
    // Back in the first load of A, which adds A once more.
    assert {0} + {2} == {0, 2};
    assert DepsLoadedAs(LoadDepsAsWritten(w, afterB, ["C"], {0}, 2), {0, 2}, afterC);
    assert {} + {0} == {0};
    assert DepsLoadedAs(LoadDepsAsWritten(w, sA, ["B", "C"], {}, 2), {0, 2}, afterC);
    var l := LoadAsWritten(w, EmptyGraph, "A", 3);
    assert l.Some? && l.value.state.nodes == ["B", "A", "C", "A"];
    assert l.value.state.nodes[1] == l.value.state.nodes[3];
  }

  /** As written, A is marked, then B loads and clears every mark. */
  lemma AsWrittenLoadsB()
    ensures LoadedAs(LoadAsWritten(CycleWorkspace, GraphState([], {}, map[], {"A"}), "B", 2), 0,
                     GraphState(["B"], {}, map["B" := 0], {}))
  {
    var w := CycleWorkspace;
    assert DepIds(w, "B") == [];
    var sA := GraphState([], {}, map[], {"A"});
    var sAB := GraphState([], {}, map[], {"A", "B"});
    assert sA.(created := sA.created + {"B"}) == sAB;
    assert EdgesFrom(0, {}) == {};
  }

  /** As written, C's dependency on A is neither indexed nor marked, so A
      loads a second time inside C. */
  lemma AsWrittenLoadsInnerA()
    ensures LoadedAs(LoadAsWritten(CycleWorkspace, GraphState(["B"], {}, map["B" := 0], {"C"}), "A", 1), 1,
                     GraphState(["B", "A"], {(1, 0)}, map["B" := 0, "A" := 1], {}))
  {
    var w := CycleWorkspace;
    assert DepIds(w, "A") == ["B", "C"] && ["B", "C"][1..] == ["C"] && ["C"][1..] == [];
    var sC := GraphState(["B"], {}, map["B" := 0], {"C"});
    var sCA := GraphState(["B"], {}, map["B" := 0], {"C", "A"});
    assert sC.(created := sC.created + {"A"}) == sCA;
    assert LoadedAs(LoadAsWritten(w, sCA, "B", 0), 0, sCA);
    assert DepsLoadedAs(LoadDepsAsWritten(w, sCA, ["C"], {0}, 0), {0}, sCA);
    assert {} + {0} == {0};
    assert DepsLoadedAs(LoadDepsAsWritten(w, sCA, ["B", "C"], {}, 0), {0}, sCA);
    assert EdgesFrom(1, {0}) == {(1, 0)};
    assert sCA.indices["A" := 1] == map["B" := 0, "A" := 1];
  }

  /** As written, C loads after B and pulls A in again. */
  lemma AsWrittenLoadsC()
    ensures LoadedAs(LoadAsWritten(CycleWorkspace, GraphState(["B"], {}, map["B" := 0], {}), "C", 2), 2,
                     GraphState(["B", "A", "C"], {(1, 0), (2, 1)}, map["B" := 0, "A" := 1, "C" := 2], {}))
  {
    var w := CycleWorkspace;
    assert DepIds(w, "C") == ["A"] && ["A"][1..] == [];
    var afterB := GraphState(["B"], {}, map["B" := 0], {});
    var sC := GraphState(["B"], {}, map["B" := 0], {"C"});
    assert afterB.(created := afterB.created + {"C"}) == sC;
    var afterInnerA := GraphState(["B", "A"], {(1, 0)}, map["B" := 0, "A" := 1], {});
    AsWrittenLoadsInnerA();
    assert {} + {1} == {1};
    assert DepsLoadedAs(LoadDepsAsWritten(w, sC, ["A"], {}, 1), {1}, afterInnerA);
    assert EdgesFrom(2, {1}) == {(2, 1)};
  }

  /** The same workspace loaded as intended: each project once, dependencies first. */
  lemma LoadCycleOnce()
    ensures Load(CycleWorkspace, EmptyGraph, "A").result == Ok(2)
    ensures Load(CycleWorkspace, EmptyGraph, "A").state.nodes == ["B", "C", "A"]
  {
    var w := CycleWorkspace;
    assert DepIds(w, "A") == ["B", "C"] && ["B", "C"][1..] == ["C"] && ["C"][1..] == [];
    var sA := GraphState([], {}, map[], {"A"});
    assert EmptyGraph.(created := EmptyGraph.created + {"A"}) == sA;
    var afterB := GraphState(["B"], {}, map["B" := 0], {"A"});
    var afterC := GraphState(["B", "C"], {}, map["B" := 0, "C" := 1], {"A"});
    LoadsBOnce();
    LoadsCOnce();
    assert {0} + {1} == {0, 1};
    assert DepsLoadedAs(Some(LoadDeps(w, afterB, ["C"], {0})), {0, 1}, afterC);
    assert {} + {0} == {0};
    assert DepsLoadedAs(Some(LoadDeps(w, sA, ["B", "C"], {})), {0, 1}, afterC);
  }

  /** As intended, B loads while A stays marked. */
  lemma LoadsBOnce()
    ensures LoadedAs(Some(Load(CycleWorkspace, GraphState([], {}, map[], {"A"}), "B")), 0,
                     GraphState(["B"], {}, map["B" := 0], {"A"}))
  {
    var w := CycleWorkspace;
    assert DepIds(w, "B") == [];
    var sA := GraphState([], {}, map[], {"A"});
    var sAB := GraphState([], {}, map[], {"A", "B"});
    assert sA.(created := sA.created + {"B"}) == sAB;
    assert EdgesFrom(0, {}) == {};
    assert sAB.created - {"B"} == {"A"};
  }

  /** As intended, C's dependency on A, still marked, is skipped. */
  lemma LoadsCOnce()
    ensures LoadedAs(Some(Load(CycleWorkspace, GraphState(["B"], {}, map["B" := 0], {"A"}), "C")), 1,
                     GraphState(["B", "C"], {}, map["B" := 0, "C" := 1], {"A"}))
  {
    var w := CycleWorkspace;
    assert DepIds(w, "C") == ["A"] && ["A"][1..] == [];
    var afterB := GraphState(["B"], {}, map["B" := 0], {"A"});
    var sAC := GraphState(["B"], {}, map["B" := 0], {"A", "C"});
    assert afterB.(created := afterB.created + {"C"}) == sAC;
    assert DepsLoadedAs(Some(LoadDeps(w, sAC, ["A"], {})), {}, sAC);
    assert EdgesFrom(1, {}) == {};
    assert sAC.created - {"C"} == {"A"};
  }

  /** Projects A and B where A depends on B, and B depends on A through its
      alias "a". */
  const AliasWorkspace := Workspace(map["a" := "A"], map["A" := "a", "B" := "b"],
                                    map["A" := ["B"], "B" := ["a"]])

  /** As written, loading A adds A to the graph twice: B's dependency "a" is
      not itself marked in progress, though the project it names is. No load
      finishes before the second load of A starts, so clearing `created`
      plays no part here. */
  lemma AsWrittenAliasLoadsTwice()
    ensures var l := LoadAsWritten(AliasWorkspace, EmptyGraph, "A", 3);
      l.Some? && l.value.result.Ok? && l.value.state.nodes == ["A", "B", "A"]
    ensures var l := LoadAsWritten(AliasWorkspace, EmptyGraph, "A", 3);
      l.Some? && !Distinct(l.value.state.nodes)
  {
    var w := AliasWorkspace;
    assert DepIds(w, "A") == ["B"] && ["B"][1..] == [];
    var sA := GraphState([], {}, map[], {"A"});
    assert EmptyGraph.(created := EmptyGraph.created + {"A"}) == sA;
    var afterB := GraphState(["A", "B"], {(1, 0)}, map["A" := 0, "B" := 1], {});
    AsWrittenAliasLoadsB();
    assert {} + {1} == {1};
    assert DepsLoadedAs(LoadDepsAsWritten(w, sA, ["B"], {}, 2), {1}, afterB);
    var l := LoadAsWritten(w, EmptyGraph, "A", 3);
    assert l.Some? && l.value.state.nodes == ["A", "B", "A"];
    assert l.value.state.nodes[0] == l.value.state.nodes[2];
  }

  /** As written, B's dependency "a" loads A inside B. */
  lemma AsWrittenAliasLoadsB()
    ensures LoadedAs(LoadAsWritten(AliasWorkspace, GraphState([], {}, map[], {"A"}), "B", 2), 1,
                     GraphState(["A", "B"], {(1, 0)}, map["A" := 0, "B" := 1], {}))
  {
    var w := AliasWorkspace;
    assert DepIds(w, "B") == ["a"] && ["a"][1..] == [];
    var sA := GraphState([], {}, map[], {"A"});
    var sAB := GraphState([], {}, map[], {"A", "B"});
    assert sA.(created := sA.created + {"B"}) == sAB;
    var afterInnerA := GraphState(["A"], {}, map["A" := 0], {});
    AsWrittenAliasLoadsInnerA();
    assert {} + {0} == {0};
    assert DepsLoadedAs(LoadDepsAsWritten(w, sAB, ["a"], {}, 1), {0}, afterInnerA);
    assert EdgesFrom(1, {0}) == {(1, 0)};
  }

  /** As written, "a" resolves to A, which is not in the graph yet, so A loads
      again; its own dependency B is marked and skipped. */
  lemma AsWrittenAliasLoadsInnerA()
    ensures LoadedAs(LoadAsWritten(AliasWorkspace, GraphState([], {}, map[], {"A", "B"}), "a", 1), 0,
                     GraphState(["A"], {}, map["A" := 0], {}))
  {
    var w := AliasWorkspace;
    assert DepIds(w, "A") == ["B"] && ["B"][1..] == [];
    var sAB := GraphState([], {}, map[], {"A", "B"});
    assert sAB.(created := sAB.created + {"A"}) == sAB;
    assert DepsLoadedAs(LoadDepsAsWritten(w, sAB, ["B"], {}, 0), {}, sAB);
    assert EdgesFrom(0, {}) == {};
  }

  /** The same workspace loaded as intended: "a" resolves to A, which is in
      progress, so each project is added once. */
  lemma LoadAliasOnce()
    ensures Load(AliasWorkspace, EmptyGraph, "A").result == Ok(1)
    ensures Load(AliasWorkspace, EmptyGraph, "A").state.nodes == ["B", "A"]
  {
    var w := AliasWorkspace;
    assert DepIds(w, "A") == ["B"] && ["B"][1..] == [];
    assert DepIds(w, "B") == ["a"] && ["a"][1..] == [];
    var sA := GraphState([], {}, map[], {"A"});
    assert EmptyGraph.(created := EmptyGraph.created + {"A"}) == sA;
    var sAB := GraphState([], {}, map[], {"A", "B"});
    assert sA.(created := sA.created + {"B"}) == sAB;
    assert DepsLoadedAs(Some(LoadDeps(w, sAB, ["a"], {})), {}, sAB);
    assert EdgesFrom(0, {}) == {};
    assert sAB.created - {"B"} == {"A"};
    var afterB := GraphState(["B"], {}, map["B" := 0], {"A"});
    assert LoadedAs(Some(Load(w, sA, "B")), 0, afterB);
    assert {} + {0} == {0};
    assert DepsLoadedAs(Some(LoadDeps(w, sA, ["B"], {})), {0}, afterB);
  }

  // ---------------------------------------------------------------------------
  // The builder

  class ProjectGraphBuilder {
    var aliases: ProjectsAliasesMap
    var sources: ProjectsSourcesMap
    /** The dependency ids `create_project` gives each project. */
    var dependencies: map<Id, seq<Id>>
    var nodes: seq<Id>
    var edges: set<(nat, nat)>
    var indices: map<Id, nat>
    var created: set<Id>

    function Inputs(): Workspace
      reads this
    {
      Workspace(aliases, sources, dependencies)
    }

    function State(): GraphState
      reads this
    {
      GraphState(nodes, edges, indices, created)
    }

    /** A builder between loads: a valid graph with nothing in progress. */
    ghost predicate Ready()
      reads this
    {
      Valid(State()) && created == {}
    }

    /** `new` once `preload` has found the sources and aliases. */
    constructor (aliases: ProjectsAliasesMap, sources: ProjectsSourcesMap, dependencies: map<Id, seq<Id>>)
      ensures this.aliases == aliases && this.sources == sources && this.dependencies == dependencies
      ensures State() == EmptyGraph && Ready()
    {
      this.aliases := aliases;
      this.sources := sources;
      this.dependencies := dependencies;
      nodes, edges, indices, created := [], {}, map[], {};
    }

    /** `internal_load`, with `created` restored to what it was on success
      (see `Load` for the difference from the source). */
    method InternalLoad(aliasOrId: string) returns (r: Result<nat, ProjectGraphError>)
      requires Loadable(Inputs(), State(), aliasOrId)
      modifies this`nodes, this`edges, this`indices, this`created
      ensures Loaded(r, State()) == Load(old(Inputs()), old(State()), aliasOrId)
      decreases |sources.Keys - created|, 0
    {
      var id := ResolveId(aliases, aliasOrId);
      if id in indices {
        return Ok(indices[id]);
      }
      if id !in sources {
        return Err(UnconfiguredId(id));
      }
      created := created + {id};
      assert sources.Keys - created == (sources.Keys - old(created)) - {id};
      var ds := if id in dependencies then dependencies[id] else [];
      var depIndices := LoadDependencies(ds);
      if depIndices.Err? {
        return Err(depIndices.error);
      }
      var index := |nodes|;
      nodes := nodes + [id];
      indices := indices[id := index];
      edges := edges + EdgesFrom(index, depIndices.value);
      created := created - {id};
      r := Ok(index);
    }

    /** The dependency loop of `internal_load`: a dependency in progress is
      skipped, every other one is loaded and its index collected. */
    method LoadDependencies(ds: seq<Id>) returns (r: Result<set<nat>, ProjectGraphError>)
      modifies this`nodes, this`edges, this`indices, this`created
      ensures DepsLoaded(r, State()) == LoadDeps(old(Inputs()), old(State()), ds, {})
      decreases |sources.Keys - created|, 1
    {
      var depIndices: set<nat> := {};
      var i := 0;
      while i < |ds|
        invariant 0 <= i <= |ds| && created == old(created)
        invariant LoadDeps(Inputs(), State(), ds[i..], depIndices) == LoadDeps(old(Inputs()), old(State()), ds, {})
      {
        var depId := ds[i];
        assert ds[i..][0] == depId && ds[i..][1..] == ds[i + 1..];
        if ResolveId(aliases, depId) !in created {
          var loaded := InternalLoad(depId);
          if loaded.Err? {
            return Err(loaded.error);
          }
          depIndices := depIndices + {loaded.value};
        }
        i := i + 1;
      }
      r := Ok(depIndices);
    }

    /** `load`: loads one project and its dependencies, keeping the builder ready. */
    method LoadProject(aliasOrId: string) returns (r: Result<nat, ProjectGraphError>)
      requires Ready()
      modifies this`nodes, this`edges, this`indices, this`created
      ensures Loaded(r, State()) == Load(old(Inputs()), old(State()), aliasOrId)
      ensures Valid(State()) && (r.Ok? ==> Ready())
      ensures r.Ok? ==> ResolveId(aliases, aliasOrId) in indices && indices[ResolveId(aliases, aliasOrId)] == r.value
    {
      LoadValid(Inputs(), State(), aliasOrId);
      r := InternalLoad(aliasOrId);
    }

    /** `load_all`: loads every configured project id (through `resolve_id`);
      on success each is in the graph. */
    method LoadAll() returns (r: Result<(), ProjectGraphError>)
      requires Ready()
      modifies this`nodes, this`edges, this`indices, this`created
      ensures Valid(State())
      ensures r.Ok? ==> Ready() && forall id :: id in sources ==> ResolveId(aliases, id) in indices
      ensures old(nodes) <= nodes
      ensures forall id :: id in old(indices) ==> id in indices && indices[id] == old(indices)[id]
    {
      var pending := sources.Keys;
      while pending != {}
        invariant pending <= sources.Keys && Ready()
        invariant old(nodes) <= nodes
        invariant forall id :: id in old(indices) ==> id in indices && indices[id] == old(indices)[id]
        invariant forall id :: id in sources.Keys - pending ==> ResolveId(aliases, id) in indices
        decreases pending
      {
        var id :| id in pending;
        var loaded := LoadProject(id);
        if loaded.Err? {
          return Err(loaded.error);
        }
        pending := pending - {id};
      }
      r := Ok(());
    }
  }
}
