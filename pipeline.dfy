/** Result tallying of the action pipeline (crates/core/action-pipeline/src/pipeline.rs):
    the counters of `run`, the failed flag of `render_results` and the
    statistics of `render_stats`. Actions are reduced to their label,
    status and error. */
module Pipeline {
  import opened Common

  /** `moon_action::ActionStatus`. */
  datatype ActionStatus = Cached | CachedFromRemote | Failed | FailedAndAbort | Invalid | Passed | Running | Skipped

  /** An action as the tallying sees it: its label, status and error. */
  datatype Action = Action(labelText: string, status: ActionStatus, error: Option<string>)

  const CachedStatuses: set<ActionStatus> := {Cached, CachedFromRemote}
  const PassStatuses: set<ActionStatus> := {Cached, CachedFromRemote, Passed, Skipped}
  const FailStatuses: set<ActionStatus> := {Failed, FailedAndAbort}
  const InvalidStatuses: set<ActionStatus> := {Invalid}

  /** `Action::has_failed`. */
  predicate HasFailed(a: Action) { a.status in FailStatuses }

  /** `Action::was_cached`. */
  predicate WasCached(a: Action) { a.status in CachedStatuses }

  /** `Action::should_abort`. */
  predicate ShouldAbort(a: Action) { a.status == FailedAndAbort }

  // ---------------------------------------------------------------------------
  // render_stats

  /** In compact mode only task runs are counted. */
  predicate Counted(a: Action, compact: bool)
  {
    !compact || ContainsSub(a.labelText, "RunTarget") || ContainsSub(a.labelText, "RunPersistentTarget")
  }

  /** How many counted results have a status in `statuses`. */
  function Count(results: seq<Action>, compact: bool, statuses: set<ActionStatus>): nat
  {
    if results == [] then 0
    else
      var a := results[|results| - 1];
      Count(results[..|results| - 1], compact, statuses) + (if Counted(a, compact) && a.status in statuses then 1 else 0)
  }

  lemma {:induction false} CountBounded(results: seq<Action>, compact: bool, statuses: set<ActionStatus>)
    ensures Count(results, compact, statuses) <= |results|
  {
    if results != [] {
      CountBounded(results[..|results| - 1], compact, statuses);
    }
  }

  /** A count is zero exactly when no counted result has such a status. */
  lemma {:induction false} CountZero(results: seq<Action>, compact: bool, statuses: set<ActionStatus>)
    ensures Count(results, compact, statuses) == 0 <==>
      forall i :: 0 <= i < |results| && Counted(results[i], compact) ==> results[i].status !in statuses
  {
    if results != [] {
      var init := results[..|results| - 1];
      CountZero(init, compact, statuses);
      assert forall i :: 0 <= i < |init| ==> init[i] == results[i];
    }
  }

  /** Counting over more statuses counts no fewer results. */
  lemma {:induction false} CountMonotone(results: seq<Action>, compact: bool, s: set<ActionStatus>, t: set<ActionStatus>)
    requires s <= t
    ensures Count(results, compact, s) <= Count(results, compact, t)
  {
    if results != [] {
      CountMonotone(results[..|results| - 1], compact, s, t);
    }
  }

  /** Counts over disjoint status sets add up. */
  lemma {:induction false} CountUnion(results: seq<Action>, compact: bool, s: set<ActionStatus>, t: set<ActionStatus>)
    requires s !! t
    ensures Count(results, compact, s + t) == Count(results, compact, s) + Count(results, compact, t)
  {
    if results != [] {
      CountUnion(results[..|results| - 1], compact, s, t);
    }
  }

  datatype Stats = Stats(cached: nat, pass: nat, fail: nat, invalid: nat)

  /** The statistics of a list of results. */
  function Tally(results: seq<Action>, compact: bool): Stats
  {
    Stats(Count(results, compact, CachedStatuses), Count(results, compact, PassStatuses),
          Count(results, compact, FailStatuses), Count(results, compact, InvalidStatuses))
  }

  /** Cached results also count as passed, and no result is counted twice
      among passed, failed and invalid. */
  lemma TallyBounds(results: seq<Action>, compact: bool)
    ensures Tally(results, compact).cached <= Tally(results, compact).pass
    ensures var t := Tally(results, compact); t.pass + t.fail + t.invalid <= |results|
  {
    CountMonotone(results, compact, CachedStatuses, PassStatuses);
    CountUnion(results, compact, PassStatuses, FailStatuses);
    CountUnion(results, compact, PassStatuses + FailStatuses, InvalidStatuses);
    CountBounded(results, compact, PassStatuses + FailStatuses + InvalidStatuses);
  }

  /** In compact mode a result that is not a task run changes no count. */
  lemma UncountedIgnored(results: seq<Action>, a: Action)
    requires !Counted(a, true)
    ensures Tally(results + [a], true) == Tally(results, true)
  {
    assert (results + [a])[..|results|] == results;
  }

  function DigitChar(d: nat): char
    requires d < 10
  {
    "0123456789"[d]
  }

  /** The decimal form of a count. */
  function NatToString(n: nat): (r: string)
    ensures r != []
    decreases n
  {
    if n < 10 then [DigitChar(n)] else NatToString(n / 10) + [DigitChar(n % 10)]
  }

  /** The entries of the counts message (colours left out). */
  function CountsMessage(s: Stats): seq<string>
  {
    (if s.pass > 0 then
       if s.cached > 0 then [NatToString(s.pass) + " completed (" + NatToString(s.cached) + " cached)"]
       else [NatToString(s.pass) + " completed"]
     else [])
    + (if s.fail > 0 then [NatToString(s.fail) + " failed"] else [])
    + (if s.invalid > 0 then [NatToString(s.invalid) + " invalid"] else [])
  }

  function Indicator(b: bool): nat { if b then 1 else 0 }

  /** One entry per non-zero count among passed, failed and invalid, in that order. */
  lemma CountsMessageShape(s: Stats)
    ensures var m := CountsMessage(s);
      && |m| == Indicator(s.pass > 0) + Indicator(s.fail > 0) + Indicator(s.invalid > 0)
      && (s.fail > 0 ==> m[Indicator(s.pass > 0)] == NatToString(s.fail) + " failed")
      && (s.invalid > 0 ==> m[|m| - 1] == NatToString(s.invalid) + " invalid")
  {
  }

  /** The "to the moon" label: everything that passed was cached and nothing failed. */
  predicate ToTheMoon(s: Stats)
  {
    s.pass == s.cached && s.fail == 0
  }

  /** The label is shown exactly when no counted result passed without the
      cache, was skipped, or failed. */
  lemma ToTheMoonMeansAllCached(results: seq<Action>, compact: bool)
    ensures ToTheMoon(Tally(results, compact)) <==>
      forall i :: 0 <= i < |results| && Counted(results[i], compact) ==>
        results[i].status !in {Passed, Skipped, Failed, FailedAndAbort}
  {
    var others := {Passed, Skipped};
    assert PassStatuses == CachedStatuses + others;
    CountUnion(results, compact, CachedStatuses, others);
    CountUnion(results, compact, others, FailStatuses);
    CountZero(results, compact, others + FailStatuses);
    assert others + FailStatuses == {Passed, Skipped, Failed, FailedAndAbort};
  }

  /** `render_stats` without the terminal: the four counters, the entries of
      the counts message, and whether the "to the moon" label is added. */
  method RenderStats(results: seq<Action>, compact: bool) returns (stats: Stats, counts: seq<string>, toTheMoon: bool)
    ensures stats == Tally(results, compact)
    ensures counts == CountsMessage(stats)
    ensures toTheMoon <==> ToTheMoon(stats)
  {
    var cachedCount, passCount, failCount, invalidCount := 0, 0, 0, 0;
    var i := 0;
    while i < |results|
      invariant 0 <= i <= |results|
      invariant Tally(results[..i], compact) == Stats(cachedCount, passCount, failCount, invalidCount)
    {
      var result := results[i];
      assert results[..i + 1][..i] == results[..i];
      if compact && !ContainsSub(result.labelText, "RunTarget") && !ContainsSub(result.labelText, "RunPersistentTarget") {
        i := i + 1;
        continue;
      }
      match result.status {
        case Cached | CachedFromRemote =>
          cachedCount := cachedCount + 1;
          passCount := passCount + 1;
        case Passed | Skipped =>
          passCount := passCount + 1;
        case Failed | FailedAndAbort =>
          failCount := failCount + 1;
        case Invalid =>
          invalidCount := invalidCount + 1;
        case _ =>
      }
      i := i + 1;
    }
    assert results[..i] == results;
    stats := Stats(cachedCount, passCount, failCount, invalidCount);
    counts := [];
    if passCount > 0 {
      if cachedCount > 0 {
        counts := counts + [NatToString(passCount) + " completed (" + NatToString(cachedCount) + " cached)"];
      } else {
        counts := counts + [NatToString(passCount) + " completed"];
      }
    }
    if failCount > 0 {
      counts := counts + [NatToString(failCount) + " failed"];
    }
    if invalidCount > 0 {
      counts := counts + [NatToString(invalidCount) + " invalid"];
    }
    toTheMoon := passCount == cachedCount && failCount == 0;
  }

  // ---------------------------------------------------------------------------
  // render_results

  /** `render_results` without the terminal: whether some result failed. */
  method RenderResults(results: seq<Action>) returns (failed: bool)
    ensures failed <==> exists i :: 0 <= i < |results| && HasFailed(results[i])
  {
    failed := false;
    for i := 0 to |results|
      invariant failed <==> exists j :: 0 <= j < i && HasFailed(results[j])
    {
      if results[i].status == Failed || results[i].status == FailedAndAbort {
        failed := true;
      }
    }
  }

  /** The failed flag agrees with the failed count of the full statistics. */
  lemma RenderResultsAgreesWithStats(results: seq<Action>)
    ensures (exists i :: 0 <= i < |results| && HasFailed(results[i])) <==> Tally(results, false).fail > 0
  {
    CountZero(results, false, FailStatuses);
  }

  // ---------------------------------------------------------------------------
  // run

  /** How one spawned action ended: with its action, with a processing
      error, or without a result (a panicked or cancelled task). */
  datatype Outcome = Completed(action: Action) | ProcessError(message: string) | Lost

  /** What `run` accumulates across batches. */
  datatype RunState = RunState(results: seq<Action>, passed: nat, cached: nat, failed: nat)

  const StartState := RunState([], 0, 0, 0)

  /** The error message an aborting action leaves. */
  function AbortMessage(a: Action): string
  {
    if a.error.Some? then a.error.value else "Unknown error!"
  }

  /** Whether a completed action stops the pipeline. */
  predicate Aborts(a: Action, bail: bool)
  {
    (bail && HasFailed(a)) || ShouldAbort(a)
  }

  /** Counts one completed action: a failure as failed, else a cache hit as
      cached, else as passed. */
  function CountAction(st: RunState, a: Action): (r: RunState)
    ensures r.results == st.results
    ensures r.failed == st.failed + Indicator(HasFailed(a))
    ensures r.cached == st.cached + Indicator(!HasFailed(a) && WasCached(a))
    ensures r.passed == st.passed + Indicator(!HasFailed(a) && !WasCached(a))
    ensures r.passed + r.cached + r.failed == st.passed + st.cached + st.failed + 1
  {
    if HasFailed(a) then st.(failed := st.failed + 1)
    else if WasCached(a) then st.(cached := st.cached + 1)
    else st.(passed := st.passed + 1)
  }

  /** The wait loop of one batch: outcomes are taken in order until one
      aborts; the abort error, if any, is returned beside the state. */
  function Collect(st: RunState, outcomes: seq<Outcome>, bail: bool): (RunState, Option<string>)
    decreases |outcomes|
  {
    if outcomes == [] then (st, None)
    else match outcomes[0]
      case Completed(a) =>
        var counted := CountAction(st, a);
        if Aborts(a, bail) then (counted, Some(AbortMessage(a)))
        else Collect(counted.(results := counted.results + [a]), outcomes[1..], bail)
      case ProcessError(m) => (st, Some(m))
      case Lost => (st, Some("Unknown error!"))
  }

  /** Whether an outcome ends its batch: an action that aborts, a processing
      error, or a lost task. */
  predicate Stops(o: Outcome, bail: bool)
  {
    !o.Completed? || Aborts(o.action, bail)
  }

  /** The error message a stopping outcome leaves. */
  function StopMessage(o: Outcome): string
  {
    match o
    case Completed(a) => AbortMessage(a)
    case ProcessError(m) => m
    case Lost => "Unknown error!"
  }

  /** A batch aborts exactly when one of its outcomes stops it, and then with
      the message of the first such outcome. */
  lemma {:induction false} CollectStopsAtFirst(st: RunState, outcomes: seq<Outcome>, bail: bool)
    ensures var abort := Collect(st, outcomes, bail).1;
      abort.Some? <==> exists i :: 0 <= i < |outcomes| && Stops(outcomes[i], bail)
    ensures var abort := Collect(st, outcomes, bail).1;
      abort.Some? ==> exists i :: 0 <= i < |outcomes| && Stops(outcomes[i], bail) && abort.value == StopMessage(outcomes[i])
                                 && (forall j :: 0 <= j < i ==> !Stops(outcomes[j], bail))
    decreases |outcomes|
  {
    if outcomes != [] && !Stops(outcomes[0], bail) {
      var a := outcomes[0].action;
      var counted := CountAction(st, a);
      var rest := outcomes[1..];
      CollectStopsAtFirst(counted.(results := counted.results + [a]), rest, bail);
      assert forall i :: 0 <= i < |rest| ==> rest[i] == outcomes[i + 1];
      if Collect(st, outcomes, bail).1.Some? {
        var i :| 0 <= i < |rest| && Stops(rest[i], bail) && Collect(st, outcomes, bail).1.value == StopMessage(rest[i])
          && forall j :: 0 <= j < i ==> !Stops(rest[j], bail);
        assert forall j :: 0 <= j < i + 1 ==> !Stops(outcomes[j], bail) by {
          forall j | 0 <= j < i + 1 ensures !Stops(outcomes[j], bail) {
            if j > 0 { assert outcomes[j] == rest[j - 1]; }
          }
        }
        assert Stops(outcomes[i + 1], bail);
      } else {
        forall i | 0 <= i < |outcomes| ensures !Stops(outcomes[i], bail) {
          if i > 0 { assert outcomes[i] == rest[i - 1]; }
        }
      }
    }
  }

  /** The batches of `run`: the first batch that aborts ends the run with its error. */
  function RunBatches(st: RunState, batches: seq<seq<Outcome>>, bail: bool): Result<RunState, string>
    decreases |batches|
  {
    if batches == [] then Ok(st)
    else
      var (next, abort) := Collect(st, batches[0], bail);
      if abort.Some? then Err(abort.value) else RunBatches(next, batches[1..], bail)
  }

  /** Every kept result is allowed through: none should abort, and with
      `bail` none failed. Each counted action is either kept or aborts the batch. */
  lemma {:induction false} CollectKeeps(st: RunState, outcomes: seq<Outcome>, bail: bool)
    requires st.passed + st.cached + st.failed == |st.results|
    requires forall a :: a in st.results ==> !Aborts(a, bail)
    ensures var (next, abort) := Collect(st, outcomes, bail);
      && (forall a :: a in next.results ==> !Aborts(a, bail))
      && (abort.None? ==> next.passed + next.cached + next.failed == |next.results|)
      && st.results <= next.results
    decreases |outcomes|
  {
    if outcomes != [] && outcomes[0].Completed? {
      var a := outcomes[0].action;
      var counted := CountAction(st, a);
      if !Aborts(a, bail) {
        CollectKeeps(counted.(results := counted.results + [a]), outcomes[1..], bail);
      }
    }
  }

  /** A run that finishes keeps only allowed results, and counted exactly
      the actions it kept. */
  lemma {:induction false} RunKeepsAllowed(st: RunState, batches: seq<seq<Outcome>>, bail: bool)
    requires st.passed + st.cached + st.failed == |st.results|
    requires forall a :: a in st.results ==> !Aborts(a, bail)
    ensures var r := RunBatches(st, batches, bail);
      r.Ok? ==>
        && (forall a :: a in r.value.results ==> !Aborts(a, bail))
        && r.value.passed + r.value.cached + r.value.failed == |r.value.results|
    decreases |batches|
  {
    if batches != [] {
      CollectKeeps(st, batches[0], bail);
      var (next, abort) := Collect(st, batches[0], bail);
      if abort.None? {
        RunKeepsAllowed(next, batches[1..], bail);
      }
    }
  }

  /** The failed and cached counters of a batch agree with the statistics of
      the results it keeps, when no outcome aborts. */
  lemma {:induction false} CollectCountsAgree(st: RunState, outcomes: seq<Outcome>, bail: bool)
    requires st.failed == Count(st.results, false, FailStatuses) && st.cached == Count(st.results, false, CachedStatuses)
    ensures var (next, abort) := Collect(st, outcomes, bail);
      abort.None? ==>
        && next.failed == Count(next.results, false, FailStatuses)
        && next.cached == Count(next.results, false, CachedStatuses)
    decreases |outcomes|
  {
    if outcomes != [] && outcomes[0].Completed? {
      var a := outcomes[0].action;
      if !Aborts(a, bail) {
        var counted := CountAction(st, a);
        var kept := counted.(results := counted.results + [a]);
        assert kept.results[..|kept.results| - 1] == st.results;
        CollectCountsAgree(kept, outcomes[1..], bail);
      }
    }
  }

  /** A finished run counted as failed and as cached exactly the results
      that `render_stats` counts as failed and as cached. */
  lemma {:induction false} RunCountsAgreeWithStats(st: RunState, batches: seq<seq<Outcome>>, bail: bool)
    requires st.failed == Count(st.results, false, FailStatuses) && st.cached == Count(st.results, false, CachedStatuses)
    ensures var r := RunBatches(st, batches, bail);
      r.Ok? ==> r.value.failed == Tally(r.value.results, false).fail && r.value.cached == Tally(r.value.results, false).cached
    decreases |batches|
  {
    if batches != [] {
      CollectCountsAgree(st, batches[0], bail);
      var (next, abort) := Collect(st, batches[0], bail);
      if abort.None? {
        RunCountsAgreeWithStats(next, batches[1..], bail);
      }
    }
  }

  /** The result loop of `run`, over the outcomes of each batch in turn. */
  method Run(batches: seq<seq<Outcome>>, bail: bool) returns (r: Result<RunState, string>)
    ensures r == RunBatches(StartState, batches, bail)
  {
    var results: seq<Action> := [];
    var passedCount, cachedCount, failedCount := 0, 0, 0;
    var b := 0;
    while b < |batches|
      invariant 0 <= b <= |batches|
      invariant RunBatches(RunState(results, passedCount, cachedCount, failedCount), batches[b..], bail)
             == RunBatches(StartState, batches, bail)
    {
      assert batches[b..][0] == batches[b] && batches[b..][1..] == batches[b + 1..];
      var batch := batches[b];
      ghost var before := RunState(results, passedCount, cachedCount, failedCount);
      var abortError: Option<string> := None;
      var i := 0;
      while i < |batch| && abortError.None?
        invariant 0 <= i <= |batch|
        invariant abortError.None? ==>
          Collect(RunState(results, passedCount, cachedCount, failedCount), batch[i..], bail) == Collect(before, batch, bail)
        invariant abortError.Some? ==>
          (RunState(results, passedCount, cachedCount, failedCount), abortError) == Collect(before, batch, bail)
      {
        assert batch[i..][0] == batch[i] && batch[i..][1..] == batch[i + 1..];
        match batch[i] {
          case Completed(result) =>
            if HasFailed(result) {
              failedCount := failedCount + 1;
            } else if WasCached(result) {
              cachedCount := cachedCount + 1;
            } else {
              passedCount := passedCount + 1;
            }
            if (bail && HasFailed(result)) || ShouldAbort(result) {
              abortError := Some(if result.error.Some? then result.error.value else "Unknown error!");
            } else {
              results := results + [result];
            }
          case ProcessError(error) =>
            abortError := Some(error);
          case Lost =>
            abortError := Some("Unknown error!");
        }
        i := i + 1;
      }
      if abortError.None? {
        assert batch[i..] == [];
      }
      if abortError.Some? {
        return Err(abortError.value);
      }
      b := b + 1;
    }
    r := Ok(RunState(results, passedCount, cachedCount, failedCount));
  }

  /** Test-style check: with `bail`, the first failure aborts the run with
      its error, and the action before it was counted as passed. */
  lemma BailStopsAtFirstFailure()
    ensures RunBatches(StartState, [[Completed(Action("a", Passed, None)), Completed(Action("b", Failed, Some("boom")))]], true) == Err("boom")
    ensures RunBatches(StartState, [[Completed(Action("a", Passed, None)), Completed(Action("b", Failed, Some("boom")))]], false)
         == Ok(RunState([Action("a", Passed, None), Action("b", Failed, Some("boom"))], 1, 0, 1))
  {
    var a := Action("a", Passed, None);
    var b := Action("b", Failed, Some("boom"));
    var batch := [Completed(a), Completed(b)];
    assert batch[1..] == [Completed(b)] && batch[1..][1..] == [];
    var batches: seq<seq<Outcome>> := [batch];
    assert batches[1..] == [];
    var s1 := RunState([a], 1, 0, 0);
    assert CountAction(StartState, a) == RunState([], 1, 0, 0);
    assert [] + [a] == [a];
    assert Collect(StartState, batch, true) == Collect(s1, [Completed(b)], true);
    assert Collect(StartState, batch, false) == Collect(s1, [Completed(b)], false);
    assert Collect(s1, [Completed(b)], true) == (RunState([a], 1, 0, 1), Some("boom"));
    assert CountAction(s1, b) == RunState([a], 1, 0, 1);
    assert [a] + [b] == [a, b] && [Completed(b)][1..] == [];
    assert Collect(s1, [Completed(b)], false) == Collect(RunState([a, b], 1, 0, 1), [], false);
  }
}
