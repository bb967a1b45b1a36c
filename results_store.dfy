/** The results store (src/store/resultsSlice.js): three nested maps keyed by
    (test case id, model id) — `results`, `grades` and `executionStatus` — the
    reducers that write, delete and prune them, and the `runTestCase` loop
    that runs one test case against a list of models, publishing each result
    as it arrives. The remote calls and the database writes are inputs: one
    outcome and one save flag per model. */
module ResultsStore {
  import opened Common
  import opened Domain
  import opened NestedMap
  import Diff
  import Database
  import Invocation

  // ---------------------------------------------------------------------------
  // The pieces the reducers apply to one nested map

  /** `deleteResult` on one map, step by step. */
  method RemoveEntry<V>(m: Nested<V>, t: string, k: string) returns (r: Nested<V>)
    ensures r == Remove(m, t, k)
  {
    r := m;
    if t in r {
      r := r[t := r[t] - {k}];
      if |r[t]| == 0 {
        assert r - {t} == m - {t};
        r := r - {t};
      }
    }
  }

  /** `r` is `m` with every test case outside `todo` already handled. */
  ghost predicate DroppedExcept<V>(m: Nested<V>, k: string, r: Nested<V>, todo: set<string>) {
    && todo <= m.Keys && r.Keys <= m.Keys
    && (forall t :: t in todo ==> t in r && r[t] == m[t])
    && (forall t :: t in r && t !in todo ==> r[t] == m[t] - {k})
    && (forall t :: t in m && t !in todo ==> (t in r <==> m[t].Keys != {k}))
  }

  /** `deleteAllResultsForModel` on one map: a pass over its test case ids,
      deleting the model's entry where there is one. */
  method DropModelLoop<V>(m: Nested<V>, k: string) returns (r: Nested<V>)
    ensures r == DropModel(m, k)
  {
    r := m;
    var todo := m.Keys;
    while todo != {}
      invariant DroppedExcept(m, k, r, todo)
      decreases |todo|
    {
      var t :| t in todo;
      ghost var r0 := r;
      if k in r[t] {
        r := RemoveEntry(r, t, k);
      }
      DropStep(m, k, r0, todo, t);
      todo := todo - {t};
    }
  }

  /** Handling one more test case keeps the pass's invariant. */
  lemma DropStep<V>(m: Nested<V>, k: string, r: Nested<V>, todo: set<string>, t: string)
    requires DroppedExcept(m, k, r, todo) && t in todo
    ensures DroppedExcept(m, k, if k in r[t] then Remove(r, t, k) else r, todo - {t})
  {
    if k !in m[t] {
      assert m[t] - {k} == m[t];
      StepHolds(m, k, r, todo, t, r);
    } else {
      EmptiedIff(m[t], k);
      if m[t].Keys == {k} {
        assert Remove(r, t, k) == r - {t};
        StepHolds(m, k, r, todo, t, r - {t});
      } else {
        assert Remove(r, t, k) == r[t := m[t] - {k}];
        StepHolds(m, k, r, todo, t, r[t := m[t] - {k}]);
      }
    }
  }

  lemma StepHolds<V>(m: Nested<V>, k: string, r: Nested<V>, todo: set<string>, t: string, r': Nested<V>)
    requires DroppedExcept(m, k, r, todo) && t in todo
    requires t in r' <==> m[t].Keys != {k}
    requires t in r' ==> r'[t] == m[t] - {k}
    requires forall t' :: t' != t ==> (t' in r' <==> t' in r)
    requires forall t' :: t' != t && t' in r ==> r'[t'] == r[t']
    ensures DroppedExcept(m, k, r', todo - {t})
  {
  }

  // ---------------------------------------------------------------------------
  // The store

  class Store {
    var results: Nested<ExecutionResult>
    var grades: Nested<Grade>
    var executionStatus: Nested<ExecStatus>
    var loading: bool
    var error: Option<string>

    /** The initial state: everything empty, not loading, no error. */
    constructor()
      ensures results == map[] && grades == map[] && executionStatus == map[]
      ensures !loading && error == None
    {
      results, grades, executionStatus := map[], map[], map[];
      loading, error := false, None;
    }

    /** `updateExecutionStatus`. */
    method UpdateExecutionStatus(testCaseId: string, modelId: string, status: ExecStatus)
      modifies this
      ensures executionStatus == Put(old(executionStatus), testCaseId, modelId, status)
      ensures results == old(results) && grades == old(grades)
      ensures loading == old(loading) && error == old(error)
    {
      if testCaseId !in executionStatus {
        executionStatus := executionStatus[testCaseId := map[]];
      }
      executionStatus := executionStatus[testCaseId := executionStatus[testCaseId][modelId := status]];
    }

    /** `addSingleResult`. */
    method AddSingleResult(testCaseId: string, modelId: string, result: ExecutionResult)
      modifies this
      ensures results == Put(old(results), testCaseId, modelId, result)
      ensures grades == old(grades) && executionStatus == old(executionStatus)
      ensures loading == old(loading) && error == old(error)
    {
      if testCaseId !in results {
        results := results[testCaseId := map[]];
      }
      results := results[testCaseId := results[testCaseId][modelId := result]];
    }

    /** `addGrade`. */
    method AddGrade(testCaseId: string, modelId: string, grade: Grade)
      modifies this
      ensures grades == Put(old(grades), testCaseId, modelId, grade)
      ensures results == old(results) && executionStatus == old(executionStatus)
      ensures loading == old(loading) && error == old(error)
    {
      if testCaseId !in grades {
        grades := grades[testCaseId := map[]];
      }
      grades := grades[testCaseId := grades[testCaseId][modelId := grade]];
    }

    /** `deleteResult`: the pair leaves all three maps. */
    method DeleteResult(testCaseId: string, modelId: string)
      modifies this
      ensures results == Remove(old(results), testCaseId, modelId)
      ensures grades == Remove(old(grades), testCaseId, modelId)
      ensures executionStatus == Remove(old(executionStatus), testCaseId, modelId)
      ensures loading == old(loading) && error == old(error)
    {
      results := RemoveEntry(results, testCaseId, modelId);
      grades := RemoveEntry(grades, testCaseId, modelId);
      executionStatus := RemoveEntry(executionStatus, testCaseId, modelId);
    }

    /** `deleteAllResultsForModel`: the model leaves every test case of all
        three maps. */
    method DeleteAllResultsForModel(modelId: string)
      modifies this
      ensures results == DropModel(old(results), modelId)
      ensures grades == DropModel(old(grades), modelId)
      ensures executionStatus == DropModel(old(executionStatus), modelId)
      ensures loading == old(loading) && error == old(error)
    {
      results := DropModelLoop(results, modelId);
      grades := DropModelLoop(grades, modelId);
      executionStatus := DropModelLoop(executionStatus, modelId);
    }

    /** `clearResults`: the three maps are emptied. */
    method ClearResults()
      modifies this
      ensures results == map[] && grades == map[] && executionStatus == map[]
      ensures loading == old(loading) && error == old(error)
    {
      results, executionStatus, grades := map[], map[], map[];
    }

    /** `loadResults`: each map of the payload replaces the stored one, a
        missing one becomes `{}`; execution statuses are kept. */
    method LoadResults(loaded: Option<Nested<ExecutionResult>>, loadedGrades: Option<Nested<Grade>>)
      modifies this
      ensures results == (if loaded.Some? then loaded.value else map[])
      ensures grades == (if loadedGrades.Some? then loadedGrades.value else map[])
      ensures executionStatus == old(executionStatus)
      ensures loading == old(loading) && error == old(error)
    {
      results := if loaded.Some? then loaded.value else map[];
      grades := if loadedGrades.Some? then loadedGrades.value else map[];
    }

    /** `runTestCase.pending`. */
    method RunPending()
      modifies this
      ensures loading && error == None
      ensures results == old(results) && grades == old(grades) && executionStatus == old(executionStatus)
    {
      loading := true;
      error := None;
    }

    /** `runTestCase.fulfilled`: the run's results are merged into the test
        case's object, which is created when missing. */
    method RunFulfilled(testCaseId: string, rs: map<string, ExecutionResult>)
      modifies this
      ensures !loading && error == old(error)
      ensures results == Merge(old(results), testCaseId, rs)
      ensures grades == old(grades) && executionStatus == old(executionStatus)
    {
      loading := false;
      ghost var base := if testCaseId in results then results[testCaseId] else map[];
      if testCaseId !in results {
        results := results[testCaseId := map[]];
      }
      assert results[testCaseId] == base;
      results := results[testCaseId := results[testCaseId] + rs];
    }

    /** `runTestCase.rejected`. */
    method RunRejected(message: string)
      modifies this
      ensures !loading && error == Some(message)
      ensures results == old(results) && grades == old(grades) && executionStatus == old(executionStatus)
    {
      loading := false;
      error := Some(message);
    }

    /** `gradeResult.fulfilled`: the same write as `addGrade`. */
    method GradeFulfilled(testCaseId: string, modelId: string, grade: Grade)
      modifies this
      ensures grades == Put(old(grades), testCaseId, modelId, grade)
      ensures results == old(results) && executionStatus == old(executionStatus)
      ensures loading == old(loading) && error == old(error)
    {
      AddGrade(testCaseId, modelId, grade);
    }
  }

  // ---------------------------------------------------------------------------
  // One run of a test case

  /** The result object built for one model from the outcome of its call
      (`Err` carries the message the invocation client rethrew) and the clock
      reading taken when the result is built. */
  function ResultFor(tc: TestCase, modelId: string, outcome: Result<RunResponse, string>, now: string): ExecutionResult {
    match outcome
    case Ok(response) =>
      ExecutionResult(tc.id, modelId, response.output, response.roundTripOutput, response.translatedPrompt,
                      Some(response.tokensUsed), Some(response.latency), now, Succeeded, None,
                      if Truthy(tc.expectedResult) then Some(Diff.DiffResult(tc.expectedResult, response.output)) else None)
    case Err(message) =>
      ExecutionResult(tc.id, modelId, None, None, None, None, None, now, Failed, Some(message), None)
  }

  /** The results of all models, in list order. */
  function ResultList(tc: TestCase, models: seq<string>, outcomes: seq<Result<RunResponse, string>>, clock: seq<string>): (rs: seq<ExecutionResult>)
    requires |outcomes| == |models| && |clock| == |models|
    ensures |rs| == |models|
  {
    seq(|models|, i requires 0 <= i < |models| => ResultFor(tc, models[i], outcomes[i], clock[i]))
  }

  /** `n` copies of the final status. */
  function AllCompleted(n: nat): (s: seq<ExecStatus>)
    ensures |s| == n
  {
    seq(n, _ => Completed)
  }

  /** What one iteration of the loop does, in order: mark the model running,
      call it, try to save its result (`stored` says whether the database
      write succeeded), publish the result, mark the model completed. */
  datatype Event =
    | SetStatus(modelId: string, status: ExecStatus)
    | Call(modelId: string, roundTrip: bool, translationModel: Option<string>)
    | Save(result: ExecutionResult, stored: bool)
    | Publish(result: ExecutionResult)

  function ModelSteps(modelId: string, roundTrip: bool, translationModel: Option<string>,
                      r: ExecutionResult, stored: bool): seq<Event> {
    [SetStatus(modelId, Running), Call(modelId, roundTrip, translationModel), Save(r, stored),
     Publish(r), SetStatus(modelId, Completed)]
  }

  /** The events of the first `n` iterations. */
  function RunTrace(models: seq<string>, roundTrip: bool, translationModel: Option<string>,
                    rs: seq<ExecutionResult>, saved: seq<bool>, n: nat): seq<Event>
    requires n <= |models| && |rs| == |models| && |saved| == |models|
  {
    if n == 0 then []
    else RunTrace(models, roundTrip, translationModel, rs, saved, n - 1)
         + ModelSteps(models[n - 1], roundTrip, translationModel, rs[n - 1], saved[n - 1])
  }

  /** The results of the first `n` iterations whose database write succeeded. */
  function SavedRows(rs: seq<ExecutionResult>, saved: seq<bool>, n: nat): seq<ExecutionResult>
    requires n <= |rs| && |saved| == |rs|
  {
    if n == 0 then [] else SavedRows(rs, saved, n - 1) + (if saved[n - 1] then [rs[n - 1]] else [])
  }

  /** The body of the `runTestCase` thunk. `outcomes[i]` is what the call for
      `models[i]` returned or threw (a plain run or a round trip, as
      `enableRoundTrip` says), `saved[i]` whether saving its result
      succeeded, and `clock[i]` the time stamped on it. A failed call or a
      failed save never stops the loop. */
  method RunTestCase(store: Store, db: Database.Repository, tc: TestCase, models: seq<string>,
                     enableRoundTrip: bool, translationModel: Option<string>,
                     outcomes: seq<Result<RunResponse, string>>, saved: seq<bool>, clock: seq<string>)
    returns (testCaseId: string, results: map<string, ExecutionResult>, trace: seq<Event>)
    requires |outcomes| == |models| && |saved| == |models| && |clock| == |models|
    requires db.Valid()
    modifies store, db
    ensures db.Valid()
    ensures testCaseId == tc.id
    ensures results == Assigned(models, ResultList(tc, models, outcomes, clock), |models|)
    ensures trace == RunTrace(models, enableRoundTrip, translationModel, ResultList(tc, models, outcomes, clock), saved, |models|)
    ensures store.results == PutSeq(old(store.results), tc.id, models, ResultList(tc, models, outcomes, clock), |models|)
    ensures store.executionStatus == PutSeq(old(store.executionStatus), tc.id, models, AllCompleted(|models|), |models|)
    ensures store.grades == old(store.grades) && store.loading == old(store.loading) && store.error == old(store.error)
    ensures db.results == Database.PutAll(old(db.results), SavedRows(ResultList(tc, models, outcomes, clock), saved, |models|), Database.ResultKey)
    ensures db.testCases == old(db.testCases) && db.grades == old(db.grades) && db.settings == old(db.settings)
  {
    ghost var rs := ResultList(tc, models, outcomes, clock);
    ghost var done := AllCompleted(|models|);
    ghost var results0, status0, rows0 := store.results, store.executionStatus, db.results;
    ghost var grades0, loading0, error0 := store.grades, store.loading, store.error;
    ghost var cases0, gradeRows0, settings0 := db.testCases, db.grades, db.settings;
    testCaseId := tc.id;
    results := map[];
    trace := [];
    for i := 0 to |models|
      invariant results == Assigned(models, rs, i)
      invariant trace == RunTrace(models, enableRoundTrip, translationModel, rs, saved, i)
      invariant store.results == PutSeq(results0, tc.id, models, rs, i)
      invariant store.executionStatus == PutSeq(status0, tc.id, models, done, i)
      invariant store.grades == grades0 && store.loading == loading0 && store.error == error0
      invariant db.Valid()
      invariant db.results == Database.PutAll(rows0, SavedRows(rs, saved, i), Database.ResultKey)
      invariant db.testCases == cases0 && db.grades == gradeRows0 && db.settings == settings0
    {
      ghost var before := SavedRows(rs, saved, i);
      var result, steps := RunModel(store, db, tc, models[i], enableRoundTrip, translationModel, outcomes[i], saved[i], clock[i]);
      assert result == rs[i];
      results := results[models[i] := result];
      trace := trace + steps;
      if saved[i] {
        assert SavedRows(rs, saved, i + 1) == before + [result];
        Database.PutAllSnoc(rows0, before, result, Database.ResultKey);
      } else {
        assert SavedRows(rs, saved, i + 1) == before;
      }
    }
  }

  /** One iteration of the loop: the model is marked running, called, its
      result built, saved when the database accepts it, published, and the
      model marked completed. */
  method RunModel(store: Store, db: Database.Repository, tc: TestCase, modelId: string,
                  enableRoundTrip: bool, translationModel: Option<string>,
                  outcome: Result<RunResponse, string>, stored: bool, now: string)
    returns (result: ExecutionResult, steps: seq<Event>)
    requires db.Valid()
    modifies store, db
    ensures db.Valid()
    ensures result == ResultFor(tc, modelId, outcome, now)
    ensures steps == ModelSteps(modelId, enableRoundTrip, translationModel, result, stored)
    ensures store.results == Put(old(store.results), tc.id, modelId, result)
    ensures store.executionStatus == Put(old(store.executionStatus), tc.id, modelId, Completed)
    ensures store.grades == old(store.grades) && store.loading == old(store.loading) && store.error == old(store.error)
    ensures db.results == if stored then old(db.results)[Database.ResultKey(result) := result] else old(db.results)
    ensures db.testCases == old(db.testCases) && db.grades == old(db.grades) && db.settings == old(db.settings)
  {
    store.UpdateExecutionStatus(tc.id, modelId, Running);
    steps := [SetStatus(modelId, Running), Call(modelId, enableRoundTrip, translationModel)];
    result := BuildResult(tc, modelId, outcome, now);
    if stored {
      db.SaveResult(result);
    }
    steps := steps + [Save(result, stored)];
    store.AddSingleResult(tc.id, modelId, result);
    steps := steps + [Publish(result)];
    store.UpdateExecutionStatus(tc.id, modelId, Completed);
    steps := steps + [SetStatus(modelId, Completed)];
    PutOverwrites(old(store.executionStatus), tc.id, modelId, Running, Completed);
  }

  /** The `try` block or the `catch` block of one iteration, up to the
      result object. */
  method BuildResult(tc: TestCase, modelId: string, outcome: Result<RunResponse, string>, now: string)
    returns (result: ExecutionResult)
    ensures result == ResultFor(tc, modelId, outcome, now)
  {
    match outcome {
      case Ok(response) =>
        result := ExecutionResult(tc.id, modelId, response.output, response.roundTripOutput,
                                  response.translatedPrompt, Some(response.tokensUsed), Some(response.latency),
                                  now, Succeeded, None, None);
        if Truthy(tc.expectedResult) {
          var d := Diff.CalculateDiff(tc.expectedResult, response.output);
          result := result.(diff := Some(d));
        }
      case Err(message) =>
        result := ExecutionResult(tc.id, modelId, None, None, None, None, None, now, Failed, Some(message), None);
    }
  }

  /** A dispatch of `runTestCase` from pending to fulfilled. */
  method DispatchRunTestCase(store: Store, db: Database.Repository, tc: TestCase, models: seq<string>,
                             enableRoundTrip: bool, translationModel: Option<string>,
                             outcomes: seq<Result<RunResponse, string>>, saved: seq<bool>, clock: seq<string>)
    returns (trace: seq<Event>)
    requires |outcomes| == |models| && |saved| == |models| && |clock| == |models|
    requires db.Valid()
    modifies store, db
    ensures db.Valid()
    ensures !store.loading && store.error == None
    ensures store.results == Merge(old(store.results), tc.id, Assigned(models, ResultList(tc, models, outcomes, clock), |models|))
    ensures |models| > 0 ==>
      store.executionStatus == Merge(old(store.executionStatus), tc.id, Assigned(models, AllCompleted(|models|), |models|))
    ensures models == [] ==> store.executionStatus == old(store.executionStatus)
    ensures store.grades == old(store.grades)
    ensures trace == RunTrace(models, enableRoundTrip, translationModel, ResultList(tc, models, outcomes, clock), saved, |models|)
    ensures db.results == Database.PutAll(old(db.results), SavedRows(ResultList(tc, models, outcomes, clock), saved, |models|), Database.ResultKey)
    ensures db.testCases == old(db.testCases) && db.grades == old(db.grades) && db.settings == old(db.settings)
  {
    store.RunPending();
    var testCaseId, results;
    testCaseId, results, trace := RunTestCase(store, db, tc, models, enableRoundTrip, translationModel, outcomes, saved, clock);
    ghost var rs := ResultList(tc, models, outcomes, clock);
    if |models| > 0 {
      FulfilledAfterWrites(old(store.results), tc.id, models, rs);
      PutSeqMerge(old(store.results), tc.id, models, rs, |models|);
      PutSeqMerge(old(store.executionStatus), tc.id, models, AllCompleted(|models|), |models|);
    }
    store.RunFulfilled(testCaseId, results);
  }

  // ---------------------------------------------------------------------------
  // Grading

  /** What `gradeResult` asks for and returns. `judge` is the request sent to
      the judge model, if any. */
  datatype GradeCall = GradeCall(judge: Option<Invocation.ChatRequest>, outcome: Result<GradeRow, string>)

  /** `gradeResult`: a manual grade is built from the caller's score and
      comments; any other method than "manual" is only automatic when it is
      exactly "automatic". The thunk passes only the test case and the result
      to `autoGrade`, so `autoGradingModel` never reaches the judge request. */
  function GradeResult(tc: TestCase, result: ExecutionResult, modelId: string, gradingMethod: string,
                       manualScore: int, comments: Option<string>, autoGradingModel: Option<string>,
                       judgeReply: Result<string, string>, now: string): (c: GradeCall)
    ensures c.judge.Some? <==> gradingMethod == "automatic"
    ensures c.judge.Some? ==> c.judge.value.model == Invocation.DefaultModel
                              && c.judge.value == Invocation.JudgeRequest(tc, result.output, None)
    ensures c.outcome.Ok? ==> c.outcome.value.testCaseId == tc.id && c.outcome.value.modelId == modelId
    ensures gradingMethod != "automatic" ==>
      c.outcome == Ok(GradeRow(tc.id, modelId, Grade(manualScore, comments, None, Manual, now)))
    ensures gradingMethod == "automatic" ==>
      && (c.outcome.Err? <==> judgeReply.Err?)
      && (c.outcome.Ok? ==> c.outcome.value.grade == Invocation.AutoGradeOutcome(judgeReply, now).value)
  {
    if gradingMethod == "automatic" then
      var g := Invocation.AutoGradeOutcome(judgeReply, now);
      GradeCall(Some(Invocation.JudgeRequest(tc, result.output, None)),
                if g.Ok? then Ok(GradeRow(tc.id, modelId, g.value)) else Err(g.error))
    else
      GradeCall(None, Ok(GradeRow(tc.id, modelId, Grade(manualScore, comments, None, Manual, now))))
  }

  // ---------------------------------------------------------------------------
  // Properties

  /** The trace is five events per model, block `i` being the steps of
      `models[i]`: models are run one at a time, in list order, whatever the
      outcome of earlier calls. */
  lemma {:induction false} RunTraceBlocks(models: seq<string>, roundTrip: bool, translationModel: Option<string>,
                                          rs: seq<ExecutionResult>, saved: seq<bool>, n: nat)
    requires n <= |models| && |rs| == |models| && |saved| == |models|
    ensures |RunTrace(models, roundTrip, translationModel, rs, saved, n)| == 5 * n
    ensures forall i, j :: 0 <= i < n && 0 <= j < 5 ==>
      RunTrace(models, roundTrip, translationModel, rs, saved, n)[5 * i + j]
        == ModelSteps(models[i], roundTrip, translationModel, rs[i], saved[i])[j]
  {
    if n > 0 {
      RunTraceBlocks(models, roundTrip, translationModel, rs, saved, n - 1);
      var p := RunTrace(models, roundTrip, translationModel, rs, saved, n - 1);
      var q := ModelSteps(models[n - 1], roundTrip, translationModel, rs[n - 1], saved[n - 1]);
      assert RunTrace(models, roundTrip, translationModel, rs, saved, n) == p + q;
      forall i, j | 0 <= i < n && 0 <= j < 5
        ensures (p + q)[5 * i + j] == ModelSteps(models[i], roundTrip, translationModel, rs[i], saved[i])[j]
      {
        if i < n - 1 {
          assert 5 * i + j < 5 * (n - 1);
        } else {
          assert 5 * i + j - |p| == j;
        }
      }
    }
  }

  /** Each model is marked running before its call and completed after its
      result is published, and its result is published whether or not saving
      it succeeded. */
  lemma ModelBracketed(models: seq<string>, roundTrip: bool, translationModel: Option<string>,
                       rs: seq<ExecutionResult>, saved: seq<bool>, i: nat)
    requires i < |models| && |rs| == |models| && |saved| == |models|
    ensures var tr := RunTrace(models, roundTrip, translationModel, rs, saved, |models|);
      && |tr| == 5 * |models|
      && tr[5 * i] == SetStatus(models[i], Running)
      && tr[5 * i + 1] == Call(models[i], roundTrip, translationModel)
      && tr[5 * i + 2] == Save(rs[i], saved[i])
      && tr[5 * i + 3] == Publish(rs[i])
      && tr[5 * i + 4] == SetStatus(models[i], Completed)
  {
    RunTraceBlocks(models, roundTrip, translationModel, rs, saved, |models|);
    var tr := RunTrace(models, roundTrip, translationModel, rs, saved, |models|);
    var steps := ModelSteps(models[i], roundTrip, translationModel, rs[i], saved[i]);
    assert tr[5 * i + 0] == steps[0];
    assert tr[5 * i + 1] == steps[1];
    assert tr[5 * i + 2] == steps[2];
    assert tr[5 * i + 3] == steps[3];
    assert tr[5 * i + 4] == steps[4];
  }

  /** A failed call yields a failed result carrying the message and no
      output; a successful one copies output, tokens and latency and attaches
      a diff exactly when the test case has an expected result. */
  lemma ResultForCases(tc: TestCase, modelId: string, outcome: Result<RunResponse, string>, now: string)
    ensures var r := ResultFor(tc, modelId, outcome, now);
      && r.testCaseId == tc.id && r.modelId == modelId && r.timestamp == now
      && (r.status == Failed <==> outcome.Err?)
      && (outcome.Err? ==> r.error == Some(outcome.error) && r.output.None? && r.tokensUsed.None? && r.diff.None?)
      && (outcome.Ok? ==> && r.error.None? && r.output == outcome.value.output
                          && r.tokensUsed == Some(outcome.value.tokensUsed)
                          && r.latency == Some(outcome.value.latency)
                          && (r.diff.Some? <==> Truthy(tc.expectedResult)))
  {
  }

  /** An attached diff compares the expected result with the model's output:
      it is `null` when the output is missing or empty, and otherwise has
      similarity 100 exactly when the output equals the expected result. */
  lemma AttachedDiff(tc: TestCase, modelId: string, response: RunResponse, now: string)
    requires Truthy(tc.expectedResult)
    ensures var r := ResultFor(tc, modelId, Ok(response), now);
      && r.diff.Some?
      && (r.diff.value.None? <==> !Truthy(response.output))
      && (r.diff.value.Some? ==> (r.diff.value.value.similarity == 100.0 <==> response.output == tc.expectedResult))
  {
    if Truthy(response.output) {
      Diff.SimilarityFullIffEqual(tc.expectedResult.value, response.output.value);
    }
  }

  /** After the loop every model of the list has status `completed` under
      the test case, and no other entry changed. */
  lemma EveryModelCompleted(m: Nested<ExecStatus>, t: string, models: seq<string>, t': string, k': string)
    ensures Lookup(PutSeq(m, t, models, AllCompleted(|models|), |models|), t', k') ==
      if t' == t && k' in models then Some(Completed) else Lookup(m, t', k')
  {
    var vals := AllCompleted(|models|);
    PutSeqLookup(m, t, models, vals, |models|, t', k');
    if t' == t && k' in models {
      var i :| 0 <= i < |models| && models[i] == k';
      assert vals[i] == Completed;
    }
  }

  /** The lookups after a run of writes: a written entry holds the value of
      its last write, every other entry is as before. */
  lemma {:induction false} PutSeqLookup<V>(m: Nested<V>, t: string, keys: seq<string>, vals: seq<V>, n: nat,
                                           t': string, k': string)
    requires n <= |keys| && |vals| == |keys|
    ensures t' == t && k' in keys[..n] ==>
      exists i :: 0 <= i < n && keys[i] == k' && Lookup(PutSeq(m, t, keys, vals, n), t', k') == Some(vals[i])
    ensures !(t' == t && k' in keys[..n]) ==> Lookup(PutSeq(m, t, keys, vals, n), t', k') == Lookup(m, t', k')
  {
    if n > 0 {
      PutSeqLookup(m, t, keys, vals, n - 1, t', k');
      PutLookup(PutSeq(m, t, keys, vals, n - 1), t, keys[n - 1], vals[n - 1], t', k');
      assert keys[..n] == keys[..n - 1] + [keys[n - 1]];
      if t' == t && k' == keys[n - 1] {
        assert keys[n - 1] == k';
      }
    }
  }

  /** The fulfilled merge that follows the loop changes nothing: every result
      it merges was already published. */
  lemma FulfilledAfterWrites<V>(m: Nested<V>, t: string, keys: seq<string>, vals: seq<V>)
    requires 0 < |keys| && |vals| == |keys|
    ensures Merge(PutSeq(m, t, keys, vals, |keys|), t, Assigned(keys, vals, |keys|)) == PutSeq(m, t, keys, vals, |keys|)
  {
    PutSeqMerge(m, t, keys, vals, |keys|);
    MergeTwice(m, t, Assigned(keys, vals, |keys|));
  }

  /** Only the results whose save succeeded reach the database, the last one
      of a model winning; a run whose saves all fail leaves the table as it
      was. */
  lemma {:induction false} SavedRowsFacts(rs: seq<ExecutionResult>, saved: seq<bool>, n: nat)
    requires n <= |rs| && |saved| == |rs|
    ensures forall j :: 0 <= j < |SavedRows(rs, saved, n)| ==> SavedRows(rs, saved, n)[j] in rs[..n]
    ensures (forall i :: 0 <= i < n ==> !saved[i]) ==> SavedRows(rs, saved, n) == []
    ensures (forall i :: 0 <= i < n ==> saved[i]) ==> SavedRows(rs, saved, n) == rs[..n]
  {
    if n > 0 {
      SavedRowsFacts(rs, saved, n - 1);
      assert rs[..n] == rs[..n - 1] + [rs[n - 1]];
    }
  }
}
