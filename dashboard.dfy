/** The results dashboard (src/components/ResultsDashboard/ResultsDashboard.jsx):
    which models have results, the status and score shown per cell, the
    filters over test cases, and the two delete handlers. */
module Dashboard {
  import opened Common
  import opened Domain
  import opened NestedMap
  import Database
  import ResultsStore
  import Ui

  /** A model id is present under some test case. */
  ghost predicate Tested<V>(results: Nested<V>, k: string) {
    exists t :: t in results && k in results[t]
  }

  /** `testedModels`: every model id under any test case, each once, collected
      into a `Set` test case by test case. */
  method TestedModels<V>(results: Nested<V>) returns (ids: seq<string>)
    ensures Distinct(ids)
    ensures forall k :: k in ids <==> Tested(results, k)
  {
    ids := [];
    var todo := results.Keys;
    while todo != {}
      invariant todo <= results.Keys
      invariant Distinct(ids)
      invariant forall k :: k in ids ==> Tested(results, k)
      invariant forall t, k :: t in results && t !in todo && k in results[t] ==> k in ids
      decreases todo
    {
      var t :| t in todo;
      var inner := results[t].Keys;
      while inner != {}
        invariant inner <= results[t].Keys
        invariant Distinct(ids)
        invariant forall k :: k in ids ==> Tested(results, k)
        invariant forall t', k :: t' in results && t' !in todo && k in results[t'] ==> k in ids
        invariant forall k :: k in results[t] && k !in inner ==> k in ids
        decreases inner
      {
        var k :| k in inner;
        if k !in ids {
          ids := ids + [k];
        }
        inner := inner - {k};
      }
      todo := todo - {t};
    }
  }

  /** The text of an `executionStatus` value. */
  function StatusName(s: ExecStatus): string {
    match s
    case Running => "running"
    case Completed => "completed"
  }

  /** A cell's status: the execution status when set, otherwise `completed`
      when a result exists and `pending` when none does. */
  function DisplayStatus(status: Option<ExecStatus>, result: Option<ExecutionResult>): string {
    if status.Some? then StatusName(status.value)
    else if result.Some? then "completed" else "pending"
  }

  /** `getStatusColor`. */
  function StatusColor(status: string): string {
    if status == "completed" then "success"
    else if status == "failed" then "error"
    else if status == "running" then "info"
    else "default"
  }

  /** `getGradeColor`. */
  function GradeColor(score: int): string {
    if score >= 90 then "success" else if score >= 70 then "warning" else "error"
  }

  /** Grade colours from worst to best. */
  function ColorRank(color: string): int {
    if color == "success" then 2 else if color == "warning" then 1 else 0
  }

  /** The status filter passes: `'all'`, or some selected model has exactly
      that execution status for the test case. */
  predicate StatusPasses(id: string, selected: seq<string>, status: Nested<ExecStatus>, statusFilter: string) {
    statusFilter == "all"
    || exists i :: 0 <= i < |selected| && Lookup(status, id, selected[i]).Some?
                   && StatusName(Lookup(status, id, selected[i]).value) == statusFilter
  }

  /** The score filter passes: it is falsy (`null` or 0), or some selected
      model's grade reaches it. */
  predicate ScorePasses(id: string, selected: seq<string>, grades: Nested<Grade>, scoreFilter: Option<int>) {
    scoreFilter.None? || scoreFilter.value == 0
    || exists i :: 0 <= i < |selected| && Lookup(grades, id, selected[i]).Some?
                   && Lookup(grades, id, selected[i]).value.score >= scoreFilter.value
  }

  predicate Shown(tc: TestCase, selected: seq<string>, status: Nested<ExecStatus>, grades: Nested<Grade>, filters: Ui.Filters) {
    StatusPasses(tc.id, selected, status, filters.statusFilter)
    && ScorePasses(tc.id, selected, grades, filters.scoreFilter)
  }

  /** `filteredTestCases`. */
  function FilteredTestCases(cases: seq<TestCase>, selected: seq<string>, status: Nested<ExecStatus>,
                             grades: Nested<Grade>, filters: Ui.Filters): (r: seq<TestCase>)
    ensures |r| <= |cases|
    ensures forall tc :: tc in r ==> tc in cases && Shown(tc, selected, status, grades, filters)
    ensures forall tc :: tc in cases && Shown(tc, selected, status, grades, filters) ==> tc in r
  {
    if cases == [] then []
    else
      var rest := FilteredTestCases(cases[1..], selected, status, grades, filters);
      if Shown(cases[0], selected, status, grades, filters) then [cases[0]] + rest else rest
  }

  /** `getModelName`: the name of the first available model with the id when
      that name is non-empty, otherwise the id. */
  function ModelName(available: seq<ModelDescriptor>, id: string): (name: string)
    ensures (forall i :: 0 <= i < |available| ==> available[i].id != id) ==> name == id
    ensures forall i ::
      (0 <= i < |available| && available[i].id == id && available[i].name != "" &&
       forall j :: 0 <= j < i ==> available[j].id != id) ==> name == available[i].name
    ensures forall i ::
      (0 <= i < |available| && available[i].id == id && available[i].name == "" &&
       forall j :: 0 <= j < i ==> available[j].id != id) ==> name == id
    ensures name == id || exists i :: 0 <= i < |available| && available[i].name == name
  {
    if available == [] then id
    else if available[0].id == id then (if available[0].name != "" then available[0].name else id)
    else
      var n := ModelName(available[1..], id);
      assert n != id ==> exists i :: 0 <= i < |available[1..]| && available[1..][i].name == n;
      assert forall i :: 0 < i < |available| ==> available[i] == available[1..][i - 1];
      n
  }

  /** `handleDeleteSingleResult`: when confirmed, the result row and then the
      grade row are deleted from the database, then the entry from all three
      store maps. The two database deletes may throw (`resultsDeleteFails`,
      `gradesDeleteFails`); a throw skips what follows it and queues an error
      notification instead. */
  method DeleteSingleResult(store: ResultsStore.Store, db: Database.Repository, ui: Ui.UiState,
                            available: seq<ModelDescriptor>, testCaseId: string, modelId: string,
                            confirmed: bool, resultsDeleteFails: bool, gradesDeleteFails: bool, now: int)
    requires db.Valid()
    modifies store, db, ui
    ensures db.Valid()
    ensures db.testCases == old(db.testCases) && db.settings == old(db.settings)
    ensures store.loading == old(store.loading) && store.error == old(store.error)
    ensures ui.View() == old(ui.View()).(notifications := ui.notifications)
    ensures !confirmed ==>
      && db.results == old(db.results) && db.grades == old(db.grades)
      && store.results == old(store.results) && store.grades == old(store.grades)
      && store.executionStatus == old(store.executionStatus) && ui.notifications == old(ui.notifications)
    ensures confirmed && resultsDeleteFails ==> db.results == old(db.results) && db.grades == old(db.grades)
    ensures confirmed && !resultsDeleteFails ==> db.results == old(db.results) - {(testCaseId, modelId)}
    ensures confirmed && !resultsDeleteFails && gradesDeleteFails ==> db.grades == old(db.grades)
    ensures confirmed && (resultsDeleteFails || gradesDeleteFails) ==>
      && store.results == old(store.results) && store.grades == old(store.grades)
      && store.executionStatus == old(store.executionStatus)
      && ui.notifications == old(ui.notifications) + [Notification(now, "error", "Failed to delete result")]
    ensures confirmed && !resultsDeleteFails && !gradesDeleteFails ==>
      && db.grades == old(db.grades) - {(testCaseId, modelId)}
      && store.results == Remove(old(store.results), testCaseId, modelId)
      && store.grades == Remove(old(store.grades), testCaseId, modelId)
      && store.executionStatus == Remove(old(store.executionStatus), testCaseId, modelId)
      && ui.notifications == old(ui.notifications)
           + [Notification(now, "success", "Deleted result for " + ModelName(available, modelId))]
  {
    if !confirmed {
      return;
    }
    var modelName := ModelName(available, modelId);
    if resultsDeleteFails {
      ui.AddNotification(Ui.NotificationDraft(None, "error", "Failed to delete result"), now);
      return;
    }
    db.DeleteResultRow(testCaseId, modelId);
    if gradesDeleteFails {
      ui.AddNotification(Ui.NotificationDraft(None, "error", "Failed to delete result"), now);
      return;
    }
    db.DeleteGradeRow(testCaseId, modelId);
    store.DeleteResult(testCaseId, modelId);
    ui.AddNotification(Ui.NotificationDraft(None, "success", "Deleted result for " + modelName), now);
  }

  /** `handleDeleteModelResults`: the same sequence with the `modelId` index
      of both tables and `deleteAllResultsForModel`. */
  method DeleteModelResults(store: ResultsStore.Store, db: Database.Repository, ui: Ui.UiState,
                            available: seq<ModelDescriptor>, modelId: string,
                            confirmed: bool, resultsDeleteFails: bool, gradesDeleteFails: bool, now: int)
    requires db.Valid()
    modifies store, db, ui
    ensures db.Valid()
    ensures db.testCases == old(db.testCases) && db.settings == old(db.settings)
    ensures store.loading == old(store.loading) && store.error == old(store.error)
    ensures ui.View() == old(ui.View()).(notifications := ui.notifications)
    ensures !confirmed ==>
      && db.results == old(db.results) && db.grades == old(db.grades)
      && store.results == old(store.results) && store.grades == old(store.grades)
      && store.executionStatus == old(store.executionStatus) && ui.notifications == old(ui.notifications)
    ensures confirmed && resultsDeleteFails ==> db.results == old(db.results) && db.grades == old(db.grades)
    ensures confirmed && !resultsDeleteFails ==> db.results == Database.WithoutModel(old(db.results), modelId)
    ensures confirmed && !resultsDeleteFails && gradesDeleteFails ==> db.grades == old(db.grades)
    ensures confirmed && (resultsDeleteFails || gradesDeleteFails) ==>
      && store.results == old(store.results) && store.grades == old(store.grades)
      && store.executionStatus == old(store.executionStatus)
      && ui.notifications == old(ui.notifications) + [Notification(now, "error", "Failed to delete model results")]
    ensures confirmed && !resultsDeleteFails && !gradesDeleteFails ==>
      && db.grades == Database.WithoutModel(old(db.grades), modelId)
      && store.results == DropModel(old(store.results), modelId)
      && store.grades == DropModel(old(store.grades), modelId)
      && store.executionStatus == DropModel(old(store.executionStatus), modelId)
      && ui.notifications == old(ui.notifications)
           + [Notification(now, "success", "Deleted all results for " + ModelName(available, modelId))]
  {
    if !confirmed {
      return;
    }
    var modelName := ModelName(available, modelId);
    if resultsDeleteFails {
      ui.AddNotification(Ui.NotificationDraft(None, "error", "Failed to delete model results"), now);
      return;
    }
    db.DeleteModelResultRows(modelId);
    if gradesDeleteFails {
      ui.AddNotification(Ui.NotificationDraft(None, "error", "Failed to delete model results"), now);
      return;
    }
    db.DeleteModelGradeRows(modelId);
    store.DeleteAllResultsForModel(modelId);
    ui.AddNotification(Ui.NotificationDraft(None, "success", "Deleted all results for " + modelName), now);
  }

  // ---------------------------------------------------------------------------
  // Properties

  /** The status a cell shows is `running`, `completed` or `pending`, never
      `failed`: the execution status only ever holds the first two. */
  lemma DisplayStatusValues(status: Option<ExecStatus>, result: Option<ExecutionResult>)
    ensures DisplayStatus(status, result) in {"running", "completed", "pending"}
    ensures StatusColor(DisplayStatus(status, result)) != "error"
    ensures status.None? && result.Some? ==> DisplayStatus(status, result) == "completed"
  {
  }

  /** The status filter `failed` hides every test case. */
  lemma {:induction false} FailedFilterHidesAll(cases: seq<TestCase>, selected: seq<string>, status: Nested<ExecStatus>,
                                               grades: Nested<Grade>, filters: Ui.Filters)
    requires filters.statusFilter == "failed"
    ensures FilteredTestCases(cases, selected, status, grades, filters) == []
  {
    if cases != [] {
      FailedFilterHidesAll(cases[1..], selected, status, grades, filters);
    }
  }

  /** With the status filter on `all` and a falsy score filter nothing is
      hidden. */
  lemma {:induction false} OpenFiltersShowAll(cases: seq<TestCase>, selected: seq<string>, status: Nested<ExecStatus>,
                                             grades: Nested<Grade>, filters: Ui.Filters)
    requires filters.statusFilter == "all" && (filters.scoreFilter.None? || filters.scoreFilter.value == 0)
    ensures FilteredTestCases(cases, selected, status, grades, filters) == cases
  {
    if cases != [] {
      OpenFiltersShowAll(cases[1..], selected, status, grades, filters);
      assert [cases[0]] + cases[1..] == cases;
    }
  }

  /** With no model selected any active filter hides every test case. */
  lemma {:induction false} NothingSelectedHidesAll(cases: seq<TestCase>, status: Nested<ExecStatus>,
                                                  grades: Nested<Grade>, filters: Ui.Filters)
    requires filters.statusFilter != "all" || (filters.scoreFilter.Some? && filters.scoreFilter.value != 0)
    ensures FilteredTestCases(cases, [], status, grades, filters) == []
  {
    if cases != [] {
      NothingSelectedHidesAll(cases[1..], status, grades, filters);
    }
  }

  /** A higher score never gets a worse grade colour. */
  lemma GradeColorMonotone(a: int, b: int)
    requires a <= b
    ensures ColorRank(GradeColor(a)) <= ColorRank(GradeColor(b))
    ensures GradeColor(a) == "success" <==> a >= 90
    ensures GradeColor(a) == "error" <==> a < 70
  {
  }
}
