/** The test-case editor (src/components/TestEditor/TestEditor.jsx): the form
    bound to the active test case, and the save, new, delete, run and tab
    handlers that drive the test-case list, the database and the
    notification queue. */
module TestEditor {
  import opened Common
  import opened Domain
  import opened NestedMap
  import Database
  import TestCases
  import Ui

  /** The editor's local `formData`: every field is a plain string. */
  datatype Form = Form(name: string, systemPrompt: string, userPrompt: string,
                       sourceText: string, expectedResult: string)

  /** The field a `handleFieldChange` call names. */
  datatype Field = Name | SystemPrompt | UserPrompt | SourceText | ExpectedResult

  /** What `handleRunTest` hands to `runTestCase`. */
  datatype RunRequest = RunRequest(testCase: TestCase, models: seq<string>, enableRoundTrip: bool,
                                   translationModel: Option<string>)

  const EmptyForm := Form("", "", "", "", "")
  const SavedMessage := "Test case saved successfully"
  const DeletedMessage := "Test case deleted"
  const NoModelsMessage := "Please select at least one model before running the test"

  /** `testCases.find(tc => tc.id === activeTestCaseId)`; a `null` id matches no case. */
  function ActiveCase(cases: seq<TestCase>, activeId: Option<string>): (r: Option<TestCase>)
    ensures r.Some? <==> activeId.Some? && exists k :: 0 <= k < |cases| && cases[k].id == activeId.value
    ensures r.Some? ==> r.value == cases[TestCases.FindIndex(cases, activeId.value)]
  {
    if activeId.None? then None
    else
      var i := TestCases.FindIndex(cases, activeId.value);
      if i < 0 then None else Some(cases[i])
  }

  /** The form the effect fills from a test case: each field or `''`. */
  function FormOf(tc: TestCase): (f: Form)
    ensures f.name == OrElse(tc.name, "") && f.systemPrompt == OrElse(tc.systemPrompt, "")
    ensures f.userPrompt == OrElse(tc.userPrompt, "") && f.sourceText == OrElse(tc.sourceText, "")
    ensures f.expectedResult == OrElse(tc.expectedResult, "")
  {
    Form(OrElse(tc.name, ""), OrElse(tc.systemPrompt, ""), OrElse(tc.userPrompt, ""),
         OrElse(tc.sourceText, ""), OrElse(tc.expectedResult, ""))
  }

  /** `{ ...prev, [field]: value }`. */
  function WithField(f: Form, field: Field, value: string): Form {
    match field
    case Name => f.(name := value)
    case SystemPrompt => f.(systemPrompt := value)
    case UserPrompt => f.(userPrompt := value)
    case SourceText => f.(sourceText := value)
    case ExpectedResult => f.(expectedResult := value)
  }

  /** Reading one field of the form. */
  function FieldOf(f: Form, field: Field): string {
    match field
    case Name => f.name
    case SystemPrompt => f.systemPrompt
    case UserPrompt => f.userPrompt
    case SourceText => f.sourceText
    case ExpectedResult => f.expectedResult
  }

  /** The `updateTestCase` payload of a save: every form field is present. */
  function PatchOf(f: Form): TestCases.Patch {
    TestCases.Patch(Some(f.name), Some(f.systemPrompt), Some(f.userPrompt), Some(f.sourceText), Some(f.expectedResult))
  }

  /** The row `handleSave` writes: `{ id, ...formData }`, with no timestamps. */
  function SavedRow(id: string, f: Form): (row: TestCase)
    ensures row.id == id && row.createdAt == None && row.updatedAt == None
    ensures FormOf(row) == f
  {
    TestCase(id, Some(f.name), Some(f.systemPrompt), Some(f.userPrompt), Some(f.sourceText),
             Some(f.expectedResult), None, None)
  }

  /** `handleNewTestCase`'s payload. */
  const NewDraft := TestCases.Draft(Some(TestCases.DefaultName), Some(""), Some(""), Some(""), Some(""))

  /** The editor's local state. */
  class Editor {
    var formData: Form
    var hasUnsavedChanges: bool

    constructor()
      ensures formData == EmptyForm && !hasUnsavedChanges
    {
      formData := EmptyForm;
      hasUnsavedChanges := false;
    }

    /** The effect run when the active test case changes: with an active case
        the form takes its fields and the changes count as saved; with none
        the form keeps what it holds. */
    method SyncWithActive(active: Option<TestCase>)
      modifies this
      ensures active.Some? ==> formData == FormOf(active.value) && !hasUnsavedChanges
      ensures active.None? ==> formData == old(formData) && hasUnsavedChanges == old(hasUnsavedChanges)
    {
      if active.Some? {
        formData := FormOf(active.value);
        hasUnsavedChanges := false;
      }
    }

    /** `handleFieldChange`. */
    method FieldChange(field: Field, value: string)
      modifies this
      ensures formData == WithField(old(formData), field, value)
      ensures hasUnsavedChanges
    {
      formData := WithField(formData, field, value);
      hasUnsavedChanges := true;
    }
  }

  /** `handleSave`. A falsy active id does nothing. Otherwise the store's case
      is patched with the whole form, then the form is written to the
      database as it stands; `saveFails` is the write rejecting, which ends
      the handler before the flag is cleared and the notification added. */
  method HandleSave(editor: Editor, cases: TestCases.TestCaseList, db: Database.Repository, ui: Ui.UiState,
                    now: string, clock: int, saveFails: bool)
    requires db.Valid()
    modifies editor, cases, db, ui
    ensures db.Valid()
    ensures editor.formData == old(editor.formData)
    ensures cases.activeTestCaseId == old(cases.activeTestCaseId)
    ensures db.results == old(db.results) && db.grades == old(db.grades) && db.settings == old(db.settings)
    ensures ui.View() == old(ui.View()).(notifications := ui.notifications)
    ensures !Truthy(old(cases.activeTestCaseId)) ==>
      && cases.testCases == old(cases.testCases) && db.testCases == old(db.testCases)
      && editor.hasUnsavedChanges == old(editor.hasUnsavedChanges) && ui.notifications == old(ui.notifications)
    ensures Truthy(old(cases.activeTestCaseId)) ==>
      var id := old(cases.activeTestCaseId).value;
      && cases.testCases == TestCases.Updated(old(cases.testCases), id, PatchOf(old(editor.formData)), now)
      && (saveFails ==>
            && db.testCases == old(db.testCases) && editor.hasUnsavedChanges == old(editor.hasUnsavedChanges)
            && ui.notifications == old(ui.notifications))
      && (!saveFails ==>
            && db.testCases == old(db.testCases)[id := SavedRow(id, old(editor.formData))]
            && !editor.hasUnsavedChanges
            && ui.notifications == old(ui.notifications) + [Notification(clock, "success", SavedMessage)])
  {
    if !Truthy(cases.activeTestCaseId) {
      return;
    }
    var id := cases.activeTestCaseId.value;
    var updatedTestCase := SavedRow(id, editor.formData);
    cases.UpdateTestCase(id, PatchOf(editor.formData), now);
    if saveFails {
      return;
    }
    db.SaveTestCase(updatedTestCase);
    editor.hasUnsavedChanges := false;
    ui.AddNotification(Ui.NotificationDraft(None, "success", SavedMessage), clock);
  }

  /** `handleSave` writing the store's patched case, timestamps included,
      instead of the bare form. */
  method HandleSaveFixed(editor: Editor, cases: TestCases.TestCaseList, db: Database.Repository, ui: Ui.UiState,
                         now: string, clock: int, saveFails: bool)
    requires db.Valid()
    modifies editor, cases, db, ui
    ensures db.Valid()
    ensures editor.formData == old(editor.formData)
    ensures cases.activeTestCaseId == old(cases.activeTestCaseId)
    ensures db.results == old(db.results) && db.grades == old(db.grades) && db.settings == old(db.settings)
    ensures ui.View() == old(ui.View()).(notifications := ui.notifications)
    ensures !Truthy(old(cases.activeTestCaseId)) ==>
      && cases.testCases == old(cases.testCases) && db.testCases == old(db.testCases)
      && editor.hasUnsavedChanges == old(editor.hasUnsavedChanges) && ui.notifications == old(ui.notifications)
    ensures Truthy(old(cases.activeTestCaseId)) ==>
      var id := old(cases.activeTestCaseId).value;
      var i := TestCases.FindIndex(old(cases.testCases), id);
      && cases.testCases == TestCases.Updated(old(cases.testCases), id, PatchOf(old(editor.formData)), now)
      && (saveFails ==>
            && db.testCases == old(db.testCases) && editor.hasUnsavedChanges == old(editor.hasUnsavedChanges)
            && ui.notifications == old(ui.notifications))
      && (!saveFails ==>
            && id in db.testCases
            && (0 <= i ==> db.testCases[id] == TestCases.Patched(old(cases.testCases)[i], PatchOf(old(editor.formData)), now))
            && (i < 0 ==> db.testCases[id] == SavedRow(id, old(editor.formData)))
            && !editor.hasUnsavedChanges
            && ui.notifications == old(ui.notifications) + [Notification(clock, "success", SavedMessage)])
  {
    if !Truthy(cases.activeTestCaseId) {
      return;
    }
    var id := cases.activeTestCaseId.value;
    var i := TestCases.FindIndex(cases.testCases, id);
    var row := if i >= 0 then TestCases.Patched(cases.testCases[i], PatchOf(editor.formData), now)
               else SavedRow(id, editor.formData);
    cases.UpdateTestCase(id, PatchOf(editor.formData), now);
    if saveFails {
      return;
    }
    db.SaveTestCase(row);
    editor.hasUnsavedChanges := false;
    ui.AddNotification(Ui.NotificationDraft(None, "success", SavedMessage), clock);
  }

  /** `handleNewTestCase`: a case named `New Test Case` with empty fields is
      added and made active, then written to the database; a failed write is
      swallowed. */
  method HandleNewTestCase(cases: TestCases.TestCaseList, db: Database.Repository, freshId: string, now: string,
                           saveFails: bool)
    requires db.Valid()
    modifies cases, db
    ensures db.Valid()
    ensures cases.testCases == old(cases.testCases) + [TestCases.NewTestCase(NewDraft, freshId, now)]
    ensures cases.activeTestCaseId == Some(freshId)
    ensures saveFails ==> db.testCases == old(db.testCases)
    ensures !saveFails ==> db.testCases == old(db.testCases)[freshId := TestCases.NewTestCase(NewDraft, freshId, now)]
    ensures db.results == old(db.results) && db.grades == old(db.grades) && db.settings == old(db.settings)
  {
    cases.AddTestCase(NewDraft, freshId, now);
    var createdTestCase := cases.testCases[|cases.testCases| - 1];
    if !saveFails {
      db.SaveTestCase(createdTestCase);
    }
  }

  /** `handleDeleteTestCase`: with a truthy active id and the user's
      confirmation, the case leaves the list, then the database deletes it
      with its results and grades; `deleteFails` is that transaction
      rejecting, which skips the notification. */
  method HandleDeleteTestCase(cases: TestCases.TestCaseList, db: Database.Repository, ui: Ui.UiState,
                              confirmed: bool, deleteFails: bool, clock: int)
    requires db.Valid()
    modifies cases, db, ui
    ensures db.Valid()
    ensures ui.View() == old(ui.View()).(notifications := ui.notifications)
    ensures !Truthy(old(cases.activeTestCaseId)) || !confirmed ==>
      && cases.testCases == old(cases.testCases) && cases.activeTestCaseId == old(cases.activeTestCaseId)
      && db.testCases == old(db.testCases) && db.results == old(db.results) && db.grades == old(db.grades)
      && ui.notifications == old(ui.notifications)
    ensures Truthy(old(cases.activeTestCaseId)) && confirmed ==>
      var id := old(cases.activeTestCaseId).value;
      && cases.testCases == TestCases.Without(old(cases.testCases), id)
      && cases.activeTestCaseId == TestCases.FirstIdOrNull(cases.testCases)
      && (deleteFails ==>
            && db.testCases == old(db.testCases) && db.results == old(db.results) && db.grades == old(db.grades)
            && ui.notifications == old(ui.notifications))
      && (!deleteFails ==>
            && db.testCases == old(db.testCases) - {id}
            && db.results == Database.WithoutCase(old(db.results), id)
            && db.grades == Database.WithoutCase(old(db.grades), id)
            && ui.notifications == old(ui.notifications) + [Notification(clock, "info", DeletedMessage)])
    ensures db.settings == old(db.settings)
  {
    if !Truthy(cases.activeTestCaseId) || !confirmed {
      return;
    }
    var id := cases.activeTestCaseId.value;
    cases.DeleteTestCase(id);
    if deleteFails {
      return;
    }
    db.DeleteTestCase(id);
    ui.AddNotification(Ui.NotificationDraft(None, "info", DeletedMessage), clock);
  }

  /** `handleRunTest`: the run request for the active case and the selected
      models, or a warning when there is no active case or no model. */
  method HandleRunTest(cases: TestCases.TestCaseList, selectedModels: seq<string>, ui: Ui.UiState, clock: int)
    returns (request: Option<RunRequest>)
    modifies ui
    ensures var active := ActiveCase(cases.testCases, cases.activeTestCaseId);
      && (request.Some? <==> active.Some? && |selectedModels| > 0)
      && (request.Some? ==>
            && request.value == RunRequest(active.value, selectedModels, ui.enableRoundTrip, ui.translationModel)
            && ui.notifications == old(ui.notifications))
      && (request.None? ==> ui.notifications == old(ui.notifications) + [Notification(clock, "warning", NoModelsMessage)])
    ensures ui.View() == old(ui.View()).(notifications := ui.notifications)
  {
    var activeTestCase := ActiveCase(cases.testCases, cases.activeTestCaseId);
    if activeTestCase.None? || |selectedModels| == 0 {
      ui.AddNotification(Ui.NotificationDraft(None, "warning", NoModelsMessage), clock);
      return None;
    }
    request := Some(RunRequest(activeTestCase.value, selectedModels, ui.enableRoundTrip, ui.translationModel));
  }

  /** `handleTabChange`: unsaved edits are saved first if the user agrees,
      then the chosen tab's id becomes active. */
  method HandleTabChange(editor: Editor, cases: TestCases.TestCaseList, db: Database.Repository, ui: Ui.UiState,
                         newValue: Option<string>, confirmed: bool, now: string, clock: int, saveFails: bool)
    requires db.Valid()
    modifies editor, cases, db, ui
    ensures db.Valid()
    ensures cases.activeTestCaseId == newValue
    ensures editor.formData == old(editor.formData)
    ensures db.results == old(db.results) && db.grades == old(db.grades) && db.settings == old(db.settings)
    ensures ui.View() == old(ui.View()).(notifications := ui.notifications)
    ensures !(old(editor.hasUnsavedChanges) && confirmed && Truthy(old(cases.activeTestCaseId))) ==>
      && cases.testCases == old(cases.testCases) && db.testCases == old(db.testCases)
      && editor.hasUnsavedChanges == old(editor.hasUnsavedChanges) && ui.notifications == old(ui.notifications)
    ensures old(editor.hasUnsavedChanges) && confirmed && Truthy(old(cases.activeTestCaseId)) ==>
      var id := old(cases.activeTestCaseId).value;
      && cases.testCases == TestCases.Updated(old(cases.testCases), id, PatchOf(old(editor.formData)), now)
      && (saveFails ==>
            && db.testCases == old(db.testCases) && editor.hasUnsavedChanges
            && ui.notifications == old(ui.notifications))
      && (!saveFails ==>
            && db.testCases == old(db.testCases)[id := SavedRow(id, old(editor.formData))]
            && !editor.hasUnsavedChanges
            && ui.notifications == old(ui.notifications) + [Notification(clock, "success", SavedMessage)])
  {
    if editor.hasUnsavedChanges && confirmed {
      HandleSave(editor, cases, db, ui, now, clock, saveFails);
    }
    cases.SetActiveTestCase(newValue);
  }

  /** `isTestRunning`: the active id is truthy and some model of it is running. */
  predicate IsTestRunning(status: Nested<ExecStatus>, activeId: Option<string>) {
    Truthy(activeId) && activeId.value in status && Running in status[activeId.value].Values
  }

  const RunningLabel := "\U{23F3} Running..."
  const CompletedLabel := "\U{2705} Completed"
  const WaitingLabel := "\U{23F8}\U{FE0F} Waiting"

  /** The per-model line under the progress bar; a model without a status waits. */
  function StatusLabel(status: Option<ExecStatus>): string {
    match status
    case Some(Running) => RunningLabel
    case Some(Completed) => CompletedLabel
    case None => WaitingLabel
  }

  // ---------------------------------------------------------------------------
  // Properties

  /** After a save the store's case, read back into the form, gives the form
      that was saved: saving and reloading loses no edit. */
  lemma SaveReloadsForm(tc: TestCase, f: Form, now: string)
    ensures FormOf(TestCases.Patched(tc, PatchOf(f), now)) == f
  {
  }

  /** A field change sets exactly that field. */
  lemma WithFieldFacts(f: Form, field: Field, other: Field, value: string)
    ensures FieldOf(WithField(f, field, value), field) == value
    ensures other != field ==> FieldOf(WithField(f, field, value), other) == FieldOf(f, other)
  {
  }

  /** After a successful save, reloading the active case into the form gives
      back the form that was saved, and the store's case is newer. */
  lemma {:induction false} SavedCaseShowsForm(cases: seq<TestCase>, id: string, f: Form, now: string)
    requires 0 <= TestCases.FindIndex(cases, id)
    ensures var u := TestCases.Updated(cases, id, PatchOf(f), now);
      && ActiveCase(u, Some(id)).Some?
      && FormOf(ActiveCase(u, Some(id)).value) == f
      && ActiveCase(u, Some(id)).value.updatedAt == Some(now)
      && ActiveCase(u, Some(id)).value.createdAt == cases[TestCases.FindIndex(cases, id)].createdAt
  {
    var i := TestCases.FindIndex(cases, id);
    TestCases.UpdatedAt(cases, id, PatchOf(f), now, i);
    var u := TestCases.Updated(cases, id, PatchOf(f), now);
    assert u[i].id == id;
    assert TestCases.FindIndex(u, id) == i;
  }

  /** The row `handleSave` writes has lost the case's timestamps, while the
      store's copy keeps `createdAt` and gets a fresh `updatedAt`. */
  lemma SavedRowDropsTimestamps(cases: seq<TestCase>, id: string, f: Form, now: string)
    requires 0 <= TestCases.FindIndex(cases, id)
    requires cases[TestCases.FindIndex(cases, id)].createdAt.Some?
    ensures SavedRow(id, f).createdAt == None && SavedRow(id, f).updatedAt == None
    ensures var i := TestCases.FindIndex(cases, id);
      var u := TestCases.Updated(cases, id, PatchOf(f), now);
      && i < |u| && u[i].createdAt == cases[i].createdAt && u[i].updatedAt == Some(now)
  {
    var i := TestCases.FindIndex(cases, id);
    TestCases.UpdatedAt(cases, id, PatchOf(f), now, i);
  }

  /** The case `handleNewTestCase` writes is the one it just made active,
      with the default name, empty fields and both timestamps. */
  lemma NewCaseIsActive(cases: seq<TestCase>, freshId: string, now: string)
    requires forall k :: 0 <= k < |cases| ==> cases[k].id != freshId
    ensures var tc := TestCases.NewTestCase(NewDraft, freshId, now);
      && ActiveCase(cases + [tc], Some(freshId)) == Some(tc)
      && FormOf(tc) == Form(TestCases.DefaultName, "", "", "", "")
      && tc.createdAt == Some(now) && tc.updatedAt == Some(now)
  {
    var tc := TestCases.NewTestCase(NewDraft, freshId, now);
    var s := cases + [tc];
    assert s[|cases|].id == freshId;
    assert forall k :: 0 <= k < |cases| ==> s[k].id != freshId;
  }

  /** A test is running exactly when some model of the truthy active id has
      the running status. */
  lemma IsTestRunningIff(status: Nested<ExecStatus>, activeId: Option<string>)
    ensures IsTestRunning(status, activeId) <==> Truthy(activeId) && exists m :: Lookup(status, activeId.value, m) == Some(Running)
  {
    if IsTestRunning(status, activeId) {
      var m :| m in status[activeId.value] && status[activeId.value][m] == Running;
      assert Lookup(status, activeId.value, m) == Some(Running);
    }
    if Truthy(activeId) && exists m :: Lookup(status, activeId.value, m) == Some(Running) {
      var m :| Lookup(status, activeId.value, m) == Some(Running);
      assert status[activeId.value][m] in status[activeId.value].Values;
    }
  }

  /** No test runs while nothing has a status, and a run of any model of the
      active case makes it running. */
  lemma IsTestRunningFacts(status: Nested<ExecStatus>, id: string, modelId: string)
    ensures !IsTestRunning(map[], Some(id))
    ensures id != "" ==> IsTestRunning(Put(status, id, modelId, Running), Some(id))
  {
    if id != "" {
      var s := Put(status, id, modelId, Running);
      PutLookup(status, id, modelId, Running, id, modelId);
      assert s[id][modelId] in s[id].Values;
    }
  }

  /** The three labels are distinct, so the line tells the states apart. */
  lemma StatusLabelsDistinct(a: Option<ExecStatus>, b: Option<ExecStatus>)
    ensures StatusLabel(a) == StatusLabel(b) <==> a == b
  {
    assert RunningLabel[0] != CompletedLabel[0] && RunningLabel[0] != WaitingLabel[0] && CompletedLabel[0] != WaitingLabel[0];
  }
}
