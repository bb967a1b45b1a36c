/** The grading dialog (src/components/GradingDialog/GradingDialog.jsx): its
    local state (method, manual score, comments, busy flag) and the submit
    sequence that grades a result, stores the grade and reports back. */
module GradingDialog {
  import opened Common
  import opened Domain
  import opened NestedMap
  import Database
  import Invocation
  import ResultsStore
  import Ui

  const DefaultMethod := "manual"
  const DefaultScore := 50
  const GradedMessage := "Result graded successfully"
  const FailurePrefix := "Grading failed: "

  /** A value the score slider can produce: 0 to 100 in steps of 5. */
  predicate OnSlider(score: int) {
    0 <= score <= 100 && score % 5 == 0
  }

  /** What the submit sequence ended with: whether the dialog asked to be
      closed, and the request sent to the judge model, if any. */
  datatype Submitted = Submitted(closed: bool, judge: Option<Invocation.ChatRequest>)

  class Dialog {
    var gradingMethod: string
    var manualScore: int
    var comments: string
    var loading: bool

    /** The score always sits on the slider. */
    ghost predicate Valid()
      reads this
    {
      OnSlider(manualScore)
    }

    constructor()
      ensures Valid()
      ensures gradingMethod == DefaultMethod && manualScore == DefaultScore && comments == "" && !loading
    {
      gradingMethod := DefaultMethod;
      manualScore := DefaultScore;
      comments := "";
      loading := false;
    }

    /** The radio group. */
    method SetGradingMethod(m: string)
      modifies this
      ensures gradingMethod == m
      ensures manualScore == old(manualScore) && comments == old(comments) && loading == old(loading)
    {
      gradingMethod := m;
    }

    /** The slider: it only hands over values on its grid. */
    method SetManualScore(value: int)
      requires Valid() && OnSlider(value)
      modifies this
      ensures Valid()
      ensures manualScore == value
      ensures gradingMethod == old(gradingMethod) && comments == old(comments) && loading == old(loading)
    {
      manualScore := value;
    }

    method SetComments(text: string)
      modifies this
      ensures comments == text
      ensures gradingMethod == old(gradingMethod) && manualScore == old(manualScore) && loading == old(loading)
    {
      comments := text;
    }
  }

  /** `handleSubmit`. The judge's reply, the clock readings and a failed
      database write (`saveError`, the message it rejects with) are
      parameters. The thunk's fulfilled reducer stores the grade before the
      handler sees it; then the grade row is written, the grade is dispatched
      again, a success notification is queued and the dialog asks to close.
      A rejected grading or a failed write queues `Grading failed: <message>`
      and leaves the dialog open. Every path ends with the busy flag down. */
  method HandleSubmit(dialog: Dialog, store: ResultsStore.Store, db: Database.Repository, ui: Ui.UiState,
                      tc: TestCase, modelId: string, result: ExecutionResult, autoGradingModel: Option<string>,
                      judgeReply: Result<string, string>, now: string, clock: int, saveError: Option<string>)
    returns (s: Submitted)
    requires db.Valid()
    modifies dialog, store, db, ui
    ensures db.Valid()
    ensures !dialog.loading
    ensures dialog.gradingMethod == old(dialog.gradingMethod) && dialog.manualScore == old(dialog.manualScore)
    ensures dialog.comments == old(dialog.comments)
    ensures store.results == old(store.results) && store.executionStatus == old(store.executionStatus)
    ensures store.loading == old(store.loading) && store.error == old(store.error)
    ensures ui.View() == old(ui.View()).(notifications := ui.notifications)
    ensures db.testCases == old(db.testCases) && db.results == old(db.results) && db.settings == old(db.settings)
    ensures var c := ResultsStore.GradeResult(tc, result, modelId, old(dialog.gradingMethod), old(dialog.manualScore),
                                              Some(old(dialog.comments)), autoGradingModel, judgeReply, now);
      && s.judge == c.judge
      && (c.outcome.Err? ==>
            && !s.closed
            && store.grades == old(store.grades) && db.grades == old(db.grades)
            && ui.notifications == old(ui.notifications) + [Notification(clock, "error", FailurePrefix + c.outcome.error)])
      && (c.outcome.Ok? ==>
            && store.grades == Put(old(store.grades), tc.id, modelId, c.outcome.value.grade)
            && (saveError.Some? ==>
                  && !s.closed && db.grades == old(db.grades)
                  && ui.notifications == old(ui.notifications) + [Notification(clock, "error", FailurePrefix + saveError.value)])
            && (saveError.None? ==>
                  && s.closed
                  && db.grades == old(db.grades)[(tc.id, modelId) := c.outcome.value]
                  && ui.notifications == old(ui.notifications) + [Notification(clock, "success", GradedMessage)]))
  {
    dialog.loading := true;
    var call := ResultsStore.GradeResult(tc, result, modelId, dialog.gradingMethod, dialog.manualScore,
                                         Some(dialog.comments), autoGradingModel, judgeReply, now);
    s := Submitted(false, call.judge);
    if call.outcome.Err? {
      ui.AddNotification(Ui.NotificationDraft(None, "error", FailurePrefix + call.outcome.error), clock);
      dialog.loading := false;
      return;
    }
    var gradeData := call.outcome.value;
    store.GradeFulfilled(gradeData.testCaseId, gradeData.modelId, gradeData.grade);
    var gradeToSave := GradeRow(tc.id, modelId, gradeData.grade);
    if saveError.Some? {
      ui.AddNotification(Ui.NotificationDraft(None, "error", FailurePrefix + saveError.value), clock);
      dialog.loading := false;
      return;
    }
    db.SaveGrade(gradeToSave);
    store.AddGrade(tc.id, modelId, gradeData.grade);
    PutOverwrites(old(store.grades), tc.id, modelId, gradeData.grade, gradeData.grade);
    ui.AddNotification(Ui.NotificationDraft(None, "success", GradedMessage), clock);
    s := s.(closed := true);
    dialog.loading := false;
  }

  // ---------------------------------------------------------------------------
  // Properties

  /** A manual submission from a dialog whose score is on the slider always
      grades, with that score (within 0..100) and the comments typed. */
  lemma ManualGradeOnSlider(tc: TestCase, result: ExecutionResult, modelId: string, gradingMethod: string,
                            manualScore: int, comments: string, autoGradingModel: Option<string>,
                            judgeReply: Result<string, string>, now: string)
    requires OnSlider(manualScore) && gradingMethod != "automatic"
    ensures var c := ResultsStore.GradeResult(tc, result, modelId, gradingMethod, manualScore, Some(comments),
                                              autoGradingModel, judgeReply, now);
      && c.outcome.Ok? && c.judge.None?
      && 0 <= c.outcome.value.grade.score <= 100
      && c.outcome.value.grade.comments == Some(comments)
      && c.outcome.value.grade.gradeMethod == Manual
  {
  }

  /** After a successful submission the store and the database hold the
      same grade for the pair. */
  lemma StoreMatchesDatabase(grades: Nested<Grade>, rows: map<Database.Key, GradeRow>, row: GradeRow)
    ensures Lookup(Put(grades, row.testCaseId, row.modelId, row.grade), row.testCaseId, row.modelId)
            == Some(rows[Database.GradeKey(row) := row][(row.testCaseId, row.modelId)].grade)
  {
    PutLookup(grades, row.testCaseId, row.modelId, row.grade, row.testCaseId, row.modelId);
  }
}
