/** The entities the application stores and passes around: test cases,
    execution results, grades, model descriptors and notifications. Fields a
    record may lack are `Option`s; timestamps and ids are opaque strings. */
module Domain {
  import opened Common
  import Diff

  /** A test case: a prompt, optional source material and an optional
      reference answer. Rows read back from storage may lack any field but
      the id. */
  datatype TestCase = TestCase(
    id: string,
    name: Option<string>,
    systemPrompt: Option<string>,
    userPrompt: Option<string>,
    sourceText: Option<string>,
    expectedResult: Option<string>,
    createdAt: Option<string>,
    updatedAt: Option<string>)

  /** The `status` field of a result object. */
  datatype RunStatus = Succeeded | Failed

  /** What the invocation client returns for one successful run. The fields a
      plain run does not produce are missing. */
  datatype RunResponse = RunResponse(
    output: Option<string>,
    roundTripOutput: Option<string>,
    translatedPrompt: Option<string>,
    tokensUsed: int,
    latency: int)

  /** One model's result for one test case. `diff` is missing when the test
      case has no expected result, and `Some(None)` when `calculateDiff`
      returned `null`. */
  datatype ExecutionResult = ExecutionResult(
    testCaseId: string,
    modelId: string,
    output: Option<string>,
    roundTripOutput: Option<string>,
    translatedPrompt: Option<string>,
    tokensUsed: Option<int>,
    latency: Option<int>,
    timestamp: string,
    status: RunStatus,
    error: Option<string>,
    diff: Option<Option<Diff.LineDiff>>)

  datatype GradeMethod = Manual | Automatic

  /** A grade: a manual grade carries the comments of the person grading, an automatic one
      the judge model's full reply as feedback. */
  datatype Grade = Grade(
    score: int,
    comments: Option<string>,
    feedback: Option<string>,
    gradeMethod: GradeMethod,
    timestamp: string)

  /** A stored grade row: the grade spread into an object with its key. */
  datatype GradeRow = GradeRow(testCaseId: string, modelId: string, grade: Grade)

  /** The values `executionStatus` holds; both are truthy strings. */
  datatype ExecStatus = Running | Completed

  datatype Pricing = Pricing(prompt: string, completion: string)

  /** A model the user can select. */
  datatype ModelDescriptor = ModelDescriptor(
    id: string,
    name: string,
    description: Option<string>,
    contextLength: Option<int>,
    pricing: Option<Pricing>)

  /** A queued notification; `kind` is the `type` field ("success", "error",
      "warning", ...). */
  datatype Notification = Notification(id: int, kind: string, message: string)

  /** The ids of a list of models, in order. */
  function IdsOf(models: seq<ModelDescriptor>): (ids: seq<string>)
    ensures |ids| == |models|
    ensures forall i :: 0 <= i < |models| ==> ids[i] == models[i].id
  {
    if models == [] then [] else [models[0].id] + IdsOf(models[1..])
  }
}
