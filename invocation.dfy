/** The invocation client (src/services/openRouterService.js) with its
    network calls abstracted: every reply of a remote call is an input, and
    the client's own logic (which backend to use, the messages it sends, how
    it reads a judge's score, how it splits a translation, how it assembles a
    run's response and wraps its errors, how it normalises model lists) is
    modelled. */
module Invocation {
  import opened Common
  import opened Domain

  // ---------------------------------------------------------------------------
  // Backend selection

  datatype ClientConfig = ClientConfig(isLocal: bool, baseURL: Option<string>)

  /** The development proxy prefix the local backend is reached through. */
  const DevBaseURL := "/api/local/"

  /** `getClientConfig`: the local backend is used exactly when self-hosting
      is switched on and a local server path is stored; the base URL is the
      proxy prefix in development and the stored path otherwise. */
  function ClientConfigFor(enabledSelfHosted: bool, llmFrogPath: Option<string>, isDevelopment: bool): (c: ClientConfig)
    ensures c.isLocal <==> enabledSelfHosted && Truthy(llmFrogPath)
    ensures isDevelopment ==> c.baseURL == Some(DevBaseURL)
    ensures !isDevelopment ==> c.baseURL == llmFrogPath
  {
    var baseURL := if isDevelopment then Some(DevBaseURL) else llmFrogPath;
    ClientConfig(enabledSelfHosted && Truthy(llmFrogPath), baseURL)
  }

  // ---------------------------------------------------------------------------
  // Chat requests

  datatype Role = System | User
  datatype Message = Message(role: Role, content: Option<string>)
  datatype ChatRequest = ChatRequest(model: string, messages: seq<Message>, temperature: real)

  /** The content of the user message: the prompt, followed by the source
      text under a heading when there is one. */
  function UserContent(tc: TestCase): Option<string> {
    if Truthy(tc.sourceText) then Some(Template(tc.userPrompt) + "\n\nSource text:\n" + tc.sourceText.value)
    else tc.userPrompt
  }

  /** The messages `buildMessages` produces for a test case. */
  function MessagesFor(tc: TestCase): seq<Message> {
    (if Truthy(tc.systemPrompt) then [Message(System, tc.systemPrompt)] else [])
    + [Message(User, UserContent(tc))]
  }

  /** `buildMessages`. */
  method BuildMessages(tc: TestCase) returns (messages: seq<Message>)
    ensures messages == MessagesFor(tc)
  {
    messages := [];
    if Truthy(tc.systemPrompt) {
      messages := messages + [Message(System, tc.systemPrompt)];
    }
    var userContent := tc.userPrompt;
    if Truthy(tc.sourceText) {
      userContent := Some(Template(tc.userPrompt) + "\n\nSource text:\n" + tc.sourceText.value);
    }
    messages := messages + [Message(User, userContent)];
  }

  /** The messages start with one system message exactly when there is a
      system prompt, and end with exactly one user message carrying the
      prompt (and the source text, when there is one). */
  lemma MessagesShape(tc: TestCase)
    ensures var ms := MessagesFor(tc);
      && |ms| == (if Truthy(tc.systemPrompt) then 2 else 1)
      && (ms[0].role == System <==> Truthy(tc.systemPrompt))
      && (Truthy(tc.systemPrompt) ==> ms[0].content == tc.systemPrompt)
      && ms[|ms| - 1].role == User
      && (forall i :: 0 <= i < |ms| - 1 ==> ms[i].role == System)
      && (!Truthy(tc.sourceText) ==> ms[|ms| - 1].content == tc.userPrompt)
      && (Truthy(tc.sourceText) ==>
            ms[|ms| - 1].content == Some(Template(tc.userPrompt) + "\n\nSource text:\n" + tc.sourceText.value))
  {
  }

  // ---------------------------------------------------------------------------
  // Running one test

  /** A chat completion's reply: the first choice's content and the reported
      token total, either of which may be missing. */
  datatype Completion = Completion(content: Option<string>, totalTokens: Option<int>)

  /** `usage?.total_tokens || 0`. */
  function TokensOrZero(t: Option<int>): int {
    if t.Some? then t.value else 0
  }

  /** The message `runTest` rethrows a failure with. */
  function RunError(modelId: string, message: string): string {
    "Failed to run test with " + modelId + ": " + message
  }

  /** The message `runRoundTripTest` rethrows a failure with. */
  function RoundTripError(modelId: string, message: string): string {
    "Failed to run round-trip test with " + modelId + ": " + message
  }

  /** `runTest`: one completion call; a failure anywhere is rethrown under
      the model's name. `reply` is the call's outcome (or the failure of
      obtaining a client), `start` and `end` the clock before and after. */
  method RunTest(tc: TestCase, modelId: string, reply: Result<Completion, string>, start: int, end: int)
    returns (r: Result<RunResponse, string>, request: ChatRequest)
    ensures request == ChatRequest(modelId, MessagesFor(tc), 0.7)
    ensures r.Err? <==> reply.Err?
    ensures reply.Err? ==> r.error == RunError(modelId, reply.error)
    ensures reply.Ok? ==> r.value == RunResponse(reply.value.content, None, None, TokensOrZero(reply.value.totalTokens), end - start)
  {
    var messages := BuildMessages(tc);
    request := ChatRequest(modelId, messages, 0.7);
    if reply.Err? {
      r := Err(RunError(modelId, reply.error));
    } else {
      r := Ok(RunResponse(reply.value.content, None, None, TokensOrZero(reply.value.totalTokens), end - start));
    }
  }

  // ---------------------------------------------------------------------------
  // Translation

  /** The default model of `runRoundTripTest` and `autoGrade`. */
  const DefaultModel := "openai/gpt-4.1"

  /** A JavaScript default parameter: it applies only when the argument is
      `undefined`, not when it is the empty string. */
  function TranslationModelOr(translationModel: Option<string>): string {
    if translationModel.Some? then translationModel.value else DefaultModel
  }

  const SourceMarker := "\nSource material:"

  /** The fixed text of the translation prompts. */
  const EnglishHead := "Translate the following Dutch text to English. Maintain the exact meaning and tone.\n\nDutch text: "
  const EnglishTail := "\n\nProvide only the English translation without any explanation."
  const DutchHead := "Translate the following English text to Dutch. Maintain the exact meaning and tone.\n\nEnglish text: "
  const DutchTail := "\n\nProvide only the Dutch translation without any explanation."

  function ToEnglishPrompt(userPrompt: Option<string>, sourceText: Option<string>): string {
    EnglishHead
    + Template(userPrompt) + "\n"
    + (if Truthy(sourceText) then "\nSource material: " + sourceText.value else "")
    + EnglishTail
  }

  function ToDutchPrompt(text: Option<string>): string {
    DutchHead
    + Template(text) + DutchTail
  }

  /** How `translateToEnglish` reads the translation back into a prompt and
      a source text. */
  function TranslatedParts(translation: string, sourceText: Option<string>): (string, string) {
    if Truthy(sourceText) then
      var parts := SplitOn(translation, SourceMarker);
      (Trim(parts[0]), if |parts| > 1 then Trim(parts[1]) else "")
    else (Trim(translation), "")
  }

  /** A translation laid out as the prompt asks (the prompt, the marker, the
      source) is read back as the trimmed prompt and the trimmed source. */
  lemma TranslationRoundTrip(u: string, s: string, sourceText: Option<string>)
    requires Truthy(sourceText)
    requires forall i: nat :: i < |u| ==> !OccursAt(u + SourceMarker + s, SourceMarker, i)
    requires forall i: nat :: !OccursAt(s, SourceMarker, i)
    ensures TranslatedParts(u + SourceMarker + s, sourceText) == (Trim(u), Trim(s))
  {
    SplitAtFirst(u, SourceMarker, s);
    SplitWithoutSeparator(s, SourceMarker);
  }

  /** A translation without the marker is read as a prompt alone, and the
      source text is lost. */
  lemma TranslationWithoutMarker(t: string, sourceText: Option<string>)
    requires forall i: nat :: !OccursAt(t, SourceMarker, i)
    ensures TranslatedParts(t, sourceText) == (Trim(t), "")
  {
    SplitWithoutSeparator(t, SourceMarker);
  }

  /** The translated prompt is the trimmed text before the FIRST marker:
      it contains no marker itself, and it starts the translation. */
  lemma TranslatedPromptBeforeMarker(t: string, sourceText: Option<string>)
    requires Truthy(sourceText)
    ensures exists pre ::
      (&& pre <= t
       && TranslatedParts(t, sourceText).0 == Trim(pre)
       && (forall i: nat :: !OccursAt(pre, SourceMarker, i)))
  {
    var parts := SplitOn(t, SourceMarker);
    JoinSplit(t, SourceMarker);
    PrefixOfJoin(parts, SourceMarker);
    forall i: nat ensures !OccursAt(parts[0], SourceMarker, i) {
      SplitFirstHasNoSeparator(t, SourceMarker, i);
    }
    assert TranslatedParts(t, sourceText).0 == Trim(parts[0]);
    assert parts[0] <= t;
  }

  /** The request that translates the prompt (and source) to English. */
  function ToEnglishRequest(model: string, tc: TestCase): ChatRequest {
    ChatRequest(model, [Message(User, Some(ToEnglishPrompt(tc.userPrompt, tc.sourceText)))], 0.3)
  }

  /** The test case the model is run on: prompt and source replaced by their
      translations. */
  function Translated(tc: TestCase, translation: string): TestCase {
    var parts := TranslatedParts(translation, tc.sourceText);
    tc.(userPrompt := Some(parts.0), sourceText := Some(parts.1))
  }

  /** The request that translates the model's output back to Dutch. */
  function ToDutchRequest(model: string, output: Option<string>): ChatRequest {
    ChatRequest(model, [Message(User, Some(ToDutchPrompt(output)))], 0.3)
  }

  /** The requests `runRoundTripTest` sends: the translation to English,
      then (if that succeeded) the model run on the translated test case,
      then (if that succeeded) the translation back to Dutch. */
  function RoundTripRequests(tc: TestCase, modelId: string, translationModel: Option<string>,
                             toEnglish: Result<string, string>, completion: Result<Completion, string>): seq<ChatRequest> {
    var model := TranslationModelOr(translationModel);
    [ToEnglishRequest(model, tc)]
    + (if toEnglish.Ok? then [ChatRequest(modelId, MessagesFor(Translated(tc, toEnglish.value)), 0.7)] else [])
    + (if toEnglish.Ok? && completion.Ok? then [ToDutchRequest(model, completion.value.content)] else [])
  }

  /** What `runRoundTripTest` returns or throws, given the three replies and
      the clock before the first and after the last call. */
  function RoundTripOutcome(tc: TestCase, modelId: string, toEnglish: Result<string, string>,
                            completion: Result<Completion, string>, toDutch: Result<string, string>,
                            start: int, end: int): Result<RunResponse, string> {
    if toEnglish.Err? then Err(RoundTripError(modelId, "Failed to translate to English"))
    else if completion.Err? then Err(RoundTripError(modelId, completion.error))
    else if toDutch.Err? then Err(RoundTripError(modelId, "Failed to translate to Dutch"))
    else Ok(RunResponse(completion.value.content, Some(Trim(toDutch.value)),
                        Translated(tc, toEnglish.value).userPrompt,
                        TokensOrZero(completion.value.totalTokens), end - start))
  }

  /** `runRoundTripTest`: translate the prompt to English, run the model on
      the translated test case, translate its output back, and rethrow any
      failure under the model's name. Each reply is an input. */
  method RunRoundTripTest(tc: TestCase, modelId: string, translationModel: Option<string>,
                          toEnglish: Result<string, string>, completion: Result<Completion, string>,
                          toDutch: Result<string, string>, start: int, end: int)
    returns (r: Result<RunResponse, string>, requests: seq<ChatRequest>)
    ensures requests == RoundTripRequests(tc, modelId, translationModel, toEnglish, completion)
    ensures r == RoundTripOutcome(tc, modelId, toEnglish, completion, toDutch, start, end)
  {
    var model := TranslationModelOr(translationModel);
    requests := [ToEnglishRequest(model, tc)];
    if toEnglish.Err? {
      return Err(RoundTripError(modelId, "Failed to translate to English")), requests;
    }
    var translated := Translated(tc, toEnglish.value);
    var messages := BuildMessages(translated);
    requests := requests + [ChatRequest(modelId, messages, 0.7)];
    if completion.Err? {
      return Err(RoundTripError(modelId, completion.error)), requests;
    }
    var englishOutput := completion.value.content;
    requests := requests + [ToDutchRequest(model, englishOutput)];
    if toDutch.Err? {
      return Err(RoundTripError(modelId, "Failed to translate to Dutch")), requests;
    }
    var dutchOutput := Trim(toDutch.value);
    r := Ok(RunResponse(englishOutput, Some(dutchOutput), translated.userPrompt, TokensOrZero(completion.value.totalTokens), end - start));
  }

  /** The calls stop at the first failure. */
  lemma RoundTripStopsAtFailure(tc: TestCase, modelId: string, translationModel: Option<string>,
                                toEnglish: Result<string, string>, completion: Result<Completion, string>)
    ensures |RoundTripRequests(tc, modelId, translationModel, toEnglish, completion)|
      == if toEnglish.Err? then 1 else if completion.Err? then 2 else 3
  {
  }

  /** The run succeeds exactly when all three calls do; a failure is
      rethrown under the model's name. */
  lemma RoundTripErrors(tc: TestCase, modelId: string, toEnglish: Result<string, string>,
                        completion: Result<Completion, string>, toDutch: Result<string, string>,
                        start: int, end: int)
    ensures var r := RoundTripOutcome(tc, modelId, toEnglish, completion, toDutch, start, end);
      && (r.Ok? <==> toEnglish.Ok? && completion.Ok? && toDutch.Ok?)
      && (r.Err? ==> exists m :: r.error == RoundTripError(modelId, m))
  {
    var r := RoundTripOutcome(tc, modelId, toEnglish, completion, toDutch, start, end);
    if toEnglish.Err? {
      assert r.error == RoundTripError(modelId, "Failed to translate to English");
    } else if completion.Err? {
      assert r.error == RoundTripError(modelId, completion.error);
    } else if toDutch.Err? {
      assert r.error == RoundTripError(modelId, "Failed to translate to Dutch");
    }
  }

  /** A success reports the untranslated output, a back-translation with no
      white space at either end, a trimmed translated prompt, the tokens the
      model call alone reported, and the time of the whole exchange. */
  lemma RoundTripSuccess(tc: TestCase, modelId: string, toEnglish: Result<string, string>,
                         completion: Result<Completion, string>, toDutch: Result<string, string>,
                         start: int, end: int)
    requires toEnglish.Ok? && completion.Ok? && toDutch.Ok?
    ensures var r := RoundTripOutcome(tc, modelId, toEnglish, completion, toDutch, start, end);
      && r.Ok?
      && r.value.output == completion.value.content
      && r.value.roundTripOutput.Some?
      && Trim(r.value.roundTripOutput.value) == r.value.roundTripOutput.value
      && r.value.translatedPrompt.Some?
      && Trim(r.value.translatedPrompt.value) == r.value.translatedPrompt.value
      && r.value.tokensUsed == (if completion.value.totalTokens.Some? then completion.value.totalTokens.value else 0)
      && r.value.latency == end - start
  {
    TrimIdempotent(toDutch.value);
    if Truthy(tc.sourceText) {
      TrimIdempotent(SplitOn(toEnglish.value, SourceMarker)[0]);
    } else {
      TrimIdempotent(toEnglish.value);
    }
  }

  // ---------------------------------------------------------------------------
  // Automatic grading

  const GradingIntro := "\nYou are an expert evaluator. You will be given a test case with a prompt and the model's response. Evaluate the quality of the response.\n\nTest Case Information:\nSystem Prompt: "
  const GradingOutro := "\n\nPlease evaluate this response and provide:\n1. A numeric score from 0-100\n2. Brief feedback explaining the score\n3. Key strengths and weaknesses\n\nFormat your response as:\nScore: [number]\nFeedback: [your detailed feedback]"

  /** The judge prompt `autoGrade` sends. */
  function GradingPrompt(tc: TestCase, output: Option<string>): string {
    GradingIntro + OrElse(tc.systemPrompt, "None")
    + "\nUser Prompt: " + Template(tc.userPrompt)
    + "\nSource Text: " + OrElse(tc.sourceText, "None")
    + "\nExpected Result: " + OrElse(tc.expectedResult, "None provided")
    + "\n\nModel Response: " + Template(output)
    + GradingOutro
  }

  /** The request `autoGrade` sends to the judge model. */
  function JudgeRequest(tc: TestCase, output: Option<string>, autoGradingModel: Option<string>): ChatRequest {
    ChatRequest(TranslationModelOr(autoGradingModel), [Message(User, Some(GradingPrompt(tc, output)))], 0.3)
  }

  predicate IsDigit(c: char) {
    '0' <= c <= '9'
  }

  /** The label `Score:` starts at `p`, in any mix of letter cases. */
  predicate LabelAt(text: string, p: nat) {
    p + 6 <= |text| && ToLower(text[p..p + 6]) == "score:"
  }

  /** The end of the run of white space starting at `i` (`\s*`, greedy). */
  function SkipSpaces(text: string, i: nat): (j: nat)
    requires i <= |text|
    ensures i <= j <= |text|
    ensures forall k :: i <= k < j ==> IsJsSpace(text[k])
    ensures j < |text| ==> !IsJsSpace(text[j])
    decreases |text| - i
  {
    if i < |text| && IsJsSpace(text[i]) then SkipSpaces(text, i + 1) else i
  }

  /** The length of the run of digits starting at `i`, at most three
      (`\d{1,3}`, greedy). */
  function DigitRun(text: string, i: nat): (n: nat)
    requires i <= |text|
    ensures n <= 3 && i + n <= |text|
    ensures forall k :: i <= k < i + n ==> IsDigit(text[k])
    ensures n < 3 && i + n < |text| ==> !IsDigit(text[i + n])
  {
    if i < |text| && IsDigit(text[i]) then
      if i + 1 < |text| && IsDigit(text[i + 1]) then
        if i + 2 < |text| && IsDigit(text[i + 2]) then 3 else 2
      else 1
    else 0
  }

  /** The score the pattern `Score:\s*(\d{1,3})` reads when a match starts
      at `p`, if one does. */
  function ScoreAt(text: string, p: nat): (r: Option<nat>)
    requires p <= |text|
    ensures r.Some? ==> r.value <= 999
  {
    if LabelAt(text, p) then
      var j := SkipSpaces(text, p + 6);
      var n := DigitRun(text, j);
      if n > 0 then
        DigitsBelow(text[j..j + n]);
        Some(DigitsValue(text[j..j + n]))
      else None
    else None
  }

  /** The value of `n` digits is below `10^n`. */
  lemma {:induction false} DigitsBelow(s: string)
    requires forall k :: 0 <= k < |s| ==> '0' <= s[k] <= '9'
    requires |s| <= 3
    ensures DigitsValue(s) < (if |s| == 0 then 1 else if |s| == 1 then 10 else if |s| == 2 then 100 else 1000)
  {
    if s != [] {
      DigitsBelow(s[..|s| - 1]);
    }
  }

  /** The first position from `p` on where the pattern matches. */
  function FirstMatch(text: string, p: nat): (r: Option<nat>)
    requires p <= |text|
    ensures r.Some? ==> p <= r.value <= |text| && ScoreAt(text, r.value).Some?
    ensures r.Some? ==> forall q :: p <= q < r.value ==> ScoreAt(text, q).None?
    ensures r.None? ==> forall q :: p <= q <= |text| ==> ScoreAt(text, q).None?
    decreases |text| - p
  {
    if ScoreAt(text, p).Some? then Some(p)
    else if p == |text| then None
    else FirstMatch(text, p + 1)
  }

  /** The score `autoGrade` extracts from the judge's reply: the digits of
      the first match, or 0 when nothing matches. */
  function ScoreFrom(text: string): (score: nat)
    ensures score <= 999
  {
    match FirstMatch(text, 0)
    case None => 0
    case Some(p) => ScoreAt(text, p).value
  }

  /** The outcome of `autoGrade` given the judge's reply (or the failure of
      the call): the whole reply becomes the feedback, whatever the score. */
  function AutoGradeOutcome(reply: Result<string, string>, now: string): (r: Result<Grade, string>)
    ensures r.Err? <==> reply.Err?
    ensures r.Err? ==> r.error == "Failed to auto-grade response"
    ensures r.Ok? ==> && r.value.feedback == Some(reply.value) && r.value.gradeMethod == Automatic
                      && r.value.comments == None && 0 <= r.value.score <= 999
                      && r.value.score == ScoreFrom(reply.value)
  {
    if reply.Err? then Err("Failed to auto-grade response")
    else Ok(Grade(ScoreFrom(reply.value), None, Some(reply.value), Automatic, now))
  }

  /** A reply in the requested format yields the score it states. */
  lemma ScoreOfFormattedReply()
    ensures ScoreFrom("Score: 87\nGood.") == 87
  {
    var t := "Score: 87\nGood.";
    LowerLabel(t[0..6]);
    assert SkipSpaces(t, 6) == 7;
    assert DigitRun(t, 7) == 2;
    assert t[7..9] == "87";
    assert DigitsValue("87") == 87 by {
      assert "87"[..1] == "8";
    }
  }

  /** At most three digits are read, and the score is not limited to 100. */
  lemma ScoreTakesThreeDigits()
    ensures ScoreFrom("SCORE:1234") == 123
  {
    var t := "SCORE:1234";
    LowerLabel(t[0..6]);
    assert SkipSpaces(t, 6) == 6;
    assert DigitRun(t, 6) == 3;
    assert t[6..9] == "123";
    assert DigitsValue("123") == 123 by {
      assert "123"[..2] == "12";
      assert "12"[..1] == "1";
    }
  }

  /** The label in capitals or with a capital first letter reads as `score:`. */
  lemma LowerLabel(w: string)
    requires w == "Score:" || w == "SCORE:"
    ensures ToLower(w) == "score:"
  {
    var l := ToLower(w);
    assert l[0] == 's' && l[1] == 'c' && l[2] == 'o' && l[3] == 'r' && l[4] == 'e' && l[5] == ':';
  }

  /** A reply without the label scores 0. */
  lemma ScoreWithoutLabel(text: string)
    requires forall p: nat :: p <= |text| ==> !LabelAt(text, p)
    ensures ScoreFrom(text) == 0
  {
    assert forall p: nat :: p <= |text| ==> ScoreAt(text, p).None?;
  }

  // ---------------------------------------------------------------------------
  // Model listings

  /** One GGUF file of a local model listing. */
  datatype GgufFile = GgufFile(suggestedModelID: Option<string>, quantization: Option<string>)

  /** One model of the local search reply. */
  datatype HubModel = HubModel(author: Option<string>, downloads: Option<int>, ggufFiles: Option<seq<GgufFile>>)

  /** One model of the hosted listing reply. */
  datatype HostedModel = HostedModel(id: string, name: Option<string>, description: Option<string>,
                                     contextLength: Option<int>, pricing: Option<Pricing>)

  /** A local entry's display name: `author/<text after the first "/">` when
      the id has a non-empty part after a `:`, the id otherwise. */
  function LocalName(id: string, author: Option<string>): string {
    var colon := SplitOn(id, ":");
    if |colon| > 1 && colon[1] != "" then
      var slash := SplitOn(id, "/");
      Template(author) + "/" + (if |slash| > 1 then slash[1] else "undefined")
    else id
  }

  /** `model.downloads || 0`. */
  function DownloadsOrZero(d: Option<int>): int {
    if d.Some? then d.value else 0
  }

  /** The entry a local file with an id contributes. */
  function LocalEntry(m: HubModel, id: string, f: GgufFile): ModelDescriptor {
    ModelDescriptor(id, LocalName(id, m.author),
      Some(Template(f.quantization) + " - " + Template(m.author) + " - " + IntToString(DownloadsOrZero(m.downloads)) + " downloads"),
      Some(-1), Some(Pricing("0", "0")))
  }

  /** A file with an id, with the model it belongs to. */
  datatype FileRef = FileRef(model: HubModel, id: string, file: GgufFile)

  /** The entry a file contributes. */
  function EntryOf(r: FileRef): ModelDescriptor {
    LocalEntry(r.model, r.id, r.file)
  }

  /** The files of one model that have an id, in order. */
  function FileRefs(m: HubModel, files: seq<GgufFile>): seq<FileRef> {
    if files == [] then []
    else
      var last := files[|files| - 1];
      FileRefs(m, files[..|files| - 1])
      + (if Truthy(last.suggestedModelID) then [FileRef(m, last.suggestedModelID.value, last)] else [])
  }

  function FilesOf(m: HubModel): seq<GgufFile> {
    if m.ggufFiles.Some? then m.ggufFiles.value else []
  }

  /** All files with an id in the reply, in order. */
  function Candidates(ms: seq<HubModel>): seq<FileRef> {
    if ms == [] then [] else Candidates(ms[..|ms| - 1]) + FileRefs(ms[|ms| - 1], FilesOf(ms[|ms| - 1]))
  }

  /** The ids of a list of files. */
  function IdSet(rs: seq<FileRef>): set<string> {
    set r | r in rs :: r.id
  }

  /** The first file for each id, in the order ids are first seen. */
  function FirstById(rs: seq<FileRef>): seq<FileRef> {
    if rs == [] then []
    else
      var d := FirstById(rs[..|rs| - 1]);
      if rs[|rs| - 1].id in IdSet(d) then d else d + [rs[|rs| - 1]]
  }

  /** The entries of a list of files, in order. */
  function Entries(rs: seq<FileRef>): (es: seq<ModelDescriptor>)
    ensures |es| == |rs|
    ensures forall i :: 0 <= i < |rs| ==> es[i] == EntryOf(rs[i])
  {
    if rs == [] then [] else Entries(rs[..|rs| - 1]) + [EntryOf(rs[|rs| - 1])]
  }

  /** What the local branch lists for a reply. */
  function LocalListing(ms: seq<HubModel>): seq<ModelDescriptor> {
    Entries(FirstById(Candidates(ms)))
  }

  /** No two entries share an id. */
  predicate DistinctIds(es: seq<ModelDescriptor>) {
    forall i, j :: 0 <= i < j < |es| ==> es[i].id != es[j].id
  }

  /** The local branch of `getAvailableModels` on the search reply: a map
      keyed by id, filled file by file, keeps the first entry per id. A reply
      without a `models` array gives the empty list. */
  method LocalModels(reply: Option<seq<HubModel>>) returns (list: seq<ModelDescriptor>)
    ensures reply.None? ==> list == []
    ensures reply.Some? ==> list == LocalListing(reply.value)
  {
    list := [];
    if reply.None? {
      return;
    }
    var ms := reply.value;
    ghost var kept: seq<FileRef> := [];
    var seen: set<string> := {};
    for i := 0 to |ms|
      invariant kept == FirstById(Candidates(ms[..i]))
      invariant list == Entries(kept)
      invariant seen == IdSet(kept)
    {
      CandidatesStep(ms, i);
      list, seen, kept := AddFiles(list, seen, kept, ms[i], FilesOf(ms[i]), Candidates(ms[..i]));
    }
    assert ms[..|ms|] == ms;
  }

  /** The inner `forEach` over one model's files: each file with an id not
      yet seen adds its entry. */
  method AddFiles(list0: seq<ModelDescriptor>, seen0: set<string>, ghost kept0: seq<FileRef>,
                  m: HubModel, files: seq<GgufFile>, ghost before: seq<FileRef>)
    returns (list: seq<ModelDescriptor>, seen: set<string>, ghost kept: seq<FileRef>)
    requires kept0 == FirstById(before) && list0 == Entries(kept0) && seen0 == IdSet(kept0)
    ensures kept == FirstById(before + FileRefs(m, files)) && list == Entries(kept) && seen == IdSet(kept)
  {
    list, seen, kept := list0, seen0, kept0;
    assert before + FileRefs(m, files[..0]) == before;
    for j := 0 to |files|
      invariant kept == FirstById(before + FileRefs(m, files[..j]))
      invariant list == Entries(kept)
      invariant seen == IdSet(kept)
    {
      var f := files[j];
      AddFileStep(before, m, files, j);
      if Truthy(f.suggestedModelID) && f.suggestedModelID.value !in seen {
        var r := FileRef(m, f.suggestedModelID.value, f);
        IdSetSnoc(kept, r);
        EntriesSnoc(kept, r);
        list := list + [EntryOf(r)];
        seen := seen + {r.id};
        kept := kept + [r];
      }
    }
    assert files[..|files|] == files;
  }

  /** One file of the inner loop: it is added exactly when it has an id not
      kept so far. */
  lemma AddFileStep(before: seq<FileRef>, m: HubModel, files: seq<GgufFile>, j: nat)
    requires j < |files|
    ensures var kept := FirstById(before + FileRefs(m, files[..j]));
      var f := files[j];
      FirstById(before + FileRefs(m, files[..j + 1])) ==
        if Truthy(f.suggestedModelID) && f.suggestedModelID.value !in IdSet(kept)
        then kept + [FileRef(m, f.suggestedModelID.value, f)] else kept
  {
    FileRefsStep(m, files, j);
    var rs := before + FileRefs(m, files[..j]);
    var f := files[j];
    if Truthy(f.suggestedModelID) {
      var r := FileRef(m, f.suggestedModelID.value, f);
      assert before + FileRefs(m, files[..j + 1]) == rs + [r];
      FirstByIdSnoc(rs, r);
    } else {
      assert before + FileRefs(m, files[..j + 1]) == rs;
    }
  }

  lemma FirstByIdSnoc(rs: seq<FileRef>, r: FileRef)
    ensures FirstById(rs + [r]) == if r.id in IdSet(FirstById(rs)) then FirstById(rs) else FirstById(rs) + [r]
  {
    assert (rs + [r])[..|rs|] == rs;
  }

  lemma EntriesSnoc(rs: seq<FileRef>, r: FileRef)
    ensures Entries(rs + [r]) == Entries(rs) + [EntryOf(r)]
  {
    assert (rs + [r])[..|rs|] == rs;
  }

  lemma FileRefsStep(m: HubModel, files: seq<GgufFile>, j: nat)
    requires j < |files|
    ensures FileRefs(m, files[..j + 1]) == FileRefs(m, files[..j])
      + (if Truthy(files[j].suggestedModelID) then [FileRef(m, files[j].suggestedModelID.value, files[j])] else [])
  {
    assert files[..j + 1][..j] == files[..j];
  }

  lemma CandidatesStep(ms: seq<HubModel>, i: nat)
    requires i < |ms|
    ensures Candidates(ms[..i + 1]) == Candidates(ms[..i]) + FileRefs(ms[i], FilesOf(ms[i]))
  {
    assert ms[..i + 1][..i] == ms[..i];
  }

  lemma IdSetSnoc(rs: seq<FileRef>, r: FileRef)
    ensures IdSet(rs + [r]) == IdSet(rs) + {r.id}
  {
    assert forall x :: x in rs + [r] <==> x in rs || x == r;
  }

  /** The kept files have distinct ids. */
  lemma {:induction false} FirstByIdDistinct(rs: seq<FileRef>)
    ensures forall i, j :: 0 <= i < j < |FirstById(rs)| ==> FirstById(rs)[i].id != FirstById(rs)[j].id
  {
    if rs != [] {
      var init := rs[..|rs| - 1];
      FirstByIdDistinct(init);
      var d := FirstById(init);
      var r := rs[|rs| - 1];
      if r.id !in IdSet(d) {
        var d' := d + [r];
        forall i, j | 0 <= i < j < |d'| ensures d'[i].id != d'[j].id {
          if j == |d| {
            assert d'[i] in d;
          }
        }
      }
    }
  }

  /** The kept files carry exactly the ids of all files. */
  lemma {:induction false} FirstByIdIds(rs: seq<FileRef>)
    ensures IdSet(FirstById(rs)) == IdSet(rs)
  {
    if rs != [] {
      var init := rs[..|rs| - 1];
      var r := rs[|rs| - 1];
      FirstByIdIds(init);
      assert rs == init + [r];
      IdSetSnoc(init, r);
      IdSetSnoc(FirstById(init), r);
    }
  }

  /** A file whose id no earlier file has is kept. */
  lemma {:induction false} FirstByIdKeepsFirst(rs: seq<FileRef>, i: nat)
    requires i < |rs|
    requires forall j :: 0 <= j < i ==> rs[j].id != rs[i].id
    ensures rs[i] in FirstById(rs)
  {
    var init := rs[..|rs| - 1];
    if i < |rs| - 1 {
      FirstByIdKeepsFirst(init, i);
    } else {
      FirstByIdIds(init);
      assert rs[i].id !in IdSet(init);
    }
  }

  /** The local listing: one entry per distinct id, every id of the reply
      listed, the first file with an id giving its entry, and every entry
      with unknown context length (-1) and zero pricing. */
  lemma LocalListingFacts(ms: seq<HubModel>)
    ensures var es := LocalListing(ms);
      && DistinctIds(es)
      && (forall e :: e in es ==> e.contextLength == Some(-1) && e.pricing == Some(Pricing("0", "0")))
    ensures forall r :: r in Candidates(ms) ==> exists e :: e in LocalListing(ms) && e.id == r.id
    ensures forall i :: (0 <= i < |Candidates(ms)| && (forall j :: 0 <= j < i ==> Candidates(ms)[j].id != Candidates(ms)[i].id))
                        ==> EntryOf(Candidates(ms)[i]) in LocalListing(ms)
  {
    var c := Candidates(ms);
    var k := FirstById(c);
    var es := Entries(k);
    FirstByIdDistinct(c);
    FirstByIdIds(c);
    forall r | r in c ensures exists e :: e in es && e.id == r.id {
      assert r.id in IdSet(k);
      var q :| q in k && q.id == r.id;
      var i :| 0 <= i < |k| && k[i] == q;
      assert es[i] in es;
    }
    forall i | 0 <= i < |c| && (forall j :: 0 <= j < i ==> c[j].id != c[i].id)
      ensures EntryOf(c[i]) in es
    {
      FirstByIdKeepsFirst(c, i);
      var n :| 0 <= n < |k| && k[n] == c[i];
      assert es[n] == EntryOf(c[i]);
    }
  }

  /** The hosted branch: each listed model is kept in order, named by its
      name or, failing that, its id. */
  function HostedModels(data: seq<HostedModel>): (r: seq<ModelDescriptor>)
    ensures |r| == |data|
    ensures forall i :: 0 <= i < |data| ==>
      r[i] == ModelDescriptor(data[i].id, OrElse(data[i].name, data[i].id), data[i].description, data[i].contextLength, data[i].pricing)
  {
    if data == [] then []
    else
      var m := data[0];
      [ModelDescriptor(m.id, OrElse(m.name, m.id), m.description, m.contextLength, m.pricing)] + HostedModels(data[1..])
  }

  /** The listing request `getAvailableModels` makes. */
  datatype ListRequest = LocalSearch(query: string, limit: int) | HostedList

  /** `getAvailableModels(searchQuery = 'gguf', limit = 100)`: the local
      backend is searched with the query and limit, the hosted one listed;
      any failure becomes one fixed message. */
  method GetAvailableModels(config: ClientConfig, searchQuery: Option<string>, limit: Option<int>,
                            localReply: Result<Option<seq<HubModel>>, string>,
                            hostedReply: Result<seq<HostedModel>, string>)
    returns (r: Result<seq<ModelDescriptor>, string>, request: ListRequest)
    ensures config.isLocal ==> request == LocalSearch(if searchQuery.Some? then searchQuery.value else "gguf",
                                                      if limit.Some? then limit.value else 100)
    ensures !config.isLocal ==> request == HostedList
    ensures config.isLocal && localReply.Err? ==> r == Err("Failed to fetch available models")
    ensures config.isLocal && localReply.Ok? ==> r.Ok? && DistinctIds(r.value)
    ensures config.isLocal && localReply == Ok(None) ==> r == Ok([])
    ensures config.isLocal && localReply.Ok? && localReply.value.Some? ==> r == Ok(LocalListing(localReply.value.value))
    ensures !config.isLocal ==> r == if hostedReply.Err? then Err("Failed to fetch available models") else Ok(HostedModels(hostedReply.value))
  {
    if config.isLocal {
      request := LocalSearch(if searchQuery.Some? then searchQuery.value else "gguf", if limit.Some? then limit.value else 100);
      if localReply.Err? {
        return Err("Failed to fetch available models"), request;
      }
      var list := LocalModels(localReply.value);
      if localReply.value.Some? {
        LocalListingFacts(localReply.value.value);
      }
      r := Ok(list);
    } else {
      request := HostedList;
      if hostedReply.Err? {
        return Err("Failed to fetch available models"), request;
      }
      r := Ok(HostedModels(hostedReply.value));
    }
  }
}
