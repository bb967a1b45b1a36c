/** The export utilities (src/utils/exportUtils.js): the rows of the CSV file
    and the data arrays of the spreadsheet's sheets. Writing the files, the
    date formatting and the sheet encoding are outside the model. */
module Export {
  import opened Common
  import opened Domain
  import opened NestedMap
  import Diff

  const CsvHeader := "Test Name,Model,Status,Output,Score,Similarity,Tokens,Latency"
  const NotAvailable := "N/A"

  /** The text a result's status is stored as. */
  function RunStatusName(s: RunStatus): string {
    match s
    case Succeeded => "completed"
    case Failed => "failed"
  }

  /** `results[id] || {}`. */
  function ResultsOf<V>(m: Nested<V>, id: string): map<string, V> {
    if id in m then m[id] else map[]
  }

  /** No test case has any entry. */
  predicate NoEntries<V>(m: Nested<V>) {
    forall t :: t in m ==> m[t].Keys == {}
  }

  // ---------------------------------------------------------------------------
  // Cells

  /** `s.replace(/"/g, '""')`. */
  function EscapeQuotes(s: string): (r: string)
    ensures |r| >= |s|
  {
    if s == [] then [] else (if s[0] == '"' then "\"\"" else [s[0]]) + EscapeQuotes(s[1..])
  }

  /** The output cell: the output with its quotes doubled, between quotes;
      a missing output gives an empty quoted cell. */
  function QuoteField(output: Option<string>): (r: string)
    ensures |r| >= 2 && r[0] == '"' && r[|r| - 1] == '"'
  {
    "\"" + EscapeQuotes(OrElse(output, "")) + "\""
  }

  /** Reading the inside of a quoted field up to its closing quote, where a
      doubled quote stands for one quote; nothing may follow the closing one. */
  function ParseBody(t: string): Option<string> {
    if t == [] then None
    else if t[0] == '"' then
      if |t| == 1 then Some([])
      else if t[1] == '"' then Prepend('"', ParseBody(t[2..]))
      else None
    else Prepend(t[0], ParseBody(t[1..]))
  }

  function Prepend(c: char, o: Option<string>): Option<string> {
    if o.Some? then Some([c] + o.value) else None
  }

  /** A quoted field read back. */
  function ParseQuoted(f: string): Option<string> {
    if |f| >= 1 && f[0] == '"' then ParseBody(f[1..]) else None
  }

  /** `grade?.score || 'N/A'`: a missing grade and a score of 0 both export
      as `N/A`. */
  function ScoreCell(g: Option<Grade>): (r: string)
    ensures r == NotAvailable <==> g.None? || g.value.score == 0
    ensures r != NotAvailable ==> r == IntToString(g.value.score)
  {
    if g.Some? && g.value.score != 0 then
      var r := IntToString(g.value.score);
      assert r[0] != 'N';
      r
    else NotAvailable
  }

  /** `x || 0`. */
  function CountCell(v: Option<int>): (r: string)
    ensures v.None? ==> r == "0"
    ensures v.Some? ==> r == IntToString(v.value)
  {
    IntToString(if v.Some? then v.value else 0)
  }

  /** The tenths `toFixed(1)` rounds a non-negative value to: the nearest,
      and the larger one on a tie. */
  function Tenths(x: real): (n: nat)
    requires x >= 0.0
    ensures n as real - 0.5 <= x * 10.0 < n as real + 0.5
  {
    (x * 10.0 + 0.5).Floor
  }

  function FixedNonNegative(x: real): string
    requires x >= 0.0
  {
    var n := Tenths(x);
    NatToString(n / 10) + "." + [DigitChar(n % 10)]
  }

  /** `x.toFixed(1)`: a sign for a negative value, then the rounded value
      with one decimal. */
  function FixedOne(x: real): string {
    if x < 0.0 then "-" + FixedNonNegative(-x) else FixedNonNegative(x)
  }

  /** `result.diff?.similarity?.toFixed(1) || 'N/A'`. */
  function SimilarityCell(diff: Option<Option<Diff.LineDiff>>): string {
    if diff.Some? && diff.value.Some? then FixedOne(diff.value.value.similarity) else NotAvailable
  }

  /** The summary sheet's `result.diff?.similarity ? … : 'N/A'`: a similarity
      of 0 is falsy there. */
  function SummarySimilarity(diff: Option<Option<Diff.LineDiff>>): string {
    if diff.Some? && diff.value.Some? && diff.value.value.similarity != 0.0
    then FixedOne(diff.value.value.similarity) + "%"
    else NotAvailable
  }

  // ---------------------------------------------------------------------------
  // CSV

  /** One data line: name, model and status as they are, the quoted output,
      score, similarity, tokens and latency; a missing name is an empty cell. */
  function CsvRow(name: Option<string>, modelId: string, r: ExecutionResult, g: Option<Grade>): string {
    Join([if name.Some? then name.value else "", modelId, RunStatusName(r.status), QuoteField(r.output),
          ScoreCell(g), SimilarityCell(r.diff), CountCell(r.tokensUsed), CountCell(r.latency)], ",")
  }

  /** The lines of one test case, one per model with a result, in an order
      the model leaves open; `keys[j]` is `(i, modelId)` of line `j`. */
  method CaseLines(tc: TestCase, i: nat, testResults: map<string, ExecutionResult>, grades: Nested<Grade>)
    returns (lines: seq<string>, keys: seq<(nat, string)>)
    ensures |lines| == |keys| && Distinct(keys)
    ensures forall j :: 0 <= j < |keys| ==>
      && keys[j].0 == i && keys[j].1 in testResults
      && lines[j] == CsvRow(tc.name, keys[j].1, testResults[keys[j].1], Lookup(grades, tc.id, keys[j].1))
    ensures forall m :: m in testResults ==> (i, m) in keys
  {
    lines, keys := [], [];
    var todo := testResults.Keys;
    while todo != {}
      invariant todo <= testResults.Keys
      invariant |lines| == |keys| && Distinct(keys)
      invariant forall j :: 0 <= j < |keys| ==>
        && keys[j].0 == i && keys[j].1 in testResults && keys[j].1 !in todo
        && lines[j] == CsvRow(tc.name, keys[j].1, testResults[keys[j].1], Lookup(grades, tc.id, keys[j].1))
      invariant forall m :: m in testResults && m !in todo ==> (i, m) in keys
      decreases |todo|
    {
      var modelId :| modelId in todo;
      var grade := Lookup(grades, tc.id, modelId);
      lines := lines + [CsvRow(tc.name, modelId, testResults[modelId], grade)];
      keys := keys + [(i, modelId)];
      todo := todo - {modelId};
    }
  }

  /** What the lines and keys built so far say once the test cases before
      `n` are done: the header first, one line per key, keys distinct and
      grouped by test case in order, and every result of those test cases
      present. */
  ghost predicate ExportedUpTo(testCases: seq<TestCase>, results: Nested<ExecutionResult>, grades: Nested<Grade>,
                               lines: seq<string>, keys: seq<(nat, string)>, n: nat)
  {
    && n <= |testCases|
    && |lines| == |keys| + 1 && lines[0] == CsvHeader
    && Distinct(keys)
    && (forall j :: 0 <= j < |keys| ==>
          && keys[j].0 < n && keys[j].1 in ResultsOf(results, testCases[keys[j].0].id)
          && lines[j + 1] == CsvRow(testCases[keys[j].0].name, keys[j].1,
                                    ResultsOf(results, testCases[keys[j].0].id)[keys[j].1],
                                    Lookup(grades, testCases[keys[j].0].id, keys[j].1)))
    && (forall j, l :: 0 <= j < l < |keys| ==> keys[j].0 <= keys[l].0)
    && (forall i, m :: 0 <= i < n && m in ResultsOf(results, testCases[i].id) ==> (i, m) in keys)
  }

  /** `exportToCSV`'s content: the header, then for each test case in order
      the lines of its results, joined by newlines. `keys[j]` names the test
      case (by position) and the model of line `j + 1`. Results under an id
      no test case has are not exported. */
  method ExportCsv(testCases: seq<TestCase>, results: Nested<ExecutionResult>, grades: Nested<Grade>)
    returns (csv: string, lines: seq<string>, keys: seq<(nat, string)>)
    ensures |lines| == |keys| + 1 && lines[0] == CsvHeader
    ensures csv == Join(lines, "\n")
    ensures Distinct(keys)
    ensures forall j :: 0 <= j < |keys| ==>
      var (i, m) := keys[j];
      && i < |testCases| && m in ResultsOf(results, testCases[i].id)
      && lines[j + 1] == CsvRow(testCases[i].name, m, ResultsOf(results, testCases[i].id)[m],
                                Lookup(grades, testCases[i].id, m))
    ensures forall j, l :: 0 <= j < l < |keys| ==> keys[j].0 <= keys[l].0
    ensures forall i, m :: 0 <= i < |testCases| && m in ResultsOf(results, testCases[i].id) ==> (i, m) in keys
  {
    lines := [CsvHeader];
    keys := [];
    for i := 0 to |testCases|
      invariant ExportedUpTo(testCases, results, grades, lines, keys, i)
    {
      var tc := testCases[i];
      var caseLines, caseKeys := CaseLines(tc, i, ResultsOf(results, tc.id), grades);
      ExportedStep(testCases, results, grades, lines, keys, i, caseLines, caseKeys);
      lines := lines + caseLines;
      keys := keys + caseKeys;
    }
    csv := Join(lines, "\n");
  }

  /** Appending the lines of test case `i` extends what has been exported
      up to `i` to what has been exported up to `i + 1`. */
  lemma ExportedStep(testCases: seq<TestCase>, results: Nested<ExecutionResult>, grades: Nested<Grade>,
                     lines: seq<string>, keys: seq<(nat, string)>, i: nat,
                     caseLines: seq<string>, caseKeys: seq<(nat, string)>)
    requires i < |testCases| && ExportedUpTo(testCases, results, grades, lines, keys, i)
    requires |caseLines| == |caseKeys| && Distinct(caseKeys)
    requires forall j :: 0 <= j < |caseKeys| ==>
      && caseKeys[j].0 == i && caseKeys[j].1 in ResultsOf(results, testCases[i].id)
      && caseLines[j] == CsvRow(testCases[i].name, caseKeys[j].1, ResultsOf(results, testCases[i].id)[caseKeys[j].1],
                                Lookup(grades, testCases[i].id, caseKeys[j].1))
    requires forall m :: m in ResultsOf(results, testCases[i].id) ==> (i, m) in caseKeys
    ensures ExportedUpTo(testCases, results, grades, lines + caseLines, keys + caseKeys, i + 1)
  {
    AppendBlock(keys, caseKeys, i);
    var ls, ks := lines + caseLines, keys + caseKeys;
    forall j | 0 <= j < |ks|
      ensures ks[j].0 < i + 1 && ks[j].1 in ResultsOf(results, testCases[ks[j].0].id)
      ensures ls[j + 1] == CsvRow(testCases[ks[j].0].name, ks[j].1,
                                  ResultsOf(results, testCases[ks[j].0].id)[ks[j].1],
                                  Lookup(grades, testCases[ks[j].0].id, ks[j].1))
    {
      if j < |keys| {
        assert ks[j] == keys[j] && ls[j + 1] == lines[j + 1];
      } else {
        assert ks[j] == caseKeys[j - |keys|] && ls[j + 1] == caseLines[j - |keys|];
      }
    }
  }

  /** Appending a block of keys for test case `i` after keys of earlier test
      cases keeps them distinct and ordered. */
  lemma AppendBlock(a: seq<(nat, string)>, b: seq<(nat, string)>, i: nat)
    requires Distinct(a) && Distinct(b)
    requires forall j :: 0 <= j < |a| ==> a[j].0 < i
    requires forall j :: 0 <= j < |b| ==> b[j].0 == i
    requires forall j, l :: 0 <= j < l < |a| ==> a[j].0 <= a[l].0
    ensures Distinct(a + b)
    ensures forall j, l :: 0 <= j < l < |a + b| ==> (a + b)[j].0 <= (a + b)[l].0
  {
    forall j, l | 0 <= j < l < |a + b|
      ensures (a + b)[j] != (a + b)[l] && (a + b)[j].0 <= (a + b)[l].0
    {
      if l < |a| {
      } else if j >= |a| {
        assert (a + b)[j] == b[j - |a|] && (a + b)[l] == b[l - |a|];
      } else {
        assert (a + b)[l] == b[l - |a|];
      }
    }
  }

  // ---------------------------------------------------------------------------
  // Spreadsheet

  /** A `Test Cases` row (the two date columns are not modelled). */
  datatype CaseSheetRow = CaseSheetRow(testId: string, name: Option<string>, systemPrompt: Option<string>,
                                       userPrompt: Option<string>, sourceText: Option<string>,
                                       expectedResult: Option<string>)

  /** A `Results` row (the timestamp column is not modelled). */
  datatype ResultSheetRow = ResultSheetRow(testId: string, model: string, output: Option<string>,
                                           roundTripOutput: string, tokensUsed: Option<int>,
                                           latency: Option<int>, status: string, error: string)

  /** A `Grades` row (the `Graded At` column is not modelled). */
  datatype GradeSheetRow = GradeSheetRow(testId: string, model: string, score: int, gradeMethod: GradeMethod,
                                         comments: string)

  /** The three columns the summary has per tested model. */
  datatype SummaryEntry = SummaryEntry(status: string, score: string, similarity: string)

  /** A `Summary` row: the test name and the columns of each tested model. */
  datatype SummaryRow = SummaryRow(testName: Option<string>, models: map<string, SummaryEntry>)

  datatype Sheet =
    | CasesSheet(cases: seq<CaseSheetRow>)
    | ResultsSheet(results: seq<ResultSheetRow>)
    | GradesSheet(grades: seq<GradeSheetRow>)
    | SummarySheet(summary: seq<SummaryRow>)

  function SheetName(s: Sheet): string {
    match s
    case CasesSheet(_) => "Test Cases"
    case ResultsSheet(_) => "Results"
    case GradesSheet(_) => "Grades"
    case SummarySheet(_) => "Summary"
  }

  function CaseSheetRowOf(tc: TestCase): CaseSheetRow {
    CaseSheetRow(tc.id, tc.name, tc.systemPrompt, tc.userPrompt, tc.sourceText, tc.expectedResult)
  }

  /** `testCases.map(...)` for the first sheet. */
  function CaseSheetRows(cases: seq<TestCase>): (rows: seq<CaseSheetRow>)
    ensures |rows| == |cases|
    ensures forall i :: 0 <= i < |cases| ==> rows[i] == CaseSheetRowOf(cases[i])
  {
    if cases == [] then [] else [CaseSheetRowOf(cases[0])] + CaseSheetRows(cases[1..])
  }

  /** A result row; round-trip output and error default to `''`. */
  function ResultSheetRowOf(testCaseId: string, modelId: string, r: ExecutionResult): (row: ResultSheetRow)
    ensures row.roundTripOutput == OrElse(r.roundTripOutput, "") && row.error == OrElse(r.error, "")
    ensures row.testId == testCaseId && row.model == modelId && row.output == r.output
  {
    ResultSheetRow(testCaseId, modelId, r.output, OrElse(r.roundTripOutput, ""), r.tokensUsed, r.latency,
                   RunStatusName(r.status), OrElse(r.error, ""))
  }

  /** A grade row; the comments cell is `comments || feedback || ''`. */
  function GradeSheetRowOf(testCaseId: string, modelId: string, g: Grade): (row: GradeSheetRow)
    ensures Truthy(g.comments) ==> row.comments == g.comments.value
    ensures !Truthy(g.comments) ==> row.comments == OrElse(g.feedback, "")
    ensures row.testId == testCaseId && row.model == modelId && row.score == g.score
  {
    GradeSheetRow(testCaseId, modelId, g.score, g.gradeMethod,
                  if Truthy(g.comments) then g.comments.value else OrElse(g.feedback, ""))
  }

  function SummaryEntryOf(r: ExecutionResult, g: Option<Grade>): SummaryEntry {
    SummaryEntry(RunStatusName(r.status), ScoreCell(g), SummarySimilarity(r.diff))
  }

  /** The summary row of a test case: one entry per model with a result. */
  function SummaryRowOf(tc: TestCase, results: Nested<ExecutionResult>, grades: Nested<Grade>): (row: SummaryRow)
    ensures row.testName == tc.name
    ensures row.models.Keys == ResultsOf(results, tc.id).Keys
  {
    var testResults := ResultsOf(results, tc.id);
    SummaryRow(tc.name, map m | m in testResults :: SummaryEntryOf(testResults[m], Lookup(grades, tc.id, m)))
  }

  function SummaryRows(cases: seq<TestCase>, results: Nested<ExecutionResult>, grades: Nested<Grade>): (rows: seq<SummaryRow>)
    ensures |rows| == |cases|
    ensures forall i :: 0 <= i < |cases| ==> rows[i] == SummaryRowOf(cases[i], results, grades)
  {
    if cases == [] then [] else [SummaryRowOf(cases[0], results, grades)] + SummaryRows(cases[1..], results, grades)
  }

  /** The two nested `forEach` loops over `Object.entries`: one row per
      (test case id, model id) entry, each once, in an order the model leaves
      open; `keys[j]` is the pair of row `j`. */
  method Flatten<V, R>(m: Nested<V>, row: (string, string, V) -> R) returns (rows: seq<R>, keys: seq<(string, string)>)
    ensures |rows| == |keys| && Distinct(keys)
    ensures forall j :: 0 <= j < |keys| ==>
      keys[j].0 in m && keys[j].1 in m[keys[j].0] && rows[j] == row(keys[j].0, keys[j].1, m[keys[j].0][keys[j].1])
    ensures forall t, k :: t in m && k in m[t] ==> (t, k) in keys
    ensures |keys| == 0 <==> NoEntries(m)
  {
    rows, keys := [], [];
    var todo := m.Keys;
    while todo != {}
      invariant todo <= m.Keys
      invariant |rows| == |keys| && Distinct(keys)
      invariant forall j :: 0 <= j < |keys| ==>
        && keys[j].0 in m && keys[j].0 !in todo && keys[j].1 in m[keys[j].0]
        && rows[j] == row(keys[j].0, keys[j].1, m[keys[j].0][keys[j].1])
      invariant forall t, k :: t in m && t !in todo && k in m[t] ==> (t, k) in keys
      decreases |todo|
    {
      var t :| t in todo;
      var innerRows, innerKeys := FlattenInner(t, m[t], row);
      forall j | 0 <= j < |innerKeys| ensures innerKeys[j] !in keys {
        assert innerKeys[j].0 == t;
      }
      DistinctPairsAppend(keys, innerKeys);
      rows := rows + innerRows;
      keys := keys + innerKeys;
      todo := todo - {t};
    }
    if !NoEntries(m) {
      var t :| t in m && m[t].Keys != {};
      var k :| k in m[t];
      assert (t, k) in keys;
    }
    if |keys| > 0 {
      assert keys[0].1 in m[keys[0].0].Keys;
    }
  }

  /** The inner loop of `Flatten`, over one test case's entries. */
  method FlattenInner<V, R>(t: string, inner: map<string, V>, row: (string, string, V) -> R)
    returns (rows: seq<R>, keys: seq<(string, string)>)
    ensures |rows| == |keys| && Distinct(keys)
    ensures forall j :: 0 <= j < |keys| ==>
      keys[j].0 == t && keys[j].1 in inner && rows[j] == row(t, keys[j].1, inner[keys[j].1])
    ensures forall k :: k in inner ==> (t, k) in keys
  {
    rows, keys := [], [];
    var todo := inner.Keys;
    while todo != {}
      invariant todo <= inner.Keys
      invariant |rows| == |keys| && Distinct(keys)
      invariant forall j :: 0 <= j < |keys| ==>
        keys[j].0 == t && keys[j].1 in inner && keys[j].1 !in todo && rows[j] == row(t, keys[j].1, inner[keys[j].1])
      invariant forall k :: k in inner && k !in todo ==> (t, k) in keys
      decreases |todo|
    {
      var k :| k in todo;
      rows := rows + [row(t, k, inner[k])];
      keys := keys + [(t, k)];
      todo := todo - {k};
    }
  }

  lemma DistinctPairsAppend(a: seq<(string, string)>, b: seq<(string, string)>)
    requires Distinct(a) && Distinct(b) && forall j :: 0 <= j < |b| ==> b[j] !in a
    ensures Distinct(a + b)
  {
    forall i, j | 0 <= i < j < |a + b| ensures (a + b)[i] != (a + b)[j] {
      if i < |a| && j >= |a| {
        assert (a + b)[j] == b[j - |a|];
        assert (a + b)[i] in a;
      }
    }
  }

  /** The sheets in the order they are appended: the test-case sheet
      always, each other sheet only when it has rows. */
  function Workbook(cases: seq<CaseSheetRow>, resultsData: seq<ResultSheetRow>, gradesData: seq<GradeSheetRow>,
                    summaryData: seq<SummaryRow>): seq<Sheet>
  {
    [CasesSheet(cases)]
    + (if |resultsData| > 0 then [ResultsSheet(resultsData)] else [])
    + (if |gradesData| > 0 then [GradesSheet(gradesData)] else [])
    + (if |summaryData| > 0 then [SummarySheet(summaryData)] else [])
  }

  /** `exportToExcel`'s workbook. `resultKeys` and `gradeKeys` name the pair
      of each row of the results and grades sheets. */
  method ExportToExcel(testCases: seq<TestCase>, results: Nested<ExecutionResult>, grades: Nested<Grade>)
    returns (book: seq<Sheet>, resultsData: seq<ResultSheetRow>, resultKeys: seq<(string, string)>,
             gradesData: seq<GradeSheetRow>, gradeKeys: seq<(string, string)>)
    ensures book == Workbook(CaseSheetRows(testCases), resultsData, gradesData, SummaryRows(testCases, results, grades))
    ensures |resultsData| == |resultKeys| && Distinct(resultKeys)
    ensures forall j :: 0 <= j < |resultKeys| ==>
      var (t, k) := resultKeys[j];
      t in results && k in results[t] && resultsData[j] == ResultSheetRowOf(t, k, results[t][k])
    ensures forall t, k :: t in results && k in results[t] ==> (t, k) in resultKeys
    ensures |resultKeys| == 0 <==> NoEntries(results)
    ensures |gradesData| == |gradeKeys| && Distinct(gradeKeys)
    ensures forall j :: 0 <= j < |gradeKeys| ==>
      var (t, k) := gradeKeys[j];
      t in grades && k in grades[t] && gradesData[j] == GradeSheetRowOf(t, k, grades[t][k])
    ensures forall t, k :: t in grades && k in grades[t] ==> (t, k) in gradeKeys
    ensures |gradeKeys| == 0 <==> NoEntries(grades)
  {
    resultsData, resultKeys := Flatten(results, ResultSheetRowOf);
    gradesData, gradeKeys := Flatten(grades, GradeSheetRowOf);
    var summaryData := SummaryRows(testCases, results, grades);
    book := [CasesSheet(CaseSheetRows(testCases))];
    if |resultsData| > 0 {
      book := book + [ResultsSheet(resultsData)];
    }
    if |gradesData| > 0 {
      book := book + [GradesSheet(gradesData)];
    }
    if |summaryData| > 0 {
      book := book + [SummarySheet(summaryData)];
    }
  }

  /** The position of each kind of sheet in the workbook. */
  function SheetOrder(s: Sheet): nat {
    match s
    case CasesSheet(_) => 0
    case ResultsSheet(_) => 1
    case GradesSheet(_) => 2
    case SummarySheet(_) => 3
  }

  // ---------------------------------------------------------------------------
  // Properties

  /** Doubling the quotes and wrapping the output gives a field that reads
      back as the output (RFC 4180, section 2, item 7). */
  lemma {:induction false} QuoteBodyRoundTrip(s: string)
    ensures ParseBody(EscapeQuotes(s) + "\"") == Some(s)
  {
    if s != [] {
      QuoteBodyRoundTrip(s[1..]);
      var t := EscapeQuotes(s) + "\"";
      if s[0] == '"' {
        assert t == "\"\"" + (EscapeQuotes(s[1..]) + "\"");
        assert t[2..] == EscapeQuotes(s[1..]) + "\"";
      } else {
        assert t == [s[0]] + (EscapeQuotes(s[1..]) + "\"");
        assert t[1..] == EscapeQuotes(s[1..]) + "\"";
      }
      assert [s[0]] + s[1..] == s;
    }
  }

  /** The output cell reads back as the output, or as `''` when it is missing. */
  lemma QuoteRoundTrip(output: Option<string>)
    ensures ParseQuoted(QuoteField(output)) == Some(OrElse(output, ""))
  {
    var f := QuoteField(output);
    QuoteBodyRoundTrip(OrElse(output, ""));
    assert f[1..] == EscapeQuotes(OrElse(output, "")) + "\"";
  }

  /** The name cell is written unquoted: the first comma-separated field of
      a line is the test name exactly when the name has no comma, so a comma
      in a name shifts every later column. */
  lemma NameCellUnquoted(name: string, modelId: string, r: ExecutionResult, g: Option<Grade>)
    ensures SplitOn(CsvRow(Some(name), modelId, r, g), ",")[0] == name <==> forall i: nat :: !OccursAt(name, ",", i)
  {
    var row := CsvRow(Some(name), modelId, r, g);
    var rest := Join([modelId, RunStatusName(r.status), QuoteField(r.output), ScoreCell(g),
                      SimilarityCell(r.diff), CountCell(r.tokensUsed), CountCell(r.latency)], ",");
    assert row == name + "," + rest;
    if forall i: nat :: !OccursAt(name, ",", i) {
      forall i: nat | i < |name| ensures !OccursAt(name + "," + rest, ",", i) {
        assert !OccursAt(name, ",", i);
        assert (name + "," + rest)[i] == name[i];
      }
      SplitAtFirst(name, ",", rest);
    } else {
      var i: nat :| OccursAt(name, ",", i);
      SplitFirstHasNoSeparator(row, ",", i);
      if SplitOn(row, ",")[0] == name {
        assert false;
      }
    }
  }

  /** `toFixed(1)` of a non-negative value is digits, a point and one digit,
      and it reads back as the value rounded to the nearest tenth. */
  lemma FixedOneReadsBack(x: real)
    requires x >= 0.0
    ensures var r := FixedOne(x);
      && |r| >= 3 && r[|r| - 2] == '.'
      && (forall k :: 0 <= k < |r| - 2 ==> '0' <= r[k] <= '9')
      && '0' <= r[|r| - 1] <= '9'
      && DigitsValue(r[..|r| - 2]) * 10 + (r[|r| - 1] as int - '0' as int) == Tenths(x)
      && -0.5 <= x * 10.0 - Tenths(x) as real < 0.5
  {
    var n := Tenths(x);
    var r := FixedOne(x);
    assert r == NatToString(n / 10) + "." + [DigitChar(n % 10)];
    assert r[..|r| - 2] == NatToString(n / 10);
    DigitsValueOfNatToString(n / 10);
  }

  /** The workbook starts with the test-case sheet, holds the results,
      grades and summary sheets exactly when they have rows, holds nothing
      else, and keeps the sheets in their fixed order. */
  lemma WorkbookSheets(cases: seq<CaseSheetRow>, resultsData: seq<ResultSheetRow>, gradesData: seq<GradeSheetRow>,
                       summaryData: seq<SummaryRow>)
    ensures var book := Workbook(cases, resultsData, gradesData, summaryData);
      && |book| >= 1 && book[0] == CasesSheet(cases)
      && (ResultsSheet(resultsData) in book <==> |resultsData| > 0)
      && (GradesSheet(gradesData) in book <==> |gradesData| > 0)
      && (SummarySheet(summaryData) in book <==> |summaryData| > 0)
      && (forall s :: s in book ==>
            s == CasesSheet(cases) || s == ResultsSheet(resultsData) || s == GradesSheet(gradesData)
            || s == SummarySheet(summaryData))
      && (forall i, j :: 0 <= i < j < |book| ==> SheetOrder(book[i]) < SheetOrder(book[j]))
  {
  }

  /** A similarity of 0 exports as `0.0` to the CSV file but as `N/A` to the
      summary sheet; any other similarity exports as the same digits. */
  lemma SimilarityCells(d: Diff.LineDiff)
    ensures d.similarity == 0.0 ==> SimilarityCell(Some(Some(d))) == "0.0" && SummarySimilarity(Some(Some(d))) == NotAvailable
    ensures d.similarity != 0.0 ==> SummarySimilarity(Some(Some(d))) == SimilarityCell(Some(Some(d))) + "%"
    ensures SimilarityCell(None) == NotAvailable && SimilarityCell(Some(None)) == NotAvailable
  {
    if d.similarity == 0.0 {
      assert Tenths(0.0) == 0;
      assert NatToString(0) == "0";
    }
  }
}
