/** The application shell (src/App.jsx): rehydrating the stores from the
    database at start-up, and the theme and language toggles. */
module App {
  import opened Common
  import opened Domain
  import opened NestedMap
  import Database
  import TestCases
  import ResultsStore
  import Ui

  /** Rows grouped into `grouped[testCaseId][modelId]`, one `forEach` step per
      row, so a later row with the same pair overwrites an earlier one. */
  function Grouped<R, V>(rows: seq<R>, key: R -> Database.Key, val: R -> V): Nested<V>
  {
    if rows == [] then map[]
    else
      var last := rows[|rows| - 1];
      Put(Grouped(rows[..|rows| - 1], key, val), key(last).0, key(last).1, val(last))
  }

  /** One of the two grouping loops of `loadPersistedData`. */
  method Group<R, V>(rows: seq<R>, key: R -> Database.Key, val: R -> V) returns (grouped: Nested<V>)
    ensures grouped == Grouped(rows, key, val)
  {
    grouped := map[];
    for i := 0 to |rows|
      invariant grouped == Grouped(rows[..i], key, val)
    {
      var row := rows[i];
      var (t, k) := key(row);
      if t !in grouped {
        grouped := grouped[t := map[]];
      }
      grouped := grouped[t := grouped[t][k := val(row)]];
      assert rows[..i + 1][..i] == rows[..i];
    }
    assert rows[..|rows|] == rows;
  }

  function ResultRowKey(r: ExecutionResult): Database.Key { Database.ResultKey(r) }
  function ResultRowValue(r: ExecutionResult): ExecutionResult { r }
  function GradeRowKey(g: GradeRow): Database.Key { Database.GradeKey(g) }
  function GradeRowValue(g: GradeRow): Grade { g.grade }

  const LoadFailedMessage := "Failed to load saved data from database"

  /** `loadPersistedData`: the three table reads are parameters (each either
      the rows read or the error thrown), and so is the clock stamping the
      notification. */
  method LoadPersistedData(cases: TestCases.TestCaseList, store: ResultsStore.Store, ui: Ui.UiState,
                           caseRows: Result<seq<TestCase>, string>,
                           resultRows: Result<seq<ExecutionResult>, string>,
                           gradeRows: Result<seq<GradeRow>, string>,
                           now: int)
    modifies cases, store, ui
    ensures store.executionStatus == old(store.executionStatus)
    ensures store.loading == old(store.loading) && store.error == old(store.error)
    ensures ui.View() == old(ui.View()).(notifications := ui.notifications)
    ensures caseRows.Err? || resultRows.Err? || gradeRows.Err? ==>
      && cases.testCases == old(cases.testCases) && cases.activeTestCaseId == old(cases.activeTestCaseId)
      && store.results == old(store.results) && store.grades == old(store.grades)
      && ui.notifications == old(ui.notifications) + [Notification(now, "error", LoadFailedMessage)]
    ensures caseRows.Ok? && resultRows.Ok? && gradeRows.Ok? ==>
      && ui.notifications == old(ui.notifications)
      && (if |caseRows.value| > 0
          then cases.testCases == caseRows.value && cases.activeTestCaseId == TestCases.FirstIdOrNull(caseRows.value)
          else cases.testCases == old(cases.testCases) && cases.activeTestCaseId == old(cases.activeTestCaseId))
      && var rs := Grouped(resultRows.value, ResultRowKey, ResultRowValue);
         var gs := Grouped(gradeRows.value, GradeRowKey, GradeRowValue);
         if rs != map[] || gs != map[]
         then store.results == rs && store.grades == gs
         else store.results == old(store.results) && store.grades == old(store.grades)
  {
    if caseRows.Err? || resultRows.Err? || gradeRows.Err? {
      ui.AddNotification(Ui.NotificationDraft(None, "error", LoadFailedMessage), now);
      return;
    }
    if |caseRows.value| > 0 {
      cases.LoadTestCases(caseRows.value);
    }
    var formattedResults := Group(resultRows.value, ResultRowKey, ResultRowValue);
    var formattedGrades := Group(gradeRows.value, GradeRowKey, GradeRowValue);
    if formattedResults != map[] || formattedGrades != map[] {
      store.LoadResults(Some(formattedResults), Some(formattedGrades));
    }
  }

  /** `theme === 'light' ? 'dark' : 'light'`. */
  function NextTheme(theme: string): string {
    if theme == "light" then "dark" else "light"
  }

  /** `language === 'en' ? 'nl' : 'en'`. */
  function NextLanguage(language: string): string {
    if language == "en" then "nl" else "en"
  }

  // ---------------------------------------------------------------------------
  // Properties

  /** Every grouped object is non-empty: the shape the store's pruning keeps. */
  lemma {:induction false} GroupedShape<R, V>(rows: seq<R>, key: R -> Database.Key, val: R -> V)
    ensures NoEmptyInner(Grouped(rows, key, val))
  {
    if rows != [] {
      var last := rows[|rows| - 1];
      GroupedShape(rows[..|rows| - 1], key, val);
      PutKeepsShape(Grouped(rows[..|rows| - 1], key, val), key(last).0, key(last).1, val(last));
    }
  }

  /** A pair no row has is missing from the grouping. */
  lemma {:induction false} GroupedAbsent<R, V>(rows: seq<R>, key: R -> Database.Key, val: R -> V, t: string, k: string)
    requires forall i :: 0 <= i < |rows| ==> key(rows[i]) != (t, k)
    ensures Lookup(Grouped(rows, key, val), t, k) == None
  {
    if rows != [] {
      var last := rows[|rows| - 1];
      GroupedAbsent(rows[..|rows| - 1], key, val, t, k);
      PutLookup(Grouped(rows[..|rows| - 1], key, val), key(last).0, key(last).1, val(last), t, k);
    }
  }

  /** The entry of a pair is the value of its last row. */
  lemma {:induction false} GroupedLastWins<R, V>(rows: seq<R>, key: R -> Database.Key, val: R -> V, i: nat)
    requires i < |rows|
    requires forall j :: i < j < |rows| ==> key(rows[j]) != key(rows[i])
    ensures Lookup(Grouped(rows, key, val), key(rows[i]).0, key(rows[i]).1) == Some(val(rows[i]))
  {
    var last := rows[|rows| - 1];
    var init := rows[..|rows| - 1];
    var (t, k) := key(rows[i]);
    PutLookup(Grouped(init, key, val), key(last).0, key(last).1, val(last), t, k);
    if i < |rows| - 1 {
      assert rows[i] == init[i];
      GroupedLastWins(init, key, val, i);
    }
  }

  /** Rehydration round trip: grouping every row of a keyed table, each once,
      gives back the table's entry for every pair. */
  lemma TableRoundTrip<R, V>(table: map<Database.Key, R>, rows: seq<R>, key: R -> Database.Key, val: R -> V,
                                  t: string, k: string)
    requires Database.Keyed(table, key)
    requires forall i :: 0 <= i < |rows| ==> rows[i] in table.Values
    requires forall p :: p in table ==> table[p] in rows
    ensures Lookup(Grouped(rows, key, val), t, k) == if (t, k) in table then Some(val(table[(t, k)])) else None
  {
    forall i | 0 <= i < |rows|
      ensures key(rows[i]) in table && table[key(rows[i])] == rows[i]
    {
      var p :| p in table && table[p] == rows[i];
    }
    if (t, k) in table {
      var row := table[(t, k)];
      var i :| 0 <= i < |rows| && rows[i] == row;
      var lastIndex := LastWithKey(rows, key, (t, k), i);
      assert rows[lastIndex] == table[(t, k)];
      GroupedLastWins(rows, key, val, lastIndex);
    } else {
      GroupedAbsent(rows, key, val, t, k);
    }
  }

  /** The last index whose row has the key, given one that has it. */
  lemma {:induction false} LastWithKey<R>(rows: seq<R>, key: R -> Database.Key, p: Database.Key, i: nat) returns (j: nat)
    requires i < |rows| && key(rows[i]) == p
    ensures i <= j < |rows| && key(rows[j]) == p
    ensures forall l :: j < l < |rows| ==> key(rows[l]) != p
    decreases |rows| - i
  {
    if l :| i < l < |rows| && key(rows[l]) == p {
      j := LastWithKey(rows, key, p, l);
    } else {
      j := i;
    }
  }

  /** The theme toggle always lands on one of the two themes and swaps them. */
  lemma NextThemeFacts(theme: string)
    ensures NextTheme(theme) == "light" || NextTheme(theme) == "dark"
    ensures theme == "light" || theme == "dark" ==> NextTheme(NextTheme(theme)) == theme
    ensures theme != "light" ==> NextTheme(theme) == "light"
  {
  }

  /** The language toggle always lands on English or Dutch and swaps them. */
  lemma NextLanguageFacts(language: string)
    ensures NextLanguage(language) == "en" || NextLanguage(language) == "nl"
    ensures language == "en" || language == "nl" ==> NextLanguage(NextLanguage(language)) == language
    ensures language != "en" ==> NextLanguage(language) == "en"
  {
  }
}
