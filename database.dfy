/** The persistence repository (src/services/databaseService.js): four tables
    held as maps. Test cases are keyed by id, results and grades by the
    composite `[testCaseId+modelId]` key, settings by key. Every method is one
    atomic update of the maps it names. */
module Database {
  import opened Common
  import opened Domain

  /** The composite `[testCaseId+modelId]` key. */
  type Key = (string, string)

  function CaseKey(c: TestCase): string { c.id }
  function ResultKey(r: ExecutionResult): Key { (r.testCaseId, r.modelId) }
  function GradeKey(g: GradeRow): Key { (g.testCaseId, g.modelId) }

  /** Every row is stored under the key its own fields give. */
  predicate Keyed<K, R>(m: map<K, R>, key: R -> K) {
    forall k :: k in m ==> key(m[k]) == k
  }

  /** `bulkPut(rows)`: each row is put in turn, so a later row with the same
      key replaces an earlier one. */
  function PutAll<K, R>(m: map<K, R>, rows: seq<R>, key: R -> K): map<K, R>
    decreases |rows|
  {
    if rows == [] then m else PutAll(m[key(rows[0]) := rows[0]], rows[1..], key)
  }

  /** The rows whose key names another test case. */
  function WithoutCase<R>(m: map<Key, R>, id: string): map<Key, R> {
    map k | k in m && k.0 != id :: m[k]
  }

  /** The rows whose key names another model. */
  function WithoutModel<R>(m: map<Key, R>, modelId: string): map<Key, R> {
    map k | k in m && k.1 != modelId :: m[k]
  }

  /** The sections of an import: each may be absent. */
  datatype ImportBundle = ImportBundle(
    testCases: Option<seq<TestCase>>,
    results: Option<seq<ExecutionResult>>,
    grades: Option<seq<GradeRow>>)

  /** `where('testCaseId').equals(id).toArray()` on a table keyed by pairs:
      every row of that test case, once each (in an order this model does
      not fix). */
  method RowsOfCase<R(==)>(m: map<Key, R>, key: R -> Key, id: string) returns (rows: seq<R>)
    requires Keyed(m, key)
    ensures forall i :: 0 <= i < |rows| ==> key(rows[i]).0 == id && key(rows[i]) in m && m[key(rows[i])] == rows[i]
    ensures forall k :: k in m && k.0 == id ==> m[k] in rows
    ensures Distinct(rows)
  {
    rows := [];
    var todo := m.Keys;
    while todo != {}
      invariant todo <= m.Keys
      invariant forall i :: 0 <= i < |rows| ==>
        key(rows[i]).0 == id && key(rows[i]) in m && m[key(rows[i])] == rows[i] && key(rows[i]) !in todo
      invariant forall k :: k in m && k !in todo && k.0 == id ==> m[k] in rows
      invariant Distinct(rows)
      decreases |todo|
    {
      var k :| k in todo;
      if k.0 == id {
        rows := rows + [m[k]];
      }
      todo := todo - {k};
    }
  }

  class Repository {
    var testCases: map<string, TestCase>
    var results: map<Key, ExecutionResult>
    var grades: map<Key, GradeRow>
    var settings: map<string, string>

    /** Every row sits under its own key, so there is at most one result and
        one grade per (test case, model) pair. */
    ghost predicate Valid()
      reads this
    {
      Keyed(testCases, CaseKey) && Keyed(results, ResultKey) && Keyed(grades, GradeKey)
    }

    constructor()
      ensures Valid()
      ensures testCases == map[] && results == map[] && grades == map[] && settings == map[]
    {
      testCases, results, grades, settings := map[], map[], map[], map[];
    }

    /** `saveTestCase`: an upsert keyed by id. */
    method SaveTestCase(c: TestCase)
      requires Valid()
      modifies this
      ensures Valid()
      ensures testCases == old(testCases)[c.id := c]
      ensures results == old(results) && grades == old(grades) && settings == old(settings)
    {
      testCases := testCases[c.id := c];
    }

    /** `deleteTestCase`: the test case and all of its result and grade rows,
        in one transaction. */
    method DeleteTestCase(id: string)
      requires Valid()
      modifies this
      ensures Valid()
      ensures testCases == old(testCases) - {id}
      ensures results == WithoutCase(old(results), id)
      ensures grades == WithoutCase(old(grades), id)
      ensures settings == old(settings)
    {
      testCases := testCases - {id};
      results := WithoutCase(results, id);
      grades := WithoutCase(grades, id);
    }

    /** `saveResult`: an upsert keyed by the result's (test case, model) pair. */
    method SaveResult(r: ExecutionResult)
      requires Valid()
      modifies this
      ensures Valid()
      ensures results == old(results)[ResultKey(r) := r]
      ensures testCases == old(testCases) && grades == old(grades) && settings == old(settings)
    {
      results := results[ResultKey(r) := r];
    }

    /** `getResultsForTestCase`. */
    method ResultsForTestCase(id: string) returns (rows: seq<ExecutionResult>)
      requires Valid()
      ensures forall i :: 0 <= i < |rows| ==> rows[i].testCaseId == id && ResultKey(rows[i]) in results && results[ResultKey(rows[i])] == rows[i]
      ensures forall k :: k in results && k.0 == id ==> results[k] in rows
      ensures Distinct(rows)
    {
      rows := RowsOfCase(results, ResultKey, id);
    }

    /** `saveGrade`: an upsert keyed by the row's (test case, model) pair. */
    method SaveGrade(g: GradeRow)
      requires Valid()
      modifies this
      ensures Valid()
      ensures grades == old(grades)[GradeKey(g) := g]
      ensures testCases == old(testCases) && results == old(results) && settings == old(settings)
    {
      grades := grades[GradeKey(g) := g];
    }

    /** `getGradesForTestCase`. */
    method GradesForTestCase(id: string) returns (rows: seq<GradeRow>)
      requires Valid()
      ensures forall i :: 0 <= i < |rows| ==> rows[i].testCaseId == id && GradeKey(rows[i]) in grades && grades[GradeKey(rows[i])] == rows[i]
      ensures forall k :: k in grades && k.0 == id ==> grades[k] in rows
      ensures Distinct(rows)
    {
      rows := RowsOfCase(grades, GradeKey, id);
    }

    /** `saveSetting`: an upsert keyed by the setting's key. */
    method SaveSetting(key: string, value: string)
      modifies this
      ensures settings == old(settings)[key := value]
      ensures testCases == old(testCases) && results == old(results) && grades == old(grades)
    {
      settings := settings[key := value];
    }

    /** `getSetting`: the stored value, or `undefined` when there is none. */
    method GetSetting(key: string) returns (value: Option<string>)
      ensures key in settings ==> value == Some(settings[key])
      ensures key !in settings ==> value == None
    {
      if key in settings {
        value := Some(settings[key]);
      } else {
        value := None;
      }
    }

    /** `importData`: each present section is bulk-put in one transaction;
        an absent section leaves its table as it was. */
    method ImportData(data: ImportBundle)
      requires Valid()
      modifies this
      ensures Valid()
      ensures testCases == if data.testCases.Some? then PutAll(old(testCases), data.testCases.value, CaseKey) else old(testCases)
      ensures results == if data.results.Some? then PutAll(old(results), data.results.value, ResultKey) else old(results)
      ensures grades == if data.grades.Some? then PutAll(old(grades), data.grades.value, GradeKey) else old(grades)
      ensures settings == old(settings)
    {
      if data.testCases.Some? {
        PutAllKeyed(testCases, data.testCases.value, CaseKey);
        testCases := PutAll(testCases, data.testCases.value, CaseKey);
      }
      if data.results.Some? {
        PutAllKeyed(results, data.results.value, ResultKey);
        results := PutAll(results, data.results.value, ResultKey);
      }
      if data.grades.Some? {
        PutAllKeyed(grades, data.grades.value, GradeKey);
        grades := PutAll(grades, data.grades.value, GradeKey);
      }
    }

    /** `clearAllData`: the three data tables are emptied together; settings
        survive. */
    method ClearAllData()
      modifies this
      ensures Valid()
      ensures testCases == map[] && results == map[] && grades == map[]
      ensures settings == old(settings)
    {
      testCases, results, grades := map[], map[], map[];
    }

    /** `results.where('[testCaseId+modelId]').equals([t, m]).delete()`. */
    method DeleteResultRow(t: string, m: string)
      requires Valid()
      modifies this
      ensures Valid()
      ensures results == old(results) - {(t, m)}
      ensures testCases == old(testCases) && grades == old(grades) && settings == old(settings)
    {
      results := results - {(t, m)};
    }

    /** `grades.where('[testCaseId+modelId]').equals([t, m]).delete()`. */
    method DeleteGradeRow(t: string, m: string)
      requires Valid()
      modifies this
      ensures Valid()
      ensures grades == old(grades) - {(t, m)}
      ensures testCases == old(testCases) && results == old(results) && settings == old(settings)
    {
      grades := grades - {(t, m)};
    }

    /** `results.where('modelId').equals(m).delete()`. */
    method DeleteModelResultRows(m: string)
      requires Valid()
      modifies this
      ensures Valid()
      ensures results == WithoutModel(old(results), m)
      ensures testCases == old(testCases) && grades == old(grades) && settings == old(settings)
    {
      results := WithoutModel(results, m);
    }

    /** `grades.where('modelId').equals(m).delete()`. */
    method DeleteModelGradeRows(m: string)
      requires Valid()
      modifies this
      ensures Valid()
      ensures grades == WithoutModel(old(grades), m)
      ensures testCases == old(testCases) && results == old(results) && settings == old(settings)
    {
      grades := WithoutModel(grades, m);
    }
  }

  // ---------------------------------------------------------------------------
  // Properties

  /** A bulk put keeps every row under its own key. */
  lemma {:induction false} PutAllKeyed<K, R>(m: map<K, R>, rows: seq<R>, key: R -> K)
    requires Keyed(m, key)
    ensures Keyed(PutAll(m, rows, key), key)
    decreases |rows|
  {
    if rows != [] {
      PutAllKeyed(m[key(rows[0]) := rows[0]], rows[1..], key);
    }
  }

  /** A bulk put leaves a key that no row carries as it was. */
  lemma {:induction false} PutAllKeepsOthers<K, R>(m: map<K, R>, rows: seq<R>, key: R -> K, k: K)
    requires forall i :: 0 <= i < |rows| ==> key(rows[i]) != k
    ensures k in PutAll(m, rows, key) <==> k in m
    ensures k in m ==> PutAll(m, rows, key)[k] == m[k]
    decreases |rows|
  {
    if rows != [] {
      PutAllKeepsOthers(m[key(rows[0]) := rows[0]], rows[1..], key, k);
    }
  }

  /** Putting one more row after a bulk put is the bulk put of the longer
      list. */
  lemma {:induction false} PutAllSnoc<K, R>(m: map<K, R>, rows: seq<R>, r: R, key: R -> K)
    ensures PutAll(m, rows + [r], key) == PutAll(m, rows, key)[key(r) := r]
    decreases |rows|
  {
    if rows == [] {
      assert PutAll(m[key(r) := r], [], key) == m[key(r) := r];
    } else {
      assert (rows + [r])[1..] == rows[1..] + [r];
      PutAllSnoc(m[key(rows[0]) := rows[0]], rows[1..], r, key);
    }
  }

  /** After a bulk put, the stored row for a key is the last row with that key. */
  lemma {:induction false} PutAllLastWins<K, R>(m: map<K, R>, rows: seq<R>, key: R -> K, i: nat)
    requires i < |rows|
    requires forall j :: i < j < |rows| ==> key(rows[j]) != key(rows[i])
    ensures key(rows[i]) in PutAll(m, rows, key)
    ensures PutAll(m, rows, key)[key(rows[i])] == rows[i]
    decreases |rows|
  {
    var m' := m[key(rows[0]) := rows[0]];
    if i == 0 {
      PutAllKeepsOthers(m', rows[1..], key, key(rows[0]));
    } else {
      PutAllLastWins(m', rows[1..], key, i - 1);
    }
  }

  /** The cascade leaves no row of the deleted test case and every row of
      every other test case. */
  lemma WithoutCaseRows<R>(m: map<Key, R>, id: string, k: Key)
    ensures k in WithoutCase(m, id) <==> k in m && k.0 != id
    ensures k in WithoutCase(m, id) ==> WithoutCase(m, id)[k] == m[k]
  {
  }

  /** Deleting by model leaves no row of that model and every row of every
      other model. */
  lemma WithoutModelRows<R>(m: map<Key, R>, modelId: string, k: Key)
    ensures k in WithoutModel(m, modelId) <==> k in m && k.1 != modelId
    ensures k in WithoutModel(m, modelId) ==> WithoutModel(m, modelId)[k] == m[k]
  {
  }

  /** After the cascade, a query for the deleted test case finds nothing. */
  lemma CascadeLeavesNoRows<R>(m: map<Key, R>, id: string)
    ensures forall k :: k in WithoutCase(m, id) ==> k.0 != id
  {
  }

  /** Removing the rows of a test case keeps them keyed. */
  lemma WithoutCaseKeyed<R>(m: map<Key, R>, id: string, key: R -> Key)
    requires Keyed(m, key)
    ensures Keyed(WithoutCase(m, id), key)
    ensures Keyed(WithoutModel(m, id), key)
  {
  }
}
