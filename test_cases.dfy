/** The test-case list (src/store/testCasesSlice.js): an ordered list of test
    cases and a pointer to the active one. */
module TestCases {
  import opened Common
  import opened Domain

  /** The fields `addTestCase` reads from its payload. */
  datatype Draft = Draft(
    name: Option<string>,
    systemPrompt: Option<string>,
    userPrompt: Option<string>,
    sourceText: Option<string>,
    expectedResult: Option<string>)

  /** The fields an `updateTestCase` payload carries besides `id`; a present
      field overwrites, a missing one leaves the case as it was. */
  datatype Patch = Patch(
    name: Option<string>,
    systemPrompt: Option<string>,
    userPrompt: Option<string>,
    sourceText: Option<string>,
    expectedResult: Option<string>)

  const DefaultName := "New Test Case"

  /** The `prepare` step of `addTestCase`; the fresh id and the clock are
      parameters. */
  function NewTestCase(draft: Draft, id: string, now: string): (tc: TestCase)
    ensures tc.id == id && tc.createdAt == Some(now) && tc.updatedAt == Some(now)
    ensures Truthy(tc.name)
    ensures Truthy(draft.name) ==> tc.name == draft.name
    ensures !Truthy(draft.name) ==> tc.name == Some(DefaultName)
    ensures tc.systemPrompt.Some? && tc.userPrompt.Some? && tc.sourceText.Some? && tc.expectedResult.Some?
    ensures tc.systemPrompt.value == OrElse(draft.systemPrompt, "")
    ensures tc.userPrompt.value == OrElse(draft.userPrompt, "")
    ensures tc.sourceText.value == OrElse(draft.sourceText, "")
    ensures tc.expectedResult.value == OrElse(draft.expectedResult, "")
  {
    TestCase(
      id,
      Some(OrElse(draft.name, DefaultName)),
      Some(OrElse(draft.systemPrompt, "")),
      Some(OrElse(draft.userPrompt, "")),
      Some(OrElse(draft.sourceText, "")),
      Some(OrElse(draft.expectedResult, "")),
      Some(now),
      Some(now))
  }

  /** `Object.assign(testCase, updates, { updatedAt: now })`. */
  function Patched(tc: TestCase, patch: Patch, now: string): TestCase {
    tc.(name := if patch.name.Some? then patch.name else tc.name,
        systemPrompt := if patch.systemPrompt.Some? then patch.systemPrompt else tc.systemPrompt,
        userPrompt := if patch.userPrompt.Some? then patch.userPrompt else tc.userPrompt,
        sourceText := if patch.sourceText.Some? then patch.sourceText else tc.sourceText,
        expectedResult := if patch.expectedResult.Some? then patch.expectedResult else tc.expectedResult,
        updatedAt := Some(now))
  }

  /** The position `find` stops at: the first case with the id, or -1. */
  function FindIndex(cases: seq<TestCase>, id: string): (i: int)
    ensures -1 <= i < |cases|
    ensures i == -1 <==> forall k :: 0 <= k < |cases| ==> cases[k].id != id
    ensures 0 <= i ==> cases[i].id == id && forall k :: 0 <= k < i ==> cases[k].id != id
  {
    if cases == [] then -1
    else if cases[0].id == id then 0
    else
      var j := FindIndex(cases[1..], id);
      if j == -1 then -1 else j + 1
  }

  /** The list after patching the first case with the id, defined case by case. */
  function Updated(cases: seq<TestCase>, id: string, patch: Patch, now: string): seq<TestCase> {
    if cases == [] then []
    else if cases[0].id == id then [Patched(cases[0], patch, now)] + cases[1..]
    else [cases[0]] + Updated(cases[1..], id, patch, now)
  }

  /** `cases.filter(tc => tc.id !== id)`. */
  function Without(cases: seq<TestCase>, id: string): seq<TestCase> {
    if cases == [] then []
    else if cases[0].id == id then Without(cases[1..], id)
    else [cases[0]] + Without(cases[1..], id)
  }

  /** `cases[0]?.id || null`. */
  function FirstIdOrNull(cases: seq<TestCase>): (r: Option<string>)
    ensures r.Some? <==> |cases| > 0 && cases[0].id != ""
    ensures r.Some? ==> r.value == cases[0].id
  {
    if |cases| > 0 && cases[0].id != "" then Some(cases[0].id) else None
  }

  class TestCaseList {
    var testCases: seq<TestCase>
    var activeTestCaseId: Option<string>

    constructor()
      ensures testCases == [] && activeTestCaseId == None
    {
      testCases := [];
      activeTestCaseId := None;
    }

    /** `addTestCase` with its `prepare` step. */
    method AddTestCase(draft: Draft, id: string, now: string)
      modifies this
      ensures testCases == old(testCases) + [NewTestCase(draft, id, now)]
      ensures activeTestCaseId == Some(id)
    {
      var newTestCase := NewTestCase(draft, id, now);
      testCases := testCases + [newTestCase];
      activeTestCaseId := Some(newTestCase.id);
    }

    method UpdateTestCase(id: string, patch: Patch, now: string)
      modifies this
      ensures testCases == Updated(old(testCases), id, patch, now)
      ensures activeTestCaseId == old(activeTestCaseId)
    {
      var i := FindIndex(testCases, id);
      if i >= 0 {
        UpdatedAt(testCases, id, patch, now, i);
        testCases := testCases[i := Patched(testCases[i], patch, now)];
      } else {
        UpdatedAbsent(testCases, id, patch, now);
      }
    }

    method DeleteTestCase(id: string)
      modifies this
      ensures testCases == Without(old(testCases), id)
      ensures activeTestCaseId == if old(activeTestCaseId) == Some(id) then FirstIdOrNull(testCases) else old(activeTestCaseId)
    {
      testCases := Without(testCases, id);
      if activeTestCaseId == Some(id) {
        activeTestCaseId := FirstIdOrNull(testCases);
      }
    }

    /** Stores any id, whether or not a case has it. */
    method SetActiveTestCase(id: Option<string>)
      modifies this
      ensures activeTestCaseId == id && testCases == old(testCases)
    {
      activeTestCaseId := id;
    }

    method LoadTestCases(cases: seq<TestCase>)
      modifies this
      ensures testCases == cases && activeTestCaseId == FirstIdOrNull(cases)
    {
      testCases := cases;
      activeTestCaseId := FirstIdOrNull(cases);
    }
  }

  // ---------------------------------------------------------------------------
  // Properties

  /** Patching by position agrees with the case-by-case definition. */
  lemma {:induction false} UpdatedAt(cases: seq<TestCase>, id: string, patch: Patch, now: string, i: int)
    requires i == FindIndex(cases, id) && 0 <= i
    ensures Updated(cases, id, patch, now) == cases[i := Patched(cases[i], patch, now)]
  {
    if cases[0].id != id {
      UpdatedAt(cases[1..], id, patch, now, i - 1);
      assert [cases[0]] + cases[1..][i - 1 := Patched(cases[i], patch, now)] == cases[i := Patched(cases[i], patch, now)];
    }
  }

  /** Updating an id no case has changes nothing. */
  lemma {:induction false} UpdatedAbsent(cases: seq<TestCase>, id: string, patch: Patch, now: string)
    requires forall k :: 0 <= k < |cases| ==> cases[k].id != id
    ensures Updated(cases, id, patch, now) == cases
  {
    if cases != [] {
      UpdatedAbsent(cases[1..], id, patch, now);
      assert [cases[0]] + cases[1..] == cases;
    }
  }

  /** `updateTestCase` keeps the length and the ids, patches the first case
      with the id (refreshing its `updatedAt`) and leaves every other case as
      it was. */
  lemma UpdatedFacts(cases: seq<TestCase>, id: string, patch: Patch, now: string)
    ensures var u := Updated(cases, id, patch, now);
      && |u| == |cases|
      && (forall k :: 0 <= k < |cases| ==> u[k].id == cases[k].id)
      && (forall k :: 0 <= k < |cases| && k != FindIndex(cases, id) ==> u[k] == cases[k])
      && (0 <= FindIndex(cases, id) ==> u[FindIndex(cases, id)].updatedAt == Some(now))
  {
    var i := FindIndex(cases, id);
    if i >= 0 {
      UpdatedAt(cases, id, patch, now, i);
    } else {
      UpdatedAbsent(cases, id, patch, now);
    }
  }

  /** A patch overwrites exactly the fields it carries. */
  lemma PatchedFields(tc: TestCase, patch: Patch, now: string)
    ensures var p := Patched(tc, patch, now);
      && p.id == tc.id && p.createdAt == tc.createdAt && p.updatedAt == Some(now)
      && (patch.name.Some? ==> p.name == patch.name) && (patch.name.None? ==> p.name == tc.name)
      && (patch.userPrompt.Some? ==> p.userPrompt == patch.userPrompt) && (patch.userPrompt.None? ==> p.userPrompt == tc.userPrompt)
      && (patch.expectedResult.Some? ==> p.expectedResult == patch.expectedResult)
      && (patch.expectedResult.None? ==> p.expectedResult == tc.expectedResult)
  {
  }

  /** `deleteTestCase` leaves no case with the id and keeps every other case. */
  lemma {:induction false} WithoutFacts(cases: seq<TestCase>, id: string)
    ensures var w := Without(cases, id);
      && |w| <= |cases|
      && (forall k :: 0 <= k < |w| ==> w[k].id != id)
      && (forall k :: 0 <= k < |cases| && cases[k].id != id ==> cases[k] in w)
      && (forall c :: c in w ==> c in cases)
  {
    if cases != [] {
      WithoutFacts(cases[1..], id);
      var w := Without(cases, id);
      forall k | 0 <= k < |cases| && cases[k].id != id ensures cases[k] in w {
        if k > 0 {
          assert cases[k] == cases[1..][k - 1];
        }
      }
      forall c | c in w ensures c in cases {
        if c != cases[0] {
          assert c in Without(cases[1..], id);
          assert c in cases[1..];
        }
      }
    }
  }

  /** The filter keeps the relative order: it distributes over concatenation. */
  lemma {:induction false} WithoutAppend(a: seq<TestCase>, b: seq<TestCase>, id: string)
    ensures Without(a + b, id) == Without(a, id) + Without(b, id)
  {
    if a != [] {
      WithoutAppend(a[1..], b, id);
      assert (a + b)[1..] == a[1..] + b;
    } else {
      assert a + b == b;
    }
  }

  /** Deleting an id no case has changes nothing. */
  lemma {:induction false} WithoutAbsent(cases: seq<TestCase>, id: string)
    requires forall k :: 0 <= k < |cases| ==> cases[k].id != id
    ensures Without(cases, id) == cases
  {
    if cases != [] {
      WithoutAbsent(cases[1..], id);
      assert [cases[0]] + cases[1..] == cases;
    }
  }

  /** A case just added is removed again by deleting its fresh id. */
  lemma AddThenDelete(cases: seq<TestCase>, draft: Draft, id: string, now: string)
    requires forall k :: 0 <= k < |cases| ==> cases[k].id != id
    ensures Without(cases + [NewTestCase(draft, id, now)], id) == cases
  {
    WithoutAppend(cases, [NewTestCase(draft, id, now)], id);
    WithoutAbsent(cases, id);
    assert [NewTestCase(draft, id, now)][1..] == [];
  }
}
