/** The owners of the model pickers: the models-under-test selector
    (src/components/ModelSelector/ModelSelector.jsx) and the settings panel
    (src/components/SettingsPanel/SettingsPanel.jsx). Both turn the picker's
    proposed selection into toggles of their slice ("diff then toggle"); the
    panel also mirrors the first picked model into the ui slice, flips the
    backend and round-trip switches, and saves settings. */
module SelectionSync {
  import opened Common
  import opened Domain
  import opened ModelLists
  import Database
  import Invocation
  import Ui

  /** `s.filter(id => !x.includes(id))`. */
  function NotIn(s: seq<string>, x: seq<string>): (r: seq<string>)
    ensures |r| <= |s|
    ensures forall y :: y in r <==> y in s && y !in x
  {
    if s == [] then []
    else if s[0] in x then NotIn(s[1..], x)
    else [s[0]] + NotIn(s[1..], x)
  }

  /** One toggle per id, in order. */
  function ToggleAll(s: seq<string>, ids: seq<string>): seq<string> {
    if ids == [] then s else Toggled(ToggleAll(s, ids[..|ids| - 1]), ids[|ids| - 1])
  }

  /** The selection the diff-then-toggle scheme is meant to reach: the old
      selection without the dropped ids, then the new ids in the proposed
      order. */
  function Synced(current: seq<string>, proposed: seq<string>): seq<string> {
    NotIn(current, NotIn(current, proposed)) + NotIn(proposed, current)
  }

  /** One `forEach` of the selection handler: a toggle per id, in order. */
  method ToggleEach(slice: ModelsSlice, ids: seq<string>)
    modifies slice
    ensures slice.selectedModels == ToggleAll(old(slice.selectedModels), ids)
    ensures slice.availableModels == old(slice.availableModels)
    ensures slice.loading == old(slice.loading) && slice.error == old(slice.error)
  {
    for i := 0 to |ids|
      invariant slice.selectedModels == ToggleAll(old(slice.selectedModels), ids[..i])
      invariant slice.availableModels == old(slice.availableModels)
      invariant slice.loading == old(slice.loading) && slice.error == old(slice.error)
    {
      slice.ToggleModelSelection(ids[i]);
      assert ids[..i + 1][..i] == ids[..i];
    }
    assert ids[..|ids|] == ids;
  }

  /** One `forEach` of the selection handler: a toggle per id, in order. */
  method ToggleEachPicked(slice: PickerSlice, ids: seq<string>)
    modifies slice
    ensures slice.selectedModels == ToggleAll(old(slice.selectedModels), ids)
    ensures slice.availableModels == old(slice.availableModels)
    ensures slice.loading == old(slice.loading) && slice.error == old(slice.error)
  {
    for i := 0 to |ids|
      invariant slice.selectedModels == ToggleAll(old(slice.selectedModels), ids[..i])
      invariant slice.availableModels == old(slice.availableModels)
      invariant slice.loading == old(slice.loading) && slice.error == old(slice.error)
    {
      slice.ToggleModelSelection(ids[i]);
      assert ids[..i + 1][..i] == ids[..i];
    }
    assert ids[..|ids|] == ids;
  }

  /** `handleSelectionChange` of the models-under-test selector: toggle every
      proposed id not yet selected, then every selected id not proposed. */
  method ApplySelection(slice: ModelsSlice, proposed: seq<string>)
    modifies slice
    ensures var current := old(slice.selectedModels);
      slice.selectedModels == ToggleAll(ToggleAll(current, NotIn(proposed, current)), NotIn(current, proposed))
    ensures Distinct(old(slice.selectedModels)) && Distinct(proposed) ==>
      slice.selectedModels == Synced(old(slice.selectedModels), proposed)
    ensures slice.availableModels == old(slice.availableModels)
    ensures slice.loading == old(slice.loading) && slice.error == old(slice.error)
  {
    var current := slice.selectedModels;
    var added := NotIn(proposed, current);
    var removed := NotIn(current, proposed);
    ToggleEach(slice, added);
    ToggleEach(slice, removed);
    if Distinct(current) && Distinct(proposed) {
      SyncReachesTarget(current, proposed);
    }
  }

  /** The settings panel's two selection handlers: the same scheme against a
      picker slice. */
  method ApplyPickerSelection(slice: PickerSlice, proposed: seq<string>)
    modifies slice
    ensures var current := old(slice.selectedModels);
      slice.selectedModels == ToggleAll(ToggleAll(current, NotIn(proposed, current)), NotIn(current, proposed))
    ensures Distinct(old(slice.selectedModels)) && Distinct(proposed) ==>
      slice.selectedModels == Synced(old(slice.selectedModels), proposed)
    ensures slice.availableModels == old(slice.availableModels)
    ensures slice.loading == old(slice.loading) && slice.error == old(slice.error)
  {
    var current := slice.selectedModels;
    var added := NotIn(proposed, current);
    var removed := NotIn(current, proposed);
    ToggleEachPicked(slice, added);
    ToggleEachPicked(slice, removed);
    if Distinct(current) && Distinct(proposed) {
      SyncReachesTarget(current, proposed);
    }
  }

  /** `handleQuery` of the models-under-test selector: the picker's term and
      limit are dispatched, and the thunk drops them; the slice ends as the
      fetch leaves it. */
  method HandleQuery(slice: ModelsSlice, searchTerm: string, limit: int, config: Invocation.ClientConfig,
                     localReply: Result<Option<seq<Invocation.HubModel>>, string>,
                     hostedReply: Result<seq<Invocation.HostedModel>, string>)
    returns (request: Invocation.ListRequest, outcome: Result<seq<ModelDescriptor>, string>)
    modifies slice
    ensures config.isLocal ==> request == Invocation.LocalSearch("gguf", 100)
    ensures !config.isLocal ==> request == Invocation.HostedList
    ensures outcome.Err? ==> outcome.error == "Failed to fetch available models"
    ensures outcome.Err? <==> (if config.isLocal then localReply.Err? else hostedReply.Err?)
    ensures config.isLocal && localReply == Ok(None) ==> outcome == Ok([])
    ensures !config.isLocal && hostedReply.Ok? ==> outcome == Ok(Invocation.HostedModels(hostedReply.value))
    ensures config.isLocal && localReply.Ok? && localReply.value.Some? ==>
      outcome == Ok(Invocation.LocalListing(localReply.value.value))
    ensures !slice.loading && slice.selectedModels == old(slice.selectedModels)
    ensures slice.availableModels == if outcome.Ok? then outcome.value else old(slice.availableModels)
    ensures slice.error == if outcome.Ok? then None else Some(outcome.error)
  {
    request, outcome := FetchAvailableModels(slice, Query(Some(searchTerm), Some(limit)), config, localReply, hostedReply);
  }

  /** `selected[0]`, `undefined` for an empty selection. */
  function FirstSelected(selected: seq<string>): (r: Option<string>)
    ensures r.Some? <==> |selected| > 0
    ensures r.Some? ==> r.value == selected[0] && r.value in selected
  {
    if |selected| > 0 then Some(selected[0]) else None
  }

  /** The panel's two effects: the judge model and the translation model
      follow the first model picked in their pickers. */
  method MirrorFirstSelected(ui: Ui.UiState, grading: PickerSlice, translation: PickerSlice)
    modifies ui
    ensures ui.autoGradingModel == FirstSelected(grading.selectedModels)
    ensures ui.translationModel == FirstSelected(translation.selectedModels)
    ensures ui.View() == old(ui.View()).(autoGradingModel := ui.autoGradingModel, translationModel := ui.translationModel)
  {
    ui.SetAutoGradingModel(FirstSelected(grading.selectedModels));
    ui.SetTranslationModel(FirstSelected(translation.selectedModels));
  }

  /** The self-hosted switch: the ui flag flips and both pickers, listening to
      the same action, empty their lists. */
  method SwitchSelfHosted(ui: Ui.UiState, grading: PickerSlice, translation: PickerSlice)
    requires grading != translation
    modifies ui, grading, translation
    ensures ui.View() == old(ui.View()).(enabledSelfHosted := !old(ui.enabledSelfHosted))
    ensures grading.selectedModels == [] && grading.availableModels == []
    ensures grading.loading == old(grading.loading) && grading.error == old(grading.error)
    ensures translation.selectedModels == [] && translation.availableModels == []
    ensures translation.loading == old(translation.loading) && translation.error == old(translation.error)
  {
    ui.ToggleSelfHosted();
    grading.OnToggleSelfHosted();
    translation.OnToggleSelfHosted();
  }

  datatype SaveStatus = Success | Failure

  /** A settings save: the write may throw (`fails`); the status says which. */
  method SaveWithStatus(db: Database.Repository, key: string, value: string, fails: bool) returns (status: SaveStatus)
    modifies db
    ensures status == (if fails then Failure else Success)
    ensures db.settings == if fails then old(db.settings) else old(db.settings)[key := value]
    ensures db.testCases == old(db.testCases) && db.results == old(db.results) && db.grades == old(db.grades)
  {
    if fails {
      return Failure;
    }
    db.SaveSetting(key, value);
    status := Success;
  }

  /** `handleApiKeySave`. */
  method SaveApiKey(db: Database.Repository, apiKey: string, fails: bool) returns (status: SaveStatus)
    modifies db
    ensures status == (if fails then Failure else Success)
    ensures db.settings == if fails then old(db.settings) else old(db.settings)["apiKey" := apiKey]
    ensures db.testCases == old(db.testCases) && db.results == old(db.results) && db.grades == old(db.grades)
  {
    status := SaveWithStatus(db, "apiKey", apiKey, fails);
  }

  /** `handleFROGLlmPathSave`. */
  method SaveLlmPath(db: Database.Repository, llmPath: string, fails: bool) returns (status: SaveStatus)
    modifies db
    ensures status == (if fails then Failure else Success)
    ensures db.settings == if fails then old(db.settings) else old(db.settings)["llmFrogPath" := llmPath]
    ensures db.testCases == old(db.testCases) && db.results == old(db.results) && db.grades == old(db.grades)
  {
    status := SaveWithStatus(db, "llmFrogPath", llmPath, fails);
  }

  // ---------------------------------------------------------------------------
  // Properties

  /** Starting from duplicate-free lists the toggles reach `Synced`, whose
      members are exactly the proposed ids, each once. */
  lemma SyncReachesTarget(current: seq<string>, proposed: seq<string>)
    requires Distinct(current) && Distinct(proposed)
    ensures ToggleAll(ToggleAll(current, NotIn(proposed, current)), NotIn(current, proposed)) == Synced(current, proposed)
    ensures forall y :: y in Synced(current, proposed) <==> y in proposed
    ensures Distinct(Synced(current, proposed))
  {
    var added := NotIn(proposed, current);
    var removed := NotIn(current, proposed);
    NotInDistinct(proposed, current);
    NotInDistinct(current, proposed);
    AppendAll(current, added);
    RemoveAll(current, added, removed);
    NotInDistinct(current, removed);
    DistinctAppend(NotIn(current, removed), added);
  }

  /** Toggling ids that are new and distinct appends them. */
  lemma {:induction false} AppendAll(s: seq<string>, ids: seq<string>)
    requires Distinct(ids) && forall i :: 0 <= i < |ids| ==> ids[i] !in s
    ensures ToggleAll(s, ids) == s + ids
  {
    if ids != [] {
      var init, last := ids[..|ids| - 1], ids[|ids| - 1];
      AppendAll(s, init);
      assert last !in init;
      assert ids == init + [last];
    }
  }

  /** Toggling ids that occur once in the first part removes them there. */
  lemma {:induction false} RemoveAll(s: seq<string>, a: seq<string>, rs: seq<string>)
    requires Distinct(s) && Distinct(rs)
    requires forall i :: 0 <= i < |rs| ==> rs[i] in s && rs[i] !in a
    ensures ToggleAll(s + a, rs) == NotIn(s, rs) + a
  {
    if rs == [] {
      NotInNone(s, rs);
    } else {
      var init, last := rs[..|rs| - 1], rs[|rs| - 1];
      RemoveAll(s, a, init);
      var p := NotIn(s, init);
      assert last !in init;
      assert last in p;
      NotInDistinct(s, init);
      RemoveFirstBefore(p, a, last);
      RemoveFirstDistinct(p, last);
      NotInTwice(s, init, last);
      assert init + [last] == rs;
    }
  }

  lemma {:induction false} NotInNone(s: seq<string>, x: seq<string>)
    requires forall i :: 0 <= i < |s| ==> s[i] !in x
    ensures NotIn(s, x) == s
  {
    if s != [] {
      NotInNone(s[1..], x);
      assert [s[0]] + s[1..] == s;
    }
  }

  lemma {:induction false} NotInDistinct(s: seq<string>, x: seq<string>)
    requires Distinct(s)
    ensures Distinct(NotIn(s, x))
  {
    if s != [] {
      NotInDistinct(s[1..], x);
      assert s[0] !in s[1..];
    }
  }

  lemma {:induction false} NotInTwice(s: seq<string>, x: seq<string>, y: string)
    ensures NotIn(NotIn(s, x), [y]) == NotIn(s, x + [y])
  {
    if s != [] {
      NotInTwice(s[1..], x, y);
    }
  }

  lemma {:induction false} RemoveFirstBefore(p: seq<string>, a: seq<string>, x: string)
    requires x in p
    ensures RemoveFirst(p + a, x) == RemoveFirst(p, x) + a
  {
    if p[0] != x {
      RemoveFirstBefore(p[1..], a, x);
      assert (p + a)[1..] == p[1..] + a;
    } else {
      assert (p + a)[1..] == p[1..] + a;
    }
  }

  lemma {:induction false} RemoveFirstDistinct(p: seq<string>, x: string)
    requires Distinct(p)
    ensures RemoveFirst(p, x) == NotIn(p, [x])
  {
    if p != [] {
      if p[0] == x {
        assert x !in p[1..];
        NotInNone(p[1..], [x]);
      } else {
        RemoveFirstDistinct(p[1..], x);
      }
    }
  }

  lemma DistinctAppend(a: seq<string>, b: seq<string>)
    requires Distinct(a) && Distinct(b) && forall i :: 0 <= i < |b| ==> b[i] !in a
    ensures Distinct(a + b)
  {
    forall i, j | 0 <= i < j < |a + b| ensures (a + b)[i] != (a + b)[j] {
      if i < |a| && j >= |a| {
        assert (a + b)[j] == b[j - |a|];
        assert (a + b)[i] in a;
      }
    }
  }

  /** In a single-select picker, clicking a model leaves exactly that model
      selected, whether or not it already was. */
  lemma {:induction false} SingleClickSelectsOne(current: seq<string>, id: string)
    requires Distinct(current)
    ensures Synced(current, [id]) == [id]
    ensures FirstSelected(Synced(current, [id])) == Some(id)
  {
    SyncReachesTarget(current, [id]);
    var r := Synced(current, [id]);
    if |r| > 1 {
      TwoDistinct(r);
      assert false;
    }
    assert id in r;
    assert r == [r[0]];
  }

  lemma TwoDistinct(r: seq<string>)
    requires Distinct(r) && 1 < |r|
    ensures r[0] != r[1] && r[0] in r && r[1] in r
  {
  }
}
