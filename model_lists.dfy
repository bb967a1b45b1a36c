/** The three model-selection lists: the models under test
    (src/store/modelsSlice.js), and the grading and translation pickers
    (src/store/gradingModelSlice.js, src/store/translationModelSlice.js), which
    are the same slice under two names. Each holds the models the backend
    offers, the ids the user selected, and the state of the last fetch. */
module ModelLists {
  import opened Common
  import opened Domain
  import Invocation

  /** `s.indexOf(x)`. */
  function IndexOf(s: seq<string>, x: string): (i: int)
    ensures -1 <= i < |s|
    ensures i == -1 <==> x !in s
    ensures 0 <= i ==> s[i] == x && x !in s[..i]
  {
    if s == [] then -1
    else if s[0] == x then 0
    else
      var j := IndexOf(s[1..], x);
      assert 0 <= j ==> s[..j + 1] == [s[0]] + s[1..][..j];
      if j == -1 then -1 else j + 1
  }

  /** The list without the first occurrence of `x`. */
  function RemoveFirst(s: seq<string>, x: string): seq<string> {
    if s == [] then []
    else if s[0] == x then s[1..]
    else [s[0]] + RemoveFirst(s[1..], x)
  }

  /** A toggle: drop the first occurrence of the id, or append it when absent. */
  function Toggled(s: seq<string>, x: string): seq<string> {
    if x in s then RemoveFirst(s, x) else s + [x]
  }

  /** The body of every `toggleModelSelection*` reducer: `indexOf`, then
      `splice(index, 1)` or `push`. */
  method Toggle(s: seq<string>, modelId: string) returns (r: seq<string>)
    ensures r == Toggled(s, modelId)
  {
    var index := IndexOf(s, modelId);
    if index > -1 {
      SpliceIsRemoveFirst(s, modelId, index);
      r := s[..index] + s[index + 1..];
    } else {
      r := s + [modelId];
    }
  }

  /** The argument a fetch thunk is dispatched with. */
  datatype Query = Query(searchTerm: Option<string>, limit: Option<int>)

  /** The selection of models to run a test case against. */
  class ModelsSlice {
    var availableModels: seq<ModelDescriptor>
    var selectedModels: seq<string>
    var loading: bool
    var error: Option<string>

    constructor()
      ensures availableModels == [] && selectedModels == [] && !loading && error == None
    {
      availableModels := [];
      selectedModels := [];
      loading := false;
      error := None;
    }

    method ToggleModelSelection(modelId: string)
      modifies this
      ensures selectedModels == Toggled(old(selectedModels), modelId)
      ensures availableModels == old(availableModels) && loading == old(loading) && error == old(error)
    {
      selectedModels := Toggle(selectedModels, modelId);
    }

    method SelectAllModels()
      modifies this
      ensures selectedModels == IdsOf(availableModels)
      ensures availableModels == old(availableModels) && loading == old(loading) && error == old(error)
    {
      selectedModels := IdsOf(availableModels);
    }

    method DeselectAllModels()
      modifies this
      ensures selectedModels == []
      ensures availableModels == old(availableModels) && loading == old(loading) && error == old(error)
    {
      selectedModels := [];
    }

    method SetSelectedModels(ids: seq<string>)
      modifies this
      ensures selectedModels == ids
      ensures availableModels == old(availableModels) && loading == old(loading) && error == old(error)
    {
      selectedModels := ids;
    }

    method FetchPending()
      modifies this
      ensures loading && error == None
      ensures availableModels == old(availableModels) && selectedModels == old(selectedModels)
    {
      loading := true;
      error := None;
    }

    method FetchFulfilled(models: seq<ModelDescriptor>)
      modifies this
      ensures !loading && availableModels == models
      ensures selectedModels == old(selectedModels) && error == old(error)
    {
      loading := false;
      availableModels := models;
    }

    method FetchRejected(message: string)
      modifies this
      ensures !loading && error == Some(message)
      ensures availableModels == old(availableModels) && selectedModels == old(selectedModels)
    {
      loading := false;
      error := Some(message);
    }
  }

  /** `fetchAvailableModels` dispatched with any argument: the thunk drops the
      argument and calls the listing with its defaults. */
  method FetchAvailableModels(slice: ModelsSlice, query: Query, config: Invocation.ClientConfig,
                              localReply: Result<Option<seq<Invocation.HubModel>>, string>,
                              hostedReply: Result<seq<Invocation.HostedModel>, string>)
    returns (request: Invocation.ListRequest, outcome: Result<seq<ModelDescriptor>, string>)
    modifies slice
    ensures config.isLocal ==> request == Invocation.LocalSearch("gguf", 100)
    ensures !config.isLocal ==> request == Invocation.HostedList
    ensures outcome.Err? ==> outcome.error == "Failed to fetch available models"
    ensures outcome.Err? <==> (if config.isLocal then localReply.Err? else hostedReply.Err?)
    ensures config.isLocal && localReply == Ok(None) ==> outcome == Ok([])
    ensures !config.isLocal && hostedReply.Ok? ==> outcome == Ok(Invocation.HostedModels(hostedReply.value))
    ensures config.isLocal && localReply.Ok? && localReply.value.Some? ==>
      outcome == Ok(Invocation.LocalListing(localReply.value.value))
    ensures !slice.loading && slice.selectedModels == old(slice.selectedModels)
    ensures slice.availableModels == if outcome.Ok? then outcome.value else old(slice.availableModels)
    ensures slice.error == if outcome.Ok? then None else Some(outcome.error)
  {
    slice.FetchPending();
    outcome, request := Invocation.GetAvailableModels(config, None, None, localReply, hostedReply);
    if outcome.Ok? {
      slice.FetchFulfilled(outcome.value);
    } else {
      slice.FetchRejected(outcome.error);
    }
  }

  /** A judge-model or translation-model picker. */
  class PickerSlice {
    var availableModels: seq<ModelDescriptor>
    var selectedModels: seq<string>
    var loading: bool
    var error: Option<string>

    constructor()
      ensures availableModels == [] && selectedModels == [] && !loading && error == None
    {
      availableModels := [];
      selectedModels := [];
      loading := false;
      error := None;
    }

    method ToggleModelSelection(modelId: string)
      modifies this
      ensures selectedModels == Toggled(old(selectedModels), modelId)
      ensures availableModels == old(availableModels) && loading == old(loading) && error == old(error)
    {
      selectedModels := Toggle(selectedModels, modelId);
    }

    method SelectAllModels()
      modifies this
      ensures selectedModels == IdsOf(availableModels)
      ensures availableModels == old(availableModels) && loading == old(loading) && error == old(error)
    {
      selectedModels := IdsOf(availableModels);
    }

    method DeselectAllModels()
      modifies this
      ensures selectedModels == []
      ensures availableModels == old(availableModels) && loading == old(loading) && error == old(error)
    {
      selectedModels := [];
    }

    method SetSelectedModels(ids: seq<string>)
      modifies this
      ensures selectedModels == ids
      ensures availableModels == old(availableModels) && loading == old(loading) && error == old(error)
    {
      selectedModels := ids;
    }

    /** Empties the offered models only. */
    method ClearAvailableModels()
      modifies this
      ensures availableModels == []
      ensures selectedModels == old(selectedModels) && loading == old(loading) && error == old(error)
    {
      availableModels := [];
    }

    /** The response to the ui's `toggleSelfHosted`: the other backend offers
        other models, so both lists are emptied. */
    method OnToggleSelfHosted()
      modifies this
      ensures selectedModels == [] && availableModels == []
      ensures loading == old(loading) && error == old(error)
    {
      selectedModels := [];
      availableModels := [];
    }

    method FetchPending()
      modifies this
      ensures loading && error == None
      ensures availableModels == old(availableModels) && selectedModels == old(selectedModels)
    {
      loading := true;
      error := None;
    }

    method FetchFulfilled(models: seq<ModelDescriptor>)
      modifies this
      ensures !loading && availableModels == models
      ensures selectedModels == old(selectedModels) && error == old(error)
    {
      loading := false;
      availableModels := models;
    }

    method FetchRejected(message: string)
      modifies this
      ensures !loading && error == Some(message)
      ensures availableModels == old(availableModels) && selectedModels == old(selectedModels)
    {
      loading := false;
      error := Some(message);
    }
  }

  /** A picker's fetch: the search term and limit are passed on, and a
      missing one takes the listing's default. */
  method FetchPickerModels(slice: PickerSlice, query: Query, config: Invocation.ClientConfig,
                           localReply: Result<Option<seq<Invocation.HubModel>>, string>,
                           hostedReply: Result<seq<Invocation.HostedModel>, string>)
    returns (request: Invocation.ListRequest, outcome: Result<seq<ModelDescriptor>, string>)
    modifies slice
    ensures config.isLocal ==> request == Invocation.LocalSearch(
      if query.searchTerm.Some? then query.searchTerm.value else "gguf",
      if query.limit.Some? then query.limit.value else 100)
    ensures !config.isLocal ==> request == Invocation.HostedList
    ensures outcome.Err? ==> outcome.error == "Failed to fetch available models"
    ensures outcome.Err? <==> (if config.isLocal then localReply.Err? else hostedReply.Err?)
    ensures config.isLocal && localReply == Ok(None) ==> outcome == Ok([])
    ensures !config.isLocal && hostedReply.Ok? ==> outcome == Ok(Invocation.HostedModels(hostedReply.value))
    ensures config.isLocal && localReply.Ok? && localReply.value.Some? ==>
      outcome == Ok(Invocation.LocalListing(localReply.value.value))
    ensures !slice.loading && slice.selectedModels == old(slice.selectedModels)
    ensures slice.availableModels == if outcome.Ok? then outcome.value else old(slice.availableModels)
    ensures slice.error == if outcome.Ok? then None else Some(outcome.error)
  {
    slice.FetchPending();
    outcome, request := Invocation.GetAvailableModels(config, query.searchTerm, query.limit, localReply, hostedReply);
    if outcome.Ok? {
      slice.FetchFulfilled(outcome.value);
    } else {
      slice.FetchRejected(outcome.error);
    }
  }

  // ---------------------------------------------------------------------------
  // Properties

  /** Splicing out the element `indexOf` found removes the first occurrence. */
  lemma {:induction false} SpliceIsRemoveFirst(s: seq<string>, x: string, i: int)
    requires i == IndexOf(s, x) && 0 <= i
    ensures RemoveFirst(s, x) == s[..i] + s[i + 1..]
  {
    if s[0] != x {
      SpliceIsRemoveFirst(s[1..], x, i - 1);
      assert s[..i] == [s[0]] + s[1..][..i - 1];
      assert s[i + 1..] == s[1..][i..];
    }
  }

  /** Removing the first occurrence takes one copy of the id out of the list
      and leaves a list without it untouched. */
  lemma {:induction false} RemoveFirstCounts(s: seq<string>, x: string)
    ensures x in s ==> multiset(RemoveFirst(s, x)) == multiset(s) - multiset{x}
    ensures x !in s ==> RemoveFirst(s, x) == s
  {
    if s != [] {
      RemoveFirstCounts(s[1..], x);
      assert s == [s[0]] + s[1..];
      if s[0] != x {
        assert x in s ==> x in s[1..];
      }
    }
  }

  /** Toggling an id that is not selected twice gives back the same list. */
  lemma ToggleTwiceAbsent(s: seq<string>, x: string)
    requires x !in s
    ensures Toggled(Toggled(s, x), x) == s
  {
    RemoveFirstAppended(s, x);
  }

  lemma {:induction false} RemoveFirstAppended(s: seq<string>, x: string)
    requires x !in s
    ensures RemoveFirst(s + [x], x) == s
  {
    if s != [] {
      RemoveFirstAppended(s[1..], x);
      assert (s + [x])[1..] == s[1..] + [x];
      assert [s[0]] + s[1..] == s;
    }
  }

  /** On a duplicate-free selection a toggle keeps it duplicate-free, and the
      new members are the old ones with the id's membership flipped. */
  lemma ToggleKeepsDistinct(s: seq<string>, x: string)
    requires Distinct(s)
    ensures Distinct(Toggled(s, x))
    ensures forall y :: y in Toggled(s, x) <==> (y in s) != (y == x)
  {
    if x in s {
      var i := IndexOf(s, x);
      SpliceIsRemoveFirst(s, x, i);
      SpliceMembers(s, i);
    }
  }

  /** Cutting position `i` out of a duplicate-free list keeps it
      duplicate-free and loses exactly the element at `i`. */
  lemma SpliceMembers(s: seq<string>, i: int)
    requires Distinct(s) && 0 <= i < |s|
    ensures Distinct(s[..i] + s[i + 1..])
    ensures forall y :: y in s[..i] + s[i + 1..] <==> y in s && y != s[i]
  {
    var r := s[..i] + s[i + 1..];
    assert forall j :: 0 <= j < |r| ==> r[j] == s[if j < i then j else j + 1];
    forall y ensures y in r <==> y in s && y != s[i] {
      if y in r {
        var j :| 0 <= j < |r| && r[j] == y;
        assert y == s[if j < i then j else j + 1];
      }
      if y in s && y != s[i] {
        var j :| 0 <= j < |s| && s[j] == y;
        assert r[if j < i then j else j - 1] == y;
      }
    }
  }
}
