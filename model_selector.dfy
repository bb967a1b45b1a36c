/** The reusable model picker (src/components/ModelSelector/ModelSelectorReusable.jsx):
    text search over the offered models, grouping by provider, the selection
    it hands to its owner, the per-group expand flags, the query guard and
    the pricing label. */
module ModelSelector {
  import opened Common
  import opened Domain

  /** The search term occurs in the model's name or id once all three are
      passed through `lower`, the text's `toLowerCase`. The folding is a
      parameter: the browser's folds every Unicode cased letter and may change
      a text's length, which `Common.ToLower` does not model. */
  predicate Matches(m: ModelDescriptor, term: string, lower: string -> string) {
    Includes(lower(m.name), lower(term)) || Includes(lower(m.id), lower(term))
  }

  /** `filteredModels`. */
  function FilteredModels(models: seq<ModelDescriptor>, term: string, lower: string -> string): seq<ModelDescriptor> {
    if models == [] then []
    else if Matches(models[0], term, lower) then [models[0]] + FilteredModels(models[1..], term, lower)
    else FilteredModels(models[1..], term, lower)
  }

  /** `id.split('/')[0]`: the id up to its first slash. */
  function Provider(id: string): string {
    SplitOn(id, "/")[0]
  }

  /** The grouping `reduce`: each model appended to the group of its provider. */
  function Groups(ms: seq<ModelDescriptor>): map<string, seq<ModelDescriptor>> {
    if ms == [] then map[]
    else
      var g := Groups(ms[..|ms| - 1]);
      var m := ms[|ms| - 1];
      var p := Provider(m.id);
      g[p := (if p in g then g[p] else []) + [m]]
  }

  /** The models of one provider, in their original order. */
  function OfProvider(ms: seq<ModelDescriptor>, p: string): seq<ModelDescriptor> {
    if ms == [] then []
    else OfProvider(ms[..|ms| - 1], p) + (if Provider(ms[|ms| - 1].id) == p then [ms[|ms| - 1]] else [])
  }

  const AllModelsGroup := "All Models"

  /** `groupedModels`: by provider, or one group holding every filtered model. */
  method GroupedModels(filtered: seq<ModelDescriptor>, groupByProvider: bool)
    returns (groups: map<string, seq<ModelDescriptor>>)
    ensures groupByProvider ==> groups == Groups(filtered)
    ensures !groupByProvider ==> groups == map[AllModelsGroup := filtered]
  {
    if !groupByProvider {
      return map[AllModelsGroup := filtered];
    }
    groups := map[];
    for i := 0 to |filtered|
      invariant groups == Groups(filtered[..i])
    {
      var model := filtered[i];
      var provider := Provider(model.id);
      if provider !in groups {
        groups := groups[provider := []];
      }
      groups := groups[provider := groups[provider] + [model]];
      assert filtered[..i + 1][..i] == filtered[..i];
    }
    assert filtered[..|filtered|] == filtered;
  }

  /** What `handleToggleModel` hands to `onSelectionChange`, if it calls it:
      with several allowed, every occurrence of the id is dropped or the id is
      appended; with one allowed, the id alone. */
  function ToggleModel(hasCallback: bool, multiSelect: bool, selected: seq<string>, modelId: string): (r: Option<seq<string>>)
    ensures r.Some? <==> hasCallback
    ensures r.Some? && !multiSelect ==> r.value == [modelId]
    ensures r.Some? && multiSelect && modelId in selected ==> modelId !in r.value
    ensures r.Some? && multiSelect && modelId !in selected ==> r.value == selected + [modelId]
    ensures r.Some? && multiSelect ==> forall x :: x != modelId ==> (x in r.value <==> x in selected)
  {
    if !hasCallback then None
    else if multiSelect then Some(if modelId in selected then DropAll(selected, modelId) else selected + [modelId])
    else Some([modelId])
  }

  /** `selected.filter(id => id !== x)`. */
  function DropAll(s: seq<string>, x: string): (r: seq<string>)
    ensures x !in r
    ensures forall y :: y != x ==> (y in r <==> y in s)
  {
    if s == [] then []
    else if s[0] == x then DropAll(s[1..], x)
    else [s[0]] + DropAll(s[1..], x)
  }

  /** `handleSelectAll`: the ids of the filtered models, in multi-select mode only. */
  function SelectAll(hasCallback: bool, multiSelect: bool, filtered: seq<ModelDescriptor>): (r: Option<seq<string>>)
    ensures r.Some? <==> hasCallback && multiSelect
    ensures r.Some? ==> r.value == IdsOf(filtered)
  {
    if !hasCallback || !multiSelect then None else Some(IdsOf(filtered))
  }

  /** `handleClearAll`: `[]` in multi-select mode and `null` otherwise. */
  function ClearAll(hasCallback: bool, multiSelect: bool): (r: Option<Option<seq<string>>>)
    ensures r.Some? <==> hasCallback
    ensures r.Some? ==> (r.value.Some? <==> multiSelect) && (r.value.Some? ==> r.value.value == [])
  {
    if !hasCallback then None else Some(if multiSelect then Some([]) else None)
  }

  /** The group's body is shown unless grouping is on and its flag is exactly
      `false`; a missing flag reads as `undefined`. */
  predicate ShownExpanded(groupByProvider: bool, flags: map<string, bool>, p: string) {
    !groupByProvider || !(p in flags && !flags[p])
  }

  /** `handleToggleGroup`: the flag becomes `!flag`, and `!undefined` is `true`. */
  function ToggleGroup(flags: map<string, bool>, p: string): map<string, bool> {
    flags[p := !(p in flags && flags[p])]
  }

  /** Toggling the flag the group is shown with. */
  function ToggleGroupFixed(flags: map<string, bool>, p: string): map<string, bool> {
    flags[p := !ShownExpanded(true, flags, p)]
  }

  /** `handleExpandAll` (`value` true) and `handleCollapseAll` (false): a new
      flag object with every current group set to the value. */
  method SetAllGroups(groups: map<string, seq<ModelDescriptor>>, value: bool) returns (flags: map<string, bool>)
    ensures flags.Keys == groups.Keys
    ensures forall p :: p in flags ==> flags[p] == value
  {
    flags := map[];
    var todo := groups.Keys;
    while todo != {}
      invariant todo <= groups.Keys
      invariant flags.Keys == groups.Keys - todo
      invariant forall p :: p in flags ==> flags[p] == value
      decreases todo
    {
      var provider :| provider in todo;
      flags := flags[provider := value];
      todo := todo - {provider};
    }
  }

  /** `handleQueryRequest`: the owner's query callback gets the term and the
      limit only when there is one and the trimmed term is not empty. */
  function QueryRequest(hasOnQuery: bool, queryTerm: string, limit: int): (r: Option<(string, int)>)
    ensures r.Some? <==> hasOnQuery && Trim(queryTerm) != ""
    ensures r.Some? ==> r.value == (queryTerm, limit)
  {
    if hasOnQuery && |Trim(queryTerm)| >= 1 then Some((queryTerm, limit)) else None
  }

  /** `getModelPricing`. */
  function PricingLabel(pricing: Option<Pricing>): string {
    if pricing.None? then "Free"
    else "$" + pricing.value.prompt + "/1K in, $" + pricing.value.completion + "/1K out"
  }

  // ---------------------------------------------------------------------------
  // Properties

  /** The filter keeps exactly the matching models, in order, whatever the
      case folding. */
  lemma {:induction false} FilteredModelsFacts(models: seq<ModelDescriptor>, term: string, lower: string -> string)
    ensures var f := FilteredModels(models, term, lower);
      && |f| <= |models|
      && (forall m :: m in f <==> m in models && Matches(m, term, lower))
  {
    if models != [] {
      FilteredModelsFacts(models[1..], term, lower);
      assert forall m :: m in models <==> m == models[0] || m in models[1..];
    }
  }

  lemma {:induction false} IncludesEmpty(hay: string)
    ensures Includes(hay, "")
  {
    assert hay[..0] == "";
  }

  /** An empty search term keeps every model under any folding that maps the
      empty text to itself, as `toLowerCase` does. */
  lemma {:induction false} EmptyTermKeepsAll(models: seq<ModelDescriptor>, lower: string -> string)
    requires lower("") == ""
    ensures FilteredModels(models, "", lower) == models
  {
    if models != [] {
      IncludesEmpty(lower(models[0].name));
      EmptyTermKeepsAll(models[1..], lower);
      assert [models[0]] + models[1..] == models;
    }
  }

  /** The filter distributes over concatenation, so it keeps the order. */
  lemma {:induction false} FilteredAppend(a: seq<ModelDescriptor>, b: seq<ModelDescriptor>, term: string,
                                          lower: string -> string)
    ensures FilteredModels(a + b, term, lower) == FilteredModels(a, term, lower) + FilteredModels(b, term, lower)
  {
    if a != [] {
      FilteredAppend(a[1..], b, term, lower);
      assert (a + b)[1..] == a[1..] + b;
    } else {
      assert a + b == b;
    }
  }

  /** The groups are exactly the providers that occur, and each group holds
      that provider's models in their original order; so every model lands in
      exactly the group of its own provider. */
  lemma {:induction false} GroupsByProvider(ms: seq<ModelDescriptor>, p: string)
    ensures p in Groups(ms) <==> exists i :: 0 <= i < |ms| && Provider(ms[i].id) == p
    ensures p in Groups(ms) ==> Groups(ms)[p] == OfProvider(ms, p)
    ensures p !in Groups(ms) ==> OfProvider(ms, p) == []
  {
    if ms != [] {
      var init := ms[..|ms| - 1];
      GroupsByProvider(init, p);
      assert forall i :: 0 <= i < |init| ==> init[i] == ms[i];
      if exists i :: 0 <= i < |ms| && Provider(ms[i].id) == p {
        var i :| 0 <= i < |ms| && Provider(ms[i].id) == p;
        if i < |init| {
          assert Provider(init[i].id) == p;
        }
      }
    }
  }

  /** A model is in a group exactly when the group is its provider's. */
  lemma {:induction false} OfProviderMembers(ms: seq<ModelDescriptor>, p: string)
    ensures forall m :: m in OfProvider(ms, p) <==> m in ms && Provider(m.id) == p
  {
    if ms != [] {
      OfProviderMembers(ms[..|ms| - 1], p);
      assert forall m :: m in ms <==> m in ms[..|ms| - 1] || m == ms[|ms| - 1];
    }
  }

  /** The first toggle of a group that is shown expanded by default sets its
      flag to `true`, which leaves it expanded; only the second collapses it. */
  lemma FirstToggleKeepsExpanded(flags: map<string, bool>, p: string)
    requires p !in flags
    ensures ShownExpanded(true, flags, p)
    ensures ShownExpanded(true, ToggleGroup(flags, p), p)
    ensures !ShownExpanded(true, ToggleGroup(ToggleGroup(flags, p), p), p)
  {
  }

  /** Toggling the shown state flips what is shown, every time, and touches
      no other group. */
  lemma ToggleGroupFixedFlips(flags: map<string, bool>, p: string, q: string)
    ensures ShownExpanded(true, ToggleGroupFixed(flags, p), p) == !ShownExpanded(true, flags, p)
    ensures q != p ==> ShownExpanded(true, ToggleGroupFixed(flags, p), q) == ShownExpanded(true, flags, q)
  {
  }

  /** A query made only of white space never reaches the owner. */
  lemma BlankQueryIgnored(hasOnQuery: bool, queryTerm: string, limit: int)
    requires forall k :: 0 <= k < |queryTerm| ==> IsJsSpace(queryTerm[k])
    ensures QueryRequest(hasOnQuery, queryTerm, limit) == None
  {
  }

  /** The label is `Free` exactly when the model has no pricing. */
  lemma PricingLabelFree(pricing: Option<Pricing>)
    ensures PricingLabel(pricing) == "Free" <==> pricing.None?
    ensures pricing.Some? ==> PricingLabel(pricing)[0] == '$'
  {
    if pricing.Some? {
      var l := PricingLabel(pricing);
      assert l[0] == '$';
      assert "Free"[0] == 'F';
    }
  }
}
