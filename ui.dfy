/** The ui slice (src/store/uiSlice.js): display preferences, run options,
    the results filters and the notification queue. */
module Ui {
  import opened Common
  import opened Domain

  /** The results dashboard's filters; `scoreFilter` is a number or `null`. */
  datatype Filters = Filters(modelFilter: seq<string>, scoreFilter: Option<int>, statusFilter: string)

  /** An `updateFilters` payload: the keys it carries. */
  datatype FilterPatch = FilterPatch(modelFilter: Option<seq<string>>, scoreFilter: Option<Option<int>>,
                                     statusFilter: Option<string>)

  /** An `addNotification` payload; an `id` in it wins over the clock's. */
  datatype NotificationDraft = NotificationDraft(id: Option<int>, kind: string, message: string)

  const InitialAutoGradingModel := "openai/gpt-4.1"

  /** `Object.assign(filters, patch)`. */
  function Assigned(f: Filters, patch: FilterPatch): (r: Filters)
    ensures patch.modelFilter.Some? ==> r.modelFilter == patch.modelFilter.value
    ensures patch.modelFilter.None? ==> r.modelFilter == f.modelFilter
    ensures patch.scoreFilter.Some? ==> r.scoreFilter == patch.scoreFilter.value
    ensures patch.scoreFilter.None? ==> r.scoreFilter == f.scoreFilter
    ensures patch.statusFilter.Some? ==> r.statusFilter == patch.statusFilter.value
    ensures patch.statusFilter.None? ==> r.statusFilter == f.statusFilter
  {
    Filters(
      if patch.modelFilter.Some? then patch.modelFilter.value else f.modelFilter,
      if patch.scoreFilter.Some? then patch.scoreFilter.value else f.scoreFilter,
      if patch.statusFilter.Some? then patch.statusFilter.value else f.statusFilter)
  }

  /** `{ id: now, ...payload }`. */
  function NotificationOf(draft: NotificationDraft, now: int): (n: Notification)
    ensures n.kind == draft.kind && n.message == draft.message
    ensures n.id == if draft.id.Some? then draft.id.value else now
  {
    Notification(if draft.id.Some? then draft.id.value else now, draft.kind, draft.message)
  }

  /** `notifications.filter(n => n.id !== id)`. */
  function WithoutNotification(ns: seq<Notification>, id: int): seq<Notification> {
    if ns == [] then []
    else if ns[0].id == id then WithoutNotification(ns[1..], id)
    else [ns[0]] + WithoutNotification(ns[1..], id)
  }

  /** The whole ui slice as one value, for stating what a handler leaves
      unchanged. */
  datatype UiView = UiView(theme: string, language: string, enableRoundTrip: bool,
                           translationModel: Option<string>, autoGradingModel: Option<string>,
                           showDiffView: bool, activeTab: string, enabledSelfHosted: bool,
                           filters: Filters, notifications: seq<Notification>)

  class UiState {
    var theme: string
    var language: string
    var enableRoundTrip: bool
    /** Empty initially; the settings panel may make it `undefined`. */
    var translationModel: Option<string>
    var autoGradingModel: Option<string>
    var showDiffView: bool
    var activeTab: string
    var enabledSelfHosted: bool
    var filters: Filters
    var notifications: seq<Notification>

    /** The slice's state as a value. */
    function View(): UiView
      reads this
    {
      UiView(theme, language, enableRoundTrip, translationModel, autoGradingModel,
             showDiffView, activeTab, enabledSelfHosted, filters, notifications)
    }

    constructor()
      ensures theme == "light" && language == "en" && activeTab == "editor"
      ensures !enableRoundTrip && !enabledSelfHosted && showDiffView
      ensures translationModel == Some("") && autoGradingModel == Some(InitialAutoGradingModel)
      ensures filters == Filters([], None, "all") && notifications == []
    {
      theme := "light";
      language := "en";
      enableRoundTrip := false;
      translationModel := Some("");
      autoGradingModel := Some(InitialAutoGradingModel);
      showDiffView := true;
      activeTab := "editor";
      enabledSelfHosted := false;
      filters := Filters([], None, "all");
      notifications := [];
    }

    method SetTheme(t: string)
      modifies this
      ensures theme == t
      ensures language == old(language) && enableRoundTrip == old(enableRoundTrip) && translationModel == old(translationModel)
      ensures autoGradingModel == old(autoGradingModel) && showDiffView == old(showDiffView) && activeTab == old(activeTab)
      ensures enabledSelfHosted == old(enabledSelfHosted) && filters == old(filters) && notifications == old(notifications)
    {
      theme := t;
    }

    method SetLanguage(l: string)
      modifies this
      ensures language == l
      ensures theme == old(theme) && enableRoundTrip == old(enableRoundTrip) && translationModel == old(translationModel)
      ensures autoGradingModel == old(autoGradingModel) && showDiffView == old(showDiffView) && activeTab == old(activeTab)
      ensures enabledSelfHosted == old(enabledSelfHosted) && filters == old(filters) && notifications == old(notifications)
    {
      language := l;
    }

    /** Flips the flag; a payload, if any, is ignored. */
    method ToggleRoundTrip()
      modifies this
      ensures enableRoundTrip == !old(enableRoundTrip)
      ensures theme == old(theme) && language == old(language) && translationModel == old(translationModel)
      ensures autoGradingModel == old(autoGradingModel) && showDiffView == old(showDiffView) && activeTab == old(activeTab)
      ensures enabledSelfHosted == old(enabledSelfHosted) && filters == old(filters) && notifications == old(notifications)
    {
      enableRoundTrip := !enableRoundTrip;
    }

    /** Flips the flag; a payload, if any, is ignored. */
    method ToggleSelfHosted()
      modifies this
      ensures enabledSelfHosted == !old(enabledSelfHosted)
      ensures theme == old(theme) && language == old(language) && enableRoundTrip == old(enableRoundTrip)
      ensures translationModel == old(translationModel) && autoGradingModel == old(autoGradingModel)
      ensures showDiffView == old(showDiffView) && activeTab == old(activeTab)
      ensures filters == old(filters) && notifications == old(notifications)
    {
      enabledSelfHosted := !enabledSelfHosted;
    }

    method SetTranslationModel(m: Option<string>)
      modifies this
      ensures translationModel == m
      ensures theme == old(theme) && language == old(language) && enableRoundTrip == old(enableRoundTrip)
      ensures autoGradingModel == old(autoGradingModel) && showDiffView == old(showDiffView) && activeTab == old(activeTab)
      ensures enabledSelfHosted == old(enabledSelfHosted) && filters == old(filters) && notifications == old(notifications)
    {
      translationModel := m;
    }

    method SetAutoGradingModel(m: Option<string>)
      modifies this
      ensures autoGradingModel == m
      ensures theme == old(theme) && language == old(language) && enableRoundTrip == old(enableRoundTrip)
      ensures translationModel == old(translationModel) && showDiffView == old(showDiffView) && activeTab == old(activeTab)
      ensures enabledSelfHosted == old(enabledSelfHosted) && filters == old(filters) && notifications == old(notifications)
    {
      autoGradingModel := m;
    }

    method ToggleDiffView()
      modifies this
      ensures showDiffView == !old(showDiffView)
      ensures theme == old(theme) && language == old(language) && enableRoundTrip == old(enableRoundTrip)
      ensures translationModel == old(translationModel) && autoGradingModel == old(autoGradingModel) && activeTab == old(activeTab)
      ensures enabledSelfHosted == old(enabledSelfHosted) && filters == old(filters) && notifications == old(notifications)
    {
      showDiffView := !showDiffView;
    }

    method SetActiveTab(tab: string)
      modifies this
      ensures activeTab == tab
      ensures theme == old(theme) && language == old(language) && enableRoundTrip == old(enableRoundTrip)
      ensures translationModel == old(translationModel) && autoGradingModel == old(autoGradingModel) && showDiffView == old(showDiffView)
      ensures enabledSelfHosted == old(enabledSelfHosted) && filters == old(filters) && notifications == old(notifications)
    {
      activeTab := tab;
    }

    method UpdateFilters(patch: FilterPatch)
      modifies this
      ensures filters == Assigned(old(filters), patch)
      ensures theme == old(theme) && language == old(language) && enableRoundTrip == old(enableRoundTrip)
      ensures translationModel == old(translationModel) && autoGradingModel == old(autoGradingModel)
      ensures showDiffView == old(showDiffView) && activeTab == old(activeTab)
      ensures enabledSelfHosted == old(enabledSelfHosted) && notifications == old(notifications)
    {
      filters := Assigned(filters, patch);
    }

    /** Appends the notification stamped with the clock. */
    method AddNotification(draft: NotificationDraft, now: int)
      modifies this
      ensures notifications == old(notifications) + [NotificationOf(draft, now)]
      ensures theme == old(theme) && language == old(language) && enableRoundTrip == old(enableRoundTrip)
      ensures translationModel == old(translationModel) && autoGradingModel == old(autoGradingModel)
      ensures showDiffView == old(showDiffView) && activeTab == old(activeTab)
      ensures enabledSelfHosted == old(enabledSelfHosted) && filters == old(filters)
    {
      notifications := notifications + [NotificationOf(draft, now)];
    }

    method RemoveNotification(id: int)
      modifies this
      ensures notifications == WithoutNotification(old(notifications), id)
      ensures theme == old(theme) && language == old(language) && enableRoundTrip == old(enableRoundTrip)
      ensures translationModel == old(translationModel) && autoGradingModel == old(autoGradingModel)
      ensures showDiffView == old(showDiffView) && activeTab == old(activeTab)
      ensures enabledSelfHosted == old(enabledSelfHosted) && filters == old(filters)
    {
      notifications := WithoutNotification(notifications, id);
    }
  }

  // ---------------------------------------------------------------------------
  // Properties

  /** Applying the same patch twice is the same as applying it once, and an
      empty patch changes nothing. */
  lemma AssignedIdempotent(f: Filters, patch: FilterPatch)
    ensures Assigned(Assigned(f, patch), patch) == Assigned(f, patch)
    ensures Assigned(f, FilterPatch(None, None, None)) == f
  {
  }

  /** `removeNotification` removes every notification with the id and keeps
      the others, in order. */
  lemma {:induction false} WithoutNotificationFacts(ns: seq<Notification>, id: int)
    ensures var w := WithoutNotification(ns, id);
      && |w| <= |ns|
      && (forall k :: 0 <= k < |w| ==> w[k].id != id)
      && (forall k :: 0 <= k < |ns| && ns[k].id != id ==> ns[k] in w)
      && (forall n :: n in w ==> n in ns)
  {
    if ns != [] {
      WithoutNotificationFacts(ns[1..], id);
      var w := WithoutNotification(ns, id);
      forall k | 0 <= k < |ns| && ns[k].id != id ensures ns[k] in w {
        if k > 0 {
          assert ns[k] == ns[1..][k - 1];
        }
      }
      forall n | n in w ensures n in ns {
        if n != ns[0] {
          assert n in WithoutNotification(ns[1..], id);
          assert n in ns[1..];
        }
      }
    }
  }

  lemma {:induction false} WithoutNotificationAppend(a: seq<Notification>, b: seq<Notification>, id: int)
    ensures WithoutNotification(a + b, id) == WithoutNotification(a, id) + WithoutNotification(b, id)
  {
    if a != [] {
      WithoutNotificationAppend(a[1..], b, id);
      assert (a + b)[1..] == a[1..] + b;
    } else {
      assert a + b == b;
    }
  }

  lemma {:induction false} WithoutAbsentNotification(ns: seq<Notification>, id: int)
    requires forall k :: 0 <= k < |ns| ==> ns[k].id != id
    ensures WithoutNotification(ns, id) == ns
  {
    if ns != [] {
      WithoutAbsentNotification(ns[1..], id);
      assert [ns[0]] + ns[1..] == ns;
    }
  }

  /** Dismissing a notification just added, whose id no earlier one shares,
      restores the queue. */
  lemma AddThenRemoveNotification(ns: seq<Notification>, draft: NotificationDraft, now: int)
    requires forall k :: 0 <= k < |ns| ==> ns[k].id != NotificationOf(draft, now).id
    ensures WithoutNotification(ns + [NotificationOf(draft, now)], NotificationOf(draft, now).id) == ns
  {
    var n := NotificationOf(draft, now);
    WithoutNotificationAppend(ns, [n], n.id);
    WithoutAbsentNotification(ns, n.id);
    assert [n][1..] == [];
  }
}
