/** The root store (src/store/index.js) and what the settings panel
    (src/components/SettingsPanel/SettingsPanel.jsx) reads from it on its
    first render. */
module StoreSetup {

  /** The keys `configureStore` registers a reducer under. */
  const RegisteredKeys: set<string> := {"testCases", "models", "results", "ui"}

  /** The two picker slices the settings panel expects beside them. */
  const PickerKeys: set<string> := {"modelsGrading", "modelsTranslation"}

  /** The store once the picker slices are registered too. */
  const CompleteKeys: set<string> := RegisteredKeys + PickerKeys

  /** How the panel's first render ends: it renders, or destructuring the
      state under a missing key throws a `TypeError`, named by that key. */
  datatype PanelRender = Rendered | Throws(missingKey: string)

  /** The panel's three selectors, in order: `state.ui`, then
      `state.modelsGrading`, then `state.modelsTranslation`, each destructured
      at once. The first key the store lacks makes the render throw. */
  function RenderSettingsPanel(keys: set<string>): (r: PanelRender)
    ensures r == Rendered <==> "ui" in keys && PickerKeys <= keys
    ensures r.Throws? ==> r.missingKey !in keys && (r.missingKey == "ui" || r.missingKey in PickerKeys)
  {
    if "ui" !in keys then Throws("ui")
    else if "modelsGrading" !in keys then Throws("modelsGrading")
    else if "modelsTranslation" !in keys then Throws("modelsTranslation")
    else Rendered
  }

  /** As written the store registers neither picker slice, so the settings
      tab throws on its first render at the grading picker's selector, and no
      handler of the panel ever runs. */
  lemma SettingsPanelThrowsAsWired()
    ensures RenderSettingsPanel(RegisteredKeys) == Throws("modelsGrading")
    ensures PickerKeys !! RegisteredKeys
  {
    assert "ui" in RegisteredKeys;
    assert "modelsGrading" !in RegisteredKeys;
  }

  /** With the two picker slices registered the panel renders, whatever
      other slices the store holds; this is the store the picker handlers in
      `SelectionSync` assume. */
  lemma SettingsPanelRendersWhenRegistered(keys: set<string>)
    requires CompleteKeys <= keys
    ensures RenderSettingsPanel(keys) == Rendered
    ensures RenderSettingsPanel(CompleteKeys) == Rendered
  {
    assert "ui" in CompleteKeys;
  }
}
