/**
 * The UI tool template: a basic tool that also shows a widget through the
 * UI manager. The base lifecycle is the `core` tool; the overrides wrap
 * its steps, and the base's own calls to DeactivateTool (from
 * OnModeChanged and ShutdownTool) dispatch to the override here. The
 * requests sent to the UI manager and the Blueprint UI events are kept in
 * ghost logs.
 */
module UIToolTemplate {
  import opened TwinTypes
  import opened BasicToolTemplate

  datatype UIRequest = PushUI(name: string, layer: UILayer) | PopUI(layer: UILayer)

  datatype UIEvent = UIShown | UIWidgetCreated | UIHidden

  /**
   * The UI configuration. `modeWidgets` maps a mode to whether its
   * mode-specific widget class is set and loads.
   */
  datatype UIConfig = UIConfig(
    targetLayer: UILayer,
    autoShowUI: bool,
    hideOnModeChange: bool,
    modeWidgets: map<AppMode, bool>)

  /** The template's configuration: the menu layer, shown on activation, hidden on mode change. */
  function DefaultUIConfig(): (c: UIConfig)
    ensures c.targetLayer == Menu && c.autoShowUI && c.hideOnModeChange && c.modeWidgets == map[]
  {
    UIConfig(Menu, true, true, map[])
  }

  /** The metadata the template's constructor sets over the basic defaults. */
  function UIToolDefaults(supportedModes: seq<AppMode>): (m: ToolMetadata)
    ensures m.toolName == "UI Tool" && m.category == UI
    ensures m == BasicToolDefaults(supportedModes).(toolName := m.toolName, description := m.description,
                                                    category := m.category)
  {
    BasicToolDefaults(supportedModes).(toolName := "UI Tool", description := "A UI-based tool template", category := UI)
  }

  /** How many layers a request log leaves pushed: pushes minus pops. */
  function Pushed(requests: seq<UIRequest>): int
  {
    if requests == [] then 0
    else
      var last := requests[|requests| - 1];
      Pushed(requests[..|requests| - 1]) + (if last.PushUI? then 1 else -1)
  }

  /** Appending a request counts it, and keeps every request on `layer` when it is on `layer`. */
  lemma PushedAppend(requests: seq<UIRequest>, r: UIRequest, layer: UILayer)
    requires forall i :: 0 <= i < |requests| ==> requests[i].layer == layer
    requires r.layer == layer
    ensures Pushed(requests + [r]) == Pushed(requests) + (if r.PushUI? then 1 else -1)
    ensures forall i :: 0 <= i < |requests + [r]| ==> (requests + [r])[i].layer == layer
  {
    assert (requests + [r])[..|requests|] == requests;
  }

  class UITool {
    const core: BasicTool
    const config: UIConfig
    /** Whether the UI manager subsystem can be reached. */
    const uiManagerPresent: bool
    var uiVisible: bool
    ghost var uiRequests: seq<UIRequest>
    ghost var uiEvents: seq<UIEvent>

    /**
     * The base tool is valid; the UI is visible exactly while one layer
     * pushed by this tool is outstanding; every request targets the
     * configured layer; and visibility implies the UI manager exists.
     */
    ghost predicate Valid()
      reads this, core
    {
      core.Valid() &&
      Pushed(uiRequests) == (if uiVisible then 1 else 0) &&
      (forall i :: 0 <= i < |uiRequests| ==> uiRequests[i].layer == config.targetLayer) &&
      (uiVisible ==> uiManagerPresent)
    }

    /** The name under which the tool's UI is pushed. */
    function UIName(): string
    {
      "Tool_" + core.metadata.toolName
    }

    /** Whether the mode-specific widget for `mode` is configured and loads. */
    function ModeWidgetLoads(mode: AppMode): bool
    {
      mode in config.modeWidgets && config.modeWidgets[mode]
    }

    /** Whether CreateToolWidget would yield a widget in the current state. */
    ghost predicate WidgetAvailable()
      reads core
    {
      ModeWidgetLoads(core.currentMode) || core.cachedWidget || core.widgetClassLoads
    }

    constructor(metadata: ToolMetadata, widgetClassLoads: bool, config: UIConfig, uiManagerPresent: bool)
      ensures Valid() && fresh(core)
      ensures core.metadata == metadata && core.widgetClassLoads == widgetClassLoads
      ensures !core.isActive && !core.isInitialized && core.currentMode == MainMenu && !core.cachedWidget
      ensures core.events == []
      ensures this.config == config && this.uiManagerPresent == uiManagerPresent
      ensures !uiVisible && uiRequests == [] && uiEvents == []
    {
      core := new BasicTool(metadata, widgetClassLoads);
      this.config := config;
      this.uiManagerPresent := uiManagerPresent;
      uiVisible := false;
      uiRequests := [];
      uiEvents := [];
    }

    /** The UI is visible exactly while this tool has one layer pushed, which needs the UI manager. */
    function IsUIVisible(): (r: bool)
      requires Valid()
      reads this, core
      ensures r <==> Pushed(uiRequests) == 1
      ensures r ==> uiManagerPresent
    {
      uiVisible
    }

    /**
     * A fresh mode-specific widget when the current mode has one that
     * loads; otherwise the base's cached widget, created if possible.
     */
    method CreateToolWidget() returns (widget: bool)
      modifies core
      ensures widget == old(WidgetAvailable())
      ensures core.cachedWidget == if old(ModeWidgetLoads(core.currentMode)) then old(core.cachedWidget)
                                   else old(core.cachedWidget) || core.widgetClassLoads
      ensures core.isActive == old(core.isActive) && core.isInitialized == old(core.isInitialized)
      ensures core.currentMode == old(core.currentMode) && core.events == old(core.events)
    {
      if ModeWidgetLoads(core.currentMode) {
        return true;
      }
      widget := core.CreateToolWidget();
    }

    /**
     * Shows the UI when it is hidden, a widget is available and the UI
     * manager exists: one push under the tool's name on the target layer.
     */
    method ShowToolUI()
      requires Valid()
      modifies this, core
      ensures Valid()
      ensures uiVisible == (old(uiVisible) || (old(WidgetAvailable()) && uiManagerPresent))
      ensures uiRequests == old(uiRequests) + (if uiVisible && !old(uiVisible) then [PushUI(UIName(), config.targetLayer)] else [])
      ensures uiEvents == old(uiEvents) + (if uiVisible && !old(uiVisible) then [UIShown, UIWidgetCreated] else [])
      ensures core.cachedWidget == if old(uiVisible) || old(ModeWidgetLoads(core.currentMode)) then old(core.cachedWidget)
                                   else old(core.cachedWidget) || core.widgetClassLoads
      ensures core.isActive == old(core.isActive) && core.isInitialized == old(core.isInitialized)
      ensures core.currentMode == old(core.currentMode) && core.events == old(core.events)
    {
      if !uiVisible {
        ghost var available := WidgetAvailable();
        var widget := CreateToolWidget();
        assert widget == available && Valid();
        if widget && uiManagerPresent {
          PushedAppend(uiRequests, PushUI(UIName(), config.targetLayer), config.targetLayer);
          uiRequests := uiRequests + [PushUI(UIName(), config.targetLayer)];
          uiVisible := true;
          uiEvents := uiEvents + [UIShown, UIWidgetCreated];
          assert Valid();
        }
      }
    }

    /** Hides a visible UI with one pop of the target layer. */
    method HideToolUI()
      requires Valid()
      modifies this
      ensures Valid()
      ensures !uiVisible
      ensures uiRequests == old(uiRequests) + (if old(uiVisible) then [PopUI(config.targetLayer)] else [])
      ensures uiEvents == old(uiEvents) + (if old(uiVisible) then [UIHidden] else [])
    {
      if !uiVisible {
        return;
      }
      if uiManagerPresent {
        PushedAppend(uiRequests, PopUI(config.targetLayer), config.targetLayer);
        uiRequests := uiRequests + [PopUI(config.targetLayer)];
        uiVisible := false;
        uiEvents := uiEvents + [UIHidden];
        assert Valid();
      }
    }

    /** Re-shows a visible UI (pop, then push if a widget is still available); a hidden UI stays hidden. */
    method RefreshUI()
      requires Valid()
      modifies this, core
      ensures Valid()
      ensures uiVisible == (old(uiVisible) && old(WidgetAvailable()))
      ensures !old(uiVisible) ==> uiRequests == old(uiRequests) && uiEvents == old(uiEvents)
      ensures old(uiVisible) ==> uiRequests == old(uiRequests) + [PopUI(config.targetLayer)] +
                                  (if uiVisible then [PushUI(UIName(), config.targetLayer)] else [])
      ensures old(uiVisible) ==>
                uiEvents == old(uiEvents) + [UIHidden] + (if uiVisible then [UIShown, UIWidgetCreated] else [])
      ensures core.cachedWidget == if old(uiVisible) && !ModeWidgetLoads(core.currentMode)
                                   then old(core.cachedWidget) || core.widgetClassLoads
                                   else old(core.cachedWidget)
      ensures core.isActive == old(core.isActive) && core.isInitialized == old(core.isInitialized)
      ensures core.currentMode == old(core.currentMode) && core.events == old(core.events)
    {
      if uiVisible {
        HideToolUI();
        ShowToolUI();
      }
    }

    /** Refreshes a visible UI when the mode has a mode-specific widget entry. */
    method UpdateUIForMode(mode: AppMode)
      requires Valid()
      modifies this, core
      ensures Valid()
      ensures !(old(uiVisible) && mode in config.modeWidgets) ==>
                uiVisible == old(uiVisible) && uiRequests == old(uiRequests) && uiEvents == old(uiEvents)
      ensures old(uiVisible) && mode in config.modeWidgets ==>
                uiVisible == old(WidgetAvailable()) &&
                uiRequests == old(uiRequests) + [PopUI(config.targetLayer)] +
                              (if uiVisible then [PushUI(UIName(), config.targetLayer)] else []) &&
                uiEvents == old(uiEvents) + [UIHidden] + (if uiVisible then [UIShown, UIWidgetCreated] else [])
      ensures core.cachedWidget == if old(uiVisible) && mode in config.modeWidgets && !ModeWidgetLoads(core.currentMode)
                                   then old(core.cachedWidget) || core.widgetClassLoads
                                   else old(core.cachedWidget)
      ensures core.isActive == old(core.isActive) && core.isInitialized == old(core.isInitialized)
      ensures core.currentMode == old(core.currentMode) && core.events == old(core.events)
    {
      if uiVisible && mode in config.modeWidgets {
        RefreshUI();
      }
    }

    /** The base activation, then the UI shown when auto-show is on. */
    method ActivateTool()
      requires Valid()
      modifies this, core
      ensures Valid()
      ensures core.isActive && core.isInitialized
      ensures core.events == old(core.events) + (if old(core.isInitialized) then [] else [Initialized]) +
                             (if old(core.isActive) then [] else [StateChanged(true), Activated])
      ensures uiVisible == (old(uiVisible) || (config.autoShowUI && old(WidgetAvailable()) && uiManagerPresent))
      ensures uiRequests == old(uiRequests) + (if uiVisible && !old(uiVisible) then [PushUI(UIName(), config.targetLayer)] else [])
      ensures uiEvents == old(uiEvents) + (if uiVisible && !old(uiVisible) then [UIShown, UIWidgetCreated] else [])
      ensures core.cachedWidget == if config.autoShowUI && !old(uiVisible) && !old(ModeWidgetLoads(core.currentMode))
                                   then old(core.cachedWidget) || core.widgetClassLoads
                                   else old(core.cachedWidget)
      ensures core.currentMode == old(core.currentMode)
    {
      core.ActivateTool();
      if config.autoShowUI {
        ShowToolUI();
      }
    }

    /** Hides the UI, then the base deactivation. */
    method DeactivateTool()
      requires Valid()
      modifies this, core
      ensures Valid()
      ensures !uiVisible && !core.isActive
      ensures uiRequests == old(uiRequests) + (if old(uiVisible) then [PopUI(config.targetLayer)] else [])
      ensures uiEvents == old(uiEvents) + (if old(uiVisible) then [UIHidden] else [])
      ensures core.events == old(core.events) + (if old(core.isActive) then [Deactivated, StateChanged(false)] else [])
      ensures core.isInitialized == old(core.isInitialized) && core.currentMode == old(core.currentMode)
      ensures core.cachedWidget == old(core.cachedWidget)
    {
      if uiVisible {
        HideToolUI();
      }
      core.DeactivateTool();
    }

    /**
     * Follows a mode change: hides the UI first when so configured, records
     * the mode, deactivates (through the override, which hides the UI) when
     * the mode is unsupported, and for a tool still active refreshes the UI
     * and shows it again when auto-show is on.
     */
    method OnModeChanged(newMode: AppMode)
      requires Valid()
      modifies this, core
      ensures Valid()
      ensures core.currentMode == newMode
      ensures core.isActive == (old(core.isActive) && core.CanActivateInMode(newMode))
      ensures core.isInitialized == old(core.isInitialized)
      ensures core.events == old(core.events) + [ModeChangedTo(newMode)] +
                             (if old(core.isActive) && !core.isActive then [Deactivated, StateChanged(false)] else [])
      ensures var hidden := config.hideOnModeChange && old(uiVisible);
              var dropped := old(core.isActive) && !core.isActive;
              var kept := old(uiVisible) && !hidden && !dropped;
              var widget := ModeWidgetLoads(newMode) || old(core.cachedWidget) || core.widgetClassLoads;
              var refreshed := core.isActive && kept && newMode in config.modeWidgets;
              var afterRefresh := if refreshed then widget else kept;
              var shown := core.isActive && config.autoShowUI && !afterRefresh && widget && uiManagerPresent;
              var push := [PushUI(UIName(), config.targetLayer)];
              var pop := [PopUI(config.targetLayer)];
              uiVisible == (afterRefresh || shown) &&
              uiRequests == old(uiRequests) + (if hidden then pop else []) +
                            (if dropped && old(uiVisible) && !hidden then pop else []) +
                            (if refreshed then pop + (if widget then push else []) else []) +
                            (if shown then push else []) &&
              uiEvents == old(uiEvents) + (if hidden then [UIHidden] else []) +
                          (if dropped && old(uiVisible) && !hidden then [UIHidden] else []) +
                          (if refreshed then [UIHidden] + (if widget then [UIShown, UIWidgetCreated] else []) else []) +
                          (if shown then [UIShown, UIWidgetCreated] else []) &&
              core.cachedWidget == if (refreshed || (core.isActive && config.autoShowUI && !afterRefresh)) &&
                                      !ModeWidgetLoads(newMode)
                                   then old(core.cachedWidget) || core.widgetClassLoads
                                   else old(core.cachedWidget)
    {
      ghost var requests0, events0 := uiRequests, uiEvents;
      if config.hideOnModeChange && uiVisible {
        HideToolUI();
      }
      ghost var hidden := config.hideOnModeChange && old(uiVisible);
      assert uiRequests == requests0 + (if hidden then [PopUI(config.targetLayer)] else []);
      assert uiEvents == events0 + (if hidden then [UIHidden] else []);
      core.RecordModeChange(newMode);
      ghost var requests1, events1, visible1 := uiRequests, uiEvents, uiVisible;
      if core.isActive && !core.CanActivateInMode(newMode) {
        DeactivateTool();
      }
      ghost var requests2, events2, visible2 := uiRequests, uiEvents, uiVisible;
      assert requests2 == requests1 + (if old(core.isActive) && !core.isActive && visible1 then [PopUI(config.targetLayer)] else []);
      assert events2 == events1 + (if old(core.isActive) && !core.isActive && visible1 then [UIHidden] else []);
      FollowModeInUI(newMode);
    }

    /**
     * The last step of OnModeChanged: a tool still active refreshes its
     * UI for the mode, then shows it again when auto-show is on and the
     * mode is supported.
     */
    method FollowModeInUI(newMode: AppMode)
      requires Valid() && core.currentMode == newMode
      modifies this, core
      ensures Valid()
      ensures core.isActive == old(core.isActive) && core.isInitialized == old(core.isInitialized)
      ensures core.currentMode == newMode && core.events == old(core.events)
      ensures var refreshed := core.isActive && old(uiVisible) && newMode in config.modeWidgets;
              var widget := old(WidgetAvailable());
              var afterRefresh := if refreshed then widget else old(uiVisible);
              var reshow := core.isActive && config.autoShowUI && core.CanActivateInMode(newMode);
              var shown := reshow && !afterRefresh && widget && uiManagerPresent;
              uiVisible == (afterRefresh || shown) &&
              uiRequests == old(uiRequests) +
                            (if refreshed then [PopUI(config.targetLayer)] +
                                               (if widget then [PushUI(UIName(), config.targetLayer)] else [])
                             else []) +
                            (if shown then [PushUI(UIName(), config.targetLayer)] else []) &&
              uiEvents == old(uiEvents) +
                          (if refreshed then [UIHidden] + (if widget then [UIShown, UIWidgetCreated] else []) else []) +
                          (if shown then [UIShown, UIWidgetCreated] else []) &&
              core.cachedWidget == if (refreshed || (reshow && !afterRefresh)) && !ModeWidgetLoads(newMode)
                                   then old(core.cachedWidget) || core.widgetClassLoads
                                   else old(core.cachedWidget)
    {
      if core.isActive {
        ghost var visible0, widget := uiVisible, WidgetAvailable();
        ghost var requests0, events0 := uiRequests, uiEvents;
        UpdateUIForMode(newMode);
        ghost var refreshed := visible0 && newMode in config.modeWidgets;
        assert uiVisible == if refreshed then widget else visible0;
        assert uiRequests == requests0 +
                             (if refreshed then [PopUI(config.targetLayer)] +
                                                (if widget then [PushUI(UIName(), config.targetLayer)] else [])
                              else []);
        assert uiEvents == events0 +
                           (if refreshed then [UIHidden] + (if widget then [UIShown, UIWidgetCreated] else []) else []);
        assert WidgetAvailable() == widget;
        if config.autoShowUI && core.CanActivateInMode(newMode) {
          ShowToolUI();
        }
        assert Valid();
      }
    }

    /** The base shutdown, whose deactivation step is the override here. */
    method ShutdownTool()
      requires Valid()
      modifies this, core
      ensures Valid()
      ensures uiRequests == old(uiRequests) + (if old(core.isActive) && old(uiVisible) then [PopUI(config.targetLayer)] else [])
      ensures uiEvents == old(uiEvents) + (if old(core.isActive) && old(uiVisible) then [UIHidden] else [])
      ensures core.events == old(core.events) + (if old(core.isActive) then [Deactivated, StateChanged(false)] else []) +
                             (if old(core.isInitialized) then [ShutDown] else [])
      ensures core.cachedWidget == (old(core.cachedWidget) && !old(core.isInitialized))
      ensures !core.isActive && !core.isInitialized
      ensures core.currentMode == old(core.currentMode)
      ensures old(core.isActive) ==> !uiVisible
      ensures !old(core.isActive) ==> uiVisible == old(uiVisible)
    {
      if core.isActive {
        DeactivateTool();
      }
      core.FinishShutdown();
    }
  }

  /**
   * A UI tool with the template defaults, supported only in the editor,
   * a widget class that loads and a UI manager present: activation shows
   * its UI, and a move to Runtime deactivates it and takes the UI down,
   * leaving no layer pushed.
   */
  method ShowThenLeaveMode() returns (shownOnActivate: bool, activeInRuntime: bool, shownInRuntime: bool)
    ensures shownOnActivate && !activeInRuntime && !shownInRuntime
  {
    var tool := new UITool(UIToolDefaults([Editor]), true, DefaultUIConfig(), true);
    tool.ActivateTool();
    shownOnActivate := tool.IsUIVisible();
    tool.OnModeChanged(Runtime);
    activeInRuntime := tool.core.isActive;
    shownInRuntime := tool.IsUIVisible();
    assert Pushed(tool.uiRequests) == 0;
  }
}
