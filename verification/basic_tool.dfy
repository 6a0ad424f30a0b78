/**
 * The basic tool template: the lifecycle every template tool shares
 * (initialise, activate, deactivate, shut down, follow the mode), with
 * guards that make each step safe to repeat. The Blueprint events and the
 * state-changed broadcast it fires are recorded in the ghost `events` log.
 */
module BasicToolTemplate {
  import opened TwinTypes

  datatype ToolEvent =
    | Initialized
    | StateChanged(active: bool)
    | Activated
    | Deactivated
    | ShutDown
    | ModeChangedTo(mode: AppMode)
    | ProgressReported(progress: real, message: string)

  /** The metadata the template's constructor sets, with the modes a concrete tool configures. */
  function BasicToolDefaults(supportedModes: seq<AppMode>): (m: ToolMetadata)
    ensures m.toolName == "Basic Tool" && m.version == "1.0.0" && m.author == "Twin Framework"
    ensures m.category == Custom && m.scope == Global && m.priority == 100 && !m.requiresScene
    ensures m.supportedModes == supportedModes && m.dependencies == []
  {
    ToolMetadata("Basic Tool", "A basic tool template", "1.0.0", "Twin Framework",
                 Custom, Global, supportedModes, 100, false, [])
  }

  class BasicTool {
    var isActive: bool
    var isInitialized: bool
    var currentMode: AppMode
    /** Whether a widget has been created and cached. */
    var cachedWidget: bool
    const metadata: ToolMetadata
    /** Whether the configured widget class is set, loads and yields a widget. */
    const widgetClassLoads: bool
    ghost var events: seq<ToolEvent>

    /** A tool is only ever active once initialised. */
    ghost predicate Valid()
      reads this
    {
      isActive ==> isInitialized
    }

    constructor(metadata: ToolMetadata, widgetClassLoads: bool)
      ensures Valid()
      ensures !isActive && !isInitialized && currentMode == MainMenu && !cachedWidget
      ensures this.metadata == metadata && this.widgetClassLoads == widgetClassLoads
      ensures events == []
    {
      isActive := false;
      isInitialized := false;
      currentMode := MainMenu;
      cachedWidget := false;
      this.metadata := metadata;
      this.widgetClassLoads := widgetClassLoads;
      events := [];
    }

    /** CanActivateInMode: the template's mode policy applied to its own metadata. */
    function CanActivateInMode(mode: AppMode): (r: bool)
      ensures metadata.supportedModes == [] ==> r
      ensures metadata.supportedModes != [] ==> (r <==> mode in metadata.supportedModes)
    {
      SupportsMode(metadata.supportedModes, mode)
    }

    /** Initialises once; a repeated call reports success and fires nothing. */
    method InitializeTool() returns (ok: bool)
      requires Valid()
      modifies this
      ensures Valid()
      ensures ok && isInitialized
      ensures events == old(events) + (if old(isInitialized) then [] else [Initialized])
      ensures isActive == old(isActive) && currentMode == old(currentMode) && cachedWidget == old(cachedWidget)
    {
      if isInitialized {
        return true;
      }
      isInitialized := true;
      events := events + [Initialized];
      return true;
    }

    /**
     * Initialises if needed (which always succeeds), then activates; a
     * second activation changes nothing and fires nothing.
     */
    method ActivateTool()
      requires Valid()
      modifies this
      ensures Valid()
      ensures isInitialized && isActive
      ensures events == old(events) + (if old(isInitialized) then [] else [Initialized]) +
                        (if old(isActive) then [] else [StateChanged(true), Activated])
      ensures currentMode == old(currentMode) && cachedWidget == old(cachedWidget)
    {
      if !isInitialized {
        var _ := InitializeTool();
      }
      if isActive {
        return;
      }
      isActive := true;
      events := events + [StateChanged(true)];
      events := events + [Activated];
    }

    /** Deactivates an active tool; otherwise does nothing. */
    method DeactivateTool()
      requires Valid()
      modifies this
      ensures Valid()
      ensures !isActive
      ensures events == old(events) + (if old(isActive) then [Deactivated, StateChanged(false)] else [])
      ensures isInitialized == old(isInitialized) && currentMode == old(currentMode) && cachedWidget == old(cachedWidget)
    {
      if !isActive {
        return;
      }
      isActive := false;
      events := events + [Deactivated];
      events := events + [StateChanged(false)];
    }

    /** The part of ShutdownTool after deactivation: releases the widget and leaves the initialised state. */
    method FinishShutdown()
      requires Valid() && !isActive
      modifies this
      ensures Valid()
      ensures !isActive && !isInitialized
      ensures cachedWidget == (old(cachedWidget) && !old(isInitialized))
      ensures events == old(events) + (if old(isInitialized) then [ShutDown] else [])
      ensures currentMode == old(currentMode)
    {
      if !isInitialized {
        return;
      }
      cachedWidget := false;
      isInitialized := false;
      events := events + [ShutDown];
    }

    /** Deactivates if active, then shuts down if initialised; ends neither active nor initialised. */
    method ShutdownTool()
      requires Valid()
      modifies this
      ensures Valid()
      ensures !isActive && !isInitialized
      ensures events == old(events) + (if old(isActive) then [Deactivated, StateChanged(false)] else []) +
                        (if old(isInitialized) then [ShutDown] else [])
      ensures currentMode == old(currentMode)
    {
      if isActive {
        DeactivateTool();
      }
      FinishShutdown();
    }

    /** Returns the cached widget, creating it when the widget class yields one. */
    method CreateToolWidget() returns (widget: bool)
      modifies this
      ensures cachedWidget == (old(cachedWidget) || widgetClassLoads)
      ensures widget == cachedWidget
      ensures isActive == old(isActive) && isInitialized == old(isInitialized)
      ensures currentMode == old(currentMode) && events == old(events)
    {
      if cachedWidget {
        return true;
      }
      if widgetClassLoads {
        cachedWidget := true;
      }
      return cachedWidget;
    }

    /** The first half of OnModeChanged: records the mode and fires the mode event. */
    method RecordModeChange(newMode: AppMode)
      requires Valid()
      modifies this
      ensures Valid()
      ensures currentMode == newMode
      ensures events == old(events) + [ModeChangedTo(newMode)]
      ensures isActive == old(isActive) && isInitialized == old(isInitialized) && cachedWidget == old(cachedWidget)
    {
      currentMode := newMode;
      events := events + [ModeChangedTo(newMode)];
    }

    /**
     * Follows a mode change: records the mode, then deactivates exactly when
     * the tool is active and its modes do not include the new one.
     */
    method OnModeChanged(newMode: AppMode)
      requires Valid()
      modifies this
      ensures Valid()
      ensures currentMode == newMode
      ensures isActive == (old(isActive) && CanActivateInMode(newMode))
      ensures events == old(events) + [ModeChangedTo(newMode)] +
                        (if old(isActive) && !CanActivateInMode(newMode) then [Deactivated, StateChanged(false)] else [])
      ensures isInitialized == old(isInitialized) && cachedWidget == old(cachedWidget)
    {
      RecordModeChange(newMode);
      if isActive && !CanActivateInMode(newMode) {
        DeactivateTool();
      }
    }

    /** Announces progress to the tool's listeners; changes nothing else. */
    method BroadcastProgress(progress: real, message: string)
      modifies this
      ensures events == old(events) + [ProgressReported(progress, message)]
      ensures isActive == old(isActive) && isInitialized == old(isInitialized)
      ensures currentMode == old(currentMode) && cachedWidget == old(cachedWidget)
    {
      events := events + [ProgressReported(progress, message)];
    }
  }

  /**
   * One lifecycle of a tool with the template defaults that supports only
   * the editor: activating initialises it, a second activation is
   * harmless, moving to Runtime deactivates it while it stays initialised,
   * and shutting down leaves it uninitialised. The tool's event log is
   * returned in full.
   */
  method EditorOnlyLifecycle()
    returns (activeAfterActivate: bool, activeInRuntime: bool, initializedInRuntime: bool,
             initializedAfterShutdown: bool, ghost log: seq<ToolEvent>)
    ensures activeAfterActivate && !activeInRuntime && initializedInRuntime && !initializedAfterShutdown
    ensures log == [Initialized, StateChanged(true), Activated, ModeChangedTo(Runtime),
                    Deactivated, StateChanged(false), ShutDown]
  {
    var tool := new BasicTool(BasicToolDefaults([Editor]), false);
    tool.ActivateTool();
    tool.ActivateTool();
    activeAfterActivate := tool.isActive;
    tool.OnModeChanged(Runtime);
    activeInRuntime := tool.isActive;
    initializedInRuntime := tool.isInitialized;
    tool.ShutdownTool();
    initializedAfterShutdown := tool.isInitialized;
    log := tool.events;
  }
}
