# TwinPlusV2 mode and tool lifecycle runtime, in Dafny

This project is a Dafny model of the runtime that moves a TwinPlusV2
application between modes and manages its tools. It covers these parts:

- **Mode manager.** A state machine over the application modes (None,
  MainMenu, InGame, Editor, Runtime). It has a transition table, falls back
  to an empty registry when the asset is missing, and announces each
  committed change.
- **Game mode.** Maps the application state to a mode. A guard stops a
  nested state change from requesting a second mode.
- **Scene manager.** Loads and unloads scenes by name and switches scenes
  through a queue. The unload event is delivered synchronously.
- **Tool registry.** An ordered array of tool records, with upsert by id,
  removal by id and order-preserving filters.
- **Plugin manager.** Keeps a cache of tool instances and a map of active
  ones. It creates, activates and deactivates tools, and cascades mode
  changes: it notifies every active tool first, then deactivates the ones
  that cannot stay.
- **Tool templates.** The basic template (initialised and active flags), the
  UI template (adds a visible UI) and the data processor (batches driven by
  a ticking timer, with pause, resume and cancel).
- **Creation wizard.** Validates settings and normalises class names and
  tool ids. A creation reports progress through fixed stages and ends in one
  completion.
- **Plugin validator.** Builds issue lists and counts errors and warnings.

How the model is written:

- Each source file is one module. A component whose fields the engine
  updates in place is a `class` with those fields and `modifies` clauses.
  Pure lookups, filters and string functions are functions, with lemmas about
  them.
- Calls into code the model cannot see are not interpreted:
  - The tool interface hooks, delegate broadcasts, level streaming and UI
    manager requests are appended, in order, to ghost logs (`hooks`,
    `events`, `broadcasts`, `uiRequests`).
  - Answers that come from outside are parameters:
    - the loaded registry assets;
    - whether a class implements the tool interface;
    - the data processor's total batch count;
    - whether a widget class loads;
    - whether a UI manager, a world or a mode manager exists;
    - the tools' CanActivateInMode answers.
- Strings compared as FString or FName are compared case-insensitively in
  ASCII (`Fold`, `SameName`). The plugin manager's maps are keyed by the
  folded id. An entry of the active map also keeps the id it was last added
  under, because adding to an engine map replaces the stored key along with
  the value.
- `ModeManagerSubsystem.SetMode` returns whether it committed the change;
  the engine's version returns nothing. A caller whose listener reacts only
  to a broadcast uses this result.
- `UTwinGameMode.ApplyAppState` takes `reentry`: the state that a listener
  of the mode-changed event applies during the mode request, if any.

Behaviour of the code worth noting:

- `ActivateTool` of the plugin manager has no already-active check, and its
  mode check is commented out. A repeated activation calls the activation
  hook again. Only the basic template's own activation is idempotent.
- `IsValidClassName` uses `StartsWith("U")`, which ignores case, so a class
  name starting with `u` is accepted.
- A data processor reports completion on the tick after the last batch.
- `CreateTool` caches an instance even when its class is not conformant.
  `LoadRegisteredTools` never calls the initialisation hook.

## Model

| member | source | states |
|---|---|---|
| AppModeRegistry.FindMode | Source/TwinPlusV2/Public/DataAssets/AppModeRegistry.h:16-26 | Finds an entry exactly when some entry has the mode. A found entry has that mode and comes from the list. |
| AppModeRegistry.FindModeIsFirstMatch | Source/TwinPlusV2/Public/DataAssets/AppModeRegistry.h:18-23 | When several entries have the mode, the first of them is returned. |
| ModeManager.CanTransition | Source/TwinPlusV2/Private/Subsystems/ModeManagerSubsystem.cpp:28-33 | Never allows the current mode. From a mode with a table row it allows exactly the listed targets. From a mode without a row it allows any other mode. |
| ModeManager.SetModeAccepted | Source/TwinPlusV2/Private/Subsystems/ModeManagerSubsystem.cpp:35-43 | A change is accepted exactly when the transition is allowed and the registry has an entry for the target. An accepted target always differs from the current mode. |
| ModeManager.EmptyRegistryFreezesMode | Source/TwinPlusV2/Private/Subsystems/ModeManagerSubsystem.cpp:14-19 | With the empty fallback registry, no sequence of mode requests ever changes the mode. |
| ModeManager.ModeAfterIsStartOrTarget | Source/TwinPlusV2/Private/Subsystems/ModeManagerSubsystem.cpp:35-43 | After any sequence of requests, the mode is the starting mode or one of the requested targets. |
| ModeManager.ModeManagerSubsystem.constructor | Source/TwinPlusV2/Public/Subsystems/ModeManagerSubsystem.h:31 | A new manager is in mode None, with no registry, an empty table and nothing announced. |
| ModeManager.DefaultTransitions | Source/TwinPlusV2/Private/Subsystems/ModeManagerSubsystem.cpp:22-25 | Every mode but None has a row. No row lists its own mode or None. Every listed move can be undone in one step. Runtime is entered only from InGame and Editor only from MainMenu. |
| ModeManager.ModeManagerSubsystem.Initialize | Source/TwinPlusV2/Private/Subsystems/ModeManagerSubsystem.cpp:4-26 | Adds the four-row default table. Installs the loaded registry, or an empty one when the asset is missing, so the registry is never null afterwards. |
| ModeManager.ModeManagerSubsystem.SetMode | Source/TwinPlusV2/Private/Subsystems/ModeManagerSubsystem.cpp:35-43 | On acceptance, commits the target and announces it once. Otherwise the mode stays and nothing is announced. Registry and table are unchanged either way. |
| ModeManager.ModeManagerSubsystem.GetCurrentModeEntry | Source/TwinPlusV2/Private/Subsystems/ModeManagerSubsystem.cpp:45-48 | Returns none without a registry. A returned entry has the current mode and is in the registry. It returns an entry whenever the registry lists the current mode. |
| ModeManager.DefaultTableWalk | Source/TwinPlusV2/Private/Subsystems/ModeManagerSubsystem.cpp:22-25 | With the default table and a registry listing MainMenu, InGame and Runtime: from MainMenu, Runtime is refused, then InGame and then Runtime are both accepted. |
| ModeManager.DefaultTableSteps | Source/TwinPlusV2/Private/Subsystems/ModeManagerSubsystem.cpp:22-25 | The four single steps of that walk under the default table: None to MainMenu, MainMenu to Runtime refused, MainMenu to InGame, InGame to Runtime. |
| TwinGameMode.ModeForState | Source/TwinPlusV2/Private/Core/TwinGameMode.cpp:39-54 | Explore maps to InGame, Simulation to Runtime and Edit to Editor, each in both directions. None, Loading and Paused map to no mode. |
| TwinGameMode.GameMode.constructor | Source/TwinPlusV2/Public/Core/TwinGameMode.h:28 | A new game mode is in Explore with the guard clear and nothing announced. |
| TwinGameMode.GameMode.ApplyAppState | Source/TwinPlusV2/Private/Core/TwinGameMode.cpp:21-60 | The same state is a no-op. A new state is committed and announced once. The mapped mode is requested only when the guard is clear and there is a mode manager. A listener's nested state change is announced but requests no mode. The guard ends as it began. |
| TwinGameMode.GameMode.BeginPlay | Source/TwinPlusV2/Private/Core/TwinGameMode.cpp:13-19 | On a game mode in Explore, BeginPlay announces nothing and requests no mode. |
| TwinGameMode.FreshBeginPlay | Source/TwinPlusV2/Private/Core/TwinGameMode.cpp:13-19 | A fresh game mode stays in Explore and leaves the mode manager in None. |
| TwinGameMode.GuardedReentry | Source/TwinPlusV2/Private/Core/TwinGameMode.cpp:35-57 | Applying Simulation, with a listener that applies Edit, ends in state Edit and mode Runtime with the guard clear. The nested change issued no second request. |
| SceneManager.FindEntry | Source/TwinPlusV2/Private/Subsystems/SceneManagerSubsystem.cpp:22-28 | Finds an entry exactly when some entry's name matches, ignoring case. A found entry is in the registry and matches. |
| SceneManager.FindEntryIsFirstMatch | Source/TwinPlusV2/Private/Subsystems/SceneManagerSubsystem.cpp:22-28 | The earliest matching entry is the one returned. |
| SceneManager.FindEntrySameName | Source/TwinPlusV2/Private/Subsystems/SceneManagerSubsystem.cpp:22-28 | Two spellings of the same name find the same entry. |
| SceneManager.SceneManagerSubsystem.FindSceneEntry | Source/TwinPlusV2/Private/Subsystems/SceneManagerSubsystem.cpp:22-28 | Fails without a registry; otherwise it is the registry lookup. |
| SceneManager.SceneManagerSubsystem.constructor | Source/TwinPlusV2/Public/Subsystems/SceneManagerSubsystem.h:40-42 | A new manager has no scene, an empty queue and no handler bound. |
| SceneManager.SceneManagerSubsystem.Initialize | Source/TwinPlusV2/Private/Subsystems/SceneManagerSubsystem.cpp:4-20 | Installs the loaded scene registry, or an empty one when the asset is missing. |
| SceneManager.SceneManagerSubsystem.LoadScene | Source/TwinPlusV2/Private/Subsystems/SceneManagerSubsystem.cpp:30-43 | A registered scene is streamed in, becomes current and is announced. An unknown name changes nothing. |
| SceneManager.SceneManagerSubsystem.UnloadScene | Source/TwinPlusV2/Private/Subsystems/SceneManagerSubsystem.cpp:45-57 | A registered scene is streamed out and announced. It stops being current only if it was current. A bound switch handler then loads the next queued scene. An unknown name changes nothing. |
| SceneManager.SceneManagerSubsystem.SwitchScene | Source/TwinPlusV2/Private/Subsystems/SceneManagerSubsystem.cpp:59-69 | The queue is drained and the handler unbound. With no current scene, the requested scene loads at once. Otherwise the current scene is unloaded first. The requested scene ends current when registered; otherwise no scene is current. |
| SceneManager.SceneManagerSubsystem.OnPreviousSceneUnloaded | Source/TwinPlusV2/Private/Subsystems/SceneManagerSubsystem.cpp:71-75 | Unbinds the handler and loads the next queued scene, if any. |
| SceneManager.SceneManagerSubsystem.ProcessNextSceneInQueue | Source/TwinPlusV2/Private/Subsystems/SceneManagerSubsystem.cpp:77-81 | Takes the queue's head in FIFO order and loads it. An empty queue changes nothing. |
| SceneManager.SwitchThrough | Source/TwinPlusV2/Private/Subsystems/SceneManagerSubsystem.cpp:59-81 | Across three switches (to a scene spelled in another case, to a second scene, to an unknown one), each ends with the queue empty. The last leaves no scene. |
| TwinPluginRegistry.FirstIndexOf | Source/TwinPlusV2/Private/TwinPluginFramework/Core/TwinPluginRegistry.cpp:3-13 | The index of the first record with the id, or -1 when none has it. |
| TwinPluginRegistry.LastIndexOf | Source/TwinPlusV2/Private/TwinPluginFramework/Core/TwinPluginRegistry.cpp:57-63 | The index of the last record with the id, or -1 when none has it. |
| TwinPluginRegistry.FindTool | Source/TwinPlusV2/Private/TwinPluginFramework/Core/TwinPluginRegistry.cpp:3-13 | Returns the first record whose id matches. With no match it returns the default record, whose id is empty. |
| TwinPluginRegistry.FindToolUnique | Source/TwinPlusV2/Private/TwinPluginFramework/Core/TwinPluginRegistry.cpp:3-13 | With unique ids, any record with the id is the one found. |
| TwinPluginRegistry.ToolsByCategory | Source/TwinPlusV2/Private/TwinPluginFramework/Core/TwinPluginRegistry.cpp:16-27 | Keeps exactly the records of the category, regardless of whether they are enabled. |
| TwinPluginRegistry.ToolsForMode | Source/TwinPlusV2/Private/TwinPluginFramework/Core/TwinPluginRegistry.cpp:29-40 | Keeps exactly the records that support the mode. An empty mode list supports every mode. |
| TwinPluginRegistry.ToolsByCategoryKeepsOrder | Source/TwinPlusV2/Private/TwinPluginFramework/Core/TwinPluginRegistry.cpp:16-27 | The category filter distributes over concatenation, so it keeps the registry order. |
| TwinPluginRegistry.ToolsForModeKeepsOrder | Source/TwinPlusV2/Private/TwinPluginFramework/Core/TwinPluginRegistry.cpp:29-40 | The mode filter distributes over concatenation, so it keeps the registry order. |
| TwinPluginRegistry.RegisterThenFind | Source/TwinPlusV2/Private/TwinPluginFramework/Core/TwinPluginRegistry.cpp:42-53 | After an upsert the record is found. An existing id keeps the length, with the record overwritten in place. A new id is appended. All other records keep their positions. |
| TwinPluginRegistry.RegisterKeepsIdsUnique | Source/TwinPlusV2/Private/TwinPluginFramework/Core/TwinPluginRegistry.cpp:42-53 | Registering keeps tool ids unique. |
| TwinPluginRegistry.UnregisterRemovesOne | Source/TwinPlusV2/Private/TwinPluginFramework/Core/TwinPluginRegistry.cpp:55-66 | The length drops by one exactly when the id is present, and only existing records remain. |
| TwinPluginRegistry.UnregisterKeepsIdsUnique | Source/TwinPlusV2/Private/TwinPluginFramework/Core/TwinPluginRegistry.cpp:55-66 | Unregistering keeps tool ids unique. |
| TwinPluginRegistry.UnregisterRemovesId | Source/TwinPlusV2/Private/TwinPluginFramework/Core/TwinPluginRegistry.cpp:55-66 | With unique ids, no record with the id remains after unregistering. |
| TwinPluginRegistry.RegisterThenUnregister | Source/TwinPlusV2/Private/TwinPluginFramework/Core/TwinPluginRegistry.cpp:42-66 | With unique ids, registering then unregistering a tool leaves the ids unique, and finding the tool returns the empty record. |
| TwinPluginRegistry.PluginRegistry.constructor | Source/TwinPlusV2/Public/TwinPluginFramework/Core/TwinPluginRegistry.h:35 | A registry holds the records it is given. |
| TwinPluginRegistry.PluginRegistry.RegisterTool | Source/TwinPlusV2/Private/TwinPluginFramework/Core/TwinPluginRegistry.cpp:42-53 | The records become the upsert of the old records with the new one. |
| TwinPluginRegistry.PluginRegistry.UnregisterTool | Source/TwinPlusV2/Private/TwinPluginFramework/Core/TwinPluginRegistry.cpp:55-66 | Returns true exactly when some record has the id. The records become the old ones without the last matching record. |
| TwinTypes.SupportsMode | Source/TwinPlusV2/Private/TwinPluginFramework/Template/BasicToolTemplate.cpp:110-119 | An empty mode list supports every mode; otherwise only the listed ones. |
| TwinPluginManager.AutoLoadClassesMembers | Source/TwinPlusV2/Private/TwinPluginFramework/Core/TwinPluginManager.cpp:36-45 | The ids the manager auto-loads are exactly those of enabled, auto-load records with a class. |
| TwinPluginManager.LastAutoLoad | Source/TwinPlusV2/Private/TwinPluginFramework/Core/TwinPluginManager.cpp:36-45 | Finds the last enabled, auto-load record with a class for the id, or none. No later record qualifies. |
| TwinPluginManager.AutoLoadClassesLast | Source/TwinPlusV2/Private/TwinPluginFramework/Core/TwinPluginManager.cpp:36-45 | The last record wins: the class left for an id is the class of its last auto-load record, because each Add replaces the earlier instance. |
| TwinPluginManager.AvailableToolIds | Source/TwinPlusV2/Private/TwinPluginFramework/Core/TwinPluginManager.cpp:187-203 | Lists exactly the ids of enabled records. |
| TwinPluginManager.AvailableToolIdsKeepsOrder | Source/TwinPlusV2/Private/TwinPluginFramework/Core/TwinPluginManager.cpp:187-203 | The available ids of two record arrays joined are those of the first followed by those of the second, so registry order and repeated ids are kept. |
| TwinPluginManager.AvailableToolIdsSnoc | Source/TwinPlusV2/Private/TwinPluginFramework/Core/TwinPluginManager.cpp:193-199 | Each record, in array order, appends its id exactly when it is enabled. |
| TwinPluginManager.CategoryToolIds | Source/TwinPlusV2/Private/TwinPluginFramework/Core/TwinPluginManager.cpp:212-228 | Lists exactly the ids of enabled records in the category. |
| TwinPluginManager.CategoryToolIdsKeepsOrder | Source/TwinPlusV2/Private/TwinPluginFramework/Core/TwinPluginManager.cpp:212-228 | The category's ids of two record arrays joined are those of the first followed by those of the second. |
| TwinPluginManager.CategoryToolIdsSnoc | Source/TwinPlusV2/Private/TwinPluginFramework/Core/TwinPluginManager.cpp:218-224 | Each record, in array order, appends its id exactly when it is enabled and in the category. |
| TwinPluginManager.ModeToolIds | Source/TwinPlusV2/Private/TwinPluginFramework/Core/TwinPluginManager.cpp:284-305 | Lists exactly the ids of enabled records that support the mode, where an empty list means every mode. |
| TwinPluginManager.ModeToolIdsKeepsOrder | Source/TwinPlusV2/Private/TwinPluginFramework/Core/TwinPluginManager.cpp:284-305 | The mode's ids of two record arrays joined are those of the first followed by those of the second. |
| TwinPluginManager.ModeToolIdsSnoc | Source/TwinPlusV2/Private/TwinPluginFramework/Core/TwinPluginManager.cpp:290-301 | Each record, in array order, appends its id exactly when it is enabled and supports the mode. |
| TwinPluginManager.ModeToolsAreAvailable | Source/TwinPlusV2/Private/TwinPluginFramework/Core/TwinPluginManager.cpp:284-305 | Every tool for the current mode is also an available tool. |
| TwinPluginManager.PluginManager.constructor | Source/TwinPlusV2/Private/TwinPluginFramework/Core/TwinPluginManager.cpp:6-30 | Installs the loaded registry, or an empty one. Subscribes to mode changes only with a mode manager. Caches, for each auto-load id, a new instance of the class of its last auto-load record; the instances are distinct. Nothing is active and no hook has been called. |
| TwinPluginManager.PluginManager.LoadRegisteredTools | Source/TwinPlusV2/Private/TwinPluginFramework/Core/TwinPluginManager.cpp:32-47 | Adds, for each auto-load id, a new instance of the class of its last auto-load record. The new instances are distinct and newer than every earlier one. Every other cached instance is kept. No hook is called, so no tool is initialised. |
| TwinPluginManager.PluginManager.LoadRecord | Source/TwinPlusV2/Private/TwinPluginFramework/Core/TwinPluginManager.cpp:38-44 | One auto-load record caches a new instance under its id. Any other record changes nothing. |
| TwinPluginManager.PluginManager.RegisterTool | Source/TwinPlusV2/Private/TwinPluginFramework/Core/TwinPluginManager.cpp:49-67 | Fails with no change for a missing or non-conformant class. Otherwise upserts an enabled record and announces ToolRegistered once. |
| TwinPluginManager.PluginManager.CreateTool | Source/TwinPlusV2/Private/TwinPluginFramework/Core/TwinPluginManager.cpp:69-102 | Unknown or disabled: none. A cached conformant instance: returned, with no hook called. Otherwise a new instance is cached even when not conformant. It is initialised and returned only when conformant. |
| TwinPluginManager.PluginManager.ActivateTool | Source/TwinPlusV2/Private/TwinPluginFramework/Core/TwinPluginManager.cpp:104-127 | Succeeds exactly when CreateTool yields an instance: the record is usable and a conformant instance is cached or its class is conformant. A cached instance is reused. Otherwise a new instance is cached, even a non-conformant one, and a conformant one is initialised. On success the activation hook runs, the id is stored as active and ToolActivated is announced, even for an already-active tool. A missing, disabled or class-less record changes nothing. |
| TwinPluginManager.PluginManager.MarkActive | Source/TwinPlusV2/Private/TwinPluginFramework/Core/TwinPluginManager.cpp:122-124 | Calls the activation hook, stores the instance under the id as given and announces it. |
| TwinPluginManager.PluginManager.DeactivateTool | Source/TwinPlusV2/Private/TwinPluginFramework/Core/TwinPluginManager.cpp:161-174 | An inactive id changes nothing. Otherwise the hook runs once, the entry leaves the active map and ToolDeactivated is announced with the id as given. The cache never changes. |
| TwinPluginManager.PluginManager.DeactivateEntry | Source/TwinPlusV2/Private/TwinPluginFramework/Core/TwinPluginManager.cpp:181-184 | One loop step: the hook, the removal and the announcement, under the id stored in the entry. |
| TwinPluginManager.PluginManager.DeactivateEach | Source/TwinPlusV2/Private/TwinPluginFramework/Core/TwinPluginManager.cpp:155-158 | Deactivates each id of a snapshot exactly once, in some order. The snapshot leaves the active map and the other entries stay. There is one hook and one event per id in that order, each event carrying the stored id. |
| TwinPluginManager.PluginManager.DeactivateAllTools | Source/TwinPlusV2/Private/TwinPluginFramework/Core/TwinPluginManager.cpp:176-185 | Leaves no tool active. Each previously active tool is deactivated once, with its hook and an event carrying its stored id. |
| TwinPluginManager.PluginManager.NotifyActiveTools | Source/TwinPlusV2/Private/TwinPluginFramework/Core/TwinPluginManager.cpp:133-140 | Every active tool receives the mode-changed hook exactly once, and nothing else changes. |
| TwinPluginManager.PluginManager.OnModeChanged | Source/TwinPlusV2/Private/TwinPluginFramework/Core/TwinPluginManager.cpp:129-159 | Records the mode. All tools active at entry are notified before any deactivation. Exactly the tools whose CanActivateInMode refuses the mode are deactivated, each announced under its stored id. The rest stay active with the same entries. |
| TwinPluginManager.PluginManager.UnloadAllTools | Source/TwinPlusV2/Private/TwinPluginFramework/Core/TwinPluginManager.cpp:318-335 | Deactivates every active tool, with its stored id announced. Then it shuts down each conformant cached instance once. Both maps end empty. |
| TwinPluginManager.PluginManager.Deinitialize | Source/TwinPlusV2/Private/TwinPluginFramework/Core/TwinPluginManager.cpp:337-348 | Unloads all tools as UnloadAllTools does, with the same hooks and events, then stops listening to mode changes. |
| TwinPluginManager.PluginManager.UnregisterTool | Source/TwinPlusV2/Private/TwinPluginFramework/Core/TwinPluginManager.cpp:350-376 | Fails with no change for an unknown id. Otherwise it first removes the last matching record from the registry. Then it deactivates the tool if active, with its hook and event. Then it drops the cached instance and announces ToolUnregistered. |
| TwinPluginManager.PluginManager.ActivateToolCommand | Source/TwinPlusV2/Private/TwinPluginFramework/Core/TwinPluginManager.cpp:378-392 | Returns ActivateTool's result, with the same success condition and the same cache, hook, active-map and event effects. |
| TwinPluginManager.PluginManager.DeactivateToolCommand | Source/TwinPlusV2/Private/TwinPluginFramework/Core/TwinPluginManager.cpp:394-407 | Returns true exactly when the tool was active. Either way the tool ends inactive. The hook, the removal and the event are DeactivateTool's, and the cache is unchanged. |
| TwinPluginManager.PluginManager.IsToolActive | Source/TwinPlusV2/Private/TwinPluginFramework/Core/TwinPluginManager.cpp:268-271 | True exactly when the active map holds the id, ignoring case. An active tool has a conformant cached instance. |
| TwinPluginManager.PluginManager.GetActiveTool | Source/TwinPlusV2/Private/TwinPluginFramework/Core/TwinPluginManager.cpp:230-238 | Returns an instance exactly when the tool is active. That instance is the conformant cached one. |
| TwinPluginManager.PluginManager.GetActiveTools | Source/TwinPlusV2/Private/TwinPluginFramework/Core/TwinPluginManager.cpp:205-210 | Every listed id is active, and every active tool is listed under the spelling it was last added with. |
| TwinPluginManager.PluginManager.GetToolMetadata | Source/TwinPlusV2/Private/TwinPluginFramework/Core/TwinPluginManager.cpp:240-266 | The metadata of the first matching record, or default metadata when no record matches. |
| TwinPluginManager.PluginManager.IsToolAvailable | Source/TwinPlusV2/Private/TwinPluginFramework/Core/TwinPluginManager.cpp:273-282 | True only for a nonempty id whose record is enabled. With unique ids, true for every such id. |
| TwinPluginManager.PluginManager.ListAvailableTools | Source/TwinPlusV2/Private/TwinPluginFramework/Core/TwinPluginManager.cpp:409-425 | Line i is the i-th available id, in registry order. It is flagged active exactly when GetActiveTools lists the id, ignoring case. |
| TwinPluginManager.ModeChangeDeactivates | Source/TwinPlusV2/Private/TwinPluginFramework/Core/TwinPluginManager.cpp:104-159 | An InGame-only tool activates, and a change to Editor deactivates it. |
| TwinPluginManager.ActivateInGameTool | Source/TwinPlusV2/Private/TwinPluginFramework/Core/TwinPluginManager.cpp:49-127 | A conformant tool, once registered, activates and becomes the only active tool. |
| TwinPluginManager.RegisterThenUnregisterTool | Source/TwinPlusV2/Private/TwinPluginFramework/Core/TwinPluginManager.cpp:49-67 | Register then unregister both succeed. Afterwards the tool is not found, not active and not cached. |
| BasicToolTemplate.BasicToolDefaults | Source/TwinPlusV2/Private/TwinPluginFramework/Template/BasicToolTemplate.cpp:9-20 | The template's metadata: "Basic Tool", version 1.0.0 by Twin Framework, category Custom, global scope, priority 100, no scene required, no dependencies, and the modes the tool configures. |
| BasicToolTemplate.BasicTool.constructor | Source/TwinPlusV2/Private/TwinPluginFramework/Template/BasicToolTemplate.cpp:9-20 | A new tool is neither initialised nor active, in mode MainMenu, with no widget. |
| BasicToolTemplate.BasicTool.InitializeTool | Source/TwinPlusV2/Private/TwinPluginFramework/Template/BasicToolTemplate.cpp:22-35 | Always returns true and leaves the tool initialised. It announces initialisation only the first time. |
| BasicToolTemplate.BasicTool.ActivateTool | Source/TwinPlusV2/Private/TwinPluginFramework/Template/BasicToolTemplate.cpp:37-59 | Initialises first when needed and ends active. An already-active tool changes nothing and emits no event. |
| BasicToolTemplate.BasicTool.DeactivateTool | Source/TwinPlusV2/Private/TwinPluginFramework/Template/BasicToolTemplate.cpp:61-73 | An inactive tool is a no-op. Otherwise the tool ends inactive and emits StateChanged(false) once. |
| BasicToolTemplate.BasicTool.FinishShutdown | Source/TwinPlusV2/Private/TwinPluginFramework/Template/BasicToolTemplate.cpp:82-97 | An initialised tool is shut down, its widget dropped and its initialisation cleared. |
| BasicToolTemplate.BasicTool.ShutdownTool | Source/TwinPlusV2/Private/TwinPluginFramework/Template/BasicToolTemplate.cpp:75-98 | Deactivates first when active, and ends neither active nor initialised. |
| BasicToolTemplate.BasicTool.CreateToolWidget | Source/TwinPlusV2/Private/TwinPluginFramework/Template/BasicToolTemplate.cpp:121-141 | Creates and caches a widget once, when the widget class loads, and returns whether one is cached. |
| BasicToolTemplate.BasicTool.RecordModeChange | Source/TwinPlusV2/Private/TwinPluginFramework/Template/BasicToolTemplate.cpp:145-146 | Records the new mode and announces it. |
| BasicToolTemplate.BasicTool.CanActivateInMode | Source/TwinPlusV2/Private/TwinPluginFramework/Template/BasicToolTemplate.cpp:110-119 | True for every mode when the tool lists no modes, otherwise exactly for the listed modes. |
| BasicToolTemplate.BasicTool.OnModeChanged | Source/TwinPlusV2/Private/TwinPluginFramework/Template/BasicToolTemplate.cpp:143-155 | Records the mode. Deactivates exactly when the tool is active and the mode is unsupported. |
| BasicToolTemplate.BasicTool.BroadcastProgress | Source/TwinPlusV2/Private/TwinPluginFramework/Template/BasicToolTemplate.cpp:157-160 | Announces the progress and message. |
| BasicToolTemplate.EditorOnlyLifecycle | Source/TwinPlusV2/Private/TwinPluginFramework/Template/BasicToolTemplate.cpp:37-155 | An Editor-only tool activates, is deactivated by a change to Runtime while still initialised, and shuts down. The event log is exact. |
| UIToolTemplate.PushedAppend | Source/TwinPlusV2/Private/TwinPluginFramework/Template/UIToolTemplate.cpp:79-122 | Each push adds one outstanding layer and each pop removes one. |
| UIToolTemplate.DefaultUIConfig | Source/TwinPlusV2/Private/TwinPluginFramework/Template/UIToolTemplate.cpp:9-12 | The menu layer, auto-show on, hide-on-mode-change on, no mode-specific widgets. |
| UIToolTemplate.UIToolDefaults | Source/TwinPlusV2/Private/TwinPluginFramework/Template/UIToolTemplate.cpp:14-17 | The basic metadata with the name "UI Tool", its description and category UI, every other field unchanged. |
| UIToolTemplate.UITool.constructor | Source/TwinPlusV2/Private/TwinPluginFramework/Template/UIToolTemplate.cpp:7-18 | A new UI tool is hidden, with the given layer and flags and no UI requests. |
| UIToolTemplate.UITool.IsUIVisible | Source/TwinPlusV2/Private/TwinPluginFramework/Template/UIToolTemplate.cpp:133-136 | Visible exactly while the tool has one UI layer pushed, which needs the UI manager. |
| UIToolTemplate.UITool.CreateToolWidget | Source/TwinPlusV2/Private/TwinPluginFramework/Template/UIToolTemplate.cpp:40-57 | Uses the current mode's widget class when it loads, otherwise the base widget. Returns whether a widget is available. |
| UIToolTemplate.UITool.ShowToolUI | Source/TwinPlusV2/Private/TwinPluginFramework/Template/UIToolTemplate.cpp:79-105 | A visible UI is left alone. Otherwise the UI becomes visible only with a widget and a UI manager, pushing exactly one UI onto the target layer. |
| UIToolTemplate.UITool.HideToolUI | Source/TwinPlusV2/Private/TwinPluginFramework/Template/UIToolTemplate.cpp:107-122 | A hidden UI is left alone. Otherwise the target layer is popped and the UI hidden. |
| UIToolTemplate.UITool.RefreshUI | Source/TwinPlusV2/Private/TwinPluginFramework/Template/UIToolTemplate.cpp:124-131 | A hidden UI is left alone. A visible one is popped and pushed again, and stays visible only if a widget is still available. Its UI events and the cached widget follow the same steps. |
| UIToolTemplate.UITool.UpdateUIForMode | Source/TwinPlusV2/Private/TwinPluginFramework/Template/UIToolTemplate.cpp:138-145 | Refreshes only a visible UI of a mode with its own widget, with the refresh's requests, events and cached widget. Otherwise nothing changes. |
| UIToolTemplate.UITool.ActivateTool | Source/TwinPlusV2/Private/TwinPluginFramework/Template/UIToolTemplate.cpp:20-28 | Runs the base activation with its events. It then shows the UI when auto-show is set: a hidden UI with an available widget and a UI manager becomes visible, with one push of the tool's name on the target layer, the shown and widget-created events, and the base widget cached when no mode widget loads. |
| UIToolTemplate.UITool.DeactivateTool | Source/TwinPlusV2/Private/TwinPluginFramework/Template/UIToolTemplate.cpp:30-38 | Hides a visible UI, with one pop and one UIHidden event, before the base deactivation. |
| UIToolTemplate.UITool.OnModeChanged | Source/TwinPlusV2/Private/TwinPluginFramework/Template/UIToolTemplate.cpp:59-77 | Gives the final visibility and the exact request, UI event and tool event logs. The configured hide comes first. Then the base records the mode and deactivates through the override when the mode is unsupported. Then a tool still active refreshes a visible UI for a mode with its own widget and, with auto-show, shows a hidden UI again. |
| UIToolTemplate.UITool.FollowModeInUI | Source/TwinPlusV2/Private/TwinPluginFramework/Template/UIToolTemplate.cpp:68-76 | The step taken for a tool still active: the refresh for the mode, then the auto-show, with visibility, requests, events and cached widget given outright. |
| UIToolTemplate.UITool.ShutdownTool | Source/TwinPlusV2/Private/TwinPluginFramework/Template/BasicToolTemplate.cpp:75-98 | A base shutdown that deactivates through the override. An active tool with a visible UI gets one pop and one hidden event. The tool logs deactivation and state change when it was active, then shutdown when it was initialised. The cached widget is released only when the tool was initialised; a widget cached on an uninitialised tool is kept. It ends neither active nor initialised. |
| UIToolTemplate.ShowThenLeaveMode | Source/TwinPlusV2/Private/TwinPluginFramework/Template/UIToolTemplate.cpp:20-77 | With the default configuration, activation shows the UI, and a change to an unsupported mode deactivates the tool and hides it. |
| DataProcessorTemplate.Clamp | Source/TwinPlusV2/Private/TwinPluginFramework/Template/DataProcessorTemplate.cpp:93-100 | Progress is clamped into [0, 1] and left unchanged inside it. |
| DataProcessorTemplate.DataProcessorDefaults | Source/TwinPlusV2/Private/TwinPluginFramework/Template/DataProcessorTemplate.cpp:13-16 | The basic metadata with the name "Data Processor", its description and category Analysis, every other field unchanged. |
| DataProcessorTemplate.DataProcessor.constructor | Source/TwinPlusV2/Private/TwinPluginFramework/Template/DataProcessorTemplate.cpp:6-17 | A new processor is idle and unpaused, at batch 0 with progress 0 and no timer. |
| DataProcessorTemplate.DataProcessor.IsProcessing | Source/TwinPlusV2/Public/TwinPluginFramework/Template/DataProcessorTemplate.h:48 | A run in progress has its batch counter within a positive total. An idle processor is unpaused, with no timer. |
| DataProcessorTemplate.DataProcessor.IsPaused | Source/TwinPlusV2/Public/TwinPluginFramework/Template/DataProcessorTemplate.h:51 | Only a run in progress is paused. With a world, a running run is paused exactly when its timer is suspended. |
| DataProcessorTemplate.DataProcessor.GetProgress | Source/TwinPlusV2/Public/TwinPluginFramework/Template/DataProcessorTemplate.h:54 | The progress always lies in [0, 1]. |
| DataProcessorTemplate.DataProcessor.UpdateProgress | Source/TwinPlusV2/Private/TwinPluginFramework/Template/DataProcessorTemplate.cpp:93-100 | Stores the clamped progress and status, and announces them on both delegates. |
| DataProcessorTemplate.DataProcessor.InternalCompleteProcessing | Source/TwinPlusV2/Private/TwinPluginFramework/Template/DataProcessorTemplate.cpp:170-198 | When not processing, it is a no-op, so completion fires at most once per run. Otherwise it stops the timer and the run, reaches progress 1 on success, and announces the completion once. |
| DataProcessorTemplate.DataProcessor.CompleteProcessing | Source/TwinPlusV2/Private/TwinPluginFramework/Template/DataProcessorTemplate.cpp:102-105 | Carries InternalCompleteProcessing's whole contract. It is a no-op when idle. Otherwise progress is 1 on success and unchanged on failure, the outcome is announced on both delegates ("Completed" or "Failed" on the tool's), and batch, total and status are untouched. |
| DataProcessorTemplate.DataProcessor.InternalStartProcessing | Source/TwinPlusV2/Private/TwinPluginFramework/Template/DataProcessorTemplate.cpp:107-143 | Resets batch and progress. A total of at most 0 ends not processing with the status unchanged, one failure "No data to process" and a "Failed" progress report at 0 on the tool. A positive total starts a run, unpaused, with the timer ticking when there is a world, Blueprint initialisation, and "Processing started" at 0 on both delegates. |
| DataProcessorTemplate.DataProcessor.StartProcessing | Source/TwinPlusV2/Private/TwinPluginFramework/Template/DataProcessorTemplate.cpp:19-34 | A no-op, on every field and both logs, while processing or while the tool is inactive. Otherwise it does what InternalStartProcessing does: batch and progress reset and the total taken, then either the failure with its "Failed" report and the status unchanged, or an unpaused run with the timer ticking when there is a world and "Processing started" announced on both delegates. |
| DataProcessorTemplate.DataProcessor.ProcessNextBatch | Source/TwinPlusV2/Private/TwinPluginFramework/Template/DataProcessorTemplate.cpp:145-168 | A no-op when idle or paused, status and both logs included. With batches left, it processes the current batch and advances by one, sets the status "Processing batch i/n" and reports the fraction done on both delegates. With none left, it completes successfully with progress 1, the status unchanged and "Completed" reported on the tool. |
| DataProcessorTemplate.DataProcessor.ProcessBatch | Source/TwinPlusV2/Private/TwinPluginFramework/Template/DataProcessorTemplate.cpp:159-167 | Processes the current batch and advances by one. The status becomes "Processing batch i/n", and the fraction done is reported with it on both delegates. |
| DataProcessorTemplate.DataProcessor.CancelProcessing | Source/TwinPlusV2/Private/TwinPluginFramework/Template/DataProcessorTemplate.cpp:36-57 | While processing, it resets run, pause, progress and batch and announces one failure. Otherwise it is a no-op. |
| DataProcessorTemplate.DataProcessor.PauseProcessing | Source/TwinPlusV2/Private/TwinPluginFramework/Template/DataProcessorTemplate.cpp:59-74 | Pauses exactly a running run. Batch, progress and status are untouched. |
| DataProcessorTemplate.DataProcessor.ResumeProcessing | Source/TwinPlusV2/Private/TwinPluginFramework/Template/DataProcessorTemplate.cpp:76-91 | Leaves the run unpaused, with batch, progress and status untouched. |
| DataProcessorTemplate.RunToCompletion | Source/TwinPlusV2/Private/TwinPluginFramework/Template/DataProcessorTemplate.cpp:145-168 | With a positive total, it takes total + 1 ticks to finish, ending idle at progress 1. |
| DataProcessorTemplate.PausedTicksHold | Source/TwinPlusV2/Private/TwinPluginFramework/Template/DataProcessorTemplate.cpp:59-91 | Ticks while paused leave progress at 1/4. After resuming, the next tick reaches 2/4. |
| ToolCreationWizard.SettingsStructDefaults | Source/TwinPlusV2/Public/TwinPluginFramework/SDK/ToolCreationWizard.h:24-82 | The struct defaults: MyTool with the valid class name UMyTool, the basic template, category Custom, global scope, no UI on the menu layer, auto-registration, and no supported mode. |
| ToolCreationWizard.GetDefaultSettings | Source/TwinPlusV2/Private/TwinPluginFramework/SDK/ToolCreationWizard.cpp:85-97 | The defaults name the class UMyTool, support InGame and Editor, and pass validation. |
| ToolCreationWizard.StructDefaultsNeedModes | Source/TwinPlusV2/Private/TwinPluginFramework/SDK/ToolCreationWizard.cpp:76-80 | The struct defaults, which list no supported mode, fail with the supported-mode message. |
| ToolCreationWizard.IsValidClassName | Source/TwinPlusV2/Private/TwinPluginFramework/SDK/ToolCreationWizard.cpp:99-117 | True exactly for names that start with U in either case and hold only ASCII letters, digits and underscores. |
| ToolCreationWizard.ValidateSettings | Source/TwinPlusV2/Private/TwinPluginFramework/SDK/ToolCreationWizard.cpp:56-83 | Passes exactly when the tool name is set, the class name is valid and some mode is supported. Otherwise it fails with the first failing check's message. |
| ToolCreationWizard.RemoveChar | Source/TwinPlusV2/Private/TwinPluginFramework/SDK/ToolCreationWizard.cpp:119-134 | Removes exactly the given character and keeps the others. |
| ToolCreationWizard.RemoveCharKeepsOrder | Source/TwinPlusV2/Private/TwinPluginFramework/SDK/ToolCreationWizard.cpp:119-134 | Removal from two strings joined is the removal from the first followed by the removal from the second, so the kept characters keep their order and count. |
| ToolCreationWizard.RemoveCharSnoc | Source/TwinPlusV2/Private/TwinPluginFramework/SDK/ToolCreationWizard.cpp:119-134 | Each character is kept exactly once, in place, unless it is the one removed. |
| ToolCreationWizard.SanitizeClassName | Source/TwinPlusV2/Private/TwinPluginFramework/SDK/ToolCreationWizard.cpp:119-134 | The result starts with U or u. It holds exactly the name's characters other than spaces and dashes, plus the U that was added when the name did not start with U or u. |
| ToolCreationWizard.SanitizeKeepsOrder | Source/TwinPlusV2/Private/TwinPluginFramework/SDK/ToolCreationWizard.cpp:119-134 | Past a non-empty start, the rest of the name is kept in order with only its spaces and dashes removed. |
| ToolCreationWizard.SanitizeIdempotent | Source/TwinPlusV2/Private/TwinPluginFramework/SDK/ToolCreationWizard.cpp:119-134 | Sanitising twice gives the same name as sanitising once. |
| ToolCreationWizard.SanitizeKeepsValidName | Source/TwinPlusV2/Private/TwinPluginFramework/SDK/ToolCreationWizard.cpp:119-134 | A valid class name is unchanged by sanitising. |
| ToolCreationWizard.GenerateToolID | Source/TwinPlusV2/Private/TwinPluginFramework/SDK/ToolCreationWizard.cpp:337-343 | Keeps the length. Each space or dash becomes an underscore, and every other character is lower-cased. |
| ToolCreationWizard.GenerateToolIDIdempotent | Source/TwinPlusV2/Private/TwinPluginFramework/SDK/ToolCreationWizard.cpp:337-343 | Generating an id from an id changes nothing. |
| ToolCreationWizard.GetBaseClassForTemplate | Source/TwinPlusV2/Private/TwinPluginFramework/SDK/ToolCreationWizard.cpp:269-282 | The UI and data processor templates have their own base classes. Every other template uses the basic template, and each name is a valid class name. |
| ToolCreationWizard.CreationCompletesOnce | Source/TwinPlusV2/Private/TwinPluginFramework/SDK/ToolCreationWizard.cpp:7-54 | A creation ends in exactly one completion, as its last event. It reports success exactly when the settings are valid. Invalid settings produce nothing else. |
| ToolCreationWizard.CreationProgressRises | Source/TwinPlusV2/Private/TwinPluginFramework/SDK/ToolCreationWizard.cpp:24-52 | Progress starts at 0.1 and ends at 1.0, rising strictly through every optional stage. |
| ToolCreationWizard.Wizard.constructor | Source/TwinPlusV2/Public/TwinPluginFramework/SDK/ToolCreationWizard.h:146-147 | A new wizard is idle at progress 0. |
| ToolCreationWizard.Wizard.UpdateProgress | Source/TwinPlusV2/Private/TwinPluginFramework/SDK/ToolCreationWizard.cpp:284-288 | Stores and announces the progress. |
| ToolCreationWizard.Wizard.CompleteCreation | Source/TwinPlusV2/Private/TwinPluginFramework/SDK/ToolCreationWizard.cpp:290-295 | Ends the creation, resets progress to 0 and announces the completion. |
| ToolCreationWizard.Wizard.RunStage | Source/TwinPlusV2/Private/TwinPluginFramework/SDK/ToolCreationWizard.cpp:27-46 | A requested stage reports its progress and does its work; otherwise nothing happens. |
| ToolCreationWizard.Wizard.RunStages | Source/TwinPlusV2/Private/TwinPluginFramework/SDK/ToolCreationWizard.cpp:24-52 | Produces the stages of a valid creation, in order. |
| ToolCreationWizard.Wizard.CreateTool | Source/TwinPlusV2/Private/TwinPluginFramework/SDK/ToolCreationWizard.cpp:7-54 | Refused while a creation runs. Otherwise the wizard ends idle at progress 0, having produced exactly the creation log of the settings. |
| ToolCreationWizard.CreateWithDefaultsThenEmptyName | Source/TwinPlusV2/Private/TwinPluginFramework/SDK/ToolCreationWizard.cpp:7-54 | Default settings create a tool, and an empty tool name fails. The wizard ends idle after each. |
| PluginValidator.CountsBounded | Source/TwinPlusV2/Private/TwinPluginFramework/SDK/PluginValidator.cpp:201-223 | Errors and warnings together never exceed the issues. Info-only lists count nothing. |
| PluginValidator.CountsAppend | Source/TwinPlusV2/Private/TwinPluginFramework/SDK/PluginValidator.cpp:183-199 | Error and warning counts add up over appended issue lists. |
| PluginValidator.TallyIssues | Source/TwinPlusV2/Private/TwinPluginFramework/SDK/PluginValidator.cpp:206-216 | The counting loop counts Error and Critical issues as errors and Warning issues as warnings. |
| PluginValidator.CheckInterfaceImplementation | Source/TwinPlusV2/Private/TwinPluginFramework/SDK/PluginValidator.cpp:155-181 | No issue exactly for a present class that implements the interface. Otherwise one Interface error, for a null class or for the missing interface (with its suggestion). |
| PluginValidator.CheckMetadataValidity | Source/TwinPlusV2/Private/TwinPluginFramework/SDK/PluginValidator.cpp:12-26 | One Metadata error exactly when the tool name is empty. |
| PluginValidator.CheckUIIntegration | Source/TwinPlusV2/Private/TwinPluginFramework/SDK/PluginValidator.cpp:28-42 | One UI Integration error exactly when the class is missing. |
| PluginValidator.CheckPerformance | Source/TwinPlusV2/Private/TwinPluginFramework/SDK/PluginValidator.cpp:44-58 | One Performance warning exactly when the class is missing. |
| PluginValidator.CheckDocumentation | Source/TwinPlusV2/Private/TwinPluginFramework/SDK/PluginValidator.cpp:60-71 | Always one Documentation info issue, which counts as neither error nor warning. |
| PluginValidator.ValidateToolSync | Source/TwinPlusV2/Private/TwinPluginFramework/SDK/PluginValidator.cpp:120-153 | Valid exactly for a present conformant class. A null class gives one Class Validation error and a present class the interface check's issues. The counts tally the issues. |
| PluginValidator.AsyncValidationOutcome | Source/TwinPlusV2/Private/TwinPluginFramework/SDK/PluginValidator.cpp:183-199 | The asynchronous verdict matches the synchronous one. A missing class costs two errors and one warning. A present class draws no warning. |
| PluginValidator.ToolReport | Source/TwinPlusV2/Private/TwinPluginFramework/SDK/PluginValidator.cpp:105-111 | The progress report for tool i is i/n, within [0, 1). |
| PluginValidator.ToolReports | Source/TwinPlusV2/Private/TwinPluginFramework/SDK/PluginValidator.cpp:105-112 | One report per tool, in list order. |
| PluginValidator.AsyncBroadcasts | Source/TwinPlusV2/Private/TwinPluginFramework/SDK/PluginValidator.cpp:183-223 | The three check reports, the final report at 1.0, then a result carrying the issues that is valid exactly when none is an error. |
| PluginValidator.TwinPluginValidator.constructor | Source/TwinPlusV2/Public/TwinPluginFramework/SDK/PluginValidator.h:124-126 | A new validator is idle, with no issues and progress 0. |
| PluginValidator.TwinPluginValidator.IsValidationInProgress | Source/TwinPlusV2/Public/TwinPluginFramework/SDK/PluginValidator.h:111 | Reports the validating flag, which ValidateTool raises and completion or cancellation clears. |
| PluginValidator.TwinPluginValidator.UpdateProgress | Source/TwinPlusV2/Private/TwinPluginFramework/SDK/PluginValidator.cpp:225-229 | Stores and announces the progress. |
| PluginValidator.TwinPluginValidator.CompleteValidation | Source/TwinPlusV2/Private/TwinPluginFramework/SDK/PluginValidator.cpp:201-223 | Ends the validation and announces the tally of the current issues. |
| PluginValidator.TwinPluginValidator.PerformAsyncValidation | Source/TwinPlusV2/Private/TwinPluginFramework/SDK/PluginValidator.cpp:183-199 | Appends the interface, UI and performance issues with their reports, then completes at progress 1. |
| PluginValidator.TwinPluginValidator.RunChecks | Source/TwinPlusV2/Private/TwinPluginFramework/SDK/PluginValidator.cpp:185-195 | Appends the three checks' issues in order, with one report before each. |
| PluginValidator.TwinPluginValidator.ValidateTool | Source/TwinPlusV2/Private/TwinPluginFramework/SDK/PluginValidator.cpp:82-96 | Ignored while a validation runs. Otherwise it starts from no issues, ends idle at progress 1, and broadcasts exactly the class's issues in the result. |
| PluginValidator.TwinPluginValidator.CancelValidation | Source/TwinPlusV2/Private/TwinPluginFramework/SDK/PluginValidator.cpp:73-80 | Ends any validation in progress and changes nothing else. |
| PluginValidator.TwinPluginValidator.ValidateAllTools | Source/TwinPlusV2/Private/TwinPluginFramework/SDK/PluginValidator.cpp:98-118 | Without a plugin manager, nothing happens. Otherwise it reports a start, then one report per available tool, then completes with the issues left by the previous validation. |
| PluginValidator.ValidateThreeWays | Source/TwinPlusV2/Private/TwinPluginFramework/SDK/PluginValidator.cpp:82-153 | A conformant class validates. A missing class gives two errors and one warning asynchronously and one error synchronously. The validator ends idle. |

## Left out

- Logging, console output and the engine's object lifetimes are not modelled.
- Asset loading is a parameter. Instance creation is a counter of handles.
- Level streaming, the UI manager and delegates are entries in ghost logs.
- Float progress is modelled as exact reals, so float rounding is not modelled.
- TwinPluginManager.PluginManager.GetActiveTools: returns a set of the stored ids, so the array order the engine's map gives is left open.
- ToolCreationWizard.IsValidClassName: accepts only ASCII letters and digits, while `FChar::IsAlnum` also accepts other Unicode letters and digits.
- TwinPluginManager.PluginManager.IsToolAvailable: the "true for every enabled id" direction is stated only for registries with unique ids. A disabled first match can hide a later enabled record with the same id.
- TwinGameMode.GameMode.ApplyAppState: the re-entry guard is a field of the game mode, where the engine uses a function-local static shared by all game modes. The model also allows only one nested state change per request.
- TwinPluginManager.PluginManager.ActivateTool: one conformance flag per class stands for implementing the tool interface natively. A class that implements it only in Blueprint is initialised by CreateTool through `Execute_InitializeTool`, but ActivateTool then refuses it, because `GetInterface()` is null for such a class. The model does not capture that case: a conformant class is always activated.
- TwinPluginManager.PluginManager.OnModeChanged: the hook answers come from a function parameter, not from the tool, and the map's iteration order is left open.
- DataProcessorTemplate.DataProcessor.StartProcessing: `GetTotalBatches` is a parameter. The Blueprint batch work is a logged event.
- UIToolTemplate.UITool.ShowToolUI: widget creation is a boolean for whether the widget class loads, and the UI manager a boolean for whether it exists.
- The validator's `ValidateToolByID` is a stub in the source that only logs. Its `ValidationTime` field is not modelled, and `AddIssue` is declared but never defined.
- Code generation, file writing, asset creation and registry updates in the wizard are only recorded as events. GetAvailableTemplates and GetTemplateDescription are static tables, not modelled. DocumentationGenerator.cpp is not part of this model.
- The player controller, camera pawn, input manager, UI manager and global services subsystems are not part of this model.
