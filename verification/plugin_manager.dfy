/**
 * The tool manager subsystem: owns the tool registry, caches one instance
 * per tool id, tracks which instances are active, and keeps the active set
 * consistent with the application mode. Tool ids are map keys compared
 * case-insensitively, so the model keys its maps by the folded id.
 *
 * Calls into tool code (the interface hooks) are not interpreted: each one
 * is recorded, in order, in the ghost `hooks` log, and the answer of the
 * CanActivateInMode hook is a parameter of OnModeChanged.
 */
module TwinPluginManager {
  import opened TwinTypes
  import opened TwinPluginRegistry

  /** A tool instance created by the manager; `handle` is its object identity. */
  datatype ToolObject = ToolObject(handle: nat, cls: ToolClass)

  /** Whether the instance's class implements the tool interface. */
  predicate Conformant(o: ToolObject)
  {
    o.cls.implementsInterface
  }

  /** A call the manager makes into a tool instance. */
  datatype Hook =
    | InitializeHook(obj: ToolObject)
    | ActivateHook(obj: ToolObject)
    | DeactivateHook(obj: ToolObject)
    | ModeChangedHook(obj: ToolObject, mode: AppMode)
    | ShutdownHook(obj: ToolObject)

  /**
   * An entry of the active map: the id as it was last added under its key
   * (the map's key/value pair replaces both on Add) and the instance.
   */
  datatype ActiveTool = ActiveTool(id: string, obj: ToolObject)

  /** An event the manager broadcasts to its listeners. */
  datatype ManagerEvent =
    | ToolRegistered(id: string)
    | ToolUnregistered(id: string)
    | ToolActivated(id: string, obj: ToolObject)
    | ToolDeactivated(id: string)

  /** The key a tool id has in the manager's maps. */
  function Key(id: string): string
  {
    Fold(id)
  }

  /** ValidateToolClass: a class is accepted when it is set and implements the tool interface. */
  predicate ValidToolClass(cls: Option<ToolClass>)
  {
    cls.Some? && cls.value.implementsInterface
  }

  /** A record CreateTool will work with: its id is non-empty and it is enabled. */
  predicate Usable(t: RegisteredTool)
  {
    t.toolID != "" && t.enabled
  }

  /** Records that LoadRegisteredTools instantiates: enabled, auto-loaded, with a class that loads. */
  predicate AutoLoadable(t: RegisteredTool)
  {
    t.enabled && t.autoLoad && t.toolClass.Some?
  }

  /**
   * The class left cached under each key when the records are taken in
   * order and every auto-loadable one (re)places the entry of its key.
   */
  ghost function AutoLoadClasses(tools: seq<RegisteredTool>): map<string, ToolClass>
  {
    if tools == [] then map[]
    else
      var last := tools[|tools| - 1];
      var front := AutoLoadClasses(tools[..|tools| - 1]);
      if AutoLoadable(last) then front[Key(last.toolID) := last.toolClass.value] else front
  }

  /** A key is auto-loaded exactly when some auto-loadable record has it. */
  lemma {:induction false} AutoLoadClassesMembers(tools: seq<RegisteredTool>)
    ensures forall k :: k in AutoLoadClasses(tools) <==>
              exists j :: 0 <= j < |tools| && AutoLoadable(tools[j]) && Key(tools[j].toolID) == k
  {
    if tools != [] {
      var front := tools[..|tools| - 1];
      AutoLoadClassesMembers(front);
      assert forall j :: 0 <= j < |front| ==> front[j] == tools[j];
    }
  }

  /** The index of the last auto-loadable record with key `k`, or -1. */
  ghost function LastAutoLoad(tools: seq<RegisteredTool>, k: string): (r: int)
    ensures -1 <= r < |tools|
    ensures r >= 0 ==> AutoLoadable(tools[r]) && Key(tools[r].toolID) == k
    ensures forall j :: r < j < |tools| ==> !(AutoLoadable(tools[j]) && Key(tools[j].toolID) == k)
  {
    if tools == [] then -1
    else
      var front := tools[..|tools| - 1];
      var last := tools[|tools| - 1];
      if AutoLoadable(last) && Key(last.toolID) == k then |tools| - 1
      else
        assert forall j :: 0 <= j < |front| ==> front[j] == tools[j];
        LastAutoLoad(front, k)
  }

  /**
   * The last record wins: a key is auto-loaded exactly when it has an
   * auto-loadable record, and its class is that of the last such record.
   */
  lemma {:induction false} AutoLoadClassesLast(tools: seq<RegisteredTool>, k: string)
    ensures k in AutoLoadClasses(tools) <==> LastAutoLoad(tools, k) >= 0
    ensures k in AutoLoadClasses(tools) ==>
              AutoLoadClasses(tools)[k] == tools[LastAutoLoad(tools, k)].toolClass.value
  {
    if tools != [] {
      var front := tools[..|tools| - 1];
      AutoLoadClassesLast(front, k);
      var j := LastAutoLoad(front, k);
      if j >= 0 {
        assert front[j] == tools[j];
      }
    }
  }

  /** Extending the records by one applies that record's update, when it is auto-loadable. */
  lemma AutoLoadClassesSnoc(tools: seq<RegisteredTool>, i: nat)
    requires i < |tools|
    ensures AutoLoadClasses(tools[..i + 1]) ==
            (if AutoLoadable(tools[i])
             then AutoLoadClasses(tools[..i])[Key(tools[i].toolID) := tools[i].toolClass.value]
             else AutoLoadClasses(tools[..i]))
  {
    assert tools[..i + 1][..i] == tools[..i];
  }

  /**
   * `loaded` is `base` after caching a new instance of `classes[k]` under
   * each key `k` of `classes`, with handles from `first` on: the other keys
   * keep their instances and the new instances are distinct.
   */
  ghost predicate CachedFrom(loaded: map<string, ToolObject>, base: map<string, ToolObject>,
                             classes: map<string, ToolClass>, first: int)
  {
    loaded.Keys == base.Keys + classes.Keys &&
    (forall k :: k in base && k !in classes ==> loaded[k] == base[k]) &&
    (forall k :: k in classes ==> first <= loaded[k].handle && loaded[k].cls == classes[k]) &&
    (forall k, k' :: k in classes && k' in classes && k != k' ==> loaded[k].handle != loaded[k'].handle)
  }

  /** Caching one more instance, with a handle above every cached one, keeps CachedFrom. */
  lemma CachedFromAdd(loaded: map<string, ToolObject>, base: map<string, ToolObject>,
                      classes: map<string, ToolClass>, first: int, k: string, cls: ToolClass, next: nat)
    requires CachedFrom(loaded, base, classes, first) && first <= next
    requires forall k :: k in loaded ==> loaded[k].handle < next
    ensures CachedFrom(loaded[k := ToolObject(next, cls)], base, classes[k := cls], first)
  {
  }

  predicate Distinct(ids: seq<string>)
  {
    forall i, j :: 0 <= i < j < |ids| ==> ids[i] != ids[j]
  }

  /** Appending a new id keeps a sequence of ids free of repeats. */
  lemma DistinctSnoc(ids: seq<string>, k: string)
    requires Distinct(ids) && k !in ids
    ensures Distinct(ids + [k])
  {
  }

  ghost function NotifyHooks(keys: seq<string>, active: map<string, ActiveTool>, mode: AppMode): seq<Hook>
    requires forall i :: 0 <= i < |keys| ==> keys[i] in active
  {
    seq(|keys|, i requires 0 <= i < |keys| => ModeChangedHook(active[keys[i]].obj, mode))
  }

  ghost function DeactivationHooks(keys: seq<string>, active: map<string, ActiveTool>): seq<Hook>
    requires forall i :: 0 <= i < |keys| ==> keys[i] in active
  {
    seq(|keys|, i requires 0 <= i < |keys| => DeactivateHook(active[keys[i]].obj))
  }

  /** The deactivations announced for `keys`, each under the id stored with its entry. */
  ghost function DeactivationEvents(keys: seq<string>, active: map<string, ActiveTool>): seq<ManagerEvent>
    requires forall i :: 0 <= i < |keys| ==> keys[i] in active
  {
    seq(|keys|, i requires 0 <= i < |keys| => ToolDeactivated(active[keys[i]].id))
  }

  ghost function ShutdownHooks(keys: seq<string>, loaded: map<string, ToolObject>): seq<Hook>
    requires forall i :: 0 <= i < |keys| ==> keys[i] in loaded
  {
    seq(|keys|, i requires 0 <= i < |keys| => ShutdownHook(loaded[keys[i]]))
  }

  /** The hook and event sequences over active entries grow by one entry per key appended. */
  lemma ActiveSnoc(keys: seq<string>, k: string, active: map<string, ActiveTool>, mode: AppMode)
    requires forall i :: 0 <= i < |keys| ==> keys[i] in active
    requires k in active
    ensures NotifyHooks(keys + [k], active, mode) == NotifyHooks(keys, active, mode) + [ModeChangedHook(active[k].obj, mode)]
    ensures DeactivationHooks(keys + [k], active) == DeactivationHooks(keys, active) + [DeactivateHook(active[k].obj)]
    ensures DeactivationEvents(keys + [k], active) == DeactivationEvents(keys, active) + [ToolDeactivated(active[k].id)]
  {
  }

  /** The shutdown hooks grow by one entry per key appended. */
  lemma ShutdownSnoc(keys: seq<string>, k: string, loaded: map<string, ToolObject>)
    requires forall i :: 0 <= i < |keys| ==> keys[i] in loaded
    requires k in loaded
    ensures ShutdownHooks(keys + [k], loaded) == ShutdownHooks(keys, loaded) + [ShutdownHook(loaded[k])]
  {
  }

  /** GetAvailableTools: the ids of the enabled records, in registry order. */
  function AvailableToolIds(tools: seq<RegisteredTool>): (r: seq<string>)
    ensures |r| <= |tools|
    ensures forall id :: id in r <==> exists j :: 0 <= j < |tools| && tools[j].enabled && tools[j].toolID == id
  {
    if tools == [] then []
    else
      var rest := AvailableToolIds(tools[1..]);
      assert forall j :: 0 < j < |tools| ==> tools[j] == tools[1..][j - 1];
      if tools[0].enabled then [tools[0].toolID] + rest else rest
  }

  /** GetToolsByCategory: the ids of the enabled records of one category, in registry order. */
  function CategoryToolIds(tools: seq<RegisteredTool>, category: ToolCategory): (r: seq<string>)
    ensures |r| <= |tools|
    ensures forall id :: id in r <==>
      exists j :: 0 <= j < |tools| && tools[j].enabled && tools[j].metadata.category == category && tools[j].toolID == id
  {
    if tools == [] then []
    else
      var rest := CategoryToolIds(tools[1..], category);
      assert forall j :: 0 < j < |tools| ==> tools[j] == tools[1..][j - 1];
      if tools[0].enabled && tools[0].metadata.category == category then [tools[0].toolID] + rest else rest
  }

  /**
   * GetToolsForCurrentMode: the ids of the enabled records that support
   * `mode` or list no modes, in registry order.
   */
  function ModeToolIds(tools: seq<RegisteredTool>, mode: AppMode): (r: seq<string>)
    ensures |r| <= |tools|
    ensures forall id :: id in r <==>
      exists j :: 0 <= j < |tools| && tools[j].enabled && SupportsMode(tools[j].metadata.supportedModes, mode) &&
                  tools[j].toolID == id
  {
    if tools == [] then []
    else
      var rest := ModeToolIds(tools[1..], mode);
      assert forall j :: 0 < j < |tools| ==> tools[j] == tools[1..][j - 1];
      if tools[0].enabled && SupportsMode(tools[0].metadata.supportedModes, mode) then [tools[0].toolID] + rest else rest
  }

  /** The available ids keep registry order and multiplicity: the filter distributes over concatenation. */
  lemma {:induction false} AvailableToolIdsKeepsOrder(a: seq<RegisteredTool>, b: seq<RegisteredTool>)
    ensures AvailableToolIds(a + b) == AvailableToolIds(a) + AvailableToolIds(b)
  {
    if a == [] {
      assert a + b == b;
    } else {
      assert (a + b)[0] == a[0];
      assert (a + b)[1..] == a[1..] + b;
      AvailableToolIdsKeepsOrder(a[1..], b);
    }
  }

  /** GetAvailableTools' loop: each record appends its id exactly when it is enabled. */
  lemma AvailableToolIdsSnoc(tools: seq<RegisteredTool>, t: RegisteredTool)
    ensures AvailableToolIds(tools + [t]) == AvailableToolIds(tools) + (if t.enabled then [t.toolID] else [])
  {
    AvailableToolIdsKeepsOrder(tools, [t]);
  }

  /** The category's ids keep registry order and multiplicity. */
  lemma {:induction false} CategoryToolIdsKeepsOrder(a: seq<RegisteredTool>, b: seq<RegisteredTool>, category: ToolCategory)
    ensures CategoryToolIds(a + b, category) == CategoryToolIds(a, category) + CategoryToolIds(b, category)
  {
    if a == [] {
      assert a + b == b;
    } else {
      assert (a + b)[0] == a[0];
      assert (a + b)[1..] == a[1..] + b;
      CategoryToolIdsKeepsOrder(a[1..], b, category);
    }
  }

  /** GetToolsByCategory's loop: each record appends its id exactly when it is enabled and of the category. */
  lemma CategoryToolIdsSnoc(tools: seq<RegisteredTool>, t: RegisteredTool, category: ToolCategory)
    ensures CategoryToolIds(tools + [t], category) ==
            CategoryToolIds(tools, category) + (if t.enabled && t.metadata.category == category then [t.toolID] else [])
  {
    CategoryToolIdsKeepsOrder(tools, [t], category);
  }

  /** The mode's ids keep registry order and multiplicity. */
  lemma {:induction false} ModeToolIdsKeepsOrder(a: seq<RegisteredTool>, b: seq<RegisteredTool>, mode: AppMode)
    ensures ModeToolIds(a + b, mode) == ModeToolIds(a, mode) + ModeToolIds(b, mode)
  {
    if a == [] {
      assert a + b == b;
    } else {
      assert (a + b)[0] == a[0];
      assert (a + b)[1..] == a[1..] + b;
      ModeToolIdsKeepsOrder(a[1..], b, mode);
    }
  }

  /** GetToolsForCurrentMode's loop: each record appends its id exactly when it is enabled and supports the mode. */
  lemma ModeToolIdsSnoc(tools: seq<RegisteredTool>, t: RegisteredTool, mode: AppMode)
    ensures ModeToolIds(tools + [t], mode) ==
            ModeToolIds(tools, mode) + (if t.enabled && SupportsMode(t.metadata.supportedModes, mode) then [t.toolID] else [])
  {
    ModeToolIdsKeepsOrder(tools, [t], mode);
  }

  /** Every tool offered for a mode is also offered as available. */
  lemma {:induction false} ModeToolsAreAvailable(tools: seq<RegisteredTool>, mode: AppMode)
    ensures forall id :: id in ModeToolIds(tools, mode) ==> id in AvailableToolIds(tools)
  {
  }

  class PluginManager {
    const registry: PluginRegistry
    /** Cached instances by folded id (LoadedTools). */
    var loadedTools: map<string, ToolObject>
    /** Active entries by folded id (ActiveTools), each with the id it was added under. */
    var activeTools: map<string, ActiveTool>
    var currentMode: AppMode
    /** Identity of the next instance to be created. */
    var nextHandle: nat
    /** Whether the manager is subscribed to the mode manager's mode-changed event. */
    var listeningToModeChanges: bool
    ghost var hooks: seq<Hook>
    ghost var events: seq<ManagerEvent>

    /**
     * Every active entry is stored under the key of its id, and its instance
     * is the cached instance for that key and implements the tool interface;
     * keys are folded ids; handles are below the counter.
     */
    ghost predicate Valid()
      reads this
    {
      (forall k :: k in activeTools ==>
         Key(activeTools[k].id) == k && k in loadedTools && loadedTools[k] == activeTools[k].obj &&
         Conformant(activeTools[k].obj)) &&
      (forall k :: k in loadedTools ==> Fold(k) == k && loadedTools[k].handle < nextHandle)
    }

    /**
     * Initialize: takes the registry asset (`loaded` is None when it cannot
     * be loaded, and an empty registry is created), subscribes to mode
     * changes when a mode manager exists, and auto-loads tools.
     */
    constructor(loaded: Option<seq<RegisteredTool>>, modeManagerPresent: bool)
      ensures Valid()
      ensures fresh(registry)
      ensures registry.registeredTools == (if loaded.Some? then loaded.value else [])
      ensures activeTools == map[] && currentMode == MainMenu
      ensures loadedTools.Keys == AutoLoadClasses(registry.registeredTools).Keys
      ensures forall k :: k in loadedTools ==> loadedTools[k].cls == AutoLoadClasses(registry.registeredTools)[k]
      ensures forall k, k' :: k in loadedTools && k' in loadedTools && k != k' ==>
                loadedTools[k].handle != loadedTools[k'].handle
      ensures listeningToModeChanges == modeManagerPresent
      ensures hooks == [] && events == []
    {
      registry := new PluginRegistry(if loaded.Some? then loaded.value else []);
      loadedTools := map[];
      activeTools := map[];
      currentMode := MainMenu;
      nextHandle := 0;
      listeningToModeChanges := modeManagerPresent;
      hooks := [];
      events := [];
      new;
      LoadRegisteredTools();
    }

    /**
     * Creates and caches a fresh instance for every auto-loadable record; a
     * later record replaces an earlier one with the same id, so each key
     * ends with an instance of its last such record's class. The new
     * instances are distinct. No hook is called: auto-loaded instances are
     * not initialised.
     */
    method LoadRegisteredTools()
      requires Valid() && activeTools == map[]
      modifies this
      ensures Valid()
      ensures loadedTools.Keys == old(loadedTools).Keys + AutoLoadClasses(registry.registeredTools).Keys
      ensures forall k :: k in old(loadedTools) && k !in AutoLoadClasses(registry.registeredTools) ==>
                loadedTools[k] == old(loadedTools)[k]
      ensures forall k :: k in AutoLoadClasses(registry.registeredTools) ==>
                old(nextHandle) <= loadedTools[k].handle &&
                loadedTools[k].cls == AutoLoadClasses(registry.registeredTools)[k]
      ensures forall k, k' :: k in AutoLoadClasses(registry.registeredTools) &&
                              k' in AutoLoadClasses(registry.registeredTools) && k != k' ==>
                loadedTools[k].handle != loadedTools[k'].handle
      ensures hooks == old(hooks) && events == old(events)
      ensures activeTools == old(activeTools) && currentMode == old(currentMode)
      ensures listeningToModeChanges == old(listeningToModeChanges)
    {
      var tools := registry.registeredTools;
      var i := 0;
      while i < |tools|
        invariant 0 <= i <= |tools|
        invariant Valid() && activeTools == map[]
        invariant nextHandle >= old(nextHandle)
        invariant CachedFrom(loadedTools, old(loadedTools), AutoLoadClasses(tools[..i]), old(nextHandle))
        invariant hooks == old(hooks) && events == old(events) && currentMode == old(currentMode)
        invariant listeningToModeChanges == old(listeningToModeChanges)
      {
        ghost var before := loadedTools;
        ghost var next := nextHandle;
        LoadRecord(tools[i]);
        AutoLoadClassesSnoc(tools, i);
        if AutoLoadable(tools[i]) {
          CachedFromAdd(before, old(loadedTools), AutoLoadClasses(tools[..i]), old(nextHandle),
                        Key(tools[i].toolID), tools[i].toolClass.value, next);
        }
        i := i + 1;
      }
      assert tools[..|tools|] == tools;
    }

    /** One step of LoadRegisteredTools: caches a fresh instance for an auto-loadable record. */
    method LoadRecord(t: RegisteredTool)
      requires Valid() && activeTools == map[]
      modifies this
      ensures Valid() && activeTools == map[]
      ensures AutoLoadable(t) ==>
                loadedTools == old(loadedTools)[Key(t.toolID) := ToolObject(old(nextHandle), t.toolClass.value)] &&
                nextHandle == old(nextHandle) + 1
      ensures !AutoLoadable(t) ==> loadedTools == old(loadedTools) && nextHandle == old(nextHandle)
      ensures hooks == old(hooks) && events == old(events) && currentMode == old(currentMode)
      ensures listeningToModeChanges == old(listeningToModeChanges)
    {
      if AutoLoadable(t) {
        var obj := ToolObject(nextHandle, t.toolClass.value);
        nextHandle := nextHandle + 1;
        FoldIdempotent(t.toolID);
        loadedTools := loadedTools[Key(t.toolID) := obj];
      }
    }

    /**
     * Registers (or re-registers) a tool whose class is set and implements
     * the tool interface, as an enabled, non-auto-loaded record, and
     * announces it. Any other class is refused and nothing changes.
     */
    method RegisterTool(id: string, cls: Option<ToolClass>, metadata: ToolMetadata) returns (ok: bool)
      requires Valid()
      modifies this, registry
      ensures Valid()
      ensures ok == ValidToolClass(cls)
      ensures ok ==> registry.registeredTools ==
                      Upserted(old(registry.registeredTools), RegisteredTool(id, cls, metadata, true, false))
      ensures ok ==> events == old(events) + [ToolRegistered(id)]
      ensures !ok ==> registry.registeredTools == old(registry.registeredTools) && events == old(events)
      ensures loadedTools == old(loadedTools) && activeTools == old(activeTools) && hooks == old(hooks)
      ensures currentMode == old(currentMode) && nextHandle == old(nextHandle)
      ensures listeningToModeChanges == old(listeningToModeChanges)
    {
      if !ValidToolClass(cls) {
        return false;
      }
      registry.RegisterTool(RegisteredTool(id, cls, metadata, true, false));
      events := events + [ToolRegistered(id)];
      return true;
    }

    /** Whether the cache holds an instance for `id` that implements the tool interface. */
    ghost predicate HasConformantInstance(id: string)
      reads this
    {
      Key(id) in loadedTools && Conformant(loadedTools[Key(id)])
    }

    /**
     * Returns a usable instance for `id`: none when the record is missing,
     * has an empty id or is disabled; the cached instance when it implements
     * the interface; otherwise a fresh instance of the record's class, which
     * is cached even when it does not implement the interface and is
     * initialised (InitializeTool) only when it does.
     */
    method CreateTool(id: string) returns (tool: Option<ToolObject>)
      requires Valid()
      modifies this
      ensures Valid()
      ensures !Usable(FindTool(registry.registeredTools, id)) ==>
                tool.None? && loadedTools == old(loadedTools) && nextHandle == old(nextHandle) && hooks == old(hooks)
      ensures Usable(FindTool(registry.registeredTools, id)) && old(HasConformantInstance(id)) ==>
                tool == Some(old(loadedTools)[Key(id)]) &&
                loadedTools == old(loadedTools) && nextHandle == old(nextHandle) && hooks == old(hooks)
      ensures Usable(FindTool(registry.registeredTools, id)) && !old(HasConformantInstance(id)) &&
              FindTool(registry.registeredTools, id).toolClass.None? ==>
                tool.None? && loadedTools == old(loadedTools) && nextHandle == old(nextHandle) && hooks == old(hooks)
      ensures Usable(FindTool(registry.registeredTools, id)) && !old(HasConformantInstance(id)) &&
              FindTool(registry.registeredTools, id).toolClass.Some? ==>
                var obj := ToolObject(old(nextHandle), FindTool(registry.registeredTools, id).toolClass.value);
                loadedTools == old(loadedTools)[Key(id) := obj] && nextHandle == old(nextHandle) + 1 &&
                tool == (if Conformant(obj) then Some(obj) else None) &&
                hooks == old(hooks) + (if Conformant(obj) then [InitializeHook(obj)] else [])
      ensures tool.Some? ==> Conformant(tool.value) && Key(id) in loadedTools && loadedTools[Key(id)] == tool.value
      ensures activeTools == old(activeTools) && events == old(events) && currentMode == old(currentMode)
      ensures listeningToModeChanges == old(listeningToModeChanges)
    {
      var t := FindTool(registry.registeredTools, id);
      if t.toolID == "" || !t.enabled {
        return None;
      }
      var k := Key(id);
      if k in loadedTools && Conformant(loadedTools[k]) {
        return Some(loadedTools[k]);
      }
      if t.toolClass.Some? {
        var obj := ToolObject(nextHandle, t.toolClass.value);
        nextHandle := nextHandle + 1;
        FoldIdempotent(id);
        loadedTools := loadedTools[k := obj];
        if Conformant(obj) {
          hooks := hooks + [InitializeHook(obj)];
          return Some(obj);
        }
      }
      return None;
    }

    /**
     * What ActivateTool does to the manager, by the case of CreateTool it
     * goes through: a missing, disabled or class-less record changes
     * nothing; a cached conformant instance is activated; otherwise a new
     * instance is cached and, when conformant, initialised and activated.
     * Activation calls the hook, stores the entry under the id as given and
     * announces it, also for a tool that is already active.
     */
    twostate predicate ActivationEffects(id: string, ok: bool)
      reads this, registry
    {
      var t := FindTool(registry.registeredTools, id);
      (ok <==> Usable(t) && (old(HasConformantInstance(id)) || ValidToolClass(t.toolClass))) &&
      (!Usable(t) || (!old(HasConformantInstance(id)) && t.toolClass.None?) ==>
         loadedTools == old(loadedTools) && nextHandle == old(nextHandle) &&
         activeTools == old(activeTools) && hooks == old(hooks) && events == old(events)) &&
      (Usable(t) && old(HasConformantInstance(id)) ==>
         var obj := old(loadedTools)[Key(id)];
         loadedTools == old(loadedTools) && nextHandle == old(nextHandle) &&
         activeTools == old(activeTools)[Key(id) := ActiveTool(id, obj)] &&
         hooks == old(hooks) + [ActivateHook(obj)] && events == old(events) + [ToolActivated(id, obj)]) &&
      (Usable(t) && !old(HasConformantInstance(id)) && t.toolClass.Some? ==>
         var obj := ToolObject(old(nextHandle), t.toolClass.value);
         loadedTools == old(loadedTools)[Key(id) := obj] && nextHandle == old(nextHandle) + 1 &&
         if Conformant(obj) then
           activeTools == old(activeTools)[Key(id) := ActiveTool(id, obj)] &&
           hooks == old(hooks) + [InitializeHook(obj), ActivateHook(obj)] &&
           events == old(events) + [ToolActivated(id, obj)]
         else
           activeTools == old(activeTools) && hooks == old(hooks) && events == old(events))
    }

    /**
     * Activates a tool: when CreateTool yields an instance, calls its
     * ActivateTool hook, records it as active and announces it. There is no
     * check of the current mode, and a tool that is already active has its
     * hook called again.
     */
    method ActivateTool(id: string) returns (ok: bool)
      requires Valid()
      modifies this
      ensures Valid()
      ensures ok <== Key(id) in old(activeTools) && Usable(FindTool(registry.registeredTools, id))
      ensures ActivationEffects(id, ok)
      ensures currentMode == old(currentMode) && listeningToModeChanges == old(listeningToModeChanges)
    {
      var tool := CreateTool(id);
      if tool.None? {
        return false;
      }
      MarkActive(id, tool.value);
      return true;
    }

    /** The second half of ActivateTool: calls the hook, records the instance as active and announces it. */
    method MarkActive(id: string, obj: ToolObject)
      requires Valid() && Conformant(obj) && Key(id) in loadedTools && loadedTools[Key(id)] == obj
      modifies this
      ensures Valid()
      ensures activeTools == old(activeTools)[Key(id) := ActiveTool(id, obj)]
      ensures hooks == old(hooks) + [ActivateHook(obj)] && events == old(events) + [ToolActivated(id, obj)]
      ensures loadedTools == old(loadedTools) && nextHandle == old(nextHandle) && currentMode == old(currentMode)
      ensures listeningToModeChanges == old(listeningToModeChanges)
    {
      hooks := hooks + [ActivateHook(obj)];
      activeTools := activeTools[Key(id) := ActiveTool(id, obj)];
      events := events + [ToolActivated(id, obj)];
    }

    /**
     * What DeactivateTool does: an active tool has its hook called, leaves
     * the active map and is announced under the id as given; an inactive
     * one changes nothing. The cache, counter and mode never change.
     */
    twostate predicate DeactivationEffects(id: string)
      reads this
    {
      (Key(id) in old(activeTools) ==>
         activeTools == old(activeTools) - {Key(id)} &&
         hooks == old(hooks) + [DeactivateHook(old(activeTools)[Key(id)].obj)] &&
         events == old(events) + [ToolDeactivated(id)]) &&
      (Key(id) !in old(activeTools) ==>
         activeTools == old(activeTools) && hooks == old(hooks) && events == old(events)) &&
      loadedTools == old(loadedTools) && nextHandle == old(nextHandle) && currentMode == old(currentMode) &&
      listeningToModeChanges == old(listeningToModeChanges)
    }

    /** Deactivates an active tool: calls its hook, drops it from the active set and announces it. */
    method DeactivateTool(id: string)
      requires Valid()
      modifies this
      ensures Valid()
      ensures DeactivationEffects(id)
    {
      var k := Key(id);
      if k !in activeTools {
        return;
      }
      hooks := hooks + [DeactivateHook(activeTools[k].obj)];
      activeTools := activeTools - {k};
      events := events + [ToolDeactivated(id)];
    }

    /**
     * One step of the deactivation loops: what DeactivateTool does when
     * called with the id stored in the entry under `k` (an id whose key is
     * `k` while Valid holds): the hook, the removal, and the announcement
     * under that stored id.
     */
    method DeactivateEntry(k: string)
      requires k in activeTools
      modifies this
      ensures activeTools == old(activeTools) - {k}
      ensures hooks == old(hooks) + [DeactivateHook(old(activeTools)[k].obj)]
      ensures events == old(events) + [ToolDeactivated(old(activeTools)[k].id)]
      ensures loadedTools == old(loadedTools) && nextHandle == old(nextHandle) && currentMode == old(currentMode)
      ensures listeningToModeChanges == old(listeningToModeChanges)
    {
      hooks := hooks + [DeactivateHook(activeTools[k].obj)];
      events := events + [ToolDeactivated(activeTools[k].id)];
      activeTools := activeTools - {k};
    }

    /**
     * Deactivates each tool of a snapshot of active keys, each exactly once,
     * in some order, by calling DeactivateTool with the id stored in its
     * entry; the tools outside the snapshot stay active.
     */
    method DeactivateEach(snapshot: set<string>) returns (ghost order: seq<string>)
      requires Valid() && snapshot <= activeTools.Keys
      modifies this
      ensures Valid()
      ensures activeTools == old(activeTools) - snapshot
      ensures Distinct(order) && forall k :: k in order <==> k in snapshot
      ensures hooks == old(hooks) + DeactivationHooks(order, old(activeTools))
      ensures events == old(events) + DeactivationEvents(order, old(activeTools))
      ensures loadedTools == old(loadedTools) && nextHandle == old(nextHandle) && currentMode == old(currentMode)
      ensures listeningToModeChanges == old(listeningToModeChanges)
    {
      var remaining := snapshot;
      ghost var entries := activeTools;
      order := [];
      while remaining != {}
        invariant remaining <= snapshot
        invariant Distinct(order)
        invariant forall i :: 0 <= i < |order| ==> order[i] in snapshot && order[i] !in remaining
        invariant forall k :: k in snapshot && k !in remaining ==> k in order
        invariant activeTools == entries - (snapshot - remaining)
        invariant hooks == old(hooks) + DeactivationHooks(order, entries)
        invariant events == old(events) + DeactivationEvents(order, entries)
        invariant loadedTools == old(loadedTools) && nextHandle == old(nextHandle) && currentMode == old(currentMode)
        invariant listeningToModeChanges == old(listeningToModeChanges)
        decreases remaining
      {
        var k :| k in remaining;
        assert activeTools[k] == entries[k];
        DeactivateEntry(k);
        assert activeTools == entries - (snapshot - (remaining - {k}));
        ActiveSnoc(order, k, entries, currentMode);
        DistinctSnoc(order, k);
        order := order + [k];
        remaining := remaining - {k};
      }
      assert activeTools == old(activeTools) - snapshot;
    }

    /** Deactivates every tool active at entry, each exactly once, in some order. */
    method DeactivateAllTools() returns (ghost order: seq<string>)
      requires Valid()
      modifies this
      ensures Valid()
      ensures activeTools == map[]
      ensures Distinct(order) && forall k :: k in order <==> k in old(activeTools)
      ensures hooks == old(hooks) + DeactivationHooks(order, old(activeTools))
      ensures events == old(events) + DeactivationEvents(order, old(activeTools))
      ensures loadedTools == old(loadedTools) && nextHandle == old(nextHandle) && currentMode == old(currentMode)
      ensures listeningToModeChanges == old(listeningToModeChanges)
    {
      order := DeactivateEach(activeTools.Keys);
    }

    /** Calls the OnModeChanged hook of every active tool, each exactly once, in some order. */
    method NotifyActiveTools(newMode: AppMode) returns (ghost notified: seq<string>)
      modifies this
      ensures Distinct(notified) && forall k :: k in notified <==> k in activeTools
      ensures hooks == old(hooks) + NotifyHooks(notified, activeTools, newMode)
      ensures activeTools == old(activeTools) && events == old(events) && loadedTools == old(loadedTools)
      ensures nextHandle == old(nextHandle) && currentMode == old(currentMode)
      ensures listeningToModeChanges == old(listeningToModeChanges)
    {
      var pending := activeTools.Keys;
      notified := [];
      while pending != {}
        invariant pending <= activeTools.Keys
        invariant activeTools == old(activeTools)
        invariant Distinct(notified)
        invariant forall k :: k in notified ==> k in activeTools
        invariant forall k :: k in activeTools ==> (k in pending <==> k !in notified)
        invariant hooks == old(hooks) + NotifyHooks(notified, activeTools, newMode)
        invariant events == old(events) && loadedTools == old(loadedTools) && nextHandle == old(nextHandle)
        invariant currentMode == old(currentMode) && listeningToModeChanges == old(listeningToModeChanges)
        decreases pending
      {
        var k :| k in pending;
        hooks := hooks + [ModeChangedHook(activeTools[k].obj, newMode)];
        ActiveSnoc(notified, k, activeTools, newMode);
        DistinctSnoc(notified, k);
        notified := notified + [k];
        pending := pending - {k};
      }
    }

    /**
     * The mode-changed listener: records the mode, notifies every active
     * tool (all notifications come before any deactivation), then
     * deactivates exactly the tools whose CanActivateInMode hook refuses the
     * new mode, each announced under the id stored in its entry.
     * `canActivate` is that hook's answer.
     */
    method OnModeChanged(newMode: AppMode, canActivate: (ToolObject, AppMode) -> bool)
      returns (ghost notified: seq<string>, ghost deactivated: seq<string>)
      requires Valid()
      modifies this
      ensures Valid()
      ensures currentMode == newMode
      ensures activeTools.Keys == set k | k in old(activeTools) && canActivate(old(activeTools)[k].obj, newMode)
      ensures forall k :: k in activeTools ==> activeTools[k] == old(activeTools)[k]
      ensures Distinct(notified) && forall k :: k in notified <==> k in old(activeTools)
      ensures Distinct(deactivated) &&
              forall k :: k in deactivated <==> k in old(activeTools) && !canActivate(old(activeTools)[k].obj, newMode)
      ensures hooks == old(hooks) + NotifyHooks(notified, old(activeTools), newMode) +
                       DeactivationHooks(deactivated, old(activeTools))
      ensures events == old(events) + DeactivationEvents(deactivated, old(activeTools))
      ensures loadedTools == old(loadedTools) && nextHandle == old(nextHandle)
      ensures listeningToModeChanges == old(listeningToModeChanges)
    {
      currentMode := newMode;
      notified := NotifyActiveTools(newMode);
      var toDeactivate := set k | k in activeTools.Keys && !canActivate(activeTools[k].obj, newMode);
      deactivated := DeactivateEach(toDeactivate);
    }

    /**
     * Deactivates every active tool, then calls ShutdownTool on every cached
     * instance that implements the interface, then empties the cache.
     */
    method UnloadAllTools() returns (ghost deactivated: seq<string>, ghost shutDown: seq<string>)
      requires Valid()
      modifies this
      ensures Valid()
      ensures activeTools == map[] && loadedTools == map[]
      ensures Distinct(deactivated) && forall k :: k in deactivated <==> k in old(activeTools)
      ensures Distinct(shutDown) &&
              forall k :: k in shutDown <==> k in old(loadedTools) && Conformant(old(loadedTools)[k])
      ensures hooks == old(hooks) + DeactivationHooks(deactivated, old(activeTools)) +
                       ShutdownHooks(shutDown, old(loadedTools))
      ensures events == old(events) + DeactivationEvents(deactivated, old(activeTools))
      ensures currentMode == old(currentMode) && listeningToModeChanges == old(listeningToModeChanges)
    {
      deactivated := DeactivateAllTools();
      ghost var afterDeactivation := hooks;
      var pending := loadedTools.Keys;
      shutDown := [];
      while pending != {}
        invariant pending <= loadedTools.Keys
        invariant loadedTools == old(loadedTools) && activeTools == map[]
        invariant Distinct(shutDown)
        invariant forall k :: k in shutDown ==> k in loadedTools && k !in pending && Conformant(loadedTools[k])
        invariant forall k :: k in loadedTools && k !in pending && Conformant(loadedTools[k]) ==> k in shutDown
        invariant hooks == afterDeactivation + ShutdownHooks(shutDown, loadedTools)
        invariant events == old(events) + DeactivationEvents(deactivated, old(activeTools))
        invariant currentMode == old(currentMode) && listeningToModeChanges == old(listeningToModeChanges)
        decreases pending
      {
        var k :| k in pending;
        if Conformant(loadedTools[k]) {
          hooks := hooks + [ShutdownHook(loadedTools[k])];
          ShutdownSnoc(shutDown, k, loadedTools);
          DistinctSnoc(shutDown, k);
          shutDown := shutDown + [k];
        }
        pending := pending - {k};
      }
      loadedTools := map[];
    }

    /** Unloads every tool and stops listening to mode changes. */
    method Deinitialize() returns (ghost deactivated: seq<string>, ghost shutDown: seq<string>)
      requires Valid()
      modifies this
      ensures Valid()
      ensures activeTools == map[] && loadedTools == map[] && !listeningToModeChanges
      ensures Distinct(deactivated) && forall k :: k in deactivated <==> k in old(activeTools)
      ensures Distinct(shutDown) &&
              forall k :: k in shutDown <==> k in old(loadedTools) && Conformant(old(loadedTools)[k])
      ensures hooks == old(hooks) + DeactivationHooks(deactivated, old(activeTools)) +
                       ShutdownHooks(shutDown, old(loadedTools))
      ensures events == old(events) + DeactivationEvents(deactivated, old(activeTools))
      ensures currentMode == old(currentMode)
    {
      deactivated, shutDown := UnloadAllTools();
      listeningToModeChanges := false;
    }

    /**
     * Removes the last registry record matching `id`; when one was removed,
     * also deactivates the tool if active, drops its cached instance and
     * announces the removal.
     */
    method UnregisterTool(id: string) returns (ok: bool)
      requires Valid()
      modifies this, registry
      ensures Valid()
      ensures ok <==> exists j :: 0 <= j < |old(registry.registeredTools)| && Matches(old(registry.registeredTools)[j], id)
      ensures registry.registeredTools == Removed(old(registry.registeredTools), id)
      ensures ok ==> activeTools == old(activeTools) - {Key(id)} && loadedTools == old(loadedTools) - {Key(id)}
      ensures ok ==> events == old(events) + (if Key(id) in old(activeTools) then [ToolDeactivated(id)] else []) +
                               [ToolUnregistered(id)]
      ensures ok ==> hooks == old(hooks) +
                              (if Key(id) in old(activeTools) then [DeactivateHook(old(activeTools)[Key(id)].obj)] else [])
      ensures !ok ==> activeTools == old(activeTools) && loadedTools == old(loadedTools) &&
                      events == old(events) && hooks == old(hooks)
      ensures currentMode == old(currentMode) && listeningToModeChanges == old(listeningToModeChanges)
    {
      ok := registry.UnregisterTool(id);
      if ok {
        if Key(id) in activeTools {
          DeactivateTool(id);
        }
        loadedTools := loadedTools - {Key(id)};
        events := events + [ToolUnregistered(id)];
      }
    }

    /** The console command: activates the tool and reports the outcome, with ActivateTool's effects. */
    method ActivateToolCommand(id: string) returns (ok: bool)
      requires Valid()
      modifies this
      ensures Valid()
      ensures ActivationEffects(id, ok)
      ensures currentMode == old(currentMode) && listeningToModeChanges == old(listeningToModeChanges)
    {
      ok := ActivateTool(id);
    }

    /**
     * The console command: deactivates the tool when it is active, with
     * DeactivateTool's effects, and reports whether it was.
     */
    method DeactivateToolCommand(id: string) returns (wasActive: bool)
      requires Valid()
      modifies this
      ensures Valid()
      ensures wasActive == (Key(id) in old(activeTools))
      ensures Key(id) !in activeTools
      ensures DeactivationEffects(id)
    {
      if Key(id) in activeTools {
        DeactivateTool(id);
        return true;
      }
      return false;
    }

    /** IsToolActive, compared case-insensitively; an active tool always has a conformant cached instance. */
    function IsToolActive(id: string): (r: bool)
      requires Valid()
      reads this
      ensures r ==> Key(id) in loadedTools && Conformant(loadedTools[Key(id)])
      ensures r <==> exists k :: k in activeTools && SameName(k, id)
    {
      FoldIdempotent(id);
      Key(id) in activeTools
    }

    /** GetActiveTool: the active instance for `id`, if any. */
    function GetActiveTool(id: string): (r: Option<ToolObject>)
      requires Valid()
      reads this
      ensures r.Some? <==> IsToolActive(id)
      ensures r.Some? ==> Conformant(r.value) && loadedTools[Key(id)] == r.value
    {
      if Key(id) in activeTools then Some(activeTools[Key(id)].obj) else None
    }

    /**
     * GetActiveTools: the ids the active entries were added under. Every
     * listed id is active, and every active tool is listed under a spelling
     * of its id.
     */
    function GetActiveTools(): (r: set<string>)
      requires Valid()
      reads this
      ensures forall id :: id in r ==> IsToolActive(id)
      ensures forall id :: IsToolActive(id) ==> activeTools[Key(id)].id in r && SameName(activeTools[Key(id)].id, id)
    {
      var ids := set k | k in activeTools :: activeTools[k].id;
      assert forall id :: id in ids ==> Key(id) in activeTools;
      ids
    }

    /** GetToolMetadata: the first matching record's metadata, or default metadata. */
    function GetToolMetadata(id: string): (r: ToolMetadata)
      reads this, registry
      ensures (forall j :: 0 <= j < |registry.registeredTools| ==> !Matches(registry.registeredTools[j], id)) ==>
                r == DefaultMetadata()
      ensures forall j :: 0 <= j < |registry.registeredTools| && Matches(registry.registeredTools[j], id) &&
                          (forall i :: 0 <= i < j ==> !Matches(registry.registeredTools[i], id))
                ==> r == registry.registeredTools[j].metadata
    {
      FindTool(registry.registeredTools, id).metadata
    }

    /**
     * IsToolAvailable: the first matching record exists, has a non-empty id
     * and is enabled.
     */
    function IsToolAvailable(id: string): (r: bool)
      reads this, registry
      ensures r ==> id != "" && exists j :: 0 <= j < |registry.registeredTools| &&
                                      Matches(registry.registeredTools[j], id) && registry.registeredTools[j].enabled
      ensures UniqueIds(registry.registeredTools) ==>
                (r <== id != "" && exists j :: 0 <= j < |registry.registeredTools| &&
                                       Matches(registry.registeredTools[j], id) && registry.registeredTools[j].enabled)
    {
      var t := FindTool(registry.registeredTools, id);
      FindToolUnique(registry.registeredTools, id);
      assert t.toolID != "" ==> |t.toolID| == |id| by {
        if t.toolID != "" {
          assert Matches(t, id);
          assert |Fold(t.toolID)| == |Fold(id)|;
        }
      }
      if t.toolID != "" then t.enabled else false
    }

    /**
     * ListAvailableToolsCommand: each available id in registry order, paired
     * with whether GetActiveTools lists it (compared without regard to case).
     */
    function ListAvailableTools(): (r: seq<(string, bool)>)
      requires Valid()
      reads this, registry
      ensures |r| == |AvailableToolIds(registry.registeredTools)|
      ensures forall i :: 0 <= i < |r| ==>
                r[i].0 == AvailableToolIds(registry.registeredTools)[i] &&
                (r[i].1 <==> exists a :: a in GetActiveTools() && SameName(a, r[i].0))
    {
      var ids := AvailableToolIds(registry.registeredTools);
      var active := activeTools;
      assert forall i :: 0 <= i < |ids| ==> (Key(ids[i]) in active <==> IsToolActive(ids[i]));
      seq(|ids|, i requires 0 <= i < |ids| => (ids[i], Key(ids[i]) in active))
    }
  }

  /**
   * A tool limited to InGame is registered and activated, then the mode
   * changes to Editor: the tool is deactivated by the mode-change pass.
   */
  method ModeChangeDeactivates() returns (activated: bool, activeInEditor: bool)
    ensures activated && !activeInEditor
  {
    var manager: PluginManager;
    manager, activated := ActivateInGameTool();
    // A template tool's CanActivateInMode: its mode list, here not empty, must hold the mode.
    ghost var n, d := manager.OnModeChanged(Editor, (o: ToolObject, m: AppMode) => m in [InGame]);
    assert manager.activeTools.Keys == {};
    activeInEditor := manager.IsToolActive("measure");
  }

  /** The first half of ModeChangeDeactivates: a fresh manager with the InGame-only tool active. */
  method ActivateInGameTool() returns (manager: PluginManager, activated: bool)
    ensures fresh(manager) && manager.Valid()
    ensures activated && manager.activeTools.Keys == {Key("measure")}
  {
    manager := new PluginManager(None, true);
    var meta := DefaultMetadata().(toolName := "Measure", supportedModes := [InGame]);
    var registered := manager.RegisterTool("measure", Some(ToolClass("MeasureTool", true)), meta);
    ghost var rec := RegisteredTool("measure", Some(ToolClass("MeasureTool", true)), meta, true, false);
    assert manager.registry.registeredTools == [rec];
    assert FirstIndexOf([rec], "measure") == 0;
    assert FindTool(manager.registry.registeredTools, "measure") == rec;
    assert Usable(rec) && ValidToolClass(rec.toolClass);
    activated := manager.ActivateTool("measure");
  }

  /**
   * With unique ids, a tool registered and then unregistered is no longer
   * found, not active and not cached.
   */
  method RegisterThenUnregisterTool(manager: PluginManager, id: string, cls: ToolClass, metadata: ToolMetadata)
    returns (registered: bool, unregistered: bool)
    requires manager.Valid() && UniqueIds(manager.registry.registeredTools) && cls.implementsInterface
    modifies manager, manager.registry
    ensures registered && unregistered && manager.Valid()
    ensures FindTool(manager.registry.registeredTools, id) == EmptyRecord()
    ensures !manager.IsToolActive(id) && Key(id) !in manager.loadedTools
  {
    registered := manager.RegisterTool(id, Some(cls), metadata);
    RegisterThenFind(old(manager.registry.registeredTools), RegisteredTool(id, Some(cls), metadata, true, false));
    RegisterThenUnregister(old(manager.registry.registeredTools), RegisteredTool(id, Some(cls), metadata, true, false));
    assert Matches(RegisteredTool(id, Some(cls), metadata, true, false), id);
    unregistered := manager.UnregisterTool(id);
  }
}
