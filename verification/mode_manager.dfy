/**
 * The mode manager subsystem: holds the current application mode, a table
 * of permitted transitions and the mode registry, and announces every
 * committed mode change to its listeners.
 */
module ModeManager {
  import opened TwinTypes
  import opened AppModeRegistry

  /** Allowed targets per source mode; a source mode without a row is unrestricted. */
  type TransitionTable = map<AppMode, seq<AppMode>>

  /**
   * The table Initialize installs: a row for every mode but NoMode, no
   * mode listing itself or NoMode, every listed move undoable in one step,
   * Runtime entered only from InGame and Editor only from MainMenu.
   */
  function DefaultTransitions(): (t: TransitionTable)
    ensures t.Keys == {MainMenu, InGame, Editor, Runtime}
    ensures forall m :: m in t ==> m !in t[m] && NoMode !in t[m]
    ensures forall a, b :: a in t && b in t[a] ==> b in t && a in t[b]
    ensures forall m :: m in t && Runtime in t[m] ==> m == InGame
    ensures forall m :: m in t && Editor in t[m] ==> m == MainMenu
  {
    map[MainMenu := [InGame, Editor],
        InGame := [MainMenu, Runtime],
        Editor := [MainMenu],
        Runtime := [InGame]]
  }

  /**
   * Whether the table lets `current` move to `target`: never to itself;
   * exactly to the listed targets when `current` has a row; to anything
   * else when it has none.
   */
  function CanTransition(current: AppMode, table: TransitionTable, target: AppMode): (r: bool)
    ensures target == current ==> !r
    ensures target != current && current in table ==> (r <==> target in table[current])
    ensures target != current && current !in table ==> r
  {
    if current == target then false
    else if current in table then target in table[current]
    else true
  }

  /**
   * Whether SetMode commits: the transition is allowed and, when a registry
   * is present, the registry has an entry for the target.
   */
  function SetModeAccepted(current: AppMode, table: TransitionTable,
                           registry: Option<seq<AppModeEntry>>, target: AppMode): (r: bool)
    ensures r ==> target != current
    ensures r <==> CanTransition(current, table, target) &&
                   (registry.Some? ==> exists i :: 0 <= i < |registry.value| && registry.value[i].mode == target)
  {
    CanTransition(current, table, target) &&
    !(registry.Some? && FindMode(registry.value, target).None?)
  }

  /** The mode reached after a sequence of SetMode requests. */
  function ModeAfter(current: AppMode, table: TransitionTable,
                     registry: Option<seq<AppModeEntry>>, targets: seq<AppMode>): AppMode
    decreases |targets|
  {
    if targets == [] then current
    else
      var next := if SetModeAccepted(current, table, registry, targets[0]) then targets[0] else current;
      ModeAfter(next, table, registry, targets[1..])
  }

  /**
   * With the empty fallback registry no request is ever committed, so the
   * mode never leaves where it started, whatever the requests.
   */
  lemma {:induction false} EmptyRegistryFreezesMode(current: AppMode, table: TransitionTable, targets: seq<AppMode>)
    ensures ModeAfter(current, table, Some([]), targets) == current
    decreases |targets|
  {
    if targets != [] {
      EmptyRegistryFreezesMode(current, table, targets[1..]);
    }
  }

  /**
   * Every mode reached by a run of requests is the start mode or one of the
   * requested targets: SetMode never invents a mode.
   */
  lemma {:induction false} ModeAfterIsStartOrTarget(current: AppMode, table: TransitionTable,
                                                   registry: Option<seq<AppModeEntry>>, targets: seq<AppMode>)
    ensures ModeAfter(current, table, registry, targets) == current ||
            ModeAfter(current, table, registry, targets) in targets
    decreases |targets|
  {
    if targets != [] {
      var next := if SetModeAccepted(current, table, registry, targets[0]) then targets[0] else current;
      ModeAfterIsStartOrTarget(next, table, registry, targets[1..]);
      assert targets == [targets[0]] + targets[1..];
    }
  }

  class ModeManagerSubsystem {
    /** The registry asset; None until Initialize runs. */
    var registry: Option<seq<AppModeEntry>>
    var currentMode: AppMode
    var allowedTransitions: TransitionTable
    /** Every mode announced through the mode-changed event, in order. */
    ghost var broadcasts: seq<AppMode>

    /** The last announced mode is the current one. */
    ghost predicate Valid()
      reads this
    {
      broadcasts != [] ==> broadcasts[|broadcasts| - 1] == currentMode
    }

    /** A subsystem before Initialize: mode None, no table, no registry. */
    constructor()
      ensures Valid()
      ensures registry == None && currentMode == NoMode
      ensures allowedTransitions == map[] && broadcasts == []
    {
      registry := None;
      currentMode := NoMode;
      allowedTransitions := map[];
      broadcasts := [];
    }

    /**
     * Installs the registry (`loaded` is None when the asset cannot be
     * loaded or is not a mode registry, and an empty fallback registry is
     * used instead) and adds the four default rows, replacing rows with the
     * same key.
     */
    method Initialize(loaded: Option<seq<AppModeEntry>>)
      requires Valid()
      modifies this
      ensures Valid()
      ensures registry == Some(if loaded.Some? then loaded.value else [])
      ensures allowedTransitions == old(allowedTransitions) + DefaultTransitions()
      ensures currentMode == old(currentMode) && broadcasts == old(broadcasts)
    {
      if loaded.Some? {
        registry := loaded;
      } else {
        registry := Some([]);
      }
      allowedTransitions := allowedTransitions + DefaultTransitions();
    }

    /**
     * Requests a mode. It is committed, and then announced exactly once,
     * only when the transition is allowed and the registry (if any) knows
     * the target; otherwise nothing changes. `accepted` reports which.
     */
    method SetMode(mode: AppMode) returns (accepted: bool)
      requires Valid()
      modifies this
      ensures Valid()
      ensures accepted == SetModeAccepted(old(currentMode), allowedTransitions, registry, mode)
      ensures currentMode == (if accepted then mode else old(currentMode))
      ensures broadcasts == (if accepted then old(broadcasts) + [mode] else old(broadcasts))
      ensures registry == old(registry) && allowedTransitions == old(allowedTransitions)
    {
      if !CanTransition(currentMode, allowedTransitions, mode) {
        return false;
      }
      if registry.Some? && FindMode(registry.value, mode).None? {
        return false;
      }
      currentMode := mode;
      broadcasts := broadcasts + [currentMode];
      return true;
    }

    /** The registry entry of the current mode, if there is a registry and it has one. */
    function GetCurrentModeEntry(): (r: Option<AppModeEntry>)
      reads this
      ensures registry.None? ==> r.None?
      ensures r.Some? ==> r.value.mode == currentMode && r.value in registry.value
      ensures registry.Some? && (exists i :: 0 <= i < |registry.value| && registry.value[i].mode == currentMode) ==> r.Some?
    {
      if registry.Some? then FindMode(registry.value, currentMode) else None
    }
  }

  /**
   * A fresh subsystem starts in mode None, which has no row and may move
   * anywhere; once in MainMenu the default table refuses a direct jump to
   * Runtime, while InGame and then Runtime are both committed, provided the
   * registry lists the three modes.
   */
  method DefaultTableWalk(modes: seq<AppModeEntry>) returns (toRuntime: bool, toInGame: bool, thenRuntime: bool)
    requires FindMode(modes, MainMenu).Some? && FindMode(modes, InGame).Some? && FindMode(modes, Runtime).Some?
    ensures !toRuntime && toInGame && thenRuntime
  {
    var manager := new ModeManagerSubsystem();
    manager.Initialize(Some(modes));
    DefaultTableSteps(manager.allowedTransitions, Some(modes));
    var toMenu := manager.SetMode(MainMenu);
    toRuntime := manager.SetMode(Runtime);
    toInGame := manager.SetMode(InGame);
    thenRuntime := manager.SetMode(Runtime);
  }

  /** The steps of DefaultTableWalk, on the default table over a registry listing the three modes. */
  lemma DefaultTableSteps(table: TransitionTable, registry: Option<seq<AppModeEntry>>)
    requires table == map[] + DefaultTransitions()
    requires registry.Some? ==>
               FindMode(registry.value, MainMenu).Some? && FindMode(registry.value, InGame).Some? &&
               FindMode(registry.value, Runtime).Some?
    ensures SetModeAccepted(NoMode, table, registry, MainMenu)
    ensures !SetModeAccepted(MainMenu, table, registry, Runtime)
    ensures SetModeAccepted(MainMenu, table, registry, InGame)
    ensures SetModeAccepted(InGame, table, registry, Runtime)
  {
    assert table == DefaultTransitions();
  }
}
