/**
 * The game mode: holds the application state, announces each change, and
 * asks the mode manager for the mode that belongs to the new state. A
 * guard flag stops a state change made from inside that request (by a
 * listener of the mode-changed event) from issuing a second request.
 */
module TwinGameMode {
  import opened TwinTypes
  import opened AppModeRegistry
  import opened ModeManager

  /** The mode an application state asks for; None, Loading and Paused ask for none. */
  function ModeForState(s: AppState): (r: Option<AppMode>)
    ensures s == Explore <==> r == Some(InGame)
    ensures s == Simulation <==> r == Some(Runtime)
    ensures s == Edit <==> r == Some(Editor)
    ensures r.None? <==> s == NoState || s == Loading || s == Paused
  {
    match s
    case Explore => Some(InGame)
    case Simulation => Some(Runtime)
    case Edit => Some(Editor)
    case _ => None
  }

  class GameMode {
    var currentAppState: AppState
    /** The re-entrancy guard around the mode request. */
    var updatingMode: bool
    /** The mode manager, when the game instance has one. */
    const modeMgr: ModeManagerSubsystem?
    /** Every state announced through the state-changed event, in order. */
    ghost var stateBroadcasts: seq<AppState>
    /** Every mode requested from the mode manager, in order. */
    ghost var modeRequests: seq<AppMode>

    ghost predicate Valid()
      reads this, modeMgr
    {
      modeMgr != null ==> modeMgr.Valid()
    }

    /** A game mode starts in Explore with the guard clear. */
    constructor(modeMgr: ModeManagerSubsystem?)
      requires modeMgr != null ==> modeMgr.Valid()
      ensures Valid()
      ensures currentAppState == Explore && !updatingMode && this.modeMgr == modeMgr
      ensures stateBroadcasts == [] && modeRequests == []
    {
      currentAppState := Explore;
      updatingMode := false;
      this.modeMgr := modeMgr;
      stateBroadcasts := [];
      modeRequests := [];
    }

    function GetCurrentAppState(): AppState
      reads this
    {
      currentAppState
    }

    /**
     * Whether applying `newState` now would ask the mode manager for a
     * mode: the state changes, there is a manager, the guard is clear and
     * the state maps to a mode.
     */
    ghost predicate RequestsMode(newState: AppState)
      reads this
    {
      currentAppState != newState && modeMgr != null && !updatingMode && ModeForState(newState).Some?
    }

    /**
     * Applies a state. The same state is a no-op. Otherwise the state is
     * committed and announced, and, unless the guard is set, the mapped mode
     * is requested with the guard set. `reentry` is the state a listener of
     * the mode-changed event applies during that request, if any; it runs
     * only when the request is committed (and so announced), and being
     * guarded it requests no mode of its own.
     */
    method ApplyAppState(newState: AppState, reentry: Option<AppState>)
      requires Valid()
      modifies this, modeMgr
      ensures Valid()
      ensures updatingMode == old(updatingMode)
      ensures modeMgr != null ==> modeMgr.registry == old(modeMgr.registry) &&
                                  modeMgr.allowedTransitions == old(modeMgr.allowedTransitions)
      ensures old(currentAppState) == newState ==>
                currentAppState == newState && stateBroadcasts == old(stateBroadcasts) &&
                modeRequests == old(modeRequests) &&
                (modeMgr != null ==> modeMgr.currentMode == old(modeMgr.currentMode))
      ensures old(currentAppState) != newState && !old(RequestsMode(newState)) ==>
                currentAppState == newState && stateBroadcasts == old(stateBroadcasts) + [newState] &&
                modeRequests == old(modeRequests) &&
                (modeMgr != null ==> modeMgr.currentMode == old(modeMgr.currentMode))
      ensures old(RequestsMode(newState)) ==>
                var target := ModeForState(newState).value;
                var accepted := SetModeAccepted(old(modeMgr.currentMode), modeMgr.allowedTransitions,
                                                modeMgr.registry, target);
                var nested := accepted && reentry.Some? && reentry.value != newState;
                modeRequests == old(modeRequests) + [target] &&
                modeMgr.currentMode == (if accepted then target else old(modeMgr.currentMode)) &&
                stateBroadcasts == old(stateBroadcasts) + [newState] + (if nested then [reentry.value] else []) &&
                currentAppState == (if nested then reentry.value else newState)
      decreases if reentry.Some? then 1 else 0
    {
      if currentAppState == newState {
        return;
      }
      currentAppState := newState;
      stateBroadcasts := stateBroadcasts + [newState];
      if modeMgr != null && !updatingMode {
        updatingMode := true;
        var target := ModeForState(newState);
        if target.Some? {
          modeRequests := modeRequests + [target.value];
          var accepted := modeMgr.SetMode(target.value);
          if accepted && reentry.Some? {
            ApplyAppState(reentry.value, None);
          }
        }
        updatingMode := false;
      }
    }

    /** BeginPlay applies Explore, which a fresh game mode is already in. */
    method BeginPlay()
      requires Valid()
      modifies this, modeMgr
      ensures Valid()
      ensures old(currentAppState) == Explore ==>
                currentAppState == Explore && stateBroadcasts == old(stateBroadcasts) && modeRequests == old(modeRequests) &&
                (modeMgr != null ==> modeMgr.currentMode == old(modeMgr.currentMode))
      ensures old(currentAppState) != Explore ==> currentAppState == Explore
    {
      ApplyAppState(Explore, None);
    }
  }

  /** BeginPlay on a fresh game mode neither announces a state nor moves the mode manager out of None. */
  method FreshBeginPlay() returns (state: AppState, mode: AppMode)
    ensures state == Explore && mode == NoMode
  {
    var mgr := new ModeManagerSubsystem();
    var gm := new GameMode(mgr);
    gm.BeginPlay();
    state := gm.GetCurrentAppState();
    mode := mgr.currentMode;
  }

  /**
   * From mode None, applying Simulation asks for Runtime, which is
   * committed; a listener that then applies Edit changes the state but,
   * held back by the guard, asks for no mode, so state and mode end out of
   * step (Edit and Runtime) and the guard is clear again.
   */
  method GuardedReentry(modes: seq<AppModeEntry>) returns (state: AppState, mode: AppMode, guardSet: bool)
    requires exists i :: 0 <= i < |modes| && modes[i].mode == Runtime
    ensures state == Edit && mode == Runtime && !guardSet
  {
    var mgr := new ModeManagerSubsystem();
    mgr.Initialize(Some(modes));
    var gm := new GameMode(mgr);
    gm.ApplyAppState(Simulation, Some(Edit));
    state := gm.GetCurrentAppState();
    mode := mgr.currentMode;
    guardSet := gm.updatingMode;
  }
}
