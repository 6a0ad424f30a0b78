/**
 * The scene manager subsystem: loads and unloads the streamed levels of
 * named scenes listed in a scene registry, remembers the current scene,
 * and switches scenes through a queue: the next scene is loaded by a
 * handler bound to the scene-unloaded event for the duration of one
 * switch. The event is delivered synchronously, so a switch completes
 * within the call. Scene names are names: compared without regard to
 * case, with the empty name and "None" both standing for no scene.
 */
module SceneManager {
  import opened TwinTypes

  /** One registry row; `levelName` is the asset name of the streamed level. */
  datatype SceneEntry = SceneEntry(sceneName: string, levelName: string)

  /** Level streaming requests and the two scene events, in the order they happen. */
  datatype SceneEvent =
    | StreamLoad(level: string, makeVisible: bool)
    | StreamUnload(level: string)
    | SceneLoaded(name: string)
    | SceneUnloaded(name: string)

  /** Whether a name is the none name. */
  predicate IsNoneName(n: string)
  {
    n == "" || SameName(n, "None")
  }

  /** The first registry entry whose name matches, or None. */
  function FindEntry(scenes: seq<SceneEntry>, name: string): (r: Option<SceneEntry>)
    ensures r.Some? <==> exists i :: 0 <= i < |scenes| && SameName(scenes[i].sceneName, name)
    ensures r.Some? ==> r.value in scenes && SameName(r.value.sceneName, name)
  {
    if scenes == [] then None
    else if SameName(scenes[0].sceneName, name) then Some(scenes[0])
    else
      var r := FindEntry(scenes[1..], name);
      assert forall i :: 0 < i < |scenes| ==> scenes[i] == scenes[1..][i - 1];
      r
  }

  /** FindEntry returns the earliest match, even when several entries match. */
  lemma {:induction false} FindEntryIsFirstMatch(scenes: seq<SceneEntry>, name: string, i: nat)
    requires i < |scenes| && SameName(scenes[i].sceneName, name)
    requires forall j :: 0 <= j < i ==> !SameName(scenes[j].sceneName, name)
    ensures FindEntry(scenes, name) == Some(scenes[i])
  {
    if i > 0 {
      FindEntryIsFirstMatch(scenes[1..], name, i - 1);
    }
  }

  /** Matching by name is symmetric, so a scene matches under either spelling. */
  lemma {:induction false} FindEntrySameName(scenes: seq<SceneEntry>, a: string, b: string)
    requires SameName(a, b)
    ensures FindEntry(scenes, a) == FindEntry(scenes, b)
  {
    if scenes != [] {
      FindEntrySameName(scenes[1..], a, b);
    }
  }

  class SceneManagerSubsystem {
    /** The scene registry; None before Initialize. */
    var registry: Option<seq<SceneEntry>>
    var currentScene: string
    var sceneQueue: seq<string>
    /** Whether the switch handler is bound to the scene-unloaded event. */
    var unloadHandlerBound: bool
    ghost var events: seq<SceneEvent>

    /** FindSceneEntry: a lookup in the registry, failing when there is none. */
    function FindSceneEntry(name: string): (r: Option<SceneEntry>)
      reads this
      ensures registry.None? ==> r.None?
      ensures registry.Some? ==> r == FindEntry(registry.value, name)
    {
      if registry.None? then None else FindEntry(registry.value, name)
    }

    /** The current scene is none or a scene the registry lists. */
    ghost predicate Settled()
      reads this
    {
      !IsNoneName(currentScene) ==> FindSceneEntry(currentScene).Some?
    }

    /** Between calls, also: no switch is pending. */
    ghost predicate Valid()
      reads this
    {
      Settled() && sceneQueue == [] && !unloadHandlerBound
    }

    constructor()
      ensures Valid()
      ensures registry == None && currentScene == "None" && sceneQueue == [] && !unloadHandlerBound && events == []
    {
      registry := None;
      currentScene := "None";
      sceneQueue := [];
      unloadHandlerBound := false;
      events := [];
    }

    /** Installs the registry, or an empty one when `loaded` is None (the asset is missing). */
    method Initialize(loaded: Option<seq<SceneEntry>>)
      requires Valid() && IsNoneName(currentScene)
      modifies this
      ensures Valid()
      ensures registry == Some(if loaded.Some? then loaded.value else [])
      ensures currentScene == old(currentScene) && events == old(events)
    {
      registry := if loaded.Some? then loaded else Some([]);
    }

    function GetCurrentScene(): string
      reads this
    {
      currentScene
    }

    /** A registered scene is streamed in, becomes current and is announced; an unknown one changes nothing. */
    method LoadScene(name: string, makeVisible: bool)
      requires Settled()
      modifies this
      ensures Settled()
      ensures var e := FindSceneEntry(name);
              if e.Some? then
                currentScene == name && events == old(events) + [StreamLoad(e.value.levelName, makeVisible), SceneLoaded(name)]
              else
                currentScene == old(currentScene) && events == old(events)
      ensures registry == old(registry) && sceneQueue == old(sceneQueue) && unloadHandlerBound == old(unloadHandlerBound)
    {
      var entry := FindSceneEntry(name);
      if entry.Some? {
        events := events + [StreamLoad(entry.value.levelName, makeVisible)];
        currentScene := name;
        events := events + [SceneLoaded(name)];
      }
    }

    /** Takes the next queued scene, if any, and loads it. */
    method ProcessNextSceneInQueue()
      requires Settled()
      modifies this
      ensures Settled()
      ensures old(sceneQueue) == [] ==> sceneQueue == [] && currentScene == old(currentScene) && events == old(events)
      ensures old(sceneQueue) != [] ==>
                var next := old(sceneQueue)[0];
                var e := FindSceneEntry(next);
                sceneQueue == old(sceneQueue)[1..] &&
                currentScene == (if e.Some? then next else old(currentScene)) &&
                events == old(events) + (if e.Some? then [StreamLoad(e.value.levelName, true), SceneLoaded(next)] else [])
      ensures registry == old(registry) && unloadHandlerBound == old(unloadHandlerBound)
    {
      if sceneQueue != [] {
        var next := sceneQueue[0];
        sceneQueue := sceneQueue[1..];
        LoadScene(next, true);
      }
    }

    /** The switch handler: unbinds itself and loads the next queued scene. */
    method OnPreviousSceneUnloaded(unloadedScene: string)
      requires Settled()
      modifies this
      ensures Settled()
      ensures !unloadHandlerBound
      ensures old(sceneQueue) == [] ==> sceneQueue == [] && currentScene == old(currentScene) && events == old(events)
      ensures old(sceneQueue) != [] ==>
                var next := old(sceneQueue)[0];
                var e := FindSceneEntry(next);
                sceneQueue == old(sceneQueue)[1..] &&
                currentScene == (if e.Some? then next else old(currentScene)) &&
                events == old(events) + (if e.Some? then [StreamLoad(e.value.levelName, true), SceneLoaded(next)] else [])
      ensures registry == old(registry)
    {
      unloadHandlerBound := false;
      ProcessNextSceneInQueue();
    }

    /**
     * A registered scene is streamed out and announced, and stops being
     * current if it was; the announcement runs the switch handler when it
     * is bound. An unknown scene changes nothing.
     */
    method UnloadScene(name: string)
      requires Settled()
      modifies this
      ensures Settled()
      ensures registry == old(registry)
      ensures FindSceneEntry(name).None? ==>
                currentScene == old(currentScene) && events == old(events) &&
                sceneQueue == old(sceneQueue) && unloadHandlerBound == old(unloadHandlerBound)
      ensures FindSceneEntry(name).Some? && !old(unloadHandlerBound) ==>
                currentScene == (if SameName(old(currentScene), name) then "None" else old(currentScene)) &&
                events == old(events) + [StreamUnload(FindSceneEntry(name).value.levelName), SceneUnloaded(name)] &&
                sceneQueue == old(sceneQueue) && !unloadHandlerBound
      ensures FindSceneEntry(name).Some? && old(unloadHandlerBound) && old(sceneQueue) != [] ==>
                var next := old(sceneQueue)[0];
                var e := FindSceneEntry(next);
                !unloadHandlerBound && sceneQueue == old(sceneQueue)[1..] &&
                currentScene == (if e.Some? then next
                                 else if SameName(old(currentScene), name) then "None" else old(currentScene)) &&
                events == old(events) + [StreamUnload(FindSceneEntry(name).value.levelName), SceneUnloaded(name)] +
                          (if e.Some? then [StreamLoad(e.value.levelName, true), SceneLoaded(next)] else [])
    {
      var entry := FindSceneEntry(name);
      if entry.Some? {
        events := events + [StreamUnload(entry.value.levelName)];
        if SameName(currentScene, name) {
          currentScene := "None";
        }
        events := events + [SceneUnloaded(name)];
        if unloadHandlerBound {
          OnPreviousSceneUnloaded(name);
        }
      }
    }

    /**
     * Queues the scene and, with a current scene, binds the handler and
     * unloads the current scene (whose announcement loads the queued one);
     * with none, loads the queued scene directly. Either way the queue is
     * drained, the handler unbound, and the requested scene is current when
     * the registry lists it; otherwise no scene is.
     */
    method SwitchScene(name: string)
      requires Valid()
      modifies this
      ensures Valid()
      ensures registry == old(registry)
      ensures FindSceneEntry(name).Some? ==> currentScene == name
      ensures FindSceneEntry(name).None? ==> IsNoneName(currentScene)
      ensures var loads := if FindSceneEntry(name).Some?
                           then [StreamLoad(FindSceneEntry(name).value.levelName, true), SceneLoaded(name)]
                           else [];
              if IsNoneName(old(currentScene)) then events == old(events) + loads
              else events == old(events) + [StreamUnload(FindSceneEntry(old(currentScene)).value.levelName),
                                            SceneUnloaded(old(currentScene))] + loads
    {
      sceneQueue := sceneQueue + [name];
      if !IsNoneName(currentScene) {
        unloadHandlerBound := true;
        UnloadScene(currentScene);
      } else {
        ProcessNextSceneInQueue();
      }
    }
  }

  /**
   * With two registered scenes: a switch from no scene loads the first
   * (named in another case), a second switch replaces it, and a switch to
   * an unknown scene unloads the current one and leaves none, with the
   * queue drained each time.
   */
  method SwitchThrough() returns (first: string, second: string, third: string, pending: nat)
    ensures first == "harbour" && second == "Plant" && IsNoneName(third) && pending == 0
  {
    var scenes := new SceneManagerSubsystem();
    scenes.Initialize(Some([SceneEntry("Harbour", "L_Harbour"), SceneEntry("Plant", "L_Plant")]));
    assert SameName("Harbour", "harbour");
    scenes.SwitchScene("harbour");
    first := scenes.GetCurrentScene();
    assert SameName("Plant", "Plant");
    scenes.SwitchScene("Plant");
    second := scenes.GetCurrentScene();
    assert Fold("Harbour")[0] != Fold("Unknown")[0] && |Fold("Plant")| != |Fold("Unknown")|;
    scenes.SwitchScene("Unknown");
    third := scenes.GetCurrentScene();
    pending := |scenes.sceneQueue|;
  }
}
