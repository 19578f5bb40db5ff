/**
 * The bookkeeping state of a Zinc renderer (the `Renderer` closure): the
 * registry of named scenes, the current scene and the ordered list of
 * additional active scenes, the three.js group that mirrors that list, the
 * table of pre-render callbacks, the play rate, and the cached size and
 * offset of the drawing surface.
 *
 * Calls into the scenes and the animation loop are not modelled as code;
 * each is recorded, in order, in the ghost log `events`.
 */
module ZincRenderer {
  import opened Scenes
  import opened SceneLists
  import opened Resize

  /** A pre-render callback function, known by identity. */
  class PreRenderCallback {
  }

  /** A call the renderer makes into a collaborator. */
  datatype Event =
    | InteractiveControlSet(scene: Scene, enabled: bool)  // scene.setInteractiveControlEnable(enabled)
    | AdditionalScenesGroupSet(scene: Scene)               // scene.setAdditionalScenesGroup(scenesGroup)
    | SceneResized(scene: Scene)                           // scene.onWindowResize()
    | ScenesCleared(scenes: set<Scene>)                    // clearAll() on every registered scene
    | AnimationStopped                                     // stopAnimate()

  /** The calls `setCurrentScene` makes when it switches from `previous` to `next`. */
  function SwitchEvents(previous: Scene?, next: Scene): (es: seq<Event>)
    ensures |es| == if previous == null then 3 else 4
    ensures previous != null ==> es[0] == InteractiveControlSet(previous, false)
    ensures es[|es| - 3..] == [InteractiveControlSet(next, true), AdditionalScenesGroupSet(next), SceneResized(next)]
  {
    (if previous == null then [] else [InteractiveControlSet(previous, false)])
      + [InteractiveControlSet(next, true), AdditionalScenesGroupSet(next), SceneResized(next)]
  }

  class Renderer {
    var currentScene: Scene?
    var sceneMap: map<string, Scene>
    var additionalActiveScenes: seq<Scene>
    var scenesGroup: seq<ThreeScene>
    var preRenderCallbackFunctions: map<int, PreRenderCallback>
    var preRenderCallbackFunctionsId: nat
    var playRate: real
    var currentSize: Size
    var currentOffset: Offset
    var rendererReady: bool  // the WebGL renderer has been created
    var rendererSize: Size   // the WebGL renderer's own size, `renderer.getSize()`
    ghost var events: seq<Event>

    /**
     * The renderer's invariant: every registered scene carries the name it
     * is registered under; the additional scenes hold no duplicate and not
     * the current scene; the group mirrors them; every callback id was
     * handed out already.
     */
    ghost predicate Valid()
      reads this
    {
      && (forall name | name in sceneMap :: sceneMap[name].sceneName == name)
      && ActiveLists(currentScene, additionalActiveScenes, scenesGroup)
      && (forall id | id in preRenderCallbackFunctions :: 1 <= id <= preRenderCallbackFunctionsId)
    }

    /** The scene is rendered: it is the current scene or an additional one. */
    ghost predicate IsActive(s: Scene?)
      reads this
    {
      s == currentScene || s in additionalActiveScenes
    }

    constructor ()
      ensures Valid()
      ensures currentScene == null && sceneMap == map[]
      ensures additionalActiveScenes == [] && scenesGroup == []
      ensures preRenderCallbackFunctions == map[] && preRenderCallbackFunctionsId == 0
      ensures playRate == 500.0
      ensures currentSize == Size(0, 0) && currentOffset == Offset(0.0, 0.0)
      ensures !rendererReady && rendererSize == Size(0, 0) && events == []
    {
      currentScene := null;
      sceneMap := map[];
      additionalActiveScenes := [];
      scenesGroup := [];
      preRenderCallbackFunctions := map[];
      preRenderCallbackFunctionsId := 0;
      playRate := 500.0;
      currentSize := Size(0, 0);
      currentOffset := Offset(0.0, 0.0);
      rendererReady := false;
      rendererSize := Size(0, 0);
      events := [];
    }

    /**
     * The bookkeeping of `initialiseVisualisation`: the WebGL renderer now
     * exists, with its own size `ownSize` (chosen by three.js, not part of
     * this model), and a scene "default" is created and made current. When
     * "default" is already registered, `createScene` refuses and nothing
     * else changes.
     */
    method InitialiseVisualisation(surface: Surface, ownSize: Size)
      requires Valid()
      modifies this`rendererReady, this`rendererSize, this`sceneMap, this`currentScene,
        this`additionalActiveScenes, this`scenesGroup, this`currentSize, this`currentOffset, this`events
      ensures Valid() && rendererReady
      ensures "default" in old(sceneMap) ==>
        && sceneMap == old(sceneMap) && currentScene == old(currentScene)
        && additionalActiveScenes == old(additionalActiveScenes) && scenesGroup == old(scenesGroup)
        && currentSize == old(currentSize) && currentOffset == old(currentOffset)
        && rendererSize == ownSize && events == old(events)
      ensures "default" !in old(sceneMap) ==>
        && currentScene != null && fresh(currentScene) && currentScene.sceneName == "default"
        && sceneMap == old(sceneMap)["default" := currentScene]
        && additionalActiveScenes == old(additionalActiveScenes) && scenesGroup == old(scenesGroup)
        && rendererSize == AppliedSize(ownSize, surface) && currentSize == rendererSize
        && currentOffset == OffsetAfterResize(true, old(currentOffset), surface)
        && events == old(events) + SwitchEvents(old(currentScene), currentScene)
    {
      rendererReady := true;
      rendererSize := ownSize;
      var scene := CreateScene("default");
      SetCurrentScene(scene, surface);
    }

    /** `getCurrentScene`: the scene on display, which is never also an additional scene. */
    method GetCurrentScene() returns (s: Scene?)
      requires Valid()
      ensures s == currentScene
      ensures s != null ==> s !in additionalActiveScenes && IsActive(s)
    {
      s := currentScene;
    }

    /**
     * `setCurrentScene`: a scene is taken out of the additional scenes and
     * put on display; the previous scene loses interactive control, the new
     * one gains it and is handed the group of additional scenes, and the
     * surface is resized. No scene (undefined) changes nothing.
     */
    method SetCurrentScene(s: Scene?, surface: Surface)
      requires Valid()
      modifies this`currentScene, this`additionalActiveScenes, this`scenesGroup,
        this`currentSize, this`currentOffset, this`rendererSize, this`events
      ensures Valid()
      ensures s == null ==>
        && currentScene == old(currentScene)
        && additionalActiveScenes == old(additionalActiveScenes) && scenesGroup == old(scenesGroup)
        && currentSize == old(currentSize) && currentOffset == old(currentOffset)
        && rendererSize == old(rendererSize) && events == old(events)
      ensures s != null ==>
        && currentScene == s && IsActive(s) && s !in additionalActiveScenes
        && additionalActiveScenes == Without<Scene>(old(additionalActiveScenes), s)
        && rendererSize == (if rendererReady then AppliedSize(old(rendererSize), surface) else old(rendererSize))
        && currentSize == (if rendererReady then rendererSize else old(currentSize))
        && currentOffset == OffsetAfterResize(rendererReady, old(currentOffset), surface)
        && events == old(events) + SwitchEvents(old(currentScene), s)
    {
      if s != null {
        ghost var log := events;
        RemoveActiveScene(s);
        var oldScene := currentScene;
        currentScene := s;
        assert Valid();
        if oldScene != null {
          events := events + [InteractiveControlSet(oldScene, false)];
        }
        events := events + [InteractiveControlSet(s, true), AdditionalScenesGroupSet(s)];
        assert events + [SceneResized(s)] == log + SwitchEvents(oldScene, s);
        OnWindowResize(surface);
      }
    }

    /** `getSceneByName`: the scene registered under `name`, or none; a found scene carries that name. */
    method GetSceneByName(name: string) returns (s: Scene?)
      requires Valid()
      ensures name in sceneMap ==> s == sceneMap[name]
      ensures name !in sceneMap ==> s == null
      ensures s != null ==> s.sceneName == name
    {
      if name in sceneMap {
        s := sceneMap[name];
      } else {
        s := null;
      }
    }

    /**
     * `createScene`: refuses a name that is already registered; otherwise
     * registers a new scene under `name`, named `name`, and no other entry
     * changes.
     */
    method CreateScene(name: string) returns (s: Scene?)
      requires Valid()
      modifies this`sceneMap
      ensures Valid()
      ensures s == null <==> name in old(sceneMap)
      ensures s == null ==> sceneMap == old(sceneMap)
      ensures s != null ==> fresh(s) && s.sceneName == name && sceneMap == old(sceneMap)[name := s]
    {
      if name in sceneMap {
        return null;
      }
      s := new Scene(name);
      sceneMap := sceneMap[name := s];
    }

    /**
     * `onWindowResize`: tells the current scene, and once the WebGL
     * renderer exists gives it the measured size when there is a container
     * or canvas, then caches its size and, when a rectangle was measured,
     * the rectangle's corner.
     */
    method OnWindowResize(surface: Surface)
      requires Valid() && currentScene != null
      modifies this`currentSize, this`currentOffset, this`rendererSize, this`events
      ensures Valid()
      ensures rendererSize == if rendererReady then AppliedSize(old(rendererSize), surface) else old(rendererSize)
      ensures currentSize == if rendererReady then rendererSize else old(currentSize)
      ensures currentOffset == OffsetAfterResize(rendererReady, old(currentOffset), surface)
      ensures events == old(events) + [SceneResized(currentScene)]
    {
      events := events + [SceneResized(currentScene)];
      if rendererReady {
        if surface.hasElement {
          rendererSize := Size(surface.width, surface.height);
        }
        if surface.rect.Some? {
          currentOffset := Offset(surface.rect.value.left, surface.rect.value.top);
        }
        currentSize := rendererSize;
      }
    }

    /**
     * `resizeIfRequired`: resizes exactly when the measured width, height,
     * left or top differs from the cached size and offset.
     */
    method ResizeIfRequired(surface: Surface) returns (resized: bool)
      requires Valid()
      requires currentScene != null || !ResizeRequired(currentSize, currentOffset, surface)
      modifies this`currentSize, this`currentOffset, this`rendererSize, this`events
      ensures Valid()
      ensures resized == ResizeRequired(old(currentSize), old(currentOffset), surface)
      ensures resized ==>
        && rendererSize == (if rendererReady then AppliedSize(old(rendererSize), surface) else old(rendererSize))
        && currentSize == (if rendererReady then rendererSize else old(currentSize))
        && currentOffset == OffsetAfterResize(rendererReady, old(currentOffset), surface)
        && events == old(events) + [SceneResized(currentScene)]
      ensures !resized ==>
        && currentSize == old(currentSize) && currentOffset == old(currentOffset)
        && rendererSize == old(rendererSize) && events == old(events)
    {
      var left, top := 0.0, 0.0;
      if surface.rect.Some? {
        left, top := surface.rect.value.left, surface.rect.value.top;
      }
      resized := currentSize.width != surface.width || currentSize.height != surface.height
        || left != currentOffset.left || top != currentOffset.top;
      if resized {
        OnWindowResize(surface);
      }
    }

    /** `addPreRenderCallbackFunction`: stores the callback under the next id, never one used before. */
    method AddPreRenderCallbackFunction(callback: PreRenderCallback) returns (id: int)
      requires Valid()
      modifies this`preRenderCallbackFunctions, this`preRenderCallbackFunctionsId
      ensures Valid()
      ensures id == old(preRenderCallbackFunctionsId) + 1 && preRenderCallbackFunctionsId == id
      ensures forall k | k in old(preRenderCallbackFunctions) :: k < id
      ensures preRenderCallbackFunctions == old(preRenderCallbackFunctions)[id := callback]
    {
      preRenderCallbackFunctionsId := preRenderCallbackFunctionsId + 1;
      preRenderCallbackFunctions := preRenderCallbackFunctions[preRenderCallbackFunctionsId := callback];
      id := preRenderCallbackFunctionsId;
    }

    /** `removePreRenderCallbackFunction`: deletes that id only; an unknown id changes nothing. */
    method RemovePreRenderCallbackFunction(id: int)
      requires Valid()
      modifies this`preRenderCallbackFunctions
      ensures Valid()
      ensures id !in preRenderCallbackFunctions
      ensures preRenderCallbackFunctions == old(preRenderCallbackFunctions) - {id}
      ensures id !in old(preRenderCallbackFunctions) ==> preRenderCallbackFunctions == old(preRenderCallbackFunctions)
    {
      if id in preRenderCallbackFunctions {
        preRenderCallbackFunctions := preRenderCallbackFunctions - {id};
      }
    }

    /** `getPlayRate`. */
    method GetPlayRate() returns (rate: real)
      ensures rate == playRate
    {
      rate := playRate;
    }

    /** `setPlayRate`: only the play rate changes. */
    method SetPlayRate(rate: real)
      modifies this`playRate
      ensures playRate == rate
    {
      playRate := rate;
    }

    /** `isSceneActive`: the scene is the current one or one of the additional scenes. */
    method IsSceneActive(s: Scene?) returns (active: bool)
      ensures active == IsActive(s)
    {
      if currentScene == s {
        return true;
      }
      var i := 0;
      while i < |additionalActiveScenes|
        invariant 0 <= i <= |additionalActiveScenes|
        invariant s !in additionalActiveScenes[..i]
      {
        if additionalActiveScenes[i] == s {
          return true;
        }
        i := i + 1;
      }
      assert additionalActiveScenes[..i] == additionalActiveScenes;
      return false;
    }

    /**
     * `addActiveScene`: an active scene (current or additional) is left
     * alone; any other is appended, and its three.js scene is added to the
     * group.
     */
    method AddActiveScene(s: Scene)
      requires Valid()
      modifies this`additionalActiveScenes, this`scenesGroup
      ensures Valid()
      ensures IsActive(s)
      ensures old(IsActive(s)) ==>
        additionalActiveScenes == old(additionalActiveScenes) && scenesGroup == old(scenesGroup)
      ensures !old(IsActive(s)) ==>
        && additionalActiveScenes == old(additionalActiveScenes) + [s]
        && scenesGroup == old(scenesGroup) + [s.ThreeJSScene()]
    {
      var active := IsSceneActive(s);
      if !active {
        AppendKeepsActiveLists(currentScene, additionalActiveScenes, scenesGroup, s);
        additionalActiveScenes := additionalActiveScenes + [s];
        scenesGroup := scenesGroup + [s.ThreeJSScene()];
      }
    }

    /**
     * `removeActiveScene`: deletes the scene's one occurrence from the
     * additional scenes, keeping the others in order, and its three.js
     * scene from the group; a scene that is not there changes nothing.
     */
    method RemoveActiveScene(s: Scene?)
      requires Valid()
      modifies this`additionalActiveScenes, this`scenesGroup
      ensures Valid()
      ensures s == null ==>
        additionalActiveScenes == old(additionalActiveScenes) && scenesGroup == old(scenesGroup)
      ensures s != null ==>
        && additionalActiveScenes == Without<Scene>(old(additionalActiveScenes), s)
        && s !in additionalActiveScenes
        && scenesGroup == Without(old(scenesGroup), s.ThreeJSScene())
      ensures forall i | 0 <= i < |old(additionalActiveScenes)| && old(additionalActiveScenes)[i] == s ::
        additionalActiveScenes == old(additionalActiveScenes)[..i] + old(additionalActiveScenes)[i + 1..]
    {
      var i := 0;
      while i < |additionalActiveScenes|
        invariant 0 <= i <= |additionalActiveScenes|
        invariant additionalActiveScenes == old(additionalActiveScenes)
        invariant scenesGroup == old(scenesGroup)
        invariant s !in additionalActiveScenes[..i]
      {
        var item := additionalActiveScenes[i];
        if item == s {
          WithoutAt(additionalActiveScenes, item, i);
          RemoveKeepsActiveLists(currentScene, additionalActiveScenes, scenesGroup, item);
          ghost var before := additionalActiveScenes;
          additionalActiveScenes := additionalActiveScenes[..i] + additionalActiveScenes[i + 1..];
          assert forall j | 0 <= j < |before| && before[j] == item :: j == i;
          scenesGroup := Without(scenesGroup, item.ThreeJSScene());
          return;
        }
        i := i + 1;
      }
      assert additionalActiveScenes[..i] == additionalActiveScenes;
      if s != null {
        assert s.ThreeJSScene() !in scenesGroup;
      }
    }

    /** `clearAllActiveScene`: empties the additional scenes and, one by one, the group. */
    method ClearAllActiveScene()
      requires Valid()
      modifies this`additionalActiveScenes, this`scenesGroup
      ensures Valid()
      ensures additionalActiveScenes == [] && scenesGroup == []
    {
      var i := 0;
      while i < |additionalActiveScenes|
        invariant 0 <= i <= |additionalActiveScenes|
        invariant additionalActiveScenes == old(additionalActiveScenes)
        invariant scenesGroup == Handles(additionalActiveScenes[i..])
      {
        var rest := additionalActiveScenes[i..];
        assert rest[1..] == additionalActiveScenes[i + 1..];
        scenesGroup := Without(scenesGroup, additionalActiveScenes[i].ThreeJSScene());
        i := i + 1;
      }
      additionalActiveScenes := [];
    }

    /**
     * The first half of `dispose`: clears every registered scene, forgets
     * them all and the additional scenes, stops the animation, and forgets
     * the callbacks and restarts their ids. The current scene is kept.
     */
    method ResetForDispose()
      requires Valid()
      modifies this`sceneMap, this`additionalActiveScenes, this`scenesGroup,
        this`preRenderCallbackFunctions, this`preRenderCallbackFunctionsId, this`events
      ensures Valid()
      ensures sceneMap == map[] && additionalActiveScenes == [] && scenesGroup == []
      ensures preRenderCallbackFunctions == map[] && preRenderCallbackFunctionsId == 0
      ensures events == old(events) + [ScenesCleared(old(sceneMap.Values)), AnimationStopped]
    {
      events := events + [ScenesCleared(sceneMap.Values)];
      sceneMap := map[];
      additionalActiveScenes := [];
      scenesGroup := [];
      events := events + [AnimationStopped];
      preRenderCallbackFunctions := map[];
      preRenderCallbackFunctionsId := 0;
    }

    /**
     * `dispose`: resets the registry, the active scenes and the callbacks,
     * then registers a fresh "default" scene and makes it current.
     */
    method Dispose(surface: Surface)
      requires Valid()
      modifies this`sceneMap, this`currentScene, this`additionalActiveScenes, this`scenesGroup,
        this`preRenderCallbackFunctions, this`preRenderCallbackFunctionsId,
        this`currentSize, this`currentOffset, this`rendererSize, this`events
      ensures Valid()
      ensures sceneMap.Keys == {"default"}
      ensures currentScene != null && currentScene == sceneMap["default"] && fresh(currentScene)
      ensures currentScene.sceneName == "default"
      ensures additionalActiveScenes == [] && scenesGroup == []
      ensures preRenderCallbackFunctions == map[] && preRenderCallbackFunctionsId == 0
      ensures rendererSize == if rendererReady then AppliedSize(old(rendererSize), surface) else old(rendererSize)
      ensures currentSize == if rendererReady then rendererSize else old(currentSize)
      ensures currentOffset == OffsetAfterResize(rendererReady, old(currentOffset), surface)
      ensures events == old(events) + [ScenesCleared(old(sceneMap.Values)), AnimationStopped]
        + SwitchEvents(old(currentScene), currentScene)
    {
      ResetForDispose();
      var scene := CreateScene("default");
      SetCurrentScene(scene, surface);
    }
  }

  /**
   * `createScene` followed by `getSceneByName`: a newly created scene is
   * found under its name, and whether or not `createScene` refused, a
   * scene carrying that name is registered afterwards.
   */
  method CreateThenGetSceneByName(r: Renderer, name: string) returns (created: Scene?, found: Scene?)
    requires r.Valid()
    modifies r`sceneMap
    ensures r.Valid()
    ensures created != null ==> found == created
    ensures found != null && found.sceneName == name
  {
    created := r.CreateScene(name);
    found := r.GetSceneByName(name);
  }

  /**
   * Two frames before the WebGL renderer exists: `onWindowResize` caches
   * nothing yet, so a pending resize is asked for by both frames, and the
   * current scene is told twice.
   */
  method ResizeTwiceBeforeInitialisation(r: Renderer, surface: Surface) returns (first: bool, second: bool)
    requires r.Valid() && !r.rendererReady && r.currentScene != null
    requires ResizeRequired(r.currentSize, r.currentOffset, surface)
    modifies r`currentSize, r`currentOffset, r`rendererSize, r`events
    ensures first && second
    ensures r.events == old(r.events) + [SceneResized(r.currentScene), SceneResized(r.currentScene)]
  {
    first := r.ResizeIfRequired(surface);
    second := r.ResizeIfRequired(surface);
  }
}
