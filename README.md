# Zinc renderer bookkeeping, in Dafny

This project models the bookkeeping inside ZincJS's `Renderer` (src/renderer.js). ZincJS is a WebGL viewer built on three.js. The renderer owns:

- a registry of named scenes (`sceneMap`);
- the scene on display (`currentScene`);
- an ordered list of additional active scenes, rendered with the current scene's viewport (`additionalActiveScenes`);
- a three.js group that holds the three.js scenes of that list (`scenesGroup`);
- a table of pre-render callbacks, keyed by an increasing id;
- the animation play rate;
- the size and offset of the drawing surface that it last applied.

The renderer's closure state becomes the class `ZincRenderer.Renderer`, and its methods update the fields in place. Every method keeps the invariant `Valid()`, which says:

- every registered scene carries the name it is registered under;
- the additional scenes hold no duplicate;
- the current scene is never an additional scene;
- `scenesGroup` is exactly the three.js scenes of the additional scenes, in order;
- every callback id in the table was already handed out.

`IsActive(s)` is the specification of `isSceneActive`: `s` is the current scene or an additional one.

Modules:

- `Scenes` (scenes.dfy): the scene identity, its name and its three.js scene.
- `SceneLists` (scene_lists.dfy): pure facts about removing from and appending to the additional-scene list and its mirror.
- `Resize` (resize.dfy): the measured surface and the resize rule.
- `ZincRenderer` (renderer.dfy): the renderer class.
- `SceneMapAsWritten` (scene_map_as_written.dfy): the duplicate-name test as the source writes it (see Findings).

Inputs and collaborators:

- What the renderer reads from the DOM on every call is a `Surface` parameter: the drawing width and height, the bounding rectangle when there is one, and whether there is a container or canvas at all.
- The WebGL renderer's own size, `renderer.getSize()`, is the field `rendererSize`. `initialiseVisualisation` creates the WebGL renderer with a size chosen by three.js; it is the parameter `ownSize`.
- Calls into scenes and into the animation loop are appended to the ghost log `events`: `setInteractiveControlEnable`, `setAdditionalScenesGroup`, the scene's `onWindowResize`, `clearAll` and `stopAnimate`.
- JavaScript `undefined` as a scene is Dafny's `null`.

## Model

| member | source | states |
|---|---|---|
| `ZincRenderer.Renderer.constructor` | src/renderer.js:14-38 | A new renderer has no WebGL renderer, no scene and no registered name, no additional scene, an empty group and callback table with id counter 0, play rate 500, and a cached size and offset of 0, 0. |
| `ZincRenderer.Renderer.InitialiseVisualisation` | src/renderer.js:134-148 | After initialisation the WebGL renderer exists with its own size. A new scene "default" is registered and made current, unless "default" was already registered, in which case nothing else changes. |
| `ZincRenderer.Renderer.GetCurrentScene` | src/renderer.js:155-157 | Returns the current scene, which is active and is never also one of the additional scenes. |
| `ZincRenderer.Renderer.SetCurrentScene` | src/renderer.js:165-177 | For a scene `s`: `s` becomes current and active and is no longer an additional scene; `s` is removed from the additional list and the group with the others kept; the old scene loses interactive control, `s` gains it, gets the group, and the surface is resized. For no scene, nothing changes. |
| `ZincRenderer.SwitchEvents` | src/renderer.js:168-175 | The calls a scene switch makes, in order: first disable the previous scene, only if there is one; then the last three calls enable the new scene, hand it the group, and resize it. |
| `ZincRenderer.Renderer.GetSceneByName` | src/renderer.js:185-187 | Returns the scene registered under the name, or none. A scene it returns carries that name. |
| `ZincRenderer.Renderer.CreateScene` | src/renderer.js:196-209 | Returns none and leaves the registry unchanged exactly when the name is registered. Otherwise it returns a fresh scene named `name`, and the registry gains that one entry. Nothing else in the renderer changes. |
| `ZincRenderer.CreateThenGetSceneByName` | src/renderer.js:185-209 | Looking a name up right after `createScene(name)` finds the newly created scene. Whether or not the creation was refused, a scene carrying that name is registered. |
| `Scenes.Scene.constructor` | src/renderer.js:200-206 | A scene created for the registry carries the name it was created for. |
| `ZincRenderer.Renderer.OnWindowResize` | src/renderer.js:40-92 | Tells the current scene. Once the WebGL renderer exists: it gives the renderer the measured size if there is a container or canvas, and keeps the renderer's size otherwise; it caches the renderer's size; and if a rectangle was measured, it caches the rectangle's corner as the offset (`Resize.AppliedSize`, `Resize.OffsetAfterResize`). Before the renderer exists, nothing changes but the call to the scene. |
| `ZincRenderer.Renderer.ResizeIfRequired` | src/renderer.js:94-112 | Resizes exactly when the measured width, height, left or top differs from the cached size and offset, and then changes state as `onWindowResize` does. Without a rectangle, left and top are measured as 0 (`Resize.MeasuredOffset`). If no resize is needed, nothing changes. |
| `Resize.ResizeRequired` | src/renderer.js:97-109 | The four comparisons together say that the cached size differs from the measured one, or the cached offset differs from the measured offset (the rectangle's corner, or 0, 0 without a rectangle: `Resize.MeasuredOffset`). |
| `Resize.ResizeSettles` | src/renderer.js:65-111 | After one resize, the same measurement does not ask for another, provided there is a container or canvas (or the renderer's size already is the measured one), and a rectangle is measured (or the cached offset is 0, 0). |
| `Resize.ResizeRepeatsWithStaleOffset` | src/renderer.js:85-109 | Without a rectangle, an offset other than 0, 0 is never overwritten, so every frame resizes again. |
| `Resize.ResizeRepeatsWithoutElement` | src/renderer.js:40-111 | With neither a container nor a canvas, 0, 0 is measured but `setSize` is never called, so the renderer keeps its size; unless that size is 0, 0, every frame resizes again. |
| `ZincRenderer.ResizeTwiceBeforeInitialisation` | src/renderer.js:65-111 | Before the WebGL renderer exists, a pending resize is not cached, so two successive frames both resize and tell the current scene twice. |
| `ZincRenderer.Renderer.AddPreRenderCallbackFunction` | src/renderer.js:347-351 | Returns the previous counter plus 1 (so 1, 2, 3, ...), which exceeds every id in the table. The table gains exactly that entry. |
| `ZincRenderer.Renderer.RemovePreRenderCallbackFunction` | src/renderer.js:357-361 | Deletes that id and no other. An unknown id changes nothing, and the counter never moves back. |
| `ZincRenderer.Renderer.GetPlayRate` | src/renderer.js:367-369 | Returns the play rate. |
| `ZincRenderer.Renderer.SetPlayRate` | src/renderer.js:376-378 | Sets the play rate and changes nothing else. |
| `ZincRenderer.Renderer.IsSceneActive` | src/renderer.js:486-497 | True exactly when the scene is the current scene or one of the additional scenes. |
| `ZincRenderer.Renderer.AddActiveScene` | src/renderer.js:504-509 | An active scene, current or additional, changes nothing. Any other scene is appended to the list, and its three.js scene to the group. The scene is active afterwards. |
| `ZincRenderer.Renderer.RemoveActiveScene` | src/renderer.js:516-525 | Deletes the scene's one occurrence, keeping the others in their order, and deletes its three.js scene from the group. Afterwards the scene is no additional scene. An absent scene changes nothing. |
| `ZincRenderer.Renderer.ClearAllActiveScene` | src/renderer.js:530-535 | Empties both the additional scenes and the group. The current scene stays. |
| `ZincRenderer.Renderer.ResetForDispose` | src/renderer.js:541-551 | Clears every registered scene, empties the registry, the additional scenes, the group and the callback table, resets the counter to 0, and stops the animation. |
| `ZincRenderer.Renderer.Dispose` | src/renderer.js:540-557 | Afterwards the registry has exactly the key "default", whose fresh scene is current. The additional scenes, the group and the callback table are empty, and the counter is 0. The play rate is kept. |
| `SceneLists.Without` | src/renderer.js:520-521 | Removing an absent element changes nothing. Removing a present one shortens the list by one. |
| `SceneLists.WithoutAt` | src/renderer.js:517-522 | Removing at the first matching index is deleting that one index, with everything else kept in order. |
| `SceneLists.WithoutMultiset` | src/renderer.js:520 | Removal takes exactly one occurrence away, if there is one, and nothing else. |
| `SceneLists.WithoutIn` | src/renderer.js:520 | Removal adds no element. |
| `SceneLists.WithoutDistinct` | src/renderer.js:516-525 | In a list without duplicates, removal leaves no duplicate and no occurrence of the removed scene. |
| `SceneLists.AppendDistinct` | src/renderer.js:505-506 | Appending an element that is not yet present creates no duplicate. |
| `SceneLists.Handles` | src/renderer.js:507 | The mirror has one three.js scene per additional scene, at the same position. |
| `SceneLists.HandlesWithout` | src/renderer.js:520-521 | Removing a scene from the list and its three.js scene from the group keep the two in step. |
| `SceneLists.HandlesAppend` | src/renderer.js:506-507 | Appending a scene to the list and its three.js scene to the group keep the two in step. |
| `SceneLists.RemoveKeepsActiveLists` | src/renderer.js:516-525 | Removal keeps the invariant: no duplicates, the current scene not listed, the group a mirror. The removed scene is gone. |
| `SceneLists.AppendKeepsActiveLists` | src/renderer.js:504-509 | Appending an inactive scene keeps the same invariant. |
| `SceneMapAsWritten.LengthRefusedAsWritten` | src/renderer.js:197 | As written, with `sceneMap` the Array of line 32, the duplicate test (`SceneMapAsWritten.NameTakenAsWritten`) holds for a registered name or for a property every Array has, so a renderer with no scenes still treats the name "length" as taken. |
| `SceneMapAsWritten.CreateSceneNamedLength` | src/renderer.js:196-209 | With the corrected registry, a fresh renderer creates a scene named "length". |

## Findings

| source | as written | input that shows it | evidently intended | confidence | as-written member | corrected member |
|---|---|---|---|---|---|---|
| src/renderer.js:32, src/renderer.js:197 | `sceneMap` is an Array (`[]`) used as a dictionary, and the duplicate test is `sceneMap[name] != undefined`. That test also holds for `length` and for inherited methods such as `push` or `toString`. | `createScene("length")` on a renderer with no scenes returns undefined. | Only names already registered are refused. | high; not executed | `SceneMapAsWritten.LengthRefusedAsWritten` (on `SceneMapAsWritten.NameTakenAsWritten`) | `ZincRenderer.Renderer.CreateScene`, with `SceneMapAsWritten.CreateSceneNamedLength` |

## Left out

- ZincRenderer.Renderer.CreateScene: models the intended dictionary, which refuses only registered names. The source also refuses names that are Array properties (see Findings).
- ZincRenderer.Renderer.GetSceneByName: returns no scene for an unregistered name. For names that are Array properties, the source returns the Array's own or inherited property value (line 186).
- `SceneMapAsWritten.ArrayPropertyNames` is a sample of the names a JavaScript Array answers for. The full set depends on the JavaScript engine.
- Scenes.Scene.constructor: `createScene` sets `sceneName` right after construction, and nothing in the renderer changes it later. The model fixes the name at construction, so code outside the renderer cannot rename a registered scene.
- ZincRenderer.Renderer.OnWindowResize: requires a current scene, because the source throws a TypeError calling `currentScene.onWindowResize()` without one. ResizeIfRequired requires a current scene only when a resize is due, for the same reason.
- ZincRenderer.Renderer.OnWindowResize: takes `renderer.getSize()` right after `setSize(width, height)` to return that width and height; three.js is not part of this model. A `Surface` with no container or canvas but a non-zero size is not one the source measures (`Resize.NoDrawingElement` is). Sizes are integers; rectangle corners and the play rate are reals, not IEEE doubles (no NaN).
- ZincRenderer.Renderer.AddActiveScene: takes a scene, not undefined. With undefined and no current scene, `isSceneActive(undefined)` is true and the source does nothing. With undefined and a current scene, it pushes undefined onto the list and then throws in `getThreeJSScene()`, which leaves the group out of step.
- ZincRenderer.Renderer.RemovePreRenderCallbackFunction: ids are integers. Non-numeric keys, which `in` would look up on the Array, are not modelled.
- ZincRenderer.Renderer.ResetForDispose: the `for ... in` loop that calls `clearAll()` on every registered scene is one `ScenesCleared` event, so the order of those calls is not modelled. The reset of `cameraOrtho`, `sceneOrtho` and `logoSprite` belongs to the ortho layer, which is also left out.
- Scenes.Scene.ThreeJSScene: src/scene.js is not part of this model. The model assumes that every Zinc scene owns its own three.js scene, so `getThreeJSScene` is injective; the invariant that `scenesGroup` mirrors the additional scenes without duplicates relies on this.
- `scenesGroup` is a value. The model does not capture two things: that each scene given the group by `setAdditionalScenesGroup` shares the same object, and that after `dispose` the old scenes keep the old group. three.js's `Group.add`, which detaches an object from its previous parent, is modelled as an append.
- JavaScript `null` and `undefined` are not distinguished (the source compares scenes with `===`).
- DOM and WebGL plumbing: `getDrawingWidth`, `getDrawingHeight`, `getBoundingClientRect`, `setSize`, renderer construction and its parameters (`antialias`, the user-agent test, `canvas`), `appendChild` and `setClearColor`. These are foreign APIs; their results reach the model as the `Surface` parameter.
- The frame loop: `animate`, `stopAnimate` (recorded only as an event), `render` and its clock, the `playAnimation` flag, and the order in which `render` calls the callbacks. These are scheduled by the host and are calls into scenes.
- The ortho camera and HUD layer: `updateOrthoScene`, `updateOrthoCamera`, `addToOrthoScene`, `createHUDSprites`, `addLogo`. These are three.js objects, floating-point positions and asynchronous texture loading.
- `viewAll` and `transitionScene`: a bounding-box union in three.js and floating-point centre and radius computations.
- One-line delegations to the current scene: `resetView`, `loadModelsURL`, `loadView`, `loadViewURL`, `loadFromViewURL`, `addZincGeometry`, `updateDirectionalLight`, `getCurrentTime`, `setMorphsTime`, `getZincGeometryByID`, `addToScene`, and also `getThreeJSRenderer`. They call code that is not part of this model.
- src/zinc.js only builds the namespace object and has no logic.
- The loop counter `i` that leaks as an implicit global in several loops is a local variable here. It has no effect on the modelled state.
