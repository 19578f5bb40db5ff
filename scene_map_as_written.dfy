/**
 * The duplicate-name test of `createScene` as written. The registry
 * `sceneMap` is a JavaScript Array used as a dictionary, so
 * `sceneMap[name] != undefined` also holds for the names an Array answers
 * for by itself (its own `length`, and the methods it inherits), and
 * `createScene` refuses those names although no scene is registered under
 * them. `ZincRenderer.Renderer.CreateScene` models the evidently intended
 * dictionary, which refuses exactly the registered names.
 */
module SceneMapAsWritten {
  import opened Scenes
  import ZincRenderer

  /**
   * Some of the property names every JavaScript Array defines: its own
   * `length` and methods inherited from Array.prototype and
   * Object.prototype. (The full list depends on the JavaScript engine.)
   */
  const ArrayPropertyNames: set<string> := {
    "length", "constructor", "push", "pop", "shift", "unshift", "splice", "slice",
    "concat", "join", "reverse", "sort", "indexOf", "map", "filter", "forEach",
    "toString", "valueOf", "hasOwnProperty"
  }

  /** The test `sceneMap[name] != undefined` on an Array holding scenes under `keys`. */
  predicate NameTakenAsWritten(keys: set<string>, name: string)
  {
    name in keys || name in ArrayPropertyNames
  }

  /** As written, a renderer with no scene at all still refuses to create a scene named "length". */
  lemma LengthRefusedAsWritten()
    ensures NameTakenAsWritten({}, "length")
  {
  }

  /** The corrected registry accepts "length" on a fresh renderer, and registers the scene under it. */
  method CreateSceneNamedLength() returns (s: Scene?)
    ensures s != null && s.sceneName == "length"
  {
    var r := new ZincRenderer.Renderer();
    s := r.CreateScene("length");
    var found := r.GetSceneByName("length");
    assert found == s;
  }
}
