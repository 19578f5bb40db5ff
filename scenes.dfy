/**
 * The scene objects the renderer keeps track of. A Zinc scene is defined
 * in scene.js, which is not part of this model; the renderer only relies on
 * the scene's identity, its `sceneName` field and the three.js scene it owns.
 */
module Scenes {

  /**
   * A Zinc scene, known to the renderer only by identity and by name.
   * `createScene` assigns the name straight after construction and
   * nothing in the renderer changes it afterwards, so here it is fixed
   * when the scene is made.
   */
  class Scene {
    const sceneName: string

    constructor (name: string)
      ensures sceneName == name
    {
      sceneName := name;
    }

    /**
     * The three.js scene this scene owns (`getThreeJSScene()`). Every Zinc
     * scene creates its own, so the handle is identified by its owner.
     */
    function ThreeJSScene(): (t: ThreeScene)
      ensures t.owner == this
    {
      ThreeScene(this)
    }
  }

  /** A handle to the three.js scene that a Zinc scene renders into. */
  datatype ThreeScene = ThreeScene(owner: Scene)
}
