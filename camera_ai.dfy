/** `CameraAI`: the camera setup of a scene, from its explicit directions or from a few rules. */
module CameraAI {
  import opened Wrappers
  import opened Screenplay

  const Wide: string := "wide establishing shot"
  const Medium: string := "medium shot"
  const Close: string := "close-up shot"
  const Pan: string := "panning shot"

  /**
   * `analyze_scene`. Explicit camera directions become the shots and nothing else is added.
   * Otherwise scene 1 opens with the wide establishing shot, any dialogue adds the medium shot
   * and more than two dialogues a close-up after it, and more than one action the panning
   * movement. Angles are never filled in.
   */
  function AnalyzeScene(scene: Scene): (setup: CameraSetup)
    ensures setup.angles == []
    ensures scene.camera != [] ==> setup.shots == scene.camera && setup.movements == []
    ensures scene.camera == [] ==>
      && |setup.shots| == (if scene.sceneNumber == 1 then 1 else 0) + (if scene.dialogs != [] then 1 else 0)
                            + (if |scene.dialogs| > 2 then 1 else 0)
      && (scene.sceneNumber == 1 <==> |setup.shots| > 0 && setup.shots[0] == Wide)
      && (Medium in setup.shots <==> scene.dialogs != [])
      && (Close in setup.shots <==> |scene.dialogs| > 2)
      && (|scene.dialogs| > 2 ==> setup.shots[|setup.shots| - 2] == Medium && setup.shots[|setup.shots| - 1] == Close)
      && (setup.movements == if |scene.actions| > 1 then [Pan] else [])
  {
    if scene.camera != [] then CameraSetup(scene.camera, [], [])
    else
      var s0 := if scene.sceneNumber == 1 then [Wide] else [];
      var s1 := if scene.dialogs != [] then s0 + [Medium] else s0;
      var s2 := if |scene.dialogs| > 2 then s1 + [Close] else s1;
      var moves := if scene.actions != [] && |scene.actions| > 1 then [Pan] else [];
      CameraSetup(s2, moves, [])
  }

  /** A scene with its camera setup set. */
  function WithCamera(scene: Scene): Scene {
    scene.(cameraSetup := Some(AnalyzeScene(scene)))
  }

  /** `apply_camera_to_scenes`: sets `camera_setup` on every scene of the list, in place. */
  method ApplyCameraToScenes(scenes: array<Scene>)
    modifies scenes
    ensures forall k :: 0 <= k < scenes.Length ==> scenes[k] == WithCamera(old(scenes[k]))
  {
    var i := 0;
    while i < scenes.Length
      invariant 0 <= i <= scenes.Length
      invariant forall k :: 0 <= k < i ==> scenes[k] == WithCamera(old(scenes[k]))
      invariant forall k :: i <= k < scenes.Length ==> scenes[k] == old(scenes[k])
    {
      scenes[i] := WithCamera(scenes[i]);
      i := i + 1;
    }
  }
}
