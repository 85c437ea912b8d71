/** `SoundAI`: the sound design of a scene: its effects, ambience and music. */
module SoundAI {
  import opened Wrappers
  import opened Screenplay

  const ExteriorAmbient: seq<string> := ["wind", "birds chirping", "traffic"]
  const InteriorAmbient: seq<string> := ["room tone", "clock ticking", "distant sounds"]
  const DramaticMusic: string := "dramatic orchestral score"
  const ActionMusic: string := "intense action music"
  const EmotionalMusic: string := "emotional piano melody"

  /**
   * `analyze_sound`. The effects are the explicit sound directions (none when there are none),
   * the ambience is the exterior list exactly for exterior scenes, and the music is emotional
   * for more than two dialogues, else action for more than two actions, else dramatic.
   */
  function AnalyzeSound(scene: Scene): (design: SoundDesign)
    ensures design.effects == scene.sound
    ensures design.ambient == ExteriorAmbient <==> scene.kind == Exterior
    ensures design.ambient == InteriorAmbient <==> scene.kind != Exterior
    ensures design.music == EmotionalMusic <==> |scene.dialogs| > 2
    ensures design.music == ActionMusic <==> |scene.dialogs| <= 2 && |scene.actions| > 2
    ensures design.music == DramaticMusic <==> |scene.dialogs| <= 2 && |scene.actions| <= 2
  {
    var effects := if scene.sound != [] then scene.sound else [];
    var ambient := if scene.kind.Name() == "EXTERIOR" then ExteriorAmbient else InteriorAmbient;
    var music :=
      if |scene.dialogs| > 2 then EmotionalMusic
      else if |scene.actions| > 2 then ActionMusic
      else DramaticMusic;
    SoundDesign(effects, music, ambient)
  }

  /** A scene with its sound design set. */
  function WithSound(scene: Scene): Scene {
    scene.(soundDesign := Some(AnalyzeSound(scene)))
  }

  /** `apply_sound_to_scenes`: sets `sound_design` on every scene of the list, in place. */
  method ApplySoundToScenes(scenes: array<Scene>)
    modifies scenes
    ensures forall k :: 0 <= k < scenes.Length ==> scenes[k] == WithSound(old(scenes[k]))
  {
    var i := 0;
    while i < scenes.Length
      invariant 0 <= i <= scenes.Length
      invariant forall k :: 0 <= k < i ==> scenes[k] == WithSound(old(scenes[k]))
      invariant forall k :: i <= k < scenes.Length ==> scenes[k] == old(scenes[k])
    {
      scenes[i] := WithSound(scenes[i]);
      i := i + 1;
    }
  }
}
