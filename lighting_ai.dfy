/** `LightingAI`: the lighting setup of a scene, from its explicit directions or from a few rules. */
module LightingAI {
  import opened Wrappers
  import opened Text
  import opened Screenplay

  const Natural: string := "natural daylight, soft shadows"
  const Dramatic: string := "dramatic high-contrast lighting, strong shadows"
  const Soft: string := "soft diffused lighting, minimal shadows"
  const Candlelight: string := "warm candlelight, intimate atmosphere"

  /** The scene's actions joined by spaces and lower-cased. */
  function ActionsText(scene: Scene): string {
    Lower(Join(scene.actions, " "))
  }

  predicate IsDark(text: string) {
    Contains(text, "dark") || Contains(text, "night") || Contains(text, "shadow")
  }

  predicate IsWarm(text: string) {
    Contains(text, "warm") || Contains(text, "cozy")
  }

  /**
   * `analyze_lighting`. Explicit lighting directions give type `custom` with the directions
   * joined by `", "`. Otherwise a dark word in the actions gives `dramatic`, failing that a warm
   * word gives `candlelight`, failing that exterior scenes get `natural` and all others `soft`;
   * the description is the preset of the chosen type. The mood is never filled in.
   */
  function AnalyzeLighting(scene: Scene): (setup: LightingSetup)
    ensures setup.mood == ""
    ensures scene.lighting != [] ==> setup.kind == "custom" && setup.description == Join(scene.lighting, ", ")
    ensures scene.lighting == [] ==>
      var text := ActionsText(scene);
      && (setup.kind == "dramatic" <==> IsDark(text))
      && (setup.kind == "candlelight" <==> !IsDark(text) && IsWarm(text))
      && (setup.kind == "natural" <==> !IsDark(text) && !IsWarm(text) && scene.kind == Exterior)
      && (setup.kind == "soft" <==> !IsDark(text) && !IsWarm(text) && scene.kind != Exterior)
      && setup.description == Preset(setup.kind)
  {
    if scene.lighting != [] then LightingSetup("custom", Join(scene.lighting, ", "), "")
    else
      var base := if scene.kind.Name() == "EXTERIOR" then LightingSetup("natural", Natural, "")
                  else LightingSetup("soft", Soft, "");
      var text := ActionsText(scene);
      if IsDark(text) then base.(kind := "dramatic", description := Dramatic)
      else if IsWarm(text) then base.(kind := "candlelight", description := Candlelight)
      else base
  }

  /** The preset description of each automatic lighting type. */
  function Preset(kind: string): string {
    if kind == "natural" then Natural
    else if kind == "dramatic" then Dramatic
    else if kind == "candlelight" then Candlelight
    else Soft
  }

  /** A scene with its lighting setup set. */
  function WithLighting(scene: Scene): Scene {
    scene.(lightingSetup := Some(AnalyzeLighting(scene)))
  }

  /** `apply_lighting_to_scenes`: sets `lighting_setup` on every scene of the list, in place. */
  method ApplyLightingToScenes(scenes: array<Scene>)
    modifies scenes
    ensures forall k :: 0 <= k < scenes.Length ==> scenes[k] == WithLighting(old(scenes[k]))
  {
    var i := 0;
    while i < scenes.Length
      invariant 0 <= i <= scenes.Length
      invariant forall k :: 0 <= k < i ==> scenes[k] == WithLighting(old(scenes[k]))
      invariant forall k :: i <= k < scenes.Length ==> scenes[k] == old(scenes[k])
    {
      scenes[i] := WithLighting(scenes[i]);
      i := i + 1;
    }
  }
}
