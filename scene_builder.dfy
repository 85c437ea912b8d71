/**
 * `SceneBuilder`: the text prompt for a scene's image and video, made of a style prefix and the
 * scene's location, camera directions, lighting, first actions and first characters.
 */
module SceneBuilder {
  import opened Wrappers
  import opened Text
  import opened Screenplay

  const Realistic: string := "photorealistic, cinematic, high quality, 8k resolution"
  const Animated: string := "animated, cartoon style, colorful, stylized"
  const Cinematic: string := "cinematic, dramatic lighting, film quality, professional cinematography"

  /** The longest description handed to the video service. */
  const MaxDescription: nat := 1000

  /** The style table, with the cinematic prefix for any style it does not list. */
  function StyleModifier(style: string): (m: string)
    ensures style == "realistic" ==> m == Realistic
    ensures style == "animated" ==> m == Animated
    ensures style != "realistic" && style != "animated" ==> m == Cinematic
  {
    if style == "realistic" then Realistic
    else if style == "animated" then Animated
    else Cinematic
  }

  /** `"<type lowercased> scene in <location>"`. */
  function LocationPart(scene: Scene): string {
    Lower(scene.kind.Name()) + " scene in " + scene.location
  }

  function CameraPart(scene: Scene): string {
    "camera: " + Join(scene.camera, ", ")
  }

  function LightingPart(scene: Scene): string {
    "lighting: " + Join(scene.lighting, ", ")
  }

  /** Only the first two actions are used. */
  function ActionsPart(scene: Scene): string {
    Join(Take(scene.actions, 2), ". ")
  }

  /** Only the first three characters are used. */
  function CharactersPart(scene: Scene): string {
    "featuring " + Join(Take(scene.characters, 3), ", ")
  }

  /** `description_parts`: the location part, then one part per non-empty list. */
  function Parts(scene: Scene): seq<string> {
    var p0 := [LocationPart(scene)];
    var p1 := if scene.camera != [] then p0 + [CameraPart(scene)] else p0;
    var p2 := if scene.lighting != [] then p1 + [LightingPart(scene)] else p1;
    var p3 := if scene.actions != [] then p2 + [ActionsPart(scene)] else p2;
    if scene.characters != [] then p3 + [CharactersPart(scene)] else p3
  }

  function Flag(b: bool): nat {
    if b then 1 else 0
  }

  /**
   * The parts come in the fixed order location, camera, lighting, actions, characters: each
   * optional part is present exactly when its list is non-empty, and its index is the number of
   * parts present before it.
   */
  lemma PartPositions(scene: Scene)
    ensures var parts := Parts(scene);
      var cam := Flag(scene.camera != []);
      var light := Flag(scene.lighting != []);
      var act := Flag(scene.actions != []);
      var chars := Flag(scene.characters != []);
      && |parts| == 1 + cam + light + act + chars
      && parts[0] == LocationPart(scene)
      && (scene.camera != [] ==> parts[1] == CameraPart(scene))
      && (scene.lighting != [] ==> parts[1 + cam] == LightingPart(scene))
      && (scene.actions != [] ==> parts[1 + cam + light] == ActionsPart(scene))
      && (scene.characters != [] ==> parts[1 + cam + light + act] == CharactersPart(scene))
  {
  }

  /** The description before truncation. */
  function FullDescription(scene: Scene, style: string): string {
    StyleModifier(style) + ", " + Join(Parts(scene), ", ")
  }

  /** `build_scene_description`: the full description cut to its first 1000 characters. */
  function Description(scene: Scene, style: string): (d: string)
    ensures |d| == if |FullDescription(scene, style)| <= MaxDescription then |FullDescription(scene, style)| else MaxDescription
    ensures StartsWith(FullDescription(scene, style), d)
    ensures |FullDescription(scene, style)| <= MaxDescription ==> d == FullDescription(scene, style)
  {
    Take(FullDescription(scene, style), MaxDescription)
  }

  /** Before truncation the description starts with the style prefix, `", "` and the location part. */
  lemma DescriptionStart(scene: Scene, style: string)
    ensures StartsWith(FullDescription(scene, style), StyleModifier(style) + ", " + LocationPart(scene))
  {
    var parts := Parts(scene);
    PartPositions(scene);
    JoinFirst(parts, ", ");
    var head := StyleModifier(style) + ", ";
    var full := FullDescription(scene, style);
    assert full == head + Join(parts, ", ");
    forall k | 0 <= k < |head + parts[0]|
      ensures full[k] == (head + parts[0])[k]
    {
      if k >= |head| {
        assert full[k] == Join(parts, ", ")[k - |head|];
      }
    }
  }

  /**
   * Actions after the second and characters after the third never reach the description: two
   * scenes that agree on everything else and on those first entries get the same description.
   */
  lemma DescriptionUsesFirstEntries(a: Scene, b: Scene, style: string)
    requires a.kind == b.kind && a.location == b.location
    requires a.camera == b.camera && a.lighting == b.lighting
    requires Take(a.actions, 2) == Take(b.actions, 2) && Take(a.characters, 3) == Take(b.characters, 3)
    ensures Description(a, style) == Description(b, style)
  {
    assert a.actions != [] <==> b.actions != [] by {
      assert |Take(a.actions, 2)| == |Take(b.actions, 2)|;
    }
    assert a.characters != [] <==> b.characters != [] by {
      assert |Take(a.characters, 3)| == |Take(b.characters, 3)|;
    }
    assert Parts(a) == Parts(b);
  }

  /** A scene with its description set. */
  function Described(scene: Scene, style: string): Scene {
    scene.(visualDescription := Some(Description(scene, style)))
  }

  /**
   * `build_scenes`: sets `visual_description` on every scene of the list in place, keeping the
   * count and order, and returns the same scenes.
   */
  method BuildScenes(scenes: array<Scene>, style: string) returns (built: seq<Scene>)
    modifies scenes
    ensures forall k :: 0 <= k < scenes.Length ==> scenes[k] == Described(old(scenes[k]), style)
    ensures built == scenes[..]
  {
    built := [];
    var i := 0;
    while i < scenes.Length
      invariant 0 <= i <= scenes.Length
      invariant forall k :: 0 <= k < i ==> scenes[k] == Described(old(scenes[k]), style)
      invariant forall k :: i <= k < scenes.Length ==> scenes[k] == old(scenes[k])
      invariant built == scenes[..i]
    {
      scenes[i] := Described(scenes[i], style);
      built := built + [scenes[i]];
      i := i + 1;
    }
  }
}
