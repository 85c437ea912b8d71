/**
 * The scene record that flows from the parser through the rule engines to the export record and
 * on to the browser, and the one playability rule both sides apply to a scene's video URL.
 */
module Screenplay {
  import opened Wrappers
  import opened Text

  datatype SceneType = Interior | Exterior {
    /** The value the parser stores under `type`. */
    function Name(): string {
      match this
      case Interior => "INTERIOR"
      case Exterior => "EXTERIOR"
    }
  }

  /** One parsed dialogue: the speaker's cue line and the line that follows it. */
  datatype Dialog = Dialog(character: string, text: string)

  datatype CameraSetup = CameraSetup(shots: seq<string>, movements: seq<string>, angles: seq<string>)

  datatype LightingSetup = LightingSetup(kind: string, description: string, mood: string)

  datatype SoundDesign = SoundDesign(effects: seq<string>, music: string, ambient: seq<string>)

  /** An audio clip as stored on a scene: the generated audio bytes are not kept. */
  datatype AudioClip = AudioClip(character: string, text: string, voice: string)

  /**
   * A scene. The first nine fields are what the parser produces; the rest are filled in by later
   * stages (`None` or empty while a stage has not run or when the key is absent).
   */
  datatype Scene = Scene(
    sceneNumber: int,
    kind: SceneType,
    location: string,
    dialogs: seq<Dialog>,
    actions: seq<string>,
    camera: seq<string>,
    lighting: seq<string>,
    sound: seq<string>,
    characters: seq<string>,
    visualDescription: Option<string>,
    cameraSetup: Option<CameraSetup>,
    lightingSetup: Option<LightingSetup>,
    soundDesign: Option<SoundDesign>,
    audioClips: seq<AudioClip>,
    videoUrl: Option<string>,
    duration: Option<int>,
    fileSize: Option<int>,
    isDemo: bool)

  /** One entry of `scene_videos` in the export record. */
  datatype SceneVideo = SceneVideo(sceneNumber: int, videoUrl: string, duration: int)

  /** The export record of a finished film. */
  datatype ExportInfo = ExportInfo(
    status: string,
    storageType: string,
    sceneVideos: seq<SceneVideo>,
    totalScenes: int,
    totalDuration: int,
    format: string,
    resolution: string,
    downloadUrls: seq<string>,
    cloudStorageEnabled: bool)

  /** The prefix that marks a demo artifact that cannot be played. */
  const PlaceholderPrefix: string := "placeholder"

  /** A video URL can be played: present, non-empty (a truthy string) and not a placeholder. */
  predicate HasVideo(url: Option<string>) {
    url.Some? && url.value != "" && !StartsWith(url.value, PlaceholderPrefix)
  }

  /**
   * The indices of the scenes with a playable video, in increasing order: exactly the playable
   * scenes, each once, in scene order. Filtering a scene list on `HasVideo` keeps these.
   */
  function PlayableIndices(scenes: seq<Scene>): (idx: seq<nat>)
    ensures |idx| <= |scenes|
    ensures forall k :: 0 <= k < |idx| ==> idx[k] < |scenes| && HasVideo(scenes[idx[k]].videoUrl)
    ensures forall k, l :: 0 <= k < l < |idx| ==> idx[k] < idx[l]
    ensures forall i :: 0 <= i < |scenes| && HasVideo(scenes[i].videoUrl) ==> i in idx
  {
    if |scenes| == 0 then []
    else
      var front := PlayableIndices(scenes[..|scenes| - 1]);
      if HasVideo(scenes[|scenes| - 1].videoUrl) then front + [|scenes| - 1] else front
  }

  /** Some scene has a playable video exactly when the filter keeps at least one scene. */
  lemma {:induction false} AnyPlayable(scenes: seq<Scene>)
    ensures (exists i :: 0 <= i < |scenes| && HasVideo(scenes[i].videoUrl)) <==> |PlayableIndices(scenes)| > 0
  {
    var idx := PlayableIndices(scenes);
    if |idx| > 0 {
      assert HasVideo(scenes[idx[0]].videoUrl);
    }
  }
}
