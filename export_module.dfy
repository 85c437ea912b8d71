/** `ExportModule.export_film`: the export record of a finished film, listing its playable scene videos. */
module ExportModule {
  import opened Wrappers
  import opened Screenplay
  import TimelineManager

  /** The duration recorded for a scene video whose scene has none. */
  const DefaultVideoDuration: int := 5

  /** The `scene_videos` entry of a scene. */
  function VideoOf(scene: Scene): SceneVideo {
    SceneVideo(scene.sceneNumber, scene.videoUrl.GetOr(""), scene.duration.GetOr(DefaultVideoDuration))
  }

  /** The entries of the playable scenes, in scene order. */
  function Videos(scenes: seq<Scene>): (videos: seq<SceneVideo>)
    ensures |videos| <= |scenes|
  {
    if |scenes| == 0 then []
    else
      var last := scenes[|scenes| - 1];
      Videos(scenes[..|scenes| - 1]) + (if HasVideo(last.videoUrl) then [VideoOf(last)] else [])
  }

  /** The URLs of the entries, in the same order. */
  function Urls(videos: seq<SceneVideo>): (urls: seq<string>)
    ensures |urls| == |videos|
  {
    if |videos| == 0 then [] else Urls(videos[..|videos| - 1]) + [videos[|videos| - 1].videoUrl]
  }

  /** `sum(t['duration'] for t in timeline)`. */
  function SumDurations(timeline: seq<TimelineManager.TimelineEntry>): int {
    if |timeline| == 0 then 0 else SumDurations(timeline[..|timeline| - 1]) + timeline[|timeline| - 1].duration
  }

  /** There is one scene video per playable scene. */
  lemma {:induction false} VideosCount(scenes: seq<Scene>)
    ensures |Videos(scenes)| == |PlayableIndices(scenes)|
  {
    if |scenes| > 0 {
      VideosCount(scenes[..|scenes| - 1]);
    }
  }

  /** Scene video `k` is made from the scene at the `k`-th playable index. */
  lemma {:induction false} VideoAt(scenes: seq<Scene>, k: nat)
    requires k < |Videos(scenes)|
    ensures k < |PlayableIndices(scenes)|
    ensures Videos(scenes)[k] == VideoOf(scenes[PlayableIndices(scenes)[k]])
  {
    VideosCount(scenes);
    var front := scenes[..|scenes| - 1];
    VideosCount(front);
    if k < |Videos(front)| {
      VideoAt(front, k);
      assert PlayableIndices(scenes)[k] == PlayableIndices(front)[k];
      assert Videos(scenes)[k] == Videos(front)[k];
    }
  }

  /**
   * The scene videos are exactly the playable scenes, in scene order: entry `k` is the scene at
   * the `k`-th playable index, with its URL and its duration or 5.
   */
  lemma VideosArePlayable(scenes: seq<Scene>)
    ensures |Videos(scenes)| == |PlayableIndices(scenes)|
    ensures forall k :: 0 <= k < |Videos(scenes)| ==> Videos(scenes)[k] == VideoOf(scenes[PlayableIndices(scenes)[k]])
  {
    VideosCount(scenes);
    forall k | 0 <= k < |Videos(scenes)| {
      VideoAt(scenes, k);
    }
  }

  /** Download URL `k` is the URL of scene video `k`. */
  lemma {:induction false} UrlsAt(videos: seq<SceneVideo>)
    ensures forall k :: 0 <= k < |videos| ==> Urls(videos)[k] == videos[k].videoUrl
  {
    if |videos| > 0 {
      UrlsAt(videos[..|videos| - 1]);
    }
  }

  /** The durations of a timeline built from the scenes add up to the timeline's total. */
  lemma {:induction false} TimelineDurations(scenes: seq<Scene>, k: nat)
    requires k <= |scenes|
    ensures SumDurations(TimelineManager.Timeline(scenes, k)) == TimelineManager.TotalOf(scenes, k)
  {
    if k > 0 {
      TimelineDurations(scenes, k - 1);
      var tl := TimelineManager.Timeline(scenes, k);
      assert tl[..k - 1] == TimelineManager.Timeline(scenes, k - 1);
    }
  }

  /**
   * `export_film`: the playable scenes' videos in scene order, all scenes counted, the timeline's
   * durations summed, the download URLs in the order of the videos, and the fixed fields.
   */
  method ExportFilm(scenes: seq<Scene>, timeline: seq<TimelineManager.TimelineEntry>) returns (info: ExportInfo)
    ensures info.sceneVideos == Videos(scenes)
    ensures info.downloadUrls == Urls(info.sceneVideos)
    ensures info.totalScenes == |scenes| && info.totalDuration == SumDurations(timeline)
    ensures info.status == "completed" && info.storageType == "replicate_urls"
    ensures info.format == "MP4" && info.resolution == "1024x576" && !info.cloudStorageEnabled
  {
    var sceneVideos: seq<SceneVideo> := [];
    var i := 0;
    while i < |scenes|
      invariant i <= |scenes|
      invariant sceneVideos == Videos(scenes[..i])
    {
      var scene := scenes[i];
      var videoUrl := scene.videoUrl.GetOr("");
      assert scenes[..i + 1][..i] == scenes[..i];
      if videoUrl != "" && !Text.StartsWith(videoUrl, PlaceholderPrefix) {
        sceneVideos := sceneVideos + [SceneVideo(scene.sceneNumber, videoUrl, scene.duration.GetOr(DefaultVideoDuration))];
      }
      i := i + 1;
    }
    assert scenes[..i] == scenes;
    info := ExportInfo("completed", "replicate_urls", sceneVideos, |scenes|, SumDurations(timeline),
                       "MP4", "1024x576", Urls(sceneVideos), false);
  }
}
