/**
 * `VideoPreview`: which scene is selected and playing, the download-all list and its staggered
 * opening, and the file-size display.
 */
module VideoPreview {
  import opened Wrappers
  import opened Screenplay

  /** The panel's selection state. */
  class Selection {
    var selectedScene: Option<Scene>
    var selectedVideoUrl: Option<string>

    constructor ()
      ensures selectedScene == None && selectedVideoUrl == None
    {
      selectedScene := None;
      selectedVideoUrl := None;
    }

    /**
     * `handleSceneClick`: the scene is always selected; its URL becomes the playing one only
     * when it is playable, and otherwise the previous URL stays.
     */
    method HandleSceneClick(scene: Scene)
      modifies this
      ensures selectedScene == Some(scene)
      ensures HasVideo(scene.videoUrl) ==> selectedVideoUrl == scene.videoUrl
      ensures !HasVideo(scene.videoUrl) ==> selectedVideoUrl == old(selectedVideoUrl)
    {
      selectedScene := Some(scene);
      if HasVideo(scene.videoUrl) {
        selectedVideoUrl := scene.videoUrl;
      }
    }

    /** A click on a scene card: ignored entirely for a scene that cannot be played. */
    method OnCardClick(scene: Scene)
      modifies this
      ensures HasVideo(scene.videoUrl) ==> selectedScene == Some(scene) && selectedVideoUrl == scene.videoUrl
      ensures !HasVideo(scene.videoUrl) ==> selectedScene == old(selectedScene) && selectedVideoUrl == old(selectedVideoUrl)
    {
      if HasVideo(scene.videoUrl) {
        HandleSceneClick(scene);
      }
    }
  }

  /** The download-all list: the URLs of the playable scenes, in scene order. */
  function DownloadUrls(scenes: seq<Scene>): (urls: seq<string>)
    ensures |urls| <= |scenes|
  {
    if |scenes| == 0 then []
    else
      var last := scenes[|scenes| - 1];
      DownloadUrls(scenes[..|scenes| - 1]) + (if HasVideo(last.videoUrl) then [last.videoUrl.value] else [])
  }

  /** The list has one URL per playable scene. */
  lemma {:induction false} DownloadUrlsCount(scenes: seq<Scene>)
    ensures |DownloadUrls(scenes)| == |PlayableIndices(scenes)|
  {
    if |scenes| > 0 {
      DownloadUrlsCount(scenes[..|scenes| - 1]);
    }
  }

  /** URL `k` of the list is the URL of the `k`-th playable scene. */
  lemma {:induction false} DownloadUrlAt(scenes: seq<Scene>, k: nat)
    requires k < |DownloadUrls(scenes)|
    ensures k < |PlayableIndices(scenes)|
    ensures scenes[PlayableIndices(scenes)[k]].videoUrl == Some(DownloadUrls(scenes)[k])
  {
    DownloadUrlsCount(scenes);
    var front := scenes[..|scenes| - 1];
    DownloadUrlsCount(front);
    if k < |DownloadUrls(front)| {
      DownloadUrlAt(front, k);
      assert PlayableIndices(scenes)[k] == PlayableIndices(front)[k];
      assert DownloadUrls(scenes)[k] == DownloadUrls(front)[k];
    }
  }

  /** The list is the URLs of the playable scenes in scene order; the button shows its length. */
  lemma DownloadUrlsArePlayable(scenes: seq<Scene>)
    ensures |DownloadUrls(scenes)| == |PlayableIndices(scenes)|
    ensures forall k :: 0 <= k < |DownloadUrls(scenes)| ==>
      scenes[PlayableIndices(scenes)[k]].videoUrl == Some(DownloadUrls(scenes)[k])
  {
    DownloadUrlsCount(scenes);
    forall k | 0 <= k < |DownloadUrls(scenes)| {
      DownloadUrlAt(scenes, k);
    }
  }

  /** Whether the download-all button is shown. */
  predicate ShowDownloadAll(scenes: seq<Scene>) {
    |scenes| > 0 && exists i :: 0 <= i < |scenes| && HasVideo(scenes[i].videoUrl)
  }

  /** The button is shown exactly when there is something to download. */
  lemma ShowDownloadAllIff(scenes: seq<Scene>)
    ensures ShowDownloadAll(scenes) <==> |DownloadUrls(scenes)| > 0
  {
    AnyPlayable(scenes);
    DownloadUrlsArePlayable(scenes);
  }

  /** One `window.open` of the download-all button: the URL and its delay in milliseconds. */
  datatype Opening = Opening(url: string, delayMs: int)

  /** `validUrls.forEach((url, index) => setTimeout(..., index * 100))` for the first `k` URLs. */
  function Schedule(urls: seq<string>, k: nat): (s: seq<Opening>)
    requires k <= |urls|
    ensures |s| == k
  {
    if k == 0 then [] else Schedule(urls, k - 1) + [Opening(urls[k - 1], (k - 1) * 100)]
  }

  /** The `i`-th URL opens after `i * 100` ms, so the openings happen in list order. */
  lemma {:induction false} ScheduleInOrder(urls: seq<string>, k: nat)
    requires k <= |urls|
    ensures forall i :: 0 <= i < k ==> Schedule(urls, k)[i] == Opening(urls[i], i * 100)
    ensures forall i, j :: 0 <= i < j < k ==> Schedule(urls, k)[i].delayMs < Schedule(urls, k)[j].delayMs
  {
    if k > 0 {
      ScheduleInOrder(urls, k - 1);
    }
  }

  /** The file-size display: its unit and the number shown before rounding. */
  datatype FileSize = NotAvailable | Bytes(n: int) | KB(kb: real) | MB(mb: real) | GB(gb: real)

  const KiB: int := 1024

  /** `formatFileSize`: a missing or zero size is `N/A`; otherwise the largest unit below 1024 of the next one. */
  function FormatFileSize(bytes: Option<int>): (f: FileSize)
    ensures f == NotAvailable <==> bytes.None? || bytes.value == 0
    ensures f.Bytes? <==> bytes.Some? && bytes.value != 0 && bytes.value < KiB
    ensures f.Bytes? ==> f.n == bytes.value
    ensures f.KB? <==> bytes.Some? && KiB <= bytes.value < KiB * KiB
    ensures f.KB? ==> f.kb * KiB as real == bytes.value as real
    ensures f.MB? <==> bytes.Some? && KiB * KiB <= bytes.value < KiB * KiB * KiB
    ensures f.MB? ==> f.mb * (KiB * KiB) as real == bytes.value as real
    ensures f.GB? <==> bytes.Some? && bytes.value >= KiB * KiB * KiB
    ensures f.GB? ==> f.gb * (KiB * KiB * KiB) as real == bytes.value as real
  {
    match bytes
    case None => NotAvailable
    case Some(b) =>
      if b == 0 then NotAvailable
      else if b < 1024 then Bytes(b)
      else if b < 1024 * 1024 then KB(b as real / 1024.0)
      else if b < 1024 * 1024 * 1024 then MB(b as real / (1024 * 1024) as real)
      else GB(b as real / (1024 * 1024 * 1024) as real)
  }
}
