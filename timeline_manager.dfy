/** `TimelineManager`: lays the scenes end to end, each for an estimated duration. */
module TimelineManager {
  import opened Wrappers
  import opened Screenplay

  /** One entry of the timeline; times are whole seconds. */
  datatype TimelineEntry = TimelineEntry(
    sceneNumber: int,
    startTime: int,
    duration: int,
    endTime: int,
    videoUrl: string,
    audioClips: seq<AudioClip>,
    transitions: string)

  /** What `get_timeline_info` reports. */
  datatype TimelineInfo = TimelineInfo(totalScenes: nat, totalDuration: int, timeline: seq<TimelineEntry>)

  /** The least duration of a scene. */
  const MinDuration: int := 5

  /** About three seconds per dialogue and two per action, and never less than five. */
  function SceneDuration(scene: Scene): (d: int)
    ensures d >= MinDuration && d >= 3 * |scene.dialogs| + 2 * |scene.actions|
    ensures d == MinDuration || d == 3 * |scene.dialogs| + 2 * |scene.actions|
  {
    var estimate := 3 * |scene.dialogs| + 2 * |scene.actions|;
    if MinDuration >= estimate then MinDuration else estimate
  }

  /** The sum of the durations of the first `k` scenes. */
  function TotalOf(scenes: seq<Scene>, k: nat): (t: int)
    requires k <= |scenes|
    ensures t >= MinDuration * k
  {
    if k == 0 then 0 else TotalOf(scenes, k - 1) + SceneDuration(scenes[k - 1])
  }

  /** The entry of a scene that starts at `start`. */
  function EntryOf(scene: Scene, start: int): TimelineEntry {
    var d := SceneDuration(scene);
    TimelineEntry(scene.sceneNumber, start, d, start + d, scene.videoUrl.GetOr(""), scene.audioClips, "fade")
  }

  /** The timeline of the first `k` scenes. */
  function Timeline(scenes: seq<Scene>, k: nat): (tl: seq<TimelineEntry>)
    requires k <= |scenes|
    ensures |tl| == k
  {
    if k == 0 then [] else Timeline(scenes, k - 1) + [EntryOf(scenes[k - 1], TotalOf(scenes, k - 1))]
  }

  lemma {:induction false} TimelineAt(scenes: seq<Scene>, k: nat, i: nat)
    requires i < k <= |scenes|
    ensures Timeline(scenes, k)[i] == EntryOf(scenes[i], TotalOf(scenes, i))
  {
    if i < k - 1 {
      TimelineAt(scenes, k - 1, i);
    }
  }

  /**
   * A well-formed timeline: every entry lasts at least five seconds and ends when its duration
   * is over, the first starts at 0 and each later one where the previous one ends, and the
   * total is the end of the last entry (0 for an empty timeline).
   */
  predicate Contiguous(tl: seq<TimelineEntry>, total: int) {
    && (forall i :: 0 <= i < |tl| ==> tl[i].duration >= MinDuration && tl[i].endTime == tl[i].startTime + tl[i].duration)
    && (|tl| > 0 ==> tl[0].startTime == 0)
    && (forall i :: 0 < i < |tl| ==> tl[i].startTime == tl[i - 1].endTime)
    && total == (if |tl| == 0 then 0 else tl[|tl| - 1].endTime)
  }

  /** Entry `i` carries scene `i`'s number and duration and starts after the scenes before it. */
  lemma TimelineEntryAt(scenes: seq<Scene>, i: nat)
    requires i < |scenes|
    ensures var e := Timeline(scenes, |scenes|)[i];
      && e.sceneNumber == scenes[i].sceneNumber && e.duration == SceneDuration(scenes[i])
      && e.startTime == TotalOf(scenes, i) && e.endTime == TotalOf(scenes, i + 1)
  {
    TimelineAt(scenes, |scenes|, i);
  }

  /**
   * The timeline has one entry per scene, in scene order, carrying that scene's number, and is
   * contiguous, its total being the sum of the durations.
   */
  lemma TimelineFacts(scenes: seq<Scene>)
    ensures var tl := Timeline(scenes, |scenes|);
      && (forall i :: 0 <= i < |scenes| ==> tl[i].sceneNumber == scenes[i].sceneNumber && tl[i].duration == SceneDuration(scenes[i]))
      && Contiguous(tl, TotalOf(scenes, |scenes|))
  {
    var tl := Timeline(scenes, |scenes|);
    forall i | 0 <= i < |scenes|
      ensures tl[i].sceneNumber == scenes[i].sceneNumber && tl[i].duration == SceneDuration(scenes[i])
    {
      TimelineEntryAt(scenes, i);
    }
    TimelineContiguous(scenes);
  }

  /** The timeline of all the scenes is contiguous and ends at the sum of their durations. */
  lemma TimelineContiguous(scenes: seq<Scene>)
    ensures Contiguous(Timeline(scenes, |scenes|), TotalOf(scenes, |scenes|))
  {
    var tl := Timeline(scenes, |scenes|);
    forall i | 0 <= i < |tl|
      ensures tl[i].duration >= MinDuration && tl[i].endTime == tl[i].startTime + tl[i].duration
    {
      TimelineEntryAt(scenes, i);
    }
    forall i | 0 < i < |tl|
      ensures tl[i].startTime == tl[i - 1].endTime
    {
      TimelineEntryAt(scenes, i);
      TimelineEntryAt(scenes, i - 1);
    }
    if |scenes| > 0 {
      TimelineEntryAt(scenes, 0);
      TimelineEntryAt(scenes, |scenes| - 1);
    }
  }

  /** `TimelineManager`, which keeps the last timeline it built and its total duration. */
  class Manager {
    var timeline: seq<TimelineEntry>
    var totalDuration: int

    /** The timeline the manager holds is contiguous and its total matches it. */
    predicate Valid()
      reads this
    {
      Contiguous(timeline, totalDuration)
    }

    constructor ()
      ensures timeline == [] && totalDuration == 0
      ensures Valid()
    {
      timeline := [];
      totalDuration := 0;
    }

    /**
     * `create_timeline`: one entry per scene starting where the previous one ended; the new
     * timeline and its end time replace what the manager held.
     */
    method CreateTimeline(scenes: seq<Scene>) returns (result: seq<TimelineEntry>)
      modifies this
      ensures result == Timeline(scenes, |scenes|)
      ensures timeline == result && totalDuration == TotalOf(scenes, |scenes|)
      ensures Valid()
    {
      var tl: seq<TimelineEntry> := [];
      var currentTime := 0;
      var i := 0;
      while i < |scenes|
        invariant i <= |scenes|
        invariant tl == Timeline(scenes, i)
        invariant currentTime == TotalOf(scenes, i)
      {
        var scene := scenes[i];
        var baseDuration := SceneDuration(scene);
        tl := tl + [TimelineEntry(scene.sceneNumber, currentTime, baseDuration, currentTime + baseDuration,
                                  scene.videoUrl.GetOr(""), scene.audioClips, "fade")];
        currentTime := currentTime + baseDuration;
        i := i + 1;
      }
      timeline := tl;
      totalDuration := currentTime;
      TimelineFacts(scenes);
      result := tl;
    }

    /** `get_timeline_info`: the number of entries held, the total duration and the timeline. */
    function GetTimelineInfo(): (info: TimelineInfo)
      reads this
      ensures info.totalScenes == |timeline| && info.timeline == timeline
      ensures Valid() ==> info.totalDuration == (if timeline == [] then 0 else timeline[|timeline| - 1].endTime)
    {
      TimelineInfo(|timeline|, totalDuration, timeline)
    }
  }
}
