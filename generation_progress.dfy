/**
 * `GenerationProgress`: what the progress panel derives from the job's progress percentage:
 * the status label, the ten-step checklist, the remaining-time estimate and the duration display.
 */
module GenerationProgress {
  import opened Wrappers

  /** The label thresholds: label `i` is shown while progress is below `Thresholds[i]`. */
  const Thresholds: seq<int> := [10, 20, 30, 40, 50, 60, 70, 80, 90, 95, 100]

  const Labels: seq<string> := [
    "Wird initialisiert...",
    "Drehbuch wird analysiert...",
    "Szenen werden aufgebaut...",
    "Charaktere werden extrahiert...",
    "Kamera wird eingerichtet...",
    "Beleuchtung wird konfiguriert...",
    "Sound-Design wird erstellt...",
    "AI-Stimmen werden generiert...",
    "Videos werden gerendert...",
    "Timeline wird erstellt...",
    "Film wird exportiert...",
    "Abgeschlossen!"]

  /** The index of the first threshold at or after `i` that `progress` is below, or 11. */
  function LabelFrom(progress: int, i: nat): (k: nat)
    requires i <= |Thresholds|
    ensures i <= k <= |Thresholds|
    ensures forall m :: i <= m < k ==> progress >= Thresholds[m]
    ensures k < |Thresholds| ==> progress < Thresholds[k]
    decreases |Thresholds| - i
  {
    if i == |Thresholds| || progress < Thresholds[i] then i else LabelFrom(progress, i + 1)
  }

  /** `getProgressMessage`'s if-chain, as the position of the label it returns. */
  function LabelIndex(progress: int): (k: nat)
    ensures k < |Labels|
    ensures k == 0 <==> progress < 10
    ensures k == |Labels| - 1 <==> progress >= 100
    ensures 0 < k < |Labels| - 1 ==> Thresholds[k - 1] <= progress < Thresholds[k]
  {
    LabelFrom(progress, 0)
  }

  function ProgressMessage(progress: int): string {
    Labels[LabelIndex(progress)]
  }

  /** More progress never shows an earlier label. */
  lemma LabelMonotone(p: int, q: int)
    requires p <= q
    ensures LabelIndex(p) <= LabelIndex(q)
  {
  }

  // ---------------------------------------------------------------------------------------------
  // The ten-step checklist
  // ---------------------------------------------------------------------------------------------

  datatype StepState = Pending | Active | Complete

  /** Step `idx` covers the progress range from `10 * idx` up to `10 * idx + 10`. */
  function StepStart(idx: nat): int { 10 * idx }

  function StepEnd(idx: nat): int { 10 * idx + 10 }

  /** `isActive` and `isComplete` for one step. */
  function StepOf(progress: int, idx: nat): StepState {
    if progress >= StepEnd(idx) then Complete
    else if progress >= StepStart(idx) then Active
    else Pending
  }

  /** The states of steps `idx` to 9. */
  function StepsFrom(progress: int, idx: nat): (r: seq<StepState>)
    requires idx <= 10
    ensures |r| == 10 - idx
    ensures forall m :: 0 <= m < |r| ==> r[m] == StepOf(progress, idx + m)
    decreases 10 - idx
  {
    if idx == 10 then [] else [StepOf(progress, idx)] + StepsFrom(progress, idx + 1)
  }

  /** The checklist's ten states, in step order. */
  function Steps(progress: int): (r: seq<StepState>)
    ensures |r| == 10
  {
    StepsFrom(progress, 0)
  }

  /**
   * Below 100 (and from 0) exactly one step is active, the one whose range holds the progress,
   * and the complete steps are exactly those before it.
   */
  lemma OneActiveStep(progress: int)
    requires 0 <= progress < 100
    ensures var s := Steps(progress);
      && s[progress / 10] == Active
      && forall idx :: 0 <= idx < 10 ==>
           (s[idx] == Active <==> idx == progress / 10) && (s[idx] == Complete <==> idx < progress / 10)
  {
  }

  /** From 100 on every step is complete. */
  lemma AllStepsComplete(progress: int)
    requires progress >= 100
    ensures forall idx :: 0 <= idx < 10 ==> Steps(progress)[idx] == Complete
  {
  }

  // ---------------------------------------------------------------------------------------------
  // Remaining time and duration display
  // ---------------------------------------------------------------------------------------------

  /** `Math.ceil`. */
  function Ceil(x: real): (n: int)
    ensures n as real - 1.0 < x <= n as real
  {
    -((-x).Floor)
  }

  /** The remaining time: a whole number of seconds below a minute, else of minutes. */
  datatype Remaining = Seconds(s: int) | Minutes(m: int)

  /**
   * `estimatedTimeRemaining`: nothing while not generating or at progress 0; otherwise the
   * elapsed seconds scaled to the missing progress, rounded up in seconds below 60 and in
   * minutes from 60. `elapsed` stands for the seconds since the start (0 without a start time).
   */
  function TimeRemaining(isGenerating: bool, progress: int, elapsed: real): (r: Option<Remaining>)
    ensures r.None? <==> !isGenerating || progress == 0
    ensures r.Some? ==>
      var remaining := elapsed / progress as real * (100 - progress) as real;
      && (remaining < 60.0 ==> r.value.Seconds? && r.value.s as real - 1.0 < remaining <= r.value.s as real)
      && (remaining >= 60.0 ==> r.value.Minutes? && r.value.m as real - 1.0 < remaining / 60.0 <= r.value.m as real)
  {
    if !isGenerating || progress == 0 then None
    else
      var rate := elapsed / progress as real;
      var remaining := rate * (100 - progress) as real;
      if remaining < 60.0 then Some(Seconds(Ceil(remaining))) else Some(Minutes(Ceil(remaining / 60.0)))
  }

  /** What the duration display shows: `0s`, seconds with one decimal, or minutes and seconds. */
  datatype Duration = NoDuration | Fractional(seconds: real) | MinutesSeconds(minutes: int, secs: int)

  /** `formatDuration` for a numeric argument; zero is the only falsy number modelled. */
  function FormatDuration(seconds: real): (d: Duration)
    ensures seconds == 0.0 <==> d == NoDuration
    ensures seconds != 0.0 && seconds < 60.0 ==> d == Fractional(seconds)
    ensures seconds >= 60.0 ==>
      && d.MinutesSeconds? && 0 <= d.secs < 60 && d.minutes >= 1
      && (d.minutes * 60 + d.secs) as real <= seconds < (d.minutes * 60 + d.secs + 1) as real
  {
    if seconds == 0.0 then NoDuration
    else if seconds < 60.0 then Fractional(seconds)
    else
      var minutes := (seconds / 60.0).Floor;
      var secs := (seconds - 60.0 * minutes as real).Floor;
      MinutesSeconds(minutes, secs)
  }
}
