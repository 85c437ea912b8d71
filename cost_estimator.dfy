/**
 * `CostEstimator`: the cost estimate shown while a screenplay is typed: the number of scenes,
 * the number of dialogue characters, and the video, speech and total costs in dollars.
 */
module CostEstimator {
  import opened Wrappers
  import opened Text

  /** The estimate: money in dollars, as exact reals. */
  datatype Estimate = Estimate(scenes: nat, dialogChars: nat, videoCost: real, ttsCost: real, totalCost: real)

  // ---------------------------------------------------------------------------------------------
  // Scene count: the matches of /\b(INT\.|EXT\.)/gi
  // ---------------------------------------------------------------------------------------------

  /** A regular-expression word character (`\w`). */
  predicate IsWordChar(c: char) {
    'a' <= c <= 'z' || 'A' <= c <= 'Z' || '0' <= c <= '9' || c == '_'
  }

  /** `INT.` or `EXT.`, in any letter case, starts at `p` just after a word boundary. */
  predicate SceneMarkAt(s: string, p: int) {
    && 0 <= p && p + 4 <= |s|
    && (p == 0 || !IsWordChar(s[p - 1]))
    && ((UpperChar(s[p]) == 'I' && UpperChar(s[p + 1]) == 'N') || (UpperChar(s[p]) == 'E' && UpperChar(s[p + 1]) == 'X'))
    && UpperChar(s[p + 2]) == 'T' && s[p + 3] == '.'
  }

  /** The global match from `from` on: after a match the search resumes behind it. */
  function Marks(s: string, from: nat): nat
    decreases |s| - from
  {
    if from >= |s| then 0
    else if SceneMarkAt(s, from) then 1 + Marks(s, from + 4)
    else Marks(s, from + 1)
  }

  /** The search finds nothing exactly when no heading mark starts at or after `from`. */
  lemma {:induction false} MarksNone(s: string, from: nat)
    ensures Marks(s, from) == 0 <==> forall p :: from <= p < |s| ==> !SceneMarkAt(s, p)
    decreases |s| - from
  {
    if from < |s| && !SceneMarkAt(s, from) {
      MarksNone(s, from + 1);
    }
  }

  /** `sceneMatches.length || 1`. */
  function EstimatedScenes(s: string): (n: nat)
    ensures n >= 1
    ensures n == 1 <==> Marks(s, 0) <= 1
    ensures n > 1 ==> n == Marks(s, 0)
  {
    var matches := Marks(s, 0);
    if matches == 0 then 1 else matches
  }

  // ---------------------------------------------------------------------------------------------
  // Dialogue characters: the line scan
  // ---------------------------------------------------------------------------------------------

  /** A trimmed line that names a speaker: non-empty, unchanged by upper-casing, shorter than 30. */
  predicate IsCue(t: string) {
    |t| > 0 && t == Upper(t) && |t| < 30
  }

  /** The state of the scan: in dialogue mode or not, and the characters counted so far. */
  datatype ScanState = ScanState(inDialog: bool, chars: nat)

  /** One line of the scan. */
  function Step(st: ScanState, line: string): ScanState {
    var t := TrimJs(line);
    if IsCue(t) then st.(inDialog := true)
    else if |t| == 0 then st.(inDialog := false)
    else if st.inDialog && !StartsWith(t, "(") then st.(chars := st.chars + |t|)
    else st
  }

  /** The scan over the first `k` lines. */
  function Scan(lines: seq<string>, k: nat): ScanState
    requires k <= |lines|
  {
    if k == 0 then ScanState(false, 0) else Step(Scan(lines, k - 1), lines[k - 1])
  }

  /** Line `j` is a cue after which lines `j + 1 .. k - 1` are all non-blank. */
  predicate OpenCue(lines: seq<string>, j: int, k: nat)
    requires k <= |lines|
  {
    0 <= j < k && IsCue(TrimJs(lines[j])) && forall m :: j < m < k ==> |TrimJs(lines[m])| > 0
  }

  /** How one line moves the dialogue mode: a cue enters it, a blank line leaves it, any other line keeps it. */
  lemma ModeStep(lines: seq<string>, k: nat)
    requires 0 < k <= |lines|
    ensures IsCue(TrimJs(lines[k - 1])) ==> Scan(lines, k).inDialog
    ensures !IsCue(TrimJs(lines[k - 1])) && |TrimJs(lines[k - 1])| == 0 ==> !Scan(lines, k).inDialog
    ensures !IsCue(TrimJs(lines[k - 1])) && |TrimJs(lines[k - 1])| > 0 ==> Scan(lines, k).inDialog == Scan(lines, k - 1).inDialog
  {
  }

  /** A cue open after `k - 1` lines stays open over a non-blank line. */
  lemma OpenCueGrow(lines: seq<string>, j: int, k: nat)
    requires 0 < k <= |lines| && OpenCue(lines, j, k - 1) && |TrimJs(lines[k - 1])| > 0
    ensures OpenCue(lines, j, k)
  {
  }

  /** A cue still open after `k` lines was already open one line earlier. */
  lemma OpenCueShrink(lines: seq<string>, j: int, k: nat)
    requires 0 <= j < k - 1 && k <= |lines|
    ensures OpenCue(lines, j, k) ==> OpenCue(lines, j, k - 1)
  {
  }

  /**
   * After `k` lines the scan is in dialogue mode exactly when some earlier line was a cue and
   * no blank line has followed it.
   */
  lemma {:induction false} DialogMode(lines: seq<string>, k: nat)
    requires k <= |lines|
    ensures Scan(lines, k).inDialog <==> exists j :: OpenCue(lines, j, k)
  {
    if k > 0 {
      DialogMode(lines, k - 1);
      var t := TrimJs(lines[k - 1]);
      ModeStep(lines, k);
      if IsCue(t) {
        assert OpenCue(lines, k - 1, k);
      } else if |t| == 0 {
        forall j | 0 <= j < k
          ensures !OpenCue(lines, j, k)
        {
          if j < k - 1 {
            assert !(|TrimJs(lines[k - 1])| > 0);
          }
        }
      } else {
        if Scan(lines, k - 1).inDialog {
          var j :| OpenCue(lines, j, k - 1);
          OpenCueGrow(lines, j, k);
        } else {
          forall j | 0 <= j < k
            ensures !OpenCue(lines, j, k)
          {
            if j < k - 1 {
              OpenCueShrink(lines, j, k);
            }
          }
        }
      }
    }
  }

  /** Lines before the first cue count nothing, and the count never shrinks. */
  lemma {:induction false} NothingBeforeCue(lines: seq<string>, k: nat)
    requires k <= |lines|
    requires forall j :: 0 <= j < k ==> !IsCue(TrimJs(lines[j]))
    ensures Scan(lines, k) == ScanState(false, 0)
  {
    if k > 0 {
      NothingBeforeCue(lines, k - 1);
    }
  }

  /**
   * A line adds to the count only in dialogue mode, only when it is neither a cue, blank, nor
   * a parenthetical, and then it adds its trimmed length.
   */
  lemma StepCounts(st: ScanState, line: string)
    ensures var t := TrimJs(line);
      Step(st, line).chars
        == st.chars + (if st.inDialog && !IsCue(t) && |t| > 0 && !StartsWith(t, "(") then |t| else 0)
  {
  }

  /** `lines.forEach(...)`: the scan over all lines, updating the mode and the count in place. */
  method CountDialogChars(lines: seq<string>) returns (dialogCharCount: nat)
    ensures dialogCharCount == Scan(lines, |lines|).chars
  {
    dialogCharCount := 0;
    var inDialog := false;
    var i := 0;
    while i < |lines|
      invariant i <= |lines|
      invariant ScanState(inDialog, dialogCharCount) == Scan(lines, i)
    {
      var trimmedLine := TrimJs(lines[i]);
      if |trimmedLine| > 0 && trimmedLine == Upper(trimmedLine) && |trimmedLine| < 30 {
        inDialog := true;
      } else if |trimmedLine| == 0 {
        inDialog := false;
      } else if inDialog && !StartsWith(trimmedLine, "(") {
        dialogCharCount := dialogCharCount + |trimmedLine|;
      }
      i := i + 1;
    }
  }

  // ---------------------------------------------------------------------------------------------
  // Rates and the estimate
  // ---------------------------------------------------------------------------------------------

  /** The `videoCosts` table: dollars per scene for each quality tier. */
  const VideoCosts: map<string, real> := map["low" := 0.01, "medium" := 0.03, "high" := 0.06, "ultra" := 0.10]

  /** `videoCosts[selectedQuality] || 0.03`: dollars per scene. */
  function VideoRate(quality: string): (r: real)
    ensures r > 0.0
  {
    if quality == "low" then 0.01
    else if quality == "medium" then 0.03
    else if quality == "high" then 0.06
    else if quality == "ultra" then 0.10
    else 0.03
  }

  /** The rate is the tier's entry of the `videoCosts` table, and 0.03 for a tier the table lacks. */
  lemma VideoRateTable(quality: string)
    ensures quality in VideoCosts ==> VideoRate(quality) == VideoCosts[quality]
    ensures quality !in VideoCosts ==> VideoRate(quality) == 0.03
  {
  }

  /** Speech costs $0.015 per 1000 characters. */
  function TtsCost(chars: nat): real {
    (chars as real / 1000.0) * 0.015
  }

  /** The prices of `scenes` scenes and `chars` dialogue characters at a quality tier. */
  function Priced(scenes: nat, chars: nat, quality: string): Estimate {
    var video := scenes as real * VideoRate(quality);
    var tts := TtsCost(chars);
    Estimate(scenes, chars, video, tts, video + tts)
  }

  /** The dialogue characters of a screenplay: the scan over its lines. */
  function DialogChars(screenplay: string): nat {
    var lines := Split(screenplay, '\n');
    Scan(lines, |lines|).chars
  }

  /** The estimate for a screenplay and a quality tier: nothing for a blank screenplay. */
  function EstimateOf(screenplay: string, quality: string): Option<Estimate> {
    if |TrimJs(screenplay)| == 0 then None
    else Some(Priced(EstimatedScenes(screenplay), DialogChars(screenplay), quality))
  }

  /**
   * There is an estimate exactly when the screenplay has a non-white-space character; it counts
   * at least one scene, prices the scenes at the tier's rate and the dialogue characters at the
   * speech rate, and its total is their sum; no cost is negative.
   */
  lemma EstimateFacts(screenplay: string, quality: string)
    ensures EstimateOf(screenplay, quality).None? <==> forall m :: 0 <= m < |screenplay| ==> IsJsSpace(screenplay[m])
    ensures EstimateOf(screenplay, quality).Some? ==>
      var e := EstimateOf(screenplay, quality).value;
      && e.scenes >= 1
      && e.videoCost == e.scenes as real * VideoRate(quality)
      && e.ttsCost == e.dialogChars as real / 1000.0 * 0.015
      && e.totalCost == e.videoCost + e.ttsCost
      && e.videoCost > 0.0 && e.ttsCost >= 0.0 && e.totalCost > 0.0
  {
    TrimFacts(screenplay, JsSpaces);
  }

  /** A screenplay without a heading mark is estimated at one scene. */
  lemma NoMarkOneScene(screenplay: string)
    requires forall p :: 0 <= p < |screenplay| ==> !SceneMarkAt(screenplay, p)
    ensures EstimatedScenes(screenplay) == 1
  {
    MarksNone(screenplay, 0);
  }

  /**
   * `costEstimate`: the estimate is recomputed from the screenplay and the quality tier only;
   * the selected style has no influence on it.
   */
  method CostEstimate(screenplay: string, selectedQuality: string, selectedStyle: string) returns (estimate: Option<Estimate>)
    ensures estimate == EstimateOf(screenplay, selectedQuality)
  {
    if |TrimJs(screenplay)| == 0 {
      return None;
    }
    var estimatedScenes := EstimatedScenes(screenplay);
    var lines := Split(screenplay, '\n');
    var dialogCharCount := CountDialogChars(lines);
    var videoCostPerScene := VideoRate(selectedQuality);
    var totalVideoCost := estimatedScenes as real * videoCostPerScene;
    var ttsCost := (dialogCharCount as real / 1000.0) * 0.015;
    var totalCost := totalVideoCost + ttsCost;
    estimate := Some(Estimate(estimatedScenes, dialogCharCount, totalVideoCost, ttsCost, totalCost));
    assert estimate.value == Priced(estimatedScenes, dialogCharCount, selectedQuality);
  }
}
