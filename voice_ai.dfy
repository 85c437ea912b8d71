/**
 * `VoiceAI`: a persistent mapping from character names to the six text-to-speech voices,
 * assigned round-robin, and the audio clips of a scene's dialogues. The speech service itself
 * is an oracle: the model is told which requests succeed.
 */
module VoiceAI {
  import opened Screenplay

  const AvailableVoices: seq<string> := ["alloy", "echo", "fable", "onyx", "nova", "shimmer"]

  /** The voice used for a name without a mapping. */
  const DefaultVoice: string := "alloy"

  /** The mapping after assigning the first `k` names round-robin, starting from `m`. */
  function Assigned(m: map<string, string>, names: seq<string>, k: nat): map<string, string>
    requires k <= |names|
  {
    if k == 0 then m else Assigned(m, names, k - 1)[names[k - 1] := AvailableVoices[(k - 1) % |AvailableVoices|]]
  }

  /** A name outside the list keeps its mapping, or stays unmapped. */
  lemma {:induction false} AssignedKeeps(m: map<string, string>, names: seq<string>, k: nat, n: string)
    requires k <= |names| && forall i :: 0 <= i < k ==> names[i] != n
    ensures n in Assigned(m, names, k) <==> n in m
    ensures n in m ==> Assigned(m, names, k)[n] == m[n]
  {
    if k > 0 {
      AssignedKeeps(m, names, k - 1, n);
    }
  }

  /** Of distinct names, the `i`-th gets the voice at position `i mod 6`. */
  lemma {:induction false} AssignedVoice(m: map<string, string>, names: seq<string>, k: nat, i: nat)
    requires i < k <= |names|
    requires forall a, b :: 0 <= a < b < k ==> names[a] != names[b]
    ensures names[i] in Assigned(m, names, k) && Assigned(m, names, k)[names[i]] == AvailableVoices[i % 6]
  {
    if i < k - 1 {
      AssignedVoice(m, names, k - 1, i);
    }
  }

  /** One audio request: the dialogue it voices and whether the speech service answered. */
  function ClipsOf(dialogs: seq<Dialog>, succeeded: seq<bool>, mapping: map<string, string>, k: nat): (clips: seq<AudioClip>)
    requires k <= |dialogs| == |succeeded|
    ensures |clips| <= k
  {
    if k == 0 then []
    else
      var front := ClipsOf(dialogs, succeeded, mapping, k - 1);
      var d := dialogs[k - 1];
      if succeeded[k - 1] then front + [AudioClip(d.character, d.text, VoiceOf(mapping, d.character))] else front
  }

  /** The voice of a name: its mapping, or the default voice. */
  function VoiceOf(mapping: map<string, string>, name: string): string {
    if name in mapping then mapping[name] else DefaultVoice
  }

  /** The number of requests among the first `k` that succeeded. */
  function Successes(succeeded: seq<bool>, k: nat): nat
    requires k <= |succeeded|
  {
    if k == 0 then 0 else Successes(succeeded, k - 1) + (if succeeded[k - 1] then 1 else 0)
  }

  /**
   * There is one clip per successful request, and clip `c` voices the dialogue of the `c`-th
   * successful request, in dialogue order, with that speaker's voice; failed requests are skipped.
   */
  lemma {:induction false} ClipsFacts(dialogs: seq<Dialog>, succeeded: seq<bool>, mapping: map<string, string>, k: nat)
    requires k <= |dialogs| == |succeeded|
    ensures |ClipsOf(dialogs, succeeded, mapping, k)| == Successes(succeeded, k)
    ensures forall i :: 0 <= i < k && succeeded[i] ==>
      var c := Successes(succeeded, i);
      c < |ClipsOf(dialogs, succeeded, mapping, k)|
      && ClipsOf(dialogs, succeeded, mapping, k)[c]
         == AudioClip(dialogs[i].character, dialogs[i].text, VoiceOf(mapping, dialogs[i].character))
  {
    if k > 0 {
      ClipsFacts(dialogs, succeeded, mapping, k - 1);
      SuccessesGrow(succeeded, k - 1);
    }
  }

  lemma {:induction false} SuccessesGrow(succeeded: seq<bool>, k: nat)
    requires k <= |succeeded|
    ensures forall i :: 0 <= i <= k ==> Successes(succeeded, i) <= Successes(succeeded, k)
  {
    if k > 0 {
      SuccessesGrow(succeeded, k - 1);
    }
  }

  /** `VoiceAI`: its mapping persists across calls. */
  class Voices {
    var voiceMapping: map<string, string>

    constructor ()
      ensures voiceMapping == map[]
    {
      voiceMapping := map[];
    }

    /**
     * `assign_voices`: the names are the keys of the character registry in its key order; the
     * `i`-th gets voice `i mod 6`, and the whole mapping is returned.
     */
    method AssignVoices(names: seq<string>) returns (mapping: map<string, string>)
      modifies this
      ensures voiceMapping == Assigned(old(voiceMapping), names, |names|)
      ensures mapping == voiceMapping
    {
      var i := 0;
      while i < |names|
        invariant i <= |names|
        invariant voiceMapping == Assigned(old(voiceMapping), names, i)
      {
        var voice := AvailableVoices[i % |AvailableVoices|];
        voiceMapping := voiceMapping[names[i] := voice];
        i := i + 1;
      }
      mapping := voiceMapping;
    }

    /** `voice_mapping.get(character, 'alloy')`. */
    function VoiceFor(name: string): (voice: string)
      reads this
      ensures name in voiceMapping ==> voice == voiceMapping[name]
      ensures name !in voiceMapping ==> voice == DefaultVoice
    {
      VoiceOf(voiceMapping, name)
    }

    /**
     * `generate_scene_audio`: one speech request per dialogue in order; request `i` succeeds
     * exactly when `succeeded[i]` holds, and a failed request adds no clip.
     */
    method GenerateSceneAudio(scene: Scene, succeeded: seq<bool>) returns (clips: seq<AudioClip>)
      requires |succeeded| == |scene.dialogs|
      ensures clips == ClipsOf(scene.dialogs, succeeded, voiceMapping, |scene.dialogs|)
    {
      clips := [];
      var i := 0;
      while i < |scene.dialogs|
        invariant i <= |scene.dialogs|
        invariant clips == ClipsOf(scene.dialogs, succeeded, voiceMapping, i)
      {
        var dialog := scene.dialogs[i];
        if succeeded[i] {
          clips := clips + [AudioClip(dialog.character, dialog.text, VoiceFor(dialog.character))];
        }
        i := i + 1;
      }
    }
  }
}
