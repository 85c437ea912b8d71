# Filmapp2: screenplay pipeline and job lifecycle, modelled in Dafny

Filmapp2 turns a screenplay into a film. The backend parses the screenplay into scenes at its
`INT.`/`EXT.` headings. Rule engines then give every scene a visual description, a camera setup, a
lighting setup and a sound design. A registry counts the characters, voices are assigned round
robin, and the scenes are laid end to end on a timeline. The result is an export record listing
the playable scene videos. In the browser, a cost estimate is shown while the screenplay is typed.
Submitting starts a generation job whose status is polled every two seconds. A progress panel maps
the job's percentage to a label, a ten-step checklist and a remaining-time estimate. A preview
lists the scenes, plays the playable ones and opens their downloads one after another.

The project has one Dafny module per source file, plus three shared modules:

- `Wrappers`: `Option`.
- `Text`: the string built-ins the sources call, written out. These are Python's `str.strip`,
  `split`, `join`, `lower` and `isupper`, and JavaScript's `trim` and `toUpperCase`.
- `Screenplay`: the scene and export records, and the playability rule shared by backend and
  frontend.

The form follows the source:

- Pure decision tables and formatters are functions.
- Loops are methods. Each is proved equal to a specification function, and the promised
  properties are lemmas about that function.
- The rule engines' `apply_*` loops write each element of an `array<Scene>` in place.
- Objects that keep state across calls are classes whose methods update their fields. These are
  the character registry, the timeline manager, the voice mapping, the preview's selection and
  the page's job tracker.

Three behaviours of the source are worth noting:

- The progress label table has twelve labels, with extra thresholds at 95 and 100
  (GenerationProgress.jsx:14-16).
- A URL is playable only when it is also non-empty, because of JavaScript truthiness
  (VideoPreview.jsx:137).
- Submitting again neither clears the previous job's poll interval nor ignores its responses
  (App.js:65-91). The model keeps every job whose interval still runs in `polling`, and their
  responses keep updating the page.

## Model

| member | source | states |
|---|---|---|
| Screenplay.PlayableIndices | frontend/src/components/VideoPreview.jsx:137 | the indices of the scenes whose URL is non-empty and does not start with `placeholder`: strictly increasing, and every playable scene is among them |
| Screenplay.AnyPlayable | frontend/src/components/VideoPreview.jsx:230 | some scene is playable exactly when the playable filter keeps at least one scene |
| Text.TrimFacts | backend/modules/scene_parser.py:54 | `strip()`/`trim()` gives the empty string exactly when every character is white space; otherwise the result neither starts nor ends with white space, and it occurs in the input with only white space before and after it |
| Text.SplitJoin | backend/modules/scene_parser.py:52 | `split('\n')` gives pieces that contain no separator and that join back, with the separator, to the input |
| Text.LowerAt | backend/modules/lighting_ai.py:44 | `lower()` maps each character to its ASCII lower case and keeps the length |
| Text.UpperAt | frontend/src/components/CostEstimator.jsx:22 | `toUpperCase()` maps each character to its ASCII upper case and keeps the length |
| Text.Take | backend/modules/scene_builder.py:42 | a slice `[:n]` keeps the first `min(n, len)` elements unchanged |
| SceneParser.FindHeading | backend/modules/scene_parser.py:27 | the split's next match is an `INT.`/`EXT.` followed by white space, at or after the search position |
| SceneParser.FindHeadingFirst | backend/modules/scene_parser.py:27 | that match is the leftmost one, and no match means no heading from there on |
| SceneParser.SplitFrom | backend/modules/scene_parser.py:27 | from a heading on, the split yields heading/content pairs (an even number, at least two) |
| SceneParser.SplitFromFacts | backend/modules/scene_parser.py:27-33 | every heading piece is `INT.` or `EXT.`, and no content piece starts with white space (the `\s+` is consumed) |
| SceneParser.SplitHeadingsOdd | backend/modules/scene_parser.py:27-31 | `re.split` with one group gives an odd number of pieces, so the loop's `i + 1 < len` test always holds |
| SceneParser.SplitHeadingsSingle | backend/modules/scene_parser.py:27 | the split has one piece exactly when the text has no heading |
| SceneParser.SplitHeadingsWell | backend/modules/scene_parser.py:27-33 | pieces at odd indices are headings and the pieces after them are contents |
| SceneParser.PreambleIgnored | backend/modules/scene_parser.py:27-30 | cutting the text before the first heading leaves every piece from index 1 on unchanged |
| SceneParser.PreambleIgnoredScenes | backend/modules/scene_parser.py:27-30 | text before the first heading does not change the parsed scenes |
| SceneParser.NoHeadingNoScenes | backend/modules/scene_parser.py:27-30 | the result is empty exactly when the text has no `INT.`/`EXT.` heading followed by white space |
| SceneParser.LocationRun | backend/modules/scene_parser.py:36 | the location run `[^\n-]+` holds no newline and no `-` |
| SceneParser.LocationFacts | backend/modules/scene_parser.py:36-37 | the location is `Unknown` when the content is empty or starts with a newline or `-`; otherwise it is the stripped run up to the first newline or `-` |
| SceneParser.ParsedLocationNonEmpty | backend/modules/scene_parser.py:36-37 | for content as the split delivers it, the location is never empty |
| SceneParser.KeywordAt | backend/modules/scene_parser.py:59-73 | a directive keyword matches case-insensitively, and the first alternative of the group that matches is taken |
| SceneParser.KindOf | backend/modules/scene_parser.py:53-87 | each kind is taken exactly when every earlier test failed and its own test holds: blank when the line strips to nothing; camera, then light, then sound when that keyword group occurs, carrying the stripped text after the keyword; a cue when the undirected line is upper case, longer than 2 and has a following line, with the next line stripped as its text; an action when it is not upper case and longer than 10; dropped otherwise |
| SceneParser.FoldRecords | backend/modules/scene_parser.py:53-87 | folding the classifications in order keeps every entry once added: each classification's entry is in the final lists |
| SceneParser.ScanRecords | backend/modules/scene_parser.py:53-87 | the entry every line's classification contributes is still in the lists after the line loop |
| SceneParser.UpperLineIsDialog | backend/modules/scene_parser.py:77-84 | an undirected upper-case line longer than 2 with a following line becomes a dialogue with the next line as its text, and its speaker a character |
| SceneParser.LongLineIsAction | backend/modules/scene_parser.py:86-87 | an undirected line that is not upper case and longer than 10 becomes an action |
| SceneParser.OtherLineDropped | backend/modules/scene_parser.py:77-87 | an undirected line that passes neither test adds nothing |
| SceneParser.ParseLine | backend/modules/scene_parser.py:54-87 | one pass of the line loop adds the line to exactly the list its classification names |
| SceneParser.ParseSceneBody | backend/modules/scene_parser.py:52-88 | the line loop's lists are the fold of the line classifications |
| SceneParser.ScanIsFold | backend/modules/scene_parser.py:53-88 | the line loop equals the fold of the classified lines |
| SceneParser.AddNameFacts | backend/modules/scene_parser.py:84 | adding a name to the set keeps it free of duplicates and adds exactly that name |
| SceneParser.SpeakersFacts | backend/modules/scene_parser.py:84-89 | `characters` has no duplicates and holds exactly the speakers of the scene's dialogues |
| SceneParser.ClassifiedWell | backend/modules/scene_parser.py:77-87 | every classified cue is an upper-case name longer than 2, and every action a non-upper-case line longer than 10 |
| SceneParser.ApplyFacts | backend/modules/scene_parser.py:55-87 | one line adds at most one entry, and only one that passed its test |
| SceneParser.ScanFacts | backend/modules/scene_parser.py:53-87 | after the loop every dialogue and action passed its test, and there are no more entries than lines |
| SceneParser.PairsAt | backend/modules/scene_parser.py:30-33 | the loop's `k`-th chunk is made of the pieces at `i + 2k` and `i + 2k + 1` |
| SceneParser.NumberedAt | backend/modules/scene_parser.py:40 | the `k`-th scene built is numbered `n + k` |
| SceneParser.ParsedShape | backend/modules/scene_parser.py:30-41 | scene `k` is numbered `k + 1`, comes from heading piece `2k + 1`, and is `INTERIOR` exactly when that heading is `INT.`, else `EXTERIOR` |
| SceneParser.ParsedScenesWellFormed | backend/modules/scene_parser.py:36-89 | every parsed scene has a non-empty location and a duplicate-free `characters` list holding exactly its speakers |
| SceneParser.ParseScene | backend/modules/scene_parser.py:32-90 | one loop iteration builds the scene of its heading/content pair |
| SceneParser.Parse | backend/modules/scene_parser.py:20-93 | `parse` returns one scene per heading/content pair, numbered 1, 2, 3, ... in heading order |
| SceneBuilder.StyleModifier | backend/modules/scene_builder.py:18-24 | realistic and animated have their own modifier; any other style gets the cinematic one |
| SceneBuilder.PartPositions | backend/modules/scene_builder.py:27-48 | the parts come in the order location, camera, lighting, actions, characters; each optional part is present exactly when its list is non-empty |
| SceneBuilder.Description | backend/modules/scene_builder.py:51-54 | the description is the full text's first `min(len, 1000)` characters: a prefix of it, exactly 1000 long when the full text is longer, and the full text when that fits |
| SceneBuilder.DescriptionStart | backend/modules/scene_builder.py:27-51 | the full text starts with the style modifier, `, `, then `<type lowercased> scene in <location>` |
| SceneBuilder.DescriptionUsesFirstEntries | backend/modules/scene_builder.py:42-47 | only the first 2 actions and the first 3 characters influence the description |
| SceneBuilder.BuildScenes | backend/modules/scene_builder.py:60-66 | every scene of the list gets its description in place, and the same scenes are returned in the same order |
| CameraAI.AnalyzeScene | backend/modules/camera_ai.py:25-50 | an explicit camera list becomes the shots and there are no movements; otherwise scene 1 opens with the wide shot, dialogues add the medium shot, more than 2 add the close-up after it, and more than one action adds the pan; `angles` is always empty |
| CameraAI.ApplyCameraToScenes | backend/modules/camera_ai.py:56-60 | every scene gets its camera setup in place and nothing else changes |
| LightingAI.AnalyzeLighting | backend/modules/lighting_ai.py:24-53 | explicit lighting gives `custom` with the lines joined by `, `; otherwise dark/night/shadow give `dramatic` first, then warm/cozy give `candlelight`, else exterior is `natural` and interior `soft`, each with its preset description; `mood` is always empty |
| LightingAI.ApplyLightingToScenes | backend/modules/lighting_ai.py:59-63 | every scene gets its lighting setup in place |
| SoundAI.AnalyzeSound | backend/modules/sound_ai.py:26-51 | the effects are the explicit sound list; the ambient list is the exterior one exactly for exterior scenes; the music is emotional for more than 2 dialogues, else action for more than 2 actions, else dramatic |
| SoundAI.ApplySoundToScenes | backend/modules/sound_ai.py:57-61 | every scene gets its sound design in place |
| TimelineManager.SceneDuration | backend/modules/timeline_manager.py:22-24 | a duration is `max(5, 3 * dialogues + 2 * actions)` and so at least 5 |
| TimelineManager.TotalOf | backend/modules/timeline_manager.py:37 | the running time after `k` scenes is at least `5k` |
| TimelineManager.TimelineAt | backend/modules/timeline_manager.py:20-36 | entry `i` is scene `i`'s entry, starting after the scenes before it |
| TimelineManager.TimelineEntryAt | backend/modules/timeline_manager.py:26-37 | entry `i` carries scene `i`'s number and duration, starts at the sum of the earlier durations, and ends at that sum plus its own |
| TimelineManager.TimelineContiguous | backend/modules/timeline_manager.py:18-40 | the first entry starts at 0, each end is start plus duration, each start is the previous end, and the total is the last end (0 for none) |
| TimelineManager.TimelineFacts | backend/modules/timeline_manager.py:18-40 | one entry per scene in scene order, with its number and duration, and the timeline is contiguous |
| TimelineManager.Manager.constructor | backend/modules/timeline_manager.py:10-12 | a new manager holds an empty timeline of total 0 |
| TimelineManager.Manager.CreateTimeline | backend/modules/timeline_manager.py:14-43 | the loop builds the timeline of the scenes, replaces the held timeline with it, and sets the total to the sum of durations; the manager stays contiguous |
| TimelineManager.Manager.GetTimelineInfo | backend/modules/timeline_manager.py:49-55 | the info reports the held timeline, its length, and a total equal to its last end |
| CharacterAI.SpokenIn | backend/modules/character_ai.py:35-37 | a character's dialogue count in a scene is at most the number of dialogues |
| CharacterAI.Occurrences | backend/modules/character_ai.py:32 | a name's count in a listing is zero exactly when it is not listed |
| CharacterAI.TrackSceneKeys | backend/modules/character_ai.py:32-33 | recording one scene adds or removes no profile |
| CharacterAI.TrackSceneProfile | backend/modules/character_ai.py:32-37 | recording one scene appends its number and adds its dialogues to a held profile, once per listing of the name |
| CharacterAI.TrackedProfile | backend/modules/character_ai.py:31-37 | recording all scenes keeps the keys, and each held profile gains the numbers of the scenes listing it, in scene order, and their dialogues of that name |
| CharacterAI.AllNamesListed | backend/modules/character_ai.py:17-19 | a name is collected exactly when some scene lists it |
| CharacterAI.OccurrencesOnce | backend/modules/character_ai.py:32 | in a listing without repeats a listed name occurs once |
| CharacterAI.ExtractKeys | backend/modules/character_ai.py:15-28 | afterwards the keys are the old ones plus every listed name, each profile is filed under its own name, and every listed name has a profile |
| CharacterAI.ExtractProfile | backend/modules/character_ai.py:22-37 | an old profile is never reset but extended by the scenes listing it; a new one starts empty and gets exactly those |
| CharacterAI.ExtractFacts | backend/modules/character_ai.py:12-40 | both of the above together: the registry accumulates across calls |
| CharacterAI.RegisteredProfile | backend/modules/character_ai.py:23-28 | the profile loop keeps an existing profile and adds `{name, [], 0}` for a new name |
| CharacterAI.Registry.constructor | backend/modules/character_ai.py:9-10 | a new registry is empty |
| CharacterAI.Registry.CollectNames | backend/modules/character_ai.py:15-19 | the first loop collects the names of all scenes |
| CharacterAI.Registry.RegisterNames | backend/modules/character_ai.py:22-28 | the second loop, in any order of the set, adds an empty profile for every new name |
| CharacterAI.Registry.RecordScenes | backend/modules/character_ai.py:31-37 | the nested loop records every scene on every registered name it lists |
| CharacterAI.Registry.ExtractCharacters | backend/modules/character_ai.py:12-40 | the registry becomes the recorded scenes on top of the registered names, the registry itself is returned, and profiles stay filed under their own names |
| CharacterAI.Registry.GetCharacterInfo | backend/modules/character_ai.py:46-48 | a registered name gives its profile, and any other name gives nothing |
| VoiceAI.AssignedKeeps | backend/modules/voice_ai.py:22-25 | mappings of names not in this call are kept |
| VoiceAI.AssignedVoice | backend/modules/voice_ai.py:17-25 | the `i`-th key gets voice `i mod 6` of alloy, echo, fable, onyx, nova, shimmer |
| VoiceAI.Voices.constructor | backend/modules/voice_ai.py:16 | the mapping starts empty |
| VoiceAI.Voices.AssignVoices | backend/modules/voice_ai.py:19-28 | the loop writes the round-robin voices into the persistent mapping and returns that mapping |
| VoiceAI.Voices.VoiceFor | backend/modules/voice_ai.py:37 | a mapped name gets its voice, and any other name gets `alloy` (the same lookup as for each clip's voice) |
| VoiceAI.ClipsFacts | backend/modules/voice_ai.py:57-73 | there is one clip per successful dialogue, in dialogue order, each with the speaker, text and looked-up voice; failed dialogues are skipped |
| VoiceAI.SuccessesGrow | backend/modules/voice_ai.py:57-73 | the clip count never shrinks as dialogues are processed |
| VoiceAI.Voices.GenerateSceneAudio | backend/modules/voice_ai.py:53-73 | the loop yields exactly those clips |
| ExportModule.VideosCount | backend/modules/export_module.py:23-31 | there is one scene video per playable scene |
| ExportModule.VideoAt | backend/modules/export_module.py:23-31 | the `k`-th scene video is the `k`-th playable scene's number, URL, and duration (5 when absent) |
| ExportModule.VideosArePlayable | backend/modules/export_module.py:23-31 | `scene_videos` holds exactly the playable scenes, in scene order |
| ExportModule.UrlsAt | backend/modules/export_module.py:41 | `download_urls` are the scene videos' URLs, in the same order |
| ExportModule.TimelineDurations | backend/modules/export_module.py:38 | summed over a timeline built from the scenes, the durations are the timeline's total |
| ExportModule.ExportFilm | backend/modules/export_module.py:17-46 | the record holds the playable scene videos and their URLs, counts all scenes, sums the timeline durations, and carries the fixed status, storage type, format, resolution and cloud flag |
| CostEstimator.MarksNone | frontend/src/components/CostEstimator.jsx:11 | the global case-insensitive match of `\b(INT\.|EXT\.)` finds nothing exactly when no such mark starts after a word boundary |
| CostEstimator.EstimatedScenes | frontend/src/components/CostEstimator.jsx:11-12 | the scene count is the number of matches, or 1 when there are none, so at least 1 |
| CostEstimator.NoMarkOneScene | frontend/src/components/CostEstimator.jsx:11-12 | a screenplay without a mark is estimated at one scene |
| CostEstimator.DialogMode | frontend/src/components/CostEstimator.jsx:19-29 | after a line the scan is in dialogue mode exactly when an earlier cue (non-empty, equal to its upper case, shorter than 30) has not been followed by a blank line |
| CostEstimator.NothingBeforeCue | frontend/src/components/CostEstimator.jsx:19-29 | lines before the first cue count nothing |
| CostEstimator.StepCounts | frontend/src/components/CostEstimator.jsx:20-28 | a line adds its trimmed length only in dialogue mode, and only when it is not a cue, not blank and not a parenthetical |
| CostEstimator.CountDialogChars | frontend/src/components/CostEstimator.jsx:15-29 | the `forEach` loop computes the scan's count |
| CostEstimator.VideoRateTable | frontend/src/components/CostEstimator.jsx:32-39 | the rate per scene is the `videoCosts` entry of the tier (low 0.01, medium 0.03, high 0.06, ultra 0.10), and 0.03 for a tier not in the table |
| CostEstimator.EstimateFacts | frontend/src/components/CostEstimator.jsx:6-45 | there is no estimate exactly when the screenplay is white space only; otherwise scenes ≥ 1, video cost = scenes × rate, speech cost = chars / 1000 × 0.015, total = their sum, none negative |
| CostEstimator.CostEstimate | frontend/src/components/CostEstimator.jsx:5-54 | the computation yields the estimate of the screenplay and tier alone; the style has no influence |
| GenerationProgress.LabelFrom | frontend/src/components/GenerationProgress.jsx:4-17 | the label chain stops at the first threshold the progress is below |
| GenerationProgress.LabelIndex | frontend/src/components/GenerationProgress.jsx:4-17 | the first label is exactly for progress below 10, the last (`Abgeschlossen!`) exactly for 100 and above, and any other lies between its two thresholds |
| GenerationProgress.LabelMonotone | frontend/src/components/GenerationProgress.jsx:4-17 | more progress never shows an earlier label |
| GenerationProgress.StepsFrom | frontend/src/components/GenerationProgress.jsx:122-135 | each step's state is derived from its own range |
| GenerationProgress.Steps | frontend/src/components/GenerationProgress.jsx:122-135 | the checklist has ten steps |
| GenerationProgress.OneActiveStep | frontend/src/components/GenerationProgress.jsx:122-135 | for progress in [0, 100) exactly one step is active (the one at `progress / 10`) and the complete steps are exactly those before it |
| GenerationProgress.AllStepsComplete | frontend/src/components/GenerationProgress.jsx:132-135 | from 100 on, all ten steps are complete |
| GenerationProgress.Ceil | frontend/src/components/GenerationProgress.jsx:26-30 | `Math.ceil` gives the least integer not below its argument |
| GenerationProgress.TimeRemaining | frontend/src/components/GenerationProgress.jsx:19-31 | there is no estimate exactly when not generating or at progress 0; otherwise `elapsed / progress × (100 − progress)` is shown as whole seconds rounded up below 60, else as minutes rounded up |
| GenerationProgress.FormatDuration | frontend/src/components/GenerationProgress.jsx:33-43 | 0 gives `0s`; below 60 the seconds are shown as they are; from 60 on it shows whole minutes (at least 1) and seconds below 60 that together floor the duration |
| VideoPreview.Selection.constructor | frontend/src/components/VideoPreview.jsx:4-5 | nothing is selected at first |
| VideoPreview.Selection.HandleSceneClick | frontend/src/components/VideoPreview.jsx:7-12 | the scene is always selected; its URL is selected only when it is playable, otherwise the previous URL stays |
| VideoPreview.Selection.OnCardClick | frontend/src/components/VideoPreview.jsx:149 | a click on a card of an unplayable scene changes nothing |
| VideoPreview.DownloadUrlsCount | frontend/src/components/VideoPreview.jsx:236-250 | there is one download per playable scene, and the button's count is that number |
| VideoPreview.DownloadUrlAt | frontend/src/components/VideoPreview.jsx:236-238 | the `k`-th download is the URL of the `k`-th playable scene |
| VideoPreview.DownloadUrlsArePlayable | frontend/src/components/VideoPreview.jsx:236-238 | the downloads are the playable scenes' URLs in scene order |
| VideoPreview.ShowDownloadAllIff | frontend/src/components/VideoPreview.jsx:230 | the download-all button shows exactly when there is something to download |
| VideoPreview.ScheduleInOrder | frontend/src/components/VideoPreview.jsx:240-244 | the `i`-th URL opens after `i × 100` ms, so the opens happen in list order |
| VideoPreview.FormatFileSize | frontend/src/components/VideoPreview.jsx:14-26 | a missing or zero size is `N/A`; below 1024 it is bytes; below 1024² KB; below 1024³ MB; else GB; each value is the size over its unit |
| App.SubmitFacts | frontend/src/App.js:31-50 | a blank screenplay (JavaScript white space only) shows the error toast and changes nothing; otherwise the job is reset (generating, progress 0, no export, no scenes, no duration, start time now) and the start request follows |
| App.StartFailedFacts | frontend/src/App.js:58-62 | a failed start shows the error toast, stops generating and starts no poll |
| App.TickFacts | frontend/src/App.js:66-68 | a tick changes nothing and sends the status request exactly when the job's interval still runs |
| App.StatusFacts | frontend/src/App.js:67-87 | a status response always sets progress and status, also when its interval was cleared while the request was in flight; `completed` stops the poll, stops generating, takes export info and duration, toasts and fetches the scenes; `failed` stops the poll and generating and toasts the reason; any other status leaves the poll as it was and changes nothing else |
| App.ReasonFacts | frontend/src/App.js:86 | the failure reason is the error text, or `Unbekannter Fehler` when it is missing or empty |
| App.ScenesFacts | frontend/src/App.js:94-100 | the scenes response sets the scenes (or `[]`) and replaces the export info only when it carries one |
| App.TicksPolling | frontend/src/App.js:66-91 | while no terminal status arrives the poll keeps running and the last response is shown |
| App.PollStopsAtTerminal | frontend/src/App.js:65-91 | after the responses up to the first terminal status the poll is stopped, the page is not generating, shows that response's progress and status, and the job's next tick sends no request |
| App.StaysStopped | frontend/src/App.js:74-86 | a cleared interval stays cleared: only starting the same job again puts it back in `polling` |
| App.TicksSilentAfterStop | frontend/src/App.js:74-86 | once a job's poll is stopped, none of its later ticks sends a request unless the job is started again |
| App.LateResponse | frontend/src/App.js:66-80 | a response arriving after the poll stopped is still handled: a late `completed` toasts and fetches the scenes again, a late non-terminal one overwrites progress and status |
| App.JobTracker.constructor | frontend/src/App.js:21-28 | the page starts idle, with no job, no scenes and no poll |
| App.JobTracker.OnSubmit | frontend/src/App.js:31-50 | the handler makes the state change, toast and request of a submit |
| App.JobTracker.OnStartOk | frontend/src/App.js:52-57 | the job id is stored, the success toast shown, and its poll started |
| App.JobTracker.OnStartFailed | frontend/src/App.js:58-62 | the handler makes the state change and toast of a failed start |
| App.JobTracker.OnTick | frontend/src/App.js:66-68 | the interval callback sends the status request only while the interval runs, and changes nothing |
| App.JobTracker.OnStatus | frontend/src/App.js:67-87 | the response handler makes the state change, toast and request of a status response, whether or not the interval still runs |
| App.JobTracker.OnPollError | frontend/src/App.js:88-90 | a failed poll only logs: no state change, no toast, no request |
| App.JobTracker.OnScenes | frontend/src/App.js:94-100 | the handler makes the state change of a scenes response |

## Left out

- The HTTP server, the database and the background task plumbing are not part of this model.
  The same holds for video rendering, cloud storage, and the presentation-only components. The
  `download_scene_videos` and `upload_to_cloud` operations are left out too: they are HTTP and
  file I/O.
- Logging and `try`/`except` re-raising are left out. The modelled functions raise nothing on the
  records the model types allow.
- Missing dictionary keys are `None` or empty fields of the records. The model does not tell an
  absent key from an empty value where the source treats both alike.
- Text.Lower: ASCII only. The same holds for Text.Upper and Text.IsUpperPy, and for the
  case-insensitive matches. Full Unicode case mapping is not modelled.
- CostEstimator.IsCue: `length` counts characters, not UTF-16 code units. The two differ only
  outside the Basic Multilingual Plane, where a character is two code units.
- CostEstimator.Step: a dialogue line adds its length in characters, where `trimmedLine.length`
  counts UTF-16 code units. A character outside the Basic Multilingual Plane counts one less.
- CostEstimator.StepCounts: states the count in characters, as CostEstimator.Step does.
- CostEstimator.DialogChars: the dialogue count is in characters, so it can be lower than the
  source's. The same holds for CostEstimator.CountDialogChars, and for the speech cost in
  CostEstimator.EstimateFacts and CostEstimator.CostEstimate.
- SceneParser.Parse: Python gives `characters` in set order, which is unspecified. The model keeps
  first-seen order, and only membership and absence of duplicates are stated.
- CharacterAI.Registry.RegisterNames: set iteration order is left arbitrary. The result does not
  depend on it.
- VoiceAI.Voices.AssignVoices: the dict's key order is the `names` parameter. The
  text-to-speech call is an oracle: GenerateSceneAudio takes one success flag per dialogue, and
  the audio bytes are not kept.
- Timers, `Date.now`, toasts and axios requests become the events and returned notices of
  App.Step. Elapsed time is a parameter of GenerationProgress.TimeRemaining. No stale-response
  guard is modelled, because the source has none: a status response is handled whenever it
  arrives.
- App.Step does not pair a status response with the tick that sent its request. The events may
  deliver a response at any time, so the model allows more responses than requests in flight.
- The scenes fetch's error path in App.js only logs, so the model has no event for it.
- App.JobState has an `errorText` field that App.js does not keep. It records the text of the
  failure toast, so the message can be stated.
- GenerationProgress.FormatDuration: the `toFixed(1)` rendering is left out. The same holds for
  VideoPreview.FormatFileSize's `toFixed` rendering and the cost estimate's rounding. Amounts are
  exact reals.
- VideoPreview.FormatFileSize: a negative size falls into the bytes case, as in the source.
- JavaScript object keys such as `constructor` in the quality table lookup are not modelled.
  Unknown tiers get the default rate.
