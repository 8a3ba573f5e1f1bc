# Video revision service: a Dafny model

This project models the core of a short-video generation and revision
service. A webhook receives a request, which is either a new classic video,
a new WAN video or a revision of an existing video. The service then:

1. asks a language model for scenes: five classic ones, or six WAN ones
   with a music prompt;
2. stores the scenes in the `scenes` and `music` tables;
3. generates an image, a voice-over and a clip for every scene through the
   fal media services;
4. composes the final video through JSON2Video;
5. notifies the front end through a callback.

A revision takes the stored scenes and lets the language model rewrite them.
It then compares the old and new versions scene by scene to decide which
assets must be regenerated, and writes the revised text back.

The model keeps the source's module structure:

| module | file | models |
|---|---|---|
| `Json` | json.dfy | JSON values, `dict.get`, Python's `in` on parsed values |
| `Strings`, `Lists` | strings.dfy, lists.dfy | `strip()`, `find`, `startswith` (StartsWith), `endswith` (EndsWith), `lower()`, prefix slicing `s[:n]` (Take), `str(n)` of an integer (IntText, NatText), `[u for u in xs if u]` |
| `ResponseValidation` | response_validation.dfy | the fence clean-up and required-field checks shared by every language-model reply |
| `SchemaMapper` | schema_mapper.dfy | the storage and model-facing vocabularies of a WAN scene |
| `SceneDiff` | scene_diff.dfy | `compare_scenes_for_changes` |
| `SceneGeneration` | scene_generation.dfy | `generate_scenes_with_gpt4`, `wan_scene_generator` |
| `RevisionAi` | revision_ai.dfy | the classic and WAN revision generators |
| `SingleAsset` | single_asset.dfy | one voice-over, one image or one clip |
| `AudioGeneration` | audio_generation.dfy | voice-overs for all scenes |
| `VideoGeneration` | video_generation.dfy | clips for all scenes, and the fallback composition |
| `FinalComposition` | composition.dfy | the classic and WAN JSON2Video compositions |
| `SceneDatabase` | database.dfy | the Supabase operations, as a class `SceneStore` over the two tables |
| `Webhook` | webhook.dfy | request extraction, task status and the processing counters, with a class `TaskRedis` |
| `Callback` | callback.dfy | the success and failure callbacks |
| `TaskUtils` | task_utils.dfy | the aspect-ratio table |

**Parameters in place of outside services.** Every call to a service outside
the program is a function parameter of the operation that makes it:

- `loads` is `json.loads`: `None` means the text does not parse.
- `fal` is a fal.ai submit-and-wait.
- `render` and `compose` are a JSON2Video submission and its polling.
- `post` is the callback's HTTP POST, giving its status code.
- `accepts` is the pydantic model's validation.
- `now` is the current timestamp.
- `timedOut` says whether the whole wait of a batch timed out.

**How methods are specified.** Where the source loops, the model has a
`method` with a loop. Its `ensures` names a specification function, and the
properties the source promises are lemmas about that function.

Where the source changes state, the model is a class whose methods state the
whole new state:

- `SceneStore` holds the rows of the `scenes` and `music` tables.
- `TaskRedis` holds the Redis `stats` hash and the task hashes.

## Model

| member | source | states |
|---|---|---|
| Json.PyIn | app/services/revision_ai.py:359-364 | `key in value` is key membership on a dict and substring search on a string; numbers, booleans and null raise (None) |
| Json.StripValue | app/services/revision_ai.py:40-54 | `.strip()` on a field succeeds exactly on strings and gives the stripped text |
| Json.Truthy | app/webhook_handler.py:141-151 | `bool(v)` is false exactly for None, False, 0, the empty string, the empty list and the empty dictionary |
| Json.StrOf | app/services/scene_generation.py:150-166 | a string renders as itself, any other value as a non-empty text (None, True, False, the integer) |
| Strings.Strip | app/services/revision_ai.py:40-54 | the result of `strip()` is no longer than the input and has no whitespace at either end |
| Strings.StripCut | app/services/revision_ai.py:40-54 | `strip()` keeps the slice between the first and last non-whitespace characters; only whitespace lies outside it |
| Strings.StripUnique | app/services/revision_ai.py:40-54 | any slice with only whitespace outside it and non-blank ends is what `strip()` returns |
| Strings.StripIdempotent | app/services/revision_ai.py:40-54 | stripping twice is stripping once |
| Strings.StripPadded | app/services/revision_ai.py:40-54 | whitespace added on either side of a text disappears under `strip()` |
| Strings.Find | app/services/single_asset_generation.py:18-19 | `find` returns the first match at or after the start, and -1 only when there is none |
| Strings.Contains | app/services/single_asset_generation.py:16 | `sub in s` holds iff the substring occurs at some index |
| Strings.Lower | app/services/revision_ai.py:148-150 | `lower()` keeps the length and lower-cases each letter |
| Lists.NonEmptyStrings | app/services/final_composition.py:35 | the filter keeps exactly the non-empty entries, in order |
| Lists.NonEmptyStringsConcat | app/services/final_composition.py:35 | filtering distributes over concatenation |
| Lists.NonEmptyStringsKeepsFull | app/services/final_composition.py:35 | a list with no empty entry passes the filter unchanged |
| ResponseValidation.Clean | app/services/revision_ai.py:329-338 | the cleaned reply has no surrounding whitespace |
| ResponseValidation.CleanFenced | app/services/scene_generation.py:115-120 | a reply wrapped in a ```json fence cleans to its stripped body |
| ResponseValidation.PlainFenceKept | app/services/scene_generation.py:116-119 | a reply opening with a bare ``` fence and no closing fence is left as it is, because only "```json" is removed at the front |
| ResponseValidation.CleanNothing | app/services/revision_ai.py:334-338 | an empty fence, or only whitespace, cleans to the empty reply that is then rejected |
| ResponseValidation.RevisionSceneList | app/services/revision_ai.py:344-351 | a list reply is the scene list; an object gives its "scenes" list; any other shape is rejected |
| ResponseValidation.ParsedReply | app/services/revision_ai.py:318-351 | a scene list is obtained only from a non-empty reply whose cleaned text parses into one of the accepted shapes |
| ResponseValidation.CheckRequiredFields | app/services/revision_ai.py:359-364 | all keys are present on all scenes iff the check passes; otherwise it names the first scene and key that is missing, or reports that `in` raised |
| ResponseValidation.FirstMissingNoRaise | app/services/revision_ai.py:359-364 | once a key is missing from a scene, no later scene is examined, so no later scene can raise |
| ResponseValidation.TextScenePasses | app/services/revision_ai.py:359-364 | a scene that is a string containing every key name passes the check, because `in` is then a substring test |
| SchemaMapper.ToModelFacing | app/services/revision_ai.py:155-165 | a stored WAN scene is shown to the model under exactly the six model-facing keys |
| SchemaMapper.ToStorage | app/services/revision_ai.py:366-379 | a model-facing scene is stored under exactly the eight storage keys |
| SchemaMapper.ModelFacingFields | app/services/revision_ai.py:155-165 | each model-facing value is read from its storage field, with a default when the field is absent |
| SchemaMapper.StorageFields | app/services/revision_ai.py:366-379 | each stored value is read from its model-facing field; sound effects and music direction are stored as "" |
| SchemaMapper.StorageRoundTrip | app/services/revision_ai.py:155-165 | storing what was shown keeps every shown value and clears sound effects and music direction |
| SchemaMapper.StoredWanSceneRoundTrip | app/services/revision_ai.py:366-379 | a stored scene with all eight keys, empty sound effects and empty music direction survives showing and storing again unchanged |
| SchemaMapper.ModelSceneRoundTrip | app/services/revision_ai.py:155-165 | a model-facing scene with all six keys survives storing and showing again unchanged |
| SchemaMapper.ClassicForModel | app/services/revision_ai.py:419-430 | a classic scene is shown under exactly six keys, each read with its default |
| SchemaMapper.ClassicForModelKeeps | app/services/revision_ai.py:419-430 | a scene that already has exactly those six keys is shown unchanged |
| SceneDiff.KeyOf | app/services/revision_ai.py:27-28 | a scene number can key the map unless it is a list or a dict, which Python cannot hash |
| SceneDiff.SceneMap | app/services/revision_ai.py:27-28 | the map is built only when every scene is hashable-keyed, and it holds every scene's key |
| SceneDiff.SceneMapLastWins | app/services/revision_ai.py:27-28 | when several scenes share a number, the last one wins |
| SceneDiff.NumberedSceneMap | app/services/revision_ai.py:27-37 | when the scenes are numbered 1, 2, ... in order, scene number i+1 maps to the i-th scene |
| SceneDiff.ImageChanged | app/services/revision_ai.py:57 | definition; contract via DiffScene and DiffSceneWithItself: the image prompts differ |
| SceneDiff.VoiceoverChanged | app/services/revision_ai.py:58-65 | definition; contract via DiffScene, EmotionOnlyChange and WhitespaceOnlyChange |
| SceneDiff.VideoChanged | app/services/revision_ai.py:66 | definition; contract via DiffScene: a changed image forces a new clip |
| SceneDiff.DiffScene | app/services/revision_ai.py:40-71 | two scenes compare iff all their compared fields are strings; a changed image always forces a new clip |
| SceneDiff.EmotionOnlyChange | app/services/revision_ai.py:49-66 | a change of emotion alone regenerates the voice-over and nothing else |
| SceneDiff.WhitespaceOnlyChange | app/services/revision_ai.py:40-66 | padding a field with whitespace regenerates nothing |
| SceneDiff.DiffSceneWithItself | app/services/revision_ai.py:57-66 | a scene compared with itself needs no regeneration |
| SceneDiff.ChangesUpTo | app/services/revision_ai.py:31-88 | the changes are at most one per scene number, each the difference of that number's two scenes |
| SceneDiff.ChangesStep | app/services/revision_ai.py:31-37 | scene number k adds a record exactly when both versions have it |
| SceneDiff.ChangesOwnScenes | app/services/revision_ai.py:73-88 | every record is the difference of the two scenes with its number |
| SceneDiff.ChangesAscending | app/services/revision_ai.py:31 | the records come in strictly increasing scene order |
| SceneDiff.ChangesComplete | app/services/revision_ai.py:31-37 | every scene number that both versions have gets a record |
| SceneDiff.FailureIsFinal | app/services/revision_ai.py:120-123 | a scene that cannot be compared makes the whole comparison fail |
| SceneDiff.CompareScenesForChanges | app/services/revision_ai.py:9-123 | the result is the comparison's records, or [] on failure; there are at most as many records as revised scenes, numbered within range and ascending |
| SceneDiff.CompareNumbers | app/services/revision_ai.py:31-88 | the loop over scene numbers computes the specified records |
| SceneDiff.CompareWithItself | app/services/revision_ai.py:9-123 | comparing scenes with themselves flags nothing and carries each scene's current asset URLs |
| SceneDiff.CompareCarriesAssets | app/services/revision_ai.py:69-88 | each record carries the original scene's image, voice-over and clip URLs |
| SceneDiff.CompareSkipsOnlyUnpaired | app/services/revision_ai.py:33-37 | only scene numbers missing from one of the versions are skipped |
| SceneDiff.NonObjectSceneFails | app/services/revision_ai.py:27-28 | a scene that is not an object makes the comparison fail, giving [] |
| SceneGeneration.CombinedImagePrompt | app/services/scene_generation.py:149-150 | the combined image prompt opens with "base: " |
| SceneGeneration.CombinedVoiceover | app/services/scene_generation.py:157-158 | the combined voice-over opens with "text: " |
| SceneGeneration.CombinedMusicPrompt | app/services/scene_generation.py:165-166 | the combined music prompt opens with "style: " |
| SceneGeneration.ProcessedScene | app/services/scene_generation.py:145-176 | a processed scene has exactly the stored keys; the number defaults to the position; sound effects are ""; the prompts are the combined formats |
| SceneGeneration.ProcessedVoiceoverFormat | app/services/scene_generation.py:157-158 | the stored voice-over is "text: <text> delivery: <delivery>" |
| SceneGeneration.ProcessScenes | app/services/scene_generation.py:145-187 | processing succeeds iff every raw scene is processable, and gives one processed scene per raw scene |
| SceneGeneration.GenerateClassicScenes | app/services/scene_generation.py:104-187 | scenes are produced iff the cleaned reply parses to a list of five processable scenes, and then they are those scenes processed |
| SceneGeneration.ListedAt | app/services/scene_generation.py:349-361 | membership in a list of allowed values is membership at some index |
| SceneGeneration.WanTopLevel | app/services/scene_generation.py:283-319 | a list reply has no music prompt; an object without "scenes" is rejected; a missing music prompt gets the default; a kept music prompt is never blank |
| SceneGeneration.FallbackVoiceover | app/services/scene_generation.py:342-347 | the voice-over is never blank, and a non-blank one is kept |
| SceneGeneration.FallbackEmotion | app/services/scene_generation.py:349-356 | the emotion is always an allowed one, and an allowed one is kept |
| SceneGeneration.FallbackVoice | app/services/scene_generation.py:358-361 | the voice id is always an allowed one, and an allowed one is kept |
| SceneGeneration.NormalizeScene | app/services/scene_generation.py:340-361 | a scene is normalised iff its three text fields can be stripped |
| SceneGeneration.WithTexts | app/services/scene_generation.py:340-361 | the three fallback fields are set and every other field is kept |
| SceneGeneration.NormalizedSceneValid | app/services/scene_generation.py:340-361 | a normalised scene has a non-blank voice-over, an allowed emotion and an allowed voice, and keeps all its keys |
| SceneGeneration.DefaultVoiceoverNonBlank | app/services/scene_generation.py:342-347 | the default voice-over is not blank |
| SceneGeneration.NeutralValid | app/services/scene_generation.py:349-356 | the default emotion "neutral" is allowed |
| SceneGeneration.FriendlyPersonValid | app/services/scene_generation.py:358-361 | the default voice "Friendly_Person" is allowed |
| SceneGeneration.NormalizeKeepsValid | app/services/scene_generation.py:340-361 | a scene whose three fields are already valid is left unchanged |
| SceneGeneration.NormalizeIdempotent | app/services/scene_generation.py:340-361 | normalising twice is normalising once |
| SceneGeneration.CapitalisedEmotionKept | app/services/scene_generation.py:349-356 | the emotion is tested lower-cased, so "Happy" is kept as written |
| SceneGeneration.NormalizedScenes | app/services/scene_generation.py:340-361 | normalisation keeps the number of scenes |
| SceneGeneration.NormalizeWanScenes | app/services/scene_generation.py:340-361 | the loop succeeds iff every scene is normalisable, and then gives the normalised scenes |
| SceneGeneration.TextsPresent | app/services/scene_generation.py:340-361 | the check holds iff every scene is an object whose three text fields can be stripped |
| SceneGeneration.ApplyFallbacks | app/services/scene_generation.py:340-361 | the loop computes the normalised scenes |
| SceneGeneration.ImagePromptsSliceable | app/services/scene_generation.py:363-367 | the check holds iff every scene's image prompt can be sliced for logging |
| SceneGeneration.WanGenerationOf | app/services/scene_generation.py:199-380 | a WAN generation gives either no scenes or exactly six, and a kept music prompt is never blank |
| SceneGeneration.GenerateWanScenes | app/services/scene_generation.py:199-380 | the method computes the specified generation |
| SceneGeneration.WanWithoutScenes | app/services/scene_generation.py:296-300 | an object reply without "scenes" gives no scenes and no music prompt |
| SceneGeneration.WanListHasNoMusic | app/services/scene_generation.py:283-290 | a list reply gives no music prompt |
| SceneGeneration.WanMusicPromptCases | app/services/scene_generation.py:302-316 | a non-blank string music prompt is kept as written; a blank or falsy one becomes ""; a missing one becomes the default; a truthy non-string one aborts the generator |
| SceneGeneration.WanWrongCountKeepsMusic | app/services/scene_generation.py:322-329 | the wrong number of scenes gives no scenes but keeps the music prompt |
| SceneGeneration.WanMissingKeyKeepsMusic | app/services/scene_generation.py:332-337 | a missing required key gives no scenes but keeps the music prompt |
| SceneGeneration.NormalizedAtValid | app/services/scene_generation.py:332-361 | a normalised scene is voice-ready and still carries every required key |
| SceneGeneration.NormalizedScenesValid | app/services/scene_generation.py:332-361 | every normalised scene of a checked list is voice-ready and carries every required key |
| SceneGeneration.WanScenesValid | app/services/scene_generation.py:199-380 | every returned WAN scene is voice-ready and carries every required key |
| RevisionAi.AnyKeyword | app/services/revision_ai.py:148-150 | the test holds iff some keyword occurs in the text |
| RevisionAi.MentionsMissingMusic | app/services/revision_ai.py:148-150 | music is requested iff some music keyword occurs in the lower-cased request |
| RevisionAi.UpperCaseKeyword | app/services/revision_ai.py:148-150 | the test ignores case: "ADD MUSIC" requests music |
| RevisionAi.KeywordInsideWord | app/services/revision_ai.py:148-150 | the test finds substrings, so "silently" requests music through "silent" |
| RevisionAi.ShortRequestNoMusic | app/services/revision_ai.py:148-150 | a request shorter than every keyword requests no music |
| RevisionAi.ClassicRevision | app/services/revision_ai.py:398-596 | an accepted classic revision has five scenes carrying every required key, and is the parsed reply |
| RevisionAi.ClassicScenesForModel | app/services/revision_ai.py:419-430 | the originals are shown iff they can be, one shown scene per original |
| RevisionAi.ReviseClassic | app/services/revision_ai.py:398-596 | the method computes the specified revision |
| RevisionAi.ClassicRejectsMissingKey | app/services/revision_ai.py:575-580 | a reply scene missing a required key rejects the whole revision |
| RevisionAi.ClassicAcceptsFenced | app/services/revision_ai.py:545-587 | a fenced list of five complete scenes is accepted as it is |
| RevisionAi.StorageScenes | app/services/revision_ai.py:366-379 | every revised scene is converted to the storage format |
| RevisionAi.WanRevisionOf | app/services/revision_ai.py:126-397 | an accepted WAN revision has six scenes in storage format, and its music flag is the keyword test on the request |
| RevisionAi.WanScenesForModel | app/services/revision_ai.py:155-165 | the originals are shown iff they can be, each in its model-facing form |
| RevisionAi.ToStorageScenes | app/services/revision_ai.py:366-379 | conversion succeeds iff every scene is an object, and gives each scene's storage form |
| RevisionAi.ImagePromptsLoggable | app/services/revision_ai.py:382-385 | the check holds iff every stored image prompt can be sliced for logging |
| RevisionAi.ReviseWan | app/services/revision_ai.py:126-397 | the method computes the specified revision |
| RevisionAi.MusicFlagIndependent | app/services/revision_ai.py:148-150 | the request text decides only the music flag and never which scenes are returned |
| RevisionAi.WanRejectsMissingKey | app/services/revision_ai.py:359-364 | a reply scene missing a required key rejects the WAN revision |
| RevisionAi.WanRejectsWrongCount | app/services/revision_ai.py:353-356 | a reply without exactly six scenes rejects the WAN revision |
| RevisionAi.UnchangedReplyKeepsScenes | app/services/revision_ai.py:155-388 | when the model echoes the shown scenes, the revision gives back the stored scenes unchanged |
| SingleAsset.ExtractVoiceoverText | app/services/single_asset_generation.py:15-22 | without "text:" nothing is extracted; the extracted text has no surrounding whitespace |
| SingleAsset.ExtractFormatted | app/services/single_asset_generation.py:15-22 | the text of a "text: t delivery: d" prompt is t stripped, when t does not itself contain "delivery:" |
| SingleAsset.FormattedTags | app/services/single_asset_generation.py:18-19 | in a formatted prompt the two tags are found where the format puts them |
| SingleAsset.FormattedMiddle | app/services/single_asset_generation.py:22 | the slice between the tags is the text with its two separating spaces |
| SingleAsset.NoDeliveryInside | app/services/single_asset_generation.py:19 | a text without "delivery:" gives no match before the format's own tag |
| SingleAsset.ProcessedVoiceoverExtract | app/services/scene_generation.py:157-158 | extraction recovers the stripped text of a voice-over stored by scene generation |
| SingleAsset.NestedUrl | app/services/single_asset_generation.py:47-54 | a URL is returned only when the result holds the key with a "url" inside, and then that URL is returned |
| SingleAsset.FirstImageUrl | app/services/single_asset_generation.py:87-94 | a URL is returned only from a non-empty image list, and then it is the first image's URL |
| SingleAsset.VoiceoverRequest | app/services/single_asset_generation.py:24-41 | a speech request is made iff text was extracted, and it carries that text and the fixed voice |
| SingleAsset.SingleVoiceover | app/services/single_asset_generation.py:9-59 | no request means no URL; otherwise the URL is the audio URL of the service's answer |
| SingleAsset.BlankTextNoRequest | app/services/single_asset_generation.py:24-26 | a prompt whose text is blank makes no request and yields "" |
| SingleAsset.SingleSceneImage | app/services/single_asset_generation.py:62-99 | the URL returned is the first image URL of the answer to the one-JPEG edit request (FirstImageUrl), so it is "" when there is no answer |
| SingleAsset.VideoPrompt | app/services/single_asset_generation.py:108 | the clip prompt is never empty, is the description when there is one, and the default otherwise |
| SingleAsset.VideoPromptIdempotent | app/services/single_asset_generation.py:108 | applying the default twice changes nothing |
| SingleAsset.SingleVideo | app/services/single_asset_generation.py:102-140 | the URL returned is the answer's `video.url` for the six-second 768P request (NestedUrl), so it is "" when there is no answer |
| AudioGeneration.SubmitAll | app/services/audio_generation.py:21-65 | one handler per prompt; a prompt without text gets no handler |
| AudioGeneration.HandlerUrl | app/services/audio_generation.py:71-92 | definition; contract via HandlerUrlIsSingle: no handler gives "", otherwise the answer's `audio.url` |
| AudioGeneration.HandlerUrlIsSingle | app/services/audio_generation.py:71-92 | submitting and then waiting gives what a single voice-over gives |
| AudioGeneration.CollectAll | app/services/audio_generation.py:94-98 | each result carries its own scene index and its handler's URL |
| AudioGeneration.FillSlots | app/services/audio_generation.py:15 | one slot per prompt, each filled with its own scene's result |
| AudioGeneration.GenerateVoiceovers | app/services/audio_generation.py:9-132 | one URL per prompt; slot i is what a single voice-over of prompt i gives, and after a time-out every slot is "" |
| VideoGeneration.VideoHandler | app/services/video_generation.py:21-53 | an image without a prompt gets no handler; otherwise the request uses the prompt or its default, 6 seconds, 768P |
| VideoGeneration.SubmitVideos | app/services/video_generation.py:21-53 | one handler per image |
| VideoGeneration.ClipUrl | app/services/video_generation.py:60-80 | definition; contract via CollectVideos: no handler gives "", otherwise the answer's `video.url` |
| VideoGeneration.CollectVideos | app/services/video_generation.py:60-90 | each result carries its own scene index and its handler's URL |
| VideoGeneration.GenerateVideosWithFal | app/services/video_generation.py:9-125 | one URL per image; images beyond the prompts get ""; slot i is what a single clip generation gives; after a time-out every slot is "" |
| VideoGeneration.Keyframes | app/services/video_generation.py:143-156 | at most five keyframes, one per non-empty clip in order, at 6000 ms steps and 6000 ms long |
| VideoGeneration.KeyframesBackToBack | app/services/video_generation.py:143-156 | each keyframe starts where the previous one ends, and all end within 30 seconds |
| VideoGeneration.BuildKeyframes | app/services/video_generation.py:143-156 | the loop computes the specified keyframes |
| VideoGeneration.ComposedUrl | app/services/video_generation.py:183-196 | a string "video_url" in the answer is the URL returned, and any non-empty URL returned is the answer's "video_url" |
| VideoGeneration.ComposeFinalVideo | app/services/video_generation.py:128-201 | no usable clip gives ""; otherwise the result is the URL of composing the single video track |
| FinalComposition.VoiceoverTrack | app/services/final_composition.py:43-66 | at most five voice-overs, the non-empty ones in order, the i-th starting at 6i seconds |
| FinalComposition.ClassicElements | app/services/final_composition.py:43-80 | definition; contract via ClassicElementsShape and ClassicElementsWithinLength |
| FinalComposition.ClassicMovie | app/services/final_composition.py:38-88 | definition; contract via ClassicElementsShape and ComposeFinalVideoWithAudio: the resolution of the aspect ratio and a single scene holding the classic elements |
| FinalComposition.MainVideo | app/services/final_composition.py:46-53 | definition; contract via ClassicElementsShape: video from 0 s for 30 s at volume 0 |
| FinalComposition.VoiceoverAt | app/services/final_composition.py:56-68 | definition; contract via ClassicElementsShape: audio from 6i s for 6 s at volume 2 |
| FinalComposition.BackgroundMusic | app/services/final_composition.py:71-79 | definition; contract via ClassicElementsShape: audio from 0 s for 30 s at volume 0.2 |
| FinalComposition.ClassicElementsShape | app/services/final_composition.py:43-80 | the main video comes first, then the voice-overs in order, then the music when there is any |
| FinalComposition.ClassicElementsWithinLength | app/services/final_composition.py:43-80 | every element ends within the 30-second video |
| FinalComposition.BuildElements | app/services/final_composition.py:43-80 | the loop computes the specified elements |
| FinalComposition.ComposeFinalVideoWithAudio | app/services/final_composition.py:12-133 | without an API key the composed video is returned; otherwise the rendered URL, or the composed video when rendering failed |
| FinalComposition.WanScenes | app/services/final_composition.py:172-211 | at most six scenes, one per non-empty clip |
| FinalComposition.WanClip | app/services/final_composition.py:187-193 | definition; contract via WanScenesShape: video for 5 s at volume 0.2 |
| FinalComposition.WanVoiceover | app/services/final_composition.py:197-205 | definition; contract via WanScenesShape: audio from 0 s for 5 s at volume 2 |
| FinalComposition.WanScenesShape | app/services/final_composition.py:181-211 | each scene has its clip first and at most one voice-over |
| FinalComposition.WanVoiceoverShift | app/services/final_composition.py:172-211 | for every input: when an earlier clip is empty, the clip at position j is played by an earlier scene i, which carries the voice-over at position i rather than j |
| FinalComposition.WanScene | app/services/final_composition.py:184-211 | definition; contract via WanScenesShape: the clip, then the voice-over of the same index when there is a non-empty one |
| FinalComposition.WanMovie | app/services/final_composition.py:176-221 | definition; contract via WanScenesShape and ComposeWanFinalVideoWithAudio: the resolution of the aspect ratio and one scene per kept clip, at most six |
| FinalComposition.BuildWanScenes | app/services/final_composition.py:181-211 | the loop computes the specified scenes |
| FinalComposition.ComposeWanFinalVideoWithAudio | app/services/final_composition.py:136-266 | no key or no usable clip gives ""; otherwise the URL of rendering the WAN movie |
| SceneDatabase.Truncated | app/services/database_operations.py:24-28 | a slice exists iff the value can be sliced; it is a prefix within the limit, and a short value is kept whole |
| SceneDatabase.ClassicRow | app/services/database_operations.py:17-31 | a classic row exists iff every stored field can be sliced; it holds the sliced fields |
| SceneDatabase.WanRow | app/services/database_operations.py:64-80 | a WAN row maps the model-facing fields onto the storage columns, sliced |
| SceneDatabase.WanRowKeepsShortPrompts | app/services/database_operations.py:71-73 | prompts within the limits are stored whole |
| SceneDatabase.RowFor | app/services/database_operations.py:9-102 | a built row has the row shape |
| SceneDatabase.BuildRows | app/services/database_operations.py:17-31 | rows are built iff every scene can be stored, one row per scene |
| SceneDatabase.Count | app/services/database_operations.py:316-326 | the count is zero iff no row matches |
| SceneDatabase.WithUrl | app/services/database_operations.py:161-164 | setting a URL keeps the row shape |
| SceneDatabase.UrlsApplied | app/services/database_operations.py:152-172 | applying the URLs keeps the number of rows |
| SceneDatabase.UrlsAppliedAt | app/services/database_operations.py:152-172 | an unselected row is unchanged; a selected row gets its URL when the URL is non-empty |
| SceneDatabase.UrlsAppliedShape | app/services/database_operations.py:152-172 | applying the URLs keeps every row's shape |
| SceneDatabase.NonEmpty | app/services/database_operations.py:198-224 | the number of updates is at most the number of URLs |
| SceneDatabase.NonEmptyPositive | app/services/database_operations.py:224 | some clip URL was written iff some URL is non-empty |
| SceneDatabase.RevisionUpdate | app/services/database_operations.py:425-440 | a revision update exists iff every revised field can be sliced; each text is a prefix of the scene's text within its limit, and emotion and voice take their defaults when absent |
| SceneDatabase.ApplyRevision | app/services/database_operations.py:429-443 | the revised texts replace the row's texts, the sound effects become empty, and owner, video, scene number and asset URLs are kept |
| SceneDatabase.Revised | app/services/database_operations.py:443 | updating one scene number keeps the number of rows |
| SceneDatabase.RevisionOutcome | app/services/database_operations.py:418-457 | the revision keeps the number of rows |
| SceneDatabase.RevisionOutcomeShape | app/services/database_operations.py:418-457 | the revision keeps every row's shape |
| SceneDatabase.RevisionClearsSoundEffects | app/services/database_operations.py:433-443 | the update writes an empty sound-effects text, so a successful revision clears the sound effects of every revised scene |
| SceneDatabase.SoundEffectsStayCleared | app/services/database_operations.py:418-457 | sound effects that were cleared stay cleared |
| SceneDatabase.RevisionStopsAtFailure | app/services/database_operations.py:443-449 | the first scene whose update fails stops the revision, and later scenes are not written |
| SceneDatabase.MusicPlaceholder | app/services/database_operations.py:105-122 | the stored placeholder is "PROMPT:" followed by the prompt |
| SceneDatabase.SceneStore.StoreScenes | app/services/database_operations.py:9-102 | the rows are inserted iff every scene can be stored; otherwise nothing changes |
| SceneDatabase.SceneStore.StoreWanMusicPrompt | app/services/database_operations.py:105-134 | one music row holding the prompt placeholder is appended |
| SceneDatabase.SceneStore.WriteUrls | app/services/database_operations.py:152-172 | the rows become the specified URL update, and the count is the number of non-empty URLs |
| SceneDatabase.SceneStore.UpdateUrls | app/services/database_operations.py:135-177 | the update succeeds iff the selection matches the number of URLs; a failed update changes nothing |
| SceneDatabase.SceneStore.UpdateVideoUrls | app/services/database_operations.py:180-229 | the update succeeds iff the counts match and some clip URL is non-empty |
| SceneDatabase.SceneStore.WorkflowType | app/services/database_operations.py:308-336 | the workflow is "wan" iff the video has exactly six scenes, and "regular" otherwise |
| SceneDatabase.SceneStore.UpdateRevisedContent | app/services/database_operations.py:418-457 | the rows and the result are the specified revision outcome; the music table is unchanged |
| SceneDatabase.SceneStore.UpdateVideoIdForScenes | app/services/database_operations.py:366-392 | the video's rows are moved to the new id, other rows are unchanged, and success means some row matched |
| SceneDatabase.SceneStore.UpdateVideoIdForMusic | app/services/database_operations.py:393-417 | the video's music rows are moved to the new id, and success means some row matched |
| SceneDatabase.SceneStore.StoreMusic | app/services/database_operations.py:460-505 | an existing music row of the video is updated; otherwise one row is appended |
| Webhook.FilteredRequest | app/webhook_handler.py:100-123 | the request holds only the model's keys, each with its value or default; None values are dropped except for the keys kept when None |
| Webhook.RequestDefaults | app/webhook_handler.py:100-118 | the aspect ratio defaults to "9:16" and the revision flag to false |
| Webhook.ExtractWebhookData | app/webhook_handler.py:92-162 | the request is accepted iff it validates and every required field is truthy, and it is then the filtered request |
| Webhook.MissingFieldRejected | app/webhook_handler.py:133-151 | a request missing a required field is rejected |
| Webhook.RevisionFields | app/webhook_handler.py:174-190 | a revision request holds exactly the revision keys, each with its value or default |
| Webhook.MissingOf | app/webhook_handler.py:193-200 | the missing list names exactly the required fields that are falsy |
| Webhook.NoneMissing | app/webhook_handler.py:193-204 | nothing is missing iff every required field is truthy |
| Webhook.RequiredRevisionValues | app/webhook_handler.py:174-204 | each required revision field is the body's value, or "" |
| Webhook.ExtractRevisionData | app/webhook_handler.py:164-216 | a revision is accepted iff it validates and every required field of the body is truthy |
| Webhook.RevisionDefaults | app/webhook_handler.py:174-190 | a revision request defaults to the revision flag true and the ratio "9:16" |
| Webhook.SourceOrDefault | app/webhook_handler.py:248-254 | the source is always truthy, and a truthy source is kept |
| Webhook.WanFields | app/webhook_handler.py:226-254 | a WAN request holds exactly the kept keys, each with its stored value |
| Webhook.WanSourcePresent | app/webhook_handler.py:226-254 | a WAN request always has a truthy source, and the model is "wan" when the body names none |
| Webhook.FilterWan | app/webhook_handler.py:248-254 | the loop computes the specified WAN request |
| Webhook.ExtractWanData | app/webhook_handler.py:218-296 | a WAN request is accepted iff it validates and every required field is truthy |
| Webhook.WanRejectsOnlyRequestFields | app/webhook_handler.py:265-284 | the source check never rejects, because a source is always filled in |
| Webhook.Summary | app/webhook_handler.py:315 | short prompts are kept; long ones are cut to 100 characters and marked "..." |
| Webhook.SummaryIdempotent | app/webhook_handler.py:315 | summarising a summary changes nothing |
| Webhook.Incr | app/webhook_handler.py:498-509 | HINCRBY moves one counter by the amount and no other counter |
| Webhook.AfterEvent | app/webhook_handler.py:492-514 | only the five statistics counters change, and an unknown operation changes nothing |
| Webhook.EventKeepsBalance | app/webhook_handler.py:492-514 | the total equals the sum of the four task counters after every event; only queueing counts a new request |
| Webhook.TaskStatusOf | app/webhook_handler.py:439-465 | a missing task is not found; a found task reports its status or "unknown", and has a result iff one is stored |
| Webhook.TaskRedis.UpdateStats | app/webhook_handler.py:492-514 | the counters become the event's update, stay balanced, and the tasks are unchanged |
| Webhook.TaskRedis.ProcessingStatsOf | app/webhook_handler.py:467-490 | the reported total is the sum of the four task counters |
| Webhook.TaskRedis.GetTaskStatus | app/webhook_handler.py:439-450 | a task id without a stored hash is not found |
| Callback.VideoPayload | app/services/callback_service.py:46-62 | a revision payload has four keys with the revision flag; a regular one has five keys with both spellings of the video id |
| Callback.Delivered | app/services/callback_service.py:87 | definition; contract via SendVideoCallback and SendErrorCallback: success is a 200 status |
| Callback.SendVideoCallback | app/services/callback_service.py:11-105 | success iff the POST of the payload to the fixed endpoint answers 200 |
| Callback.ErrorPayload | app/services/callback_service.py:140-152 | the four common keys are always present; a revision adds the flag; a regular failure adds the video id and status "failed" |
| Callback.BuildErrorPayload | app/services/callback_service.py:140-152 | the method builds the specified payload |
| Callback.SendErrorCallback | app/services/callback_service.py:108-179 | success iff the POST of the error payload answers 200 |
| Callback.NotificationsDistinct | app/services/callback_service.py:46-152 | only the failure notification carries "error" |
| TaskUtils.ResolutionFor | app/services/task_utils.py:11-33 | each known ratio maps to its table entry, an unknown one to 1080x1920, and the short side is always 1080 |
| TaskUtils.ResolutionMatchesRatio | app/services/task_utils.py:21-27 | each resolution has the proportions its name says |
| TaskUtils.RatiosSwap | app/services/task_utils.py:21-27 | portrait and landscape entries are each other's transpose |

## Left out

- The prompts sent to the language model and the OpenAI calls themselves: the reply text is an input.
- `json.loads` is the `loads` parameter; the JSON grammar is not modelled.
- fal.ai, httpx and JSON2Video are parameters (`fal`, `render`, `compose`, `post`). Their concurrency and polling are not modelled.
- Timeouts: a batch time-out is the `timedOut` flag, and it voids the whole batch. A per-handler time-out is a `fal` answer of None.
- Pydantic validation of the request models is the `accepts` parameter.
- Supabase failures are not modelled; every insert and update succeeds.
- Query ordering is not modelled: the rows a select returns, in order, are the `selected` parameter of the URL updates.
- `get_scenes_for_video` and `get_music_for_video` are reads with no logic beyond the query and logging, so they are not modelled.
- Redis connection handling and ARQ enqueueing (app/webhook_handler.py:37-90 and 299-437) are not modelled, except the prompt summary they store in the task hash.
- `update_task_progress` is not modelled: it only writes a progress hash.
- uuid generation and timestamps are parameters.
- Floating point is not modelled. Volumes are in tenths. `average_processing_time` is a float that `_update_stats` never writes, so it is left out of the statistics.
- Webhook.Incr: Redis's 64-bit counter overflow is not modelled.
- Json.StrOf: a list or dictionary inside an f-string is rendered as the fixed text "[...]" or "{...}" instead of Python's repr, because dictionary order and repr quoting are not modelled; so SceneGeneration.Part, CombinedImagePrompt, CombinedVoiceover and CombinedMusicPrompt differ from the source when a prompt part is a list or dictionary, and for a list- or dictionary-valued voice-over text the premise and conclusion of SingleAsset.ProcessedVoiceoverExtract speak of the stand-in, not of the repr.
- Strings.Lower: lower-cases ASCII letters only, not all of Unicode.
- A URL in a service answer that is not a string is treated as "".
- The outer `except` blocks are error paths (None, "" or []). Exceptions raised by logging calls are not modelled, except where an f-string slice can raise, which the `Sliceable` checks capture.
- `prompt_optimizer` is always on and is not represented.
- send_video_callback's `callback_url` argument is ignored, as in the source: the endpoint is fixed.
- app/services/image_processing.py is not part of this model.
- Logging is not modelled.
- Dict insertion order is not modelled: records are maps.
- Webhook.WanSourcePresent: states the "wan" model default only when the body has no "model" key. A body whose "model" is null drops the key.
