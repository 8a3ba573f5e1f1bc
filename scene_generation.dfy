/** The post-processing of the two scene generators. The classic generator
    turns five nested scene descriptions into flat scene records with
    combined, labelled prompts; the WAN generator extracts an optional
    music prompt, checks six scenes for their required keys, and
    substitutes defaults for blank voice-over text and for emotions and
    voices outside the allowed lists. */
module SceneGeneration {
  import opened Common
  import opened Json
  import opened Strings
  import opened ResponseValidation

  // ---------------------------------------------------------------------
  // Classic generator

  /** `scene.get(key, {})` followed by `.get` calls: an absent entry acts
      as an empty dictionary, a present one must be a dictionary. */
  function Nested(scene: Record, key: string): Option<Record> {
    if key !in scene then Some(map[])
    else if scene[key].JObj? then Some(scene[key].fields)
    else None
  }

  /** `{obj.get(key, '')}` inside an f-string. */
  function Part(obj: Record, key: string): string {
    StrOf(Get(obj, key, JStr("")))
  }

  function CombinedImagePrompt(img: Record): (r: string)
    ensures StartsWith(r, "base: ")
  {
    var rest := Part(img, "base") + " technical_specs: " + Part(img, "technical_specs")
      + " style_modifiers: " + Part(img, "style_modifiers")
      + " consistency_elements: " + Part(img, "consistency_elements")
      + " ai_guidance: " + Part(img, "ai_guidance");
    StartsWithConcat("base: ", rest);
    "base: " + rest
  }

  function CombinedVoiceover(vo: Record): (r: string)
    ensures StartsWith(r, "text: ")
  {
    var rest := Part(vo, "text") + " delivery: " + Part(vo, "delivery");
    StartsWithConcat("text: ", rest);
    "text: " + rest
  }

  function CombinedMusicPrompt(m: Record): (r: string)
    ensures StartsWith(r, "style: ")
  {
    var rest := Part(m, "style") + " mood: " + Part(m, "mood")
      + " intensity: " + Part(m, "intensity") + " progression: " + Part(m, "progression");
    StartsWithConcat("style: ", rest);
    "style: " + rest
  }

  /** A raw scene can be processed: it is a dictionary, its four nested
      prompt entries are dictionaries (or absent), and its original
      description can be sliced for the log line. */
  predicate Processable(raw: JValue) {
    && raw.JObj?
    && Nested(raw.fields, "image_prompt").Some?
    && Nested(raw.fields, "video_prompt").Some?
    && Nested(raw.fields, "voiceover").Some?
    && Nested(raw.fields, "music_prompt").Some?
    && Sliceable(Get(raw.fields, "original_description", JStr("")))
  }

  /** The flat record built from the raw scene at position `i`. */
  function ProcessedScene(raw: JValue, i: nat): (r: Record)
    requires Processable(raw)
    ensures r.Keys == {"scene_number", "original_description", "image_prompt", "visual_description",
                       "vioce_over", "sound_effects", "music_direction"}
    ensures r["scene_number"] == Get(raw.fields, "scene_number", JNum(i + 1))
    ensures r["sound_effects"] == JStr("")
    ensures r["visual_description"] == Get(Nested(raw.fields, "video_prompt").value, "your_role", JStr(""))
    ensures r["vioce_over"].JStr? && StartsWith(r["vioce_over"].s, "text: ")
    ensures r["image_prompt"].JStr? && StartsWith(r["image_prompt"].s, "base: ")
    ensures r["music_direction"].JStr? && StartsWith(r["music_direction"].s, "style: ")
  {
    var s := raw.fields;
    var img := CombinedImagePrompt(Nested(s, "image_prompt").value);
    var vo := CombinedVoiceover(Nested(s, "voiceover").value);
    var mu := CombinedMusicPrompt(Nested(s, "music_prompt").value);
    map[
      "scene_number" := Get(s, "scene_number", JNum(i + 1)),
      "original_description" := Get(s, "original_description", JStr("")),
      "image_prompt" := JStr(img),
      "visual_description" := Get(Nested(s, "video_prompt").value, "your_role", JStr("")),
      "vioce_over" := JStr(vo),
      "sound_effects" := JStr(""),
      "music_direction" := JStr(mu)
    ]
  }

  /** The voice-over of a processed scene is "text: T delivery: D" with the
      voice-over entry's text and delivery. */
  lemma ProcessedVoiceoverFormat(raw: JValue, i: nat)
    requires Processable(raw)
    ensures var vo := Nested(raw.fields, "voiceover").value;
            ProcessedScene(raw, i)["vioce_over"] == JStr("text: " + (Part(vo, "text") + " delivery: " + Part(vo, "delivery")))
  {
  }

  /** The classic processing loop: one flat record per raw scene, or None
      (the generator's []) as soon as one scene cannot be processed. */
  method ProcessScenes(raws: seq<JValue>) returns (r: Option<seq<Record>>)
    ensures r.Some? <==> forall i :: 0 <= i < |raws| ==> Processable(raws[i])
    ensures r.Some? ==> |r.value| == |raws|
    ensures r.Some? ==> forall i :: 0 <= i < |raws| ==> r.value[i] == ProcessedScene(raws[i], i)
  {
    var processed: seq<Record> := [];
    for i := 0 to |raws|
      invariant |processed| == i
      invariant forall k :: 0 <= k < i ==> Processable(raws[k]) && processed[k] == ProcessedScene(raws[k], k)
    {
      if !Processable(raws[i]) {
        return None;
      }
      processed := processed + [ProcessedScene(raws[i], i)];
    }
    return Some(processed);
  }

  /** `generate_scenes_with_gpt4` after the model call; None stands for []. */
  method GenerateClassicScenes(content: string, loads: string -> Option<JValue>) returns (r: Option<seq<Record>>)
    ensures r.Some? <==>
              && ParsedReply(content, loads).Some?
              && |ParsedReply(content, loads).value| == ClassicSceneCount
              && forall i :: 0 <= i < ClassicSceneCount ==> Processable(ParsedReply(content, loads).value[i])
    ensures r.Some? ==> |r.value| == ClassicSceneCount
    ensures r.Some? ==> forall i :: 0 <= i < ClassicSceneCount ==>
              r.value[i] == ProcessedScene(ParsedReply(content, loads).value[i], i)
  {
    if content == "" {
      return None;
    }
    var cleaned := Clean(content);
    if cleaned == "" {
      return None;
    }
    var parsed := loads(cleaned);
    if parsed.None? {
      return None;
    }
    var raws := RevisionSceneList(parsed.value);
    if raws.None? || |raws.value| != ClassicSceneCount {
      return None;
    }
    r := ProcessScenes(raws.value);
  }

  // ---------------------------------------------------------------------
  // WAN generator

  const DefaultMusicPrompt: string := "Lo-fi hip hop with calm steady beat"

  const AllowedEmotions: seq<string> := ["happy", "sad", "angry", "fearful", "disgusted", "surprised", "neutral"]

  const AllowedVoices: seq<string> :=
    ["Wise_Woman", "Friendly_Person", "Inspirational_girl", "Deep_Voice_Man", "Calm_Woman",
     "Casual_Guy", "Lively_Girl", "Patient_Man", "Young_Knight", "Determined_Man", "Lovely_Girl",
     "Decent_Boy", "Imposing_Manner", "Elegant_Man", "Abbess", "Sweet_Girl_2", "Exuberant_Girl"]

  /** The voice-over text substituted for a blank one in scene `i` (0-based). */
  function DefaultVoiceover(i: nat): string {
    "Scene " + NatText(i + 1) + " voiceover text."
  }

  /** `x in xs` for a list of strings. */
  predicate Listed(x: string, xs: seq<string>) {
    xs != [] && (xs[0] == x || Listed(x, xs[1..]))
  }

  /** `Listed` holds exactly when some entry equals the value. */
  lemma {:induction false} ListedAt(x: string, xs: seq<string>)
    ensures Listed(x, xs) <==> exists j :: 0 <= j < |xs| && xs[j] == x
  {
    if xs != [] {
      ListedAt(x, xs[1..]);
      assert forall j :: 1 <= j < |xs| ==> xs[j] == xs[1..][j - 1];
    }
  }

  /** An emotion is accepted when, stripped and lower-cased, it is listed. */
  predicate ValidEmotion(e: string) {
    Listed(Lower(Strip(e)), AllowedEmotions)
  }

  /** A voice is accepted when, stripped, it is listed. */
  predicate ValidVoice(v: string) {
    Listed(Strip(v), AllowedVoices)
  }

  /** How the WAN generator ends: the scenes (six of them, or none) and the
      music prompt. */
  datatype WanGeneration = WanGeneration(scenes: seq<JValue>, musicPrompt: string)

  /** The top level of a WAN reply: a list carries no music prompt; an
      object must have "scenes", and its music prompt is kept when it is a
      non-blank string, blanked when it is falsy or blank, and replaced by
      the default when absent. A truthy non-string music prompt has no
      `strip` and aborts the generator (None). */
  function WanTopLevel(parsed: JValue): (r: Option<(JValue, string)>)
    ensures parsed.JArr? ==> r == Some((parsed, ""))
    ensures parsed.JObj? && "scenes" !in parsed.fields ==> r.None?
    ensures parsed.JObj? && "scenes" in parsed.fields && "music_prompt" !in parsed.fields ==>
              r == Some((parsed.fields["scenes"], DefaultMusicPrompt))
    ensures r.Some? ==> r.value.1 == "" || Strip(r.value.1) != ""
    ensures !(parsed.JArr? || parsed.JObj?) ==> r.None?
  {
    match parsed
    case JArr(_) => Some((parsed, ""))
    case JObj(m) =>
      if "scenes" !in m then None
      else if "music_prompt" !in m then Some((m["scenes"], DefaultMusicPrompt))
      else
        var v := m["music_prompt"];
        if !Truthy(v) then Some((m["scenes"], ""))
        else if !v.JStr? then None
        else if Strip(v.s) != "" then Some((m["scenes"], v.s))
        else Some((m["scenes"], ""))
    case _ => None
  }

  /** The voice-over text kept, or the default when it is blank. */
  function FallbackVoiceover(text: string, i: nat): (r: string)
    ensures Strip(r) != ""
    ensures Strip(text) != "" ==> r == text
  {
    if Strip(text) == "" then DefaultVoiceoverNonBlank(i); DefaultVoiceover(i) else text
  }

  /** The emotion kept as written when accepted, else "neutral". */
  function FallbackEmotion(e: string): (r: string)
    ensures ValidEmotion(r)
    ensures ValidEmotion(e) ==> r == e
  {
    if ValidEmotion(e) then e else NeutralValid(); "neutral"
  }

  /** The voice kept as written when accepted, else "Friendly_Person". */
  function FallbackVoice(v: string): (r: string)
    ensures ValidVoice(r)
    ensures ValidVoice(v) ==> r == v
  {
    if ValidVoice(v) then v else FriendlyPersonValid(); "Friendly_Person"
  }

  /** The three values the fallbacks read are strings. */
  predicate TextFields(scene: Record) {
    && Get(scene, "elevenlabs_prompt", JStr("")).JStr?
    && Get(scene, "eleven_labs_emotion", JStr("")).JStr?
    && Get(scene, "eleven_labs_voice_id", JStr("")).JStr?
  }

  /** The fallbacks applied to the scene at position `i`; None when one of
      the three values read is not a string (`strip` raises). */
  function NormalizeScene(scene: Record, i: nat): (r: Option<Record>)
    ensures r.Some? <==> TextFields(scene)
  {
    var vo := Get(scene, "elevenlabs_prompt", JStr(""));
    var em := Get(scene, "eleven_labs_emotion", JStr(""));
    var vc := Get(scene, "eleven_labs_voice_id", JStr(""));
    if !(vo.JStr? && em.JStr? && vc.JStr?) then None
    else Some(WithTexts(scene, FallbackVoiceover(vo.s, i), FallbackEmotion(em.s), FallbackVoice(vc.s)))
  }

  /** The scene with its voice-over, emotion and voice replaced. */
  function WithTexts(scene: Record, voiceover: string, emotion: string, voice: string): (r: Record)
    ensures "elevenlabs_prompt" in r && r["elevenlabs_prompt"] == JStr(voiceover)
    ensures "eleven_labs_emotion" in r && r["eleven_labs_emotion"] == JStr(emotion)
    ensures "eleven_labs_voice_id" in r && r["eleven_labs_voice_id"] == JStr(voice)
    ensures r.Keys == scene.Keys + {"elevenlabs_prompt", "eleven_labs_emotion", "eleven_labs_voice_id"}
    ensures forall k :: k in scene && k != "elevenlabs_prompt" && k != "eleven_labs_emotion" && k != "eleven_labs_voice_id" ==>
              r[k] == scene[k]
  {
    scene["elevenlabs_prompt" := JStr(voiceover)]["eleven_labs_emotion" := JStr(emotion)]["eleven_labs_voice_id" := JStr(voice)]
  }

  /** A scene ready for voice generation: a non-blank voice-over text, an
      allowed emotion and an allowed voice. */
  predicate VoiceReady(scene: Record) {
    && "elevenlabs_prompt" in scene && scene["elevenlabs_prompt"].JStr?
    && Strip(scene["elevenlabs_prompt"].s) != ""
    && "eleven_labs_emotion" in scene && scene["eleven_labs_emotion"].JStr?
    && ValidEmotion(scene["eleven_labs_emotion"].s)
    && "eleven_labs_voice_id" in scene && scene["eleven_labs_voice_id"].JStr?
    && ValidVoice(scene["eleven_labs_voice_id"].s)
  }

  /** After the fallbacks the voice-over text is non-blank, the emotion and
      the voice are allowed ones, and every other entry is unchanged. */
  lemma NormalizedSceneValid(scene: Record, i: nat)
    requires NormalizeScene(scene, i).Some?
    ensures VoiceReady(NormalizeScene(scene, i).value)
    ensures scene.Keys <= NormalizeScene(scene, i).value.Keys
    ensures var r := NormalizeScene(scene, i).value;
            forall k :: k in scene && k != "elevenlabs_prompt" && k != "eleven_labs_emotion" && k != "eleven_labs_voice_id" ==>
              k in r && r[k] == scene[k]
  {
  }

  /** The default voice-over text is not blank. */
  lemma DefaultVoiceoverNonBlank(i: nat)
    ensures Strip(DefaultVoiceover(i)) != ""
  {
    var d := DefaultVoiceover(i);
    assert d[0] == 'S';
    StripUnchanged(d);
  }

  /** The default emotion is an allowed one. */
  lemma NeutralValid()
    ensures ValidEmotion("neutral")
  {
    StripUnchanged("neutral");
    var l := Lower("neutral");
    assert l[0] == 'n' && l[1] == 'e' && l[2] == 'u' && l[3] == 't' && l[4] == 'r' && l[5] == 'a' && l[6] == 'l';
    assert l == "neutral";
    assert AllowedEmotions[6] == "neutral";
    ListedAt("neutral", AllowedEmotions);
  }

  /** The default voice is an allowed one. */
  lemma FriendlyPersonValid()
    ensures ValidVoice("Friendly_Person")
  {
    StripUnchanged("Friendly_Person");
    assert AllowedVoices[1] == "Friendly_Person";
    ListedAt("Friendly_Person", AllowedVoices);
  }

  /** Valid values are kept as written: a scene whose three values are
      already acceptable is left unchanged (so "Happy" stays "Happy"). */
  lemma NormalizeKeepsValid(scene: Record, i: nat)
    requires "elevenlabs_prompt" in scene && scene["elevenlabs_prompt"].JStr? && Strip(scene["elevenlabs_prompt"].s) != ""
    requires "eleven_labs_emotion" in scene && scene["eleven_labs_emotion"].JStr? && ValidEmotion(scene["eleven_labs_emotion"].s)
    requires "eleven_labs_voice_id" in scene && scene["eleven_labs_voice_id"].JStr? && ValidVoice(scene["eleven_labs_voice_id"].s)
    ensures NormalizeScene(scene, i) == Some(scene)
  {
    var vo := scene["elevenlabs_prompt"].s;
    var em := scene["eleven_labs_emotion"].s;
    var vc := scene["eleven_labs_voice_id"].s;
    assert FallbackVoiceover(vo, i) == vo;
    assert FallbackEmotion(em) == em;
    assert FallbackVoice(vc) == vc;
    assert scene["elevenlabs_prompt" := JStr(vo)] == scene;
    assert scene["eleven_labs_emotion" := JStr(em)] == scene;
    assert scene["eleven_labs_voice_id" := JStr(vc)] == scene;
  }

  /** The fallbacks are idempotent. */
  lemma NormalizeIdempotent(scene: Record, i: nat)
    requires NormalizeScene(scene, i).Some?
    ensures NormalizeScene(NormalizeScene(scene, i).value, i) == NormalizeScene(scene, i)
  {
    NormalizedSceneValid(scene, i);
    NormalizeKeepsValid(NormalizeScene(scene, i).value, i);
  }

  /** "Happy" is an accepted emotion and is kept with its capital. */
  lemma CapitalisedEmotionKept()
    ensures ValidEmotion("Happy")
  {
    StripUnchanged("Happy");
    var l := Lower("Happy");
    assert l[0] == 'h' && l[1] == 'a' && l[2] == 'p' && l[3] == 'p' && l[4] == 'y';
    assert l == "happy";
    assert AllowedEmotions[0] == "happy";
  }

  /** A scene can be normalised and then logged: it is a dictionary, the
      fallbacks do not raise, and its image prompt can be sliced. */
  predicate Normalizable(scene: JValue) {
    scene.JObj? && TextFields(scene.fields) && Sliceable(Get(scene.fields, "nano_banana_prompt", JStr("")))
  }

  /** A scene after the fallbacks; a value they cannot be applied to is
      left as it is. */
  function NormalizedAt(v: JValue, i: nat): JValue {
    if v.JObj? && NormalizeScene(v.fields, i).Some? then JObj(NormalizeScene(v.fields, i).value) else v
  }

  /** The scenes after the fallbacks. */
  function NormalizedScenes(scenes: seq<JValue>): (r: seq<JValue>)
    ensures |r| == |scenes|
  {
    seq(|scenes|, k requires 0 <= k < |scenes| => NormalizedAt(scenes[k], k))
  }

  /** The fallback pass over the scenes. A scene that is not a dictionary,
      or whose voice-over, emotion or voice is not a string, makes the pass
      raise (None); so does an image prompt the success log cannot slice. */
  method NormalizeWanScenes(scenes: seq<JValue>) returns (r: Option<seq<JValue>>)
    ensures r.Some? <==> forall i :: 0 <= i < |scenes| ==> Normalizable(scenes[i])
    ensures r.Some? ==> r.value == NormalizedScenes(scenes)
  {
    var ok := TextsPresent(scenes);
    if !ok {
      return None;
    }
    var out := ApplyFallbacks(scenes);
    var loggable := ImagePromptsSliceable(scenes);
    if !loggable {
      return None;
    }
    return Some(out);
  }

  /** Whether every scene is a dictionary whose three texts are strings. */
  method TextsPresent(scenes: seq<JValue>) returns (ok: bool)
    ensures ok <==> forall i :: 0 <= i < |scenes| ==> scenes[i].JObj? && TextFields(scenes[i].fields)
  {
    for i := 0 to |scenes|
      invariant forall k :: 0 <= k < i ==> scenes[k].JObj? && TextFields(scenes[k].fields)
    {
      if !scenes[i].JObj? || !TextFields(scenes[i].fields) {
        return false;
      }
    }
    return true;
  }

  /** The loop that rewrites each scene in turn. */
  method ApplyFallbacks(scenes: seq<JValue>) returns (out: seq<JValue>)
    ensures out == NormalizedScenes(scenes)
  {
    out := [];
    for i := 0 to |scenes|
      invariant |out| == i
      invariant forall k :: 0 <= k < i ==> out[k] == NormalizedAt(scenes[k], k)
    {
      out := out + [NormalizedAt(scenes[i], i)];
    }
  }

  /** The success log slices each scene's nano_banana_prompt, which the
      fallbacks do not touch. */
  method ImagePromptsSliceable(scenes: seq<JValue>) returns (ok: bool)
    requires forall i :: 0 <= i < |scenes| ==> scenes[i].JObj?
    ensures ok <==> forall i :: 0 <= i < |scenes| ==> Sliceable(Get(scenes[i].fields, "nano_banana_prompt", JStr("")))
  {
    for i := 0 to |scenes|
      invariant forall k :: 0 <= k < i ==> Sliceable(Get(scenes[k].fields, "nano_banana_prompt", JStr("")))
    {
      if !Sliceable(Get(scenes[i].fields, "nano_banana_prompt", JStr(""))) {
        return false;
      }
    }
    return true;
  }

  /** `wan_scene_generator` after the model call, outcome by outcome. */
  function WanGenerationOf(content: string, loads: string -> Option<JValue>): (g: WanGeneration)
    ensures |g.scenes| == 0 || |g.scenes| == WanSceneCount
    ensures g.musicPrompt == "" || Strip(g.musicPrompt) != ""
  {
    if content == "" || Clean(content) == "" || loads(Clean(content)).None? then WanGeneration([], "")
    else match WanTopLevel(loads(Clean(content)).value)
      case None => WanGeneration([], "")
      case Some((value, music)) =>
        if !value.JArr? || |value.items| != WanSceneCount then WanGeneration([], music)
        else if CheckRaises(value.items, WanFields) then WanGeneration([], "")
        else if !AllFieldsPresent(value.items, WanFields) then WanGeneration([], music)
        else if !(forall i :: 0 <= i < |value.items| ==> Normalizable(value.items[i])) then WanGeneration([], "")
        else WanGeneration(NormalizedScenes(value.items), music)
  }

  /** `wan_scene_generator` after the model call. */
  method GenerateWanScenes(content: string, loads: string -> Option<JValue>) returns (g: WanGeneration)
    ensures g == WanGenerationOf(content, loads)
  {
    if content == "" {
      return WanGeneration([], "");
    }
    var cleaned := Clean(content);
    if cleaned == "" {
      return WanGeneration([], "");
    }
    var parsed := loads(cleaned);
    if parsed.None? {
      return WanGeneration([], "");
    }
    var top := WanTopLevel(parsed.value);
    if top.None? {
      return WanGeneration([], "");
    }
    var (value, music) := top.value;
    if !value.JArr? || |value.items| != WanSceneCount {
      return WanGeneration([], music);
    }
    var check := CheckRequiredFields(value.items, WanFields);
    if check.Raised? {
      return WanGeneration([], "");
    }
    if check.Missing? {
      return WanGeneration([], music);
    }
    var normalized := NormalizeWanScenes(value.items);
    if normalized.None? {
      return WanGeneration([], "");
    }
    return WanGeneration(normalized.value, music);
  }

  /** A reply that parses to a dictionary without "scenes" yields nothing,
      not even a music prompt. */
  lemma WanWithoutScenes(content: string, loads: string -> Option<JValue>, m: map<string, JValue>)
    requires content != "" && Clean(content) != ""
    requires loads(Clean(content)) == Some(JObj(m)) && "scenes" !in m
    ensures WanGenerationOf(content, loads) == WanGeneration([], "")
  {
  }

  /** A bare list carries no music prompt, whatever becomes of its scenes. */
  lemma WanListHasNoMusic(content: string, loads: string -> Option<JValue>)
    requires content != "" && Clean(content) != ""
    requires loads(Clean(content)).Some? && loads(Clean(content)).value.JArr?
    ensures WanGenerationOf(content, loads).musicPrompt == ""
  {
  }

  /** The music prompt of a dictionary reply: kept as written when it is a
      non-blank string, blanked when it is blank or falsy, the default when
      absent. */
  lemma WanMusicPromptCases(parsed: JValue, value: JValue)
    requires parsed.JObj? && "scenes" in parsed.fields && parsed.fields["scenes"] == value
    ensures "music_prompt" !in parsed.fields ==> WanTopLevel(parsed) == Some((value, DefaultMusicPrompt))
    ensures "music_prompt" in parsed.fields && parsed.fields["music_prompt"].JStr? ==>
              var mp := parsed.fields["music_prompt"].s;
              WanTopLevel(parsed) == Some((value, if Strip(mp) == "" then "" else mp))
    ensures "music_prompt" in parsed.fields && !Truthy(parsed.fields["music_prompt"]) ==>
              WanTopLevel(parsed) == Some((value, ""))
    ensures "music_prompt" in parsed.fields && Truthy(parsed.fields["music_prompt"]) && !parsed.fields["music_prompt"].JStr? ==>
              WanTopLevel(parsed).None?
  {
    if "music_prompt" in parsed.fields && parsed.fields["music_prompt"] == JStr("") {
      assert Strip("") == "";
    }
  }

  /** A scene list of the wrong length ends the generator with the music
      prompt already extracted. */
  lemma WanWrongCountKeepsMusic(content: string, loads: string -> Option<JValue>, items: seq<JValue>, music: string)
    requires content != "" && Clean(content) != "" && loads(Clean(content)).Some?
    requires WanTopLevel(loads(Clean(content)).value) == Some((JArr(items), music))
    requires |items| != WanSceneCount
    ensures WanGenerationOf(content, loads) == WanGeneration([], music)
  {
  }

  /** A scene missing a required key, reached before any scene that cannot
      be searched, ends the generator with the music prompt kept. */
  lemma WanMissingKeyKeepsMusic(content: string, loads: string -> Option<JValue>, items: seq<JValue>, music: string, s: nat, f: nat)
    requires content != "" && Clean(content) != "" && loads(Clean(content)).Some?
    requires WanTopLevel(loads(Clean(content)).value) == Some((JArr(items), music))
    requires |items| == WanSceneCount
    requires s < |items| && f < |WanFields|
    requires forall i :: 0 <= i < s ==> ScenePasses(items[i], WanFields)
    requires PyIn(WanFields[f], items[s]) == Some(false)
    ensures WanGenerationOf(content, loads) == WanGeneration([], music)
  {
    FirstMissingNoRaise(items, WanFields, s, f);
  }

  /** A scene that passes the required-key check and the fallbacks keeps
      every required key and is ready for voice generation. */
  lemma NormalizedAtValid(v: JValue, i: nat)
    requires Normalizable(v) && ScenePasses(v, WanFields)
    ensures NormalizedAt(v, i).JObj? && VoiceReady(NormalizedAt(v, i).fields)
    ensures forall j :: 0 <= j < |WanFields| ==> WanFields[j] in NormalizedAt(v, i).fields
  {
    NormalizedSceneValid(v.fields, i);
    forall j | 0 <= j < |WanFields|
      ensures WanFields[j] in v.fields
    {
      assert PyIn(WanFields[j], v) == Some(true);
    }
  }

  /** Scene `i` after the fallback pass over scenes that all carry the
      required keys: still a dictionary with every required key, a
      non-blank voice-over, an allowed emotion and an allowed voice. */
  lemma NormalizedScenesValid(items: seq<JValue>, i: nat)
    requires forall k :: 0 <= k < |items| ==> Normalizable(items[k])
    requires AllFieldsPresent(items, WanFields)
    requires i < |items|
    ensures var sc := NormalizedScenes(items)[i];
            sc.JObj? && VoiceReady(sc.fields) && forall j :: 0 <= j < |WanFields| ==> WanFields[j] in sc.fields
  {
    NormalizedAtValid(items[i], i);
  }

  /** When the generator returns scenes, there are six, each still carries
      every required key, and each has a non-blank voice-over, an allowed
      emotion and an allowed voice. */
  lemma WanScenesValid(content: string, loads: string -> Option<JValue>, i: nat)
    requires WanGenerationOf(content, loads).scenes != []
    requires i < WanSceneCount
    ensures |WanGenerationOf(content, loads).scenes| == WanSceneCount
    ensures var sc := WanGenerationOf(content, loads).scenes[i];
            sc.JObj? && VoiceReady(sc.fields) && forall j :: 0 <= j < |WanFields| ==> WanFields[j] in sc.fields
  {
    var parsed := loads(Clean(content)).value;
    var items := WanTopLevel(parsed).value.0.items;
    assert WanGenerationOf(content, loads).scenes == NormalizedScenes(items);
    NormalizedScenesValid(items, i);
  }
}
