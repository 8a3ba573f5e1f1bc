/** The revision engine's generators: a revision request and the stored
    scenes go to the language model, and its reply is cleaned, parsed,
    checked for shape, scene count and required keys (all or nothing),
    and in the WAN workflow mapped back to the storage field names. A
    request that complains about missing music also asks for a music
    track. The model's reply is an input here; `loads` stands for
    `json.loads`. */
module RevisionAi {
  import opened Common
  import opened Json
  import opened Strings
  import opened ResponseValidation
  import opened SchemaMapper

  /** Phrases that mean the video lacks music. */
  const MusicKeywords: seq<string> :=
    ["no music", "no background music", "missing music", "add music", "needs music", "without music", "no sound", "silent"]

  /** Python's `any(k in text for k in keys)`. */
  function AnyKeyword(text: string, keys: seq<string>): (r: bool)
    ensures r <==> exists j :: 0 <= j < |keys| && Contains(text, keys[j])
  {
    if keys == [] then false
    else
      assert forall j :: 1 <= j < |keys| ==> keys[j] == keys[1..][j - 1];
      Contains(text, keys[0]) || AnyKeyword(text, keys[1..])
  }

  /** The request, lower-cased, contains one of the music keywords. */
  function MentionsMissingMusic(request: string): (r: bool)
    ensures r <==> exists j :: 0 <= j < |MusicKeywords| && Contains(Lower(request), MusicKeywords[j])
  {
    AnyKeyword(Lower(request), MusicKeywords)
  }

  /** Matching ignores case. */
  lemma UpperCaseKeyword()
    ensures MentionsMissingMusic("ADD MUSIC")
  {
    var s := "ADD MUSIC";
    var l := Lower(s);
    assert l[0] == 'a' && l[1] == 'd' && l[2] == 'd' && l[3] == ' ' && l[4] == 'm';
    assert l[5] == 'u' && l[6] == 's' && l[7] == 'i' && l[8] == 'c';
    assert l == "add music";
    assert MatchAt(l, MusicKeywords[3], 0);
  }

  /** A keyword inside a longer word counts: "silently" contains "silent". */
  lemma KeywordInsideWord()
    ensures MentionsMissingMusic("silently")
  {
    var l := Lower("silently");
    assert l == "silently";
    assert MatchAt(l, MusicKeywords[7], 0);
  }

  /** Every keyword has at least six characters, so a shorter request
      never asks for music. */
  lemma ShortRequestNoMusic(request: string)
    requires |request| < 6
    ensures !MentionsMissingMusic(request)
  {
    assert forall j :: 0 <= j < |MusicKeywords| ==> |MusicKeywords[j]| >= 6;
  }

  // ---------------------------------------------------------------------
  // Classic (five-scene) revision

  /** The stored scenes can be shown to the model: each is a dictionary
      and its visual description can be sliced for the log line. */
  predicate ClassicShowable(originals: seq<JValue>) {
    forall i :: 0 <= i < |originals| ==>
      originals[i].JObj? && Sliceable(Get(originals[i].fields, "visual_description", JStr("")))
  }

  /** The success log line reads each revised scene's visual description
      with `get`, slices it and appends "...": the scene must be a
      dictionary and the value a string. */
  predicate ClassicLoggable(scenes: seq<JValue>) {
    forall i :: 0 <= i < |scenes| ==>
      scenes[i].JObj? && Get(scenes[i].fields, "visual_description", JStr("")).JStr?
  }

  /** `generate_revised_scenes_with_gpt4` after the model call; None stands
      for the [] it returns on every failure. */
  function ClassicRevision(originals: seq<JValue>, content: string, loads: string -> Option<JValue>): (r: Option<seq<JValue>>)
    ensures r.Some? ==> |r.value| == ClassicSceneCount
    ensures r.Some? ==> AllFieldsPresent(r.value, ClassicFields)
    ensures r.Some? ==> ParsedReply(content, loads) == r
    ensures r.Some? ==> ClassicShowable(originals) && ClassicLoggable(r.value)
  {
    if !ClassicShowable(originals) then None
    else match ParsedReply(content, loads)
      case None => None
      case Some(scenes) =>
        if |scenes| == ClassicSceneCount && AllFieldsPresent(scenes, ClassicFields) && ClassicLoggable(scenes)
        then Some(scenes)
        else None
  }

  /** The classic scenes as they are shown to the model. */
  method ClassicScenesForModel(originals: seq<JValue>) returns (shown: Option<seq<Record>>)
    ensures shown.Some? <==> ClassicShowable(originals)
    ensures shown.Some? ==> |shown.value| == |originals|
    ensures shown.Some? ==> forall i :: 0 <= i < |originals| ==> shown.value[i] == ClassicForModel(originals[i].fields)
  {
    var acc: seq<Record> := [];
    for i := 0 to |originals|
      invariant |acc| == i
      invariant forall k :: 0 <= k < i ==>
        originals[k].JObj? && Sliceable(Get(originals[k].fields, "visual_description", JStr("")))
      invariant forall k :: 0 <= k < i ==> acc[k] == ClassicForModel(originals[k].fields)
    {
      if !originals[i].JObj? || !Sliceable(Get(originals[i].fields, "visual_description", JStr(""))) {
        return None;
      }
      acc := acc + [ClassicForModel(originals[i].fields)];
    }
    return Some(acc);
  }

  /** The classic revision step by step; `content` is the model's reply to
      the scenes shown to it. */
  method ReviseClassic(originals: seq<JValue>, content: string, loads: string -> Option<JValue>) returns (r: Option<seq<JValue>>)
    ensures r == ClassicRevision(originals, content, loads)
  {
    var shown := ClassicScenesForModel(originals);
    if shown.None? {
      return None;
    }
    if content == "" {
      return None;
    }
    var cleaned := Clean(content);
    if cleaned == "" {
      return None;
    }
    var parsed := loads(cleaned);
    if parsed.None? {
      return None;
    }
    var scenes := RevisionSceneList(parsed.value);
    if scenes.None? || |scenes.value| != ClassicSceneCount {
      return None;
    }
    var check := CheckRequiredFields(scenes.value, ClassicFields);
    if !check.AllPresent? {
      return None;
    }
    for i := 0 to |scenes.value|
      invariant forall k :: 0 <= k < i ==>
        scenes.value[k].JObj? && Get(scenes.value[k].fields, "visual_description", JStr("")).JStr?
    {
      if !scenes.value[i].JObj? || !Get(scenes.value[i].fields, "visual_description", JStr("")).JStr? {
        return None;
      }
    }
    return scenes;
  }

  /** All or nothing: one missing key on one scene rejects the batch. */
  lemma ClassicRejectsMissingKey(originals: seq<JValue>, content: string, loads: string -> Option<JValue>, i: nat, j: nat)
    requires ParsedReply(content, loads).Some?
    requires i < |ParsedReply(content, loads).value| && j < |ClassicFields|
    requires PyIn(ClassicFields[j], ParsedReply(content, loads).value[i]) != Some(true)
    ensures ClassicRevision(originals, content, loads).None?
  {
  }

  /** A fenced reply holding a list of five well-formed scenes is accepted,
      and the scenes come back exactly as parsed. */
  lemma ClassicAcceptsFenced(originals: seq<JValue>, body: string, loads: string -> Option<JValue>, xs: seq<JValue>)
    requires ClassicShowable(originals)
    requires Strip(body) != "" && loads(Strip(body)) == Some(JArr(xs))
    requires |xs| == ClassicSceneCount && AllFieldsPresent(xs, ClassicFields) && ClassicLoggable(xs)
    ensures ClassicRevision(originals, JsonFence + body + Fence, loads) == Some(xs)
  {
    CleanFenced(body);
  }

  // ---------------------------------------------------------------------
  // WAN (six-scene) revision

  /** A successful WAN revision: the scenes in storage format and whether a
      music track was asked for. */
  datatype WanRevision = WanRevision(scenes: seq<Record>, musicRequested: bool)

  /** The stored scenes can be shown to the model: each is a dictionary and
      its image prompt can be sliced for the log line. */
  predicate WanShowable(originals: seq<JValue>) {
    forall i :: 0 <= i < |originals| ==> WanShowableScene(originals[i])
  }

  predicate WanShowableScene(scene: JValue) {
    scene.JObj? && Sliceable(Get(scene.fields, "image_prompt", JStr("")))
  }

  /** Mapping to storage calls `get` on every scene, and the success log
      line slices each image prompt and appends "...". */
  predicate WanStorable(scenes: seq<JValue>) {
    forall i :: 0 <= i < |scenes| ==>
      scenes[i].JObj? && Get(scenes[i].fields, "nano_banana_prompt", JStr("")).JStr?
  }

  function StorageScenes(scenes: seq<JValue>): (r: seq<Record>)
    requires forall i :: 0 <= i < |scenes| ==> scenes[i].JObj?
    ensures |r| == |scenes|
    ensures forall i :: 0 <= i < |r| ==> r[i] == ToStorage(scenes[i].fields)
  {
    seq(|scenes|, i requires 0 <= i < |scenes| => ToStorage(scenes[i].fields))
  }

  /** `generate_revised_wan_scenes_with_gpt4` after the model call: six
      scenes in storage format plus the music flag, or None for the [] it
      returns on every failure. */
  function WanRevisionOf(request: string, originals: seq<JValue>, content: string, loads: string -> Option<JValue>): (r: Option<WanRevision>)
    ensures r.Some? ==> r.value.musicRequested == MentionsMissingMusic(request)
    ensures r.Some? ==> |r.value.scenes| == WanSceneCount
    ensures r.Some? ==>
              && ParsedReply(content, loads).Some?
              && var parsed := ParsedReply(content, loads).value;
              && |parsed| == WanSceneCount
              && AllFieldsPresent(parsed, WanFields)
              && WanStorable(parsed)
              && forall i :: 0 <= i < |parsed| ==> r.value.scenes[i] == ToStorage(parsed[i].fields)
  {
    if !WanShowable(originals) then None
    else match ParsedReply(content, loads)
      case None => None
      case Some(scenes) =>
        if |scenes| == WanSceneCount && AllFieldsPresent(scenes, WanFields) && WanStorable(scenes)
        then Some(WanRevision(StorageScenes(scenes), MentionsMissingMusic(request)))
        else None
  }

  /** The WAN scenes as they are shown to the model (model-facing names). */
  method WanScenesForModel(originals: seq<JValue>) returns (shown: Option<seq<Record>>)
    ensures shown.Some? <==> WanShowable(originals)
    ensures shown.Some? ==> |shown.value| == |originals|
    ensures shown.Some? ==> forall i :: 0 <= i < |originals| ==> shown.value[i] == ToModelFacing(originals[i].fields)
  {
    var acc: seq<Record> := [];
    for i := 0 to |originals|
      invariant |acc| == i
      invariant forall k :: 0 <= k < i ==> WanShowableScene(originals[k])
      invariant forall k :: 0 <= k < i ==> acc[k] == ToModelFacing(originals[k].fields)
    {
      if !WanShowableScene(originals[i]) {
        return None;
      }
      acc := acc + [ToModelFacing(originals[i].fields)];
    }
    return Some(acc);
  }

  /** The conversion of the validated reply to storage format; a scene
      that is not a dictionary has no `get` and aborts it. */
  method ToStorageScenes(scenes: seq<JValue>) returns (stored: Option<seq<Record>>)
    ensures stored.Some? <==> forall i :: 0 <= i < |scenes| ==> scenes[i].JObj?
    ensures stored.Some? ==> |stored.value| == |scenes|
    ensures stored.Some? ==> forall i :: 0 <= i < |scenes| ==> stored.value[i] == ToStorage(scenes[i].fields)
  {
    var acc: seq<Record> := [];
    for i := 0 to |scenes|
      invariant |acc| == i
      invariant forall k :: 0 <= k < i ==> scenes[k].JObj? && acc[k] == ToStorage(scenes[k].fields)
    {
      if !scenes[i].JObj? {
        return None;
      }
      acc := acc + [ToStorage(scenes[i].fields)];
    }
    return Some(acc);
  }

  /** The success log loop: each stored image prompt (the reply's
      nano_banana_prompt) is sliced and "..." appended, which raises unless
      it is a string. */
  method ImagePromptsLoggable(scenes: seq<JValue>) returns (ok: bool)
    requires forall i :: 0 <= i < |scenes| ==> scenes[i].JObj?
    ensures ok <==> WanStorable(scenes)
  {
    for i := 0 to |scenes|
      invariant forall k :: 0 <= k < i ==> Get(scenes[k].fields, "nano_banana_prompt", JStr("")).JStr?
    {
      if !Get(scenes[i].fields, "nano_banana_prompt", JStr("")).JStr? {
        return false;
      }
    }
    return true;
  }

  /** The WAN revision step by step; `content` is the model's reply. */
  method ReviseWan(request: string, originals: seq<JValue>, content: string, loads: string -> Option<JValue>)
    returns (r: Option<WanRevision>)
    ensures r == WanRevisionOf(request, originals, content, loads)
  {
    var musicRequested := MentionsMissingMusic(request);
    var shown := WanScenesForModel(originals);
    if shown.None? {
      return None;
    }
    if content == "" {
      return None;
    }
    var cleaned := Clean(content);
    if cleaned == "" {
      return None;
    }
    var parsed := loads(cleaned);
    if parsed.None? {
      return None;
    }
    var scenes := RevisionSceneList(parsed.value);
    if scenes.None? || |scenes.value| != WanSceneCount {
      return None;
    }
    var check := CheckRequiredFields(scenes.value, WanFields);
    if !check.AllPresent? {
      return None;
    }
    var stored := ToStorageScenes(scenes.value);
    if stored.None? {
      return None;
    }
    var loggable := ImagePromptsLoggable(scenes.value);
    if !loggable {
      return None;
    }
    assert StorageScenes(scenes.value) == stored.value;
    return Some(WanRevision(stored.value, musicRequested));
  }

  /** The music flag never changes the scenes: two requests give the same
      outcome apart from the flag. */
  lemma MusicFlagIndependent(request1: string, request2: string, originals: seq<JValue>, content: string, loads: string -> Option<JValue>)
    ensures WanRevisionOf(request1, originals, content, loads).Some? <==> WanRevisionOf(request2, originals, content, loads).Some?
    ensures WanRevisionOf(request1, originals, content, loads).Some? ==>
              WanRevisionOf(request1, originals, content, loads).value.scenes == WanRevisionOf(request2, originals, content, loads).value.scenes
  {
  }

  /** All or nothing: one missing key on one scene rejects the batch. */
  lemma WanRejectsMissingKey(request: string, originals: seq<JValue>, content: string, loads: string -> Option<JValue>, i: nat, j: nat)
    requires ParsedReply(content, loads).Some?
    requires i < |ParsedReply(content, loads).value| && j < |WanFields|
    requires PyIn(WanFields[j], ParsedReply(content, loads).value[i]) != Some(true)
    ensures WanRevisionOf(request, originals, content, loads).None?
  {
  }

  /** A reply with the wrong number of scenes is rejected. */
  lemma WanRejectsWrongCount(request: string, originals: seq<JValue>, content: string, loads: string -> Option<JValue>)
    requires ParsedReply(content, loads).Some? && |ParsedReply(content, loads).value| != WanSceneCount
    ensures WanRevisionOf(request, originals, content, loads).None?
  {
  }

  /** A model that hands back, under {"scenes": ...}, exactly the scenes it
      was shown reproduces the stored WAN scenes unchanged. */
  lemma UnchangedReplyKeepsScenes(request: string, originals: seq<JValue>, content: string, loads: string -> Option<JValue>)
    requires |originals| == WanSceneCount
    requires forall i :: 0 <= i < |originals| ==>
               && originals[i].JObj? && originals[i].fields.Keys == StorageKeys
               && originals[i].fields["sound_effects"] == JStr("") && originals[i].fields["music_direction"] == JStr("")
               && originals[i].fields["image_prompt"].JStr?
    requires content != "" && Clean(content) != ""
    requires loads(Clean(content)) ==
               Some(JObj(map["scenes" := JArr(seq(|originals|, i requires 0 <= i < |originals| => JObj(ToModelFacing(originals[i].fields))))]))
    ensures WanRevisionOf(request, originals, content, loads).Some?
    ensures forall i :: 0 <= i < |originals| ==>
              WanRevisionOf(request, originals, content, loads).value.scenes[i] == originals[i].fields
  {
    var shown := seq(|originals|, i requires 0 <= i < |originals| => JObj(ToModelFacing(originals[i].fields)));
    assert ParsedReply(content, loads) == Some(shown);
    forall i | 0 <= i < |shown|
      ensures ScenePasses(shown[i], WanFields)
      ensures shown[i].JObj? && Get(shown[i].fields, "nano_banana_prompt", JStr("")).JStr?
    {
      assert shown[i].fields.Keys == ModelKeys;
    }
    forall i | 0 <= i < |originals|
      ensures ToStorage(shown[i].fields) == originals[i].fields
    {
      StoredWanSceneRoundTrip(originals[i].fields);
    }
  }
}
