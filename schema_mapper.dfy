/** The two vocabularies of a WAN scene. The scenes table stores
    `image_prompt`, `visual_description` and `vioce_over` (sic); the
    language model reads and writes `nano_banana_prompt`, `wan2_5_prompt`
    and `elevenlabs_prompt`. Emotion and voice id keep their names. */
module SchemaMapper {
  import opened Json

  const DefaultEmotion: string := "neutral"
  const DefaultVoiceId: string := "Wise_Woman"

  /** The six keys of a model-facing WAN scene. */
  const ModelKeys: set<string> :=
    {"scene_number", "nano_banana_prompt", "elevenlabs_prompt", "eleven_labs_emotion", "eleven_labs_voice_id", "wan2_5_prompt"}

  /** The eight keys of a storage-format WAN scene. */
  const StorageKeys: set<string> :=
    {"scene_number", "image_prompt", "visual_description", "vioce_over",
     "eleven_labs_emotion", "eleven_labs_voice_id", "sound_effects", "music_direction"}

  /** The storage field a model-facing field is written back to. */
  function StorageName(k: string): string {
    if k == "nano_banana_prompt" then "image_prompt"
    else if k == "wan2_5_prompt" then "visual_description"
    else if k == "elevenlabs_prompt" then "vioce_over"
    else k
  }

  /** The value `scene.get(key, default)` gives for each of the six
      storage fields the model is shown. */
  function StorageDefault(k: string): JValue {
    if k == "scene_number" then JNum(1)
    else if k == "eleven_labs_emotion" then JStr(DefaultEmotion)
    else if k == "eleven_labs_voice_id" then JStr(DefaultVoiceId)
    else JStr("")
  }

  /** A stored scene as it is shown to the model (storage names mapped to
      model names, defaults filled in). */
  function ToModelFacing(scene: Record): (w: Record)
    ensures w.Keys == ModelKeys
  {
    map[
      "scene_number" := Get(scene, "scene_number", JNum(1)),
      "nano_banana_prompt" := Get(scene, "image_prompt", JStr("")),
      "elevenlabs_prompt" := Get(scene, "vioce_over", JStr("")),
      "eleven_labs_emotion" := Get(scene, "eleven_labs_emotion", JStr(DefaultEmotion)),
      "eleven_labs_voice_id" := Get(scene, "eleven_labs_voice_id", JStr(DefaultVoiceId)),
      "wan2_5_prompt" := Get(scene, "visual_description", JStr(""))
    ]
  }

  /** A model-facing scene converted back to the storage format; the WAN
      workflow has no separate sound effects or music direction. */
  function ToStorage(wan: Record): (s: Record)
    ensures s.Keys == StorageKeys
  {
    map[
      "scene_number" := Get(wan, "scene_number", JNum(1)),
      "image_prompt" := Get(wan, "nano_banana_prompt", JStr("")),
      "visual_description" := Get(wan, "wan2_5_prompt", JStr("")),
      "vioce_over" := Get(wan, "elevenlabs_prompt", JStr("")),
      "eleven_labs_emotion" := Get(wan, "eleven_labs_emotion", JStr(DefaultEmotion)),
      "eleven_labs_voice_id" := Get(wan, "eleven_labs_voice_id", JStr(DefaultVoiceId)),
      "sound_effects" := JStr(""),
      "music_direction" := JStr("")
    ]
  }

  /** Each model-facing field holds the storage field it is read from, or
      that field's default when the scene lacks it. */
  lemma ModelFacingFields(scene: Record)
    ensures forall k :: k in ModelKeys ==>
              ToModelFacing(scene)[k] == Get(scene, StorageName(k), StorageDefault(StorageName(k)))
  {
  }

  /** Each model-facing field is written back to its storage field (with
      the same default); sound effects and music direction are blank. */
  lemma StorageFields(wan: Record)
    ensures forall k :: k in ModelKeys ==>
              ToStorage(wan)[StorageName(k)] == Get(wan, k, StorageDefault(StorageName(k)))
    ensures ToStorage(wan)["sound_effects"] == JStr("") && ToStorage(wan)["music_direction"] == JStr("")
  {
  }

  /** Storage to model to storage keeps scene number, the three prompts,
      emotion and voice id (each as `get` with its default would read it)
      and blanks sound effects and music direction. */
  lemma StorageRoundTrip(scene: Record)
    ensures ToStorage(ToModelFacing(scene)).Keys == StorageKeys
    ensures forall k :: k in ModelKeys ==>
              ToStorage(ToModelFacing(scene))[StorageName(k)] == Get(scene, StorageName(k), StorageDefault(StorageName(k)))
    ensures ToStorage(ToModelFacing(scene))["sound_effects"] == JStr("")
    ensures ToStorage(ToModelFacing(scene))["music_direction"] == JStr("")
  {
    var w := ToModelFacing(scene);
    ModelFacingFields(scene);
    StorageFields(w);
    assert forall k :: k in ModelKeys ==> Get(w, k, StorageDefault(StorageName(k))) == w[k];
  }

  /** A stored WAN scene that holds exactly the eight storage keys, with
      blank sound effects and music direction, survives the round trip
      unchanged. */
  lemma StoredWanSceneRoundTrip(scene: Record)
    requires scene.Keys == StorageKeys
    requires scene["sound_effects"] == JStr("") && scene["music_direction"] == JStr("")
    ensures ToStorage(ToModelFacing(scene)) == scene
  {
    var back := ToStorage(ToModelFacing(scene));
    assert forall k :: k in StorageKeys ==> back[k] == scene[k] by {
      assert "scene_number" in ModelKeys && StorageName("scene_number") == "scene_number";
      assert "nano_banana_prompt" in ModelKeys && StorageName("nano_banana_prompt") == "image_prompt";
      assert "wan2_5_prompt" in ModelKeys && StorageName("wan2_5_prompt") == "visual_description";
      assert "elevenlabs_prompt" in ModelKeys && StorageName("elevenlabs_prompt") == "vioce_over";
      assert "eleven_labs_emotion" in ModelKeys && StorageName("eleven_labs_emotion") == "eleven_labs_emotion";
      assert "eleven_labs_voice_id" in ModelKeys && StorageName("eleven_labs_voice_id") == "eleven_labs_voice_id";
    }
  }

  /** A model reply scene that holds exactly the six model keys survives
      model to storage to model unchanged. */
  lemma ModelSceneRoundTrip(wan: Record)
    requires wan.Keys == ModelKeys
    ensures ToModelFacing(ToStorage(wan)) == wan
  {
    var back := ToModelFacing(ToStorage(wan));
    assert forall k :: k in ModelKeys ==> back[k] == wan[k] by {
      assert "scene_number" in StorageKeys && StorageName("scene_number") == "scene_number";
      assert StorageName("nano_banana_prompt") == "image_prompt";
      assert StorageName("wan2_5_prompt") == "visual_description";
      assert StorageName("elevenlabs_prompt") == "vioce_over";
    }
  }

  /** A stored classic scene as it is shown to the model in a classic
      revision: the six classic fields, each defaulting to "" except the
      scene number, which defaults to 1. */
  function ClassicForModel(scene: Record): (c: Record)
    ensures c.Keys == {"scene_number", "image_prompt", "visual_description", "vioce_over", "sound_effects", "music_direction"}
    ensures forall k :: k in c.Keys && k != "scene_number" ==> c[k] == Get(scene, k, JStr(""))
    ensures c["scene_number"] == Get(scene, "scene_number", JNum(1))
  {
    map[
      "scene_number" := Get(scene, "scene_number", JNum(1)),
      "image_prompt" := Get(scene, "image_prompt", JStr("")),
      "visual_description" := Get(scene, "visual_description", JStr("")),
      "vioce_over" := Get(scene, "vioce_over", JStr("")),
      "sound_effects" := Get(scene, "sound_effects", JStr("")),
      "music_direction" := Get(scene, "music_direction", JStr(""))
    ]
  }

  /** A classic scene already holding its six fields is shown as it is. */
  lemma ClassicForModelKeeps(scene: Record)
    requires scene.Keys == {"scene_number", "image_prompt", "visual_description", "vioce_over", "sound_effects", "music_direction"}
    ensures ClassicForModel(scene) == scene
  {
    assert forall k :: k in scene.Keys ==> ClassicForModel(scene)[k] == scene[k];
  }
}
