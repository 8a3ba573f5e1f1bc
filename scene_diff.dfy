/** Selective regeneration after a revision: the original and the revised
    scene lists are compared scene number by scene number, and for each
    scene present in both the comparison says whether its image, its
    voice-over and its video clip must be produced again. Assets that are
    kept are carried forward by their original URLs. */
module SceneDiff {
  import opened Common
  import opened Json
  import opened Strings

  /** A dictionary key built from a `scene_number` value. Python's `True`
      and `False` hash as 1 and 0; lists and dictionaries cannot be keys. */
  datatype Key = KNone | KInt(i: int) | KStr(s: string)

  function KeyOf(v: JValue): (k: Option<Key>)
    ensures k.None? <==> (v.JArr? || v.JObj?)
  {
    match v
    case JNull => Some(KNone)
    case JBool(b) => Some(KInt(if b then 1 else 0))
    case JNum(n) => Some(KInt(n))
    case JStr(s) => Some(KStr(s))
    case _ => None
  }

  /** The key of the scene at (0-based) position `i`: its `scene_number`,
      or `i + 1` when it has none. */
  function KeyAt(scenes: seq<JValue>, i: nat): Option<Key>
    requires i < |scenes| && scenes[i].JObj?
  {
    KeyOf(Get(scenes[i].fields, "scene_number", JNum(i + 1)))
  }

  /** Every scene is a dictionary with a usable key: the lookup map can
      be built. */
  predicate Keyable(scenes: seq<JValue>, n: nat)
    requires n <= |scenes|
  {
    forall i :: 0 <= i < n ==> scenes[i].JObj? && KeyAt(scenes, i).Some?
  }

  /** `{scene.get("scene_number", i+1): scene for i, scene in
      enumerate(scenes[:n])}`: a non-dictionary scene or an unhashable key
      raises; the keys are exactly the scenes' keys. */
  function SceneMap(scenes: seq<JValue>, n: nat): (r: Option<map<Key, Record>>)
    requires n <= |scenes|
    ensures r.Some? <==> Keyable(scenes, n)
    ensures r.Some? ==> forall i :: 0 <= i < n ==> KeyAt(scenes, i).value in r.value
  {
    if n == 0 then Some(map[])
    else match SceneMap(scenes, n - 1)
      case None => None
      case Some(m) =>
        if scenes[n - 1].JObj? && KeyAt(scenes, n - 1).Some? then
          Some(m[KeyAt(scenes, n - 1).value := scenes[n - 1].fields])
        else None
  }

  /** Later scenes overwrite earlier ones: a key maps to the last scene
      that carries it. */
  lemma {:induction false} SceneMapLastWins(scenes: seq<JValue>, n: nat, i: nat)
    requires n <= |scenes| && Keyable(scenes, n) && i < n
    requires forall j :: i < j < n ==> KeyAt(scenes, j) != KeyAt(scenes, i)
    ensures SceneMap(scenes, n).value[KeyAt(scenes, i).value] == scenes[i].fields
  {
    var m := SceneMap(scenes, n - 1).value;
    assert SceneMap(scenes, n).value == m[KeyAt(scenes, n - 1).value := scenes[n - 1].fields];
    if i < n - 1 {
      SceneMapLastWins(scenes, n - 1, i);
      assert KeyAt(scenes, n - 1).value != KeyAt(scenes, i).value;
    }
  }

  /** When the scenes carry the numbers 1, 2, ... in order, scene number
      `i + 1` maps to the scene at position `i`. */
  lemma NumberedSceneMap(scenes: seq<JValue>, i: nat)
    requires Keyable(scenes, |scenes|)
    requires forall j :: 0 <= j < |scenes| ==> KeyAt(scenes, j) == Some(KInt(j + 1))
    requires i < |scenes|
    ensures KInt(i + 1) in SceneMap(scenes, |scenes|).value
    ensures SceneMap(scenes, |scenes|).value[KInt(i + 1)] == scenes[i].fields
  {
    SceneMapLastWins(scenes, |scenes|, i);
  }

  /** One scene's comparison record. */
  datatype SceneChange = SceneChange(
    sceneNumber: nat,
    imageNeedsRegen: bool,
    voiceoverNeedsRegen: bool,
    videoNeedsRegen: bool,
    originalImageUrl: JValue,
    originalVoiceoverUrl: JValue,
    originalVideoUrl: JValue,
    revisedImagePrompt: string,
    revisedVoiceoverPrompt: string,
    revisedEmotion: string,
    revisedVoiceId: string,
    revisedVideoPrompt: string)

  /** `scene.get(key, default).strip()`, None when the value is not a string. */
  function Text(scene: Record, key: string, default: string): Option<string> {
    StripValue(Get(scene, key, JStr(default)))
  }

  /** The five text fields of a scene that the comparison reads can all be
      stripped. */
  predicate Comparable(scene: Record) {
    && Text(scene, "image_prompt", "").Some?
    && Text(scene, "vioce_over", "").Some?
    && Text(scene, "eleven_labs_emotion", "neutral").Some?
    && Text(scene, "eleven_labs_voice_id", "Wise_Woman").Some?
    && Text(scene, "visual_description", "").Some?
  }

  /** Whether the image, the voice-over and the video of a scene must be
      produced again, as the service decides it from the stripped texts. */
  predicate ImageChanged(o: Record, r: Record) {
    Text(o, "image_prompt", "") != Text(r, "image_prompt", "")
  }

  predicate VoiceoverChanged(o: Record, r: Record) {
    || Text(o, "vioce_over", "") != Text(r, "vioce_over", "")
    || Text(o, "eleven_labs_emotion", "neutral") != Text(r, "eleven_labs_emotion", "neutral")
    || Text(o, "eleven_labs_voice_id", "Wise_Woman") != Text(r, "eleven_labs_voice_id", "Wise_Woman")
  }

  predicate VideoChanged(o: Record, r: Record) {
    Text(o, "visual_description", "") != Text(r, "visual_description", "") || ImageChanged(o, r)
  }

  /** The comparison of one scene present in both lists: None when one of
      the ten texts it strips is not a string. */
  function DiffScene(o: Record, r: Record, n: nat): (c: Option<SceneChange>)
    ensures c.Some? <==> Comparable(o) && Comparable(r)
    ensures c.Some? ==> c.value.sceneNumber == n
    ensures c.Some? ==> c.value.imageNeedsRegen ==> c.value.videoNeedsRegen
  {
    if !(Comparable(o) && Comparable(r)) then None
    else
      Some(SceneChange(n, ImageChanged(o, r), VoiceoverChanged(o, r), VideoChanged(o, r),
        Get(o, "image_url", JStr("")), Get(o, "voiceover_url", JStr("")), Get(o, "scene_clip_url", JStr("")),
        Text(r, "image_prompt", "").value, Text(r, "vioce_over", "").value,
        Text(r, "eleven_labs_emotion", "neutral").value, Text(r, "eleven_labs_voice_id", "Wise_Woman").value,
        Text(r, "visual_description", "").value))
  }

  /** Changing only the emotion regenerates the voice-over and nothing
      else, and the revised emotion is carried stripped. */
  lemma EmotionOnlyChange(o: Record, emotion: string, n: nat)
    requires Comparable(o)
    requires Strip(emotion) != Text(o, "eleven_labs_emotion", "neutral").value
    ensures DiffScene(o, o["eleven_labs_emotion" := JStr(emotion)], n).Some?
    ensures var c := DiffScene(o, o["eleven_labs_emotion" := JStr(emotion)], n).value;
            c.voiceoverNeedsRegen && !c.imageNeedsRegen && !c.videoNeedsRegen && c.revisedEmotion == Strip(emotion)
  {
    var r := o["eleven_labs_emotion" := JStr(emotion)];
    assert Text(r, "image_prompt", "") == Text(o, "image_prompt", "");
    assert Text(r, "vioce_over", "") == Text(o, "vioce_over", "");
    assert Text(r, "eleven_labs_voice_id", "Wise_Woman") == Text(o, "eleven_labs_voice_id", "Wise_Woman");
    assert Text(r, "visual_description", "") == Text(o, "visual_description", "");
    assert Text(r, "eleven_labs_emotion", "neutral") == Some(Strip(emotion));
  }

  /** Changing only the whitespace around one text regenerates nothing. */
  lemma WhitespaceOnlyChange(o: Record, key: string, pre: string, text: string, post: string, n: nat)
    requires forall i :: 0 <= i < |pre| ==> IsSpace(pre[i])
    requires forall i :: 0 <= i < |post| ==> IsSpace(post[i])
    requires Comparable(o) && key in o && o[key] == JStr(text)
    ensures DiffScene(o, o[key := JStr(pre + text + post)], n).Some?
    ensures var c := DiffScene(o, o[key := JStr(pre + text + post)], n).value;
            !c.voiceoverNeedsRegen && !c.imageNeedsRegen && !c.videoNeedsRegen
  {
    var r := o[key := JStr(pre + text + post)];
    PaddedText(o, key, pre, text, post, "image_prompt", "");
    PaddedText(o, key, pre, text, post, "vioce_over", "");
    PaddedText(o, key, pre, text, post, "eleven_labs_emotion", "neutral");
    PaddedText(o, key, pre, text, post, "eleven_labs_voice_id", "Wise_Woman");
    PaddedText(o, key, pre, text, post, "visual_description", "");
  }

  lemma PaddedText(o: Record, key: string, pre: string, text: string, post: string, k: string, d: string)
    requires forall i :: 0 <= i < |pre| ==> IsSpace(pre[i])
    requires forall i :: 0 <= i < |post| ==> IsSpace(post[i])
    requires key in o && o[key] == JStr(text)
    ensures Text(o[key := JStr(pre + text + post)], k, d) == Text(o, k, d)
  {
    if k == key {
      StripPadded(pre, text, post);
    }
  }

  /** Comparing a scene with itself asks for no regeneration at all. */
  lemma DiffSceneWithItself(o: Record, n: nat)
    requires Comparable(o)
    ensures DiffScene(o, o, n).Some?
    ensures var c := DiffScene(o, o, n).value;
            !c.imageNeedsRegen && !c.voiceoverNeedsRegen && !c.videoNeedsRegen
  {
  }

  /** A scene number is compared only when both lists have a non-empty
      scene under it. */
  predicate Paired(om: map<Key, Record>, rm: map<Key, Record>, n: nat) {
    KInt(n) in om && KInt(n) in rm && om[KInt(n)] != map[] && rm[KInt(n)] != map[]
  }

  /** The record at position `i` is the comparison of its own scene. */
  predicate DiffOfOwnScene(om: map<Key, Record>, rm: map<Key, Record>, c: SceneChange) {
    Paired(om, rm, c.sceneNumber) && DiffScene(om[KInt(c.sceneNumber)], rm[KInt(c.sceneNumber)], c.sceneNumber) == Some(c)
  }

  /** The loop over scene numbers 1..k: numbers without a non-empty scene
      on both sides are skipped; a text that cannot be stripped aborts the
      whole comparison. */
  function ChangesUpTo(om: map<Key, Record>, rm: map<Key, Record>, k: nat): (r: Option<seq<SceneChange>>)
    ensures r.Some? ==> |r.value| <= k
    ensures r.Some? ==> forall i :: 0 <= i < |r.value| ==>
              1 <= r.value[i].sceneNumber <= k && Paired(om, rm, r.value[i].sceneNumber)
  {
    if k == 0 then Some([])
    else
      match ChangesUpTo(om, rm, k - 1)
      case None => None
      case Some(prev) =>
        if !Paired(om, rm, k) then Some(prev)
        else match DiffScene(om[KInt(k)], rm[KInt(k)], k)
          case None => None
          case Some(c) => Some(prev + [c])
  }

  /** One step of the loop: the records for 1..k are those for 1..k-1,
      followed by the record for k when that number is paired. */
  lemma ChangesStep(om: map<Key, Record>, rm: map<Key, Record>, k: nat)
    requires k > 0 && ChangesUpTo(om, rm, k).Some?
    ensures ChangesUpTo(om, rm, k - 1).Some?
    ensures !Paired(om, rm, k) ==> ChangesUpTo(om, rm, k) == ChangesUpTo(om, rm, k - 1)
    ensures Paired(om, rm, k) ==>
              && DiffScene(om[KInt(k)], rm[KInt(k)], k).Some?
              && ChangesUpTo(om, rm, k).value == ChangesUpTo(om, rm, k - 1).value + [DiffScene(om[KInt(k)], rm[KInt(k)], k).value]
  {
  }

  /** Every record is the comparison of the scenes under its own number. */
  lemma {:induction false} ChangesOwnScenes(om: map<Key, Record>, rm: map<Key, Record>, k: nat, i: nat)
    requires ChangesUpTo(om, rm, k).Some? && i < |ChangesUpTo(om, rm, k).value|
    ensures DiffOfOwnScene(om, rm, ChangesUpTo(om, rm, k).value[i])
  {
    ChangesStep(om, rm, k);
    var prev := ChangesUpTo(om, rm, k - 1).value;
    if i < |prev| {
      ChangesOwnScenes(om, rm, k - 1, i);
      assert ChangesUpTo(om, rm, k).value[i] == prev[i];
    }
  }

  /** The records come in strictly increasing scene-number order. */
  lemma {:induction false} ChangesAscending(om: map<Key, Record>, rm: map<Key, Record>, k: nat)
    requires ChangesUpTo(om, rm, k).Some?
    ensures var r := ChangesUpTo(om, rm, k).value;
            forall i, j :: 0 <= i < j < |r| ==> r[i].sceneNumber < r[j].sceneNumber
  {
    if k > 0 {
      ChangesStep(om, rm, k);
      ChangesAscending(om, rm, k - 1);
      var prev := ChangesUpTo(om, rm, k - 1).value;
      var r := ChangesUpTo(om, rm, k).value;
      assert forall i :: 0 <= i < |prev| ==> r[i] == prev[i];
    }
  }

  /** No scene present on both sides is skipped: each gets a record. */
  lemma {:induction false} ChangesComplete(om: map<Key, Record>, rm: map<Key, Record>, k: nat, n: nat)
    requires ChangesUpTo(om, rm, k).Some?
    requires 1 <= n <= k && Paired(om, rm, n)
    ensures exists i :: 0 <= i < |ChangesUpTo(om, rm, k).value| && ChangesUpTo(om, rm, k).value[i].sceneNumber == n
  {
    var r := ChangesUpTo(om, rm, k).value;
    assert ChangesUpTo(om, rm, k - 1).Some?;
    var prev := ChangesUpTo(om, rm, k - 1).value;
    if n == k {
      var c := DiffScene(om[KInt(k)], rm[KInt(k)], k);
      assert r == prev + [c.value];
      assert r[|prev|] == c.value;
    } else {
      ChangesComplete(om, rm, k - 1, n);
      var i :| 0 <= i < |prev| && prev[i].sceneNumber == n;
      if Paired(om, rm, k) {
        var c := DiffScene(om[KInt(k)], rm[KInt(k)], k);
        assert r == prev + [c.value];
      }
      assert r[i] == prev[i];
    }
  }

  /** Once one scene fails, the comparison of every longer range fails. */
  lemma {:induction false} FailureIsFinal(om: map<Key, Record>, rm: map<Key, Record>, n: nat, k: nat)
    requires 1 <= n <= k
    requires Paired(om, rm, n) && DiffScene(om[KInt(n)], rm[KInt(n)], n).None?
    ensures ChangesUpTo(om, rm, k).None?
  {
    if n < k {
      FailureIsFinal(om, rm, n, k - 1);
    }
  }

  /** `compare_scenes_for_changes` on values: None when it raised. */
  function Compare(originals: seq<JValue>, revised: seq<JValue>): Option<seq<SceneChange>> {
    match (SceneMap(originals, |originals|), SceneMap(revised, |revised|))
    case (Some(om), Some(rm)) => ChangesUpTo(om, rm, |revised|)
    case _ => None
  }

  /** The comparison as the service runs it: a loop over scene numbers
      that appends one change record per scene present on both sides and
      returns [] as soon as a text cannot be stripped. */
  method CompareScenesForChanges(originals: seq<JValue>, revised: seq<JValue>) returns (changes: seq<SceneChange>)
    ensures changes == Compare(originals, revised).GetOr([])
    ensures |changes| <= |revised|
    ensures forall i :: 0 <= i < |changes| ==> 1 <= changes[i].sceneNumber <= |revised|
    ensures forall i, j :: 0 <= i < j < |changes| ==> changes[i].sceneNumber < changes[j].sceneNumber
  {
    var om := SceneMap(originals, |originals|);
    var rm := SceneMap(revised, |revised|);
    if om.None? || rm.None? {
      return [];
    }
    changes := CompareNumbers(om.value, rm.value, |revised|);
    if changes != [] {
      ChangesAscending(om.value, rm.value, |revised|);
    }
  }

  /** The loop over scene numbers 1..count. */
  method CompareNumbers(om: map<Key, Record>, rm: map<Key, Record>, count: nat) returns (changes: seq<SceneChange>)
    ensures changes == ChangesUpTo(om, rm, count).GetOr([])
  {
    changes := [];
    var n := 1;
    while n <= count
      invariant 1 <= n <= count + 1
      invariant ChangesUpTo(om, rm, n - 1) == Some(changes)
    {
      var o := if KInt(n) in om then om[KInt(n)] else map[];
      var r := if KInt(n) in rm then rm[KInt(n)] else map[];
      if o != map[] && r != map[] {
        var c := DiffScene(o, r, n);
        if c.None? {
          FailureIsFinal(om, rm, n, count);
          return [];
        }
        changes := changes + [c.value];
      }
      n := n + 1;
    }
  }

  /** Comparing a scene list with itself asks for no regeneration at all,
      and every record carries its scene's own URLs. */
  lemma CompareWithItself(scenes: seq<JValue>)
    requires Compare(scenes, scenes).Some?
    ensures forall c :: c in Compare(scenes, scenes).value ==>
              !c.imageNeedsRegen && !c.voiceoverNeedsRegen && !c.videoNeedsRegen
    ensures forall c :: c in Compare(scenes, scenes).value ==>
              var s := SceneMap(scenes, |scenes|).value[KInt(c.sceneNumber)];
              && c.originalImageUrl == Get(s, "image_url", JStr(""))
              && c.originalVoiceoverUrl == Get(s, "voiceover_url", JStr(""))
              && c.originalVideoUrl == Get(s, "scene_clip_url", JStr(""))
  {
    var m := SceneMap(scenes, |scenes|).value;
    var cs := Compare(scenes, scenes).value;
    assert cs == ChangesUpTo(m, m, |scenes|).value;
    forall c | c in cs
      ensures !c.imageNeedsRegen && !c.voiceoverNeedsRegen && !c.videoNeedsRegen
      ensures var s := m[KInt(c.sceneNumber)];
              && c.originalImageUrl == Get(s, "image_url", JStr(""))
              && c.originalVoiceoverUrl == Get(s, "voiceover_url", JStr(""))
              && c.originalVideoUrl == Get(s, "scene_clip_url", JStr(""))
    {
      var i :| 0 <= i < |cs| && cs[i] == c;
      ChangesOwnScenes(m, m, |scenes|, i);
      DiffSceneWithItself(m[KInt(c.sceneNumber)], c.sceneNumber);
    }
  }

  /** Every record carries the URLs of the original scene under its number
      and the stripped texts of the revised one. */
  lemma CompareCarriesAssets(originals: seq<JValue>, revised: seq<JValue>, i: nat)
    requires Compare(originals, revised).Some?
    requires i < |Compare(originals, revised).value|
    ensures var c := Compare(originals, revised).value[i];
            var o := SceneMap(originals, |originals|).value[KInt(c.sceneNumber)];
            var r := SceneMap(revised, |revised|).value[KInt(c.sceneNumber)];
            && c.originalImageUrl == Get(o, "image_url", JStr(""))
            && c.originalVoiceoverUrl == Get(o, "voiceover_url", JStr(""))
            && c.originalVideoUrl == Get(o, "scene_clip_url", JStr(""))
            && Some(c.revisedImagePrompt) == Text(r, "image_prompt", "")
            && Some(c.revisedVoiceoverPrompt) == Text(r, "vioce_over", "")
            && Some(c.revisedVideoPrompt) == Text(r, "visual_description", "")
            && (c.imageNeedsRegen ==> c.videoNeedsRegen)
  {
    var om := SceneMap(originals, |originals|).value;
    var rm := SceneMap(revised, |revised|).value;
    ChangesOwnScenes(om, rm, |revised|, i);
  }

  /** A scene number present in both lists with non-empty scenes gets its
      record. */
  lemma CompareSkipsOnlyUnpaired(originals: seq<JValue>, revised: seq<JValue>, n: nat)
    requires Compare(originals, revised).Some?
    requires 1 <= n <= |revised|
    requires Paired(SceneMap(originals, |originals|).value, SceneMap(revised, |revised|).value, n)
    ensures exists i :: 0 <= i < |Compare(originals, revised).value| && Compare(originals, revised).value[i].sceneNumber == n
  {
    ChangesComplete(SceneMap(originals, |originals|).value, SceneMap(revised, |revised|).value, |revised|, n);
  }

  /** A scene that is not a dictionary makes the whole comparison fail,
      so the service returns []. */
  lemma NonObjectSceneFails(originals: seq<JValue>, revised: seq<JValue>, i: nat)
    requires (i < |originals| && !originals[i].JObj?) || (i < |revised| && !revised[i].JObj?)
    ensures Compare(originals, revised).None?
  {
  }
}
