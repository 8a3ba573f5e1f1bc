/** The scenes table and the music table the pipeline writes: building the
    stored rows (with their length limits), inserting them, writing asset
    URLs back row by row, reading the workflow type off the row count,
    applying a revision, and storing background music. The tables are held
    in memory; a row's index is its id. */
module SceneDatabase {
  import opened Common
  import opened Json
  import opened Strings

  const DefaultEmotion: string := "neutral"
  const DefaultVoiceId: string := "Wise_Woman"

  /** Column length limits. */
  const ImagePromptLimit: nat := 2000
  const TextLimit: nat := 1000
  const AudioNoteLimit: nat := 500

  /** Whether a value the tables hold is a string or list of at most n
      elements. */
  predicate Bounded(v: JValue, n: nat) {
    (v.JStr? && |v.s| <= n) || (v.JArr? && |v.items| <= n)
  }

  /** `v` is `w` or a leading part of it. */
  predicate PrefixOf(v: JValue, w: JValue) {
    || (v.JStr? && w.JStr? && |v.s| <= |w.s| && v.s == w.s[..|v.s|])
    || (v.JArr? && w.JArr? && |v.items| <= |w.items| && v.items == w.items[..|v.items|])
  }

  /** `v[:n]`: a string or list is cut to at most n elements; slicing any
      other value raises (None). */
  function Truncated(v: JValue, n: nat): (r: Option<JValue>)
    ensures r.Some? <==> Sliceable(v)
    ensures r.Some? ==> Bounded(r.value, n) && PrefixOf(r.value, v)
    ensures r.Some? && Bounded(v, n) ==> r.value == v
  {
    match v
    case JStr(s) => Some(JStr(Take(s, n)))
    case JArr(xs) => Some(JArr(Take(xs, n)))
    case _ => None
  }

  /** A row of the scenes table. Columns an insert does not set hold None;
      the row's id is its index in the table. */
  datatype SceneRow = SceneRow(
    userId: string, videoId: string, sceneNumber: JValue,
    imagePrompt: JValue, visualDescription: JValue, vioceOver: JValue,
    soundEffects: JValue, musicDirection: JValue,
    emotion: Option<JValue>, voiceId: Option<JValue>,
    imageUrl: Option<string>, voiceoverUrl: Option<string>, sceneClipUrl: Option<string>,
    updatedAt: Option<string>)

  /** The limits the row builders keep on the text columns. */
  predicate RowShape(row: SceneRow) {
    && Bounded(row.imagePrompt, ImagePromptLimit)
    && Bounded(row.visualDescription, TextLimit)
    && Bounded(row.vioceOver, TextLimit)
    && Bounded(row.soundEffects, AudioNoteLimit)
    && Bounded(row.musicDirection, AudioNoteLimit)
  }

  /** The row a generated classic scene is stored as: the text fields cut
      to their limits, the scene number defaulting to 1, and no asset URLs
      yet. A field that cannot be sliced makes the whole store fail. */
  function ClassicRow(scene: Record, videoId: string, userId: string): (r: Option<SceneRow>)
    ensures r.Some? <==>
              && Sliceable(Get(scene, "image_prompt", JStr("")))
              && Sliceable(Get(scene, "visual_description", JStr("")))
              && Sliceable(Get(scene, "vioce_over", JStr("")))
              && Sliceable(Get(scene, "sound_effects", JStr("")))
              && Sliceable(Get(scene, "music_direction", JStr("")))
    ensures r.Some? ==> RowShape(r.value)
    ensures r.Some? ==>
              && r.value.userId == userId && r.value.videoId == videoId
              && r.value.sceneNumber == Get(scene, "scene_number", JNum(1))
              && PrefixOf(r.value.imagePrompt, Get(scene, "image_prompt", JStr("")))
              && PrefixOf(r.value.visualDescription, Get(scene, "visual_description", JStr("")))
              && PrefixOf(r.value.vioceOver, Get(scene, "vioce_over", JStr("")))
              && PrefixOf(r.value.soundEffects, Get(scene, "sound_effects", JStr("")))
              && PrefixOf(r.value.musicDirection, Get(scene, "music_direction", JStr("")))
              && r.value.imageUrl.None? && r.value.voiceoverUrl.None? && r.value.sceneClipUrl.None?
  {
    var img := Truncated(Get(scene, "image_prompt", JStr("")), ImagePromptLimit);
    var vis := Truncated(Get(scene, "visual_description", JStr("")), TextLimit);
    var vo := Truncated(Get(scene, "vioce_over", JStr("")), TextLimit);
    var sfx := Truncated(Get(scene, "sound_effects", JStr("")), AudioNoteLimit);
    var mus := Truncated(Get(scene, "music_direction", JStr("")), AudioNoteLimit);
    if img.None? || vis.None? || vo.None? || sfx.None? || mus.None? then None
    else Some(SceneRow(userId, videoId, Get(scene, "scene_number", JNum(1)),
                       img.value, vis.value, vo.value, sfx.value, mus.value,
                       None, None, None, None, None, None))
  }

  /** The row a generated WAN scene is stored as: the model-facing prompts
      renamed to the storage columns and cut to their limits, emotion and
      voice defaulted, no per-scene sound or music direction, and no asset
      URLs yet. */
  function WanRow(scene: Record, videoId: string, userId: string): (r: Option<SceneRow>)
    ensures r.Some? <==>
              && Sliceable(Get(scene, "nano_banana_prompt", JStr("")))
              && Sliceable(Get(scene, "wan2_5_prompt", JStr("")))
              && Sliceable(Get(scene, "elevenlabs_prompt", JStr("")))
    ensures r.Some? ==> RowShape(r.value)
    ensures r.Some? ==>
              && r.value.userId == userId && r.value.videoId == videoId
              && r.value.sceneNumber == Get(scene, "scene_number", JNum(1))
              && PrefixOf(r.value.imagePrompt, Get(scene, "nano_banana_prompt", JStr("")))
              && PrefixOf(r.value.visualDescription, Get(scene, "wan2_5_prompt", JStr("")))
              && PrefixOf(r.value.vioceOver, Get(scene, "elevenlabs_prompt", JStr("")))
              && r.value.emotion == Some(Get(scene, "eleven_labs_emotion", JStr(DefaultEmotion)))
              && r.value.voiceId == Some(Get(scene, "eleven_labs_voice_id", JStr(DefaultVoiceId)))
              && r.value.soundEffects == JStr("") && r.value.musicDirection == JStr("")
              && r.value.imageUrl.None? && r.value.voiceoverUrl.None? && r.value.sceneClipUrl.None?
  {
    var img := Truncated(Get(scene, "nano_banana_prompt", JStr("")), ImagePromptLimit);
    var vis := Truncated(Get(scene, "wan2_5_prompt", JStr("")), TextLimit);
    var vo := Truncated(Get(scene, "elevenlabs_prompt", JStr("")), TextLimit);
    if img.None? || vis.None? || vo.None? then None
    else Some(SceneRow(userId, videoId, Get(scene, "scene_number", JNum(1)),
                       img.value, vis.value, vo.value, JStr(""), JStr(""),
                       Some(Get(scene, "eleven_labs_emotion", JStr(DefaultEmotion))),
                       Some(Get(scene, "eleven_labs_voice_id", JStr(DefaultVoiceId))),
                       None, None, None, None))
  }

  /** A generated WAN scene whose prompts fit the limits is stored with
      them unchanged. */
  lemma WanRowKeepsShortPrompts(scene: Record, videoId: string, userId: string)
    requires "nano_banana_prompt" in scene && Bounded(scene["nano_banana_prompt"], ImagePromptLimit)
    requires "wan2_5_prompt" in scene && Bounded(scene["wan2_5_prompt"], TextLimit)
    requires "elevenlabs_prompt" in scene && Bounded(scene["elevenlabs_prompt"], TextLimit)
    ensures WanRow(scene, videoId, userId).Some?
    ensures var row := WanRow(scene, videoId, userId).value;
            && row.imagePrompt == scene["nano_banana_prompt"]
            && row.visualDescription == scene["wan2_5_prompt"]
            && row.vioceOver == scene["elevenlabs_prompt"]
  {
  }

  /** The two generation workflows. */
  datatype Workflow = Classic | Wan

  function RowFor(w: Workflow, scene: Record, videoId: string, userId: string): (r: Option<SceneRow>)
    ensures r.Some? ==> RowShape(r.value)
  {
    match w
    case Classic => ClassicRow(scene, videoId, userId)
    case Wan => WanRow(scene, videoId, userId)
  }

  /** Every scene of the list can be turned into a row. */
  predicate Storable(w: Workflow, scenes: seq<Record>, videoId: string, userId: string) {
    forall i :: 0 <= i < |scenes| ==> RowFor(w, scenes[i], videoId, userId).Some?
  }

  /** The record-building loop of a store: one row per scene, in order, or
      None as soon as a scene raises. */
  method BuildRows(w: Workflow, scenes: seq<Record>, videoId: string, userId: string)
    returns (rows: Option<seq<SceneRow>>)
    ensures rows.Some? <==> Storable(w, scenes, videoId, userId)
    ensures rows.Some? ==> |rows.value| == |scenes|
    ensures rows.Some? ==> forall i :: 0 <= i < |scenes| ==> rows.value[i] == RowFor(w, scenes[i], videoId, userId).value
  {
    var built: seq<SceneRow> := [];
    for i := 0 to |scenes|
      invariant |built| == i
      invariant forall k :: 0 <= k < i ==> RowFor(w, scenes[k], videoId, userId).Some?
      invariant forall k :: 0 <= k < i ==> built[k] == RowFor(w, scenes[k], videoId, userId).value
    {
      var row := RowFor(w, scenes[i], videoId, userId);
      if row.None? {
        return None;
      }
      built := built + [row.value];
    }
    return Some(built);
  }

  /** Whether a scene row belongs to the given video of the given user. */
  predicate OfVideo(row: SceneRow, videoId: string, userId: string) {
    row.videoId == videoId && row.userId == userId
  }

  /** How many elements satisfy `p`. */
  function Count<T>(xs: seq<T>, p: T -> bool): (n: nat)
    ensures n <= |xs|
    ensures n == 0 <==> forall j :: 0 <= j < |xs| ==> !p(xs[j])
  {
    if xs == [] then 0 else Count(xs[..|xs| - 1], p) + (if p(xs[|xs| - 1]) then 1 else 0)
  }

  /** A query answer for a video: distinct indices of rows of that video,
      covering every such row (the database orders them by scene number). */
  predicate IsSelection(rows: seq<SceneRow>, selected: seq<nat>, videoId: string, userId: string) {
    && (forall k :: 0 <= k < |selected| ==> selected[k] < |rows| && OfVideo(rows[selected[k]], videoId, userId))
    && (forall k, l :: 0 <= k < l < |selected| ==> selected[k] != selected[l])
    && (forall j :: 0 <= j < |rows| && OfVideo(rows[j], videoId, userId) ==> j in selected)
  }

  /** The three asset-URL columns. */
  datatype Asset = Image | Voiceover | Clip

  /** One row after an asset-URL update: the column and the update time. */
  function WithUrl(row: SceneRow, asset: Asset, url: string, now: string): (r: SceneRow)
    ensures RowShape(row) ==> RowShape(r)
  {
    match asset
    case Image => row.(imageUrl := Some(url), updatedAt := Some(now))
    case Voiceover => row.(voiceoverUrl := Some(url), updatedAt := Some(now))
    case Clip => row.(sceneClipUrl := Some(url), updatedAt := Some(now))
  }

  /** The scenes table after the positional URL loop: the k-th URL, when
      non-empty, is written to the k-th selected row. */
  function UrlsApplied(rows: seq<SceneRow>, selected: seq<nat>, urls: seq<string>, asset: Asset, now: string): (r: seq<SceneRow>)
    requires |selected| == |urls|
    requires forall k :: 0 <= k < |selected| ==> selected[k] < |rows|
    ensures |r| == |rows|
    decreases |selected|
  {
    if selected == [] then rows
    else
      var next := if urls[0] != "" then rows[selected[0] := WithUrl(rows[selected[0]], asset, urls[0], now)] else rows;
      UrlsApplied(next, selected[1..], urls[1..], asset, now)
  }

  /** What the URL loop does to each row: a selected row gets its own URL
      when that is non-empty and is otherwise untouched; rows not selected
      are untouched. */
  lemma {:induction false} UrlsAppliedAt(rows: seq<SceneRow>, selected: seq<nat>, urls: seq<string>, asset: Asset, now: string, j: nat)
    requires |selected| == |urls|
    requires forall k :: 0 <= k < |selected| ==> selected[k] < |rows|
    requires forall k, l :: 0 <= k < l < |selected| ==> selected[k] != selected[l]
    requires j < |rows|
    ensures j !in selected ==> UrlsApplied(rows, selected, urls, asset, now)[j] == rows[j]
    ensures forall k :: 0 <= k < |selected| && selected[k] == j ==>
              UrlsApplied(rows, selected, urls, asset, now)[j] ==
                (if urls[k] != "" then WithUrl(rows[j], asset, urls[k], now) else rows[j])
    decreases |selected|
  {
    if selected != [] {
      var next := if urls[0] != "" then rows[selected[0] := WithUrl(rows[selected[0]], asset, urls[0], now)] else rows;
      UrlsAppliedAt(next, selected[1..], urls[1..], asset, now, j);
      assert forall k :: 1 <= k < |selected| ==> selected[1..][k - 1] == selected[k] && urls[1..][k - 1] == urls[k];
      if j != selected[0] {
        assert next[j] == rows[j];
      } else {
        assert j !in selected[1..];
      }
    }
  }

  /** Asset-URL updates keep every row's shape. */
  lemma {:induction false} UrlsAppliedShape(rows: seq<SceneRow>, selected: seq<nat>, urls: seq<string>, asset: Asset, now: string)
    requires |selected| == |urls|
    requires forall k :: 0 <= k < |selected| ==> selected[k] < |rows|
    requires forall j :: 0 <= j < |rows| ==> RowShape(rows[j])
    ensures forall j :: 0 <= j < |rows| ==> RowShape(UrlsApplied(rows, selected, urls, asset, now)[j])
    decreases |selected|
  {
    if selected != [] {
      var next := if urls[0] != "" then rows[selected[0] := WithUrl(rows[selected[0]], asset, urls[0], now)] else rows;
      UrlsAppliedShape(next, selected[1..], urls[1..], asset, now);
    }
  }

  /** Number of non-empty URLs. */
  function NonEmpty(urls: seq<string>): (n: nat)
    ensures n <= |urls|
  {
    if urls == [] then 0 else NonEmpty(urls[..|urls| - 1]) + (if urls[|urls| - 1] != "" then 1 else 0)
  }

  lemma {:induction false} NonEmptyPositive(urls: seq<string>)
    ensures NonEmpty(urls) > 0 <==> exists k :: 0 <= k < |urls| && urls[k] != ""
  {
    if urls != [] {
      var init := urls[..|urls| - 1];
      NonEmptyPositive(init);
      assert forall k :: 0 <= k < |init| ==> init[k] == urls[k];
    }
  }

  /** The columns a revision writes back for one scene. */
  datatype RevisionFields = RevisionFields(
    imagePrompt: JValue, visualDescription: JValue, vioceOver: JValue,
    emotion: JValue, voiceId: JValue, musicDirection: JValue, updatedAt: string)

  /** The part of a revised scene the revision writes back: prompts cut to
      their limits, emotion and voice defaulted. A field that cannot be
      sliced raises (None). */
  function RevisionUpdate(scene: Record, now: string): (r: Option<RevisionFields>)
    ensures r.Some? <==>
              && Sliceable(Get(scene, "image_prompt", JStr("")))
              && Sliceable(Get(scene, "visual_description", JStr("")))
              && Sliceable(Get(scene, "vioce_over", JStr("")))
              && Sliceable(Get(scene, "music_direction", JStr("")))
    ensures r.Some? ==>
              && Bounded(r.value.imagePrompt, ImagePromptLimit)
              && Bounded(r.value.visualDescription, TextLimit)
              && Bounded(r.value.vioceOver, TextLimit)
              && Bounded(r.value.musicDirection, AudioNoteLimit)
              && PrefixOf(r.value.imagePrompt, Get(scene, "image_prompt", JStr("")))
              && PrefixOf(r.value.visualDescription, Get(scene, "visual_description", JStr("")))
              && PrefixOf(r.value.vioceOver, Get(scene, "vioce_over", JStr("")))
              && PrefixOf(r.value.musicDirection, Get(scene, "music_direction", JStr("")))
              && r.value.emotion == Get(scene, "eleven_labs_emotion", JStr(DefaultEmotion))
              && r.value.voiceId == Get(scene, "eleven_labs_voice_id", JStr(DefaultVoiceId))
  {
    var img := Truncated(Get(scene, "image_prompt", JStr("")), ImagePromptLimit);
    var vis := Truncated(Get(scene, "visual_description", JStr("")), TextLimit);
    var vo := Truncated(Get(scene, "vioce_over", JStr("")), TextLimit);
    var mus := Truncated(Get(scene, "music_direction", JStr("")), AudioNoteLimit);
    if img.None? || vis.None? || vo.None? || mus.None? then None
    else Some(RevisionFields(img.value, vis.value, vo.value,
                             Get(scene, "eleven_labs_emotion", JStr(DefaultEmotion)),
                             Get(scene, "eleven_labs_voice_id", JStr(DefaultVoiceId)),
                             mus.value, now))
  }

  /** A row after a revision is written to it: the revised texts replace
      the old ones, sound effects are cleared, and the row keeps its owner,
      its video, its scene number and its asset URLs. */
  function ApplyRevision(row: SceneRow, u: RevisionFields): (r: SceneRow)
    ensures r.soundEffects == JStr("")
    ensures r.imagePrompt == u.imagePrompt && r.visualDescription == u.visualDescription && r.vioceOver == u.vioceOver
    ensures r.emotion == Some(u.emotion) && r.voiceId == Some(u.voiceId) && r.musicDirection == u.musicDirection
    ensures r.updatedAt == Some(u.updatedAt)
    ensures r.userId == row.userId && r.videoId == row.videoId && r.sceneNumber == row.sceneNumber
    ensures r.imageUrl == row.imageUrl && r.voiceoverUrl == row.voiceoverUrl && r.sceneClipUrl == row.sceneClipUrl
  {
    row.(imagePrompt := u.imagePrompt, visualDescription := u.visualDescription, vioceOver := u.vioceOver,
         emotion := Some(u.emotion), voiceId := Some(u.voiceId), soundEffects := JStr(""),
         musicDirection := u.musicDirection, updatedAt := Some(u.updatedAt))
  }

  /** Whether a row is the given scene of the given video. */
  predicate IsScene(row: SceneRow, videoId: string, userId: string, number: JValue) {
    OfVideo(row, videoId, userId) && row.sceneNumber == number
  }

  /** The table after one revised scene is written to every row with its
      scene number. */
  function Revised(rows: seq<SceneRow>, videoId: string, userId: string, number: JValue, u: RevisionFields): (r: seq<SceneRow>)
    ensures |r| == |rows|
  {
    seq(|rows|, j requires 0 <= j < |rows| =>
      if IsScene(rows[j], videoId, userId, number) then ApplyRevision(rows[j], u) else rows[j])
  }

  /** Whether some row is the given scene. */
  predicate HasScene(rows: seq<SceneRow>, videoId: string, userId: string, number: JValue) {
    exists j :: 0 <= j < |rows| && IsScene(rows[j], videoId, userId, number)
  }

  /** The revision loop as a whole: scenes are written in order; a scene
      whose fields cannot be sliced, or that matches no row, stops the loop
      with failure, leaving the earlier scenes written. */
  function RevisionOutcome(rows: seq<SceneRow>, revised: seq<Record>, videoId: string, userId: string, now: string): (r: (bool, seq<SceneRow>))
    ensures |r.1| == |rows|
    decreases |revised|
  {
    if revised == [] then (true, rows)
    else
      var number := Get(revised[0], "scene_number", JNum(1));
      match RevisionUpdate(revised[0], now)
      case None => (false, rows)
      case Some(u) =>
        if !HasScene(rows, videoId, userId, number) then (false, rows)
        else RevisionOutcome(Revised(rows, videoId, userId, number, u), revised[1..], videoId, userId, now)
  }

  /** Writing a revision keeps every row's shape. */
  lemma {:induction false} RevisionOutcomeShape(rows: seq<SceneRow>, revised: seq<Record>, videoId: string, userId: string, now: string)
    requires forall j :: 0 <= j < |rows| ==> RowShape(rows[j])
    ensures forall j :: 0 <= j < |rows| ==> RowShape(RevisionOutcome(rows, revised, videoId, userId, now).1[j])
    decreases |revised|
  {
    if revised != [] {
      var number := Get(revised[0], "scene_number", JNum(1));
      var u := RevisionUpdate(revised[0], now);
      if u.Some? && HasScene(rows, videoId, userId, number) {
        RevisionOutcomeShape(Revised(rows, videoId, userId, number, u.value), revised[1..], videoId, userId, now);
      }
    }
  }

  /** Every row a successful revision touched has its sound effects
      cleared: a row that is one of the revised scenes ends with "" there. */
  lemma {:induction false} RevisionClearsSoundEffects(rows: seq<SceneRow>, revised: seq<Record>, videoId: string, userId: string, now: string, j: nat, i: nat)
    requires j < |rows| && i < |revised|
    requires RevisionOutcome(rows, revised, videoId, userId, now).0
    requires IsScene(rows[j], videoId, userId, Get(revised[i], "scene_number", JNum(1)))
    ensures RevisionOutcome(rows, revised, videoId, userId, now).1[j].soundEffects == JStr("")
    decreases |revised|
  {
    var number := Get(revised[0], "scene_number", JNum(1));
    var u := RevisionUpdate(revised[0], now).value;
    var next := Revised(rows, videoId, userId, number, u);
    assert IsScene(next[j], videoId, userId, Get(revised[i], "scene_number", JNum(1)));
    if i == 0 {
      SoundEffectsStayCleared(next, revised[1..], videoId, userId, now, j);
    } else {
      RevisionClearsSoundEffects(next, revised[1..], videoId, userId, now, j, i - 1);
    }
  }

  /** Once a row's sound effects are "", later revisions keep them "". */
  lemma {:induction false} SoundEffectsStayCleared(rows: seq<SceneRow>, revised: seq<Record>, videoId: string, userId: string, now: string, j: nat)
    requires j < |rows| && rows[j].soundEffects == JStr("")
    ensures RevisionOutcome(rows, revised, videoId, userId, now).1[j].soundEffects == JStr("")
    decreases |revised|
  {
    if revised != [] {
      var number := Get(revised[0], "scene_number", JNum(1));
      var u := RevisionUpdate(revised[0], now);
      if u.Some? && HasScene(rows, videoId, userId, number) {
        SoundEffectsStayCleared(Revised(rows, videoId, userId, number, u.value), revised[1..], videoId, userId, now, j);
      }
    }
  }

  /** The revision stops at its first failing scene: the table then holds
      exactly the scenes before it. */
  lemma {:induction false} RevisionStopsAtFailure(rows: seq<SceneRow>, revised: seq<Record>, videoId: string, userId: string, now: string, i: nat)
    requires i < |revised|
    requires RevisionOutcome(rows, revised[..i], videoId, userId, now).0
    requires var r := RevisionOutcome(rows, revised[..i], videoId, userId, now).1;
             || RevisionUpdate(revised[i], now).None?
             || !HasScene(r, videoId, userId, Get(revised[i], "scene_number", JNum(1)))
    ensures RevisionOutcome(rows, revised, videoId, userId, now) == (false, RevisionOutcome(rows, revised[..i], videoId, userId, now).1)
    decreases i
  {
    if i > 0 {
      var number := Get(revised[0], "scene_number", JNum(1));
      var u := RevisionUpdate(revised[0], now).value;
      var next := Revised(rows, videoId, userId, number, u);
      assert revised[..i][1..] == revised[1..][..i - 1];
      assert revised[..i][0] == revised[0];
      RevisionStopsAtFailure(next, revised[1..], videoId, userId, now, i - 1);
    }
  }

  /** A row of the music table. */
  datatype MusicRow = MusicRow(userId: string, videoId: string, musicUrl: string, createdAt: Option<string>, updatedAt: Option<string>)

  predicate MusicOfVideo(row: MusicRow, videoId: string, userId: string) {
    row.videoId == videoId && row.userId == userId
  }

  /** The placeholder music URL a WAN video carries until music exists. */
  function MusicPlaceholder(prompt: string): (url: string)
    ensures StartsWith(url, "PROMPT:") && url[7..] == prompt
  {
    StartsWithConcat("PROMPT:", prompt);
    "PROMPT:" + prompt
  }

  /** The scenes table and the music table. */
  class SceneStore {
    var scenes: seq<SceneRow>
    var music: seq<MusicRow>

    /** Every stored scene row keeps the limits the builders give it. */
    predicate Valid()
      reads this
    {
      forall j :: 0 <= j < |scenes| ==> RowShape(scenes[j])
    }

    constructor()
      ensures Valid()
      ensures scenes == [] && music == []
    {
      scenes := [];
      music := [];
    }

    /** Storing a workflow's generated scenes: nothing is written when a
        scene cannot be stored; otherwise its rows are appended. A classic
        store reports success when it wrote as many rows as scenes (so zero
        scenes fail); a WAN store only when it wrote exactly six. */
    method StoreScenes(w: Workflow, generated: seq<Record>, videoId: string, userId: string) returns (ok: bool)
      requires Valid()
      modifies this
      ensures Valid()
      ensures music == old(music)
      ensures !Storable(w, generated, videoId, userId) ==> !ok && scenes == old(scenes)
      ensures Storable(w, generated, videoId, userId) ==>
                && |scenes| == |old(scenes)| + |generated|
                && scenes[..|old(scenes)|] == old(scenes)
                && (forall i :: 0 <= i < |generated| ==>
                      scenes[|old(scenes)| + i] == RowFor(w, generated[i], videoId, userId).value)
                && ok == (if w == Classic then |generated| > 0 else |generated| == 6)
    {
      var rows := BuildRows(w, generated, videoId, userId);
      if rows.None? {
        return false;
      }
      scenes := scenes + rows.value;
      var inserted := |rows.value|;
      ok := if w == Classic then inserted > 0 && inserted == |generated| else inserted > 0 && inserted == 6;
    }

    /** Storing a WAN video's music prompt as a placeholder music row. */
    method StoreWanMusicPrompt(prompt: string, videoId: string, userId: string, now: string) returns (ok: bool)
      modifies this
      ensures ok
      ensures scenes == old(scenes)
      ensures music == old(music) + [MusicRow(userId, videoId, MusicPlaceholder(prompt), Some(now), None)]
    {
      music := music + [MusicRow(userId, videoId, MusicPlaceholder(prompt), Some(now), None)];
      ok := true;
    }

    /** The positional update loop shared by the three URL writers: the
        k-th URL, when non-empty, goes to the k-th selected row; the count
        of rows written is returned. */
    method WriteUrls(selected: seq<nat>, urls: seq<string>, asset: Asset, now: string) returns (written: nat)
      requires Valid()
      requires |selected| == |urls|
      requires forall k :: 0 <= k < |selected| ==> selected[k] < |scenes|
      modifies this
      ensures Valid()
      ensures music == old(music)
      ensures scenes == UrlsApplied(old(scenes), selected, urls, asset, now)
      ensures written == NonEmpty(urls)
    {
      written := 0;
      var i := 0;
      while i < |selected|
        invariant 0 <= i <= |selected|
        invariant |scenes| == |old(scenes)| && music == old(music)
        invariant UrlsApplied(old(scenes), selected, urls, asset, now) == UrlsApplied(scenes, selected[i..], urls[i..], asset, now)
        invariant written == NonEmpty(urls[..i])
      {
        assert urls[..i + 1][..i] == urls[..i];
        if urls[i] != "" {
          scenes := scenes[selected[i] := WithUrl(scenes[selected[i]], asset, urls[i], now)];
          written := written + 1;
        }
        assert selected[i..][1..] == selected[i + 1..] && urls[i..][1..] == urls[i + 1..];
        i := i + 1;
      }
      assert urls[..i] == urls;
      UrlsAppliedShape(old(scenes), selected, urls, asset, now);
    }

    /** Writing generated scene images (or voice-overs) back to the video's
        rows: nothing happens unless the video has as many rows as there
        are URLs, at least one; then every non-empty URL is written to the
        row at its position. Success is reported whatever the individual
        URLs were. */
    method UpdateUrls(asset: Asset, urls: seq<string>, videoId: string, userId: string, selected: seq<nat>, now: string)
      returns (ok: bool)
      requires Valid() && asset != Clip
      requires IsSelection(scenes, selected, videoId, userId)
      modifies this
      ensures Valid()
      ensures music == old(music)
      ensures ok <==> |selected| > 0 && |selected| == |urls|
      ensures !ok ==> scenes == old(scenes)
      ensures ok ==> scenes == UrlsApplied(old(scenes), selected, urls, asset, now)
    {
      if |selected| == 0 || |selected| != |urls| {
        return false;
      }
      var _ := WriteUrls(selected, urls, asset, now);
      ok := true;
    }

    /** Writing generated clips back: as for images, but success means at
        least one row was written, so a list of empty URLs fails. */
    method UpdateVideoUrls(urls: seq<string>, videoId: string, userId: string, selected: seq<nat>, now: string)
      returns (ok: bool)
      requires Valid()
      requires IsSelection(scenes, selected, videoId, userId)
      modifies this
      ensures Valid()
      ensures music == old(music)
      ensures ok <==> |selected| > 0 && |selected| == |urls| && exists k :: 0 <= k < |urls| && urls[k] != ""
      ensures |selected| == 0 || |selected| != |urls| ==> scenes == old(scenes)
      ensures |selected| > 0 && |selected| == |urls| ==> scenes == UrlsApplied(old(scenes), selected, urls, Clip, now)
    {
      if |selected| == 0 || |selected| != |urls| {
        return false;
      }
      var written := WriteUrls(selected, urls, Clip, now);
      NonEmptyPositive(urls);
      ok := written > 0;
    }

    /** The workflow a stored video uses, read off its row count: six rows
        mean WAN; five, any other count, or none mean regular. */
    function WorkflowType(videoId: string, userId: string): (t: string)
      reads this
      ensures t == "wan" || t == "regular"
      ensures t == "wan" <==> Count(scenes, row => OfVideo(row, videoId, userId)) == 6
    {
      var n := Count(scenes, row => OfVideo(row, videoId, userId));
      if n == 0 then "regular" else if n == 6 then "wan" else "regular"
    }

    /** A revision written back scene by scene, stopping with failure at the
        first scene that cannot be sliced or matches no row. */
    method UpdateRevisedContent(revised: seq<Record>, videoId: string, userId: string, now: string) returns (ok: bool)
      requires Valid()
      modifies this
      ensures Valid()
      ensures music == old(music)
      ensures (ok, scenes) == RevisionOutcome(old(scenes), revised, videoId, userId, now)
    {
      RevisionOutcomeShape(scenes, revised, videoId, userId, now);
      var i := 0;
      while i < |revised|
        invariant 0 <= i <= |revised|
        invariant music == old(music)
        invariant RevisionOutcome(old(scenes), revised, videoId, userId, now) == RevisionOutcome(scenes, revised[i..], videoId, userId, now)
      {
        var scene := revised[i];
        var number := Get(scene, "scene_number", JNum(1));
        var update := RevisionUpdate(scene, now);
        if update.None? {
          return false;
        }
        if !HasScene(scenes, videoId, userId, number) {
          return false;
        }
        scenes := Revised(scenes, videoId, userId, number, update.value);
        assert revised[i..][1..] == revised[i + 1..];
        i := i + 1;
      }
      ok := true;
    }

    /** Moving a video's scene rows to a new video id; success means some
        row moved. */
    method UpdateVideoIdForScenes(oldVideoId: string, newVideoId: string, userId: string, now: string) returns (ok: bool)
      requires Valid()
      modifies this
      ensures Valid()
      ensures music == old(music)
      ensures ok <==> exists j :: 0 <= j < |old(scenes)| && OfVideo(old(scenes)[j], oldVideoId, userId)
      ensures |scenes| == |old(scenes)|
      ensures forall j :: 0 <= j < |scenes| ==>
                scenes[j] == if OfVideo(old(scenes)[j], oldVideoId, userId)
                             then old(scenes)[j].(videoId := newVideoId, updatedAt := Some(now))
                             else old(scenes)[j]
    {
      ok := Count(scenes, row => OfVideo(row, oldVideoId, userId)) > 0;
      scenes := seq(|scenes|, j requires 0 <= j < |scenes| reads this =>
        if OfVideo(scenes[j], oldVideoId, userId)
        then scenes[j].(videoId := newVideoId, updatedAt := Some(now))
        else scenes[j]);
    }

    /** Moving a video's music rows to a new video id; success means some
        row moved. */
    method UpdateVideoIdForMusic(oldVideoId: string, newVideoId: string, userId: string) returns (ok: bool)
      modifies this
      ensures scenes == old(scenes)
      ensures ok <==> exists j :: 0 <= j < |old(music)| && MusicOfVideo(old(music)[j], oldVideoId, userId)
      ensures |music| == |old(music)|
      ensures forall j :: 0 <= j < |music| ==>
                music[j] == if MusicOfVideo(old(music)[j], oldVideoId, userId)
                            then old(music)[j].(videoId := newVideoId)
                            else old(music)[j]
    {
      ok := Count(music, row => MusicOfVideo(row, oldVideoId, userId)) > 0;
      music := seq(|music|, j requires 0 <= j < |music| reads this =>
        if MusicOfVideo(music[j], oldVideoId, userId) then music[j].(videoId := newVideoId) else music[j]);
    }

    /** Storing a video's music URL: existing music rows of the video are
        updated in place (with no timestamp); otherwise a new row is
        inserted with both timestamps. */
    method StoreMusic(url: string, videoId: string, userId: string, now: string) returns (ok: bool)
      modifies this
      ensures ok
      ensures scenes == old(scenes)
      ensures (exists j :: 0 <= j < |old(music)| && MusicOfVideo(old(music)[j], videoId, userId)) ==>
                && |music| == |old(music)|
                && forall j :: 0 <= j < |music| ==>
                     music[j] == if MusicOfVideo(old(music)[j], videoId, userId)
                                 then old(music)[j].(musicUrl := url)
                                 else old(music)[j]
      ensures (forall j :: 0 <= j < |old(music)| ==> !MusicOfVideo(old(music)[j], videoId, userId)) ==>
                music == old(music) + [MusicRow(userId, videoId, url, Some(now), Some(now))]
    {
      if Count(music, row => MusicOfVideo(row, videoId, userId)) > 0 {
        music := seq(|music|, j requires 0 <= j < |music| reads this =>
          if MusicOfVideo(music[j], videoId, userId) then music[j].(musicUrl := url) else music[j]);
      } else {
        music := music + [MusicRow(userId, videoId, url, Some(now), Some(now))];
      }
      ok := true;
    }
  }
}
