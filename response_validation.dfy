/** The two-stage handling of a language-model reply shared by the scene
    generators and the revision generators: a lenient clean-up of the raw
    text (strip a ```json fence), then strict checks on the parsed value
    (top-level shape, exact scene count, every required key on every
    scene). */
module ResponseValidation {
  import opened Common
  import opened Json
  import opened Strings

  const JsonFence: string := "```json"
  const Fence: string := "```"

  /** Scenes in a classic (five-scene) reply; scenes in a WAN reply. */
  const ClassicSceneCount: nat := 5
  const WanSceneCount: nat := 6

  /** Keys every scene of a classic revision must carry. */
  const ClassicFields: seq<string> :=
    ["scene_number", "image_prompt", "visual_description", "vioce_over", "sound_effects", "music_direction"]

  /** Keys every scene of a WAN reply must carry (model-facing names). */
  const WanFields: seq<string> :=
    ["scene_number", "nano_banana_prompt", "elevenlabs_prompt", "eleven_labs_emotion", "eleven_labs_voice_id", "wan2_5_prompt"]

  /** The clean-up applied to every reply before parsing: strip, drop a
      leading "```json" (7 characters), drop a trailing "```" (3
      characters), strip again. */
  function Clean(content: string): (r: string)
    ensures |r| <= |content|
    ensures r == [] || (!IsSpace(r[0]) && !IsSpace(r[|r| - 1]))
  {
    var c1 := Strip(content);
    var c2 := if StartsWith(c1, JsonFence) then c1[|JsonFence|..] else c1;
    var c3 := if EndsWith(c2, Fence) then c2[..|c2| - |Fence|] else c2;
    Strip(c3)
  }

  /** A reply wrapped in a ```json fence is reduced to its stripped body. */
  lemma CleanFenced(body: string)
    ensures Clean(JsonFence + body + Fence) == Strip(body)
  {
    var s := JsonFence + body + Fence;
    StripUnchanged(s);
    assert s[..|JsonFence|] == JsonFence;
    var c2 := s[|JsonFence|..];
    assert c2 == body + Fence;
    assert c2[|c2| - |Fence|..] == Fence;
    assert c2[..|c2| - |Fence|] == body;
  }

  /** A bare ``` opening fence is not removed: when the text does not also
      end in a fence, it reaches the parser still beginning with ```. */
  lemma PlainFenceKept(body: string)
    requires body != [] && !IsSpace(body[|body| - 1])
    requires !StartsWith(body, "json")
    requires !EndsWith(Fence + body, Fence)
    ensures Clean(Fence + body) == Fence + body
  {
    var s := Fence + body;
    StripUnchanged(s);
    assert |s| >= 7 ==> s[3..7] == body[..4];
  }

  /** A reply that is only a fence, or only whitespace, cleans to nothing. */
  lemma CleanNothing()
    ensures Clean("```json```") == ""
    ensures Clean(" \n\t ") == ""
  {
    CleanFenced("");
    assert "```json```" == JsonFence + "" + Fence;
    StripUnique(" \n\t ", 4, 4);
  }

  /** The top level a revision reply may take: an object with a "scenes"
      entry or a bare list. The value found must itself be a list. */
  function RevisionSceneList(parsed: JValue): (r: Option<seq<JValue>>)
    ensures parsed.JArr? ==> r == Some(parsed.items)
    ensures (parsed.JObj? && "scenes" in parsed.fields && parsed.fields["scenes"].JArr?) ==>
              r == Some(parsed.fields["scenes"].items)
    ensures r.Some? ==> parsed.JArr? || (parsed.JObj? && "scenes" in parsed.fields)
  {
    match parsed
    case JObj(m) =>
      if "scenes" in m && m["scenes"].JArr? then Some(m["scenes"].items) else None
    case JArr(xs) => Some(xs)
    case _ => None
  }

  /** The stages the classic generator and both revision generators share: an empty reply, a
      reply empty after cleaning, text `loads` rejects, or a top level
      that is neither a list nor an object with a "scenes" list all give
      None. */
  function ParsedReply(content: string, loads: string -> Option<JValue>): (r: Option<seq<JValue>>)
    ensures r.Some? ==> content != "" && Clean(content) != "" && loads(Clean(content)).Some?
    ensures r.Some? ==> RevisionSceneList(loads(Clean(content)).value) == r
  {
    if content == "" then None
    else
      var c := Clean(content);
      if c == "" then None
      else match loads(c)
        case None => None
        case Some(parsed) => RevisionSceneList(parsed)
  }

  /** Values on which `key in v` does not raise. */
  predicate Searchable(v: JValue) {
    v.JObj? || v.JArr? || v.JStr?
  }

  /** How the required-key loop ends: every key present, the first
      missing key (scene index, key index), or a scene on which `in`
      raised. */
  datatype FieldCheck = AllPresent | Missing(scene: nat, field: nat) | Raised(scene: nat)

  predicate ScenePasses(scene: JValue, fields: seq<string>) {
    forall j :: 0 <= j < |fields| ==> PyIn(fields[j], scene) == Some(true)
  }

  /** Every scene carries every required key. */
  predicate AllFieldsPresent(scenes: seq<JValue>, fields: seq<string>) {
    forall i :: 0 <= i < |scenes| ==> ScenePasses(scenes[i], fields)
  }

  /** The required-key loop raises: some scene that cannot be searched is
      reached, every scene before it having passed. */
  predicate CheckRaises(scenes: seq<JValue>, fields: seq<string>) {
    && |fields| > 0
    && exists i :: 0 <= i < |scenes| && !Searchable(scenes[i]) && forall k :: 0 <= k < i ==> ScenePasses(scenes[k], fields)
  }

  /** The nested validation loop: scene by scene, key by key, stopping at the
      first key that is absent or at the first scene that cannot be
      searched. */
  method CheckRequiredFields(scenes: seq<JValue>, fields: seq<string>) returns (v: FieldCheck)
    ensures v.AllPresent? <==> AllFieldsPresent(scenes, fields)
    ensures v.Missing? ==>
              && v.scene < |scenes| && v.field < |fields|
              && (forall i :: 0 <= i < v.scene ==> ScenePasses(scenes[i], fields))
              && (forall j :: 0 <= j < v.field ==> PyIn(fields[j], scenes[v.scene]) == Some(true))
              && PyIn(fields[v.field], scenes[v.scene]) == Some(false)
    ensures v.Raised? ==>
              && v.scene < |scenes| && |fields| > 0
              && (forall i :: 0 <= i < v.scene ==> ScenePasses(scenes[i], fields))
              && !Searchable(scenes[v.scene])
    ensures v.Raised? <==> CheckRaises(scenes, fields)
  {
    var i := 0;
    while i < |scenes|
      invariant 0 <= i <= |scenes|
      invariant forall k :: 0 <= k < i ==> ScenePasses(scenes[k], fields)
    {
      var j := 0;
      while j < |fields|
        invariant 0 <= j <= |fields|
        invariant forall k :: 0 <= k < j ==> PyIn(fields[k], scenes[i]) == Some(true)
      {
        var present := PyIn(fields[j], scenes[i]);
        if present.None? {
          return Raised(i);
        }
        if !present.value {
          FirstMissingNoRaise(scenes, fields, i, j);
          return Missing(i, j);
        }
        j := j + 1;
      }
      i := i + 1;
    }
    assert !CheckRaises(scenes, fields) by {
      if |fields| > 0 {
        assert forall i :: 0 <= i < |scenes| ==> PyIn(fields[0], scenes[i]) == Some(true);
      }
    }
    return AllPresent;
  }

  /** A key missing from a scene whose predecessors all pass rules out a
      raise: scenes before it are searchable, it is itself searchable, and
      the loop never reaches scenes after it. */
  lemma FirstMissingNoRaise(scenes: seq<JValue>, fields: seq<string>, s: nat, f: nat)
    requires s < |scenes| && f < |fields|
    requires forall i :: 0 <= i < s ==> ScenePasses(scenes[i], fields)
    requires PyIn(fields[f], scenes[s]) == Some(false)
    ensures !CheckRaises(scenes, fields)
  {
    forall i | 0 <= i < |scenes| && forall k :: 0 <= k < i ==> ScenePasses(scenes[k], fields)
      ensures Searchable(scenes[i])
    {
      assert i < s ==> PyIn(fields[0], scenes[i]) == Some(true);
    }
  }

  /** All the names written one after another. */
  function Concat(names: seq<string>): string {
    if names == [] then "" else names[0] + Concat(names[1..])
  }

  /** A scene that is merely a string spelling out every required key
      passes the check, because `in` on a string tests for a substring. */
  lemma {:induction false} TextScenePasses(fields: seq<string>)
    ensures ScenePasses(JStr(Concat(fields)), fields)
  {
    if fields != [] {
      var rest := Concat(fields[1..]);
      TextScenePasses(fields[1..]);
      assert MatchAt(fields[0] + rest, fields[0], 0);
      forall j | 1 <= j < |fields|
        ensures PyIn(fields[j], JStr(Concat(fields))) == Some(true)
      {
        assert PyIn(fields[1..][j - 1], JStr(rest)) == Some(true);
        var k :| MatchAt(rest, fields[j], k);
        MatchShift(fields[0], rest, fields[j], k);
      }
    }
  }

  lemma MatchShift(p: string, t: string, sub: string, i: int)
    requires MatchAt(t, sub, i)
    ensures MatchAt(p + t, sub, |p| + i)
  {
    assert (p + t)[|p| + i..|p| + i + |sub|] == t[i..i + |sub|];
  }
}
