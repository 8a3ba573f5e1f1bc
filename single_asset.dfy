/** Regeneration of one asset of one scene during a revision: a voice-over
    from its combined "text: … delivery: …" prompt, a scene image from its
    prompt and base image, a clip from its image and visual description.
    The media service is a parameter: it maps a request to the JSON result
    it returns, or to None when submitting or waiting raised. */
module SingleAsset {
  import opened Common
  import opened Json
  import opened Strings
  import SceneGeneration

  const TextTag: string := "text:"
  const DeliveryTag: string := "delivery:"

  /** The spoken part of a combined voice-over prompt: whatever follows the
      first "text:", up to the first "delivery:" after it or the end,
      stripped. A prompt without "text:" has no spoken part. */
  function ExtractVoiceoverText(prompt: string): (r: string)
    ensures !Contains(prompt, TextTag) ==> r == ""
    ensures |r| <= |prompt|
    ensures r == [] || (!IsSpace(r[0]) && !IsSpace(r[|r| - 1]))
  {
    if prompt == "" || !Contains(prompt, TextTag) then ""
    else
      var start := Find(prompt, TextTag, 0) + |TextTag|;
      var found := Find(prompt, DeliveryTag, start);
      var end := if found == -1 then |prompt| else found;
      Strip(prompt[start..end])
  }

  /** The combined prompt the generators write, "text: T delivery: D", gives
      back T stripped, whenever T does not itself contain "delivery:". */
  lemma ExtractFormatted(t: string, d: string)
    requires !Contains(t, DeliveryTag)
    ensures ExtractVoiceoverText("text: " + t + " delivery: " + d) == Strip(t)
  {
    var s := "text: " + t + " delivery: " + d;
    FormattedTags(t, d);
    FormattedMiddle(t, d);
    assert Contains(s, TextTag);
    assert s[5..|t| + 7] == " " + t + " ";
    StripPadded(" ", t, " ");
  }

  /** In the combined prompt, "text:" is found at 0 and the first
      "delivery:" after it right behind T and its blank. */
  lemma FormattedTags(t: string, d: string)
    requires !Contains(t, DeliveryTag)
    ensures Find("text: " + t + " delivery: " + d, TextTag, 0) == 0
    ensures Find("text: " + t + " delivery: " + d, DeliveryTag, 5) == |t| + 7
  {
    var s := "text: " + t + " delivery: " + d;
    assert MatchAt(s, TextTag, 0) by { assert s[0..5] == TextTag; }
    var at := |t| + 7;
    assert MatchAt(s, DeliveryTag, at) by { assert s[at..at + 9] == DeliveryTag; }
    NoDeliveryInside(t, d);
  }

  /** Between the two tags lies T with one blank on either side. */
  lemma FormattedMiddle(t: string, d: string)
    ensures ("text: " + t + " delivery: " + d)[5..|t| + 7] == " " + t + " "
  {
    var post := " delivery: " + d;
    var s := "text: " + t + post;
    assert s == "text: " + t + " delivery: " + d;
    SliceOfMiddle("text: ", t, post, 0, |t|);
    assert s[5..|t| + 7] == [s[5]] + s[6..6 + |t|] + [s[|t| + 6]];
  }

  /** No "delivery:" starts between the end of "text:" and the separator
      written after T: the blank before T and the blank after it cannot be
      part of one, and T holds none. */
  lemma NoDeliveryInside(t: string, d: string)
    requires !Contains(t, DeliveryTag)
    ensures forall i :: 5 <= i < |t| + 7 ==> !MatchAt("text: " + t + " delivery: " + d, DeliveryTag, i)
  {
    var s := "text: " + t + " delivery: " + d;
    forall i | 5 <= i < |t| + 7
      ensures !MatchAt(s, DeliveryTag, i)
    {
      if i + 9 > |s| {
      } else if i == 5 {
        assert s[i..i + 9][0] != DeliveryTag[0];
      } else if i + 9 <= |t| + 6 {
        SliceOfMiddle("text: ", t, " delivery: " + d, i - 6, i + 3);
        assert s == "text: " + t + (" delivery: " + d);
        assert !MatchAt(t, DeliveryTag, i - 6);
      } else {
        var k := |t| + 6 - i;
        assert s[i..i + 9][k] == s[|t| + 6] == ' ';
      }
    }
  }

  /** The classic generator's voice-over field yields the stripped "text"
      part of the model's voice-over object again. */
  lemma ProcessedVoiceoverExtract(raw: JValue, i: nat)
    requires SceneGeneration.Processable(raw)
    requires !Contains(SceneGeneration.Part(SceneGeneration.Nested(raw.fields, "voiceover").value, "text"), DeliveryTag)
    ensures var vo := SceneGeneration.Nested(raw.fields, "voiceover").value;
            var field := SceneGeneration.ProcessedScene(raw, i)["vioce_over"];
            field.JStr? && ExtractVoiceoverText(field.s) == Strip(SceneGeneration.Part(vo, "text"))
  {
    var vo := SceneGeneration.Nested(raw.fields, "voiceover").value;
    SceneGeneration.ProcessedVoiceoverFormat(raw, i);
    var t := SceneGeneration.Part(vo, "text");
    var d := SceneGeneration.Part(vo, "delivery");
    assert "text: " + (t + " delivery: " + d) == "text: " + t + " delivery: " + d;
    ExtractFormatted(t, d);
  }

  /** The URL of a result shaped {key: {"url": …}}; any other shape, a
      non-string URL, or a failed call gives "". */
  function NestedUrl(result: Option<JValue>, key: string): (url: string)
    ensures url != "" ==>
              && result.Some? && result.value.JObj? && key in result.value.fields
              && result.value.fields[key].JObj? && "url" in result.value.fields[key].fields
              && result.value.fields[key].fields["url"] == JStr(url)
    ensures (&& result.Some? && result.value.JObj? && key in result.value.fields
             && result.value.fields[key].JObj? && "url" in result.value.fields[key].fields
             && result.value.fields[key].fields["url"].JStr?) ==>
              url == result.value.fields[key].fields["url"].s
  {
    match result
    case Some(JObj(m)) =>
      if key in m && m[key].JObj? && "url" in m[key].fields && m[key].fields["url"].JStr?
      then m[key].fields["url"].s
      else ""
    case _ => ""
  }

  /** The URL of a result shaped {"images": [{"url": …}, …]}: the first
      image's; any other shape, or a failed call, gives "". */
  function FirstImageUrl(result: Option<JValue>): (url: string)
    ensures url != "" ==>
              && result.Some? && result.value.JObj? && "images" in result.value.fields
              && result.value.fields["images"].JArr? && result.value.fields["images"].items != []
              && result.value.fields["images"].items[0].JObj?
              && "url" in result.value.fields["images"].items[0].fields
              && result.value.fields["images"].items[0].fields["url"] == JStr(url)
    ensures (&& result.Some? && result.value.JObj? && "images" in result.value.fields
             && result.value.fields["images"].JArr? && result.value.fields["images"].items != []
             && result.value.fields["images"].items[0].JObj?
             && "url" in result.value.fields["images"].items[0].fields
             && result.value.fields["images"].items[0].fields["url"].JStr?) ==>
              url == result.value.fields["images"].items[0].fields["url"].s
  {
    match result
    case Some(JObj(m)) =>
      if "images" in m && m["images"].JArr? && m["images"].items != [] && m["images"].items[0].JObj? then
        var first := m["images"].items[0].fields;
        if "url" in first && first["url"].JStr? then first["url"].s else ""
      else ""
    case _ => ""
  }

  /** A text-to-speech request; the voice is always "Rachel". */
  datatype SpeechRequest = SpeechRequest(text: string, voice: string)

  const SpeechVoice: string := "Rachel"

  /** What a voice-over regeneration did: the request it submitted, if any,
      and the URL it returned. */
  datatype VoiceoverOutcome = VoiceoverOutcome(request: Option<SpeechRequest>, url: string)

  /** The request a voice-over prompt leads to: none when it has no spoken
      text, otherwise that text alone, read in the fixed voice. */
  function VoiceoverRequest(prompt: string): (r: Option<SpeechRequest>)
    ensures r.None? <==> ExtractVoiceoverText(prompt) == ""
    ensures r.Some? ==> r.value.text == ExtractVoiceoverText(prompt) && r.value.voice == SpeechVoice
  {
    var text := ExtractVoiceoverText(prompt);
    if text == "" then None else Some(SpeechRequest(text, SpeechVoice))
  }

  /** One voice-over: nothing is submitted when the prompt has no spoken
      text; otherwise the audio URL of the result (or "") is returned. */
  function SingleVoiceover(prompt: string, fal: SpeechRequest -> Option<JValue>): (r: VoiceoverOutcome)
    ensures r.request == VoiceoverRequest(prompt)
    ensures r.request.None? ==> r.url == ""
    ensures r.request.Some? ==> r.url == NestedUrl(fal(r.request.value), "audio")
  {
    match VoiceoverRequest(prompt)
    case None => VoiceoverOutcome(None, "")
    case Some(request) => VoiceoverOutcome(Some(request), NestedUrl(fal(request), "audio"))
  }

  /** A combined prompt whose text part is blank submits nothing. */
  lemma BlankTextNoRequest(t: string, d: string, fal: SpeechRequest -> Option<JValue>)
    requires forall i :: 0 <= i < |t| ==> IsSpace(t[i])
    ensures SingleVoiceover("text: " + t + " delivery: " + d, fal) == VoiceoverOutcome(None, "")
  {
    assert !Contains(t, DeliveryTag) by {
      forall i | 0 <= i && i + 9 <= |t| ensures !MatchAt(t, DeliveryTag, i) {
        assert t[i..i + 9][0] == t[i];
      }
    }
    ExtractFormatted(t, d);
    StripPadded(t, "", "");
    assert t + "" + "" == t;
  }

  /** A scene-image request: one JPEG edited from the base image. */
  datatype ImageRequest = ImageRequest(prompt: string, imageUrls: seq<string>, numImages: nat, outputFormat: string, aspectRatio: string)

  /** One scene image: the prompt and base image are sent as they are; the
      first image URL of the result (or "") is returned. */
  function SingleSceneImage(imagePrompt: string, baseImageUrl: string, aspectRatio: string,
                            fal: ImageRequest -> Option<JValue>): (url: string)
    ensures fal(ImageRequest(imagePrompt, [baseImageUrl], 1, "jpeg", aspectRatio)).None? ==> url == ""
    ensures url != "" ==> fal(ImageRequest(imagePrompt, [baseImageUrl], 1, "jpeg", aspectRatio)).Some?
    ensures url == FirstImageUrl(fal(ImageRequest(imagePrompt, [baseImageUrl], 1, "jpeg", aspectRatio)))
  {
    FirstImageUrl(fal(ImageRequest(imagePrompt, [baseImageUrl], 1, "jpeg", aspectRatio)))
  }

  /** The prompt used for a clip when the scene has no visual description. */
  const DefaultVideoPrompt: string :=
    "Create a dynamic product showcase video from this image. Add smooth camera movements and professional lighting effects."

  /** The clip prompt: the visual description, or the default when it is
      empty. */
  function VideoPrompt(visualDescription: string): (p: string)
    ensures p != ""
    ensures visualDescription != "" ==> p == visualDescription
    ensures visualDescription == "" ==> p == DefaultVideoPrompt
  {
    if visualDescription != "" then visualDescription else DefaultVideoPrompt
  }

  /** Choosing the prompt twice is choosing it once. */
  lemma VideoPromptIdempotent(visualDescription: string)
    ensures VideoPrompt(VideoPrompt(visualDescription)) == VideoPrompt(visualDescription)
  {
  }

  /** An image-to-video request: a six-second clip at 768P. */
  datatype VideoRequest = VideoRequest(prompt: string, imageUrl: string, duration: string, resolution: string)

  /** One clip: the chosen prompt and the image are sent; the video URL of
      the result (or "") is returned. */
  function SingleVideo(imageUrl: string, visualDescription: string,
                       fal: VideoRequest -> Option<JValue>): (url: string)
    ensures fal(VideoRequest(VideoPrompt(visualDescription), imageUrl, "6", "768P")).None? ==> url == ""
    ensures url != "" ==> fal(VideoRequest(VideoPrompt(visualDescription), imageUrl, "6", "768P")).Some?
    ensures url == NestedUrl(fal(VideoRequest(VideoPrompt(visualDescription), imageUrl, "6", "768P")), "video")
  {
    NestedUrl(fal(VideoRequest(VideoPrompt(visualDescription), imageUrl, "6", "768P")), "video")
  }
}
