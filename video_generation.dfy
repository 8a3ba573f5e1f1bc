/** Clips for every scene of a video, and the fallback composition of the
    clips into one video. One request per scene image that has a prompt,
    then one URL slot per image, filled by scene index; the media service
    is a parameter, as for a single clip, and waiting for all results can
    time out as a whole. */
module VideoGeneration {
  import opened Common
  import opened Json
  import opened Lists
  import opened SingleAsset
  import AudioGeneration

  /** The handler slot of scene i: none when there is no prompt for it;
      otherwise a six-second 768P request from its image, with its prompt
      or the default one when the prompt is empty. */
  function VideoHandler(images: seq<string>, prompts: seq<string>, i: nat): (h: Option<VideoRequest>)
    requires i < |images|
    ensures h.None? <==> i >= |prompts|
    ensures h.Some? ==> h.value == VideoRequest(VideoPrompt(prompts[i]), images[i], "6", "768P")
  {
    if i >= |prompts| then None else Some(VideoRequest(VideoPrompt(prompts[i]), images[i], "6", "768P"))
  }

  /** The first phase: one handler slot per scene image. */
  method SubmitVideos(images: seq<string>, prompts: seq<string>) returns (handlers: seq<Option<VideoRequest>>)
    ensures |handlers| == |images|
    ensures forall i :: 0 <= i < |images| ==> handlers[i] == VideoHandler(images, prompts, i)
  {
    handlers := [];
    for i := 0 to |images|
      invariant |handlers| == i
      invariant forall k :: 0 <= k < i ==> handlers[k] == VideoHandler(images, prompts, k)
    {
      if i >= |prompts| {
        handlers := handlers + [None];
        continue;
      }
      var prompt := if prompts[i] != "" then prompts[i] else DefaultVideoPrompt;
      handlers := handlers + [Some(VideoRequest(prompt, images[i], "6", "768P"))];
    }
  }

  /** What waiting on one handler gives: "" without a handler, else the
      video URL of its result (or ""). */
  function ClipUrl(handler: Option<VideoRequest>, fal: VideoRequest -> Option<JValue>): string {
    match handler
    case None => ""
    case Some(request) => NestedUrl(fal(request), "video")
  }

  /** The second phase: each handler gives its own scene index and a URL. */
  method CollectVideos(handlers: seq<Option<VideoRequest>>, fal: VideoRequest -> Option<JValue>)
    returns (results: seq<(nat, string)>)
    ensures |results| == |handlers|
    ensures forall i :: 0 <= i < |handlers| ==> results[i].0 == i
    ensures forall i :: 0 <= i < |handlers| ==> results[i].1 == ClipUrl(handlers[i], fal)
  {
    results := [];
    for i := 0 to |handlers|
      invariant |results| == i
      invariant forall k :: 0 <= k < i ==> results[k].0 == k
      invariant forall k :: 0 <= k < i ==> results[k].1 == ClipUrl(handlers[k], fal)
    {
      results := results + [(i, ClipUrl(handlers[i], fal))];
    }
  }

  /** All clips: one slot per scene image, "" at first. Slot i holds what a
      single clip regeneration from image i and prompt i returns, and stays
      "" for an image without a prompt or after a time-out. */
  method GenerateVideosWithFal(images: seq<string>, prompts: seq<string>, fal: VideoRequest -> Option<JValue>, timedOut: bool)
    returns (urls: seq<string>)
    ensures |urls| == |images|
    ensures timedOut ==> forall i :: 0 <= i < |images| ==> urls[i] == ""
    ensures forall i :: |prompts| <= i < |images| ==> urls[i] == ""
    ensures !timedOut ==> forall i :: 0 <= i < |images| && i < |prompts| ==> urls[i] == SingleVideo(images[i], prompts[i], fal)
  {
    var handlers := SubmitVideos(images, prompts);
    if timedOut {
      urls := seq(|images|, _ => "");
    } else {
      var results := CollectVideos(handlers, fal);
      urls := AudioGeneration.FillSlots(|images|, results);
    }
  }

  /** One entry of the composed track. Times are in milliseconds. */
  datatype Keyframe = Keyframe(url: string, timestamp: nat, duration: nat)

  /** The single video track sent for composition. */
  datatype Track = Track(id: string, kind: string, keyframes: seq<Keyframe>)

  const ClipMillis: nat := 6000
  const MaxClips: nat := 5

  function Min(a: nat, b: nat): nat {
    if a <= b then a else b
  }

  /** The keyframes: the first five non-empty clips, back to back, six
      seconds each. */
  function Keyframes(clips: seq<string>): (k: seq<Keyframe>)
    ensures |k| == Min(|NonEmptyStrings(clips)|, MaxClips)
    ensures forall i :: 0 <= i < |k| ==>
              k[i].url == NonEmptyStrings(clips)[i] && k[i].url != "" && k[i].timestamp == ClipMillis * i && k[i].duration == ClipMillis
  {
    var valid := NonEmptyStrings(clips);
    seq(Min(|valid|, MaxClips), i requires 0 <= i < Min(|valid|, MaxClips) => Keyframe(valid[i], ClipMillis * i, ClipMillis))
  }

  /** Consecutive keyframes touch: each starts where the one before ends,
      and all of them end within thirty seconds. */
  lemma KeyframesBackToBack(clips: seq<string>)
    ensures var k := Keyframes(clips);
            && (forall i :: 0 < i < |k| ==> k[i].timestamp == k[i - 1].timestamp + k[i - 1].duration)
            && (forall i :: 0 <= i < |k| ==> k[i].timestamp + k[i].duration <= 30000)
  {
  }

  /** Building the keyframes as the service does, stopping after five. */
  method BuildKeyframes(clips: seq<string>) returns (keyframes: seq<Keyframe>)
    ensures keyframes == Keyframes(clips)
  {
    var valid := NonEmptyStrings(clips);
    keyframes := [];
    var i := 0;
    while i < |valid|
      invariant 0 <= i <= |valid| && i <= MaxClips
      invariant keyframes == seq(i, k requires 0 <= k < i => Keyframe(valid[k], ClipMillis * k, ClipMillis))
    {
      if i >= MaxClips {
        break;
      }
      keyframes := keyframes + [Keyframe(valid[i], ClipMillis * i, ClipMillis)];
      i := i + 1;
    }
  }

  /** The URL of a result shaped {"video_url": …}; anything else gives "". */
  function ComposedUrl(result: Option<JValue>): (url: string)
    ensures url != "" ==> result.Some? && result.value.JObj? && "video_url" in result.value.fields
                          && result.value.fields["video_url"] == JStr(url)
    ensures (result.Some? && result.value.JObj? && "video_url" in result.value.fields
             && result.value.fields["video_url"].JStr?) ==> url == result.value.fields["video_url"].s
  {
    match result
    case Some(JObj(m)) => if "video_url" in m && m["video_url"].JStr? then m["video_url"].s else ""
    case _ => ""
  }

  /** The fallback composition: "" without a single non-empty clip, which
      sends nothing; otherwise the composed video's URL (or ""). */
  method ComposeFinalVideo(clips: seq<string>, compose: seq<Track> -> Option<JValue>) returns (url: string)
    ensures NonEmptyStrings(clips) == [] ==> url == ""
    ensures NonEmptyStrings(clips) != [] ==> url == ComposedUrl(compose([Track("main_video_track", "video", Keyframes(clips))]))
  {
    var valid := NonEmptyStrings(clips);
    if valid == [] {
      return "";
    }
    var keyframes := BuildKeyframes(clips);
    var tracks := [Track("main_video_track", "video", keyframes)];
    url := ComposedUrl(compose(tracks));
  }
}
