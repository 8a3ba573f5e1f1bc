/** The final composition request sent to the rendering service: one
    scene holding the silent main video, up to five voice-overs and the
    background music for a classic video; one scene per clip, each with
    its own voice-over, for a WAN video. The rendering service (submit,
    check the project id, poll) is a parameter that gives the rendered
    URL, or "" when any step failed. */
module FinalComposition {
  import opened Lists
  import opened Common
  import TaskUtils

  datatype MediaKind = Video | Audio

  /** One element of a scene. Volumes are in tenths (0.2 is 2, 2 is 20);
      `cover` is the "resize": "cover" setting; an element without a start
      time starts with its scene. */
  datatype Element = Element(kind: MediaKind, src: string, start: Option<nat>, duration: nat, volumeTenths: nat, cover: bool)

  /** The request: a custom resolution and the scenes. */
  datatype Movie = Movie(resolution: TaskUtils.Resolution, scenes: seq<seq<Element>>)

  /** Length of a classic video in seconds. */
  const Length: nat := 30
  /** Length of one voice-over slot in seconds. */
  const VoiceoverSlot: nat := 6
  const MaxVoiceovers: nat := 5

  function MainVideo(url: string): Element {
    Element(Video, url, Some(0), Length, 0, true)
  }

  /** The i-th voice-over, in its own six-second slot. */
  function VoiceoverAt(url: string, i: nat): Element {
    Element(Audio, url, Some(VoiceoverSlot * i), VoiceoverSlot, 20, false)
  }

  function BackgroundMusic(url: string): Element {
    Element(Audio, url, Some(0), Length, 2, false)
  }

  function Min(a: nat, b: nat): nat {
    if a <= b then a else b
  }

  /** The voice-over track: the first five non-empty voice-overs, each in
      its slot. */
  function VoiceoverTrack(voiceovers: seq<string>): (track: seq<Element>)
    ensures |track| == Min(|NonEmptyStrings(voiceovers)|, MaxVoiceovers)
    ensures forall i :: 0 <= i < |track| ==> track[i] == VoiceoverAt(NonEmptyStrings(voiceovers)[i], i)
  {
    var valid := NonEmptyStrings(voiceovers);
    seq(Min(|valid|, MaxVoiceovers), i requires 0 <= i < Min(|valid|, MaxVoiceovers) => VoiceoverAt(valid[i], i))
  }

  /** The elements of a classic composition. */
  function ClassicElements(composedUrl: string, voiceovers: seq<string>, musicUrl: string): seq<Element> {
    [MainVideo(composedUrl)] + VoiceoverTrack(voiceovers) + (if musicUrl != "" then [BackgroundMusic(musicUrl)] else [])
  }

  /** The main video comes first; then the first five non-empty voice-overs
      in order, the i-th starting at 6i for 6 seconds; the music comes last
      and only when there is one. */
  lemma ClassicElementsShape(composedUrl: string, voiceovers: seq<string>, musicUrl: string)
    ensures var e := ClassicElements(composedUrl, voiceovers, musicUrl);
            var valid := NonEmptyStrings(voiceovers);
            var n := Min(|valid|, MaxVoiceovers);
            && |e| == 1 + n + (if musicUrl != "" then 1 else 0)
            && e[0] == MainVideo(composedUrl)
            && (forall i :: 0 <= i < n ==>
                  (e[1 + i].kind == Audio && e[1 + i].src == valid[i] && e[1 + i].src != ""
                   && e[1 + i].start == Some(6 * i) && e[1 + i].duration == 6))
            && (musicUrl != "" ==> e[|e| - 1] == BackgroundMusic(musicUrl))
  {
    var e := ClassicElements(composedUrl, voiceovers, musicUrl);
    var valid := NonEmptyStrings(voiceovers);
    var track := VoiceoverTrack(voiceovers);
    var tail := if musicUrl != "" then [BackgroundMusic(musicUrl)] else [];
    assert e == [MainVideo(composedUrl)] + track + tail;
    forall i | 0 <= i < |track|
      ensures e[1 + i].kind == Audio && e[1 + i].src == valid[i] && e[1 + i].src != ""
              && e[1 + i].start == Some(6 * i) && e[1 + i].duration == 6
    {
      assert e[1 + i] == track[i] == VoiceoverAt(valid[i], i);
    }
  }

  /** Every element of a classic composition ends within the 30 seconds of
      the main video. */
  lemma ClassicElementsWithinLength(composedUrl: string, voiceovers: seq<string>, musicUrl: string)
    ensures var e := ClassicElements(composedUrl, voiceovers, musicUrl);
            forall j :: 0 <= j < |e| ==> e[j].start.Some? && e[j].start.value + e[j].duration <= Length
  {
    var e := ClassicElements(composedUrl, voiceovers, musicUrl);
    var track := VoiceoverTrack(voiceovers);
    var n := |track|;
    forall j | 0 <= j < |e|
      ensures e[j].start.Some? && e[j].start.value + e[j].duration <= Length
    {
      if j == 0 {
        assert e[j] == MainVideo(composedUrl);
      } else if j <= n {
        assert e[j] == track[j - 1];
      } else {
        assert e[j] == BackgroundMusic(musicUrl);
      }
    }
  }

  /** Building the element list as the service does: the main video, the
      non-empty voice-overs until five are placed, then the music if any. */
  method BuildElements(composedUrl: string, voiceovers: seq<string>, musicUrl: string) returns (elements: seq<Element>)
    ensures elements == ClassicElements(composedUrl, voiceovers, musicUrl)
  {
    var valid := NonEmptyStrings(voiceovers);
    var track: seq<Element> := [];
    var i := 0;
    while i < |valid|
      invariant 0 <= i <= |valid| && i <= MaxVoiceovers
      invariant track == seq(i, k requires 0 <= k < i => VoiceoverAt(valid[k], k))
    {
      if i >= MaxVoiceovers {
        break;
      }
      track := track + [VoiceoverAt(valid[i], i)];
      i := i + 1;
    }
    assert i == Min(|valid|, MaxVoiceovers);
    assert track == VoiceoverTrack(voiceovers);
    elements := [MainVideo(composedUrl)] + track;
    if musicUrl != "" {
      elements := elements + [BackgroundMusic(musicUrl)];
    }
  }

  /** The classic request: the elements as one scene, at the resolution of
      the aspect ratio. */
  function ClassicMovie(composedUrl: string, voiceovers: seq<string>, musicUrl: string, aspectRatio: string): Movie {
    Movie(TaskUtils.ResolutionFor(aspectRatio), [ClassicElements(composedUrl, voiceovers, musicUrl)])
  }

  /** The classic composition: the rendered URL, or the composed video
      unchanged when there is no API key or rendering failed in any way. */
  method ComposeFinalVideoWithAudio(hasApiKey: bool, composedUrl: string, voiceovers: seq<string>, musicUrl: string,
                                    aspectRatio: string, render: Movie -> string) returns (url: string)
    ensures !hasApiKey ==> url == composedUrl
    ensures hasApiKey ==> url == (var rendered := render(ClassicMovie(composedUrl, voiceovers, musicUrl, aspectRatio));
                                  if rendered != "" then rendered else composedUrl)
    ensures url != composedUrl ==> url != "" && hasApiKey
  {
    if !hasApiKey {
      return composedUrl;
    }
    var elements := BuildElements(composedUrl, voiceovers, musicUrl);
    var movie := Movie(TaskUtils.ResolutionFor(aspectRatio), [elements]);
    var rendered := render(movie);
    if rendered == "" {
      return composedUrl;
    }
    return rendered;
  }

  /** Length of a WAN scene in seconds, and the most scenes a WAN video has. */
  const WanSceneLength: nat := 5
  const MaxWanScenes: nat := 6

  function WanClip(url: string): Element {
    Element(Video, url, None, WanSceneLength, 2, true)
  }

  function WanVoiceover(url: string): Element {
    Element(Audio, url, Some(0), WanSceneLength, 20, false)
  }

  /** Scene i: its clip, and the voice-over at the same position of the
      unfiltered voice-over list when that one is non-empty. */
  function WanScene(clip: string, voiceovers: seq<string>, i: nat): seq<Element> {
    [WanClip(clip)] + (if i < |voiceovers| && voiceovers[i] != "" then [WanVoiceover(voiceovers[i])] else [])
  }

  /** The WAN scenes: one per non-empty clip, at most six. */
  function WanScenes(clips: seq<string>, voiceovers: seq<string>): (scenes: seq<seq<Element>>)
    ensures |scenes| == Min(MaxWanScenes, |NonEmptyStrings(clips)|)
  {
    var valid := NonEmptyStrings(clips);
    seq(Min(MaxWanScenes, |valid|), i requires 0 <= i < Min(MaxWanScenes, |valid|) => WanScene(valid[i], voiceovers, i))
  }

  /** Scene i plays the i-th non-empty clip for five seconds, and carries a
      voice-over exactly when the i-th entry of the voice-over list is
      non-empty; an empty clip therefore shifts the clips against their
      voice-overs. */
  lemma WanScenesShape(clips: seq<string>, voiceovers: seq<string>, i: nat)
    requires i < |WanScenes(clips, voiceovers)|
    ensures var s := WanScenes(clips, voiceovers)[i];
            && s[0] == WanClip(NonEmptyStrings(clips)[i]) && s[0].src != ""
            && (|s| == 2 <==> i < |voiceovers| && voiceovers[i] != "")
            && (|s| == 2 ==> s[1] == WanVoiceover(voiceovers[i]))
            && |s| <= 2
  {
  }

  /** The shift: when an earlier clip is empty, the clip at position j is
      played by an earlier scene i, and that scene takes the voice-over at
      position i of the unfiltered list, not the one at position j. */
  lemma WanVoiceoverShift(clips: seq<string>, voiceovers: seq<string>, j: nat, k: nat)
    requires j < |clips| && clips[j] != ""
    requires k < j && clips[k] == ""
    ensures var i := |NonEmptyStrings(clips[..j])|;
            && i < j
            && (i < MaxWanScenes ==>
                  && i < |WanScenes(clips, voiceovers)|
                  && WanScenes(clips, voiceovers)[i] == WanScene(clips[j], voiceovers, i))
  {
    var before := NonEmptyStrings(clips[..j]);
    NonEmptyStringsDrops(clips[..j], k);
    assert clips == clips[..j] + clips[j..];
    NonEmptyStringsConcat(clips[..j], clips[j..]);
    assert clips[j..][1..] == clips[j + 1..];
    assert NonEmptyStrings(clips[j..]) == [clips[j]] + NonEmptyStrings(clips[j + 1..]);
    assert NonEmptyStrings(clips)[|before|] == clips[j];
  }

  /** Building the WAN scenes as the service does, with its checks: the
      clip of each scene is present and non-empty, so every scene built is
      kept. */
  method BuildWanScenes(clips: seq<string>, voiceovers: seq<string>) returns (scenes: seq<seq<Element>>)
    ensures scenes == WanScenes(clips, voiceovers)
  {
    var valid := NonEmptyStrings(clips);
    var n := Min(MaxWanScenes, |valid|);
    scenes := [];
    for i := 0 to n
      invariant scenes == seq(i, k requires 0 <= k < i => WanScene(valid[k], voiceovers, k))
    {
      var sceneElements: seq<Element> := [];
      if i < |valid| && valid[i] != "" {
        sceneElements := sceneElements + [WanClip(valid[i])];
      }
      if i < |voiceovers| && voiceovers[i] != "" {
        sceneElements := sceneElements + [WanVoiceover(voiceovers[i])];
      }
      assert sceneElements == WanScene(valid[i], voiceovers, i);
      if sceneElements != [] {
        scenes := scenes + [sceneElements];
      }
    }
  }

  function WanMovie(clips: seq<string>, voiceovers: seq<string>, aspectRatio: string): Movie {
    Movie(TaskUtils.ResolutionFor(aspectRatio), WanScenes(clips, voiceovers))
  }

  /** The WAN composition: "" without an API key, without a single
      non-empty clip, or when rendering failed; otherwise the rendered URL. */
  method ComposeWanFinalVideoWithAudio(hasApiKey: bool, clips: seq<string>, voiceovers: seq<string>,
                                       aspectRatio: string, render: Movie -> string) returns (url: string)
    ensures !hasApiKey || NonEmptyStrings(clips) == [] ==> url == ""
    ensures hasApiKey && NonEmptyStrings(clips) != [] ==> url == render(WanMovie(clips, voiceovers, aspectRatio))
  {
    if !hasApiKey {
      return "";
    }
    var valid := NonEmptyStrings(clips);
    if valid == [] {
      return "";
    }
    var scenes := BuildWanScenes(clips, voiceovers);
    url := render(Movie(TaskUtils.ResolutionFor(aspectRatio), scenes));
  }
}
