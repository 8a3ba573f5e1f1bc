/** Voice-overs for every scene of a video: one request per prompt that has
    spoken text, then one URL slot per prompt, filled by scene index. The
    speech service is a parameter, as for a single voice-over; waiting for
    all results can time out as a whole. */
module AudioGeneration {
  import opened Common
  import opened Json
  import opened SingleAsset

  /** The first phase: one handler slot per prompt, None where the prompt
      has no spoken text. */
  method SubmitAll(prompts: seq<string>) returns (handlers: seq<Option<SpeechRequest>>)
    ensures |handlers| == |prompts|
    ensures forall i :: 0 <= i < |prompts| ==> handlers[i] == VoiceoverRequest(prompts[i])
  {
    handlers := [];
    for i := 0 to |prompts|
      invariant |handlers| == i
      invariant forall k :: 0 <= k < i ==> handlers[k] == VoiceoverRequest(prompts[k])
    {
      handlers := handlers + [VoiceoverRequest(prompts[i])];
    }
  }

  /** What waiting on one handler gives: "" without a handler, else the
      audio URL of its result (or ""). */
  function HandlerUrl(handler: Option<SpeechRequest>, fal: SpeechRequest -> Option<JValue>): string {
    match handler
    case None => ""
    case Some(request) => NestedUrl(fal(request), "audio")
  }

  /** Submitting and then waiting is what a single voice-over does. */
  lemma HandlerUrlIsSingle(prompt: string, fal: SpeechRequest -> Option<JValue>)
    ensures HandlerUrl(VoiceoverRequest(prompt), fal) == SingleVoiceover(prompt, fal).url
  {
  }

  /** The second phase: each handler gives its own scene index and a URL,
      "" when there is no handler or no audio in its result. */
  method CollectAll(handlers: seq<Option<SpeechRequest>>, fal: SpeechRequest -> Option<JValue>)
    returns (results: seq<(nat, string)>)
    ensures |results| == |handlers|
    ensures forall i :: 0 <= i < |handlers| ==> results[i].0 == i
    ensures forall i :: 0 <= i < |handlers| ==>
              results[i].1 == HandlerUrl(handlers[i], fal)
  {
    results := [];
    for i := 0 to |handlers|
      invariant |results| == i
      invariant forall k :: 0 <= k < i ==> results[k].0 == k
      invariant forall k :: 0 <= k < i ==>
                  results[k].1 == HandlerUrl(handlers[k], fal)
    {
      var url := HandlerUrl(handlers[i], fal);
      results := results + [(i, url)];
    }
  }

  /** The list the results are written into: n slots, all "" at first;
      each result goes to the slot its scene index names. */
  method FillSlots(n: nat, results: seq<(nat, string)>) returns (urls: seq<string>)
    requires |results| == n
    requires forall i :: 0 <= i < n ==> results[i].0 == i
    ensures |urls| == n
    ensures forall i :: 0 <= i < n ==> urls[i] == results[i].1
  {
    var slots := new string[n](_ => "");
    for j := 0 to n
      invariant forall k :: 0 <= k < j ==> slots[k] == results[k].1
    {
      var (index, url) := results[j];
      slots[index] := url;
    }
    urls := slots[..];
  }

  /** All voice-overs: the list has one slot per prompt, starts as all "",
      and each result is written to the slot of its own scene, so slot i
      holds exactly what a single regeneration of prompt i returns. After a
      time-out every slot stays "". */
  method GenerateVoiceovers(prompts: seq<string>, fal: SpeechRequest -> Option<JValue>, timedOut: bool)
    returns (urls: seq<string>)
    ensures |urls| == |prompts|
    ensures timedOut ==> forall i :: 0 <= i < |prompts| ==> urls[i] == ""
    ensures !timedOut ==> forall i :: 0 <= i < |prompts| ==> urls[i] == SingleVoiceover(prompts[i], fal).url
  {
    var handlers := SubmitAll(prompts);
    if timedOut {
      urls := seq(|prompts|, _ => "");
    } else {
      var results := CollectAll(handlers, fal);
      urls := FillSlots(|prompts|, results);
      forall i | 0 <= i < |prompts|
        ensures urls[i] == SingleVoiceover(prompts[i], fal).url
      {
        HandlerUrlIsSingle(prompts[i], fal);
      }
    }
  }
}
