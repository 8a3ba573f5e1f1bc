/** The notifications sent back to the front end when a video is ready or
    its processing failed. Both go to one fixed endpoint, whatever callback
    URL the request carried. The HTTP client is a parameter: it gives the
    response status, or None when the request timed out or raised. */
module Callback {
  import opened Common
  import opened Json

  const Endpoint: string := "https://base44.app/api/apps/68b4aa46f5d6326ab93c3ed0/functions/n8nVideoCallback"

  /** A JSON POST. */
  datatype Post = Post(url: string, payload: Record)

  /** The success notification. A revision's carries the video id, chat id,
      video URL and the revision flag; a regular one carries the video URL,
      the user id, and the video id twice, in snake and camel case. */
  function VideoPayload(finalVideoUrl: string, videoId: string, chatId: string, userId: string, isRevision: bool): (p: Record)
    ensures isRevision ==> p.Keys == {"video_id", "chat_id", "video_url", "is_revision"} && p["is_revision"] == JBool(true)
    ensures !isRevision ==> p.Keys == {"video_url", "video_id", "videoId", "chat_id", "user_id"}
                            && p["videoId"] == p["video_id"] && p["user_id"] == JStr(userId)
    ensures p["video_id"] == JStr(videoId) && p["chat_id"] == JStr(chatId) && p["video_url"] == JStr(finalVideoUrl)
  {
    if isRevision then
      map["video_id" := JStr(videoId), "chat_id" := JStr(chatId), "video_url" := JStr(finalVideoUrl), "is_revision" := JBool(true)]
    else
      map["video_url" := JStr(finalVideoUrl), "video_id" := JStr(videoId), "videoId" := JStr(videoId),
          "chat_id" := JStr(chatId), "user_id" := JStr(userId)]
  }

  /** A notification succeeded exactly when the response status is 200. */
  predicate Delivered(status: Option<int>) {
    status == Some(200)
  }

  /** `send_video_callback`: the success notification, posted to the fixed
      endpoint; the given callback URL is not used. */
  method SendVideoCallback(finalVideoUrl: string, videoId: string, chatId: string, userId: string,
                           callbackUrl: string, isRevision: bool, post: Post -> Option<int>) returns (ok: bool)
    ensures ok <==> Delivered(post(Post(Endpoint, VideoPayload(finalVideoUrl, videoId, chatId, userId, isRevision))))
  {
    var payload := VideoPayload(finalVideoUrl, videoId, chatId, userId, isRevision);
    var status := post(Post(Endpoint, payload));
    ok := status.Some? && status.value == 200;
  }

  /** The failure notification: the error, video id, chat id and user id,
      plus the revision flag for a revision, or the camel-case video id and
      the "failed" status otherwise. */
  function ErrorPayload(errorMessage: string, videoId: string, chatId: string, userId: string, isRevision: bool): (p: Record)
    ensures {"error", "video_id", "chat_id", "user_id"} <= p.Keys
    ensures p["error"] == JStr(errorMessage) && p["video_id"] == JStr(videoId)
            && p["chat_id"] == JStr(chatId) && p["user_id"] == JStr(userId)
    ensures isRevision ==> p.Keys == {"error", "video_id", "chat_id", "user_id", "is_revision"} && p["is_revision"] == JBool(true)
    ensures !isRevision ==> p.Keys == {"error", "video_id", "chat_id", "user_id", "videoId", "status"}
                            && p["videoId"] == p["video_id"] && p["status"] == JStr("failed")
  {
    var common := map["error" := JStr(errorMessage), "video_id" := JStr(videoId), "chat_id" := JStr(chatId), "user_id" := JStr(userId)];
    if isRevision then common["is_revision" := JBool(true)]
    else common["videoId" := JStr(videoId)]["status" := JStr("failed")]
  }

  /** Building the failure notification as the service does: the common
      fields first, then the fields of its kind. */
  method BuildErrorPayload(errorMessage: string, videoId: string, chatId: string, userId: string, isRevision: bool)
    returns (payload: Record)
    ensures payload == ErrorPayload(errorMessage, videoId, chatId, userId, isRevision)
  {
    payload := map["error" := JStr(errorMessage), "video_id" := JStr(videoId), "chat_id" := JStr(chatId), "user_id" := JStr(userId)];
    if isRevision {
      payload := payload["is_revision" := JBool(true)];
    } else {
      payload := payload["videoId" := JStr(videoId)];
      payload := payload["status" := JStr("failed")];
    }
  }

  /** `send_error_callback`: the failure notification, posted to the fixed
      endpoint; the given callback URL is not used. */
  method SendErrorCallback(errorMessage: string, videoId: string, chatId: string, userId: string,
                           callbackUrl: string, isRevision: bool, post: Post -> Option<int>) returns (ok: bool)
    ensures ok <==> Delivered(post(Post(Endpoint, ErrorPayload(errorMessage, videoId, chatId, userId, isRevision))))
  {
    var payload := BuildErrorPayload(errorMessage, videoId, chatId, userId, isRevision);
    var status := post(Post(Endpoint, payload));
    ok := status.Some? && status.value == 200;
  }

  /** A success and a failure notification are told apart by the "error"
      field, which only the failure carries. */
  lemma NotificationsDistinct(finalVideoUrl: string, errorMessage: string, videoId: string, chatId: string, userId: string,
                              isRevision: bool, errorIsRevision: bool)
    ensures "error" !in VideoPayload(finalVideoUrl, videoId, chatId, userId, isRevision)
    ensures "error" in ErrorPayload(errorMessage, videoId, chatId, userId, errorIsRevision)
  {
  }
}
