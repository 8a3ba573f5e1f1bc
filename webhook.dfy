/** The webhook front end: pulling the fields of a generation, revision or
    WAN request out of the posted body and rejecting incomplete ones, the
    100-character summaries kept with queued tasks, the processing
    counters, and the task-status reply. The field validation of the data
    models is a parameter (`accepts`): it says whether the models accept
    the assembled fields. */
module Webhook {
  import opened Common
  import opened Json
  import opened Strings

  const DefaultAspectRatio: string := "9:16"

  /** The fields of a generation request, under their model names. */
  const RequestKeys: set<string> := {
    "prompt", "image_url", "video_id", "chat_id", "user_id", "user_email", "user_name",
    "is_revision", "request_timestamp", "source", "version", "idempotency_key",
    "callback_url", "webhook_url", "execution_mode", "aspect_ratio", "task_id"}

  /** The body key each model field is read from; two are spelled in camel
      case in the body. */
  function BodyKey(k: string): string {
    if k == "webhook_url" then "webhookUrl"
    else if k == "execution_mode" then "executionMode"
    else k
  }

  /** `body.get(key)` with the defaults of a generation request: `is_revision`
      False, `aspect_ratio` "9:16", anything else None. The task id is fresh. */
  function RequestValue(body: Record, k: string, taskId: string): JValue {
    if k == "task_id" then JStr(taskId)
    else if k == "is_revision" then Get(body, "is_revision", JBool(false))
    else if k == "aspect_ratio" then Get(body, "aspect_ratio", JStr(DefaultAspectRatio))
    else Get(body, BodyKey(k), JNull)
  }

  /** Fields kept even when None, so that the model rejects them. */
  predicate KeptWhenNone(k: string) {
    k == "prompt" || k == "image_url" || k == "video_id" || k == "user_id" || k == "user_email" || k == "source"
  }

  /** The fields handed to the request model: every field whose value is
      not None, and the kept fields whatever their value. */
  function FilteredRequest(body: Record, taskId: string): (r: Record)
    ensures forall k :: k in r ==> k in RequestKeys && r[k] == RequestValue(body, k, taskId)
    ensures forall k :: k in RequestKeys ==> (k in r <==> RequestValue(body, k, taskId) != JNull || KeptWhenNone(k))
  {
    map k | k in RequestKeys && (RequestValue(body, k, taskId) != JNull || KeptWhenNone(k)) :: RequestValue(body, k, taskId)
  }

  /** The request's aspect ratio is "9:16" when the body names none, and
      `is_revision` is False. */
  lemma RequestDefaults(body: Record, taskId: string)
    requires "aspect_ratio" !in body && "is_revision" !in body
    ensures FilteredRequest(body, taskId)["aspect_ratio"] == JStr(DefaultAspectRatio)
    ensures FilteredRequest(body, taskId)["is_revision"] == JBool(false)
  {
    assert "aspect_ratio" in RequestKeys && "is_revision" in RequestKeys;
  }

  /** The five fields a generation request cannot do without. */
  predicate RequestComplete(fields: Record) {
    && "prompt" in fields && Truthy(fields["prompt"])
    && "image_url" in fields && Truthy(fields["image_url"])
    && "video_id" in fields && Truthy(fields["video_id"])
    && "user_id" in fields && Truthy(fields["user_id"])
    && "user_email" in fields && Truthy(fields["user_email"])
  }

  /** A generation request: None when the model rejects the fields or when
      prompt, image URL, video id, user id or user email is empty or None. */
  function ExtractWebhookData(body: Record, taskId: string, accepts: Record -> bool): (r: Option<Record>)
    ensures r.Some? <==> accepts(FilteredRequest(body, taskId)) && RequestComplete(FilteredRequest(body, taskId))
    ensures r.Some? ==> r.value == FilteredRequest(body, taskId)
  {
    var fields := FilteredRequest(body, taskId);
    if !accepts(fields) || !RequestComplete(fields) then None else Some(fields)
  }

  /** A body missing any one of the five fields is rejected. */
  lemma MissingFieldRejected(body: Record, taskId: string, accepts: Record -> bool, k: string)
    requires k in ["prompt", "image_url", "video_id", "user_id", "user_email"]
    requires k !in body
    ensures ExtractWebhookData(body, taskId, accepts).None?
  {
    assert k in RequestKeys && KeptWhenNone(k);
    assert RequestValue(body, k, taskId) == JNull;
  }

  /** The fields of a revision request, each `body.get(key, "")` except the
      defaulted ones: `is_revision` True, `aspect_ratio` "9:16". */
  const RevisionKeys: set<string> := {
    "video_id", "parent_video_id", "original_video_id", "chat_id", "user_id", "user_email",
    "user_name", "revision_request", "prompt", "image_url", "is_revision", "timestamp",
    "callback_url", "aspect_ratio", "task_id"}

  function RevisionValue(body: Record, k: string, taskId: string): JValue {
    if k == "task_id" then JStr(taskId)
    else if k == "is_revision" then Get(body, "is_revision", JBool(true))
    else if k == "aspect_ratio" then Get(body, "aspect_ratio", JStr(DefaultAspectRatio))
    else Get(body, k, JStr(""))
  }

  function RevisionFields(body: Record, taskId: string): (r: Record)
    ensures r.Keys == RevisionKeys
    ensures forall k :: k in r ==> r[k] == RevisionValue(body, k, taskId)
  {
    map k | k in RevisionKeys :: RevisionValue(body, k, taskId)
  }

  /** The fields a revision cannot do without, in the order they are reported. */
  const RevisionRequired: seq<string> := ["video_id", "parent_video_id", "revision_request", "user_email", "user_id"]

  /** The names, in order, of the listed fields that are absent or empty. */
  function MissingOf(fields: Record, names: seq<string>): (r: seq<string>)
    ensures forall n :: n in r <==> n in names && !Truthy(Get(fields, n, JNull))
    ensures |r| <= |names|
  {
    if names == [] then []
    else (if Truthy(Get(fields, names[0], JNull)) then [] else [names[0]]) + MissingOf(fields, names[1..])
  }

  /** Nothing is missing exactly when every listed field is present and
      non-empty. */
  lemma NoneMissing(fields: Record, names: seq<string>)
    ensures MissingOf(fields, names) == [] <==> forall n :: n in names ==> Truthy(Get(fields, n, JNull))
  {
    var r := MissingOf(fields, names);
    if r != [] {
      assert r[0] in r;
    }
  }

  /** Each required revision field is read from the body with "" as default. */
  lemma RequiredRevisionValues(body: Record, taskId: string)
    ensures forall n :: n in RevisionRequired ==> Get(RevisionFields(body, taskId), n, JNull) == Get(body, n, JStr(""))
  {
    assert forall n :: n in RevisionRequired ==> n in RevisionKeys && n != "task_id" && n != "is_revision" && n != "aspect_ratio";
  }

  /** A revision request: None when the model rejects the fields or when
      any of video id, parent video id, revision request, user email and
      user id is absent from the body or empty. */
  function ExtractRevisionData(body: Record, taskId: string, accepts: Record -> bool): (r: Option<Record>)
    ensures r.Some? <==>
              && accepts(RevisionFields(body, taskId))
              && forall n :: n in RevisionRequired ==> Truthy(Get(body, n, JStr("")))
    ensures r.Some? ==> r.value == RevisionFields(body, taskId)
  {
    var fields := RevisionFields(body, taskId);
    RequiredRevisionValues(body, taskId);
    NoneMissing(fields, RevisionRequired);
    if !accepts(fields) then None
    else
      var missing := MissingOf(fields, RevisionRequired);
      if missing != [] then None else Some(fields)
  }

  /** A revision body naming no `is_revision` is a revision. */
  lemma RevisionDefaults(body: Record, taskId: string)
    requires "is_revision" !in body && "aspect_ratio" !in body
    ensures RevisionFields(body, taskId)["is_revision"] == JBool(true)
    ensures RevisionFields(body, taskId)["aspect_ratio"] == JStr(DefaultAspectRatio)
  {
    assert "is_revision" in RevisionKeys && "aspect_ratio" in RevisionKeys;
  }

  /** The fields of a WAN request, in the order the filtering loop visits
      them. */
  const WanKeys: seq<string> := [
    "prompt", "image_url", "video_id", "chat_id", "user_id", "user_email", "user_name", "model",
    "request_timestamp", "source", "version", "idempotency_key", "callback_url", "webhook_url",
    "execution_mode", "aspect_ratio", "task_id"]

  /** `source or "web_app"`. */
  function SourceOrDefault(v: JValue): (r: JValue)
    ensures Truthy(r)
    ensures Truthy(v) ==> r == v
  {
    if Truthy(v) then v else JStr("web_app")
  }

  /** The value a WAN field is read as: `model` defaults to "wan", and an
      empty or None `source` becomes "web_app". */
  function WanValue(body: Record, k: string, taskId: string): JValue {
    if k == "task_id" then JStr(taskId)
    else if k == "model" then Get(body, "model", JStr("wan"))
    else if k == "aspect_ratio" then Get(body, "aspect_ratio", JStr(DefaultAspectRatio))
    else if k == "source" then SourceOrDefault(Get(body, "source", JNull))
    else Get(body, BodyKey(k), JNull)
  }

  predicate WanKeptWhenNone(k: string) {
    k == "prompt" || k == "image_url" || k == "video_id" || k == "user_id" || k == "user_email"
  }

  /** Whether the WAN filtering loop keeps a field: `source` always, the
      five required fields always, any other field when not None. */
  predicate WanKept(body: Record, k: string, taskId: string) {
    k == "source" || WanValue(body, k, taskId) != JNull || WanKeptWhenNone(k)
  }

  /** The value the WAN filtering loop stores: `source` as `v or "web_app"`,
      anything else as it is. */
  function WanStored(body: Record, k: string, taskId: string): JValue {
    if k == "source" then SourceOrDefault(WanValue(body, k, taskId)) else WanValue(body, k, taskId)
  }

  /** The fields handed to the WAN model. */
  function WanFields(body: Record, taskId: string): (r: Record)
    ensures forall k :: k in r <==> k in WanKeys && WanKept(body, k, taskId)
    ensures forall k :: k in r ==> r[k] == WanStored(body, k, taskId)
  {
    map k | k in WanKeys && WanKept(body, k, taskId) :: WanStored(body, k, taskId)
  }

  /** The WAN fields always carry a non-empty source, so the source never
      makes a WAN request incomplete; a body naming no model asks for "wan". */
  lemma WanSourcePresent(body: Record, taskId: string)
    ensures "source" in WanFields(body, taskId) && Truthy(WanFields(body, taskId)["source"])
    ensures "model" !in body ==> "model" in WanFields(body, taskId) && WanFields(body, taskId)["model"] == JStr("wan")
  {
    assert "source" in WanKeys && "model" in WanKeys;
  }

  /** The WAN filtering loop, over the fields in order. */
  method FilterWan(body: Record, taskId: string) returns (filtered: Record)
    ensures filtered == WanFields(body, taskId)
  {
    filtered := map[];
    for i := 0 to |WanKeys|
      invariant forall k :: k in filtered <==> k in WanKeys[..i] && WanKept(body, k, taskId)
      invariant forall k :: k in filtered ==> filtered[k] == WanStored(body, k, taskId)
    {
      var k := WanKeys[i];
      var v := WanValue(body, k, taskId);
      assert WanKeys[..i + 1] == WanKeys[..i] + [k];
      if k == "source" {
        filtered := filtered[k := SourceOrDefault(v)];
      } else if v != JNull || WanKeptWhenNone(k) {
        filtered := filtered[k := v];
      }
    }
    assert WanKeys[..|WanKeys|] == WanKeys;
  }

  /** The six fields a WAN request cannot do without. */
  predicate WanComplete(fields: Record) {
    RequestComplete(fields) && "source" in fields && Truthy(fields["source"])
  }

  /** A WAN request: None when the model rejects the filtered fields or one
      of the six required fields is empty. */
  method ExtractWanData(body: Record, taskId: string, accepts: Record -> bool) returns (r: Option<Record>)
    ensures r.Some? <==> accepts(WanFields(body, taskId)) && WanComplete(WanFields(body, taskId))
    ensures r.Some? ==> r.value == WanFields(body, taskId)
  {
    var fields := FilterWan(body, taskId);
    if !accepts(fields) || !WanComplete(fields) {
      return None;
    }
    return Some(fields);
  }

  /** Only the five fields of a generation request can make a WAN request
      incomplete. */
  lemma WanRejectsOnlyRequestFields(body: Record, taskId: string)
    ensures WanComplete(WanFields(body, taskId)) <==> RequestComplete(WanFields(body, taskId))
  {
    WanSourcePresent(body, taskId);
  }

  /** The summary of a prompt or revision request kept with a queued task:
      the text itself up to 100 characters, else its first 100 and "...". */
  function Summary(s: string): (r: string)
    ensures |s| <= 100 ==> r == s
    ensures |s| > 100 ==> |r| == 103 && r[..100] == s[..100] && EndsWith(r, "...")
  {
    if |s| > 100 then s[..100] + "..." else s
  }

  /** Summarising a summary changes nothing. */
  lemma SummaryIdempotent(s: string)
    ensures Summary(Summary(s)) == Summary(s)
  {
    if |s| > 100 {
      var r := Summary(s);
      assert r[..100] == s[..100];
    }
  }

  /** The processing counters. */
  const TotalRequests: string := "total_requests"
  const QueuedTasks: string := "queued_tasks"
  const ProcessingTasks: string := "processing_tasks"
  const CompletedTasks: string := "completed_tasks"
  const FailedTasks: string := "failed_tasks"
  const Counters: set<string> := {TotalRequests, QueuedTasks, ProcessingTasks, CompletedTasks, FailedTasks}

  /** A counter's value; a counter never incremented reads as 0. */
  function Counter(h: map<string, int>, k: string): int {
    if k in h then h[k] else 0
  }

  /** `HINCRBY h k delta`. */
  function Incr(h: map<string, int>, k: string, delta: int): (r: map<string, int>)
    ensures Counter(r, k) == Counter(h, k) + delta
    ensures forall j :: j != k ==> Counter(r, j) == Counter(h, j)
  {
    h[k := Counter(h, k) + delta]
  }

  /** The counters after one event: "queued" counts a new request and a
      queued task, "processing", "completed" and "failed" move one task
      between counters, anything else changes nothing. */
  function AfterEvent(h: map<string, int>, operation: string): (r: map<string, int>)
    ensures forall k :: k !in Counters ==> Counter(r, k) == Counter(h, k)
    ensures operation !in ["queued", "processing", "completed", "failed"] ==> r == h
  {
    if operation == "queued" then Incr(Incr(h, TotalRequests, 1), QueuedTasks, 1)
    else if operation == "processing" then Incr(Incr(h, QueuedTasks, -1), ProcessingTasks, 1)
    else if operation == "completed" then Incr(Incr(h, ProcessingTasks, -1), CompletedTasks, 1)
    else if operation == "failed" then Incr(Incr(h, ProcessingTasks, -1), FailedTasks, 1)
    else h
  }

  /** Every request counted is in exactly one of the four task counters. */
  predicate Balanced(h: map<string, int>) {
    Counter(h, TotalRequests) ==
      Counter(h, QueuedTasks) + Counter(h, ProcessingTasks) + Counter(h, CompletedTasks) + Counter(h, FailedTasks)
  }

  /** Every event keeps the counters balanced; only "queued" changes the
      request total. */
  lemma EventKeepsBalance(h: map<string, int>, operation: string)
    requires Balanced(h)
    ensures Balanced(AfterEvent(h, operation))
    ensures operation != "queued" ==> Counter(AfterEvent(h, operation), TotalRequests) == Counter(h, TotalRequests)
    ensures operation == "queued" ==> Counter(AfterEvent(h, operation), TotalRequests) == Counter(h, TotalRequests) + 1
  {
    var r := AfterEvent(h, operation);
    if operation == "queued" {
      assert r == Incr(Incr(h, TotalRequests, 1), QueuedTasks, 1);
    } else if operation == "processing" {
      assert r == Incr(Incr(h, QueuedTasks, -1), ProcessingTasks, 1);
    } else if operation == "completed" {
      assert r == Incr(Incr(h, ProcessingTasks, -1), CompletedTasks, 1);
    } else if operation == "failed" {
      assert r == Incr(Incr(h, ProcessingTasks, -1), FailedTasks, 1);
    } else {
      assert r == h;
    }
  }

  /** The statistics reply. */
  datatype ProcessingStats = ProcessingStats(totalRequests: int, queuedTasks: int, processingTasks: int, completedTasks: int, failedTasks: int)

  /** A task's stored fields, as the status reply shows them. */
  datatype TaskStatus =
    | NotFound
    | Found(status: string, createdAt: Option<string>, updatedAt: Option<string>, result: Option<JValue>, error: Option<string>)
    | StatusError

  function Lookup(h: map<string, string>, k: string): Option<string> {
    if k in h then Some(h[k]) else None
  }

  /** The status reply for a stored task hash: not found when the hash is
      empty; otherwise its status (default "unknown"), timestamps, error,
      and its result parsed only when present and non-empty. A result that
      does not parse makes the reply an error. */
  function TaskStatusOf(task: map<string, string>, loads: string -> Option<JValue>): (r: TaskStatus)
    ensures r.NotFound? <==> task == map[]
    ensures r.Found? ==> r.status == (if "status" in task then task["status"] else "unknown")
    ensures r.Found? ==> (r.result.Some? <==> "result" in task && task["result"] != "")
    ensures r.StatusError? ==> "result" in task && task["result"] != "" && loads(task["result"]).None?
  {
    if task == map[] then NotFound
    else
      var status := if "status" in task then task["status"] else "unknown";
      var parsed := if "result" in task && task["result"] != "" then loads(task["result"]) else None;
      if "result" in task && task["result"] != "" && parsed.None? then StatusError
      else Found(status, Lookup(task, "created_at"), Lookup(task, "updated_at"), parsed, Lookup(task, "error"))
  }

  /** The Redis hashes the front end keeps: the counters and one hash per
      task key. */
  class TaskRedis {
    var stats: map<string, int>
    var tasks: map<string, map<string, string>>

    predicate Valid()
      reads this
    {
      Balanced(stats)
    }

    constructor()
      ensures Valid()
      ensures stats == map[] && tasks == map[]
    {
      stats := map[];
      tasks := map[];
    }

    /** `_update_stats(operation)`. */
    method UpdateStats(operation: string)
      requires Valid()
      modifies this
      ensures Valid()
      ensures tasks == old(tasks)
      ensures stats == AfterEvent(old(stats), operation)
    {
      EventKeepsBalance(stats, operation);
      if operation == "queued" {
        stats := Incr(stats, TotalRequests, 1);
        stats := Incr(stats, QueuedTasks, 1);
      } else if operation == "processing" {
        stats := Incr(stats, QueuedTasks, -1);
        stats := Incr(stats, ProcessingTasks, 1);
      } else if operation == "completed" {
        stats := Incr(stats, ProcessingTasks, -1);
        stats := Incr(stats, CompletedTasks, 1);
      } else if operation == "failed" {
        stats := Incr(stats, ProcessingTasks, -1);
        stats := Incr(stats, FailedTasks, 1);
      }
    }

    /** The statistics reply: each counter, 0 when never incremented. */
    function ProcessingStatsOf(): (s: ProcessingStats)
      reads this
      ensures Valid() ==> s.totalRequests == s.queuedTasks + s.processingTasks + s.completedTasks + s.failedTasks
    {
      ProcessingStats(Counter(stats, TotalRequests), Counter(stats, QueuedTasks), Counter(stats, ProcessingTasks),
                      Counter(stats, CompletedTasks), Counter(stats, FailedTasks))
    }

    /** `get_task_status(task_id)`: the hash under "task:" + id. */
    function GetTaskStatus(taskId: string, loads: string -> Option<JValue>): (r: TaskStatus)
      reads this
      ensures ("task:" + taskId) !in tasks ==> r == NotFound
    {
      var key := "task:" + taskId;
      TaskStatusOf(if key in tasks then tasks[key] else map[], loads)
    }
  }
}
