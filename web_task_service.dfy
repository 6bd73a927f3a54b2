/**
 * The static task service of the client (frontend/src/services/task_service.ts):
 * the same six calls as the API client's task methods, but under `/api`, and
 * with the completion flag sent as a query parameter instead of a body.
 */
module WebTaskService {
  import opened Strings
  import opened WebApiClient
  import opened WebEndpoints

  /** `String(completed)`. */
  function BoolText(b: bool): string {
    if b then "true" else "false"
  }

  /** The spellings pydantic reads as `True` and as `False`, once lower-cased. */
  const TrueSpellings: set<string> := {"1", "on", "t", "true", "y", "yes"}
  const FalseSpellings: set<string> := {"0", "off", "f", "false", "n", "no"}

  /**
   * How the server reads the boolean `completed` query parameter: pydantic
   * compares the text with its spellings ignoring ASCII case, and refuses
   * anything else (a 422).
   */
  function ParseBool(v: string): (r: Wrappers.Option<bool>)
    ensures r == Wrappers.Some(true) <==> exists w :: w in TrueSpellings && EqIgnoringAsciiCase(v, w)
    ensures r == Wrappers.Some(false) <==> exists w :: w in FalseSpellings && EqIgnoringAsciiCase(v, w)
  {
    SpellingsMatchIgnoringCase(v);
    var l := AsciiLowerString(v);
    if l in TrueSpellings then Wrappers.Some(true)
    else if l in FalseSpellings then Wrappers.Some(false)
    else Wrappers.None
  }

  lemma SpellingsMatchIgnoringCase(v: string)
    ensures AsciiLowerString(v) in TrueSpellings <==> exists w :: w in TrueSpellings && EqIgnoringAsciiCase(v, w)
    ensures AsciiLowerString(v) in FalseSpellings <==> exists w :: w in FalseSpellings && EqIgnoringAsciiCase(v, w)
  {
    LowerInIgnoringCase(v, TrueSpellings);
    LowerInIgnoringCase(v, FalseSpellings);
  }

  /** Capitals make no difference to the flag the server reads. */
  lemma ParseBoolIgnoresCase(v: string)
    ensures ParseBool(v) == ParseBool(AsciiLowerString(v))
  {
    AsciiLowerStringIdempotent(v);
  }

  /** The request each of the service's methods sends through the API client. */
  function ServiceRequest(call: TaskCall): Request {
    match call
    case GetTasks => NewRequest("GET", "/api/tasks", map[])
    case GetTaskById(id) => NewRequest("GET", "/api/tasks/" + id, map[])
    case CreateTask(fields) => NewRequest("POST", "/api/tasks", fields)
    case UpdateTask(id, fields) => NewRequest("PUT", "/api/tasks/" + id, fields)
    case DeleteTask(id) => NewRequest("DELETE", "/api/tasks/" + id, map[])
    case CompleteTask(id, completed) =>
      NewRequest("PATCH", "/api/tasks/" + id + "/complete?completed=" + BoolText(completed), map[])
  }

  /**
   * The service and the API client address the same resource for every call,
   * the service under `/api`: apart from completion, whose flag moves from
   * the body into the query, the requests differ only in that prefix.
   */
  lemma ServiceMirrorsClient(call: TaskCall)
    ensures var s := ServiceRequest(call);
      var c := TaskCallRequest(call);
      s.verb == c.verb && s.headers == c.headers &&
      (!call.CompleteTask? ==> s.url == "/api" + c.url && s.body == c.body) &&
      (call.CompleteTask? ==> s.url == "/api" + c.url + "?completed=" + BoolText(call.completed) && s.body == map[])
  {
    match call
    case GetTasks =>
    case GetTaskById(id) => TaskUrlUnderApi(id);
    case CreateTask(_) =>
    case UpdateTask(id, _) => TaskUrlUnderApi(id);
    case DeleteTask(id) => TaskUrlUnderApi(id);
    case CompleteTask(id, completed) => CompletionUrlUnderApi(id, BoolText(completed));
  }

  lemma TaskUrlUnderApi(id: string)
    ensures "/api/tasks/" + id == "/api" + ("/tasks/" + id)
  {
  }

  lemma CompletionUrlUnderApi(id: string, flag: string)
    ensures "/api/tasks/" + id + "/complete?completed=" + flag == "/api" + ("/tasks/" + id + "/complete") + "?completed=" + flag
  {
  }

  /**
   * The catalogue's paths are the API client's: the id-taking entries of
   * `TASK_ENDPOINTS` give exactly the URLs the client's task calls use.
   */
  lemma CatalogueMatchesClient(id: string, fields: map<string, Json>, completed: bool)
    ensures TaskPath(TaskOperation.GetAllTasks, "") == TaskCallRequest(GetTasks).url
    ensures TaskPath(TaskOperation.CreateTask, "") == TaskCallRequest(TaskCall.CreateTask(fields)).url
    ensures TaskPath(TaskOperation.GetTaskById, id) == TaskCallRequest(TaskCall.GetTaskById(id)).url
    ensures TaskPath(TaskOperation.UpdateTask, id) == TaskCallRequest(TaskCall.UpdateTask(id, fields)).url
    ensures TaskPath(TaskOperation.DeleteTask, id) == TaskCallRequest(TaskCall.DeleteTask(id)).url
    ensures TaskPath(TaskOperation.CompleteTask, id) == TaskCallRequest(TaskCall.CompleteTask(id, completed)).url
  {
  }

  /** The completion query is read back by the server as the flag that was sent. */
  lemma CompletionQueryRoundTrip(id: string, completed: bool)
    ensures var url := ServiceRequest(TaskCall.CompleteTask(id, completed)).url;
      var prefix := "/api/tasks/" + id + "/complete?completed=";
      StartsWith(url, prefix) && ParseBool(url[|prefix|..]) == Wrappers.Some(completed)
  {
    var url := ServiceRequest(TaskCall.CompleteTask(id, completed)).url;
    var prefix := "/api/tasks/" + id + "/complete?completed=";
    assert url == prefix + BoolText(completed);
    assert url[|prefix|..] == BoolText(completed);
  }
}
