/**
 * The task-creation form (frontend/src/components/tasks/task-form.tsx): its
 * field checks, the payload it sends through the task service, and the reset
 * after a successful creation. `toIso` stands for `new Date(d).toISOString()`,
 * `None` being the `RangeError` it throws for an unparsable date.
 */
module WebTaskForm {
  import opened Wrappers
  import opened Strings
  import opened Js
  import opened Unicode
  import opened WebApiClient
  import opened WebTaskService
  import opened WebTaskTypes

  const TitleRequired := "Title is required"
  const TitleTooLong := "Title must be less than 200 characters"
  const DescriptionTooLong := "Description must be less than 1000 characters"
  const SubmitFallback := "Failed to create task"

  /** `validateForm`: the error of each field that fails, keyed by field. */
  function ValidateTaskForm(title: string, description: string): map<string, string> {
    var titleErrors :=
      if Trim(title) == "" then map["title" := TitleRequired]
      else if Utf16Length(title) > MaxTitle then map["title" := TitleTooLong]
      else map[];
    if Utf16Length(description) > MaxDescription then titleErrors["description" := DescriptionTooLong]
    else titleErrors
  }

  /**
   * Each field is reported exactly when its rule fails, and the form passes
   * exactly when the title has a non-space character and neither length limit
   * is exceeded. The length limits apply to the untrimmed text.
   */
  lemma ValidateTaskFormCases(title: string, description: string)
    ensures var e := ValidateTaskForm(title, description);
      ("title" in e <==> Trim(title) == "" || Utf16Length(title) > MaxTitle) &&
      ("title" in e ==> e["title"] == (if Trim(title) == "" then TitleRequired else TitleTooLong)) &&
      ("description" in e <==> Utf16Length(description) > MaxDescription) &&
      ("description" in e ==> e["description"] == DescriptionTooLong) &&
      (e == map[] <==> Trim(title) != "" && Utf16Length(title) <= MaxTitle && Utf16Length(description) <= MaxDescription)
  {
    var e := ValidateTaskForm(title, description);
    if e == map[] {
      assert "title" !in e && "description" !in e;
    }
  }

  /** The payload: trimmed title and description, the priority, and a converted due date when one was entered. */
  function Payload(title: string, description: string, priority: string, dueDate: string,
                   toIso: string -> Option<string>): Option<TaskCreate>
  {
    if dueDate == "" then Some(TaskCreate(Trim(title), Some(Trim(description)), Some(priority), Absent))
    else if toIso(dueDate).None? then None
    else Some(TaskCreate(Trim(title), Some(Trim(description)), Some(priority), Present(toIso(dueDate).value)))
  }

  /** The JSON object sent; `due_date` is left out when no date was entered. */
  function PayloadFields(c: TaskCreate): map<string, Json> {
    var fields := map["title" := JText(c.title), "description" := JText(c.description.GetOr("")),
                      "priority" := JText(c.priority.GetOr(DefaultPriority))];
    if c.dueDate.Present? then fields["due_date" := JText(c.dueDate.value)] else fields
  }

  /** Trimming never lengthens a string. */
  lemma TrimShortens(s: string)
    ensures Utf16Length(Trim(s)) <= Utf16Length(s)
  {
    TrimStartShortens(s);
    TrimEndShortens(TrimStart(s));
  }

  lemma TrimStartShortens(s: string)
    ensures Utf16Length(TrimStart(s)) <= Utf16Length(s)
  {
    var t := TrimStart(s);
    assert s == s[..|s| - |t|] + t;
    Utf16LengthAppend(s[..|s| - |t|], t);
  }

  lemma TrimEndShortens(t: string)
    ensures Utf16Length(TrimEnd(t)) <= Utf16Length(t)
  {
    var r := TrimEnd(t);
    assert t == r + t[|r|..];
    Utf16LengthAppend(r, t[|r|..]);
  }

  /**
   * Whatever the form lets through satisfies `TaskCreateSchema`, given a
   * priority from the form's menu and a date conversion that yields ISO
   * date-times.
   */
  lemma AcceptedFormMeetsSchema(title: string, description: string, priority: string, dueDate: string,
                                toIso: string -> Option<string>, isDatetime: string -> bool)
    requires ValidateTaskForm(title, description) == map[]
    requires priority in Priorities
    requires toIso(dueDate).Some? ==> isDatetime(toIso(dueDate).value)
    requires Payload(title, description, priority, dueDate, toIso).Some?
    ensures TaskCreateValid(Payload(title, description, priority, dueDate, toIso).value, isDatetime)
  {
    ValidateTaskFormCases(title, description);
    TrimShortens(title);
    TrimShortens(description);
    var t := Trim(title);
    Utf16LengthBounds(t);
  }

  class TaskForm {
    var title: string
    var description: string
    var priority: string
    var dueDate: string
    var loading: bool
    var errors: map<string, string>
    /** The tasks handed to `onTaskCreated`, in order. */
    var created: seq<Task>

    constructor ()
      ensures title == "" && description == "" && priority == DefaultPriority && dueDate == ""
      ensures !loading && errors == map[] && created == []
    {
      title := "";
      description := "";
      priority := DefaultPriority;
      dueDate := "";
      loading := false;
      errors := map[];
      created := [];
    }

    /**
     * `handleSubmit`: a rejected form only shows its errors; an accepted one
     * is posted, and on success the form is reset and the parent notified.
     */
    method HandleSubmit(toIso: string -> Option<string>, answer: CallResult<Task>) returns (request: Option<Request>)
      modifies this
      ensures ValidateTaskForm(old(title), old(description)) != map[] ==>
        loading == old(loading) && request == None && errors == ValidateTaskForm(old(title), old(description)) &&
        title == old(title) && description == old(description) && priority == old(priority) &&
        dueDate == old(dueDate) && created == old(created)
      ensures ValidateTaskForm(old(title), old(description)) == map[] ==>
        !loading &&
        var payload := Payload(old(title), old(description), old(priority), old(dueDate), toIso);
        request == (if payload.Some? then Some(ServiceRequest(TaskCall.CreateTask(PayloadFields(payload.value)))) else None) &&
        (payload.Some? && answer.Responded? ==>
          title == "" && description == "" && priority == DefaultPriority && dueDate == "" &&
          errors == map[] && created == old(created) + [answer.data]) &&
        (!(payload.Some? && answer.Responded?) ==>
          title == old(title) && description == old(description) && priority == old(priority) &&
          dueDate == old(dueDate) && created == old(created) &&
          errors == map["submit" := SubmitError(payload, answer)])
    {
      request := None;
      var invalid := ValidateTaskForm(title, description);
      errors := invalid;
      if invalid != map[] {
        return;
      }
      request := Submit(Payload(title, description, priority, dueDate, toIso), answer);
    }

    /**
     * Posting an accepted form, with `loading` set for the duration: nothing
     * is sent when the date does not convert; otherwise a created task resets
     * the form and reaches the parent, and a failure shows its message.
     */
    method Submit(payload: Option<TaskCreate>, answer: CallResult<Task>) returns (request: Option<Request>)
      modifies this
      ensures !loading
      ensures request == (if payload.Some? then Some(ServiceRequest(TaskCall.CreateTask(PayloadFields(payload.value)))) else None)
      ensures payload.Some? && answer.Responded? ==>
        title == "" && description == "" && priority == DefaultPriority && dueDate == "" &&
        errors == map[] && created == old(created) + [answer.data]
      ensures !(payload.Some? && answer.Responded?) ==>
        title == old(title) && description == old(description) && priority == old(priority) &&
        dueDate == old(dueDate) && created == old(created) &&
        errors == map["submit" := SubmitError(payload, answer)]
    {
      loading := true;
      request := None;
      if payload.None? {
        errors := map["submit" := SubmitFallback];
      } else {
        request := Some(ServiceRequest(TaskCall.CreateTask(PayloadFields(payload.value))));
        match answer {
        case Responded(task) =>
          title := "";
          description := "";
          priority := DefaultPriority;
          dueDate := "";
          errors := map[];
          created := created + [task];
        case Failed(f) =>
          errors := map["submit" := SubmitError(payload, answer)];
        }
      }
      loading := false;
    }
  }

  /** The message shown when creation fails: the server's `detail`, else the fallback. */
  function SubmitError(payload: Option<TaskCreate>, answer: CallResult<Task>): (r: string)
    ensures r != ""
  {
    if payload.Some? && answer.Failed? && answer.failure.AxiosFailure? then Or(answer.failure.detail, SubmitFallback)
    else SubmitFallback
  }
}
