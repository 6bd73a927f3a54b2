/**
 * The server's task models (backend/src/models/task.py): the two enums, the
 * constraints and defaults `TaskBase` imposes on a request body, the stored
 * row, and the partial update the service applies field by field.
 */
module ServerTaskModels {
  import opened Wrappers
  import opened Uuids
  import opened ServerUserModels

  datatype TaskStatus = Pending | InProgress | Completed {
    /** The enum's string value, the form it takes in JSON. */
    function Value(): string {
      match this
      case Pending => "pending"
      case InProgress => "in_progress"
      case Completed => "completed"
    }
  }

  datatype TaskPriority = Low | Medium | High | Urgent {
    function Value(): string {
      match this
      case Low => "low"
      case Medium => "medium"
      case High => "high"
      case Urgent => "urgent"
    }
  }

  /** Pydantic's check of a JSON string against `TaskStatus`. */
  function ParseStatus(s: string): (r: Option<TaskStatus>)
    ensures r.Some? <==> s in {"pending", "in_progress", "completed"}
    ensures r.Some? ==> r.value.Value() == s
  {
    if s == "pending" then Some(Pending)
    else if s == "in_progress" then Some(InProgress)
    else if s == "completed" then Some(Completed)
    else None
  }

  /** Pydantic's check of a JSON string against `TaskPriority`. */
  function ParsePriority(s: string): (r: Option<TaskPriority>)
    ensures r.Some? <==> s in {"low", "medium", "high", "urgent"}
    ensures r.Some? ==> r.value.Value() == s
  {
    if s == "low" then Some(Low)
    else if s == "medium" then Some(Medium)
    else if s == "high" then Some(High)
    else if s == "urgent" then Some(Urgent)
    else None
  }

  const MaxTitle := 200
  const MaxDescription := 1000

  /** `min_length=1, max_length=200`, counted in code points as Python counts a `str`. */
  predicate TitleOk(title: string) {
    1 <= |title| <= MaxTitle
  }

  predicate DescriptionOk(description: Option<string>) {
    description.Some? ==> |description.value| <= MaxDescription
  }

  /** A TaskCreate body as it arrives: a field left out (or, for the nullable ones, sent as null) is None. */
  datatype TaskCreateBody = TaskCreateBody(
    title: Option<string>, description: Option<string>, status: Option<string>,
    priority: Option<string>, dueDate: Option<Timestamp>, completedAt: Option<Timestamp>)

  /**
   * A `TaskCreate` instance. Pydantic validates it when it is built, so an
   * instance always satisfies `Valid`.
   */
  datatype TaskCreate = TaskCreate(
    title: string, description: Option<string>, status: TaskStatus, priority: TaskPriority,
    dueDate: Option<Timestamp>, completedAt: Option<Timestamp>)
  {
    predicate Valid() {
      TitleOk(title) && DescriptionOk(description)
    }
  }

  /**
   * Pydantic's validation of a TaskCreate body, which FastAPI answers with
   * 422 when it fails; the failure names the first field in error.
   */
  function ParseTaskCreate(b: TaskCreateBody): (r: Result<TaskCreate>)
    ensures r.Success? <==>
      b.title.Some? && TitleOk(b.title.value) && DescriptionOk(b.description) &&
      (b.status.Some? ==> ParseStatus(b.status.value).Some?) &&
      (b.priority.Some? ==> ParsePriority(b.priority.value).Some?)
    ensures r.Success? ==>
      var c := r.value;
      c.Valid() &&
      c.title == b.title.value && c.description == b.description &&
      c.dueDate == b.dueDate && c.completedAt == b.completedAt
    ensures r.Success? ==>
      (b.status.None? ==> r.value.status == Pending) &&
      (b.status.Some? ==> r.value.status.Value() == b.status.value)
    ensures r.Success? ==>
      (b.priority.None? ==> r.value.priority == Medium) &&
      (b.priority.Some? ==> r.value.priority.Value() == b.priority.value)
  {
    if b.title.None? || !TitleOk(b.title.value) then Failure("title")
    else if !DescriptionOk(b.description) then Failure("description")
    else
      var status := if b.status.Some? then ParseStatus(b.status.value) else Some(Pending);
      var priority := if b.priority.Some? then ParsePriority(b.priority.value) else Some(Medium);
      if status.None? then Failure("status")
      else if priority.None? then Failure("priority")
      else Success(TaskCreate(b.title.value, b.description, status.value, priority.value, b.dueDate, b.completedAt))
  }

  /**
   * A row of the `task` table. `TaskPublic` has the same fields, so it is
   * this type too, but building one validates them again (`PublicValid`).
   */
  datatype Task = Task(
    id: Uuid, userId: Uuid, title: string, description: Option<string>, status: TaskStatus,
    priority: TaskPriority, dueDate: Option<Timestamp>, completedAt: Option<Timestamp>,
    createdAt: Timestamp, updatedAt: Timestamp)

  /**
   * `TaskPublic(...)` built from a row succeeds exactly when this holds:
   * `TaskPublic` is not a table model, so it enforces `TaskBase`'s title and
   * description bounds, and raises `ValidationError` otherwise.
   */
  predicate PublicValid(t: Task) {
    TitleOk(t.title) && DescriptionOk(t.description)
  }

  /** The message of that `ValidationError`, up to the details pydantic adds. */
  const TaskPublicInvalid := "validation error for TaskPublic"

  /**
   * `Task(**task_data)` with `user_id` added: the create fields, a fresh id,
   * the owner, and both timestamps set to the creation time.
   */
  function NewTask(c: TaskCreate, id: Uuid, owner: Uuid, now: Timestamp): (t: Task)
    ensures t.id == id && t.userId == owner && t.createdAt == now && t.updatedAt == now
    ensures t.title == c.title && t.description == c.description && t.status == c.status &&
      t.priority == c.priority && t.dueDate == c.dueDate && t.completedAt == c.completedAt
    ensures PublicValid(t) <==> c.Valid()
  {
    Task(id, owner, c.title, c.description, c.status, c.priority, c.dueDate, c.completedAt, now, now)
  }

  /** A TaskUpdate body after validation: every field optional and nullable, with no length bounds of its own; `TaskPublic` checks them only after the commit. */
  datatype TaskUpdate = TaskUpdate(
    title: Patch<Option<string>>, description: Patch<Option<string>>,
    status: Patch<Option<TaskStatus>>, priority: Patch<Option<TaskPriority>>,
    dueDate: Patch<Option<Timestamp>>, completedAt: Patch<Option<Timestamp>>)

  /** A TaskUpdate body as it arrives, with the enum fields still strings. */
  datatype TaskUpdateBody = TaskUpdateBody(
    title: Patch<Option<string>>, description: Patch<Option<string>>,
    status: Patch<Option<string>>, priority: Patch<Option<string>>,
    dueDate: Patch<Option<Timestamp>>, completedAt: Patch<Option<Timestamp>>)

  function ParseEnumPatch<E>(p: Patch<Option<string>>, parse: string -> Option<E>): Option<Patch<Option<E>>> {
    match p
    case Unset => Some(Unset)
    case Set(None) => Some(Set(None))
    case Set(Some(s)) => if parse(s).Some? then Some(Set(Some(parse(s).value))) else None
  }

  /**
   * Pydantic's validation of a TaskUpdate body: only the enum values are
   * checked, so an empty or over-long title, or an explicit null, gets through.
   */
  function ParseTaskUpdate(b: TaskUpdateBody): (r: Result<TaskUpdate>)
    ensures r.Success? <==>
      (b.status.Set? && b.status.value.Some? ==> ParseStatus(b.status.value.value).Some?) &&
      (b.priority.Set? && b.priority.value.Some? ==> ParsePriority(b.priority.value.value).Some?)
    ensures r.Success? ==>
      r.value.title == b.title && r.value.description == b.description &&
      r.value.dueDate == b.dueDate && r.value.completedAt == b.completedAt &&
      r.value.status.Set? == b.status.Set? && r.value.priority.Set? == b.priority.Set?
  {
    var status := ParseEnumPatch(b.status, ParseStatus);
    var priority := ParseEnumPatch(b.priority, ParsePriority);
    if status.None? then Failure("status")
    else if priority.None? then Failure("priority")
    else Success(TaskUpdate(b.title, b.description, status.value, priority.value, b.dueDate, b.completedAt))
  }

  /** The columns an update may write, as Python attributes: each can be set to None. */
  datatype Columns = Columns(
    title: Option<string>, description: Option<string>, status: Option<TaskStatus>,
    priority: Option<TaskPriority>, dueDate: Option<Timestamp>, completedAt: Option<Timestamp>)

  function ColumnsOf(t: Task): Columns {
    Columns(Some(t.title), t.description, Some(t.status), Some(t.priority), t.dueDate, t.completedAt)
  }

  /**
   * The row after its columns were written; None when a NOT NULL column
   * (title, status, priority) holds None, which the commit refuses.
   */
  function WithColumns(t: Task, c: Columns): (r: Option<Task>)
    ensures r.Some? <==> c.title.Some? && c.status.Some? && c.priority.Some?
    ensures r.Some? ==>
      ColumnsOf(r.value) == c && r.value.id == t.id && r.value.userId == t.userId &&
      r.value.createdAt == t.createdAt && r.value.updatedAt == t.updatedAt
    ensures c == ColumnsOf(t) ==> r == Some(t)
  {
    if c.title.Some? && c.status.Some? && c.priority.Some? then
      Some(t.(title := c.title.value, description := c.description, status := c.status.value,
              priority := c.priority.value, dueDate := c.dueDate, completedAt := c.completedAt))
    else None
  }

  /** One entry of `task_update.model_dump(exclude_unset=True)`. */
  datatype FieldValue =
    | TitleValue(title: Option<string>)
    | DescriptionValue(description: Option<string>)
    | StatusValue(status: Option<TaskStatus>)
    | PriorityValue(priority: Option<TaskPriority>)
    | DueDateValue(dueDate: Option<Timestamp>)
    | CompletedAtValue(completedAt: Option<Timestamp>)

  /** The fields the client sent, in declaration order. */
  function UpdateData(u: TaskUpdate): seq<FieldValue> {
    (if u.title.Set? then [TitleValue(u.title.value)] else []) +
    (if u.description.Set? then [DescriptionValue(u.description.value)] else []) +
    (if u.status.Set? then [StatusValue(u.status.value)] else []) +
    (if u.priority.Set? then [PriorityValue(u.priority.value)] else []) +
    (if u.dueDate.Set? then [DueDateValue(u.dueDate.value)] else []) +
    (if u.completedAt.Set? then [CompletedAtValue(u.completedAt.value)] else [])
  }

  /** `setattr(task, field, value)`. */
  function SetAttr(c: Columns, f: FieldValue): Columns {
    match f
    case TitleValue(v) => c.(title := v)
    case DescriptionValue(v) => c.(description := v)
    case StatusValue(v) => c.(status := v)
    case PriorityValue(v) => c.(priority := v)
    case DueDateValue(v) => c.(dueDate := v)
    case CompletedAtValue(v) => c.(completedAt := v)
  }

  /** The `setattr` loop over a prefix of the update data. */
  function SetAll(c: Columns, data: seq<FieldValue>): Columns
    decreases |data|
  {
    if data == [] then c else SetAttr(SetAll(c, data[..|data| - 1]), data[|data| - 1])
  }

  /** The reference meaning of a partial update: a sent field replaces the column, the others stay. */
  function Patched(c: Columns, u: TaskUpdate): Columns {
    Columns(
      if u.title.Set? then u.title.value else c.title,
      if u.description.Set? then u.description.value else c.description,
      if u.status.Set? then u.status.value else c.status,
      if u.priority.Set? then u.priority.value else c.priority,
      if u.dueDate.Set? then u.dueDate.value else c.dueDate,
      if u.completedAt.Set? then u.completedAt.value else c.completedAt)
  }

  lemma {:induction false} SetAllAppend(c: Columns, a: seq<FieldValue>, b: seq<FieldValue>)
    ensures SetAll(c, a + b) == SetAll(SetAll(c, a), b)
    decreases |b|
  {
    if b == [] {
      assert a + b == a;
    } else {
      assert (a + b)[..|a + b| - 1] == a + b[..|b| - 1];
      SetAllAppend(c, a, b[..|b| - 1]);
    }
  }

  /** Writing a one-field prefix of the update data, field by field. */
  lemma SetAllSingle(c: Columns, data: seq<FieldValue>)
    requires |data| <= 1
    ensures SetAll(c, data) == if data == [] then c else SetAttr(c, data[0])
  {
    if |data| == 1 {
      assert data[..0] == [];
    }
  }

  /** Six runs of the loop one after the other are one run over their concatenation. */
  lemma SetAllChain(c: Columns, d1: seq<FieldValue>, d2: seq<FieldValue>, d3: seq<FieldValue>,
                    d4: seq<FieldValue>, d5: seq<FieldValue>, d6: seq<FieldValue>)
    ensures SetAll(c, d1 + d2 + d3 + d4 + d5 + d6) ==
      SetAll(SetAll(SetAll(SetAll(SetAll(SetAll(c, d1), d2), d3), d4), d5), d6)
  {
    SetAllAppend(c, d1, d2);
    SetAllAppend(c, d1 + d2, d3);
    SetAllAppend(c, d1 + d2 + d3, d4);
    SetAllAppend(c, d1 + d2 + d3 + d4, d5);
    SetAllAppend(c, d1 + d2 + d3 + d4 + d5, d6);
  }

  /** The `setattr` loop changes exactly the fields that were sent, and nothing else. */
  lemma SetAllIsPatched(c: Columns, u: TaskUpdate)
    ensures SetAll(c, UpdateData(u)) == Patched(c, u)
  {
    var d1 := if u.title.Set? then [TitleValue(u.title.value)] else [];
    var d2 := if u.description.Set? then [DescriptionValue(u.description.value)] else [];
    var d3 := if u.status.Set? then [StatusValue(u.status.value)] else [];
    var d4 := if u.priority.Set? then [PriorityValue(u.priority.value)] else [];
    var d5 := if u.dueDate.Set? then [DueDateValue(u.dueDate.value)] else [];
    var d6 := if u.completedAt.Set? then [CompletedAtValue(u.completedAt.value)] else [];
    SetAllChain(c, d1, d2, d3, d4, d5, d6);
    var c1 := SetAll(c, d1);
    SetAllSingle(c, d1);
    var c2 := SetAll(c1, d2);
    SetAllSingle(c1, d2);
    var c3 := SetAll(c2, d3);
    SetAllSingle(c2, d3);
    var c4 := SetAll(c3, d4);
    SetAllSingle(c3, d4);
    var c5 := SetAll(c4, d5);
    SetAllSingle(c4, d5);
    SetAllSingle(c5, d6);
  }
}
