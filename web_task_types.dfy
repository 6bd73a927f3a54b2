/**
 * The client's task shapes (frontend/src/types/task.ts): the zod schemas
 * `TaskSchema`, `TaskCreateSchema` and `TaskUpdateSchema`, as predicates on
 * the values they describe. Zod's ISO date-time check is the parameter
 * `isDatetime`.
 */
module WebTaskTypes {
  import opened Wrappers
  import opened Unicode
  import Uuids

  const Statuses: set<string> := {"pending", "in_progress", "completed"}
  const Priorities: set<string> := {"low", "medium", "high", "urgent"}
  const DefaultStatus := "pending"
  const DefaultPriority := "medium"
  const MaxTitle := 200
  const MaxDescription := 1000

  /** A field that is `.optional().nullable()`: missing, `null`, or a value. */
  datatype Nullable<+T> = Absent | Null | Present(value: T)

  /** A task as the client holds it. */
  datatype Task = Task(
    id: Option<string>, title: string, description: Option<string>,
    status: Option<string>, priority: Option<string>,
    dueDate: Nullable<string>, completedAt: Nullable<string>,
    userId: string, createdAt: Option<string>, updatedAt: Option<string>)

  datatype TaskCreate = TaskCreate(title: string, description: Option<string>, priority: Option<string>, dueDate: Nullable<string>)

  datatype TaskUpdate = TaskUpdate(
    title: Option<string>, description: Option<string>, status: Option<string>, priority: Option<string>,
    dueDate: Nullable<string>, completedAt: Nullable<string>)

  /**
   * zod's `.uuid()`: 36 characters, hyphens at positions 8, 13, 18 and 23,
   * hexadecimal digits of either case everywhere else.
   */
  predicate IsZodUuid(s: string) {
    |s| == 36 && forall i :: 0 <= i < 36 ==> UuidCharOk(s, i)
  }

  predicate UuidCharOk(s: string, i: int)
    requires 0 <= i < |s|
  {
    if i == 8 || i == 13 || i == 18 || i == 23 then s[i] == '-' else Uuids.IsHexDigit(s[i])
  }

  /** `min(1).max(200)` on a title, counted in UTF-16 units as zod does. */
  predicate TitleOk(title: string) {
    1 <= Utf16Length(title) <= MaxTitle
  }

  predicate DescriptionOk(description: Option<string>) {
    description.Some? ==> Utf16Length(description.value) <= MaxDescription
  }

  predicate DatetimeOk(d: Nullable<string>, isDatetime: string -> bool) {
    d.Present? ==> isDatetime(d.value)
  }

  predicate EnumOk(v: Option<string>, values: set<string>) {
    v.Some? ==> v.value in values
  }

  /** `TaskSchema`. A missing status or priority is allowed: the schema fills in its default. */
  predicate TaskValid(t: Task, isDatetime: string -> bool) {
    (t.id.Some? ==> IsZodUuid(t.id.value)) && TitleOk(t.title) &&
    EnumOk(t.status, Statuses) && EnumOk(t.priority, Priorities) &&
    DatetimeOk(t.dueDate, isDatetime) && DatetimeOk(t.completedAt, isDatetime) &&
    IsZodUuid(t.userId) &&
    (t.createdAt.Some? ==> isDatetime(t.createdAt.value)) && (t.updatedAt.Some? ==> isDatetime(t.updatedAt.value))
  }

  /** The defaults `TaskSchema` fills in. */
  function WithDefaults(t: Task): (r: Task)
    ensures r.status.Some? && r.priority.Some?
    ensures t.status.Some? ==> r.status == t.status
    ensures t.priority.Some? ==> r.priority == t.priority
    ensures r.(status := t.status, priority := t.priority) == t
  {
    t.(status := Some(t.status.GetOr(DefaultStatus)), priority := Some(t.priority.GetOr(DefaultPriority)))
  }

  /** Filling in the defaults keeps a valid task valid, and it is idempotent. */
  lemma DefaultsPreserveValidity(t: Task, isDatetime: string -> bool)
    requires TaskValid(t, isDatetime)
    ensures TaskValid(WithDefaults(t), isDatetime)
    ensures WithDefaults(WithDefaults(t)) == WithDefaults(t)
  {
  }

  /** `TaskCreateSchema`. */
  predicate TaskCreateValid(c: TaskCreate, isDatetime: string -> bool) {
    TitleOk(c.title) && DescriptionOk(c.description) && EnumOk(c.priority, Priorities) &&
    DatetimeOk(c.dueDate, isDatetime)
  }

  /** `TaskUpdateSchema`: every field optional, each checked when present. */
  predicate TaskUpdateValid(u: TaskUpdate, isDatetime: string -> bool) {
    (u.title.Some? ==> TitleOk(u.title.value)) && DescriptionOk(u.description) &&
    EnumOk(u.status, Statuses) && EnumOk(u.priority, Priorities) &&
    DatetimeOk(u.dueDate, isDatetime) && DatetimeOk(u.completedAt, isDatetime)
  }

  /** The ids the server writes (`str(uuid)`) pass the client's `.uuid()` check. */
  lemma ServerIdsAreZodUuids(u: Uuids.Uuid)
    ensures IsZodUuid(Uuids.ToString(u))
  {
    var s := Uuids.ToString(u);
    assert |s| == 36;
    forall i | 0 <= i < 36
      ensures UuidCharOk(s, i)
    {
      if i < 8 { assert s[i] == u[i]; }
      else if 8 < i < 13 { assert s[i] == u[i - 1]; }
      else if 13 < i < 18 { assert s[i] == u[i - 2]; }
      else if 18 < i < 23 { assert s[i] == u[i - 3]; }
      else if 23 < i { assert s[i] == u[i - 4]; }
    }
  }
}
