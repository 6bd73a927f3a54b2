/**
 * Tasks (backend/src/services/task_service.py): every operation validates
 * the ids it is given, reaches a row only through the pair (task id, owner
 * id), and so never reads or writes another user's task.
 */
module ServerTaskService {
  import opened Wrappers
  import opened Uuids
  import opened ServerHttp
  import opened ServerUserModels
  import opened ServerTaskModels
  import opened ServerDb

  const InvalidUserIdFormat := "Invalid user ID format"
  const InvalidIdFormat := "Invalid ID format"
  const UserNotFoundDetail := "User not found"
  const UserDeactivatedDetail := "User account is deactivated"

  /** The rows of `tasks` owned by `owner`, in table order: `select(Task).where(Task.user_id == owner).all()`. */
  function OwnedBy(tasks: seq<Task>, owner: Uuid): (r: seq<Task>)
    ensures |r| <= |tasks|
    decreases |tasks|
  {
    if tasks == [] then []
    else
      var last := tasks[|tasks| - 1];
      OwnedBy(tasks[..|tasks| - 1], owner) + if last.userId == owner then [last] else []
  }

  /** A user's list holds exactly that user's rows. */
  lemma {:induction false} OwnedByMembership(tasks: seq<Task>, owner: Uuid, t: Task)
    ensures t in OwnedBy(tasks, owner) <==> t in tasks && t.userId == owner
    decreases |tasks|
  {
    if tasks != [] {
      var init := tasks[..|tasks| - 1];
      OwnedByMembership(init, owner, t);
      assert tasks == init + [tasks[|tasks| - 1]];
    }
  }

  /** The list of a table split in two is the two lists one after the other. */
  lemma {:induction false} OwnedByAppend(a: seq<Task>, b: seq<Task>, owner: Uuid)
    ensures OwnedBy(a + b, owner) == OwnedBy(a, owner) + OwnedBy(b, owner)
    decreases |b|
  {
    if b == [] {
      assert a + b == a;
    } else {
      assert (a + b)[..|a + b| - 1] == a + b[..|b| - 1];
      OwnedByAppend(a, b[..|b| - 1], owner);
    }
  }

  /** A row of someone else contributes nothing to `owner`'s list. */
  lemma OwnedBySingle(t: Task, owner: Uuid)
    ensures OwnedBy([t], owner) == if t.userId == owner then [t] else []
  {
    assert [t][..0] == [];
  }

  /** Replacing one row by a row of the same owner leaves every other user's list as it was. */
  lemma UpdateIsolation(tasks: seq<Task>, i: nat, t: Task, other: Uuid)
    requires i < |tasks| && t.userId == tasks[i].userId && t.userId != other
    ensures OwnedBy(tasks[i := t], other) == OwnedBy(tasks, other)
  {
    var before, after := tasks[..i], tasks[i + 1..];
    assert tasks == before + [tasks[i]] + after;
    assert tasks[i := t] == before + [t] + after;
    OwnedBySkip(before, tasks[i], after, other);
    OwnedBySkip(before, t, after, other);
  }

  /** A row of someone else, wherever it sits, contributes nothing to `other`'s list. */
  lemma OwnedBySkip(a: seq<Task>, t: Task, b: seq<Task>, other: Uuid)
    requires t.userId != other
    ensures OwnedBy(a + [t] + b, other) == OwnedBy(a + b, other)
  {
    OwnedByAppend(a + [t], b, other);
    OwnedByAppend(a, [t], other);
    OwnedByAppend(a, b, other);
    OwnedBySingle(t, other);
  }

  /** Removing one row leaves the list of every user but its owner as it was. */
  lemma DeleteIsolation(tasks: seq<Task>, i: nat, other: Uuid)
    requires i < |tasks| && tasks[i].userId != other
    ensures OwnedBy(tasks[..i] + tasks[i + 1..], other) == OwnedBy(tasks, other)
  {
    assert tasks == tasks[..i] + [tasks[i]] + tasks[i + 1..];
    OwnedBySkip(tasks[..i], tasks[i], tasks[i + 1..], other);
  }

  /** A new row joins the end of its owner's list and no one else's. */
  lemma InsertIsolation(tasks: seq<Task>, t: Task, owner: Uuid)
    ensures OwnedBy(tasks + [t], owner) == OwnedBy(tasks, owner) + if t.userId == owner then [t] else []
  {
    OwnedByAppend(tasks, [t], owner);
    OwnedBySingle(t, owner);
  }

  /**
   * `create_task_for_user`: 400 for a malformed owner id, 404 for an unknown
   * owner, 403 for a deactivated one; otherwise the task is stored with a
   * fresh id, the owner, and both timestamps set to now. The body is a
   * validated `TaskCreate`, so the `TaskPublic` built from the new row
   * always validates.
   */
  method CreateTaskForUser(db: Database, create: TaskCreate, userId: string, freshId: Uuid, now: Timestamp)
    returns (r: Outcome<Task>)
    requires db.Valid() && create.Valid()
    modifies db
    ensures db.Valid() && db.users == old(db.users)
    ensures Parse(userId).None? ==> r == Fail(BadRequest, InvalidUserIdFormat) && db.tasks == old(db.tasks)
    ensures Parse(userId).Some? ==>
      var owner := old(UserIndexById(db.users, Parse(userId).value));
      (owner.None? ==> r == Fail(NotFound, UserNotFoundDetail) && db.tasks == old(db.tasks)) &&
      (owner.Some? && !old(db.users)[owner.value].isActive ==>
        r == Fail(Forbidden, UserDeactivatedDetail) && db.tasks == old(db.tasks)) &&
      (owner.Some? && old(db.users)[owner.value].isActive ==>
        var t := NewTask(create, freshId, Parse(userId).value, now);
        if old(TaskIdTaken(db.tasks, freshId)) then r.Crash? && db.tasks == old(db.tasks)
        else r == Ok(t) && db.tasks == old(db.tasks) + [t])
    ensures r.Ok? ==> PublicValid(r.value)
  {
    var id := Parse(userId);
    if id.None? {
      return Fail(BadRequest, InvalidUserIdFormat);
    }
    var owner := UserIndexById(db.users, id.value);
    if owner.None? {
      return Fail(NotFound, UserNotFoundDetail);
    }
    if !db.users[owner.value].isActive {
      return Fail(Forbidden, UserDeactivatedDetail);
    }
    var task := NewTask(create, freshId, id.value, now);
    assert UserIdTaken(db.users, task.userId);
    var ok := db.InsertTask(task);
    if !ok {
      return Crash("IntegrityError");
    }
    r := Ok(task);
  }

  /** Every task of the list can be shown as a `TaskPublic`. */
  predicate AllPublic(ts: seq<Task>) {
    forall t :: t in ts ==> PublicValid(t)
  }

  /**
   * `get_tasks_by_user`: 400 for a malformed owner id, otherwise the
   * owner's rows in table order, each converted to a `TaskPublic`; the
   * first row that fails that validation ends the call with its
   * `ValidationError`. The query's filter and the conversion loop are one
   * loop here.
   */
  method GetTasksByUser(db: Database, userId: string) returns (r: Outcome<seq<Task>>)
    ensures Parse(userId).None? ==> r == Fail(BadRequest, InvalidUserIdFormat)
    ensures Parse(userId).Some? && AllPublic(OwnedBy(db.tasks, Parse(userId).value)) ==>
      r == Ok(OwnedBy(db.tasks, Parse(userId).value))
    ensures Parse(userId).Some? && !AllPublic(OwnedBy(db.tasks, Parse(userId).value)) ==>
      r == Crash(TaskPublicInvalid)
  {
    var id := Parse(userId);
    if id.None? {
      return Fail(BadRequest, InvalidUserIdFormat);
    }
    var tasks := db.tasks;
    var result: seq<Task> := [];
    var k := 0;
    while k < |tasks|
      invariant 0 <= k <= |tasks|
      invariant result == OwnedBy(tasks[..k], id.value)
      invariant AllPublic(result)
    {
      assert tasks[..k + 1][..k] == tasks[..k];
      if tasks[k].userId == id.value {
        if !PublicValid(tasks[k]) {
          OwnedByMembership(tasks, id.value, tasks[k]);
          return Crash(TaskPublicInvalid);
        }
        result := result + [tasks[k]];
      }
      k := k + 1;
    }
    assert tasks[..k] == tasks;
    r := Ok(result);
  }

  /** Both ids as `uuid.UUID` sees them, or None when either is malformed. */
  function ParseIds(taskId: string, userId: string): (r: Option<(Uuid, Uuid)>)
    ensures r.Some? <==> Parse(taskId).Some? && Parse(userId).Some?
    ensures r.Some? ==> r.value == (Parse(taskId).value, Parse(userId).value)
  {
    var t := Parse(taskId);
    var u := Parse(userId);
    if t.None? || u.None? then None else Some((t.value, u.value))
  }

  /**
   * `get_task_by_id_and_user`: 400 when either id is malformed, otherwise
   * the row with that id if the given user owns it, and None both when
   * there is no such row and when someone else owns it. A found row that
   * fails the `TaskPublic` validation raises its `ValidationError`.
   */
  function GetTaskByIdAndUser(tasks: seq<Task>, taskId: string, userId: string): (r: Outcome<Option<Task>>)
    ensures ParseIds(taskId, userId).None? <==> r == Fail(BadRequest, InvalidIdFormat)
    ensures r.Ok? && r.value.Some? ==>
      r.value.value in tasks && (r.value.value.id, r.value.value.userId) == ParseIds(taskId, userId).value &&
      PublicValid(r.value.value)
    ensures r.Ok? && r.value.None? ==>
      forall j :: 0 <= j < |tasks| ==> (tasks[j].id, tasks[j].userId) != ParseIds(taskId, userId).value
    ensures ParseIds(taskId, userId).Some? ==>
      var ids := ParseIds(taskId, userId).value;
      var found := TaskIndex(tasks, ids.0, ids.1);
      (r.Crash? <==> found.Some? && !PublicValid(tasks[found.value])) &&
      (r.Crash? ==> r == Crash(TaskPublicInvalid)) && !r.Raise?
  {
    var ids := ParseIds(taskId, userId);
    if ids.None? then Fail(BadRequest, InvalidIdFormat)
    else
      var i := TaskIndex(tasks, ids.value.0, ids.value.1);
      if i.None? then Ok(None)
      else if !PublicValid(tasks[i.value]) then Crash(TaskPublicInvalid)
      else Ok(Some(tasks[i.value]))
  }

  /**
   * The `setattr` loop of `update_task_by_user`: the fields the client sent,
   * written one after the other, leave the columns `Patched` describes.
   */
  method ApplyUpdate(task: Task, update: TaskUpdate) returns (columns: Columns)
    ensures columns == Patched(ColumnsOf(task), update)
  {
    var data := UpdateData(update);
    columns := ColumnsOf(task);
    var k := 0;
    while k < |data|
      invariant 0 <= k <= |data|
      invariant columns == SetAll(ColumnsOf(task), data[..k])
    {
      assert data[..k + 1][..k] == data[..k];
      columns := SetAttr(columns, data[k]);
      k := k + 1;
    }
    assert data[..k] == data;
    SetAllIsPatched(ColumnsOf(task), update);
  }

  /**
   * `update_task_by_user`: 400 for malformed ids, None unless the user owns
   * the task; otherwise every field the client sent is written with
   * `setattr`, one after the other, `updated_at` becomes now, and the row is
   * committed, which fails (500) when title, status or priority was sent as
   * null. A committed row whose title or description `TaskPublic` refuses
   * stays committed, and the call ends with the `ValidationError`.
   */
  method UpdateTaskByUser(db: Database, taskId: string, userId: string, update: TaskUpdate, now: Timestamp)
    returns (r: Outcome<Option<Task>>)
    requires db.Valid()
    modifies db
    ensures db.Valid() && db.users == old(db.users)
    ensures ParseIds(taskId, userId).None? ==> r == Fail(BadRequest, InvalidIdFormat) && db.tasks == old(db.tasks)
    ensures ParseIds(taskId, userId).Some? ==>
      var ids := ParseIds(taskId, userId).value;
      var found := old(TaskIndex(db.tasks, ids.0, ids.1));
      (found.None? ==> r == Ok(None) && db.tasks == old(db.tasks)) &&
      (found.Some? ==>
        var before := old(db.tasks)[found.value];
        var after := WithColumns(before, Patched(ColumnsOf(before), update));
        if after.None? then r.Crash? && db.tasks == old(db.tasks)
        else
          var saved := after.value.(updatedAt := now);
          db.tasks == old(db.tasks)[found.value := saved] &&
          r == if PublicValid(saved) then Ok(Some(saved)) else Crash(TaskPublicInvalid))
  {
    var ids := ParseIds(taskId, userId);
    if ids.None? {
      return Fail(BadRequest, InvalidIdFormat);
    }
    var found := TaskIndex(db.tasks, ids.value.0, ids.value.1);
    if found.None? {
      return Ok(None);
    }
    var task := db.tasks[found.value];
    var columns := ApplyUpdate(task, update);
    var row := WithColumns(task, columns);
    if row.None? {
      return Crash("IntegrityError: NOT NULL constraint failed");
    }
    var saved := row.value.(updatedAt := now);
    db.UpdateTask(found.value, saved);
    if !PublicValid(saved) {
      return Crash(TaskPublicInvalid);
    }
    r := Ok(Some(saved));
  }

  /**
   * `delete_task_by_user`: 400 for malformed ids; False unless the user
   * owns the task; otherwise the row is removed and the answer is True.
   */
  method DeleteTaskByUser(db: Database, taskId: string, userId: string) returns (r: Outcome<bool>)
    requires db.Valid()
    modifies db
    ensures db.Valid() && db.users == old(db.users)
    ensures ParseIds(taskId, userId).None? ==> r == Fail(BadRequest, InvalidIdFormat) && db.tasks == old(db.tasks)
    ensures ParseIds(taskId, userId).Some? ==>
      var ids := ParseIds(taskId, userId).value;
      var found := old(TaskIndex(db.tasks, ids.0, ids.1));
      (found.None? ==> r == Ok(false) && db.tasks == old(db.tasks)) &&
      (found.Some? ==>
        r == Ok(true) && db.tasks == old(db.tasks)[..found.value] + old(db.tasks)[found.value + 1..])
  {
    var ids := ParseIds(taskId, userId);
    if ids.None? {
      return Fail(BadRequest, InvalidIdFormat);
    }
    var found := TaskIndex(db.tasks, ids.value.0, ids.value.1);
    if found.None? {
      return Ok(false);
    }
    db.DeleteTask(found.value);
    r := Ok(true);
  }

  /**
   * A task after `complete_task(completed)`: completed with its completion
   * time, or back to pending with none, and updated now.
   */
  function Completion(t: Task, completed: bool, now: Timestamp): (r: Task)
    ensures r.status == Completed <==> completed
    ensures r.status == Completed <==> r.completedAt.Some?
    ensures completed ==> r.completedAt == Some(now)
    ensures r.updatedAt == now
    ensures r.id == t.id && r.userId == t.userId && r.title == t.title && r.description == t.description &&
      r.priority == t.priority && r.dueDate == t.dueDate && r.createdAt == t.createdAt
  {
    t.(status := if completed then Completed else Pending,
       completedAt := if completed then Some(now) else None,
       updatedAt := now)
  }

  /** Marking a task twice is marking it once, up to the clock: the later call decides. */
  lemma CompletionLastWins(t: Task, first: bool, second: bool, n1: Timestamp, n2: Timestamp)
    ensures Completion(Completion(t, first, n1), second, n2) == Completion(t, second, n2)
  {
  }

  /**
   * `complete_task`: 400 for malformed ids, None unless the user owns the
   * task, otherwise the row as `Completion` describes it is committed; the
   * answer is that row, or the `ValidationError` of a row whose title or
   * description `TaskPublic` refuses.
   */
  method CompleteTask(db: Database, taskId: string, userId: string, completed: bool, now: Timestamp)
    returns (r: Outcome<Option<Task>>)
    requires db.Valid()
    modifies db
    ensures db.Valid() && db.users == old(db.users)
    ensures ParseIds(taskId, userId).None? ==> r == Fail(BadRequest, InvalidIdFormat) && db.tasks == old(db.tasks)
    ensures ParseIds(taskId, userId).Some? ==>
      var ids := ParseIds(taskId, userId).value;
      var found := old(TaskIndex(db.tasks, ids.0, ids.1));
      (found.None? ==> r == Ok(None) && db.tasks == old(db.tasks)) &&
      (found.Some? ==>
        var after := Completion(old(db.tasks)[found.value], completed, now);
        db.tasks == old(db.tasks)[found.value := after] &&
        r == if PublicValid(old(db.tasks)[found.value]) then Ok(Some(after)) else Crash(TaskPublicInvalid))
  {
    var ids := ParseIds(taskId, userId);
    if ids.None? {
      return Fail(BadRequest, InvalidIdFormat);
    }
    var found := TaskIndex(db.tasks, ids.value.0, ids.value.1);
    if found.None? {
      return Ok(None);
    }
    var task := db.tasks[found.value];
    task := task.(status := if completed then Completed else Pending);
    if completed {
      task := task.(completedAt := Some(now));
    } else {
      task := task.(completedAt := None);
    }
    task := task.(updatedAt := now);
    db.UpdateTask(found.value, task);
    if !PublicValid(task) {
      return Crash(TaskPublicInvalid);
    }
    r := Ok(Some(task));
  }

  /**
   * An update body that sets the title to "" passes `TaskUpdate`, and the
   * NOT NULL check lets the row through, but `TaskPublic` refuses it.
   */
  lemma EmptyTitleUpdateCommits(t: Task)
    ensures var u := TaskUpdate(Set(Some("")), Unset, Unset, Unset, Unset, Unset);
      var after := WithColumns(t, Patched(ColumnsOf(t), u));
      after.Some? && after.value.title == "" && !PublicValid(after.value)
  {
  }

  /**
   * A row that `TaskPublic` refuses makes its owner's whole list fail: as
   * long as it stays in the table, `GetTasksByUser` ends with the
   * `ValidationError` for that owner.
   */
  lemma BadRowSpoilsList(tasks: seq<Task>, i: nat)
    requires i < |tasks| && !PublicValid(tasks[i])
    ensures !AllPublic(OwnedBy(tasks, tasks[i].userId))
  {
    OwnedByMembership(tasks, tasks[i].userId, tasks[i]);
  }

  /**
   * One update whose committed row `TaskPublic` refuses (an empty title, say)
   * leaves the owner's list failing from then on.
   */
  lemma BadUpdateSpoilsList(tasks: seq<Task>, i: nat, u: TaskUpdate, now: Timestamp)
    requires i < |tasks|
    requires var after := WithColumns(tasks[i], Patched(ColumnsOf(tasks[i]), u));
      after.Some? && !PublicValid(after.value)
    ensures var saved := WithColumns(tasks[i], Patched(ColumnsOf(tasks[i]), u)).value.(updatedAt := now);
      !AllPublic(OwnedBy(tasks[i := saved], tasks[i].userId))
  {
    var saved := WithColumns(tasks[i], Patched(ColumnsOf(tasks[i]), u)).value.(updatedAt := now);
    BadRowSpoilsList(tasks[i := saved], i);
  }

  /** Other users' lists do not see the bad row: their answers are unchanged by it. */
  lemma BadRowSparesOthers(tasks: seq<Task>, i: nat, t: Task, other: Uuid)
    requires i < |tasks| && t.userId == tasks[i].userId && t.userId != other
    ensures AllPublic(OwnedBy(tasks[i := t], other)) <==> AllPublic(OwnedBy(tasks, other))
  {
    UpdateIsolation(tasks, i, t, other);
  }
}
