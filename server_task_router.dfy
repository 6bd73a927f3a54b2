/**
 * The `/tasks` endpoints (backend/src/api/task_router.py). Every endpoint
 * acts for the authenticated caller, passing `str(current_user.id)` to the
 * task service as the owner, so a caller reaches only their own tasks; a
 * task of someone else is answered exactly like a task that does not exist.
 * The caller is a parameter: the dependency that supplies it is imported
 * from src/api/middleware/auth_middleware.py, which is not part of this model.
 */
module ServerTaskRouter {
  import opened Wrappers
  import opened Uuids
  import opened ServerHttp
  import opened ServerUserModels
  import opened ServerTaskModels
  import opened ServerDb
  import opened ServerTaskService

  const InvalidTaskIdDetail := "Invalid task ID format"
  const TaskNotFoundDetail := "Task not found or access denied"
  const ListErrorPrefix := "An unexpected error occurred while retrieving tasks: "
  const CreateErrorPrefix := "An unexpected error occurred during task creation: "
  const TaskDeletedMessage := "Task deleted successfully"

  /** The ids the service sees: the path's task id, and the caller's id as `str(uuid)` writes it. */
  lemma CallerIds(taskId: string, current: User)
    ensures ParseIds(taskId, ToString(current.id)).Some? <==> Parse(taskId).Some?
    ensures Parse(taskId).Some? ==> ParseIds(taskId, ToString(current.id)).value == (Parse(taskId).value, current.id)
  {
    ParseToString(current.id);
  }

  /**
   * `get_user_tasks`: the caller's tasks in table order. A task that
   * `TaskPublic` refuses makes the whole answer a 500 naming the
   * `ValidationError`; the caller's id always parses, so there is no 400.
   */
  method GetUserTasks(db: Database, current: User) returns (r: Outcome<seq<Task>>)
    ensures AllPublic(OwnedBy(db.tasks, current.id)) ==> r == Ok(OwnedBy(db.tasks, current.id))
    ensures !AllPublic(OwnedBy(db.tasks, current.id)) ==>
      r == Fail(InternalServerError, ListErrorPrefix + TaskPublicInvalid)
    ensures r.Ok? ==> forall t :: t in r.value <==> t in db.tasks && t.userId == current.id
  {
    ParseToString(current.id);
    var tasks := GetTasksByUser(db, ToString(current.id));
    match tasks {
      case Crash(reason) => r := Fail(InternalServerError, ListErrorPrefix + reason);
      case Raise(e) => r := Raise(e);
      case Ok(list) => r := Ok(list);
    }
    if r.Ok? {
      forall t
        ensures t in r.value <==> t in db.tasks && t.userId == current.id
      {
        OwnedByMembership(db.tasks, current.id, t);
      }
    }
  }

  /**
   * `create_task`: the task is created for the caller; a deactivated
   * caller gets the service's 403, and any error other than an
   * `HTTPException` becomes a 500 naming it.
   */
  method CreateTask(db: Database, create: TaskCreate, current: User, freshId: Uuid, now: Timestamp)
    returns (r: Outcome<Task>)
    requires db.Valid() && create.Valid()
    modifies db
    ensures db.Valid() && db.users == old(db.users)
    ensures !r.Crash?
    ensures r.Ok? ==>
      r.value == NewTask(create, freshId, current.id, now) && db.tasks == old(db.tasks) + [r.value]
    ensures !r.Ok? ==> db.tasks == old(db.tasks)
    ensures var owner := old(UserIndexById(db.users, current.id));
      (owner.None? ==> r == Fail(NotFound, UserNotFoundDetail)) &&
      (owner.Some? && !old(db.users)[owner.value].isActive ==> r == Fail(Forbidden, UserDeactivatedDetail)) &&
      (owner.Some? && old(db.users)[owner.value].isActive && !old(TaskIdTaken(db.tasks, freshId)) ==> r.Ok?)
  {
    ParseToString(current.id);
    var created := CreateTaskForUser(db, create, ToString(current.id), freshId, now);
    match created {
      case Crash(reason) => r := Fail(InternalServerError, CreateErrorPrefix + reason);
      case Raise(e) => r := Raise(e);
      case Ok(t) => r := Ok(t);
    }
  }

  /**
   * `get_specific_task`: 400 for a malformed task id; 404 unless the caller
   * owns a task with that id; otherwise that task, or a plain 500 when
   * `TaskPublic` refuses it (nothing here catches the `ValidationError`).
   */
  function GetSpecificTask(tasks: seq<Task>, taskId: string, current: User): (r: Outcome<Task>)
    ensures Parse(taskId).None? <==> r == Fail(BadRequest, InvalidTaskIdDetail)
    ensures r == Fail(NotFound, TaskNotFoundDetail) <==>
      Parse(taskId).Some? && forall j :: 0 <= j < |tasks| ==> !(tasks[j].id == Parse(taskId).value && tasks[j].userId == current.id)
    ensures r.Ok? ==>
      r.value in tasks && Parse(taskId) == Some(r.value.id) && r.value.userId == current.id && PublicValid(r.value)
    ensures r.Crash? <==>
      Parse(taskId).Some? && var found := TaskIndex(tasks, Parse(taskId).value, current.id);
      found.Some? && !PublicValid(tasks[found.value])
    ensures r.Crash? ==> r == Crash(TaskPublicInvalid)
  {
    CallerIds(taskId, current);
    if Parse(taskId).None? then Fail(BadRequest, InvalidTaskIdDetail)
    else
      match GetTaskByIdAndUser(tasks, taskId, ToString(current.id))
      case Raise(e) => Raise(e)
      case Crash(reason) => Crash(reason)
      case Ok(None) => Fail(NotFound, TaskNotFoundDetail)
      case Ok(Some(t)) => Ok(t)
  }

  /**
   * `update_task`: 400 for a malformed task id; 404 unless the caller owns
   * the task; otherwise the service's update. A failing commit, and the
   * `ValidationError` of a committed row `TaskPublic` refuses, are not
   * caught here and end in a plain 500.
   */
  method UpdateTask(db: Database, taskId: string, update: TaskUpdate, current: User, now: Timestamp)
    returns (r: Outcome<Task>)
    requires db.Valid()
    modifies db
    ensures db.Valid() && db.users == old(db.users)
    ensures Parse(taskId).None? ==> r == Fail(BadRequest, InvalidTaskIdDetail) && db.tasks == old(db.tasks)
    ensures Parse(taskId).Some? ==>
      var found := old(TaskIndex(db.tasks, Parse(taskId).value, current.id));
      (found.None? ==> r == Fail(NotFound, TaskNotFoundDetail) && db.tasks == old(db.tasks)) &&
      (found.Some? ==>
        var before := old(db.tasks)[found.value];
        var after := WithColumns(before, Patched(ColumnsOf(before), update));
        if after.None? then r.Crash? && db.tasks == old(db.tasks)
        else
          var saved := after.value.(updatedAt := now);
          db.tasks == old(db.tasks)[found.value := saved] &&
          r == if PublicValid(saved) then Ok(saved) else Crash(TaskPublicInvalid))
  {
    CallerIds(taskId, current);
    if Parse(taskId).None? {
      return Fail(BadRequest, InvalidTaskIdDetail);
    }
    var updated := UpdateTaskByUser(db, taskId, ToString(current.id), update, now);
    match updated {
      case Raise(e) => r := Raise(e);
      case Crash(reason) => r := Crash(reason);
      case Ok(None) => r := Fail(NotFound, TaskNotFoundDetail);
      case Ok(Some(t)) => r := Ok(t);
    }
  }

  /** The body of a successful delete. */
  datatype DeleteResponse = DeleteResponse(success: bool, message: string)

  /**
   * `delete_task`: 400 for a malformed task id; 404 unless the caller owns
   * the task; otherwise the row is removed.
   */
  method DeleteTask(db: Database, taskId: string, current: User) returns (r: Outcome<DeleteResponse>)
    requires db.Valid()
    modifies db
    ensures db.Valid() && db.users == old(db.users)
    ensures Parse(taskId).None? ==> r == Fail(BadRequest, InvalidTaskIdDetail) && db.tasks == old(db.tasks)
    ensures Parse(taskId).Some? ==>
      var found := old(TaskIndex(db.tasks, Parse(taskId).value, current.id));
      (found.None? ==> r == Fail(NotFound, TaskNotFoundDetail) && db.tasks == old(db.tasks)) &&
      (found.Some? ==>
        r == Ok(DeleteResponse(true, TaskDeletedMessage)) &&
        db.tasks == old(db.tasks)[..found.value] + old(db.tasks)[found.value + 1..])
  {
    CallerIds(taskId, current);
    if Parse(taskId).None? {
      return Fail(BadRequest, InvalidTaskIdDetail);
    }
    var deleted := DeleteTaskByUser(db, taskId, ToString(current.id));
    match deleted {
      case Raise(e) => r := Raise(e);
      case Crash(reason) => r := Crash(reason);
      case Ok(false) => r := Fail(NotFound, TaskNotFoundDetail);
      case Ok(true) => r := Ok(DeleteResponse(true, TaskDeletedMessage));
    }
  }

  /**
   * `complete_task_endpoint`: 400 for a malformed task id; 404 unless the
   * caller owns the task; otherwise the task marked as `Completion` says,
   * committed, and answered unless `TaskPublic` refuses it (a plain 500).
   */
  method CompleteTaskEndpoint(db: Database, taskId: string, completed: bool, current: User, now: Timestamp)
    returns (r: Outcome<Task>)
    requires db.Valid()
    modifies db
    ensures db.Valid() && db.users == old(db.users)
    ensures Parse(taskId).None? ==> r == Fail(BadRequest, InvalidTaskIdDetail) && db.tasks == old(db.tasks)
    ensures Parse(taskId).Some? ==>
      var found := old(TaskIndex(db.tasks, Parse(taskId).value, current.id));
      (found.None? ==> r == Fail(NotFound, TaskNotFoundDetail) && db.tasks == old(db.tasks)) &&
      (found.Some? ==>
        var after := Completion(old(db.tasks)[found.value], completed, now);
        db.tasks == old(db.tasks)[found.value := after] &&
        r == if PublicValid(after) then Ok(after) else Crash(TaskPublicInvalid))
  {
    CallerIds(taskId, current);
    if Parse(taskId).None? {
      return Fail(BadRequest, InvalidTaskIdDetail);
    }
    var updated := CompleteTask(db, taskId, ToString(current.id), completed, now);
    match updated {
      case Raise(e) => r := Raise(e);
      case Crash(reason) => r := Crash(reason);
      case Ok(None) => r := Fail(NotFound, TaskNotFoundDetail);
      case Ok(Some(t)) => r := Ok(t);
    }
  }
}
