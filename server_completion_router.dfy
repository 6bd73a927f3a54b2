/**
 * The stand-alone completion endpoint (backend/src/api/task_completion_router.py).
 * Its body is the same as `complete_task_endpoint` in the task router; both
 * are registered for PATCH /api/tasks/{task_id}/complete, and the task
 * router is included first, so requests reach that one.
 */
module ServerCompletionRouter {
  import opened Wrappers
  import opened Uuids
  import opened ServerHttp
  import opened ServerUserModels
  import opened ServerTaskModels
  import opened ServerDb
  import opened ServerTaskService
  import opened ServerTaskRouter

  /**
   * `complete_task`: 400 for a malformed task id; 404 unless the caller
   * owns the task; otherwise the task marked as `Completion` says,
   * committed, and answered unless `TaskPublic` refuses it (a plain 500).
   */
  method CompleteTask(db: Database, taskId: string, completed: bool, current: User, now: Timestamp)
    returns (r: Outcome<Task>)
    requires db.Valid()
    modifies db
    ensures db.Valid() && db.users == old(db.users)
    ensures Parse(taskId).None? ==> r == Fail(BadRequest, InvalidTaskIdDetail) && db.tasks == old(db.tasks)
    ensures Parse(taskId).Some? ==>
      var found := old(TaskIndex(db.tasks, Parse(taskId).value, current.id));
      (found.None? ==> r == Fail(NotFound, TaskNotFoundDetail) && db.tasks == old(db.tasks)) &&
      (found.Some? ==>
        var after := Completion(old(db.tasks)[found.value], completed, now);
        db.tasks == old(db.tasks)[found.value := after] &&
        r == if PublicValid(after) then Ok(after) else Crash(TaskPublicInvalid))
  {
    CallerIds(taskId, current);
    if Parse(taskId).None? {
      return Fail(BadRequest, InvalidTaskIdDetail);
    }
    var updated := ServerTaskService.CompleteTask(db, taskId, ToString(current.id), completed, now);
    match updated {
      case Raise(e) => r := Raise(e);
      case Crash(reason) => r := Crash(reason);
      case Ok(None) => r := Fail(NotFound, TaskNotFoundDetail);
      case Ok(Some(t)) => r := Ok(t);
    }
  }
}
