/**
 * The task list (frontend/src/components/tasks/task-list.tsx): the tasks on
 * screen and how each server answer changes them. Answers are parameters;
 * `requests` records what the list asks the API client to send.
 */
module WebTaskList {
  import opened Wrappers
  import opened Js
  import opened WebApiClient
  import opened WebTaskTypes

  const LoadFailed := "Failed to load tasks"
  const SaveFailed := "Failed to save task changes"
  const DeleteFailed := "Failed to delete task"
  const ToggleFailed := "Failed to update task status"
  const Completed := "completed"

  /** `prev.map(task => task.id === response.id ? response : task)`. */
  function ReplaceById(tasks: seq<Task>, r: Task): (res: seq<Task>)
    ensures |res| == |tasks|
  {
    if tasks == [] then []
    else [if tasks[0].id == r.id then r else tasks[0]] + ReplaceById(tasks[1..], r)
  }

  /** `prev.filter(task => task.id !== taskId)`. */
  function RemoveById(tasks: seq<Task>, id: string): (res: seq<Task>)
    ensures |res| <= |tasks|
  {
    if tasks == [] then []
    else (if tasks[0].id == Some(id) then [] else [tasks[0]]) + RemoveById(tasks[1..], id)
  }

  /**
   * Replacing puts the answer at every position whose task had its id and
   * leaves every other position alone; the order of ids is unchanged.
   */
  lemma {:induction false} ReplaceByIdPositions(tasks: seq<Task>, r: Task)
    ensures forall i :: 0 <= i < |tasks| ==>
      ReplaceById(tasks, r)[i] == (if tasks[i].id == r.id then r else tasks[i])
    ensures forall i :: 0 <= i < |tasks| ==> ReplaceById(tasks, r)[i].id == tasks[i].id
  {
    if tasks != [] {
      ReplaceByIdPositions(tasks[1..], r);
      forall i | 0 < i < |tasks|
        ensures ReplaceById(tasks, r)[i] == ReplaceById(tasks[1..], r)[i - 1]
      {
      }
    }
  }

  /** Applying the same answer twice is applying it once. */
  lemma ReplaceByIdIdempotent(tasks: seq<Task>, r: Task)
    ensures ReplaceById(ReplaceById(tasks, r), r) == ReplaceById(tasks, r)
  {
    var once := ReplaceById(tasks, r);
    ReplaceByIdPositions(tasks, r);
    ReplaceByIdPositions(once, r);
  }

  /**
   * After a delete no task with that id is left, every other task is kept,
   * and deleting again changes nothing.
   */
  lemma {:induction false} RemoveByIdSpec(tasks: seq<Task>, id: string)
    ensures forall t :: t in RemoveById(tasks, id) <==> t in tasks && t.id != Some(id)
    ensures RemoveById(RemoveById(tasks, id), id) == RemoveById(tasks, id)
  {
    if tasks != [] {
      RemoveByIdSpec(tasks[1..], id);
      var rest := RemoveById(tasks[1..], id);
      if tasks[0].id == Some(id) {
        assert RemoveById(tasks, id) == rest;
      } else {
        assert RemoveById(tasks, id) == [tasks[0]] + rest;
        assert RemoveById([tasks[0]] + rest, id) == [tasks[0]] + RemoveById(rest, id) by {
          assert ([tasks[0]] + rest)[1..] == rest;
        }
      }
    }
  }

  /** A delete removes only tasks carrying that id: the list shrinks by exactly their number. */
  lemma {:induction false} RemoveByIdCount(tasks: seq<Task>, id: string)
    ensures |RemoveById(tasks, id)| == |tasks| - CountId(tasks, id)
  {
    if tasks != [] {
      RemoveByIdCount(tasks[1..], id);
    }
  }

  function CountId(tasks: seq<Task>, id: string): nat {
    if tasks == [] then 0 else (if tasks[0].id == Some(id) then 1 else 0) + CountId(tasks[1..], id)
  }

  /** The fields `handleTaskUpdated` sends; an absent field is left out of the JSON. */
  function UpdateFields(t: Task): map<string, Json> {
    var m0: map<string, Json> := map["title" := JText(t.title)];
    var m1 := if t.description.Some? then m0["description" := JText(t.description.value)] else m0;
    var m2 := if t.status.Some? then m1["status" := JText(t.status.value)] else m1;
    var m3 := if t.priority.Some? then m2["priority" := JText(t.priority.value)] else m2;
    match t.dueDate
    case Absent => m3
    case Null => m3["due_date" := JNull]
    case Present(d) => m3["due_date" := JText(d)]
  }

  /** The completion call `handleToggleComplete` makes: the opposite of whether the task is completed. */
  function ToggleRequest(t: Task): Request
    requires Truthy(t.id)
  {
    TaskCallRequest(TaskCall.CompleteTask(t.id.value, t.status != Some(Completed)))
  }

  class TaskList {
    var tasks: seq<Task>
    var loading: bool
    var error: Option<string>
    var showForm: bool
    /** Whether the `onTaskUpdate` and `onTaskDelete` props were given; the tasks page gives neither. */
    const hasOnTaskUpdate: bool
    const hasOnTaskDelete: bool
    /** Calls of `onTaskUpdate` and `onTaskDelete`. */
    var updated: seq<Task>
    var deleted: seq<string>
    var requests: seq<Request>

    constructor (hasOnTaskUpdate: bool, hasOnTaskDelete: bool)
      ensures this.hasOnTaskUpdate == hasOnTaskUpdate && this.hasOnTaskDelete == hasOnTaskDelete
      ensures tasks == [] && loading && error == None && !showForm
      ensures updated == [] && deleted == [] && requests == []
    {
      this.hasOnTaskUpdate := hasOnTaskUpdate;
      this.hasOnTaskDelete := hasOnTaskDelete;
      tasks := [];
      loading := true;
      error := None;
      showForm := false;
      updated := [];
      deleted := [];
      requests := [];
    }

    /** `fetchTasks`: a 404 is an empty list, any other failure an error message. */
    method FetchTasks(answer: CallResult<seq<Task>>)
      modifies this
      ensures !loading && requests == old(requests) + [NewRequest("GET", "/api/tasks", map[])]
      ensures answer.Responded? ==> tasks == answer.data && error == None
      ensures answer.Failed? && answer.failure.AxiosFailure? && answer.failure.status == Some(404) ==>
        tasks == [] && error == None
      ensures answer.Failed? && !(answer.failure.AxiosFailure? && answer.failure.status == Some(404)) ==>
        tasks == old(tasks) &&
        error == Some(if answer.failure.AxiosFailure? then Or(answer.failure.detail, LoadFailed) else LoadFailed)
      ensures showForm == old(showForm) && updated == old(updated) && deleted == old(deleted)
    {
      loading := true;
      error := None;
      requests := requests + [NewRequest("GET", "/api/tasks", map[])];
      match answer {
      case Responded(list) =>
        tasks := list;
      case Failed(f) =>
        if f.AxiosFailure? && f.status == Some(404) {
          tasks := [];
        } else {
          error := Some(if f.AxiosFailure? then Or(f.detail, LoadFailed) else LoadFailed);
        }
      }
      loading := false;
    }

    /** `handleTaskCreated`: the new task goes first and the form closes. */
    method HandleTaskCreated(t: Task)
      modifies this
      ensures tasks == [t] + old(tasks) && !showForm
      ensures loading == old(loading) && error == old(error) && requests == old(requests)
      ensures updated == old(updated) && deleted == old(deleted)
    {
      tasks := [t] + tasks;
      showForm := false;
    }

    /** `handleTaskUpdated`: a task with an id is sent in full and replaced by the server's version. */
    method HandleTaskUpdated(t: Task, answer: CallResult<Task>)
      modifies this
      ensures !Truthy(t.id) ==> tasks == old(tasks) && error == old(error) && requests == old(requests) && updated == old(updated)
      ensures Truthy(t.id) ==> requests == old(requests) + [TaskCallRequest(TaskCall.UpdateTask(t.id.value, UpdateFields(t)))]
      ensures Truthy(t.id) && answer.Responded? ==>
        tasks == ReplaceById(old(tasks), answer.data) && error == old(error) &&
        updated == old(updated) + (if hasOnTaskUpdate then [answer.data] else [])
      ensures Truthy(t.id) && answer.Failed? ==>
        tasks == old(tasks) && updated == old(updated) && error == Some(SaveFailed)
      ensures loading == old(loading) && showForm == old(showForm) && deleted == old(deleted)
    {
      if Truthy(t.id) {
        requests := requests + [TaskCallRequest(TaskCall.UpdateTask(t.id.value, UpdateFields(t)))];
        match answer
        case Responded(r) =>
          tasks := ReplaceById(tasks, r);
          if hasOnTaskUpdate {
            updated := updated + [r];
          }
        case Failed(_) =>
          error := Some(SaveFailed);
      }
    }

    /** `handleTaskDeleted`. */
    method HandleTaskDeleted(id: string, answer: CallResult<()>)
      modifies this
      ensures requests == old(requests) + [TaskCallRequest(TaskCall.DeleteTask(id))]
      ensures answer.Responded? ==>
        tasks == RemoveById(old(tasks), id) && error == old(error) &&
        deleted == old(deleted) + (if hasOnTaskDelete then [id] else [])
      ensures answer.Failed? ==> tasks == old(tasks) && deleted == old(deleted) && error == Some(DeleteFailed)
      ensures loading == old(loading) && showForm == old(showForm) && updated == old(updated)
    {
      requests := requests + [TaskCallRequest(TaskCall.DeleteTask(id))];
      match answer
      case Responded(_) =>
        tasks := RemoveById(tasks, id);
        if hasOnTaskDelete {
          deleted := deleted + [id];
        }
      case Failed(_) =>
        error := Some(DeleteFailed);
    }

    /**
     * `handleToggleComplete`: ask for the opposite completion, then pass the
     * server's task to `handleTaskUpdated`, which sends it back in full.
     */
    method HandleToggleComplete(t: Task, completion: CallResult<Task>, update: CallResult<Task>)
      modifies this
      ensures !Truthy(t.id) ==> tasks == old(tasks) && error == old(error) && requests == old(requests) && updated == old(updated)
      ensures Truthy(t.id) && completion.Failed? ==>
        tasks == old(tasks) && error == Some(ToggleFailed) && updated == old(updated) &&
        requests == old(requests) + [ToggleRequest(t)]
      ensures Truthy(t.id) && completion.Responded? && !Truthy(completion.data.id) ==>
        tasks == old(tasks) && error == old(error) && updated == old(updated) &&
        requests == old(requests) + [ToggleRequest(t)]
      ensures Truthy(t.id) && completion.Responded? && Truthy(completion.data.id) ==>
        var r := completion.data;
        requests == old(requests) + [ToggleRequest(t), TaskCallRequest(TaskCall.UpdateTask(r.id.value, UpdateFields(r)))] &&
        (update.Responded? ==>
          tasks == ReplaceById(old(tasks), update.data) && error == old(error) &&
          updated == old(updated) + (if hasOnTaskUpdate then [update.data] else [])) &&
        (update.Failed? ==> tasks == old(tasks) && updated == old(updated) && error == Some(SaveFailed))
      ensures loading == old(loading) && showForm == old(showForm) && deleted == old(deleted)
    {
      if !Truthy(t.id) {
        return;
      }
      requests := requests + [ToggleRequest(t)];
      match completion
      case Responded(r) =>
        HandleTaskUpdated(r, update);
      case Failed(_) =>
        error := Some(ToggleFailed);
    }
  }
}
