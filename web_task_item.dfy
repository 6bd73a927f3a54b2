/**
 * One task on screen (frontend/src/components/tasks/task-item.tsx): the edit
 * buffers, save and cancel, the badge classes, and the guarded delete.
 */
module WebTaskItem {
  import opened Wrappers
  import opened Js
  import opened WebTaskTypes

  /** The four edit buffers. */
  datatype Buffers = Buffers(title: string, description: string, priority: string, dueDate: string)

  /** The buffers as the task fills them: `description || ''`, `priority || 'medium'`, `due_date || ''`. */
  function InitialBuffers(t: Task): Buffers {
    Buffers(t.title, Or(t.description, ""),  Or(t.priority, DefaultPriority),
            Or(if t.dueDate.Present? then Some(t.dueDate.value) else None, ""))
  }

  /** `handleSave`'s task: the buffers over the original, an empty date as `null`, and the save time. */
  function Saved(t: Task, b: Buffers, now: string): Task {
    t.(title := b.title, description := Some(b.description), priority := Some(b.priority),
       dueDate := if b.dueDate != "" then Present(b.dueDate) else Null, updatedAt := Some(now))
  }

  /**
   * A task already in the form the item writes back (a description, a
   * priority, and a non-empty or `null` due date).
   */
  predicate Normal(t: Task) {
    t.description.Some? && Truthy(t.priority) &&
    (t.dueDate.Null? || (t.dueDate.Present? && t.dueDate.value != ""))
  }

  /**
   * Saving untouched buffers changes nothing but the update time, for a task
   * in the item's normal form; any other task is first brought into it.
   */
  lemma SaveUntouched(t: Task, now: string)
    ensures Normal(Saved(t, InitialBuffers(t), now))
    ensures Normal(t) ==> Saved(t, InitialBuffers(t), now) == t.(updatedAt := Some(now))
  {
  }

  /** The saved task keeps the original's identity, status, owner and dates other than the due date. */
  lemma SaveKeepsIdentity(t: Task, b: Buffers, now: string)
    ensures var s := Saved(t, b, now);
      s.id == t.id && s.status == t.status && s.userId == t.userId &&
      s.createdAt == t.createdAt && s.completedAt == t.completedAt
    ensures Saved(t, b, now).title == b.title && Saved(t, b, now).description == Some(b.description)
  {
  }

  /** `getStatusClass`: unknown statuses look pending. */
  function StatusClass(status: string): string {
    if status == "completed" then "bg-green-100 text-green-800"
    else if status == "in_progress" then "bg-blue-100 text-blue-800"
    else "bg-yellow-100 text-yellow-800"
  }

  /** `getPriorityClass`: unknown priorities look low. */
  function PriorityClass(priority: string): string {
    if priority == "urgent" then "bg-red-100 text-red-800"
    else if priority == "high" then "bg-orange-100 text-orange-800"
    else if priority == "medium" then "bg-yellow-100 text-yellow-800"
    else "bg-green-100 text-green-800"
  }

  /**
   * The badges tell the known values apart: each status and each priority
   * has its own class, and a missing value is shown as its default.
   */
  lemma BadgesDistinguish(t: Task)
    ensures forall s1, s2 :: s1 in Statuses && s2 in Statuses && s1 != s2 ==> StatusClass(s1) != StatusClass(s2)
    ensures forall p1, p2 :: p1 in Priorities && p2 in Priorities && p1 != p2 ==> PriorityClass(p1) != PriorityClass(p2)
    ensures StatusClass(Or(t.status, DefaultStatus)) == StatusClass(DefaultStatus) <==>
      !(Or(t.status, DefaultStatus) in {"completed", "in_progress"})
  {
  }

  class TaskItem {
    const task: Task
    var isEditing: bool
    var buffers: Buffers
    /** Calls of `onUpdate` and `onDelete`. */
    var updates: seq<Task>
    var deletes: seq<string>

    constructor (task: Task)
      ensures this.task == task && !isEditing && buffers == InitialBuffers(task)
      ensures updates == [] && deletes == []
    {
      this.task := task;
      isEditing := false;
      buffers := InitialBuffers(task);
      updates := [];
      deletes := [];
    }

    method Edit(b: Buffers)
      modifies this
      ensures isEditing && buffers == b && updates == old(updates) && deletes == old(deletes)
    {
      isEditing := true;
      buffers := b;
    }

    /** `handleSave`. */
    method HandleSave(now: string)
      modifies this
      ensures updates == old(updates) + [Saved(task, old(buffers), now)]
      ensures !isEditing && buffers == old(buffers) && deletes == old(deletes)
    {
      updates := updates + [Saved(task, buffers, now)];
      isEditing := false;
    }

    /** `handleCancel`: every buffer goes back to the task's value. */
    method HandleCancel()
      modifies this
      ensures buffers == InitialBuffers(task) && !isEditing
      ensures updates == old(updates) && deletes == old(deletes)
    {
      buffers := InitialBuffers(task);
      isEditing := false;
    }

    /** The delete button: `task.id && onDelete(task.id)`. */
    method HandleDelete()
      modifies this
      ensures deletes == (if Truthy(task.id) then old(deletes) + [task.id.value] else old(deletes))
      ensures updates == old(updates) && buffers == old(buffers) && isEditing == old(isEditing)
    {
      if Truthy(task.id) {
        deletes := deletes + [task.id.value];
      }
    }
  }

  /** Cancelling discards any edit: a save after a cancel writes back the task as it was, newly timestamped. */
  method CancelThenSave(t: Task, edits: Buffers, now: string) returns (written: Task)
    requires Normal(t)
    ensures written == t.(updatedAt := Some(now))
  {
    var item := new TaskItem(t);
    item.Edit(edits);
    item.HandleCancel();
    item.HandleSave(now);
    written := item.updates[0];
    SaveUntouched(t, now);
  }
}
