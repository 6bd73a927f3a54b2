/**
 * The two tables behind the server's `Session` (backend/src/models/user.py,
 * backend/src/models/task.py, backend/src/database/connection.py): `user`
 * and `task` rows in insertion order, the constraints the schema declares
 * (primary keys, the unique email, the task's owner), and the writes the
 * services commit. A write the constraints refuse is an IntegrityError: it
 * reports failure and leaves the tables as they were (the rollback).
 */
module ServerDb {
  import opened Wrappers
  import opened Uuids
  import opened ServerUserModels
  import opened ServerTaskModels

  /** The index of the first element satisfying `p`: what `.first()` returns. */
  function FirstIndex<T>(s: seq<T>, p: T -> bool): (r: Option<nat>)
    ensures r.Some? ==> r.value < |s| && p(s[r.value]) && forall j :: 0 <= j < r.value ==> !p(s[j])
    ensures r.None? <==> forall j :: 0 <= j < |s| ==> !p(s[j])
  {
    if s == [] then None
    else if p(s[0]) then Some(0)
    else
      var rest := FirstIndex(s[1..], p);
      if rest.None? then None else Some(rest.value + 1)
  }

  /** `select(User).where(User.id == id).first()`. */
  function UserIndexById(users: seq<User>, id: Uuid): (r: Option<nat>)
    ensures r.Some? ==> r.value < |users| && users[r.value].id == id
    ensures r.None? <==> forall j :: 0 <= j < |users| ==> users[j].id != id
  {
    FirstIndex(users, (u: User) => u.id == id)
  }

  /** `select(User).where(User.email == email).first()`. */
  function UserIndexByEmail(users: seq<User>, email: string): (r: Option<nat>)
    ensures r.Some? ==> r.value < |users| && users[r.value].email == email
    ensures r.None? <==> forall j :: 0 <= j < |users| ==> users[j].email != email
  {
    FirstIndex(users, (u: User) => u.email == email)
  }

  /** `select(Task).where(Task.id == id, Task.user_id == owner).first()`. */
  function TaskIndex(tasks: seq<Task>, id: Uuid, owner: Uuid): (r: Option<nat>)
    ensures r.Some? ==> r.value < |tasks| && tasks[r.value].id == id && tasks[r.value].userId == owner
    ensures r.None? <==> forall j :: 0 <= j < |tasks| ==> !(tasks[j].id == id && tasks[j].userId == owner)
  {
    FirstIndex(tasks, (t: Task) => t.id == id && t.userId == owner)
  }

  predicate UserIdTaken(users: seq<User>, id: Uuid) {
    exists j :: 0 <= j < |users| && users[j].id == id
  }

  predicate EmailTaken(users: seq<User>, email: string) {
    exists j :: 0 <= j < |users| && users[j].email == email
  }

  predicate TaskIdTaken(tasks: seq<Task>, id: Uuid) {
    exists j :: 0 <= j < |tasks| && tasks[j].id == id
  }

  /** The primary key and the unique index on `email`. */
  predicate UsersWellFormed(users: seq<User>) {
    forall i, j :: 0 <= i < j < |users| ==> users[i].id != users[j].id && users[i].email != users[j].email
  }

  /** The primary key, and the foreign key from `user_id` to `user.id`. */
  predicate TasksWellFormed(tasks: seq<Task>, users: seq<User>) {
    (forall i, j :: 0 <= i < j < |tasks| ==> tasks[i].id != tasks[j].id) &&
    (forall i :: 0 <= i < |tasks| ==> UserIdTaken(users, tasks[i].userId))
  }

  /** The committed contents of the database. */
  class Database {
    var users: seq<User>
    var tasks: seq<Task>

    ghost predicate Valid()
      reads this
    {
      UsersWellFormed(users) && TasksWellFormed(tasks, users)
    }

    /** `create_db_and_tables()` on a fresh database: both tables empty. */
    constructor()
      ensures users == [] && tasks == [] && Valid()
    {
      users := [];
      tasks := [];
    }

    /** Insert a user row; refused when its id or its email is already taken. */
    method InsertUser(u: User) returns (ok: bool)
      requires Valid()
      modifies this
      ensures Valid()
      ensures ok <==> !old(UserIdTaken(users, u.id)) && !old(EmailTaken(users, u.email))
      ensures ok ==> users == old(users) + [u]
      ensures !ok ==> users == old(users)
      ensures tasks == old(tasks)
    {
      if UserIdTaken(users, u.id) || EmailTaken(users, u.email) {
        return false;
      }
      users := users + [u];
      ok := true;
      assert forall i :: 0 <= i < |tasks| ==> UserIdTaken(users, tasks[i].userId) by {
        forall i | 0 <= i < |tasks|
          ensures UserIdTaken(users, tasks[i].userId)
        {
          var j :| 0 <= j < |old(users)| && old(users)[j].id == tasks[i].userId;
          assert users[j] == old(users)[j];
        }
      }
    }

    /**
     * Commit new values for row `i`, which keeps its id; refused when the
     * new email belongs to another row.
     */
    method UpdateUser(i: nat, u: User) returns (ok: bool)
      requires Valid() && i < |users| && u.id == users[i].id
      modifies this
      ensures Valid()
      ensures ok <==> forall j :: 0 <= j < |old(users)| && j != i ==> old(users)[j].email != u.email
      ensures ok ==> users == old(users)[i := u]
      ensures !ok ==> users == old(users)
      ensures tasks == old(tasks)
    {
      ok := forall j :: 0 <= j < |users| && j != i ==> users[j].email != u.email;
      if ok {
        var before := users;
        users := users[i := u];
        assert forall k :: 0 <= k < |tasks| ==> UserIdTaken(users, tasks[k].userId) by {
          forall k | 0 <= k < |tasks|
            ensures UserIdTaken(users, tasks[k].userId)
          {
            var j :| 0 <= j < |before| && before[j].id == tasks[k].userId;
            assert users[j].id == before[j].id;
          }
        }
      }
    }

    /** Insert a task row; refused when its id is taken or its owner does not exist. */
    method InsertTask(t: Task) returns (ok: bool)
      requires Valid()
      modifies this
      ensures Valid()
      ensures ok <==> !old(TaskIdTaken(tasks, t.id)) && old(UserIdTaken(users, t.userId))
      ensures ok ==> tasks == old(tasks) + [t]
      ensures !ok ==> tasks == old(tasks)
      ensures users == old(users)
    {
      if TaskIdTaken(tasks, t.id) || !UserIdTaken(users, t.userId) {
        return false;
      }
      tasks := tasks + [t];
      ok := true;
    }

    /** Commit new values for task row `i`, which keeps its id and its owner. */
    method UpdateTask(i: nat, t: Task)
      requires Valid() && i < |tasks| && t.id == tasks[i].id && t.userId == tasks[i].userId
      modifies this
      ensures Valid()
      ensures tasks == old(tasks)[i := t] && users == old(users)
    {
      tasks := tasks[i := t];
    }

    /** `session.delete(task)`: remove row `i`, keeping the others in order. */
    method DeleteTask(i: nat)
      requires Valid() && i < |tasks|
      modifies this
      ensures Valid()
      ensures tasks == old(tasks[..i] + tasks[i + 1..]) && users == old(users)
    {
      tasks := tasks[..i] + tasks[i + 1..];
    }
  }
}
