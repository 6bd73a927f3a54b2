/** The endpoint catalogue of the client (frontend/src/services/api_endpoints.ts). */
module WebEndpoints {
  import opened Wrappers
  import opened Js

  /** `AUTH_ENDPOINTS`, in declaration order. */
  const AuthEndpoints: seq<string> :=
    ["/auth/signup", "/auth/signin", "/auth/signout", "/auth/refresh", "/auth/verify", "/users/me"]

  const AllTasks := "/tasks"

  /** The keys of `TASK_ENDPOINTS`. */
  datatype TaskOperation =
    | GetAllTasks | GetTaskById | CreateTask | UpdateTask | DeleteTask | CompleteTask
    | GetTasksByStatus | GetTasksByUser
  {
    function Name(): string {
      match this
      case GetAllTasks => "GET_ALL_TASKS"
      case GetTaskById => "GET_TASK_BY_ID"
      case CreateTask => "CREATE_TASK"
      case UpdateTask => "UPDATE_TASK"
      case DeleteTask => "DELETE_TASK"
      case CompleteTask => "COMPLETE_TASK"
      case GetTasksByStatus => "GET_TASKS_BY_STATUS"
      case GetTasksByUser => "GET_TASKS_BY_USER"
    }

    /** The operations whose entry is a string rather than a function. */
    predicate IsConstant() {
      GetAllTasks? || CreateTask?
    }

    /** The operations `getTaskEndpoint` fills in with a task id. */
    predicate TakesTaskId() {
      GetTaskById? || UpdateTask? || DeleteTask? || CompleteTask?
    }
  }

  /** `TASK_ENDPOINTS[op]` applied to `arg` (the argument is ignored by the two constant entries). */
  function TaskPath(op: TaskOperation, arg: string): string {
    match op
    case GetAllTasks => AllTasks
    case CreateTask => AllTasks
    case GetTaskById => "/tasks/" + arg
    case UpdateTask => "/tasks/" + arg
    case DeleteTask => "/tasks/" + arg
    case CompleteTask => "/tasks/" + arg + "/complete"
    case GetTasksByStatus => "/tasks/status/" + arg
    case GetTasksByUser => "/users/" + arg + "/tasks"
  }

  /** What `getTaskEndpoint` returns: a path, or, for the two operations it does not fill in, the function itself. */
  datatype EndpointValue = Path(path: string) | Unapplied(op: TaskOperation)

  /** `getTaskEndpoint(operation, taskId)`. */
  function GetTaskEndpoint(op: TaskOperation, taskId: Option<string>): Result<EndpointValue> {
    if op.TakesTaskId() then
      if !Truthy(taskId) then Failure("Task ID is required for " + op.Name() + " operation")
      else Success(Path(TaskPath(op, taskId.value)))
    else if op.IsConstant() then Success(Path(TaskPath(op, "")))
    else Success(Unapplied(op))
  }

  /**
   * `getTaskEndpoint` fails exactly for an id-taking operation without an
   * id, returns a path for every other id-taking or constant operation, and
   * hands back the unapplied function for the status and user listings.
   */
  lemma GetTaskEndpointCases(op: TaskOperation, taskId: Option<string>)
    ensures GetTaskEndpoint(op, taskId).Failure? <==> op.TakesTaskId() && !Truthy(taskId)
    ensures GetTaskEndpoint(op, taskId).Success? && GetTaskEndpoint(op, taskId).value.Unapplied? <==>
      op.GetTasksByStatus? || op.GetTasksByUser?
    ensures op.TakesTaskId() && Truthy(taskId) ==>
      GetTaskEndpoint(op, taskId) == Success(Path(TaskPath(op, taskId.value))) &&
      TaskPath(op, taskId.value)[..7] == "/tasks/" && TaskPath(op, taskId.value)[7..7 + |taskId.value|] == taskId.value
  {
  }

  /** The keys of `USER_ENDPOINTS`; all three build the same path. */
  datatype UserOperation = GetUser | UpdateUser | DeleteUser {
    function Name(): string {
      match this
      case GetUser => "GET_USER"
      case UpdateUser => "UPDATE_USER"
      case DeleteUser => "DELETE_USER"
    }
  }

  /** `getUserEndpoint(operation, userId)`. */
  function GetUserEndpoint(op: UserOperation, userId: Option<string>): (r: Result<string>)
    ensures r.Failure? <==> !Truthy(userId)
    ensures r.Success? ==> r.value == "/users/" + userId.value
  {
    if !Truthy(userId) then Failure("User ID is required for " + op.Name() + " operation")
    else Success("/users/" + userId.value)
  }

  /** `[...new Set(s)]`: the first occurrence of every element, in order. */
  function Unique(s: seq<string>): seq<string> {
    if s == [] then []
    else
      var u := Unique(s[..|s| - 1]);
      if s[|s| - 1] in u then u else u + [s[|s| - 1]]
  }

  predicate NoDuplicates(s: seq<string>) {
    forall i, j :: 0 <= i < j < |s| ==> s[i] != s[j]
  }

  /** `Unique` keeps every element once and nothing else. */
  lemma {:induction false} UniqueIsSet(s: seq<string>)
    ensures NoDuplicates(Unique(s))
    ensures forall x :: x in Unique(s) <==> x in s
  {
    if s != [] {
      var init := s[..|s| - 1];
      UniqueIsSet(init);
      assert s == init + [s[|s| - 1]];
    }
  }

  /** A sequence with no repeated element is its own `Unique`. */
  lemma {:induction false} UniqueOfDistinct(s: seq<string>)
    requires NoDuplicates(s)
    ensures Unique(s) == s
  {
    if s != [] {
      var init := s[..|s| - 1];
      UniqueOfDistinct(init);
      assert s[|s| - 1] !in init by {
        forall k | 0 <= k < |init| ensures init[k] != s[|s| - 1] {
          assert init[k] == s[k];
        }
      }
      assert s == init + [s[|s| - 1]];
    }
  }

  /** The set-then-spread, one element at a time. */
  method Dedup(s: seq<string>) returns (r: seq<string>)
    ensures r == Unique(s)
  {
    r := [];
    var i := 0;
    while i < |s|
      invariant 0 <= i <= |s|
      invariant r == Unique(s[..i])
    {
      assert s[..i + 1][..i] == s[..i];
      if s[i] !in r {
        r := r + [s[i]];
      }
      i := i + 1;
    }
    assert s[..i] == s;
  }

  /**
   * `getAllEndpoints`: the six auth endpoints, then `/tasks` pushed twice
   * (as `GET_ALL_TASKS` and as `CREATE_TASK`), with the duplicate removed.
   */
  method GetAllEndpoints() returns (r: seq<string>)
    ensures r == AuthEndpoints + [AllTasks]
    ensures NoDuplicates(r)
  {
    var endpoints: seq<string> := [];
    var i := 0;
    while i < |AuthEndpoints|
      invariant 0 <= i <= |AuthEndpoints|
      invariant endpoints == AuthEndpoints[..i]
    {
      endpoints := endpoints + [AuthEndpoints[i]];
      i := i + 1;
    }
    endpoints := endpoints + [TaskPath(GetAllTasks, "")];
    endpoints := endpoints + [TaskPath(CreateTask, "")];
    r := Dedup(endpoints);
    UniqueOfDistinct(AuthEndpoints + [AllTasks]);
    assert endpoints == (AuthEndpoints + [AllTasks]) + [AllTasks];
    UniqueIsSet(r);
  }
}
