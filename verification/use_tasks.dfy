/** The task-list hook: the list, loading flag and error banner the dashboard
    renders, and how each gateway call updates them. Every operation first
    clears the error, issues its request, then applies a pure update of the
    list (append, replace by id, merge completion, filter by id, replace all)
    or, on failure, records the error message and leaves the list alone. */
module UseTasks {
  import opened Wrappers
  import opened JsText
  import opened Types
  import Api
  import TaskForm

  datatype TasksState = TasksState(tasks: seq<Task>, loading: bool, error: Option<string>)

  /** The hook's state on mount, before the first load returns. */
  const Initial: TasksState := TasksState([], true, None)

  /** The list endpoint's reply; the counters it also carries are unused. */
  datatype TaskListBody = TaskListBody(tasks: Option<seq<Task>>)

  /** An operation's effect: the request it issued through the gateway, the
      new state, and the message of the error it re-throws to its caller, if
      any. */
  datatype Step = Step(call: Api.Call, state: TasksState, rethrown: Option<string>)

  // ------------------------------------------------------------ list updates

  /** `prev.map(task => task.id === id ? t : task)`. */
  function Replaced(prev: seq<Task>, id: nat, t: Task): (r: seq<Task>)
    ensures |r| == |prev|
    ensures forall i | 0 <= i < |r| :: prev[i].id == id ==> r[i] == t
    ensures forall i | 0 <= i < |r| :: prev[i].id != id ==> r[i] == prev[i]
  {
    if prev == [] then []
    else [if prev[0].id == id then t else prev[0]] + Replaced(prev[1..], id, t)
  }

  /** `prev.map(task => task.id === id ? {...task, completed, completed_at} : task)`
      with both fields copied from the server's task `data`. */
  function MergedCompletion(prev: seq<Task>, id: nat, data: Task): (r: seq<Task>)
    ensures |r| == |prev|
    ensures forall i | 0 <= i < |r| ::
      r[i].(completed := prev[i].completed, completedAt := prev[i].completedAt) == prev[i]
    ensures forall i | 0 <= i < |r| :: prev[i].id == id ==>
      r[i].completed == data.completed && r[i].completedAt == data.completedAt
    ensures forall i | 0 <= i < |r| :: prev[i].id != id ==> r[i] == prev[i]
  {
    if prev == [] then []
    else
      var head := if prev[0].id == id
        then prev[0].(completed := data.completed, completedAt := data.completedAt)
        else prev[0];
      [head] + MergedCompletion(prev[1..], id, data)
  }

  /** `prev.filter(task => task.id !== id)`. */
  function Removed(prev: seq<Task>, id: nat): (r: seq<Task>)
    ensures |r| <= |prev|
    ensures forall t :: t in r <==> t in prev && t.id != id
    ensures (forall i | 0 <= i < |prev| :: prev[i].id != id) ==> r == prev
  {
    if prev == [] then []
    else if prev[0].id == id then Removed(prev[1..], id)
    else [prev[0]] + Removed(prev[1..], id)
  }

  /** Removal keeps the relative order of the tasks it keeps: removing from
      a concatenation is removing from each part. */
  lemma {:induction false} RemovedPreservesOrder(a: seq<Task>, b: seq<Task>, id: nat)
    ensures Removed(a + b, id) == Removed(a, id) + Removed(b, id)
  {
    if a != [] {
      assert (a + b)[0] == a[0];
      assert (a + b)[1..] == a[1..] + b;
      RemovedPreservesOrder(a[1..], b, id);
    } else {
      assert a + b == b;
    }
  }

  /** Deleting the same id twice has the effect of deleting it once. */
  lemma RemovedIdempotent(prev: seq<Task>, id: nat)
    ensures Removed(Removed(prev, id), id) == Removed(prev, id)
  {
    var r := Removed(prev, id);
    forall i | 0 <= i < |r|
      ensures r[i].id != id
    {
      assert r[i] in r;
    }
  }

  /** Replacing with the server's task for `id` twice changes nothing more. */
  lemma ReplacedIdempotent(prev: seq<Task>, id: nat, t: Task)
    ensures Replaced(Replaced(prev, id, t), id, t) == Replaced(prev, id, t)
  {
  }

  // ------------------------------------------------------------- requests

  /** `/tasks/<id>`: the id in decimal can be read back from the path. */
  function TaskPath(id: nat): (p: string)
    ensures |p| > 7 && p[..7] == "/tasks/"
    ensures IsDigits(p[7..]) && ParseDecimal(p[7..]) == id
  {
    var p := "/tasks/" + DecimalString(id);
    assert p[7..] == DecimalString(id);
    ParseDecimalString(id);
    p
  }

  function LoadCall(): (c: Api.Call)
    ensures c.endpoint == "/tasks" && c.init.verb == Api.GET && c.init.body.None?
    ensures c.init.headers == map[]
  {
    Api.Get("/tasks")
  }

  function CreateCall(body: Api.JsonObject): (c: Api.Call)
    ensures c.endpoint == "/tasks" && c.init.verb == Api.POST && c.init.body == Some(body)
    ensures c.init.headers == map[]
  {
    Api.Post("/tasks", body)
  }

  function UpdateCall(id: nat, body: Api.JsonObject): (c: Api.Call)
    ensures c.endpoint == TaskPath(id) && c.init.verb == Api.PUT && c.init.body == Some(body)
    ensures c.init.headers == map[]
  {
    Api.Put(TaskPath(id), body)
  }

  function ToggleCall(id: nat, completed: bool): (c: Api.Call)
    ensures c.init.verb == Api.PATCH
    ensures c.endpoint == TaskPath(id) + "/complete"
    ensures c.init.body.Some? && Api.Lookup(c.init.body.value, "completed") == Some(Api.JBool(completed))
    ensures |c.init.body.value| == 1
    ensures c.init.headers == map[]
  {
    Api.Patch(TaskPath(id) + "/complete", [Api.Field("completed", Api.JBool(completed))])
  }

  function DeleteCall(id: nat): (c: Api.Call)
    ensures c.endpoint == TaskPath(id) && c.init.verb == Api.DELETE && c.init.body.None?
    ensures c.init.headers == map[]
  {
    Api.Delete(TaskPath(id))
  }

  /** The task-creation body the dashboard sends for a form payload: the
      form's fields with `completed: false` added; an absent description is
      left out of the JSON. */
  function DashboardCreateBody(p: TaskForm.Payload): (body: Api.JsonObject)
    ensures Api.Lookup(body, "title") == Some(Api.JStr(p.title))
    ensures Api.Lookup(body, "completed") == Some(Api.JBool(false))
    ensures p.description.Some? ==> Api.Lookup(body, "description") == Some(Api.JStr(p.description.value))
    ensures p.description.None? ==> Api.Lookup(body, "description").None?
    ensures |body| == if p.description.Some? then 3 else 2
  {
    var title := Api.Field("title", Api.JStr(p.title));
    var completed := Api.Field("completed", Api.JBool(false));
    if p.description.Some? then
      var body := [title, Api.Field("description", Api.JStr(p.description.value)), completed];
      assert body[1..][1..] == [completed];
      assert Api.Lookup(body[1..][1..], "completed") == Some(Api.JBool(false));
      assert Api.Lookup(body[1..], "completed") == Some(Api.JBool(false));
      body
    else
      var body := [title, completed];
      assert body[1..] == [completed];
      body
  }

  // ----------------------------------------------------------- operations

  /** State while a mutation's request is in flight: the error is cleared. */
  function Begin(s: TasksState): (r: TasksState)
    ensures r.error.None?
    ensures r.tasks == s.tasks && r.loading == s.loading
  {
    s.(error := None)
  }

  /** State while the list is loading: loading set, error cleared. */
  function BeginLoad(s: TasksState): (r: TasksState)
    ensures r.loading && r.error.None?
    ensures r.tasks == s.tasks
  {
    s.(loading := true, error := None)
  }

  /** A failed operation: `err.message || fallback` is shown, and the
      error is re-thrown when the operation re-throws. */
  function Failed(call: Api.Call, s: TasksState, e: Api.ApiError, fallback: string): Step {
    Step(call, s.(error := Some(Or(e.message, fallback))), Some(e.message))
  }

  /** `loadTasks`: on success the list becomes the reply's `tasks`, or empty
      when the reply has none; on failure the list is kept and the message
      shown. Loading ends either way, and nothing is re-thrown. */
  function LoadTasks(s: TasksState, reply: Api.FetchResult<TaskListBody>): (r: Step)
    ensures r.call == LoadCall() && r.rethrown.None?
    ensures !r.state.loading
    ensures var o := Api.Classify(reply);
      && (o.Data? && o.data.Some? && o.data.value.tasks.Some? ==> r.state.tasks == o.data.value.tasks.value)
      && (o.Data? && (o.data.None? || o.data.value.tasks.None?) ==> r.state.tasks == [])
      && (o.Data? ==> r.state.error.None?)
      && (!o.Data? ==> r.state.tasks == s.tasks && r.state.error == Some(o.Failure().message))
  {
    var issued := BeginLoad(s);
    match Api.Classify(reply)
    case Data(body) =>
      var tasks := if body.Some? && body.value.tasks.Some? then body.value.tasks.value else [];
      Step(LoadCall(), issued.(tasks := tasks, loading := false), None)
    case Error(e) => Step(LoadCall(), issued.(error := Some(Or(e.message, "Failed to load tasks")), loading := false), None)
    case Thrown(e) => Step(LoadCall(), issued.(error := Some(Or(e.message, "Failed to load tasks")), loading := false), None)
  }

  /** The hook on mount: it starts with no tasks, loading and no error, and
      its effect loads the list at once. A failed first load leaves the list
      empty with the message shown; a successful one shows no error. */
  function Mount(reply: Api.FetchResult<TaskListBody>): (r: Step)
    ensures Initial.tasks == [] && Initial.loading && Initial.error.None?
    ensures r.call == LoadCall() && !r.state.loading
    ensures r.state.error.Some? <==> !Api.Classify(reply).Data?
    ensures !Api.Classify(reply).Data? ==> r.state.tasks == []
  {
    LoadTasks(Initial, reply)
  }

  /** `createTask`: the server's task is appended at the end and nothing
      before it moves; a reply without a task changes nothing; a failure
      keeps the list, shows the gateway's message and re-throws it. */
  function CreateTask(s: TasksState, body: Api.JsonObject, reply: Api.FetchResult<Task>): (r: Step)
    ensures r.call == CreateCall(body)
    ensures r.state.loading == s.loading
    ensures var o := Api.Classify(reply);
      && (o.Data? && o.data.Some? ==>
            |r.state.tasks| == |s.tasks| + 1 && r.state.tasks[..|s.tasks|] == s.tasks
            && r.state.tasks[|s.tasks|] == o.data.value)
      && (o.Data? && o.data.None? ==> r.state.tasks == s.tasks)
      && (o.Data? ==> r.state.error.None? && r.rethrown.None?)
      && (!o.Data? ==> r.state.tasks == s.tasks && r.state.error == Some(o.Failure().message)
                       && r.rethrown == Some(o.Failure().message))
  {
    var issued := Begin(s);
    var call := CreateCall(body);
    match Api.Classify(reply)
    case Data(data) =>
      Step(call, if data.Some? then issued.(tasks := issued.tasks + [data.value]) else issued, None)
    case Error(e) => Failed(call, issued, e, "Failed to create task")
    case Thrown(e) => Failed(call, issued, e, "Failed to create task")
  }

  /** `updateTask`: every task with that id is replaced by the server's
      task, the length and all other tasks are kept; failures as for create. */
  function UpdateTask(s: TasksState, id: nat, body: Api.JsonObject, reply: Api.FetchResult<Task>): (r: Step)
    ensures r.call == UpdateCall(id, body)
    ensures r.state.loading == s.loading
    ensures |r.state.tasks| == |s.tasks|
    ensures var o := Api.Classify(reply);
      && (o.Data? && o.data.Some? ==>
            forall i | 0 <= i < |s.tasks| ::
              r.state.tasks[i] == (if s.tasks[i].id == id then o.data.value else s.tasks[i]))
      && (o.Data? && o.data.None? ==> r.state.tasks == s.tasks)
      && (o.Data? ==> r.state.error.None? && r.rethrown.None?)
      && (!o.Data? ==> r.state.tasks == s.tasks && r.state.error == Some(o.Failure().message)
                       && r.rethrown == Some(o.Failure().message))
  {
    var issued := Begin(s);
    var call := UpdateCall(id, body);
    match Api.Classify(reply)
    case Data(data) =>
      Step(call, if data.Some? then issued.(tasks := Replaced(issued.tasks, id, data.value)) else issued, None)
    case Error(e) => Failed(call, issued, e, "Failed to update task")
    case Thrown(e) => Failed(call, issued, e, "Failed to update task")
  }

  /** `toggleTaskCompletion`: tasks with that id take `completed` and
      `completed_at` from the server's task and keep every other field;
      other tasks are untouched; failures as for create. */
  function ToggleTaskCompletion(s: TasksState, id: nat, completed: bool, reply: Api.FetchResult<Task>): (r: Step)
    ensures r.call == ToggleCall(id, completed)
    ensures r.state.loading == s.loading
    ensures |r.state.tasks| == |s.tasks|
    ensures forall i | 0 <= i < |s.tasks| ::
      r.state.tasks[i].(completed := s.tasks[i].completed, completedAt := s.tasks[i].completedAt) == s.tasks[i]
    ensures var o := Api.Classify(reply);
      && (o.Data? && o.data.Some? ==>
            forall i | 0 <= i < |s.tasks| :: s.tasks[i].id == id ==>
              r.state.tasks[i].completed == o.data.value.completed
              && r.state.tasks[i].completedAt == o.data.value.completedAt)
      && (forall i | 0 <= i < |s.tasks| :: s.tasks[i].id != id ==> r.state.tasks[i] == s.tasks[i])
      && (!(o.Data? && o.data.Some?) ==> r.state.tasks == s.tasks)
      && (o.Data? ==> r.state.error.None? && r.rethrown.None?)
      && (!o.Data? ==> r.state.error == Some(o.Failure().message) && r.rethrown == Some(o.Failure().message))
  {
    var issued := Begin(s);
    var call := ToggleCall(id, completed);
    match Api.Classify(reply)
    case Data(data) =>
      Step(call, if data.Some? then issued.(tasks := MergedCompletion(issued.tasks, id, data.value)) else issued, None)
    case Error(e) => Failed(call, issued, e, "Failed to update task completion")
    case Thrown(e) => Failed(call, issued, e, "Failed to update task completion")
  }

  /** What `deleteTask` does with the gateway's outcome. */
  function AfterDelete(s: TasksState, id: nat, o: Api.Outcome<()>): (r: Step)
    ensures r.call == DeleteCall(id) && r.state.loading == s.loading
    ensures o.Data? ==> r.state.tasks == Removed(s.tasks, id) && r.state.error.None? && r.rethrown.None?
    ensures !o.Data? ==> r.state.tasks == s.tasks && r.rethrown == Some(o.Failure().message)
    ensures !o.Data? ==> r.state.error == Some(Or(o.Failure().message, "Failed to delete task"))
  {
    var issued := Begin(s);
    match o
    case Data(_) => Step(DeleteCall(id), issued.(tasks := Removed(issued.tasks, id)), None)
    case Error(e) => Failed(DeleteCall(id), issued, e, "Failed to delete task")
    case Thrown(e) => Failed(DeleteCall(id), issued, e, "Failed to delete task")
  }

  /** `deleteTask`: on any successful reply every task with that id is gone
      and the rest keep their order; a failure keeps the list, shows the
      gateway's message and re-throws it. */
  function DeleteTask(s: TasksState, id: nat, reply: Api.FetchResult<()>): (r: Step)
    ensures r.call == DeleteCall(id)
    ensures r.state.loading == s.loading
    ensures var o := Api.Classify(reply);
      && (o.Data? ==> (forall t :: t in r.state.tasks <==> t in s.tasks && t.id != id)
                      && r.state.tasks == Removed(s.tasks, id)
                      && r.state.error.None? && r.rethrown.None?)
      && (!o.Data? ==> r.state.tasks == s.tasks && r.state.error == Some(o.Failure().message)
                       && r.rethrown == Some(o.Failure().message))
  {
    AfterDelete(s, id, Api.Classify(reply))
  }

  /** Deleting an id no task has leaves the list exactly as it was. */
  lemma DeleteAbsentId(s: TasksState, id: nat, reply: Api.FetchResult<()>)
    requires forall i | 0 <= i < |s.tasks| :: s.tasks[i].id != id
    ensures DeleteTask(s, id, reply).state.tasks == s.tasks
  {
  }

  /** Creating a task under a fresh id and then deleting that id gives back
      the list as it was before the create. */
  lemma {:induction false} CreateThenDelete(s: TasksState, body: Api.JsonObject, reply: Api.FetchResult<Task>,
                                            deleteReply: Api.FetchResult<()>)
    requires Api.Classify(reply).Data? && Api.Classify(reply).data.Some?
    requires forall i | 0 <= i < |s.tasks| :: s.tasks[i].id != Api.Classify(reply).data.value.id
    requires Api.Classify(deleteReply).Data?
    ensures var created := CreateTask(s, body, reply).state;
      DeleteTask(created, Api.Classify(reply).data.value.id, deleteReply).state.tasks == s.tasks
  {
    var t := Api.Classify(reply).data.value;
    var created := CreateTask(s, body, reply).state;
    assert created.tasks == s.tasks + [t] by {
      assert created.tasks == created.tasks[..|s.tasks|] + [created.tasks[|s.tasks|]];
    }
    RemovedPreservesOrder(s.tasks, [t], t.id);
    assert Removed([t], t.id) == Removed([], t.id) == [];
    assert Removed(s.tasks, t.id) == s.tasks;
  }

  /** A delete whose reply is a success status with an empty body (such as
      204 No Content) does not decode, so the gateway throws "Unexpected error
      occurred" and the task stays in the list. */
  lemma DeleteWithEmptySuccessBody(s: TasksState, id: nat, status: nat)
    requires 200 <= status <= 299
    ensures var r := DeleteTask(s, id, Api.Received(Api.HttpResponse(status, Api.Malformed)));
      && r.state.tasks == s.tasks
      && r.state.error == Some(Api.UnexpectedErrorMessage)
      && r.rethrown == Some(Api.UnexpectedErrorMessage)
  {
  }

  /** `deleteTask` over the gateway as evidently intended, which accepts a
      "204 No Content" reply as success. */
  function DeleteTaskIntended(s: TasksState, id: nat, reply: Api.FetchResult<()>): (r: Step)
    ensures r.call == DeleteCall(id)
    ensures reply.Received? && reply.response.status == Api.NoContent ==>
      r.state.tasks == Removed(s.tasks, id) && r.state.error.None? && r.rethrown.None?
    ensures !(reply.Received? && reply.response.status == Api.NoContent) ==> r == DeleteTask(s, id, reply)
  {
    AfterDelete(s, id, Api.ClassifyIntended(reply))
  }

  /** With the intended gateway a "204 No Content" delete removes the task
      whatever the (empty) body, where the gateway as written keeps it. */
  lemma NoContentDeleteRemoves(s: TasksState, id: nat, body: Api.JsonBody<()>)
    requires exists i | 0 <= i < |s.tasks| :: s.tasks[i].id == id
    ensures var reply := Api.Received(Api.HttpResponse(Api.NoContent, body));
      && (forall t | t in DeleteTaskIntended(s, id, reply).state.tasks :: t.id != id)
      && (body.Malformed? ==> exists t | t in DeleteTask(s, id, reply).state.tasks :: t.id == id)
  {
    var i :| 0 <= i < |s.tasks| && s.tasks[i].id == id;
    assert s.tasks[i] in s.tasks;
  }
}
