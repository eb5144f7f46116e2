/** A single task card: its six-digit id label, and the edit buffers with
    the toggle, save, cancel and delete actions it forwards to the task
    hook. */
module TaskItem {
  import opened Wrappers
  import opened JsText
  import opened Types
  import Api
  import UseTasks

  /** The card's state: edit mode and the two edit buffers. */
  datatype ItemState = ItemState(isEditing: bool, title: string, description: string)

  /** A card opens out of edit mode with the task's title and description
      (an empty string when it has none) in the buffers. */
  function Initial(task: Task): (s: ItemState)
    ensures !s.isEditing && s.title == task.title
    ensures s.description == if task.description.Some? then task.description.value else ""
  {
    ItemState(false, task.title, OrElse(task.description, ""))
  }

  /** `String(task.id).padStart(6, '0')`: the decimal id behind enough
      zeros to make six characters, or the bare id when it already has six
      or more digits. Reading it back gives the id. */
  function TaskIdLabel(id: nat): (r: string)
    ensures var d := DecimalString(id);
      && |r| == (if |d| < 6 then 6 else |d|)
      && r == Repeat('0', |r| - |d|) + d
    ensures IsDigits(r) && ParseDecimal(r) == id
  {
    var d := DecimalString(id);
    var r := PadStart(d, 6, '0');
    ZeroPadded(d, 6);
    ParseLeadingZeros(|r| - |d|, d);
    ParseDecimalString(id);
    r
  }

  /** Padding a digit string with '0' puts exactly the missing number of
      zeros in front of it. */
  lemma ZeroPadded(d: string, target: nat)
    requires IsDigits(d)
    ensures var r := PadStart(d, target, '0');
      && |r| == (if |d| < target then target else |d|)
      && r == Repeat('0', |r| - |d|) + d
  {
    assert forall i | 0 <= i < |d| :: d[i] as int < 0x1_0000 by {
      forall i | 0 <= i < |d|
        ensures d[i] as int < 0x1_0000
      {
        assert IsDigit(d[i]);
      }
    }
    Utf16LengthOfBmp(d);
    var r := PadStart(d, target, '0');
    var k := |r| - |d|;
    assert r == r[..k] + r[k..];
    assert r[..k] == Repeat('0', k);
  }

  /** Ids with six or more digits are shown unchanged. */
  lemma LongIdsUnpadded(id: nat)
    requires |DecimalString(id)| >= 6
    ensures TaskIdLabel(id) == DecimalString(id)
  {
    assert Repeat('0', 0) + DecimalString(id) == DecimalString(id);
  }

  /** `handleToggle` asks for the opposite of the task's current state. */
  function ToggleArgs(task: Task): (r: (nat, bool))
    ensures r.0 == task.id && r.1 == !task.completed
  {
    (task.id, !task.completed)
  }

  function StartEdit(s: ItemState): (r: ItemState)
    ensures r.isEditing && r.title == s.title && r.description == s.description
  {
    s.(isEditing := true)
  }

  /** The body `handleSave` sends: `{title, description}` from the buffers
      as they are (an empty description is sent as ""). */
  function SaveBody(s: ItemState): (body: Api.JsonObject)
    ensures Api.Lookup(body, "title") == Some(Api.JStr(s.title))
    ensures Api.Lookup(body, "description") == Some(Api.JStr(s.description))
    ensures |body| == 2
  {
    var body := [Api.Field("title", Api.JStr(s.title)), Api.Field("description", Api.JStr(s.description))];
    assert Api.Lookup(body[1..], "description") == Some(Api.JStr(s.description));
    body
  }

  /** `handleSave`: `onUpdate`, which the dashboard wires to the hook's
      `updateTask`, is called with the task id and the buffers; edit mode
      ends exactly when it did not re-throw. The buffers are kept. */
  function Save(s: ItemState, task: Task, hook: UseTasks.TasksState, reply: Api.FetchResult<Task>): (r: (ItemState, UseTasks.Step))
    ensures r.1 == UseTasks.UpdateTask(hook, task.id, SaveBody(s), reply)
    ensures r.1.call.endpoint == UseTasks.TaskPath(task.id) && r.1.call.init.verb == Api.PUT
    ensures r.0.isEditing <==> s.isEditing && r.1.rethrown.Some?
    ensures r.0.title == s.title && r.0.description == s.description
  {
    var step := UseTasks.UpdateTask(hook, task.id, SaveBody(s), reply);
    (if step.rethrown.Some? then s else s.(isEditing := false), step)
  }

  /** A save the server accepts leaves edit mode, and the list then shows
      the server's version of the task wherever the card's id occurs; a
      rejected save stays in edit mode with the list unchanged. */
  lemma SaveOutcome(s: ItemState, task: Task, hook: UseTasks.TasksState, reply: Api.FetchResult<Task>)
    requires s.isEditing
    ensures var (item, step) := Save(s, task, hook, reply);
      var o := Api.Classify(reply);
      && (o.Data? ==> !item.isEditing)
      && (o.Data? && o.data.Some? ==>
            forall i | 0 <= i < |hook.tasks| :: hook.tasks[i].id == task.id ==> step.state.tasks[i] == o.data.value)
      && (!o.Data? ==> item.isEditing && step.state.tasks == hook.tasks)
  {
  }

  /** `handleCancel`: the buffers go back to the task's values and edit
      mode ends; the card is as it was when first shown. */
  function Cancel(s: ItemState, task: Task): (r: ItemState)
    ensures !r.isEditing && r.title == task.title
    ensures r.description == if task.description.Some? then task.description.value else ""
    ensures r == Initial(task)
  {
    Initial(task)
  }

  /** `handleDelete`: the id is forwarded only when the user confirms. */
  function DeleteArgs(task: Task, confirmed: bool): (r: Option<nat>)
    ensures r.Some? <==> confirmed
    ensures r.Some? ==> r.value == task.id
  {
    if confirmed then Some(task.id) else None
  }

  /** Toggling a card flips the task in the list: when the server confirms
      the requested state, every task with the card's id ends up with the
      opposite of the card's `completed`. */
  lemma ToggleFlipsCompletion(s: UseTasks.TasksState, task: Task, server: Task)
    ensures var (id, completed) := ToggleArgs(task);
      var r := UseTasks.ToggleTaskCompletion(s, id, completed,
        Api.Received(Api.HttpResponse(200, Api.Decoded(server.(completed := completed), Api.EmptyObject))));
      forall i | 0 <= i < |s.tasks| :: s.tasks[i].id == task.id ==> r.state.tasks[i].completed == !task.completed
  {
  }
}
