/** The requests the board script sends, built as values (method, URL,
    body), and `Route`: how the REST API reads a request back into the
    action it asks for. Each builder is proved to round-trip through it. */
module Requests {
  import opened Wrappers
  import opened JsStrings

  const ApiBaseUrl := "https://kanban-js.onrender.com/api"
  const TasksUrl := ApiBaseUrl + "/tasks"
  const StatusSuffix := "/status"
  const StatusQuery := "?status="

  datatype Verb = GET | POST | PUT | PATCH | DELETE

  /** The JSON object the task form sends. */
  datatype TaskData = TaskData(title: string, description: string, assignedTo: Option<string>, status: string)

  datatype Body = NoBody | TaskBody(data: TaskData) | StatusBody(status: string)

  datatype Request = Request(verb: Verb, url: string, body: Body)

  /** The values of the task form's inputs; an input's value is always a string. */
  datatype TaskForm = TaskForm(id: string, title: string, description: string, assignedTo: string, status: string)

  /** What a request asks the API to do. */
  datatype Action =
    | CreateTask(data: TaskData)
    | ReplaceTask(id: string, data: TaskData)
    | SetStatus(id: string, status: string)
    | DeleteTask(id: string)
    | DeleteTasks(filter: Option<string>)

  /** The API's reading of a request: the path after `/tasks` selects the
      collection, one task, or one task's status; a `?status=` query on the
      collection filters a bulk delete. */
  function Route(r: Request): Option<Action> {
    if |r.url| < |TasksUrl| || r.url[..|TasksUrl|] != TasksUrl then None
    else
      var rest := r.url[|TasksUrl|..];
      match r.verb
      case GET => None
      case POST =>
        if rest == [] && r.body.TaskBody? then Some(CreateTask(r.body.data)) else None
      case PUT =>
        if |rest| > 0 && rest[0] == '/' && r.body.TaskBody? then Some(ReplaceTask(rest[1..], r.body.data))
        else None
      case PATCH =>
        if |rest| >= 1 + |StatusSuffix| && rest[0] == '/' && rest[|rest| - |StatusSuffix|..] == StatusSuffix
           && r.body.StatusBody?
        then Some(SetStatus(rest[1..|rest| - |StatusSuffix|], r.body.status))
        else None
      case DELETE =>
        if rest == [] then Some(DeleteTasks(None))
        else if rest[0] == '/' then Some(DeleteTask(rest[1..]))
        else if |rest| >= |StatusQuery| && rest[..|StatusQuery|] == StatusQuery
        then Some(DeleteTasks(Some(rest[|StatusQuery|..])))
        else None
  }

  /** The submit handler of the task form: an update when the hidden id is
      non-empty, a creation otherwise; an empty assignee becomes null. */
  function SaveTaskRequest(form: TaskForm): (r: Request)
    ensures r.verb == if form.id != "" then PUT else POST
    ensures var data := TaskData(form.title, form.description,
                                 if form.assignedTo == "" then None else Some(form.assignedTo),
                                 form.status);
            Route(r) == Some(if form.id != "" then ReplaceTask(form.id, data) else CreateTask(data))
  {
    var assignedTo := if Truthy(form.assignedTo) then Some(form.assignedTo) else None;
    var data := TaskData(form.title, form.description, assignedTo, form.status);
    if Truthy(form.id) then
      var url := TasksUrl + "/" + form.id;
      assert url[..|TasksUrl|] == TasksUrl && url[|TasksUrl|..] == "/" + form.id;
      Request(PUT, url, TaskBody(data))
    else
      assert TasksUrl[..|TasksUrl|] == TasksUrl;
      Request(POST, TasksUrl, TaskBody(data))
  }

  /** The delete control's click handler and `deleteTask`: nothing is sent
      unless the user confirms. */
  function DeleteTaskRequest(taskId: string, confirmed: bool): (r: Option<Request>)
    ensures r.Some? <==> confirmed
    ensures r.Some? ==> r.value.verb == DELETE && Route(r.value) == Some(DeleteTask(taskId))
    ensures r.Some? ==> r.value.body == NoBody
  {
    if !confirmed then None
    else
      var url := TasksUrl + "/" + taskId;
      assert url[..|TasksUrl|] == TasksUrl && url[|TasksUrl|..] == "/" + taskId;
      Some(Request(DELETE, url, NoBody))
  }

  /** `updateTaskStatus`: a partial update of the status field only. */
  function UpdateTaskStatusRequest(taskId: string, newStatus: string): (r: Request)
    ensures r.verb == PATCH
    ensures Route(r) == Some(SetStatus(taskId, newStatus))
  {
    var url := TasksUrl + "/" + taskId + StatusSuffix;
    var rest := "/" + taskId + StatusSuffix;
    assert url[..|TasksUrl|] == TasksUrl && url[|TasksUrl|..] == rest;
    assert rest[|rest| - |StatusSuffix|..] == StatusSuffix;
    assert rest[1..|rest| - |StatusSuffix|] == taskId;
    Request(PATCH, url, StatusBody(newStatus))
  }

  const ClearPrompt := "Tem certeza que deseja limpar todas as tarefas "
  const ClearAllPromptEnd := "existentes (todas as colunas)?"
  /** The identifier the clear-all branch reads, which is never declared. */
  const MisspelledName := "confimationMessage"

  /** What `clearTasksByStatus` does: it throws before asking anything, or it
      asks and the user declines, or it asks and sends a request. */
  datatype ClearOutcome =
    | ReferenceError(identifier: string)
    | Declined(prompt: string)
    | Sent(prompt: string, request: Request)

  function ColumnPrompt(status: string): string {
    ClearPrompt + "da coluna \"" + status + "\"?"
  }

  function ClearRequest(status: Option<string>): (r: Request)
    ensures Route(r) == Some(DeleteTasks(status))
    ensures r.verb == DELETE && r.body == NoBody
  {
    if status.None? then
      assert TasksUrl[..|TasksUrl|] == TasksUrl;
      Request(DELETE, TasksUrl, NoBody)
    else
      var url := TasksUrl + StatusQuery + status.value;
      var rest := StatusQuery + status.value;
      assert url[..|TasksUrl|] == TasksUrl && url[|TasksUrl|..] == rest;
      assert rest[..|StatusQuery|] == StatusQuery && rest[|StatusQuery|..] == status.value;
      Request(DELETE, url, NoBody)
  }

  /** `clearTasksByStatus` as written: with a falsy status the clear-all
      branch reads an undeclared identifier and throws before `confirm`. */
  function ClearTasksByStatus(status: Option<string>, confirmed: bool): (o: ClearOutcome)
    ensures o.ReferenceError? <==> !OptTruthy(status)
    ensures o.ReferenceError? ==> o.identifier == MisspelledName
    ensures OptTruthy(status) ==> o.prompt == ColumnPrompt(status.value)
    ensures o.Sent? <==> OptTruthy(status) && confirmed
    ensures o.Sent? ==> o.request.verb == DELETE && Route(o.request) == Some(DeleteTasks(status))
  {
    if !OptTruthy(status) then ReferenceError(MisspelledName)
    else
      var prompt := ColumnPrompt(status.value);
      if !confirmed then Declined(prompt) else Sent(prompt, ClearRequest(status))
  }

  /** `clearTasksByStatus` as evidently intended: the clear-all branch asks
      about every column and deletes the whole collection. */
  function ClearTasksByStatusIntended(status: Option<string>, confirmed: bool): (o: ClearOutcome)
    ensures !o.ReferenceError?
    ensures o.Sent? <==> confirmed
    ensures o.Sent? ==>
      (o.request.verb == DELETE &&
       Route(o.request) == Some(DeleteTasks(if OptTruthy(status) then status else None)))
    ensures !OptTruthy(status) ==> o.prompt == ClearPrompt + ClearAllPromptEnd
    ensures OptTruthy(status) ==> o == ClearTasksByStatus(status, confirmed)
  {
    var prompt := if OptTruthy(status) then ColumnPrompt(status.value) else ClearPrompt + ClearAllPromptEnd;
    if !confirmed then Declined(prompt)
    else Sent(prompt, ClearRequest(if OptTruthy(status) then status else None))
  }

  const ListSuffix := "-list"

  /** The status a drop targets: `list.id.replace('-list', '')`. */
  function DropStatus(listId: string): string {
    ReplaceFirst(listId, ListSuffix, "")
  }

  /** `replace('-list', '')` leaves an id without "-list" as it is, and
      otherwise removes the first "-list": putting it back there restores
      the id. */
  lemma DropStatusRemovesFirstSuffix(listId: string)
    ensures DropStatus(listId) == listId <==> forall j :: !OccursAt(listId, ListSuffix, j)
    ensures DropStatus(listId) != listId ==>
      exists i :: 0 <= i <= |DropStatus(listId)| && OccursAt(listId, ListSuffix, i) &&
                  DropStatus(listId)[..i] + ListSuffix + DropStatus(listId)[i..] == listId &&
                  forall j :: 0 <= j < i ==> !OccursAt(listId, ListSuffix, j)
  {
  }

  /** A list id built from a status that does not itself contain "-list"
      gives that status back. */
  lemma {:induction false} DropStatusOfListId(status: string)
    requires IndexOf(status, ListSuffix) == None
    ensures DropStatus(status + ListSuffix) == status
  {
    var s := status + ListSuffix;
    var n := |status|;
    assert s[n..n + |ListSuffix|] == ListSuffix;
    assert OccursAt(s, ListSuffix, n);
    forall j: nat | j < n ensures !OccursAt(s, ListSuffix, j) {
      if j + |ListSuffix| <= n {
        assert s[j..j + |ListSuffix|] == status[j..j + |ListSuffix|];
        assert !OccursAt(status, ListSuffix, j);
      } else {
        // the '-' at index n would have to be one of the letters of "list"
        var d := n - j;
        assert s[j..j + |ListSuffix|][d] == s[n] == '-';
        assert ListSuffix[d] != '-';
      }
    }
    var r := IndexOf(s, ListSuffix);
    assert r == Some(n);
    assert s[..n] == status;
    assert s[n + |ListSuffix|..] == [];
  }

  /** The drop handler of a task list: when the dragged card is on the page,
      its status is set to the one the list's id names. */
  function DropRequest(listId: string, taskId: string, cardFound: bool): (r: Option<Request>)
    ensures r.Some? <==> cardFound
    ensures r.Some? ==> r.value.verb == PATCH && Route(r.value) == Some(SetStatus(taskId, DropStatus(listId)))
  {
    if !cardFound then None else Some(UpdateTaskStatusRequest(taskId, DropStatus(listId)))
  }

  /** Dropping a task with id "1" on the done list sends PATCH
      /tasks/1/status with the body {status: "done"}. */
  lemma DropOnDoneList()
    ensures DropRequest("done-list", "1", true) ==
      Some(Request(PATCH, ApiBaseUrl + "/tasks/1/status", StatusBody("done")))
  {
    assert IndexOf("done", ListSuffix) == None;
    DropStatusOfListId("done");
    assert "done" + ListSuffix == "done-list";
    assert TasksUrl + "/" + "1" + StatusSuffix == ApiBaseUrl + "/tasks/1/status";
  }
}
