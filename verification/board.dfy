/** The board page: its three task lists, the assignee selector and the
    clear-column buttons, and the handlers that rebuild them. */
module Board {
  import opened Wrappers
  import opened JsStrings
  import opened Session
  import opened Cards
  import opened Responses
  import Requests

  /** The three task lists of the page. */
  datatype Col = ToDoList | InProgressList | DoneList

  function StatusOf(c: Col): string {
    match c
    case ToDoList => "to-do"
    case InProgressList => "in-progress"
    case DoneList => "done"
  }

  /** The element id of a list, e.g. "to-do-list". */
  function ListId(c: Col): string {
    StatusOf(c) + Requests.ListSuffix
  }

  /** The list `renderTasks` appends a task with this status to, if any. */
  function ColumnFor(status: string): (c: Option<Col>)
    ensures c.Some? ==> StatusOf(c.value) == status
    ensures c.None? ==> forall col: Col :: StatusOf(col) != status
  {
    if status == "to-do" then Some(ToDoList)
    else if status == "in-progress" then Some(InProgressList)
    else if status == "done" then Some(DoneList)
    else None
  }

  /** The positions, in increasing order, of the tasks whose status leads to
      `target` (`None`: to no list at all). */
  function Indices(tasks: seq<Task>, target: Option<Col>): (r: seq<nat>)
    ensures forall k :: 0 <= k < |r| ==> r[k] < |tasks| && ColumnFor(tasks[r[k]].status) == target
    ensures forall k, l :: 0 <= k < l < |r| ==> r[k] < r[l]
    ensures forall i :: 0 <= i < |tasks| && ColumnFor(tasks[i].status) == target ==> i in r
    decreases |tasks|
  {
    if tasks == [] then []
    else
      var n := |tasks| - 1;
      Indices(tasks[..n], target) + (if ColumnFor(tasks[n].status) == target then [n] else [])
  }

  /** The cards of one list after rendering `tasks`, built the way the loop
      builds them: one task at a time, appended at the end. */
  function Column(tasks: seq<Task>, c: Col, users: seq<User>, items: map<string, string>): seq<Card>
    decreases |tasks|
  {
    if tasks == [] then []
    else
      var n := |tasks| - 1;
      Column(tasks[..n], c, users, items) +
        (if ColumnFor(tasks[n].status) == Some(c) then [CreateTaskElement(tasks[n], users, items)] else [])
  }

  /** Rendering one more task appends at most its card to a list. */
  lemma ColumnStep(tasks: seq<Task>, i: nat, c: Col, users: seq<User>, items: map<string, string>)
    requires i < |tasks|
    ensures Column(tasks[..i + 1], c, users, items) ==
      Column(tasks[..i], c, users, items) +
        (if ColumnFor(tasks[i].status) == Some(c) then [CreateTaskElement(tasks[i], users, items)] else [])
  {
    assert tasks[..i + 1][..i] == tasks[..i];
  }

  /** A list holds exactly the cards of the tasks with its status, in the
      order of the task list. */
  lemma {:induction false} ColumnIsSelection(tasks: seq<Task>, c: Col, users: seq<User>, items: map<string, string>)
    ensures |Column(tasks, c, users, items)| == |Indices(tasks, Some(c))|
    ensures forall k :: 0 <= k < |Indices(tasks, Some(c))| ==>
      Column(tasks, c, users, items)[k] == CreateTaskElement(tasks[Indices(tasks, Some(c))[k]], users, items)
    decreases |tasks|
  {
    if tasks != [] {
      var n := |tasks| - 1;
      var prefix := tasks[..n];
      ColumnIsSelection(prefix, c, users, items);
      forall k | 0 <= k < |Indices(prefix, Some(c))|
        ensures prefix[Indices(prefix, Some(c))[k]] == tasks[Indices(prefix, Some(c))[k]]
      {
      }
    }
  }

  /** Every task goes to one list or is dropped, so the three lists and the
      dropped tasks together account for the whole task list. */
  lemma {:induction false} PartitionCoversTasks(tasks: seq<Task>)
    ensures |Indices(tasks, Some(ToDoList))| + |Indices(tasks, Some(InProgressList))|
          + |Indices(tasks, Some(DoneList))| + |Indices(tasks, None)| == |tasks|
    decreases |tasks|
  {
    if tasks != [] {
      PartitionCoversTasks(tasks[..|tasks| - 1]);
    }
  }

  /** Membership in `Indices`, both ways. */
  lemma InIndicesIff(tasks: seq<Task>, i: nat, target: Option<Col>)
    requires i < |tasks|
    ensures i in Indices(tasks, target) <==> ColumnFor(tasks[i].status) == target
  {
  }

  /** A task is in the list of its status and in no other; a task whose
      status names no list is in none. */
  lemma EachTaskInItsOwnColumn(tasks: seq<Task>, i: nat)
    requires i < |tasks|
    ensures i in Indices(tasks, Some(ToDoList)) <==> tasks[i].status == "to-do"
    ensures i in Indices(tasks, Some(InProgressList)) <==> tasks[i].status == "in-progress"
    ensures i in Indices(tasks, Some(DoneList)) <==> tasks[i].status == "done"
    ensures i in Indices(tasks, None) <==>
      tasks[i].status != "to-do" && tasks[i].status != "in-progress" && tasks[i].status != "done"
  {
  }

  /** Each list's id, with "-list" stripped, is the status it shows. */
  lemma DropStatusOfList(c: Col)
    ensures Requests.DropStatus(ListId(c)) == StatusOf(c)
    ensures ColumnFor(Requests.DropStatus(ListId(c))) == Some(c)
  {
    var status := StatusOf(c);
    forall j | 0 <= j < |status| - 1
      ensures !(status[j] == Requests.ListSuffix[0] && status[j + 1] == Requests.ListSuffix[1])
    {
    }
    NoOccurrenceByFirstTwo(status, Requests.ListSuffix);
    Requests.DropStatusOfListId(status);
  }

  /** A task re-fetched with the status a drop on list `c` sent lands in `c`
      and in no other list. */
  lemma DropLandsInTargetColumn(tasks: seq<Task>, i: nat, c: Col, d: Col)
    requires i < |tasks|
    ensures var moved := tasks[i := tasks[i].(status := Requests.DropStatus(ListId(c)))];
            i in Indices(moved, Some(d)) <==> d == c
  {
    DropStatusOfList(c);
    var moved := tasks[i := tasks[i].(status := Requests.DropStatus(ListId(c)))];
    InIndicesIff(moved, i, Some(d));
  }

  /** `setupUIBasedOnRole`: whether the clear-column buttons are displayed. */
  function ClearButtonsVisible(items: map<string, string>): (shown: bool)
    ensures shown <==> RoleKey in items && items[RoleKey] == AdminRole
    ensures shown ==> forall c: CreatedBy :: DeleteButtonVisible(c, items)
  {
    GetItem(items, RoleKey) == Some(AdminRole)
  }

  /** The role and the user id survive `redirectToLogin`, so both display
      rules read the same after a logout as before it. */
  lemma RoleRulesSurviveLogout(items: map<string, string>, c: CreatedBy)
    ensures ClearButtonsVisible(LoggedOut(items)) == ClearButtonsVisible(items)
    ensures DeleteButtonVisible(c, LoggedOut(items)) == DeleteButtonVisible(c, items)
  {
  }

  datatype SelectOption = SelectOption(value: string, text: string)

  /** A `/users` response body: a list of users, or not JSON. */
  datatype UsersBody = UserList(users: seq<User>) | UsersNotJson

  /** A `/tasks` response body: a list of tasks, other JSON (an error object,
      say), or not JSON. */
  datatype TasksBody = TaskList(tasks: seq<Task>) | OtherJson | TasksNotJson

  /** The assignee selector as `populateAssignedToSelect` fills it: the
      "Não Atribuído" option with an empty value, then one option per user. */
  predicate OptionsFor(options: seq<SelectOption>, users: seq<User>) {
    |options| == 1 + |users| &&
    options[0] == SelectOption("", NotAssigned) &&
    forall k :: 0 <= k < |users| ==> options[k + 1] == SelectOption(users[k].id, users[k].username)
  }

  /** Picking the option at position `p` of the selector and saving sends its
      value as the assignee (the empty value as null); the task that comes
      back then shows the picked option's text: the sentinel as unassigned,
      a user's option as that user's name when no earlier user has its id. */
  lemma AssigneeOptionRoundTrip(users: seq<User>, options: seq<SelectOption>, p: nat, form: Requests.TaskForm)
    requires OptionsFor(options, users) && p < |options|
    requires form.assignedTo == options[p].value
    ensures Requests.Route(Requests.SaveTaskRequest(form)).value.data.assignedTo ==
      if options[p].value == "" then None else Some(options[p].value)
    ensures p == 0 ==> AssigneeLabel(Unassigned, users) == options[p].text
    ensures 0 < p && options[p].value != "" &&
            (forall j :: 0 <= j < p - 1 ==> users[j].id != options[p].value) ==>
      AssigneeLabel(AssignedId(options[p].value), users) == options[p].text
  {
    if 0 < p && options[p].value != "" &&
       (forall j :: 0 <= j < p - 1 ==> users[j].id != options[p].value) {
      assert options[p] == SelectOption(users[p - 1].id, users[p - 1].username);
      AssignedIdShowsUsername(users, p - 1);
    }
  }

  /** The board page's state that the script rebuilds. */
  class BoardPage {
    var toDoList: seq<Card>
    var inProgressList: seq<Card>
    var doneList: seq<Card>
    var allUsers: seq<User>
    var assigneeOptions: seq<SelectOption>
    /** The display state of each clear-column button. */
    var clearButtonsShown: seq<bool>

    constructor (options: seq<SelectOption>, clearButtons: seq<bool>)
      ensures toDoList == [] && inProgressList == [] && doneList == []
      ensures allUsers == []
      ensures assigneeOptions == options && clearButtonsShown == clearButtons
    {
      toDoList, inProgressList, doneList := [], [], [];
      allUsers := [];
      assigneeOptions := options;
      clearButtonsShown := clearButtons;
    }

    /** `populateAssignedToSelect`: the sentinel first, then one option per
        user, in order. */
    method PopulateAssignedToSelect()
      modifies this`assigneeOptions
      ensures |assigneeOptions| == 1 + |allUsers|
      ensures assigneeOptions[0] == SelectOption("", NotAssigned)
      ensures forall k :: 0 <= k < |allUsers| ==>
        assigneeOptions[k + 1] == SelectOption(allUsers[k].id, allUsers[k].username)
      ensures OptionsFor(assigneeOptions, allUsers)
    {
      assigneeOptions := [SelectOption("", NotAssigned)];
      var i := 0;
      while i < |allUsers|
        invariant 0 <= i <= |allUsers|
        invariant |assigneeOptions| == 1 + i
        invariant assigneeOptions[0] == SelectOption("", NotAssigned)
        invariant forall k :: 0 <= k < i ==>
          assigneeOptions[k + 1] == SelectOption(allUsers[k].id, allUsers[k].username)
      {
        assigneeOptions := assigneeOptions + [SelectOption(allUsers[i].id, allUsers[i].username)];
        i := i + 1;
      }
    }

    /** `renderTasks`: all three lists are emptied, then each task's card is
        appended to the list of its status; other statuses are dropped. */
    method RenderTasks(tasks: seq<Task>, store: LocalStorage)
      modifies this`toDoList, this`inProgressList, this`doneList
      ensures toDoList == Column(tasks, ToDoList, allUsers, store.items)
      ensures inProgressList == Column(tasks, InProgressList, allUsers, store.items)
      ensures doneList == Column(tasks, DoneList, allUsers, store.items)
    {
      var users, items := allUsers, store.items;
      var toDo, inProgress, done := [], [], [];
      var i := 0;
      while i < |tasks|
        invariant 0 <= i <= |tasks|
        invariant toDo == Column(tasks[..i], ToDoList, users, items)
        invariant inProgress == Column(tasks[..i], InProgressList, users, items)
        invariant done == Column(tasks[..i], DoneList, users, items)
      {
        ColumnStep(tasks, i, ToDoList, users, items);
        ColumnStep(tasks, i, InProgressList, users, items);
        ColumnStep(tasks, i, DoneList, users, items);
        var card := CreateTaskElement(tasks[i], users, items);
        if tasks[i].status == "to-do" {
          toDo := toDo + [card];
        } else if tasks[i].status == "in-progress" {
          inProgress := inProgress + [card];
        } else if tasks[i].status == "done" {
          done := done + [card];
        }
        i := i + 1;
      }
      toDoList, inProgressList, doneList := toDo, inProgress, done;
      assert tasks[..|tasks|] == tasks;
    }

    /** `setupUIBasedOnRole`: every clear-column button is shown to an admin
        and hidden from everyone else. */
    method SetupUIBasedOnRole(store: LocalStorage)
      modifies this`clearButtonsShown
      ensures |clearButtonsShown| == old(|clearButtonsShown|)
      ensures forall i :: 0 <= i < |clearButtonsShown| ==>
        clearButtonsShown[i] == ClearButtonsVisible(store.items)
    {
      var shown := GetItem(store.items, RoleKey) == Some(AdminRole);
      var i := 0;
      while i < |clearButtonsShown|
        invariant 0 <= i <= |clearButtonsShown| == old(|clearButtonsShown|)
        invariant forall j :: 0 <= j < i ==> clearButtonsShown[j] == ClearButtonsVisible(store.items)
      {
        clearButtonsShown := clearButtonsShown[i := shown];
        i := i + 1;
      }
    }

    /** `fetchUsers`: on success the directory is replaced and the selector
        rebuilt; any failure is alerted and changes nothing. A 401 does not
        end the session here. */
    method FetchUsers(response: Response, body: UsersBody) returns (alerted: bool)
      modifies this`allUsers, this`assigneeOptions
      ensures alerted <==> !(Ok(response) && body.UserList?)
      ensures !alerted ==> allUsers == body.users
      ensures !alerted ==>
        (|assigneeOptions| == 1 + |allUsers| &&
         assigneeOptions[0] == SelectOption("", NotAssigned) &&
         forall k :: 0 <= k < |allUsers| ==>
           assigneeOptions[k + 1] == SelectOption(allUsers[k].id, allUsers[k].username))
      ensures alerted ==> allUsers == old(allUsers) && assigneeOptions == old(assigneeOptions)
    {
      if Ok(response) && body.UserList? {
        allUsers := body.users;
        PopulateAssignedToSelect();
        alerted := false;
      } else {
        alerted := true;
      }
    }

    /** `fetchAndRenderTasks`: the response status is never consulted. A list
        of tasks is rendered; other JSON reaches `renderTasks`, which empties
        the lists before failing; a body that is not JSON, or no response,
        leaves them as they were. The clear buttons are then set by role. */
    method FetchAndRenderTasks(response: Response, body: TasksBody, store: LocalStorage)
      returns (alerted: bool)
      modifies this`toDoList, this`inProgressList, this`doneList, this`clearButtonsShown
      ensures alerted <==> !(response.HttpStatus? && body.TaskList?)
      ensures !alerted ==>
        toDoList == Column(body.tasks, ToDoList, allUsers, store.items) &&
        inProgressList == Column(body.tasks, InProgressList, allUsers, store.items) &&
        doneList == Column(body.tasks, DoneList, allUsers, store.items)
      ensures response.HttpStatus? && body.OtherJson? ==>
        toDoList == [] && inProgressList == [] && doneList == []
      ensures response.NetworkFailure? || body.TasksNotJson? ==>
        toDoList == old(toDoList) && inProgressList == old(inProgressList) && doneList == old(doneList)
      ensures |clearButtonsShown| == old(|clearButtonsShown|)
      ensures forall i :: 0 <= i < |clearButtonsShown| ==>
        clearButtonsShown[i] == ClearButtonsVisible(store.items)
    {
      alerted := true;
      if response.HttpStatus? {
        match body
        case TaskList(tasks) =>
          RenderTasks(tasks, store);
          alerted := false;
        case OtherJson =>
          // renderTasks empties the lists, then `tasks.forEach` throws
          toDoList, inProgressList, doneList := [], [], [];
        case TasksNotJson =>
      }
      SetupUIBasedOnRole(store);
    }
  }
}
