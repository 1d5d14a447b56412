/** What one task card shows (`createTaskElement`): the assignee label, the
    description fallback, and whether the delete control is displayed. */
module Cards {
  import opened Wrappers
  import opened JsStrings
  import opened Session

  /** An entry of the user directory (`_id`, `username`). */
  datatype User = User(id: string, username: string)

  /** `task.assignedTo` as the API returns it: absent, a user id, or an
      embedded user object whose `username` may be missing. */
  datatype AssignedTo =
    | Unassigned
    | AssignedId(id: string)
    | AssignedUser(username: Option<string>)

  /** `task.createdBy`: absent, an id, or an embedded object, whose
      `toString()` is "[object Object]". */
  datatype CreatedBy = NoCreator | CreatorId(id: string) | CreatorObject

  datatype Task = Task(
    id: string,
    title: string,
    description: Option<string>,
    status: string,
    assignedTo: AssignedTo,
    createdBy: CreatedBy)

  /** The part of a rendered card the script computes. */
  datatype Card = Card(
    taskId: string,
    title: string,
    descriptionText: string,
    assigneeLabel: string,
    deleteVisible: bool)

  const NotAssigned := "Não Atribuído"
  const IdNotFound := "Não Atribuído (ID não encontrado)"
  const NoDescription := "Sem descrição"
  const ObjectText := "[object Object]"
  const AdminRole := "admin"

  /** `allUsers.find(user => user._id === id)`, as the index of the match. */
  function FindUser(users: seq<User>, id: string): (r: Option<nat>)
    ensures r.Some? ==> r.value < |users| && users[r.value].id == id
    ensures r.Some? ==> forall j :: 0 <= j < r.value ==> users[j].id != id
    ensures r.None? ==> forall j :: 0 <= j < |users| ==> users[j].id != id
  {
    if users == [] then None
    else if users[0].id == id then Some(0)
    else match FindUser(users[1..], id)
      case None => None
      case Some(k) => Some(k + 1)
  }

  /** The "Atribuído a" label of a card. */
  function AssigneeLabel(a: AssignedTo, users: seq<User>): (text: string)
    ensures a.Unassigned? || a == AssignedId("") ==> text == NotAssigned
    ensures a.AssignedUser? ==>
      text == if OptTruthy(a.username) then a.username.value else IdNotFound
    ensures a.AssignedId? && a.id != "" ==>
      (exists k :: 0 <= k < |users| && users[k].id == a.id && text == users[k].username &&
                   forall j :: 0 <= j < k ==> users[j].id != a.id)
      || (text == IdNotFound && forall k :: 0 <= k < |users| ==> users[k].id != a.id)
  {
    match a
    case Unassigned => NotAssigned
    case AssignedId(id) =>
      if !Truthy(id) then NotAssigned
      else (match FindUser(users, id)
            case Some(k) => users[k].username
            case None => IdNotFound)
    case AssignedUser(username) =>
      // an object is truthy; without a username it is looked up by
      // strict equality against string ids, which never holds
      if OptTruthy(username) then username.value else IdNotFound
  }

  /** JavaScript truthiness of `task.createdBy`. */
  predicate CreatedByTruthy(c: CreatedBy) {
    match c
    case NoCreator => false
    case CreatorId(id) => Truthy(id)
    case CreatorObject => true
  }

  /** `task.createdBy.toString()`. */
  function CreatedByText(c: CreatedBy): string
    requires c != NoCreator
  {
    match c
    case CreatorId(id) => id
    case CreatorObject => ObjectText
  }

  /** Whether a card's delete control is displayed, from the stored user id
      and role. A missing creator never makes the viewer its creator. */
  function DeleteButtonVisible(c: CreatedBy, items: map<string, string>): (visible: bool)
    ensures visible <==>
      (RoleKey in items && items[RoleKey] == AdminRole) ||
      (UserIdKey in items &&
        ((c.CreatorId? && c.id != "" && items[UserIdKey] == c.id) ||
         (c.CreatorObject? && items[UserIdKey] == ObjectText)))
    ensures c.NoCreator? ==> (visible <==> RoleKey in items && items[RoleKey] == AdminRole)
  {
    var loggedInUserId := GetItem(items, UserIdKey);
    var userRole := GetItem(items, RoleKey);
    var isCreator := CreatedByTruthy(c) && loggedInUserId == Some(CreatedByText(c));
    var isAdmin := userRole == Some(AdminRole);
    isCreator || isAdmin
  }

  /** `createTaskElement`: the card for one task. An absent or empty
      description reads "Sem descrição"; an unassigned task reads "Não
      Atribuído"; an id is shown as the name of the first listed user with
      that id; the delete control shows for an admin, or for the viewer whose
      stored id is the text of the task's creator. */
  function CreateTaskElement(task: Task, users: seq<User>, items: map<string, string>): (card: Card)
    ensures card.taskId == task.id && card.title == task.title
    ensures task.description.None? || task.description == Some("") ==>
      card.descriptionText == NoDescription
    ensures task.description.Some? && task.description.value != "" ==>
      card.descriptionText == task.description.value
    ensures task.assignedTo.Unassigned? ==> card.assigneeLabel == NotAssigned
    ensures task.assignedTo.AssignedUser? && task.assignedTo.username.Some? &&
            task.assignedTo.username.value != "" ==>
      card.assigneeLabel == task.assignedTo.username.value
    ensures task.assignedTo.AssignedUser? &&
            (task.assignedTo.username.None? || task.assignedTo.username == Some("")) ==>
      card.assigneeLabel == IdNotFound
    ensures task.assignedTo == AssignedId("") ==> card.assigneeLabel == NotAssigned
    ensures task.assignedTo.AssignedId? && task.assignedTo.id != "" ==>
      (exists k :: 0 <= k < |users| && users[k].id == task.assignedTo.id &&
                   card.assigneeLabel == users[k].username &&
                   forall j :: 0 <= j < k ==> users[j].id != task.assignedTo.id) ||
      (card.assigneeLabel == IdNotFound &&
       forall k :: 0 <= k < |users| ==> users[k].id != task.assignedTo.id)
    ensures card.deleteVisible <==>
      (RoleKey in items && items[RoleKey] == AdminRole) ||
      (UserIdKey in items &&
        ((task.createdBy.CreatorId? && task.createdBy.id != "" && items[UserIdKey] == task.createdBy.id) ||
         (task.createdBy.CreatorObject? && items[UserIdKey] == ObjectText)))
  {
    var description := if OptTruthy(task.description) then task.description.value else NoDescription;
    Card(task.id, task.title, description,
         AssigneeLabel(task.assignedTo, users),
         DeleteButtonVisible(task.createdBy, items))
  }

  /** With distinct user ids, a task assigned by id to a listed user shows
      that user's name. */
  lemma AssignedIdShowsUsername(users: seq<User>, k: nat)
    requires k < |users| && users[k].id != ""
    requires forall j :: 0 <= j < k ==> users[j].id != users[k].id
    ensures AssigneeLabel(AssignedId(users[k].id), users) == users[k].username
  {
  }
}
