/** Browser `localStorage` as the board script uses it, and the session
    transitions the script performs on it: the writes of the login handler,
    `redirectToLogin`, and the checks both pages make when they load. */
module Session {
  import opened Wrappers
  import opened JsStrings

  const TokenKey := "jwtToken"
  const CurrentUserKey := "currentUser"
  const RoleKey := "userRole"
  const UserIdKey := "userId"

  const LoginPageUrl := "login.html"
  const BoardPageUrl := "index.html"

  const LoginFailed := "Erro ao fazer login."
  const ServerUnreachable := "Não foi possível conectar ao servidor."

  /** `localStorage.getItem(key)`: null when the key is missing. */
  function GetItem(items: map<string, string>, key: string): Option<string> {
    if key in items then Some(items[key]) else None
  }

  /** The JSON texts whose parsed value is falsy. */
  const FalsyJsonTexts: set<string> := {"null", "false", "0", "-0", "\"\""}

  /** What `localStorage.setItem` stores for `JSON.stringify(undefined)`,
      and which `JSON.parse` refuses. */
  const UndefinedText := "undefined"

  /** The outcome of `JSON.parse(localStorage.getItem('currentUser'))`
      as far as the script looks at it: a falsy value, a truthy value,
      or a thrown `SyntaxError`. */
  datatype Parsed = FalsyValue | TruthyValue | ParseThrows

  /** `getCurrentUser`: a missing key parses as `null`; of the texts that are
      not JSON only the one the script itself can store is told apart. */
  function ParseStoredUser(stored: Option<string>): (p: Parsed)
    ensures p == ParseThrows <==> stored == Some(UndefinedText)
    ensures p == FalsyValue <==> stored.None? || stored.value in FalsyJsonTexts
  {
    if stored.None? then FalsyValue
    else if stored.value == UndefinedText then ParseThrows
    else if stored.value in FalsyJsonTexts then FalsyValue
    else TruthyValue
  }

  /** What both pages test on load: a truthy token and a truthy current user. */
  predicate HasSession(items: map<string, string>) {
    OptTruthy(GetItem(items, TokenKey)) && ParseStoredUser(GetItem(items, CurrentUserKey)) == TruthyValue
  }

  /** What the login endpoint can answer. `LoginOk` carries the four strings
      the handler stores: the token, `JSON.stringify(data.user)`, the role and
      `data.user.id`. `LoginOkWithoutUser` is a 2xx answer whose `user` is
      missing (`userIsNull` false) or `null`. `NoConnection` is a rejected
      `fetch` or a body that is not JSON. */
  datatype LoginReply =
    | LoginOk(token: string, userJson: string, role: string, userId: string)
    | LoginOkWithoutUser(token: string, role: string, userIsNull: bool)
    | LoginRejected(message: Option<string>)
    | NoConnection

  /** What `JSON.stringify(data.user)` stores when `user` is absent or null. */
  function MissingUserText(userIsNull: bool): string {
    if userIsNull then "null" else UndefinedText
  }

  /** Storage after a successful login. */
  function LoggedIn(items: map<string, string>, reply: LoginReply): map<string, string>
    requires reply.LoginOk?
  {
    items[TokenKey := reply.token][CurrentUserKey := reply.userJson]
         [RoleKey := reply.role][UserIdKey := reply.userId]
  }

  /** Storage after a 2xx login answer without a user: the token, the
      current user and the role are written, then reading `data.user.id`
      throws before the user id is stored. */
  function PartlyLoggedIn(items: map<string, string>, reply: LoginReply): map<string, string>
    requires reply.LoginOkWithoutUser?
  {
    items[TokenKey := reply.token][CurrentUserKey := MissingUserText(reply.userIsNull)]
         [RoleKey := reply.role]
  }

  /** Storage after `redirectToLogin`: only the token and the current user go. */
  function LoggedOut(items: map<string, string>): map<string, string> {
    items - {TokenKey, CurrentUserKey}
  }

  /** The browser's `localStorage`, a string-to-string map updated in place. */
  class LocalStorage {
    var items: map<string, string>

    constructor (initial: map<string, string>)
      ensures items == initial
    {
      items := initial;
    }

    method SetItem(key: string, value: string)
      modifies this
      ensures items == old(items)[key := value]
    {
      items := items[key := value];
    }

    method RemoveItem(key: string)
      modifies this
      ensures items == old(items) - {key}
    {
      items := items - {key};
    }
  }

  /** `redirectToLogin`: removes the token and the current user, keeps every
      other key (the role and the user id among them), and navigates to the
      login page. */
  method RedirectToLogin(store: LocalStorage) returns (location: string)
    modifies store
    ensures store.items == LoggedOut(old(store.items))
    ensures TokenKey !in store.items && CurrentUserKey !in store.items
    ensures GetItem(store.items, RoleKey) == GetItem(old(store.items), RoleKey)
    ensures GetItem(store.items, UserIdKey) == GetItem(old(store.items), UserIdKey)
    ensures location == LoginPageUrl
  {
    store.RemoveItem(TokenKey);
    store.RemoveItem(CurrentUserKey);
    location := LoginPageUrl;
  }

  /** The submit handler of the login form. On success it writes the four
      keys and navigates to the board; it then calls functions that only
      exist on the board page, so the resulting error lands in the handler's
      `catch` and the connection-error text is shown as well. A 2xx answer
      without a user throws half-way through the writes, before navigating. */
  method SubmitLogin(store: LocalStorage, reply: LoginReply)
    returns (location: Option<string>, errorText: Option<string>)
    modifies store
    ensures reply.LoginOk? ==> store.items == LoggedIn(old(store.items), reply)
    ensures reply.LoginOk? ==> location == Some(BoardPageUrl) && errorText == Some(ServerUnreachable)
    ensures reply.LoginOkWithoutUser? ==> store.items == PartlyLoggedIn(old(store.items), reply)
    ensures reply.LoginOkWithoutUser? ==> location == None && errorText == Some(ServerUnreachable)
    ensures (reply.LoginRejected? || reply.NoConnection?) ==> store.items == old(store.items) && location == None
    ensures reply.LoginRejected? ==>
      errorText == Some(if OptTruthy(reply.message) then reply.message.value else LoginFailed)
    ensures reply.NoConnection? ==> errorText == Some(ServerUnreachable)
  {
    match reply
    case LoginOk(token, userJson, role, userId) =>
      store.SetItem(TokenKey, token);
      store.SetItem(CurrentUserKey, userJson);
      store.SetItem(RoleKey, role);
      store.SetItem(UserIdKey, userId);
      location := Some(BoardPageUrl);
      // `fetchAndRenderTasks` is not in scope on the login page
      errorText := Some(ServerUnreachable);
    case LoginOkWithoutUser(token, role, userIsNull) =>
      store.SetItem(TokenKey, token);
      store.SetItem(CurrentUserKey, MissingUserText(userIsNull));
      store.SetItem(RoleKey, role);
      // reading `id` of a missing user throws a TypeError
      location := None;
      errorText := Some(ServerUnreachable);
    case LoginRejected(message) =>
      location := None;
      errorText := Some(if OptTruthy(message) then message.value else LoginFailed);
    case NoConnection =>
      location := None;
      errorText := Some(ServerUnreachable);
  }

  /** What the login page does on load. `LoginScriptHalted` is an uncaught
      exception: the form's submit handler is never attached. */
  datatype LoginPageLoad = GoToBoard | ShowLoginForm | LoginScriptHalted

  /** The login page on load: `getToken() && getCurrentUser()`, so the stored
      user is parsed only when the token is truthy. */
  function LoginPageLoadOutcome(items: map<string, string>): (load: LoginPageLoad)
    ensures load == GoToBoard <==> HasSession(items)
    ensures load == LoginScriptHalted <==>
      TokenKey in items && items[TokenKey] != "" &&
      CurrentUserKey in items && items[CurrentUserKey] == UndefinedText
    ensures load == ShowLoginForm <==>
      TokenKey !in items || items[TokenKey] == "" ||
      CurrentUserKey !in items || items[CurrentUserKey] in FalsyJsonTexts
  {
    if !OptTruthy(GetItem(items, TokenKey)) then ShowLoginForm
    else match ParseStoredUser(GetItem(items, CurrentUserKey))
      case ParseThrows => LoginScriptHalted
      case FalsyValue => ShowLoginForm
      case TruthyValue => GoToBoard
  }

  /** What the board page does on load. */
  datatype BoardPageLoad = ShowBoard | SentToLogin | BoardScriptHalted

  /** The board page on load: both the token and the stored user are read
      (the user is parsed whatever the token); an unparsable user stops the
      script, and otherwise a missing session redirects to the login page,
      clearing the token and the current user. */
  method OpenBoardPage(store: LocalStorage) returns (load: BoardPageLoad, location: Option<string>)
    modifies store
    ensures load == BoardScriptHalted <==> GetItem(old(store.items), CurrentUserKey) == Some(UndefinedText)
    ensures load == ShowBoard <==> HasSession(old(store.items))
    ensures load != SentToLogin ==> store.items == old(store.items) && location == None
    ensures load == SentToLogin ==> store.items == LoggedOut(old(store.items)) && location == Some(LoginPageUrl)
  {
    var user := ParseStoredUser(GetItem(store.items, CurrentUserKey));
    if user == ParseThrows {
      load := BoardScriptHalted;
      location := None;
    } else if OptTruthy(GetItem(store.items, TokenKey)) && user == TruthyValue {
      load := ShowBoard;
      location := None;
    } else {
      var to := RedirectToLogin(store);
      load := SentToLogin;
      location := Some(to);
    }
  }

  /** After a logout the board page no longer opens, and the login page does
      not send the user back to it: no redirect loop. */
  lemma LogoutClosesBoard(items: map<string, string>)
    ensures !HasSession(LoggedOut(items))
    ensures LoginPageLoadOutcome(LoggedOut(items)) == ShowLoginForm
  {
  }

  /** A login that stores a non-empty token and a truthy user opens the board. */
  lemma LoginOpensBoard(items: map<string, string>, reply: LoginReply)
    requires reply.LoginOk? && reply.token != ""
    requires reply.userJson !in FalsyJsonTexts && reply.userJson != UndefinedText
    ensures HasSession(LoggedIn(items, reply))
    ensures LoginPageLoadOutcome(LoggedIn(items, reply)) == GoToBoard
  {
  }

  /** A 2xx login answer without a user never opens the board. When the user
      is missing and the token is not empty, the stored "undefined" makes the
      login page throw on load before its form handler is attached; a null
      user only leaves the login form showing. A logout (`redirectToLogin`,
      whose listener the board page attaches before it reads the stored
      user) removes the "undefined" and the login page works again. */
  lemma UserlessLoginLocksOut(items: map<string, string>, reply: LoginReply)
    requires reply.LoginOkWithoutUser?
    ensures !HasSession(PartlyLoggedIn(items, reply))
    ensures !reply.userIsNull && reply.token != "" ==>
      LoginPageLoadOutcome(PartlyLoggedIn(items, reply)) == LoginScriptHalted
    ensures reply.userIsNull ==> LoginPageLoadOutcome(PartlyLoggedIn(items, reply)) == ShowLoginForm
    ensures GetItem(PartlyLoggedIn(items, reply), UserIdKey) == GetItem(items, UserIdKey)
    ensures LoginPageLoadOutcome(LoggedOut(PartlyLoggedIn(items, reply))) == ShowLoginForm
  {
  }

  /** Logging out after a login leaves the stored role and user id of that
      login behind, on top of whatever else was stored before. */
  lemma LoginThenLogoutKeepsRole(items: map<string, string>, reply: LoginReply)
    requires reply.LoginOk?
    ensures LoggedOut(LoggedIn(items, reply)) == LoggedOut(items)[RoleKey := reply.role][UserIdKey := reply.userId]
    ensures GetItem(LoggedOut(LoggedIn(items, reply)), RoleKey) == Some(reply.role)
    ensures GetItem(LoggedOut(LoggedIn(items, reply)), UserIdKey) == Some(reply.userId)
  {
  }
}
