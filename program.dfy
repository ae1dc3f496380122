/**
 * The request pipeline of the service (api/SlowPoke.API/Program.cs): the
 * routes, which of them require an authenticated client, the two todo
 * handlers, and the authorization gate that answers an unauthenticated
 * request to a protected route with a bare 401 instead of a login redirect.
 */
module Program {

  import opened Wrappers
  import opened AuthModels
  import opened Time
  import opened Todos
  import opened HttpResults
  import opened AuthEndpoints

  /** The routes the service maps. */
  datatype Request =
    | PostLogin(body: LoginRequest)
    | PostLogout
    | GetTodos
    | GetTodoById(id: Int32)

  /**
   * Login is mapped with `AllowAnonymous`; logout and the whole `/todos`
   * group with `RequireAuthorization`.
   */
  function RequiresAuthorization(request: Request): (r: bool) {
    !request.PostLogin?
  }

  /** The authorization gate: does the request reach its handler in this state? */
  predicate Admits(state: SessionState, request: Request) {
    !RequiresAuthorization(request) || state.Authenticated?
  }

  /** Login is reachable in every state; logout exactly when the client is authenticated. */
  lemma GateAdmission(state: SessionState, body: LoginRequest)
    ensures Admits(state, PostLogin(body))
    ensures Admits(state, PostLogout) <==> state.Authenticated?
  {
  }

  /** Every route of the `/todos` group is reachable exactly when the client is authenticated. */
  lemma TodosGroupRequiresAuthorization(state: SessionState, id: Int32)
    ensures Admits(state, GetTodos) <==> state.Authenticated?
    ensures Admits(state, GetTodoById(id)) <==> state.Authenticated?
  {
  }

  /** `GET /todos/`: the seeded list itself, same length, same entries in the same order. */
  function ListTodos(todos: seq<Todo>): (r: HttpResult)
    ensures r.TodosOk? && |r.todos| == |todos|
    ensures forall i :: 0 <= i < |todos| ==> r.todos[i] == todos[i]
  {
    TodosOk(todos)
  }

  /** `GET /todos/{id}`: the first entry with that id, or 404 when none has it. */
  function GetTodo(todos: seq<Todo>, id: Int32): (r: HttpResult)
    ensures r.TodoOk? || r == NotFound
    ensures r == NotFound <==> forall i :: 0 <= i < |todos| ==> todos[i].id != id
    ensures r.TodoOk? ==> exists k :: IsFirstMatch(todos, id, k) && todos[k] == r.todo
  {
    match FirstOrDefault(todos, id)
    case Some(todo) => TodoOk(todo)
    case None => NotFound
  }

  /** On the seed, `GET /todos/1` is the dog walk with no due date, and `GET /todos/999` is 404. */
  lemma SampleTodoRequests(now2: DateTime, now3: DateTime, now5: DateTime)
    ensures GetTodo(SampleTodos(now2, now3, now5), 1) == TodoOk(Todo(1, Some("Walk the dog"), None, false))
    ensures GetTodo(SampleTodos(now2, now3, now5), 999) == NotFound
  {
    SampleTodosLookup(now2, now3, now5, 1);
    SampleTodosLookup(now2, now3, now5, 999);
  }

  /**
   * One request from `client`. A protected route from an anonymous client is
   * challenged with 401, its handler is not run and the client's state is
   * unchanged; otherwise the route's handler runs.
   */
  method Handle(client: Client, config: Configuration, todos: seq<Todo>, now: Instant, request: Request)
    returns (r: HttpResult)
    requires client.Valid()
    modifies client
    ensures client.Valid()
    ensures !Admits(old(client.state), request) ==> r == Challenged && client.state == old(client.state)
    ensures Admits(old(client.state), request) ==> match request
      case PostLogin(body) =>
        && r == LoginResult(LoginDecision(config, body.password, now))
        && client.state == (match LoginDecision(config, body.password, now)
                            case SignedIn(s) => Authenticated(s)
                            case _ => old(client.state))
      case PostLogout => r == LogoutOk(LogoutResponse(true)) && client.state == Anonymous
      case GetTodos => r == ListTodos(todos) && client.state == old(client.state)
      case GetTodoById(id) => r == GetTodo(todos, id) && client.state == old(client.state)
  {
    if RequiresAuthorization(request) && client.state.Anonymous? {
      return Challenged;
    }
    match request
    case PostLogin(body) =>
      r := client.Login(body, config, now);
    case PostLogout =>
      r := client.Logout();
    case GetTodos =>
      r := ListTodos(todos);
    case GetTodoById(id) =>
      r := GetTodo(todos, id);
  }

  /**
   * A new client logs in with the configured password, lists the todos, logs
   * out and lists again: the listing comes back in seeded order while signed
   * in and is refused with 401 after the logout.
   */
  method LoginListLogoutScenario(config: Configuration, password: string, now: Instant, todos: seq<Todo>)
    returns (login: HttpResult, listed: HttpResult, logout: HttpResult, relisted: HttpResult)
    requires Accepts(config, password)
    ensures login == LoginOk(LoginResponse(true))
    ensures listed == TodosOk(todos)
    ensures logout == LogoutOk(LogoutResponse(true))
    ensures relisted == Challenged && StatusCode(relisted) == 401
  {
    var client := new Client();
    login := Handle(client, config, todos, now, PostLogin(LoginRequest(password)));
    listed := Handle(client, config, todos, now, GetTodos);
    logout := Handle(client, config, todos, now, PostLogout);
    relisted := Handle(client, config, todos, now, GetTodos);
  }
}
