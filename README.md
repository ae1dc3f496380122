# SlowPoke API: login gate and todo store

A Dafny model of the logic of the SlowPoke sample web service. The service has a
password login, written `POST /api/auth/login`, that issues a cookie session for a
single fixed administrator. It also has a logout. The todo store is a seeded in-memory
list served at `GET /todos/` and `GET /todos/{id}`, and only authenticated clients may
read it.

The model has seven modules, one per concern of the source:

- `Wrappers`: `Option`, which stands for a C# reference that may be `null`.
- `Time`: clock values as .NET tick counts, `DateTime.AddDays` and
  `DateOnly.FromDateTime`.
- `AuthModels`: `LoginRequest`, `LoginResponse` and `LogoutResponse`, the records of
  `Models/AuthModels.cs`.
- `Todos`: the `Todo` record with its default field values, the seeded list, and the
  `FirstOrDefault` lookup by id. The lookup is written recursively over `seq<Todo>`.
- `HttpResults`: the results the handlers and the authentication challenge produce,
  together with their status codes.
- `AuthEndpoints`: the login decision `LoginDecision`, written as a pure function of
  the two configuration keys, the submitted password and the current time. It also
  holds the per-client session state (`Anonymous` or `Authenticated(session)`). That
  state is the field of a `Client` object, whose `Login` and `Logout` methods model
  `LoginAsync` and `LogoutAsync`. The object invariant `Client.Valid` says that a
  client holds no session or one issued by `IssueSession`.
- `Program`: the routes, which routes require authorization, the two todo handlers,
  and `Handle`. `Handle` runs a route's handler only when the gate admits the request.
  Otherwise it answers with a bare 401 and does not change the state.

Inputs that the service reads from its surroundings are parameters of the model:

- The configuration values of `Auth:Password` and `Auth:DefaultPassword`
  (`Configuration`, where `None` means the key is absent).
- The UTC clock at login (`now`, in `DateTimeOffset` ticks).
- The three local-clock reads (`DateTime.Now`) that date the seeded todos (`now2`, `now3`, `now5`).

## Model

| member | source | states |
|---|---|---|
| `Todos.TodoDefaults` | api/SlowPoke.API/Program.cs:72 | a `Todo` built from an id and a title alone has no due date and is not complete |
| `Time.DateOfDaysLater` | api/SlowPoke.API/Program.cs:53-55 | `DateOnly.FromDateTime(dt.AddDays(n))` is the date of `dt` moved on by exactly `n` days |
| `Todos.SampleTodos` | api/SlowPoke.API/Program.cs:49-56 | the seed has five entries with ids 1 to 5 in order, all titled and open; entry 1 is `{1, "Walk the dog", null, false}`; entries 2, 3 and 5 are due on the date of their clock read plus 0, 1 and 2 days; entry 4 has no due date |
| `Todos.FirstOrDefault` | api/SlowPoke.API/Program.cs:65 | the lookup yields nothing exactly when no entry has the id; when it yields a todo, that todo is the first entry in list order with the id |
| `Todos.FirstOrDefaultFindsFirstMatch` | api/SlowPoke.API/Program.cs:65 | whenever entry k is the first with the id, the lookup returns exactly entry k, so repeated ids resolve to the lowest index |
| `Todos.DistinctIdsLookup` | api/SlowPoke.API/Program.cs:65 | in a list with distinct ids, looking up any entry's id returns that entry |
| `Todos.SampleTodosLookup` | api/SlowPoke.API/Program.cs:49-56 | the seeded ids are distinct; ids 1 to 5 find their own entry and every other id finds none |
| `AuthEndpoints.IssueSession` | api/SlowPoke.API/Endpoints/AuthEndpoints.cs:45-60 | an issued session carries exactly the two claims Name = "admin" and Role = "Administrator" under the cookie scheme, is persistent, allows refresh and expires exactly seven days after `now` |
| `AuthEndpoints.IssuedSessionIsAdministrator` | api/SlowPoke.API/Endpoints/AuthEndpoints.cs:45-65 | any session the server issued has the administrator's two claims, is persistent and refreshable, and is the session issued seven days before its expiry |
| `AuthEndpoints.LoginDecision` | api/SlowPoke.API/Endpoints/AuthEndpoints.cs:30-43 | the login is a configuration error exactly when no non-empty password is configured, where the default key counts only if the primary key is absent. It is refused exactly when a password is configured but the submitted one is not exactly that password. It signs in exactly when the submitted password is non-empty and equals the effective password, and then with the session `IssueSession(now)` |
| `AuthEndpoints.LoginResult` | api/SlowPoke.API/Endpoints/AuthEndpoints.cs:33-67 | a configuration error is exactly the 500 problem "Server configuration error: Password not set"; a refused password is exactly 401 `{error: "Invalid password"}`; a sign-in is exactly 200 `LoginResponse(true)` |
| `AuthEndpoints.DefaultKeyIgnoredWhenPrimaryPresent` | api/SlowPoke.API/Endpoints/AuthEndpoints.cs:30-31 | once `Auth:Password` is present, even as the empty string, the value of `Auth:DefaultPassword` never changes the login outcome |
| `AuthEndpoints.DefaultKeyUsedWhenPrimaryAbsent` | api/SlowPoke.API/Endpoints/AuthEndpoints.cs:30-31 | with `Auth:Password` absent, the login behaves exactly as if the default value were the primary one |
| `AuthEndpoints.EmptyPrimaryDoesNotFallBack` | api/SlowPoke.API/Endpoints/AuthEndpoints.cs:30-36 | an empty `Auth:Password` gives the configuration error even when the default password is set and is what was submitted |
| `AuthEndpoints.UnconfiguredFailsClosed` | api/SlowPoke.API/Endpoints/AuthEndpoints.cs:33-36 | without a configured password, every submitted password gets the same 500 problem, never a 401 and never a sign-in |
| `AuthEndpoints.WrongPasswordRefused` | api/SlowPoke.API/Endpoints/AuthEndpoints.cs:38-43 | with a password configured, every submitted password that is not exactly it, including one differing only in letter case, gets 401 `{error: "Invalid password"}` |
| `AuthEndpoints.Client.SignIn` | api/SlowPoke.API/Endpoints/AuthEndpoints.cs:62-65 | only an issued session can be signed in; afterwards the client holds it, replacing any earlier one |
| `AuthEndpoints.Client.SignOut` | api/SlowPoke.API/Endpoints/AuthEndpoints.cs:72 | after sign-out the client holds no session |
| `AuthEndpoints.Client.Login` | api/SlowPoke.API/Endpoints/AuthEndpoints.cs:25-68 | the result is the one `LoginDecision` prescribes. After a successful login the client holds the issued session. After a configuration error or a refused password its state is what it was before. The client keeps holding only issued sessions |
| `AuthEndpoints.Client.Logout` | api/SlowPoke.API/Endpoints/AuthEndpoints.cs:70-74 | from any state the client ends anonymous, and the result is `LogoutResponse(true)` |
| `Program.GateAdmission` | api/SlowPoke.API/Endpoints/AuthEndpoints.cs:14-20 | login is admitted in every state, because anonymous access is allowed; logout is admitted exactly when the client is authenticated |
| `Program.TodosGroupRequiresAuthorization` | api/SlowPoke.API/Program.cs:58-59 | both `/todos` routes are admitted exactly when the client is authenticated |
| `Program.ListTodos` | api/SlowPoke.API/Program.cs:61 | the listing is the stored list itself: same length, same entry at every index |
| `Program.GetTodo` | api/SlowPoke.API/Program.cs:64-67 | the result is either 200 with a todo or 404. It is 404 exactly when no entry has the id. The todo returned is the first entry in list order with the id |
| `Program.SampleTodoRequests` | api/SlowPoke.API/Program.cs:49-67 | on the seed, `GET /todos/1` returns `{1, "Walk the dog", null, false}` and `GET /todos/999` returns 404 |
| `Program.Handle` | api/SlowPoke.API/Program.cs:24-28 | a protected route requested by an anonymous client gets the bare 401 challenge rather than a redirect; its handler does not run and the state is unchanged. Every admitted request gets exactly its handler's result and state change. A client holding only issued sessions keeps doing so |
| `Program.LoginListLogoutScenario` | api/SlowPoke.API/Program.cs:58-61 | for a new client: login with the configured password returns success, the listing then returns the whole list in order, logout returns success, and the listing afterwards returns 401 |

## Left out

- Cookie middleware internals are not modelled: signing and encrypting the ticket,
  data protection, tamper detection, and the cookie name and attributes (HttpOnly,
  SameSite=Strict, the secure policy). A session is a plain value. What stands in
  for the signature is the invariant `Client.Valid`: every session a client holds
  is one `IssueSession` produced.
- The ticket's expiry check and sliding renewal (`ExpireTimeSpan`, `SlidingExpiration`)
  are framework code, and the source does not state their rules. The model carries
  `expiresUtc` but does not expire or renew sessions. The gate looks only at whether
  a session is present.
- `AuthEndpoints.IssueSession`: does not model the `ArgumentOutOfRangeException` that
  `AddDays(7)` throws within seven days of `DateTimeOffset.MaxValue`, because `now` is
  an unbounded tick count.
- `Todos.SampleTodos`: does not model the exception `DateTime.AddDays` throws past
  `DateTime.MaxValue`, because tick counts are unbounded.
- The three clock reads are parameters, not a clock. Usually they fall on the same day.
- `LoginRequest.Password` is declared as a non-nullable `string` and is modelled as
  one. A JSON body without the field would bind it to `null`, which is unequal to
  every configured password and so gets 401. The model does not represent that
  input, and it does not represent bodies that fail to bind at all (400).
- An `{id}` segment that is not a 32-bit integer is rejected by route binding before
  the handler runs. The model takes the id as an `Int32`.
- Not modelled at all: async plumbing, `IConfiguration` and `HttpContext` (replaced
  by parameters and the `Client` object), route registration syntax, OpenAPI, the
  JSON serializer context, builder setup and `app.Run()`.
- Constant-time comparison, rate limiting and server-side revocation of a replayed
  cookie are absent from the service and from the model.
