/**
 * The `Auth` helper of frontend/js/auth.js: the session kept in the
 * browser's localStorage under the keys `token` and `user`, login and
 * registration, logout, and `fetchWithAuth`, which adds the Bearer header to
 * a request and logs out on a 401.
 *
 * `fetch` is a function from the request to the server's reply, and
 * JSON.stringify / JSON.parse of the user object are the parameters
 * `stringify` / `parse`.
 */
module ClientAuth {
  import opened Base

  const ApiUrl := "http://localhost:3000/api"
  const TokenKey := "token"
  const UserKey := "user"
  const LoginPage := "login.html"
  const LoginFallback := "Erro ao fazer login"
  const RegisterFallback := "Erro ao registrar"
  const NotAuthenticatedMessage := "Não autenticado"

  /** The browser state `Auth` touches: localStorage and `window.location.href`. */
  class Browser {
    var storage: map<string, string>
    var location: string

    constructor (storage: map<string, string>, location: string)
      ensures this.storage == storage && this.location == location
    {
      this.storage := storage;
      this.location := location;
    }
  }

  /** `getToken()`: `localStorage.getItem('token')`, None for null. */
  function GetToken(b: Browser): (t: Option<string>)
    reads b
    ensures t.Some? <==> TokenKey in b.storage
    ensures t.Some? ==> t.value == b.storage[TokenKey]
  {
    if TokenKey in b.storage then Some(b.storage[TokenKey]) else None
  }

  /** `isAuthenticated()`: `!!getToken()`. */
  function IsAuthenticated(b: Browser): (yes: bool)
    reads b
    ensures yes <==> TokenKey in b.storage && b.storage[TokenKey] != ""
  {
    var t := GetToken(b);
    t.Some? && t.value != ""
  }

  /** `getUser()`: the parsed `user` item, or None (null) when the item is missing or empty. */
  function GetUser<U>(b: Browser, parse: string -> U): (u: Option<U>)
    reads b
    ensures u.Some? <==> UserKey in b.storage && b.storage[UserKey] != ""
    ensures u.Some? ==> u.value == parse(b.storage[UserKey])
  {
    if UserKey in b.storage && b.storage[UserKey] != "" then Some(parse(b.storage[UserKey])) else None
  }

  /** `setToken(token)`; a later `getToken()` returns it. */
  method SetToken(b: Browser, token: string)
    modifies b
    ensures b.storage == old(b.storage)[TokenKey := token]
    ensures b.location == old(b.location)
    ensures GetToken(b) == Some(token)
  {
    b.storage := b.storage[TokenKey := token];
  }

  /** `setUser(user)`: stores the serialised user; a later `getUser()` parses it back. */
  method SetUser<U>(b: Browser, user: U, stringify: U -> string, parse: string -> U)
    modifies b
    ensures b.storage == old(b.storage)[UserKey := stringify(user)]
    ensures b.location == old(b.location)
    ensures stringify(user) != "" && parse(stringify(user)) == user ==> GetUser(b, parse) == Some(user)
  {
    b.storage := b.storage[UserKey := stringify(user)];
  }

  /** `removeToken()`: deletes `token` and `user` and keeps every other item. */
  method RemoveToken(b: Browser)
    modifies b
    ensures b.storage == old(b.storage) - {TokenKey, UserKey}
    ensures b.location == old(b.location)
    ensures !IsAuthenticated(b) && GetToken(b).None?
    ensures forall k :: k in old(b.storage) && k != TokenKey && k != UserKey ==>
              k in b.storage && b.storage[k] == old(b.storage)[k]
  {
    b.storage := b.storage - {TokenKey};
    b.storage := b.storage - {UserKey};
  }

  /** `logout()`: removes the session and navigates to the login page. */
  method Logout(b: Browser)
    modifies b
    ensures b.storage == old(b.storage) - {TokenKey, UserKey}
    ensures b.location == LoginPage
  {
    RemoveToken(b);
    b.location := LoginPage;
  }

  /** A request body: none, a FormData object, or a text (a JSON document). */
  datatype Body = NoBody | FormDataBody | TextBody(text: string)

  /** The credentials login and registration post, serialised by JSON.stringify. */
  datatype Credentials = Credentials(name: Option<string>, email: string, password: string)

  /** The second argument of `fetch`. */
  datatype Options = Options(verb: Option<string>, headers: Option<map<string, string>>, body: Body)

  datatype Request = Request(url: string, verb: Option<string>, headers: map<string, string>, body: Body)

  /** The `data` object of a successful reply. */
  datatype Session<U> = Session(token: string, user: U)

  /** A reply from /auth/login or /auth/register: `response.ok` and the parsed body. */
  datatype AuthReply<U> = AuthReply(ok: bool, message: Option<string>, data: Option<Session<U>>)

  /**
   * What login and registration throw: the server's message or the fallback,
   * a TypeError on a reply without `data`, or the rejection of `fetch` itself.
   */
  datatype AuthError = Rejected(message: string) | MissingData | NetworkFailure

  /** The POST that login and registration send. */
  function AuthRequest(path: string, credentials: Credentials, stringify: Credentials -> string): Request
  {
    Request(ApiUrl + path, Some("POST"), map["Content-Type" := "application/json"], TextBody(stringify(credentials)))
  }

  /** The common tail of login and registration: on ok store token and user and return `data.data`, else throw. */
  method CompleteAuth<U>(b: Browser, reply: AuthReply<U>, fallback: string, stringify: U -> string)
    returns (r: Result<Session<U>, AuthError>)
    modifies b
    ensures !reply.ok ==> r == Failure(Rejected(
              if reply.message.Some? && reply.message.value != "" then reply.message.value else fallback))
    ensures reply.ok && reply.data.None? ==> r == Failure(MissingData)
    ensures r.Failure? ==> b.storage == old(b.storage)
    ensures reply.ok && reply.data.Some? ==>
              && r == Success(reply.data.value)
              && b.storage == old(b.storage)[TokenKey := reply.data.value.token]
                                            [UserKey := stringify(reply.data.value.user)]
    ensures b.location == old(b.location)
  {
    if !reply.ok {
      var text := if reply.message.Some? && reply.message.value != "" then reply.message.value else fallback;
      return Failure(Rejected(text));
    }
    if reply.data.None? {
      return Failure(MissingData);
    }
    SetToken(b, reply.data.value.token);
    b.storage := b.storage[UserKey := stringify(reply.data.value.user)];
    r := Success(reply.data.value);
  }

  /** `login(email, password)`; `fetch` gives None when the request itself is rejected. */
  method Login<U>(b: Browser, email: string, password: string,
                  fetch: Request -> Option<AuthReply<U>>, encode: Credentials -> string, stringify: U -> string)
    returns (r: Result<Session<U>, AuthError>)
    modifies b
    ensures var sent := fetch(AuthRequest("/auth/login", Credentials(None, email, password), encode));
            && (sent.None? ==> r == Failure(NetworkFailure))
            && (r.Success? <==> sent.Some? && sent.value.ok && sent.value.data.Some?)
            && (r.Success? ==> r.value == sent.value.data.value
                               && b.storage == old(b.storage)[TokenKey := r.value.token][UserKey := stringify(r.value.user)])
            && (sent.Some? && !sent.value.ok ==> r == Failure(Rejected(
                  if sent.value.message.Some? && sent.value.message.value != "" then sent.value.message.value
                  else LoginFallback)))
            && (r.Failure? ==> b.storage == old(b.storage))
    ensures b.location == old(b.location)
  {
    var sent := fetch(AuthRequest("/auth/login", Credentials(None, email, password), encode));
    if sent.None? {
      return Failure(NetworkFailure);
    }
    r := CompleteAuth(b, sent.value, LoginFallback, stringify);
  }

  /** `register(name, email, password)`; `fetch` gives None when the request itself is rejected. */
  method Register<U>(b: Browser, name: string, email: string, password: string,
                     fetch: Request -> Option<AuthReply<U>>, encode: Credentials -> string, stringify: U -> string)
    returns (r: Result<Session<U>, AuthError>)
    modifies b
    ensures var sent := fetch(AuthRequest("/auth/register", Credentials(Some(name), email, password), encode));
            && (sent.None? ==> r == Failure(NetworkFailure))
            && (r.Success? <==> sent.Some? && sent.value.ok && sent.value.data.Some?)
            && (r.Success? ==> r.value == sent.value.data.value
                               && b.storage == old(b.storage)[TokenKey := r.value.token][UserKey := stringify(r.value.user)])
            && (sent.Some? && !sent.value.ok ==> r == Failure(Rejected(
                  if sent.value.message.Some? && sent.value.message.value != "" then sent.value.message.value
                  else RegisterFallback)))
            && (r.Failure? ==> b.storage == old(b.storage))
    ensures b.location == old(b.location)
  {
    var sent := fetch(AuthRequest("/auth/register", Credentials(Some(name), email, password), encode));
    if sent.None? {
      return Failure(NetworkFailure);
    }
    r := CompleteAuth(b, sent.value, RegisterFallback, stringify);
  }

  /**
   * The rule for the headers `fetchWithAuth` sends: the caller's, then
   * `Authorization` over any caller value, then `Content-Type:
   * application/json` unless the body is a FormData.
   */
  predicate MergedHeaders(headers: map<string, string>, caller: map<string, string>, token: string, body: Body)
  {
    && "Authorization" in headers && headers["Authorization"] == "Bearer " + token
    && (!body.FormDataBody? ==> "Content-Type" in headers && headers["Content-Type"] == "application/json")
    && headers.Keys == caller.Keys + {"Authorization"} + (if body.FormDataBody? then {} else {"Content-Type"})
    && forall k :: k in caller && k != "Authorization" && (k != "Content-Type" || body.FormDataBody?) ==>
         headers[k] == caller[k]
  }

  /** The caller's headers, `{}` when `options.headers` is undefined. */
  function CallerHeaders(options: Options): map<string, string>
  {
    if options.headers.Some? then options.headers.value else map[]
  }

  /** The construction of `headers`: spread, Authorization, then the conditional Content-Type. */
  method MergeHeaders(caller: map<string, string>, token: string, body: Body) returns (headers: map<string, string>)
    ensures MergedHeaders(headers, caller, token, body)
  {
    headers := caller;
    headers := headers["Authorization" := "Bearer " + token];
    if !body.FormDataBody? {
      headers := headers["Content-Type" := "application/json"];
    }
  }

  /** A server reply: its status and its content. */
  datatype Response = Response(status: int, content: string)

  /** `fetchWithAuth` throws before sending, or sends one request and returns the reply (None for `undefined`). */
  datatype FetchOutcome = NotAuthenticated(message: string) | Sent(request: Request, reply: Option<Response>)

  /** `fetchWithAuth(url, options)`. */
  method FetchWithAuth(b: Browser, url: string, options: Options, fetch: Request -> Response)
    returns (outcome: FetchOutcome)
    modifies b
    ensures !old(IsAuthenticated(b)) ==> outcome == NotAuthenticated(NotAuthenticatedMessage)
    ensures !old(IsAuthenticated(b)) ==> b.storage == old(b.storage) && b.location == old(b.location)
    ensures old(IsAuthenticated(b)) ==>
              && outcome.Sent?
              && outcome.request.url == url
              && outcome.request.verb == options.verb
              && outcome.request.body == options.body
              && MergedHeaders(outcome.request.headers, CallerHeaders(options), old(b.storage)[TokenKey], options.body)
              && (fetch(outcome.request).status == 401 ==>
                    outcome.reply.None? && b.storage == old(b.storage) - {TokenKey, UserKey} && b.location == LoginPage)
              && (fetch(outcome.request).status != 401 ==>
                    outcome.reply == Some(fetch(outcome.request)) && b.storage == old(b.storage) && b.location == old(b.location))
  {
    var token := GetToken(b);
    if token.None? || token.value == "" {
      return NotAuthenticated(NotAuthenticatedMessage);
    }
    var headers := MergeHeaders(CallerHeaders(options), token.value, options.body);
    var request := Request(url, options.verb, headers, options.body);
    var response := fetch(request);
    if response.status == 401 {
      Logout(b);
      return Sent(request, None);
    }
    outcome := Sent(request, Some(response));
  }
}
