/** What each thunk of app/actions/jira.js does, as the log of one invocation
    given what its collaborators answer, and the properties of those logs. The
    methods in module Jira are proved to produce exactly these logs. */
module Flows {
  import opened Redux
  import opened Collaborators
  import opened Host

  const JwtKey: string := "desktop_tracker_jwt"
  const CredentialsKey: string := "jira_credentials"

  const AutoLoginFailed: string := "Automatic login failed, please enter your credentials again"
  const ServerError: string := "Server error"
  const Failed: string := "Failed"
  const JiraWentWrong: string := "Something went wrong with JIRA. Please check credentials and try again"
  const CannotAuthorize: string := "Cannot authorize to JIRA. Check your credentials and try again"

  // ---------------------------------------------------------------- jwtConnect

  /** The `storage.remove` callback of the two failure branches. */
  function AutoLoginFailedLog(): seq<Event>
  {
    [Dispatched(ThrowError(Message(AutoLoginFailed))), Dispatched(SetFetch(false)), RejectCalled(Message(Failed))]
  }

  /** jwtConnect after a 200 response whose JSON held the site's basic-auth login. */
  function BearerLoginLog(login: Login, myself: MyselfResult): seq<Event>
  {
    var client := Client(login.baseUrl, login.username, login.password);
    [Called(NewClient(client)), Called(SocketLogin), Called(GetMyself)] +
    match myself
    case MyselfErr(e) =>
      [Dispatched(ThrowError(Message(JiraWentWrong))), Dispatched(SetFetch(false)), RejectCalled(Message(e))]
    case MyselfOk(p) =>
      [Dispatched(GetSelf(p)), Dispatched(Connect(client, login.baseUrl, login.username, true)),
       Dispatched(SetFetch(false)), ResolveCalled(Done)]
  }

  /** jwtConnect up to the authenticate request. */
  function BearerRequestLog(token: string): seq<Event>
  {
    [Dispatched(SetFetch(true)), Called(FetchWithBearer(token))]
  }

  /** jwtConnect once `fetch` has answered. On a non-JSON or `null` 200 body
      the chain stops without a further step; on a failure status the second
      `.then` gets `undefined` and stops too, and only the `storage.remove`
      callback (deferred, so after the synchronous dispatches) carries on. */
  function BearerResponseLog(status: int, body: Body<Login>, myself: MyselfResult): seq<Event>
  {
    if status == 200 then
      (if body.Json? then BearerLoginLog(body.fields, myself) else [])
    else if status == 401 then
      [Called(StorageRemove(JwtKey))] + AutoLoginFailedLog()
    else
      ServerErrorLog()
  }

  /** What jwtConnect does after any failure status other than 401: remove
      the token, report the server error, release, reject, and then the
      `storage.remove` callback. */
  function ServerErrorLog(): seq<Event>
  {
    [Called(StorageRemove(JwtKey)), Dispatched(ThrowError(Message(ServerError))),
     Dispatched(SetFetch(false)), RejectCalled(Message(ServerError))] + AutoLoginFailedLog()
  }

  /** `jwtConnect(token)`; a network failure leaves it with nothing more to do. */
  function JwtConnectLog(token: string, res: HttpResult<Login>, myself: MyselfResult): seq<Event>
  {
    BearerRequestLog(token) +
    match res
    case NetworkFailure => []
    case Response(status, body) => BearerResponseLog(status, body, myself)
  }

  /** The bearer token was accepted and the Jira profile fetched. */
  predicate BearerLoginSucceeds(res: HttpResult<Login>, myself: MyselfResult)
  {
    res.Response? && res.status == 200 && res.body.Json? && myself.MyselfOk?
  }

  // ------------------------------------------------------------------- connect

  /** connect from the CONNECT dispatch on, with the `token` read from the JSON. */
  function SessionLog(c: Credentials, client: Client, token: Option<string>): seq<Event>
  {
    [Dispatched(Connect(client, c.host, c.username, c.memorize)), Dispatched(SetAuthSucceeded)]
    + OptionalLog(c, token)
    + [Dispatched(SetFetch(false)), ResolveCalled(SuccessHelper)]
  }

  /** connect after the authenticate request. A non-200 status makes the first
      `.then` yield `false`, whose `token` is undefined, so the flow goes on
      without a token; a non-JSON 200 body stops it; a `null` 200 body stops it
      with a TypeError right after SET_AUTH_SUCCEEDED. */
  function AuthenticatedLog(c: Credentials, client: Client, auth: HttpResult<Issued>): seq<Event>
  {
    match auth
    case NetworkFailure => []
    case Response(status, body) =>
      if status != 200 then SessionLog(c, client, None)
      else match body
        case Malformed => []
        case NullJson => [Dispatched(Connect(client, c.host, c.username, c.memorize)), Dispatched(SetAuthSucceeded)]
        case Json(issued) => SessionLog(c, client, issued.token)
  }

  /** The Jira client connect builds: the normalised host, the typed login. */
  function ConnectClient(c: Credentials): Client
  {
    Client(FormatHost(c.host), c.username, c.password)
  }

  /** `connect(credentials)`, where `client` is the Jira client it has built
      (ConnectClient). */
  function ConnectLog(c: Credentials, client: Client, myself: MyselfResult, auth: HttpResult<Issued>): seq<Event>
  {
    [Dispatched(SetFetch(true)), Called(NewClient(client)), Called(GetMyself)] +
    match myself
    case MyselfErr(e) =>
      [Dispatched(ThrowError(Message(CannotAuthorize))), Dispatched(SetFetch(false)), RejectCalled(Message(e))]
    case MyselfOk(p) =>
      [Dispatched(GetSelf(p)), Called(PostCredentials(client.host, c.username, c.password))]
      + AuthenticatedLog(c, client, auth)
  }

  /** The authenticate response lets connect run to its end. */
  predicate AuthCompletes(auth: HttpResult<Issued>)
  {
    auth.Response? && (auth.status != 200 || auth.body.Json?)
  }

  /** What `json.token` evaluates to once connect has its response. */
  function IssuedToken(auth: HttpResult<Issued>): Option<string>
  {
    if auth.Response? && auth.status == 200 && auth.body.Json? then auth.body.fields.token else None
  }

  // ------------------------------------------------------- getSavedCredentials

  /** `getSavedCredentials()`. A failed read rejects but does not return, so
      GET_SAVED_CREDENTIALS (with `undefined`) and a resolve still follow. */
  function GetSavedCredentialsLog(read: StorageRead<SavedCredentials>): seq<Event>
  {
    [Called(StorageGet(CredentialsKey))] +
    match read
    case ReadError(e) =>
      [Dispatched(ThrowError(Message(e))), Dispatched(SetFetch(false)), RejectCalled(Message(e)),
       Dispatched(GetSavedCredentials(NoCredentials)), ResolveCalled(CredentialsValue(NoCredentials))]
    case ReadOk(v) =>
      [Dispatched(GetSavedCredentials(v)), ResolveCalled(CredentialsValue(v))]
  }

  // -------------------------------------------------------------------- getJWT

  /** The read produced a token with a non-zero length. */
  predicate HasToken(read: StorageRead<StoredToken>)
  {
    read.ReadOk? && read.value.TokenText? && read.value.text != ""
  }

  /** The `token` the storage callback receives (`undefined` after an error). */
  function TokenRead(read: StorageRead<StoredToken>): StoredToken
  {
    if read.ReadOk? then read.value else NoToken
  }

  /** The `error` the storage callback receives (`null` when the read succeeded). */
  function ErrorRead<T>(read: StorageRead<T>): ErrorValue
  {
    if read.ReadError? then Message(read.error) else NoError
  }

  /** `getJWT()`. Like getSavedCredentials it does not return after rejecting. */
  function GetJwtLog(read: StorageRead<StoredToken>): seq<Event>
  {
    [Called(StorageGet(JwtKey))] + MissingTokenLog(read)
    + [Dispatched(GetJwt(TokenRead(read))), ResolveCalled(TokenValue(TokenRead(read)))]
  }

  /** getJWT's report when storage yielded no usable token. */
  function MissingTokenLog(read: StorageRead<StoredToken>): seq<Event>
  {
    if !HasToken(read) then
      [Dispatched(ThrowError(ErrorRead(read))), Dispatched(SetFetch(false)), RejectCalled(ErrorRead(read))]
    else []
  }

  // ------------------------------------------------------ logout, checkConnection

  /** `logout()`: three dispatches, no promise. */
  function LogoutLog(): seq<Event>
  {
    [Dispatched(ClearIssues), Dispatched(ClearProjects), Dispatched(Logout)]
  }

  /** `checkConnection()` once `isOnline()` has answered `online`; no promise
      is returned. */
  function CheckConnectionLog(online: bool): seq<Event>
  {
    [Called(IsOnline), Dispatched(SetConnectionStatus(online))]
  }

  // ======================================================= properties of jwtConnect

  lemma BearerRequestObserved(token: string)
    ensures ActionsOf(BearerRequestLog(token)) == [SetFetch(true)]
    ensures NoSettleCall(BearerRequestLog(token)) && SettlementOf(BearerRequestLog(token)) == Pending
  {
    ActionsOfCons(Dispatched(SetFetch(true)), [Called(FetchWithBearer(token))]);
    ActionsOfCons(Called(FetchWithBearer(token)), []);
    NoSettleCallIsPending(BearerRequestLog(token));
  }

  lemma AutoLoginFailedObserved()
    ensures ActionsOf(AutoLoginFailedLog()) == [ThrowError(Message(AutoLoginFailed)), SetFetch(false)]
    ensures SettlementOf(AutoLoginFailedLog()) == Rejected(Message(Failed))
  {
    var reject := RejectCalled(Message(Failed));
    ActionsOfCons(Dispatched(ThrowError(Message(AutoLoginFailed))), [Dispatched(SetFetch(false)), reject]);
    ActionsOfCons(Dispatched(SetFetch(false)), [reject]);
    ActionsOfCons(reject, []);
    SettlementOfCons(Dispatched(ThrowError(Message(AutoLoginFailed))), [Dispatched(SetFetch(false)), reject]);
    SettlementOfCons(Dispatched(SetFetch(false)), [reject]);
    SettlementOfCons(reject, []);
  }

  /** Every jwtConnect starts with SET_CONNECT_FETCH_STATE(true) and, if it
      settles, has released the fetch state first. */
  lemma JwtConnectBracketsFetch(token: string, res: HttpResult<Login>, myself: MyselfResult)
    ensures var log := JwtConnectLog(token, res, myself);
      log[0] == Dispatched(SetFetch(true)) && FetchEndsBeforeSettling(log)
  {
    var log := JwtConnectLog(token, res, myself);
    var request := BearerRequestLog(token);
    match res
    case NetworkFailure =>
      NoSettleCallIsPending(log);
    case Response(status, body) =>
      if status == 200 {
        if body.Json? {
          var client := Client(body.fields.baseUrl, body.fields.username, body.fields.password);
          var before := request + [Called(NewClient(client)), Called(SocketLogin), Called(GetMyself)];
          match myself
          case MyselfErr(e) =>
            assert log == before + [Dispatched(ThrowError(Message(JiraWentWrong)))]
                          + [Dispatched(SetFetch(false))] + [RejectCalled(Message(e))];
            ReleasedBeforeSettling(before + [Dispatched(ThrowError(Message(JiraWentWrong)))], [RejectCalled(Message(e))]);
          case MyselfOk(p) =>
            var connect := Dispatched(Connect(client, body.fields.baseUrl, body.fields.username, true));
            assert log == before + [Dispatched(GetSelf(p)), connect] + [Dispatched(SetFetch(false))] + [ResolveCalled(Done)];
            ReleasedBeforeSettling(before + [Dispatched(GetSelf(p)), connect], [ResolveCalled(Done)]);
        } else {
          NoSettleCallIsPending(log);
        }
      } else {
        var before := request + [Called(StorageRemove(JwtKey)), Dispatched(ThrowError(Message(if status == 401 then AutoLoginFailed else ServerError)))];
        var after := if status == 401 then [RejectCalled(Message(Failed))]
                     else [RejectCalled(Message(ServerError))] + AutoLoginFailedLog();
        assert log == before + [Dispatched(SetFetch(false))] + after;
        ReleasedBeforeSettling(before, after);
      }
  }

  /** A 401 removes the stored token, reports the failed automatic login and
      rejects; no profile or session is dispatched. */
  lemma JwtConnectUnauthorized(token: string, body: Body<Login>, myself: MyselfResult)
    ensures var log := JwtConnectLog(token, Response(401, body), myself);
      Called(StorageRemove(JwtKey)) in log
      && ActionsOf(log) == [SetFetch(true), ThrowError(Message(AutoLoginFailed)), SetFetch(false)]
      && SettlementOf(log) == Rejected(Message(Failed))
  {
    var log := JwtConnectLog(token, Response(401, body), myself);
    var request := BearerRequestLog(token);
    var remove := Called(StorageRemove(JwtKey));
    assert log == request + ([remove] + AutoLoginFailedLog());
    assert log[2] == remove;
    BearerRequestObserved(token);
    AutoLoginFailedObserved();
    ActionsOfCons(remove, AutoLoginFailedLog());
    SettlementOfCons(remove, AutoLoginFailedLog());
    ActionsOfAppend(request, [remove] + AutoLoginFailedLog());
    SettlementOfAppend(request, [remove] + AutoLoginFailedLog());
  }

  lemma ServerErrorObserved()
    ensures ServerErrorLog()[0] == Called(StorageRemove(JwtKey))
    ensures ActionsOf(ServerErrorLog()) == [ThrowError(Message(ServerError)), SetFetch(false),
                                            ThrowError(Message(AutoLoginFailed)), SetFetch(false)]
    ensures SettlementOf(ServerErrorLog()) == Rejected(Message(ServerError))
  {
    AutoLoginFailedObserved();
    ReportThenReject(StorageRemove(JwtKey), ThrowError(Message(ServerError)), SetFetch(false),
      Message(ServerError), AutoLoginFailedLog());
    ConsTwoTwo(ThrowError(Message(ServerError)), SetFetch(false), ThrowError(Message(AutoLoginFailed)), SetFetch(false));
  }

  /** Any other failure status removes the stored token too, and reports both a
      server error and the failed automatic login; the server error's
      rejection is the one that counts. */
  lemma JwtConnectServerError(token: string, status: int, body: Body<Login>, myself: MyselfResult)
    requires status != 200 && status != 401
    ensures var log := JwtConnectLog(token, Response(status, body), myself);
      Called(StorageRemove(JwtKey)) in log
      && ActionsOf(log) == [SetFetch(true), ThrowError(Message(ServerError)), SetFetch(false),
                            ThrowError(Message(AutoLoginFailed)), SetFetch(false)]
      && SettlementOf(log) == Rejected(Message(ServerError))
  {
    assert JwtConnectLog(token, Response(status, body), myself) == BearerRequestLog(token) + ServerErrorLog();
    BearerRequestObserved(token);
    ServerErrorObserved();
    QuietRequest(BearerRequestLog(token), ServerErrorLog(), Called(StorageRemove(JwtKey)),
      [ThrowError(Message(ServerError)), SetFetch(false), ThrowError(Message(AutoLoginFailed)), SetFetch(false)],
      Rejected(Message(ServerError)));
    ConsFour(SetFetch(true), ThrowError(Message(ServerError)), SetFetch(false),
      ThrowError(Message(AutoLoginFailed)), SetFetch(false));
  }

  /** The shape of a request phase that dispatches only the fetch state and
      settles nothing, followed by a branch that starts with the given call. */
  lemma QuietRequest(request: seq<Event>, tail: seq<Event>, first: Event, actions: seq<Action>, outcome: Settlement)
    requires ActionsOf(request) == [SetFetch(true)] && SettlementOf(request) == Pending
    requires |tail| > 0 && tail[0] == first
    requires ActionsOf(tail) == actions && SettlementOf(tail) == outcome
    ensures first in request + tail
    ensures ActionsOf(request + tail) == [SetFetch(true)] + actions
    ensures SettlementOf(request + tail) == outcome
  {
    QuietPrefix(request, tail);
    assert (request + tail)[|request|] == first;
  }

  /** After a readable login, a profile error gives the Jira error and the
      release; a profile gives GET_SELF, CONNECT for the returned site with
      `memorize` true, and the release. */
  lemma BearerLoginActions(login: Login, myself: MyselfResult)
    ensures var client := Client(login.baseUrl, login.username, login.password);
      ActionsOf(BearerLoginLog(login, myself)) == match myself
        case MyselfErr(_) => [ThrowError(Message(JiraWentWrong)), SetFetch(false)]
        case MyselfOk(p) => [GetSelf(p), Connect(client, login.baseUrl, login.username, true), SetFetch(false)]
  {
    var client := Client(login.baseUrl, login.username, login.password);
    var calls := [Called(NewClient(client)), Called(SocketLogin), Called(GetMyself)];
    ActionsOfThree(calls[0], calls[1], calls[2]);
    var release := Dispatched(SetFetch(false));
    match myself {
      case MyselfErr(e) =>
        var error := Dispatched(ThrowError(Message(JiraWentWrong)));
        var reject := RejectCalled(Message(e));
        assert BearerLoginLog(login, myself) == calls + [error, release, reject];
        ActionsOfThree(error, release, reject);
        ActionsOfAppend(calls, [error, release, reject]);
      case MyselfOk(p) =>
        var self := Dispatched(GetSelf(p));
        var connect := Dispatched(Connect(client, login.baseUrl, login.username, true));
        var resolve := ResolveCalled(Done);
        var profiled := [self, connect, release];
        assert BearerLoginLog(login, myself) == calls + (profiled + [resolve]);
        ActionsOfThree(self, connect, release);
        ActionsOfCons(resolve, []);
        ActionsOfAppend(profiled, [resolve]);
        ActionsOfAppend(calls, profiled + [resolve]);
    }
  }

  /** After a readable login, a profile error rejects with the API's error and
      a profile resolves. */
  lemma BearerLoginSettles(login: Login, myself: MyselfResult)
    ensures SettlementOf(BearerLoginLog(login, myself)) == match myself
        case MyselfErr(e) => Rejected(Message(e))
        case MyselfOk(_) => Fulfilled(Done)
  {
    var client := Client(login.baseUrl, login.username, login.password);
    var calls := [Called(NewClient(client)), Called(SocketLogin), Called(GetMyself)];
    NoSettleCallIsPending(calls);
    var release := Dispatched(SetFetch(false));
    match myself {
      case MyselfErr(e) =>
        var error := Dispatched(ThrowError(Message(JiraWentWrong)));
        var reject := RejectCalled(Message(e));
        assert BearerLoginLog(login, myself) == calls + [error, release, reject];
        SettlementOfCons(error, [release, reject]);
        SettlementOfCons(release, [reject]);
        SettlementOfAppend(calls, [error, release, reject]);
      case MyselfOk(p) =>
        var self := Dispatched(GetSelf(p));
        var connect := Dispatched(Connect(client, login.baseUrl, login.username, true));
        var resolve := ResolveCalled(Done);
        assert BearerLoginLog(login, myself) == calls + [self, connect, release, resolve];
        SettlementOfCons(self, [connect, release, resolve]);
        SettlementOfCons(connect, [release, resolve]);
        SettlementOfCons(release, [resolve]);
        SettlementOfAppend(calls, [self, connect, release, resolve]);
    }
  }

  /** The actions jwtConnect dispatches, written out case by case. */
  function JwtConnectActions(res: HttpResult<Login>, myself: MyselfResult): seq<Action>
  {
    [SetFetch(true)] + match res
      case NetworkFailure => []
      case Response(status, body) =>
        if status == 200 then
          if body.Json? then
            var login := body.fields;
            match myself
            case MyselfErr(_) => [ThrowError(Message(JiraWentWrong)), SetFetch(false)]
            case MyselfOk(p) =>
              [GetSelf(p), Connect(Client(login.baseUrl, login.username, login.password), login.baseUrl, login.username, true),
               SetFetch(false)]
          else []
        else if status == 401 then [ThrowError(Message(AutoLoginFailed)), SetFetch(false)]
        else [ThrowError(Message(ServerError)), SetFetch(false), ThrowError(Message(AutoLoginFailed)), SetFetch(false)]
  }

  /** How jwtConnect's promise ends up, written out case by case. */
  function JwtConnectOutcome(res: HttpResult<Login>, myself: MyselfResult): Settlement
  {
    match res
    case NetworkFailure => Pending
    case Response(status, body) =>
      if status == 200 then
        if body.Json? then
          match myself
          case MyselfErr(e) => Rejected(Message(e))
          case MyselfOk(_) => Fulfilled(Done)
        else Pending
      else if status == 401 then Rejected(Message(Failed))
      else Rejected(Message(ServerError))
  }

  /** The log after a readable 200 response is the request followed by the
      bearer login. */
  lemma JwtConnectReadable(token: string, login: Login, myself: MyselfResult)
    ensures var log := JwtConnectLog(token, Response(200, Json(login)), myself);
      ActionsOf(log) == JwtConnectActions(Response(200, Json(login)), myself)
      && SettlementOf(log) == JwtConnectOutcome(Response(200, Json(login)), myself)
  {
    var request := BearerRequestLog(token);
    var tail := BearerLoginLog(login, myself);
    assert JwtConnectLog(token, Response(200, Json(login)), myself) == request + tail;
    BearerRequestObserved(token);
    BearerLoginActions(login, myself);
    BearerLoginSettles(login, myself);
    ActionsOfAppend(request, tail);
    SettlementOfAppend(request, tail);
  }

  /** The actions and the outcome of every jwtConnect are the written-out ones. */
  lemma JwtConnectObserved(token: string, res: HttpResult<Login>, myself: MyselfResult)
    ensures ActionsOf(JwtConnectLog(token, res, myself)) == JwtConnectActions(res, myself)
    ensures SettlementOf(JwtConnectLog(token, res, myself)) == JwtConnectOutcome(res, myself)
  {
    match res {
      case NetworkFailure => JwtConnectStalls(token, res, myself);
      case Response(status, body) =>
        if status == 200 && body.Json? {
          JwtConnectReadable(token, body.fields, myself);
        } else if status == 200 {
          JwtConnectStalls(token, res, myself);
        } else if status == 401 {
          JwtConnectUnauthorized(token, body, myself);
        } else {
          JwtConnectServerError(token, status, body, myself);
        }
    }
  }

  /** An accepted token: the socket is logged in before the profile is asked
      for; then GET_SELF, CONNECT for the returned site with `memorize` true,
      the fetch state released, and the promise resolved. */
  lemma JwtConnectSucceeds(token: string, login: Login, p: Profile)
    ensures var log := JwtConnectLog(token, Response(200, Json(login)), MyselfOk(p));
      var client := Client(login.baseUrl, login.username, login.password);
      Called(NewClient(client)) in log
      && Precedes(log, Called(SocketLogin), Called(GetMyself))
      && ActionsOf(log) == [SetFetch(true), GetSelf(p), Connect(client, login.baseUrl, login.username, true), SetFetch(false)]
      && SettlementOf(log) == Fulfilled(Done)
  {
    JwtConnectReadable(token, login, MyselfOk(p));
    JwtConnectLogsSocketFirst(token, login, MyselfOk(p));
    JwtConnectActionsOnSuccess(login, p);
  }

  /** The written-out actions of a jwtConnect whose token was accepted. */
  lemma JwtConnectActionsOnSuccess(login: Login, p: Profile)
    ensures JwtConnectActions(Response(200, Json(login)), MyselfOk(p))
      == [SetFetch(true), GetSelf(p), Connect(Client(login.baseUrl, login.username, login.password),
                                              login.baseUrl, login.username, true), SetFetch(false)]
  {
  }

  /** With a readable login, the client is built from it and the socket is
      logged in before the profile is asked for. */
  lemma JwtConnectLogsSocketFirst(token: string, login: Login, myself: MyselfResult)
    ensures var log := JwtConnectLog(token, Response(200, Json(login)), myself);
      Called(NewClient(Client(login.baseUrl, login.username, login.password))) in log
      && Precedes(log, Called(SocketLogin), Called(GetMyself))
  {
    var log := JwtConnectLog(token, Response(200, Json(login)), myself);
    assert log == BearerRequestLog(token) + BearerLoginLog(login, myself);
    assert log[2] == Called(NewClient(Client(login.baseUrl, login.username, login.password)));
    assert log[3] == Called(SocketLogin) && log[4] == Called(GetMyself);
  }

  /** An accepted token whose site login the Jira API refuses: the error, the
      fetch state released, and a rejection with the API's error. */
  lemma JwtConnectProfileFails(token: string, login: Login, e: string)
    ensures var log := JwtConnectLog(token, Response(200, Json(login)), MyselfErr(e));
      ActionsOf(log) == [SetFetch(true), ThrowError(Message(JiraWentWrong)), SetFetch(false)]
      && SettlementOf(log) == Rejected(Message(e))
  {
    JwtConnectReadable(token, login, MyselfErr(e));
  }

  /** A network error, or a 200 body that is not JSON or is `null`, leaves
      the fetch state set and the promise pending. */
  lemma JwtConnectStalls(token: string, res: HttpResult<Login>, myself: MyselfResult)
    requires res.NetworkFailure? || (res.status == 200 && !res.body.Json?)
    ensures var log := JwtConnectLog(token, res, myself);
      ActionsOf(log) == [SetFetch(true)] && SettlementOf(log) == Pending
  {
    var log := JwtConnectLog(token, res, myself);
    assert log == BearerRequestLog(token);
    BearerRequestObserved(token);
  }

  /** On the written-out values: a session action appears, or the promise is
      fulfilled, exactly when the login succeeded. */
  lemma JwtConnectOutcomeFacts(res: HttpResult<Login>, myself: MyselfResult, actions: seq<Action>)
    requires actions == JwtConnectActions(res, myself)
    ensures (exists a :: a in actions && (a.GetSelf? || a.Connect?)) <==> BearerLoginSucceeds(res, myself)
    ensures JwtConnectOutcome(res, myself).Fulfilled? <==> BearerLoginSucceeds(res, myself)
  {
    if BearerLoginSucceeds(res, myself) {
      assert actions[1].GetSelf?;
    }
  }

  /** GET_SELF or CONNECT is dispatched, and the promise fulfilled, exactly
      when the token was accepted and the profile fetched. */
  lemma JwtConnectSessionIffLogin(token: string, res: HttpResult<Login>, myself: MyselfResult)
    ensures var actions := ActionsOf(JwtConnectLog(token, res, myself));
      (exists a :: a in actions && (a.GetSelf? || a.Connect?)) <==> BearerLoginSucceeds(res, myself)
    ensures SettlementOf(JwtConnectLog(token, res, myself)).Fulfilled? <==> BearerLoginSucceeds(res, myself)
  {
    JwtConnectObserved(token, res, myself);
    JwtConnectOutcomeFacts(res, myself, ActionsOf(JwtConnectLog(token, res, myself)));
  }

  // ========================================================== properties of connect

  /** The actions of the part of connect that only runs with a token. */
  function TokenActions(token: Option<string>): seq<Action>
  {
    if Truthy(token) then [SaveJwt(token.value)] else []
  }

  /** The actions of the part of connect that only runs with `memorize`. */
  function MemorizeActions(c: Credentials): seq<Action>
  {
    if c.memorize then [MemorizeForm(c.host, c.username)] else []
  }

  /** With a truthy token: the socket login and SAVE_JWT. */
  function TokenLog(token: Option<string>): seq<Event>
  {
    if Truthy(token) then [Called(SocketLogin), Dispatched(SaveJwt(token.value))] else []
  }

  /** With `memorize`: MEMORIZE_FORM with the host as typed. */
  function MemorizeLog(c: Credentials): seq<Event>
  {
    if c.memorize then [Dispatched(MemorizeForm(c.host, c.username))] else []
  }

  /** The middle of SessionLog: socket login and SAVE_JWT, then MEMORIZE_FORM. */
  function OptionalLog(c: Credentials, token: Option<string>): seq<Event>
  {
    TokenLog(token) + MemorizeLog(c)
  }

  lemma TokenObserved(token: Option<string>)
    ensures ActionsOf(TokenLog(token)) == TokenActions(token)
    ensures NoSettleCall(TokenLog(token))
  {
    if Truthy(token) {
      ActionsOfCons(Called(SocketLogin), [Dispatched(SaveJwt(token.value))]);
      ActionsOfCons(Dispatched(SaveJwt(token.value)), []);
    }
  }

  lemma MemorizeObserved(c: Credentials)
    ensures ActionsOf(MemorizeLog(c)) == MemorizeActions(c)
    ensures NoSettleCall(MemorizeLog(c))
  {
    if c.memorize {
      ActionsOfCons(Dispatched(MemorizeForm(c.host, c.username)), []);
    }
  }

  lemma OptionalObserved(c: Credentials, token: Option<string>)
    ensures ActionsOf(OptionalLog(c, token)) == TokenActions(token) + MemorizeActions(c)
    ensures NoSettleCall(OptionalLog(c, token))
  {
    TokenObserved(token);
    MemorizeObserved(c);
    ActionsOfAppend(TokenLog(token), MemorizeLog(c));
  }

  /** The actions of a session around whatever it does in between. */
  lemma SessionFrameActions(connect: Action, middle: seq<Event>)
    ensures ActionsOf([Dispatched(connect), Dispatched(SetAuthSucceeded)] + middle
                      + [Dispatched(SetFetch(false)), ResolveCalled(SuccessHelper)])
      == [connect, SetAuthSucceeded] + ActionsOf(middle) + [SetFetch(false)]
  {
    var head := [Dispatched(connect), Dispatched(SetAuthSucceeded)];
    var tail := [Dispatched(SetFetch(false)), ResolveCalled(SuccessHelper)];
    ActionsOfCons(head[0], [head[1]]);
    ActionsOfCons(head[1], []);
    ActionsOfCons(tail[0], [tail[1]]);
    ActionsOfCons(tail[1], []);
    assert ActionsOf(head) == [connect, SetAuthSucceeded];
    assert ActionsOf(tail) == [SetFetch(false)];
    ActionsOfAppend(head, middle);
    ActionsOfAppend(head + middle, tail);
  }

  /** A session whose middle makes no settle call resolves with the `success`
      helper right after releasing the fetch state. */
  lemma SessionFrameSettles(connect: Action, middle: seq<Event>)
    requires NoSettleCall(middle)
    ensures var log := [Dispatched(connect), Dispatched(SetAuthSucceeded)] + middle
                       + [Dispatched(SetFetch(false)), ResolveCalled(SuccessHelper)];
      SettlementOf(log) == Fulfilled(SuccessHelper) && FetchEndsBeforeSettling(log)
  {
    var before := [Dispatched(connect), Dispatched(SetAuthSucceeded)] + middle;
    var release := Dispatched(SetFetch(false));
    var resolve := ResolveCalled(SuccessHelper);
    assert NoSettleCall(before);
    NoSettleCallIsPending(before);
    SettlementOfCons(release, [resolve]);
    SettlementOfAppend(before, [release, resolve]);
    ReleasedBeforeSettling(before, [resolve]);
    assert before + [release] + [resolve] == before + [release, resolve];
  }

  lemma SessionObserved(c: Credentials, client: Client, token: Option<string>)
    ensures ActionsOf(SessionLog(c, client, token)) ==
      [Connect(client, c.host, c.username, c.memorize), SetAuthSucceeded]
      + TokenActions(token) + MemorizeActions(c) + [SetFetch(false)]
    ensures SettlementOf(SessionLog(c, client, token)) == Fulfilled(SuccessHelper)
    ensures FetchEndsBeforeSettling(SessionLog(c, client, token))
  {
    var connect := Connect(client, c.host, c.username, c.memorize);
    OptionalObserved(c, token);
    SessionFrameActions(connect, OptionalLog(c, token));
    SessionFrameSettles(connect, OptionalLog(c, token));
    var ts := TokenActions(token);
    var ms := MemorizeActions(c);
    assert [connect, SetAuthSucceeded] + (ts + ms) == [connect, SetAuthSucceeded] + ts + ms;
  }

  /** The actions of connect's authenticate phase, written out case by case. */
  function AuthenticatedActions(c: Credentials, client: Client, auth: HttpResult<Issued>): seq<Action>
  {
    var connect := Connect(client, c.host, c.username, c.memorize);
    if AuthCompletes(auth) then
      [connect, SetAuthSucceeded] + TokenActions(IssuedToken(auth)) + MemorizeActions(c) + [SetFetch(false)]
    else if auth.Response? && auth.body.NullJson? then [connect, SetAuthSucceeded]
    else []
  }

  lemma AuthenticatedObserved(c: Credentials, client: Client, auth: HttpResult<Issued>)
    ensures ActionsOf(AuthenticatedLog(c, client, auth)) == AuthenticatedActions(c, client, auth)
    ensures SettlementOf(AuthenticatedLog(c, client, auth)) ==
      if AuthCompletes(auth) then Fulfilled(SuccessHelper) else Pending
    ensures FetchEndsBeforeSettling(AuthenticatedLog(c, client, auth))
  {
    var log := AuthenticatedLog(c, client, auth);
    if AuthCompletes(auth) {
      assert log == SessionLog(c, client, IssuedToken(auth));
      SessionObserved(c, client, IssuedToken(auth));
    } else if auth.Response? && auth.body.NullJson? {
      var connect := Dispatched(Connect(client, c.host, c.username, c.memorize));
      ActionsOfCons(connect, [Dispatched(SetAuthSucceeded)]);
      ActionsOfCons(Dispatched(SetAuthSucceeded), []);
      NoSettleCallIsPending(log);
    } else {
      assert log == [];
      NoSettleCallIsPending(log);
    }
  }

  /** When the profile cannot be fetched: the error and the release, and no
      GET_SELF or CONNECT. */
  lemma ConnectProfileFailsActions(c: Credentials, client: Client, e: string, auth: HttpResult<Issued>)
    ensures ActionsOf(ConnectLog(c, client, MyselfErr(e), auth))
      == [SetFetch(true), ThrowError(Message(CannotAuthorize)), SetFetch(false)]
  {
    var request := [Dispatched(SetFetch(true)), Called(NewClient(client)), Called(GetMyself)];
    var error := Dispatched(ThrowError(Message(CannotAuthorize)));
    var release := Dispatched(SetFetch(false));
    var reject := RejectCalled(Message(e));
    assert ConnectLog(c, client, MyselfErr(e), auth) == request + [error, release, reject];
    ActionsOfThree(request[0], request[1], request[2]);
    ActionsOfThree(error, release, reject);
    ActionsOfAppend(request, [error, release, reject]);
  }

  /** When the profile cannot be fetched, connect rejects with the API's error
      after releasing the fetch state, and sends no authenticate request. */
  lemma ConnectProfileFailsSettles(c: Credentials, client: Client, e: string, auth: HttpResult<Issued>)
    ensures var log := ConnectLog(c, client, MyselfErr(e), auth);
      SettlementOf(log) == Rejected(Message(e))
      && FetchEndsBeforeSettling(log)
      && CallsWithin(log, {NewClient(client), GetMyself})
  {
    var request := [Dispatched(SetFetch(true)), Called(NewClient(client)), Called(GetMyself)];
    var error := Dispatched(ThrowError(Message(CannotAuthorize)));
    var release := Dispatched(SetFetch(false));
    var reject := RejectCalled(Message(e));
    var before := request + [error];
    assert ConnectLog(c, client, MyselfErr(e), auth) == before + [release] + [reject];
    assert NoSettleCall(before);
    NoSettleCallIsPending(before);
    SettlementOfCons(release, [reject]);
    SettlementOfAppend(before, [release] + [reject]);
    assert before + [release] + [reject] == before + ([release] + [reject]);
    ReleasedBeforeSettling(before, [reject]);
  }

  /** When the profile cannot be fetched: the error, the release, a rejection
      with the API's error, and nothing else: no GET_SELF, no CONNECT, no
      authenticate request. */
  lemma ConnectProfileFails(c: Credentials, client: Client, e: string, auth: HttpResult<Issued>)
    ensures var log := ConnectLog(c, client, MyselfErr(e), auth);
      ActionsOf(log) == [SetFetch(true), ThrowError(Message(CannotAuthorize)), SetFetch(false)]
      && SettlementOf(log) == Rejected(Message(e))
      && FetchEndsBeforeSettling(log)
      && CallsWithin(log, {NewClient(client), GetMyself})
  {
    ConnectProfileFailsActions(c, client, e, auth);
    ConnectProfileFailsSettles(c, client, e, auth);
  }

  /** The actions of connect's steps up to the authenticate request, before
      whatever follows them. */
  lemma ProfiledPrefixActions(client: Client, p: Profile, post: Effect, tail: seq<Event>)
    ensures ActionsOf([Dispatched(SetFetch(true)), Called(NewClient(client)), Called(GetMyself)]
                      + ([Dispatched(GetSelf(p)), Called(post)] + tail))
      == [SetFetch(true)] + ([GetSelf(p)] + ActionsOf(tail))
  {
    var l4 := [Called(post)] + tail;
    var l3 := [Dispatched(GetSelf(p))] + l4;
    var l2 := [Called(GetMyself)] + l3;
    var l1 := [Called(NewClient(client))] + l2;
    var l0 := [Dispatched(SetFetch(true))] + l1;
    assert l0 == [Dispatched(SetFetch(true)), Called(NewClient(client)), Called(GetMyself)]
                 + ([Dispatched(GetSelf(p)), Called(post)] + tail);
    ActionsOfCons(Called(post), tail);
    ActionsOfCons(Dispatched(GetSelf(p)), l4);
    ActionsOfCons(Called(GetMyself), l3);
    ActionsOfCons(Called(NewClient(client)), l2);
    ActionsOfCons(Dispatched(SetFetch(true)), l1);
  }

  /** Once the profile is fetched, connect dispatches fetch on and GET_SELF,
      then whatever its authenticate phase dispatches. */
  lemma ConnectObserved(c: Credentials, client: Client, p: Profile, auth: HttpResult<Issued>)
    ensures ActionsOf(ConnectLog(c, client, MyselfOk(p), auth))
      == [SetFetch(true)] + ([GetSelf(p)] + ActionsOf(AuthenticatedLog(c, client, auth)))
  {
    var post := PostCredentials(client.host, c.username, c.password);
    var tail := AuthenticatedLog(c, client, auth);
    ProfiledPrefixActions(client, p, post, tail);
  }

  /** Once the profile is fetched, connect settles exactly as its
      authenticate phase does, and releases the fetch state first. */
  lemma ConnectProfiledSettles(c: Credentials, client: Client, p: Profile, auth: HttpResult<Issued>)
    ensures var log := ConnectLog(c, client, MyselfOk(p), auth);
      FetchEndsBeforeSettling(log)
      && SettlementOf(log) == if AuthCompletes(auth) then Fulfilled(SuccessHelper) else Pending
  {
    var request := [Dispatched(SetFetch(true)), Called(NewClient(client)), Called(GetMyself)];
    var profiled := [Dispatched(GetSelf(p)), Called(PostCredentials(client.host, c.username, c.password))];
    var tail := AuthenticatedLog(c, client, auth);
    assert NoSettleCall(request);
    assert NoSettleCall(profiled);
    AuthenticatedObserved(c, client, auth);
    QuietThenSettles(profiled, tail);
    QuietThenSettles(request, profiled + tail);
  }

  /** Every connect starts with SET_CONNECT_FETCH_STATE(true), releases the
      fetch state before it settles, rejects with the API's error when the
      profile cannot be fetched, and otherwise resolves exactly when the
      authenticate response lets it run to its end. */
  lemma ConnectSettles(c: Credentials, client: Client, myself: MyselfResult, auth: HttpResult<Issued>)
    ensures var log := ConnectLog(c, client, myself, auth);
      log[0] == Dispatched(SetFetch(true)) && FetchEndsBeforeSettling(log)
      && SettlementOf(log) == match myself
        case MyselfErr(e) => Rejected(Message(e))
        case MyselfOk(_) => if AuthCompletes(auth) then Fulfilled(SuccessHelper) else Pending
  {
    match myself {
      case MyselfErr(e) => ConnectProfileFails(c, client, e, auth);
      case MyselfOk(p) => ConnectProfiledSettles(c, client, p, auth);
    }
  }

  /** The actions a connect dispatches, written out case by case. */
  function ConnectActions(c: Credentials, client: Client, myself: MyselfResult, auth: HttpResult<Issued>): seq<Action>
  {
    [SetFetch(true)] + match myself
      case MyselfErr(_) => [ThrowError(Message(CannotAuthorize)), SetFetch(false)]
      case MyselfOk(p) => [GetSelf(p)] + AuthenticatedActions(c, client, auth)
  }

  lemma ConnectActionsObserved(c: Credentials, client: Client, myself: MyselfResult, auth: HttpResult<Issued>)
    ensures ActionsOf(ConnectLog(c, client, myself, auth)) == ConnectActions(c, client, myself, auth)
  {
    match myself {
      case MyselfErr(e) => ConnectProfileFails(c, client, e, auth);
      case MyselfOk(p) =>
        ConnectObserved(c, client, p, auth);
        AuthenticatedObserved(c, client, auth);
    }
  }

  /** What the written-out actions of the authenticate phase say about
      CONNECT, MEMORIZE_FORM and SAVE_JWT. */
  lemma AuthenticatedActionFacts(c: Credentials, client: Client, auth: HttpResult<Issued>, actions: seq<Action>)
    requires actions == AuthenticatedActions(c, client, auth)
    ensures forall a :: a in actions && a.Connect? ==> a == Connect(client, c.host, c.username, c.memorize)
    ensures MemorizeForm(c.host, c.username) in actions <==> c.memorize && AuthCompletes(auth)
    ensures forall a :: a in actions && a.MemorizeForm? ==> a == MemorizeForm(c.host, c.username)
    ensures forall a :: a in actions && a.SaveJwt? ==> IssuedToken(auth) == Some(a.token) && a.token != ""
  {
  }

  /** What the written-out actions say about CONNECT, MEMORIZE_FORM and SAVE_JWT. */
  lemma ConnectActionFacts(c: Credentials, client: Client, myself: MyselfResult, auth: HttpResult<Issued>, actions: seq<Action>)
    requires actions == ConnectActions(c, client, myself, auth)
    ensures forall a :: a in actions && a.Connect? ==> a == Connect(client, c.host, c.username, c.memorize)
    ensures MemorizeForm(c.host, c.username) in actions <==> c.memorize && myself.MyselfOk? && AuthCompletes(auth)
    ensures forall a :: a in actions && a.MemorizeForm? ==> a == MemorizeForm(c.host, c.username)
    ensures forall a :: a in actions && a.SaveJwt? ==>
      myself.MyselfOk? && IssuedToken(auth) == Some(a.token) && a.token != ""
  {
    if myself.MyselfOk? {
      var tail := AuthenticatedActions(c, client, auth);
      AuthenticatedActionFacts(c, client, auth, tail);
      assert actions == [SetFetch(true)] + ([GetSelf(myself.profile)] + tail);
      assert forall a :: a in actions <==> a == SetFetch(true) || a == GetSelf(myself.profile) || a in tail;
    }
  }

  /** The only calls connect makes: building the client, the profile request,
      the authenticate request on the client's host, and the socket login;
      the first is always made, the authenticate request once the profile is
      fetched. */
  lemma ConnectCalls(c: Credentials, client: Client, myself: MyselfResult, auth: HttpResult<Issued>)
    ensures var log := ConnectLog(c, client, myself, auth);
      var post := PostCredentials(client.host, c.username, c.password);
      CallsWithin(log, {NewClient(client), GetMyself, post, SocketLogin})
      && Called(NewClient(client)) in log
      && (myself.MyselfOk? ==> Called(post) in log)
  {
    var log := ConnectLog(c, client, myself, auth);
    var post := PostCredentials(client.host, c.username, c.password);
    var allowed := {NewClient(client), GetMyself, post, SocketLogin};
    var request := [Dispatched(SetFetch(true)), Called(NewClient(client)), Called(GetMyself)];
    assert log[1] == Called(NewClient(client));
    assert CallsWithin(request, allowed);
    match myself {
      case MyselfErr(e) =>
        var rest := [Dispatched(ThrowError(Message(CannotAuthorize))), Dispatched(SetFetch(false)), RejectCalled(Message(e))];
        assert CallsWithin(rest, allowed);
        CallsWithinAppend(request, rest, allowed);
      case MyselfOk(p) =>
        assert log[4] == Called(post);
        var middle := [Dispatched(GetSelf(p)), Called(post)];
        assert CallsWithin(middle, allowed);
        AuthenticatedCalls(c, client, auth, allowed);
        CallsWithinAppend(middle, AuthenticatedLog(c, client, auth), allowed);
        CallsWithinAppend(request, middle + AuthenticatedLog(c, client, auth), allowed);
    }
  }

  /** After the authenticate request, the socket login is the only call. */
  lemma AuthenticatedCalls(c: Credentials, client: Client, auth: HttpResult<Issued>, allowed: set<Effect>)
    requires SocketLogin in allowed
    ensures CallsWithin(AuthenticatedLog(c, client, auth), allowed)
  {
    if AuthCompletes(auth) {
      var token := IssuedToken(auth);
      var head := [Dispatched(Connect(client, c.host, c.username, c.memorize)), Dispatched(SetAuthSucceeded)];
      var opt := OptionalLog(c, token);
      assert CallsWithin(opt, allowed);
      CallsWithinAppend(head, opt, allowed);
      CallsWithinAppend(head + opt, [Dispatched(SetFetch(false)), ResolveCalled(SuccessHelper)], allowed);
      assert AuthenticatedLog(c, client, auth) == head + opt + [Dispatched(SetFetch(false)), ResolveCalled(SuccessHelper)];
    }
  }

  /** In a log whose calls are connect's, every client built is `client` and
      every authenticate request is `post`. */
  lemma CallsCarryClient(log: seq<Event>, client: Client, post: Effect)
    requires post.PostCredentials?
    requires CallsWithin(log, {NewClient(client), GetMyself, post, SocketLogin})
    ensures forall e :: e in log && e.Called? && e.effect.NewClient? ==> e.effect.config == client
    ensures forall e :: e in log && e.Called? && e.effect.PostCredentials? ==> e.effect == post
  {
  }

  /** The Jira client and the authenticate request both get the normalised
      host, which always ends in `.atlassian.net`, with the typed username
      and password; no other client or authenticate request is made. */
  lemma ConnectUsesNormalisedHost(c: Credentials, myself: MyselfResult, auth: HttpResult<Issued>)
    ensures var client := ConnectClient(c);
      var log := ConnectLog(c, client, myself, auth);
      client == Client(FormatHost(c.host), c.username, c.password)
      && client.host[|client.host| - |CloudSuffix|..] == CloudSuffix
      && Called(NewClient(client)) in log
      && (myself.MyselfOk? ==> Called(PostCredentials(client.host, c.username, c.password)) in log)
      && (forall e :: e in log && e.Called? && e.effect.NewClient? ==> e.effect.config == client)
      && (forall e :: e in log && e.Called? && e.effect.PostCredentials? ==>
            e.effect == PostCredentials(client.host, c.username, c.password))
  {
    var client := ConnectClient(c);
    FormatHostShape(c.host);
    ConnectCalls(c, client, myself, auth);
    CallsCarryClient(ConnectLog(c, client, myself, auth), client, PostCredentials(client.host, c.username, c.password));
  }

  /** Every CONNECT dispatched carries the client, the host exactly as typed,
      the username and the user's `memorize` flag. */
  lemma ConnectStoresTypedHost(c: Credentials, client: Client, myself: MyselfResult, auth: HttpResult<Issued>)
    ensures forall a :: a in ActionsOf(ConnectLog(c, client, myself, auth)) && a.Connect? ==>
      a == Connect(client, c.host, c.username, c.memorize)
  {
    ConnectActionsObserved(c, client, myself, auth);
    ConnectActionFacts(c, client, myself, auth, ActionsOf(ConnectLog(c, client, myself, auth)));
  }

  /** MEMORIZE_FORM is dispatched exactly when the user asked for it and connect
      ran to its end, and it carries the typed host and the username only. */
  lemma ConnectMemorizesOnlyWhenAsked(c: Credentials, client: Client, myself: MyselfResult, auth: HttpResult<Issued>)
    ensures var actions := ActionsOf(ConnectLog(c, client, myself, auth));
      (MemorizeForm(c.host, c.username) in actions <==> c.memorize && myself.MyselfOk? && AuthCompletes(auth))
      && (forall a :: a in actions && a.MemorizeForm? ==> a == MemorizeForm(c.host, c.username))
  {
    ConnectActionsObserved(c, client, myself, auth);
    ConnectActionFacts(c, client, myself, auth, ActionsOf(ConnectLog(c, client, myself, auth)));
  }

  /** The same on the log itself: the MEMORIZE_FORM dispatch is in connect's
      log exactly when the user asked for it and connect ran to its end. */
  lemma ConnectLogMemorizes(c: Credentials, client: Client, myself: MyselfResult, auth: HttpResult<Issued>)
    ensures Dispatched(MemorizeForm(c.host, c.username)) in ConnectLog(c, client, myself, auth)
      <==> c.memorize && myself.MyselfOk? && AuthCompletes(auth)
  {
    ConnectMemorizesOnlyWhenAsked(c, client, myself, auth);
    ActionsOfMember(ConnectLog(c, client, myself, auth), MemorizeForm(c.host, c.username));
  }

  /** Connect itself never reads or writes storage; remembering the form is
      left to whatever handles MEMORIZE_FORM. */
  lemma ConnectTouchesNoStorage(c: Credentials, client: Client, myself: MyselfResult, auth: HttpResult<Issued>)
    ensures TouchesNoStorage(ConnectLog(c, client, myself, auth))
  {
    var post := PostCredentials(client.host, c.username, c.password);
    ConnectCalls(c, client, myself, auth);
    ConnectCallsTouchNoStorage(ConnectLog(c, client, myself, auth), client, post);
  }

  /** None of connect's calls is a storage call. */
  lemma ConnectCallsTouchNoStorage(log: seq<Event>, client: Client, post: Effect)
    requires post.PostCredentials?
    requires CallsWithin(log, {NewClient(client), GetMyself, post, SocketLogin})
    ensures TouchesNoStorage(log)
  {
  }

  /** SAVE_JWT happens only for a truthy `token` in a 200 response, and it
      carries that token. */
  lemma ConnectSavesIssuedTokenOnly(c: Credentials, client: Client, myself: MyselfResult, auth: HttpResult<Issued>)
    ensures forall a :: a in ActionsOf(ConnectLog(c, client, myself, auth)) && a.SaveJwt? ==>
      myself.MyselfOk? && IssuedToken(auth) == Some(a.token) && a.token != ""
  {
    ConnectActionsObserved(c, client, myself, auth);
    ConnectActionFacts(c, client, myself, auth, ActionsOf(ConnectLog(c, client, myself, auth)));
  }

  /** The socket is logged in exactly when the profile was fetched and the
      response holds a truthy token, and then right before SAVE_JWT. */
  lemma ConnectSocketLogin(c: Credentials, client: Client, myself: MyselfResult, auth: HttpResult<Issued>)
    ensures var log := ConnectLog(c, client, myself, auth);
      (Called(SocketLogin) in log <==> myself.MyselfOk? && Truthy(IssuedToken(auth)))
      && (myself.MyselfOk? && Truthy(IssuedToken(auth)) ==>
            RightAfter(log, Called(SocketLogin), Dispatched(SaveJwt(IssuedToken(auth).value))))
  {
    match myself {
      case MyselfErr(_) =>
      case MyselfOk(p) =>
        if Truthy(IssuedToken(auth)) {
          ConnectSocketBeforeSave(c, client, p, auth);
        } else {
          ConnectWithoutSocket(c, client, p, auth);
        }
    }
  }

  /** With a truthy token, the socket login comes right before SAVE_JWT. */
  lemma ConnectSocketBeforeSave(c: Credentials, client: Client, p: Profile, auth: HttpResult<Issued>)
    requires Truthy(IssuedToken(auth))
    ensures var log := ConnectLog(c, client, MyselfOk(p), auth);
      Called(SocketLogin) in log && RightAfter(log, Called(SocketLogin), Dispatched(SaveJwt(IssuedToken(auth).value)))
  {
    var token := IssuedToken(auth);
    var request := [Dispatched(SetFetch(true)), Called(NewClient(client)), Called(GetMyself)];
    var profiled := [Dispatched(GetSelf(p)), Called(PostCredentials(client.host, c.username, c.password))];
    var session := SessionLog(c, client, token);
    assert AuthenticatedLog(c, client, auth) == session;
    var optional := OptionalLog(c, token);
    assert optional[0] == Called(SocketLogin) && optional[0 + 1] == Dispatched(SaveJwt(token.value));
    RightAfterWithin([Dispatched(Connect(client, c.host, c.username, c.memorize)), Dispatched(SetAuthSucceeded)],
      optional, [Dispatched(SetFetch(false)), ResolveCalled(SuccessHelper)], Called(SocketLogin), Dispatched(SaveJwt(token.value)));
    RightAfterWithin(profiled, session, [], Called(SocketLogin), Dispatched(SaveJwt(token.value)));
    assert profiled + session + [] == profiled + session;
    RightAfterWithin(request, profiled + session, [], Called(SocketLogin), Dispatched(SaveJwt(token.value)));
    assert request + (profiled + session) + [] == request + (profiled + session);
  }

  /** Without a truthy token, connect never logs the socket in. */
  lemma ConnectWithoutSocket(c: Credentials, client: Client, p: Profile, auth: HttpResult<Issued>)
    requires !Truthy(IssuedToken(auth))
    ensures Called(SocketLogin) !in ConnectLog(c, client, MyselfOk(p), auth)
  {
    AuthenticatedWithoutSocket(c, client, auth);
  }

  /** Without a truthy token the authenticate phase never logs the socket in. */
  lemma AuthenticatedWithoutSocket(c: Credentials, client: Client, auth: HttpResult<Issued>)
    requires !Truthy(IssuedToken(auth))
    ensures Called(SocketLogin) !in AuthenticatedLog(c, client, auth)
  {
    if AuthCompletes(auth) {
      assert AuthenticatedLog(c, client, auth) == SessionLog(c, client, IssuedToken(auth));
    }
  }

  /** A non-200 authenticate response yields no token, yet connect still
      dispatches CONNECT, SET_AUTH_SUCCEEDED and the fetch-state release, and
      resolves; it neither logs the socket in nor saves a token. */
  lemma ConnectWithoutTokenResolves(c: Credentials, client: Client, p: Profile, status: int, body: Body<Issued>)
    requires status != 200
    ensures var log := ConnectLog(c, client, MyselfOk(p), Response(status, body));
      ActionsOf(log) == [SetFetch(true), GetSelf(p), Connect(client, c.host, c.username, c.memorize), SetAuthSucceeded]
                        + MemorizeActions(c) + [SetFetch(false)]
      && SettlementOf(log) == Fulfilled(SuccessHelper)
      && Called(SocketLogin) !in log
  {
    ConnectActionsObserved(c, client, MyselfOk(p), Response(status, body));
    ConnectActionsWithoutToken(c, client, p, status, body);
    ConnectProfiledSettles(c, client, p, Response(status, body));
    ConnectSocketLogin(c, client, MyselfOk(p), Response(status, body));
  }

  /** The written-out actions of a connect whose authenticate response was
      not a 200. */
  lemma ConnectActionsWithoutToken(c: Credentials, client: Client, p: Profile, status: int, body: Body<Issued>)
    requires status != 200
    ensures ConnectActions(c, client, MyselfOk(p), Response(status, body))
      == [SetFetch(true), GetSelf(p), Connect(client, c.host, c.username, c.memorize), SetAuthSucceeded]
         + MemorizeActions(c) + [SetFetch(false)]
  {
  }

  // ================================================ properties of getSavedCredentials

  /** A failed read THROW_ERRORs and releases the fetch state, then still
      dispatches GET_SAVED_CREDENTIALS with nothing. */
  lemma GetSavedCredentialsFailedActions(e: string)
    ensures ActionsOf(GetSavedCredentialsLog(ReadError(e)))
      == [ThrowError(Message(e)), SetFetch(false), GetSavedCredentials(NoCredentials)]
  {
    var get := Called(StorageGet(CredentialsKey));
    var t0 := Dispatched(ThrowError(Message(e)));
    var t1 := Dispatched(SetFetch(false));
    var t2 := RejectCalled(Message(e));
    var t3 := Dispatched(GetSavedCredentials(NoCredentials));
    var t4 := ResolveCalled(CredentialsValue(NoCredentials));
    var failure := [get, t0, t1];
    var after := [t2, t3, t4];
    assert GetSavedCredentialsLog(ReadError(e)) == failure + after;
    ActionsOfThree(get, t0, t1);
    ActionsOfThree(t2, t3, t4);
    ActionsOfAppend(failure, after);
  }

  /** A failed read rejects with the storage error after releasing the fetch
      state; the later resolve is ignored. */
  lemma GetSavedCredentialsFailedSettles(e: string)
    ensures SettlementOf(GetSavedCredentialsLog(ReadError(e))) == Rejected(Message(e))
    ensures FetchEndsBeforeSettling(GetSavedCredentialsLog(ReadError(e)))
  {
    var get := Called(StorageGet(CredentialsKey));
    var t0 := Dispatched(ThrowError(Message(e)));
    var t1 := Dispatched(SetFetch(false));
    var t2 := RejectCalled(Message(e));
    var t3 := Dispatched(GetSavedCredentials(NoCredentials));
    var t4 := ResolveCalled(CredentialsValue(NoCredentials));
    var failure := [get, t0, t1];
    var after := [t2, t3, t4];
    assert GetSavedCredentialsLog(ReadError(e)) == failure + after;
    NoSettleCallIsPending(failure);
    SettlementOfCons(t2, [t3, t4]);
    SettlementOfAppend(failure, after);
    ReleasedBeforeSettling([get, t0], after);
    assert [get, t0] + [t1] + after == failure + after;
  }

  /** A successful read dispatches the credentials and resolves with them. */
  lemma GetSavedCredentialsFound(v: SavedCredentials)
    ensures ActionsOf(GetSavedCredentialsLog(ReadOk(v))) == [GetSavedCredentials(v)]
    ensures SettlementOf(GetSavedCredentialsLog(ReadOk(v))) == Fulfilled(CredentialsValue(v))
  {
    var get := Called(StorageGet(CredentialsKey));
    var t0 := Dispatched(GetSavedCredentials(v));
    var t1 := ResolveCalled(CredentialsValue(v));
    assert GetSavedCredentialsLog(ReadOk(v)) == [get, t0, t1];
    ActionsOfCons(get, [t0, t1]);
    ActionsOfCons(t0, [t1]);
    ActionsOfCons(t1, []);
    SettlementOfCons(get, [t0, t1]);
    SettlementOfCons(t0, [t1]);
  }

  /** One read of `jira_credentials` and no other call. */
  lemma GetSavedCredentialsReadsOnce(read: StorageRead<SavedCredentials>)
    ensures var log := GetSavedCredentialsLog(read);
      log[0] == Called(StorageGet(CredentialsKey))
      && (forall i :: 0 < i < |log| ==> !log[i].Called?)
      && CallsWithin(log, {StorageGet(CredentialsKey)})
  {
  }

  /** A failed read THROW_ERRORs, releases the fetch state and rejects with the
      storage error, then still dispatches GET_SAVED_CREDENTIALS with nothing;
      a successful read dispatches the credentials and resolves with them. The
      only call either way is one read of `jira_credentials`. */
  lemma GetSavedCredentialsSettles(read: StorageRead<SavedCredentials>)
    ensures var log := GetSavedCredentialsLog(read);
      log[0] == Called(StorageGet(CredentialsKey))
      && (forall i :: 0 < i < |log| ==> !log[i].Called?)
      && CallsWithin(log, {StorageGet(CredentialsKey)})
      && match read
         case ReadError(e) =>
           ActionsOf(log) == [ThrowError(Message(e)), SetFetch(false), GetSavedCredentials(NoCredentials)]
           && SettlementOf(log) == Rejected(Message(e))
           && FetchEndsBeforeSettling(log)
         case ReadOk(v) =>
           ActionsOf(log) == [GetSavedCredentials(v)]
           && SettlementOf(log) == Fulfilled(CredentialsValue(v))
  {
    GetSavedCredentialsReadsOnce(read);
    match read {
      case ReadError(e) =>
        GetSavedCredentialsFailedActions(e);
        GetSavedCredentialsFailedSettles(e);
      case ReadOk(v) =>
        GetSavedCredentialsFound(v);
    }
  }

  // ============================================================= properties of getJWT

  /** A non-empty token is dispatched with GET_JWT and resolved with. */
  lemma GetJwtFound(read: StorageRead<StoredToken>)
    requires HasToken(read)
    ensures var log := GetJwtLog(read);
      log == [Called(StorageGet(JwtKey)), Dispatched(GetJwt(read.value)), ResolveCalled(TokenValue(read.value))]
      && ActionsOf(log) == [GetJwt(read.value)]
      && SettlementOf(log) == Fulfilled(TokenValue(read.value))
  {
    var get := Called(StorageGet(JwtKey));
    var d := Dispatched(GetJwt(read.value));
    var r := ResolveCalled(TokenValue(read.value));
    ActionsOfCons(get, [d, r]);
    ActionsOfCons(d, [r]);
    ActionsOfCons(r, []);
    SettlementOfCons(get, [d, r]);
    SettlementOfCons(d, [r]);
  }

  /** Without a token getJWT reports the error and releases the fetch state,
      then still dispatches GET_JWT with what was read. */
  lemma GetJwtMissingActions(read: StorageRead<StoredToken>)
    requires !HasToken(read)
    ensures ActionsOf(GetJwtLog(read)) == [ThrowError(ErrorRead(read)), SetFetch(false), GetJwt(TokenRead(read))]
  {
    var get := Called(StorageGet(JwtKey));
    var t0 := Dispatched(ThrowError(ErrorRead(read)));
    var t1 := Dispatched(SetFetch(false));
    var t2 := RejectCalled(ErrorRead(read));
    var d := Dispatched(GetJwt(TokenRead(read)));
    var r := ResolveCalled(TokenValue(TokenRead(read)));
    var failure := [get, t0, t1];
    var after := [t2, d, r];
    assert GetJwtLog(read) == failure + after;
    ActionsOfThree(get, t0, t1);
    ActionsOfThree(t2, d, r);
    ActionsOfAppend(failure, after);
  }

  /** Without a token getJWT rejects with the storage error, after releasing
      the fetch state; the later resolve is ignored. */
  lemma GetJwtMissingSettles(read: StorageRead<StoredToken>)
    requires !HasToken(read)
    ensures SettlementOf(GetJwtLog(read)) == Rejected(ErrorRead(read))
    ensures FetchEndsBeforeSettling(GetJwtLog(read))
  {
    var get := Called(StorageGet(JwtKey));
    var t0 := Dispatched(ThrowError(ErrorRead(read)));
    var t1 := Dispatched(SetFetch(false));
    var t2 := RejectCalled(ErrorRead(read));
    var d := Dispatched(GetJwt(TokenRead(read)));
    var r := ResolveCalled(TokenValue(TokenRead(read)));
    var failure := [get, t0, t1];
    var after := [t2, d, r];
    assert GetJwtLog(read) == failure + after;
    NoSettleCallIsPending(failure);
    SettlementOfCons(t2, [d, r]);
    SettlementOfAppend(failure, after);
    ReleasedBeforeSettling([get, t0], after);
    assert [get, t0] + [t1] + after == failure + after;
  }

  /** getJWT resolves exactly when storage produced a non-empty token, with that
      token; otherwise it rejects with the storage error (none when the read
      succeeded but found no token) after THROW_ERROR and the fetch-state
      release. GET_JWT, carrying whatever was read, is always the last action. */
  lemma GetJwtSettles(read: StorageRead<StoredToken>)
    ensures var log := GetJwtLog(read);
      log[0] == Called(StorageGet(JwtKey))
      && (forall i :: 0 < i < |log| ==> !log[i].Called?)
      && (forall e :: e in log && e.Called? ==> e == Called(StorageGet(JwtKey)))
      && ActionsOf(log) == (if HasToken(read) then [] else [ThrowError(ErrorRead(read)), SetFetch(false)])
                           + [GetJwt(TokenRead(read))]
      && SettlementOf(log) == (if HasToken(read) then Fulfilled(TokenValue(read.value)) else Rejected(ErrorRead(read)))
      && (!HasToken(read) ==> FetchEndsBeforeSettling(log))
  {
    if HasToken(read) {
      GetJwtFound(read);
    } else {
      GetJwtMissingActions(read);
      GetJwtMissingSettles(read);
    }
  }

  /** A fulfilled getJWT always hands back a non-empty stored token. */
  lemma GetJwtYieldsToken(read: StorageRead<StoredToken>)
    ensures SettlementOf(GetJwtLog(read)).Fulfilled? <==> HasToken(read)
    ensures SettlementOf(GetJwtLog(read)).Fulfilled? ==>
      exists t :: t != "" && SettlementOf(GetJwtLog(read)) == Fulfilled(TokenValue(TokenText(t)))
  {
    GetJwtSettles(read);
    if HasToken(read) {
      assert SettlementOf(GetJwtLog(read)) == Fulfilled(TokenValue(TokenText(read.value.text)));
    }
  }

  // ===================================================== properties of logout, checkConnection

  /** logout clears issues and projects before LOGOUT, calls nothing and
      returns no promise. */
  lemma LogoutObserved()
    ensures ActionsOf(LogoutLog()) == [ClearIssues, ClearProjects, Logout]
    ensures forall e :: e in LogoutLog() ==> e.Dispatched?
    ensures SettlementOf(LogoutLog()) == Pending
  {
    ActionsOfCons(Dispatched(ClearIssues), [Dispatched(ClearProjects), Dispatched(Logout)]);
    ActionsOfCons(Dispatched(ClearProjects), [Dispatched(Logout)]);
    ActionsOfCons(Dispatched(Logout), []);
    NoSettleCallIsPending(LogoutLog());
  }

  /** checkConnection asks is-online first and then reports its answer, as
      its only action. */
  lemma CheckConnectionObserved(online: bool)
    ensures ActionsOf(CheckConnectionLog(online)) == [SetConnectionStatus(online)]
    ensures Precedes(CheckConnectionLog(online), Called(IsOnline), Dispatched(SetConnectionStatus(online)))
    ensures SettlementOf(CheckConnectionLog(online)) == Pending
  {
    var log := CheckConnectionLog(online);
    ActionsOfCons(Called(IsOnline), [Dispatched(SetConnectionStatus(online))]);
    ActionsOfCons(Dispatched(SetConnectionStatus(online)), []);
    assert log[0] == Called(IsOnline) && log[1] == Dispatched(SetConnectionStatus(online));
    NoSettleCallIsPending(log);
  }
}
