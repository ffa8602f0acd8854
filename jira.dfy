/** The action creators and thunks of app/actions/jira.js. Each thunk is a
    method that performs its steps one after another on a fresh Run, given
    what its collaborators answer, and is proved to leave exactly the log that
    module Flows specifies, with the promise in the state that log implies. */
module Jira {
  import R = Redux
  import F = Flows
  import opened Collaborators
  import opened Host

  /** `installUpdates()`: the INSTALL_UPDATES action, with no payload. */
  function InstallUpdates(): (a: R.Action)
    ensures a.InstallUpdates?
  {
    R.InstallUpdates
  }

  /** `setAuthSucceeded()`: the SET_AUTH_SUCCEEDED action, with no payload. */
  function SetAuthSucceeded(): (a: R.Action)
    ensures a.SetAuthSucceeded?
  {
    R.SetAuthSucceeded
  }

  /** The action connect dispatches right after CONNECT is the one
      `setAuthSucceeded()` creates, and it is dispatched whenever connect gets
      past its authenticate request with a response it can read. */
  lemma ConnectDispatchesAuthSucceeded(c: Credentials, client: R.Client, p: R.Profile, auth: HttpResult<Issued>)
    requires F.AuthCompletes(auth) || (auth.Response? && auth.body.NullJson?)
    ensures R.RightAfter(F.ConnectLog(c, client, MyselfOk(p), auth),
                         R.Dispatched(R.Connect(client, c.host, c.username, c.memorize)),
                         R.Dispatched(SetAuthSucceeded()))
  {
    var log := F.ConnectLog(c, client, MyselfOk(p), auth);
    assert log[5] == R.Dispatched(R.Connect(client, c.host, c.username, c.memorize));
    assert log[5 + 1] == R.Dispatched(SetAuthSucceeded());
  }

  /** `checkConnection()`, once `isOnline()` has answered `online`. */
  method CheckConnection(online: bool) returns (run: R.Run)
    ensures fresh(run) && run.Valid()
    ensures run.log == F.CheckConnectionLog(online) && run.settlement == R.Pending
  {
    run := new R.Run();
    run.Call(R.IsOnline);
    run.Dispatch(R.SetConnectionStatus(online));
  }

  /** The `storage.remove` callback of jwtConnect's failure branches. */
  method AutoLoginFailed(run: R.Run)
    requires run.Valid()
    modifies run
    ensures run.Valid() && run.log == old(run.log) + F.AutoLoginFailedLog()
  {
    ghost var start := run.log;
    run.Dispatch(R.ThrowError(R.Message(F.AutoLoginFailed)));
    run.Dispatch(R.SetFetch(false));
    run.Reject(R.Message(F.Failed));
    R.AppendThree(start, R.Dispatched(R.ThrowError(R.Message(F.AutoLoginFailed))),
                  R.Dispatched(R.SetFetch(false)), R.RejectCalled(R.Message(F.Failed)));
  }

  /** jwtConnect's second `.then` up to `getMyself`: the Jira client for the
      returned login, the socket login, the profile request. */
  method BearerClient(run: R.Run, client: R.Client)
    requires run.Valid()
    modifies run
    ensures run.Valid()
    ensures run.log == old(run.log) + [R.Called(R.NewClient(client)), R.Called(R.SocketLogin), R.Called(R.GetMyself)]
  {
    ghost var start := run.log;
    run.Call(R.NewClient(client));
    run.Call(R.SocketLogin);
    run.Call(R.GetMyself);
    R.AppendThree(start, R.Called(R.NewClient(client)), R.Called(R.SocketLogin), R.Called(R.GetMyself));
  }

  /** jwtConnect's `getMyself` callback. */
  method BearerProfile(run: R.Run, client: R.Client, login: Login, myself: MyselfResult)
    requires run.Valid()
    requires client == R.Client(login.baseUrl, login.username, login.password)
    modifies run
    ensures run.Valid()
    ensures run.log == old(run.log) + match myself
      case MyselfErr(e) =>
        [R.Dispatched(R.ThrowError(R.Message(F.JiraWentWrong))), R.Dispatched(R.SetFetch(false)), R.RejectCalled(R.Message(e))]
      case MyselfOk(p) =>
        [R.Dispatched(R.GetSelf(p)), R.Dispatched(R.Connect(client, login.baseUrl, login.username, true)),
         R.Dispatched(R.SetFetch(false)), R.ResolveCalled(R.Done)]
  {
    ghost var start := run.log;
    match myself {
      case MyselfErr(e) =>
        run.Dispatch(R.ThrowError(R.Message(F.JiraWentWrong)));
        run.Dispatch(R.SetFetch(false));
        run.Reject(R.Message(e));
        R.AppendThree(start, R.Dispatched(R.ThrowError(R.Message(F.JiraWentWrong))),
                      R.Dispatched(R.SetFetch(false)), R.RejectCalled(R.Message(e)));
      case MyselfOk(p) =>
        run.Dispatch(R.GetSelf(p));
        run.Dispatch(R.Connect(client, login.baseUrl, login.username, true));
        run.Dispatch(R.SetFetch(false));
        run.Resolve(R.Done);
        R.AppendFour(start, R.Dispatched(R.GetSelf(p)), R.Dispatched(R.Connect(client, login.baseUrl, login.username, true)),
                     R.Dispatched(R.SetFetch(false)), R.ResolveCalled(R.Done));
    }
  }

  /** jwtConnect's second `.then`, on the login the authenticate response held. */
  method BearerLogin(run: R.Run, login: Login, myself: MyselfResult)
    requires run.Valid()
    modifies run
    ensures run.Valid() && run.log == old(run.log) + F.BearerLoginLog(login, myself)
  {
    ghost var start := run.log;
    var client := R.Client(login.baseUrl, login.username, login.password);
    BearerClient(run, client);
    ghost var calls := run.log[|start|..];
    assert run.log == start + calls;
    BearerProfile(run, client, login, myself);
    R.AppendAssoc(start, calls, run.log[|start| + |calls|..]);
  }

  /** jwtConnect after a failure status other than 401. */
  method ServerError(run: R.Run)
    requires run.Valid()
    modifies run
    ensures run.Valid() && run.log == old(run.log) + F.ServerErrorLog()
  {
    ghost var start := run.log;
    run.Call(R.StorageRemove(F.JwtKey));
    run.Dispatch(R.ThrowError(R.Message(F.ServerError)));
    run.Dispatch(R.SetFetch(false));
    run.Reject(R.Message(F.ServerError));
    var failure := [R.Called(R.StorageRemove(F.JwtKey)), R.Dispatched(R.ThrowError(R.Message(F.ServerError))),
                    R.Dispatched(R.SetFetch(false)), R.RejectCalled(R.Message(F.ServerError))];
    R.AppendFour(start, failure[0], failure[1], failure[2], failure[3]);
    AutoLoginFailed(run);
    R.AppendAssoc(start, failure, F.AutoLoginFailedLog());
  }

  /** What jwtConnect does once `fetch` has answered with a status. */
  method BearerResponse(run: R.Run, status: int, body: Body<Login>, myself: MyselfResult)
    requires run.Valid()
    modifies run
    ensures run.Valid()
    ensures run.log == old(run.log) + F.BearerResponseLog(status, body, myself)
  {
    if status == 200 {
      if body.Json? {
        BearerLogin(run, body.fields, myself);
      }
    } else if status == 401 {
      ghost var start := run.log;
      run.Call(R.StorageRemove(F.JwtKey));
      AutoLoginFailed(run);
      R.AppendAssoc(start, [R.Called(R.StorageRemove(F.JwtKey))], F.AutoLoginFailedLog());
    } else {
      ServerError(run);
    }
  }

  /** `jwtConnect(token)`, given the authenticate response and, when it gets
      that far, the answer of `getMyself`. */
  method JwtConnect(token: string, res: HttpResult<Login>, myself: MyselfResult) returns (run: R.Run)
    ensures fresh(run) && run.Valid()
    ensures run.log == F.JwtConnectLog(token, res, myself)
  {
    run := new R.Run();
    run.Dispatch(R.SetFetch(true));
    run.Call(R.FetchWithBearer(token));
    R.AppendTwo([], R.Dispatched(R.SetFetch(true)), R.Called(R.FetchWithBearer(token)));
    assert run.log == F.BearerRequestLog(token);
    if res.Response? {
      BearerResponse(run, res.status, res.body, myself);
    }
  }

  /** connect's socket login and SAVE_JWT, run only with a truthy token. */
  method SaveToken(run: R.Run, token: R.Option<string>)
    requires run.Valid()
    modifies run
    ensures run.Valid() && run.log == old(run.log) + F.TokenLog(token)
  {
    if Truthy(token) {
      ghost var start := run.log;
      run.Call(R.SocketLogin);
      run.Dispatch(R.SaveJwt(token.value));
      R.AppendTwo(start, R.Called(R.SocketLogin), R.Dispatched(R.SaveJwt(token.value)));
    }
  }

  /** connect's MEMORIZE_FORM, run only when the form asked to be remembered. */
  method Memorize(run: R.Run, c: Credentials)
    requires run.Valid()
    modifies run
    ensures run.Valid() && run.log == old(run.log) + F.MemorizeLog(c)
  {
    if c.memorize {
      run.Dispatch(R.MemorizeForm(c.host, c.username));
    }
  }

  /** connect from the CONNECT dispatch on, once the authenticate response is read. */
  method Session(run: R.Run, c: Credentials, client: R.Client, token: R.Option<string>)
    requires run.Valid()
    modifies run
    ensures run.Valid() && run.log == old(run.log) + F.SessionLog(c, client, token)
  {
    ghost var start := run.log;
    var connect := R.Dispatched(R.Connect(client, c.host, c.username, c.memorize));
    var succeeded := R.Dispatched(SetAuthSucceeded());
    run.Dispatch(R.Connect(client, c.host, c.username, c.memorize));
    run.Dispatch(SetAuthSucceeded());
    R.AppendTwo(start, connect, succeeded);
    ghost var entered := run.log;
    SaveToken(run, token);
    ghost var saved := run.log;
    Memorize(run, c);
    R.AppendAssoc(entered, F.TokenLog(token), F.MemorizeLog(c));
    ghost var optional := run.log;
    run.Dispatch(R.SetFetch(false));
    run.Resolve(R.SuccessHelper);
    R.AppendTwo(optional, R.Dispatched(R.SetFetch(false)), R.ResolveCalled(R.SuccessHelper));
    R.AppendAssoc(start, [connect, succeeded], F.OptionalLog(c, token));
    R.AppendAssoc(start, [connect, succeeded] + F.OptionalLog(c, token),
                  [R.Dispatched(R.SetFetch(false)), R.ResolveCalled(R.SuccessHelper)]);
  }

  /** connect's two `.then`s, on the authenticate response. */
  method Authenticated(run: R.Run, c: Credentials, client: R.Client, auth: HttpResult<Issued>)
    requires run.Valid()
    modifies run
    ensures run.Valid() && run.log == old(run.log) + F.AuthenticatedLog(c, client, auth)
  {
    if auth.Response? {
      if auth.status != 200 {
        Session(run, c, client, R.None);
      } else if auth.body.NullJson? {
        run.Dispatch(R.Connect(client, c.host, c.username, c.memorize));
        run.Dispatch(SetAuthSucceeded());
      } else if auth.body.Json? {
        Session(run, c, client, auth.body.fields.token);
      }
    }
  }

  /** connect's `getMyself` callback, when the profile has been fetched. */
  method Profiled(run: R.Run, c: Credentials, client: R.Client, p: R.Profile, auth: HttpResult<Issued>)
    requires run.Valid()
    modifies run
    ensures run.Valid()
    ensures run.log == old(run.log)
      + ([R.Dispatched(R.GetSelf(p)), R.Called(R.PostCredentials(client.host, c.username, c.password))]
         + F.AuthenticatedLog(c, client, auth))
  {
    ghost var start := run.log;
    var head := [R.Dispatched(R.GetSelf(p)), R.Called(R.PostCredentials(client.host, c.username, c.password))];
    run.Dispatch(R.GetSelf(p));
    run.Call(R.PostCredentials(client.host, c.username, c.password));
    R.AppendTwo(start, head[0], head[1]);
    Authenticated(run, c, client, auth);
    R.AppendAssoc(start, head, F.AuthenticatedLog(c, client, auth));
  }

  /** connect's `getMyself` callback, when the profile could not be fetched. */
  method ProfileFailed(run: R.Run, e: string)
    requires run.Valid()
    modifies run
    ensures run.Valid()
    ensures run.log == old(run.log)
      + [R.Dispatched(R.ThrowError(R.Message(F.CannotAuthorize))), R.Dispatched(R.SetFetch(false)),
         R.RejectCalled(R.Message(e))]
  {
    ghost var start := run.log;
    run.Dispatch(R.ThrowError(R.Message(F.CannotAuthorize)));
    run.Dispatch(R.SetFetch(false));
    run.Reject(R.Message(e));
    R.AppendThree(start, R.Dispatched(R.ThrowError(R.Message(F.CannotAuthorize))),
                  R.Dispatched(R.SetFetch(false)), R.RejectCalled(R.Message(e)));
  }

  /** `connect(credentials)`, given the answer of `getMyself` and, when it
      gets that far, the authenticate response. */
  method Connect(c: Credentials, myself: MyselfResult, auth: HttpResult<Issued>) returns (run: R.Run)
    ensures fresh(run) && run.Valid()
    ensures run.log == F.ConnectLog(c, F.ConnectClient(c), myself, auth)
  {
    run := new R.Run();
    var client := F.ConnectClient(c);
    run.Dispatch(R.SetFetch(true));
    run.Call(R.NewClient(client));
    run.Call(R.GetMyself);
    var request := [R.Dispatched(R.SetFetch(true)), R.Called(R.NewClient(client)), R.Called(R.GetMyself)];
    R.AppendThree([], request[0], request[1], request[2]);
    assert run.log == request;
    match myself {
      case MyselfErr(e) =>
        ProfileFailed(run, e);
      case MyselfOk(p) =>
        Profiled(run, c, client, p, auth);
    }
  }

  /** `getSavedCredentials()`, given what `storage.get` hands its callback. */
  method GetSavedCredentials(read: StorageRead<R.SavedCredentials>) returns (run: R.Run)
    ensures fresh(run) && run.Valid()
    ensures run.log == F.GetSavedCredentialsLog(read)
  {
    run := new R.Run();
    run.Call(R.StorageGet(F.CredentialsKey));
    var credentials := R.NoCredentials;
    if read.ReadError? {
      run.Dispatch(R.ThrowError(R.Message(read.error)));
      run.Dispatch(R.SetFetch(false));
      run.Reject(R.Message(read.error));
    } else {
      credentials := read.value;
    }
    run.Dispatch(R.GetSavedCredentials(credentials));
    run.Resolve(R.CredentialsValue(credentials));
  }

  /** getJWT's report when storage yielded no usable token. */
  method MissingToken(run: R.Run, read: StorageRead<R.StoredToken>)
    requires run.Valid()
    modifies run
    ensures run.Valid() && run.log == old(run.log) + F.MissingTokenLog(read)
  {
    var error := F.ErrorRead(read);
    var token := F.TokenRead(read);
    if error.Message? || !(token.TokenText? && token.text != "") {
      ghost var start := run.log;
      run.Dispatch(R.ThrowError(error));
      run.Dispatch(R.SetFetch(false));
      run.Reject(error);
      R.AppendThree(start, R.Dispatched(R.ThrowError(error)), R.Dispatched(R.SetFetch(false)), R.RejectCalled(error));
    }
  }

  /** `getJWT()`, given what `storage.get` hands its callback. */
  method GetJwt(read: StorageRead<R.StoredToken>) returns (run: R.Run)
    ensures fresh(run) && run.Valid()
    ensures run.log == F.GetJwtLog(read)
  {
    run := new R.Run();
    run.Call(R.StorageGet(F.JwtKey));
    assert run.log == [R.Called(R.StorageGet(F.JwtKey))];
    MissingToken(run, read);
    ghost var reported := run.log;
    var token := F.TokenRead(read);
    run.Dispatch(R.GetJwt(token));
    run.Resolve(R.TokenValue(token));
    R.AppendTwo(reported, R.Dispatched(R.GetJwt(token)), R.ResolveCalled(R.TokenValue(token)));
  }

  /** `logout()`. */
  method Logout() returns (run: R.Run)
    ensures fresh(run) && run.Valid()
    ensures run.log == F.LogoutLog() && run.settlement == R.Pending
  {
    run := new R.Run();
    run.Dispatch(R.ClearIssues);
    run.Dispatch(R.ClearProjects);
    run.Dispatch(R.Logout);
  }
}
