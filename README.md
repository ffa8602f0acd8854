# Chronos connection actions, modelled in Dafny

This project models `app/actions/jira.js` of the Chronos time tracker. That
file holds the Redux action creators and thunks that log the desktop app in
to Jira. They are:

- `jwtConnect`, which logs in with a previously issued bearer token;
- `connect`, which logs in with the login form;
- `getSavedCredentials` and `getJWT`, which read the remembered form and token
  from local storage;
- `logout` and `checkConnection`;
- the plain creators `installUpdates` and `setAuthSucceeded`.

Each thunk is modelled by one run. The collaborators' answers are the run's
inputs: is-online, the authenticate `fetch`, the Jira client's `getMyself`
and `electron-json-storage`. A run records an ordered log of what the thunk
does. Each log entry is one of:

- a dispatched action;
- a call into a collaborator;
- a `resolve` or `reject` call on the promise the thunk returns.

The promise's state is that of the first settle call. Later calls are
logged but ignored, as JavaScript promises ignore them.

The model has five modules:

- `Redux` (redux.dfy) holds the actions, effects, events and settlements. It
  defines the projections `ActionsOf` (what the store sees) and
  `SettlementOf` (what the caller sees). It also holds the class `Run`, whose
  `log` and `settlement` fields the thunks update one step at a time.
- `Collaborators` (collaborators.dfy) holds the values the libraries hand
  back.
- `Host` (host.dfy) holds connect's host normalisation.
- `Flows` (flows.dfy) gives every thunk's log as a function of the
  collaborators' answers, and proves what the log dispatches, how the promise
  settles, in which order, and with which data.
- `Jira` (jira.dfy) holds the creators, and the thunks as methods that build
  their log step by step on a fresh `Run`. Each method is proved to produce
  exactly the log `Flows` specifies.

What the code does, where it is easy to misread:

- `jwtConnect` sends its bearer token without a `method` option, so the
  request is a GET, not a POST.
- On a status that is neither 200 nor 401, `jwtConnect` reports "Server
  error" and rejects at once. The deferred `storage.remove` callback then
  reports the failed automatic login and calls `reject` a second time. The
  promise is rejected with "Server error".
- On a failure status the second `.then` of `jwtConnect` receives `undefined`
  and throws. That adds nothing to the log.
- On a network failure, or a 200 answer whose body is not JSON or is
  `null`, `jwtConnect` leaves the fetch state set and the promise pending.
- Host normalisation strips a leading `https://` and then, from what is
  left, a leading `http://`. So `https://http://x` becomes `x.atlassian.net`.
- When the authenticate response of `connect` is not 200, the first `.then`
  yields `false`. `false.token` is undefined, so connect still dispatches
  CONNECT and SET_AUTH_SUCCEEDED and resolves, without a token.
- A 200 response whose body is `null` makes connect throw right after
  SET_AUTH_SUCCEEDED. The fetch state stays set and the promise stays
  pending.
- `connect` resolves with the `success` helper itself, uncalled.
- `getSavedCredentials` and `getJWT` do not return after `reject`. They still
  dispatch their GET_* action and call `resolve`, which the rejected promise
  ignores.

## Model

| member | source | states |
|---|---|---|
| Host.StartsWith | app/actions/jira.js:141-142 | computes JavaScript's `startsWith`: the prefix is no longer than the string and equals its first characters |
| Host.SiteName | app/actions/jira.js:141-144 | computes the part of a normalised host before `.atlassian.net` |
| Host.StripHttpsShape | app/actions/jira.js:141 | a host that starts with `https://` is `https://` followed by what the first strip leaves; any other host is left unchanged |
| Host.StripHttpShape | app/actions/jira.js:142 | a host that starts with `http://` is `http://` followed by what the second strip leaves; any other host is left unchanged |
| Host.StripHttps | app/actions/jira.js:141 | drops a leading `https://` and nothing else: what is left is the end of the host, eight characters shorter exactly when the host starts with `https://` |
| Host.StripHttp | app/actions/jira.js:142 | drops a leading `http://` from what the first step left and nothing else: seven characters shorter exactly when it starts with `http://` |
| Host.FormatHost | app/actions/jira.js:141-144 | the host connect gives the Jira client and the authenticate request ends in `.atlassian.net`, and what precedes the suffix is an end of the typed host |
| Host.FormatHostShape | app/actions/jira.js:141-144 | the Jira host always ends in `.atlassian.net`; the typed host is the site name with nothing, `https://`, `http://` or `https://http://` in front |
| Host.HttpIsNotHttps | app/actions/jira.js:141-142 | a host that starts with `http://` never starts with `https://`, so the first strip leaves it to the second |
| Host.FormatHostIgnoresSchemes | app/actions/jira.js:141-144 | a site name and its `https://`, `http://` and `https://http://` forms all normalise to the site name plus `.atlassian.net` |
| Redux.Run.Valid | app/actions/jira.js:29 | states the run's invariant: the promise's state is the one the log's first `resolve` or `reject` call set |
| Redux.Run.constructor | app/actions/jira.js:29 | a new run has an empty log and a pending promise |
| Redux.Run.Dispatch | app/actions/jira.js:30-33 | `dispatch` appends the action to the log and leaves the promise's state alone |
| Redux.Run.Call | app/actions/jira.js:40 | a collaborator call appends the call to the log and leaves the promise's state alone |
| Redux.Run.Resolve | app/actions/jira.js:126 | `resolve` settles a pending promise with the value and is ignored by a settled one; the state always equals the first settle call in the log |
| Redux.Run.Reject | app/actions/jira.js:55 | `reject` settles a pending promise with the reason and is ignored by a settled one |
| Redux.ActionsOf | app/actions/jira.js:28-294 | computes the actions a run dispatched, in dispatch order, leaving out calls and settle calls |
| Redux.Precedes | app/actions/jira.js:93-97 | states that one event occurs in a run strictly before another |
| Redux.RightAfter | app/actions/jira.js:185-196 | states that one event occurs in a run directly after another |
| Redux.NoSettleCall | app/actions/jira.js:30-40 | states that a stretch of a run calls neither `resolve` nor `reject` |
| Redux.FetchEndsBeforeSettling | app/actions/jira.js:63-67 | states that every `resolve` or `reject` call of a run comes after some SET_CONNECT_FETCH_STATE(false), so the fetch state is released before the caller learns the result |
| Redux.TouchesNoStorage | app/actions/jira.js:134-227 | states that a run makes no `storage.get` or `storage.remove` call |
| Redux.CallsWithin | app/actions/jira.js:134-227 | states that every collaborator call of a run is one of a given set |
| Redux.ActionsOfAppend | app/actions/jira.js:29-131 | the actions of two consecutive stretches of a run are the actions of the first followed by those of the second |
| Redux.ActionsOfMember | app/actions/jira.js:29-131 | an action is among a run's actions if and only if the run dispatched it |
| Redux.SettlementOf | app/actions/jira.js:231-247 | computes the state of the thunk's promise from its log: the value or reason of the first `resolve` or `reject` call, later calls ignored, pending when there is none |
| Redux.SettlementOfAppend | app/actions/jira.js:29-131 | once the first stretch of a run has settled the promise, nothing after it changes the state |
| Redux.SettlementOfFirst | app/actions/jira.js:241-247 | the first `resolve` or `reject` call of a run decides the promise, whatever follows it |
| Redux.NoSettleCallIsPending | app/actions/jira.js:81-130 | a run that never calls `resolve` or `reject` leaves the promise pending |
| Redux.FetchEndsBeforeSettlingAppend | app/actions/jira.js:29-131 | a stretch without settle calls in front of a run that releases the fetch state before settling keeps that order |
| Redux.ReleasedBeforeSettling | app/actions/jira.js:63-67 | when the first settle call follows SET_CONNECT_FETCH_STATE(false), every settle call does |
| Redux.QuietThenSettles | app/actions/jira.js:181-221 | a stretch without settle calls in front of a run changes neither the promise's state nor the release-before-settling order |
| Redux.ReportThenReject | app/actions/jira.js:57-78 | a call, two dispatches and a rejection in front of the rest of a run: those two actions come first and the rejection decides the promise |
| Redux.RightAfterWithin | app/actions/jira.js:197-202 | two neighbouring events of a run stay neighbours when more of the run is put around them |
| Redux.CallsWithinAppend | app/actions/jira.js:134-227 | two stretches whose calls are all among a set of collaborator calls make a run whose calls are all among them |
| Flows.AutoLoginFailedLog | app/actions/jira.js:46-56 | computes the `storage.remove` callback of the failure branches: the automatic-login error, fetch off, and the rejection with "Failed" |
| Flows.BearerRequestLog | app/actions/jira.js:30-40 | computes the start of jwtConnect: fetch on, then the GET with the bearer token |
| Flows.BearerLoginLog | app/actions/jira.js:82-128 | computes the second `.then` after a readable login: the client from the returned site, the socket login, the profile request, then the error report and rejection or GET_SELF, CONNECT, fetch off and the resolve |
| Flows.ServerErrorLog | app/actions/jira.js:57-78 | computes the failure branch for statuses other than 200 and 401: the token removal, the "Server error" report, fetch off, the rejection, then the deferred `storage.remove` callback |
| Flows.BearerResponseLog | app/actions/jira.js:41-80 | computes what follows the response by status: the login for a 200 JSON object, nothing for another 200 body, the removal and callback for 401, and the failure branch otherwise |
| Flows.JwtConnectLog | app/actions/jira.js:28-132 | computes the whole run of `jwtConnect(token)`: the request and then, unless the network failed, what the response leads to |
| Flows.BearerRequestObserved | app/actions/jira.js:30-40 | the request phase of jwtConnect dispatches only SET_CONNECT_FETCH_STATE(true) and settles nothing |
| Flows.AutoLoginFailedObserved | app/actions/jira.js:46-56 | the `storage.remove` callback reports the failed automatic login, releases the fetch state and rejects with "Failed" |
| Flows.JwtConnectBracketsFetch | app/actions/jira.js:28-132 | every jwtConnect first sets the fetch state, and every settle call comes after the fetch state is released |
| Flows.JwtConnectUnauthorized | app/actions/jira.js:45-56 | a 401 removes `desktop_tracker_jwt`; its actions are exactly fetch on, the automatic-login error and fetch off; it rejects with "Failed" |
| Flows.ServerErrorObserved | app/actions/jira.js:57-78 | the failure branch removes the token first; its actions are "Server error", fetch off, the automatic-login error and fetch off; the "Server error" rejection is the one that counts |
| Flows.JwtConnectServerError | app/actions/jira.js:57-78 | any failure status other than 401 removes the token; its actions are fetch on, "Server error", fetch off, the automatic-login error, fetch off; it rejects with "Server error" |
| Flows.BearerLoginActions | app/actions/jira.js:82-128 | after a readable login, a profile error dispatches the Jira error and fetch off; a profile dispatches GET_SELF, CONNECT for the returned site with `memorize` true, and fetch off |
| Flows.BearerLoginSettles | app/actions/jira.js:97-128 | after a readable login, a profile error rejects with the API's error and a profile resolves |
| Flows.JwtConnectActions | app/actions/jira.js:28-132 | computes, case by case, the actions jwtConnect dispatches: fetch on, then nothing on a network failure or a 200 body that is not JSON or is `null`; the Jira error and fetch off, or GET_SELF, CONNECT and fetch off after a readable login; the automatic-login error and fetch off on 401; "Server error", fetch off, the automatic-login error and fetch off on any other status |
| Flows.JwtConnectOutcome | app/actions/jira.js:28-132 | computes, case by case, how jwtConnect's promise ends: pending on a network failure or an unreadable 200 body, rejected with the API's error or fulfilled after a readable login, rejected with "Failed" on 401 and with "Server error" on any other status |
| Flows.JwtConnectReadable | app/actions/jira.js:43-128 | after a readable 200 response the actions and the promise state are the ones `Flows.JwtConnectActions` and `Flows.JwtConnectOutcome` give |
| Flows.JwtConnectObserved | app/actions/jira.js:28-132 | for every response and profile answer, jwtConnect dispatches exactly the written-out `Flows.JwtConnectActions` and ends in the state `Flows.JwtConnectOutcome` |
| Flows.JwtConnectSucceeds | app/actions/jira.js:83-126 | an accepted token builds the client from the returned site, logs the socket in before asking for the profile, and dispatches exactly fetch on, GET_SELF, CONNECT and fetch off, then resolves |
| Flows.JwtConnectActionsOnSuccess | app/actions/jira.js:109-125 | the written-out actions of an accepted token are fetch on, GET_SELF, CONNECT with the returned login and `memorize` true, and fetch off |
| Flows.JwtConnectLogsSocketFirst | app/actions/jira.js:83-97 | with a readable login the Jira client is built from the returned site and the socket is logged in before the profile is requested |
| Flows.JwtConnectProfileFails | app/actions/jira.js:97-107 | a profile error after an accepted token dispatches exactly fetch on, the Jira error and fetch off, and rejects with the API's error |
| Flows.JwtConnectStalls | app/actions/jira.js:40-44 | a network failure, or a 200 body that is not JSON or is `null`, dispatches only fetch on and leaves the promise pending |
| Flows.BearerLoginSucceeds | app/actions/jira.js:43-127 | states when jwtConnect logs in: a 200 response whose body is a JSON object, and a fetched profile |
| Flows.JwtConnectOutcomeFacts | app/actions/jira.js:43-127 | in the written-out actions and outcome, GET_SELF or CONNECT appears, and the promise is fulfilled, if and only if the login succeeded |
| Flows.JwtConnectSessionIffLogin | app/actions/jira.js:43-127 | GET_SELF or CONNECT is dispatched, and the promise fulfilled, if and only if the status is 200, the body is a JSON object and the profile is fetched |
| Collaborators.Truthy | app/actions/jira.js:198 | computes the `if (token)` test: a token is truthy when it is present and not the empty string |
| Flows.IssuedToken | app/actions/jira.js:181-197 | computes `json.token` once connect has its response: the token of a 200 JSON body, and nothing for any other status, because the first `.then` then yields `false` and `false.token` is undefined |
| Flows.TokenLog | app/actions/jira.js:197-207 | computes the token branch: the socket login and SAVE_JWT for a truthy token, nothing otherwise |
| Flows.MemorizeLog | app/actions/jira.js:208-216 | computes the memorize branch: MEMORIZE_FORM with the typed host and the username when `memorize` is set, nothing otherwise |
| Flows.SessionLog | app/actions/jira.js:185-221 | computes the end of connect: CONNECT, SET_AUTH_SUCCEEDED, the token and memorize branches, fetch off, and the resolve with the `success` helper |
| Flows.AuthenticatedLog | app/actions/jira.js:181-223 | computes what follows the authenticate response: the session without a token for a non-200 status, CONNECT and SET_AUTH_SUCCEEDED for a `null` body, the session with the token for a JSON object, nothing for a network failure or a body that is not JSON |
| Flows.ConnectClient | app/actions/jira.js:141-149 | computes the Jira client connect builds: the normalised host, the username and the password |
| Flows.ConnectLog | app/actions/jira.js:134-227 | computes the whole run of `connect(credentials)`: fetch on, the client, the profile request, then the authorisation error and rejection, or GET_SELF, the authenticate request and what its response leads to |
| Flows.TokenObserved | app/actions/jira.js:197-207 | the token part of connect dispatches SAVE_JWT only for a truthy token, and settles nothing |
| Flows.MemorizeObserved | app/actions/jira.js:208-216 | the memorize part of connect dispatches MEMORIZE_FORM only when asked, and settles nothing |
| Flows.OptionalLog | app/actions/jira.js:197-216 | computes the optional middle of connect's session: the token branch, then the memorize branch |
| Flows.TokenActions | app/actions/jira.js:197-207 | computes the token branch's actions: SAVE_JWT with the token when it is truthy, nothing otherwise |
| Flows.MemorizeActions | app/actions/jira.js:208-216 | computes the memorize branch's actions: MEMORIZE_FORM with the typed host and the username when `memorize` is set, nothing otherwise |
| Flows.AuthCompletes | app/actions/jira.js:181-221 | computes which authenticate responses let connect reach its resolve: any response with a non-200 status, and a 200 response whose body is a JSON object |
| Flows.OptionalObserved | app/actions/jira.js:197-216 | the optional part of connect dispatches SAVE_JWT only for a truthy token and then MEMORIZE_FORM only when asked, and settles nothing |
| Flows.SessionObserved | app/actions/jira.js:185-221 | the end of connect dispatches CONNECT, SET_AUTH_SUCCEEDED, the optional actions and fetch off, resolves with the `success` helper, and releases the fetch state before resolving |
| Flows.AuthenticatedActions | app/actions/jira.js:181-223 | computes, case by case, what connect dispatches after its authenticate request: CONNECT, SET_AUTH_SUCCEEDED, the optional SAVE_JWT and MEMORIZE_FORM and fetch off when the flow completes; only CONNECT and SET_AUTH_SUCCEEDED for a `null` body; nothing for a network failure or a body that is not JSON |
| Flows.AuthenticatedObserved | app/actions/jira.js:179-223 | what connect does after its authenticate request, for each kind of response: the actions are the written-out `Flows.AuthenticatedActions` (the whole session, only CONNECT and SET_AUTH_SUCCEEDED for a `null` body, nothing for an unreadable one); it resolves exactly when the flow reaches its end, after the release |
| Flows.ConnectProfileFailsActions | app/actions/jira.js:151-161 | a profile error dispatches exactly fetch on, the authorisation error and fetch off |
| Flows.ConnectProfileFailsSettles | app/actions/jira.js:151-161 | a profile error rejects with the API's error after the release, and makes no call besides building the client and requesting the profile |
| Flows.ConnectProfileFails | app/actions/jira.js:151-161 | a profile error dispatches exactly fetch on, the authorisation error and fetch off, rejects with the API's error, and sends no authenticate request |
| Flows.ConnectObserved | app/actions/jira.js:136-223 | once the profile is fetched, connect dispatches fetch on, GET_SELF and then the actions of its authenticate phase |
| Flows.ConnectProfiledSettles | app/actions/jira.js:162-223 | once the profile is fetched, connect settles exactly as its authenticate phase does: it resolves if and only if the response lets it run to the end, after releasing the fetch state |
| Flows.ConnectSettles | app/actions/jira.js:134-227 | every connect first sets the fetch state and releases it before any settle call; a profile error rejects with the API's error; otherwise it resolves if and only if the authenticate response lets it run to the end, and stays pending if not |
| Flows.ConnectActions | app/actions/jira.js:134-227 | computes, case by case, what connect dispatches: fetch on, then the authorisation error and fetch off on a profile error, or GET_SELF followed by the authenticate phase's actions |
| Flows.ConnectActionsObserved | app/actions/jira.js:134-227 | the actions of every connect equal the case-by-case list `Flows.ConnectActions` |
| Flows.AuthenticatedActionFacts | app/actions/jira.js:185-216 | in the authenticate phase's written-out actions, every CONNECT carries the client and the typed host; MEMORIZE_FORM appears if and only if `memorize` is set and the flow completed; every SAVE_JWT carries the non-empty token of a 200 response |
| Flows.ConnectActionFacts | app/actions/jira.js:134-227 | in connect's written-out actions, every CONNECT carries the client with the typed host; MEMORIZE_FORM appears if and only if `memorize` is set, the profile was fetched and the flow completed, and carries host and username only; every SAVE_JWT carries a non-empty token from a 200 response |
| Flows.ConnectCalls | app/actions/jira.js:143-202 | connect's only calls are building the client, the profile request, the authenticate request on the client's host and the socket login; the client is always built, the authenticate request made once the profile is fetched |
| Flows.AuthenticatedCalls | app/actions/jira.js:183-222 | after the authenticate request the socket login is the only call connect makes |
| Flows.CallsCarryClient | app/actions/jira.js:143-177 | in a run whose calls are connect's, every client built is connect's client and every authenticate request carries its host, username and password |
| Flows.ConnectUsesNormalisedHost | app/actions/jira.js:141-177 | both the Jira client and the authenticate request get the normalised host, which ends in `.atlassian.net`; every client and every authenticate request in the log carries it |
| Flows.ConnectStoresTypedHost | app/actions/jira.js:185-193 | every CONNECT dispatched carries the client, the host as typed, the username and the user's `memorize` flag |
| Flows.ConnectMemorizesOnlyWhenAsked | app/actions/jira.js:208-216 | MEMORIZE_FORM is dispatched if and only if `memorize` is set, the profile was fetched and the flow completed; it carries the typed host and the username, never the password |
| Flows.ConnectLogMemorizes | app/actions/jira.js:208-216 | the MEMORIZE_FORM dispatch is in connect's log if and only if `memorize` is set, the profile was fetched and the flow completed |
| Flows.ConnectTouchesNoStorage | app/actions/jira.js:134-227 | connect never reads or writes storage |
| Flows.ConnectCallsTouchNoStorage | app/actions/jira.js:134-227 | none of the calls connect may make is a storage call |
| Flows.ConnectSavesIssuedTokenOnly | app/actions/jira.js:197-207 | every SAVE_JWT carries the non-empty token of a 200 response, and only when the profile was fetched |
| Flows.ConnectSocketLogin | app/actions/jira.js:197-202 | the socket login happens if and only if the profile was fetched and the response holds a truthy token, and comes right before SAVE_JWT |
| Flows.ConnectSocketBeforeSave | app/actions/jira.js:197-202 | with a fetched profile and a truthy token the socket is logged in, right before SAVE_JWT with that token |
| Flows.ConnectWithoutSocket | app/actions/jira.js:197-202 | with a fetched profile and no truthy token connect never logs the socket in |
| Flows.AuthenticatedWithoutSocket | app/actions/jira.js:197-202 | without a truthy token the authenticate phase never logs the socket in |
| Flows.ConnectWithoutTokenResolves | app/actions/jira.js:181-221 | a non-200 authenticate response still dispatches CONNECT, SET_AUTH_SUCCEEDED, the optional MEMORIZE_FORM and fetch off, resolves, and never logs the socket in |
| Flows.ConnectActionsWithoutToken | app/actions/jira.js:181-221 | the written-out actions after a non-200 response are fetch on, GET_SELF, CONNECT, SET_AUTH_SUCCEEDED, the optional MEMORIZE_FORM and fetch off |
| Flows.GetSavedCredentialsLog | app/actions/jira.js:229-250 | computes the run of `getSavedCredentials()`: the read, the error report and rejection on a failed read, then GET_SAVED_CREDENTIALS and the resolve in every case |
| Flows.GetSavedCredentialsFailedActions | app/actions/jira.js:231-246 | a failed read dispatches the error, fetch off, and still GET_SAVED_CREDENTIALS with nothing |
| Flows.GetSavedCredentialsFailedSettles | app/actions/jira.js:231-247 | a failed read rejects with the storage error after the release; the later resolve is ignored |
| Flows.GetSavedCredentialsFound | app/actions/jira.js:243-247 | a successful read dispatches GET_SAVED_CREDENTIALS with the value and resolves with it |
| Flows.GetSavedCredentialsReadsOnce | app/actions/jira.js:231 | getSavedCredentials reads `jira_credentials` exactly once, as its first event, and makes no other call |
| Flows.GetSavedCredentialsSettles | app/actions/jira.js:229-250 | exactly one read of `jira_credentials`, first, and no other call; an error is reported, fetch released, the promise rejected with it, and GET_SAVED_CREDENTIALS still dispatched with nothing; a value is dispatched and resolved with |
| Flows.HasToken | app/actions/jira.js:255 | computes the negation of `error || !token.length`: the read succeeded and gave a token of non-zero length |
| Flows.TokenRead | app/actions/jira.js:254 | computes the `token` argument of the storage callback: the value read, or `undefined` after an error |
| Flows.ErrorRead | app/actions/jira.js:254 | computes the `error` argument of the storage callback: the storage error, or `null` when the read succeeded |
| Flows.MissingTokenLog | app/actions/jira.js:255-265 | computes the report of a failed or empty token read: the storage error, fetch off and the rejection; nothing when a non-empty token was read |
| Flows.GetJwtLog | app/actions/jira.js:252-273 | computes the run of `getJWT()`: the read, the report of a missing token, then GET_JWT and the resolve with what was read, in every case |
| Flows.GetJwtFound | app/actions/jira.js:254-270 | a non-empty token is dispatched with GET_JWT and resolved with |
| Flows.GetJwtMissingActions | app/actions/jira.js:255-269 | without a token getJWT dispatches the error, fetch off, and still GET_JWT with what was read |
| Flows.GetJwtMissingSettles | app/actions/jira.js:255-270 | without a token getJWT rejects with the storage error after the release; the later resolve is ignored |
| Flows.GetJwtSettles | app/actions/jira.js:252-273 | exactly one read of `desktop_tracker_jwt`, first, and no other call; getJWT resolves with the token if and only if the read gave a non-empty one, and otherwise reports and rejects with the storage error after releasing the fetch state; GET_JWT is always the last action |
| Flows.GetJwtYieldsToken | app/actions/jira.js:255-270 | a fulfilled getJWT hands back a non-empty stored token, and it is fulfilled exactly when there is one |
| Flows.LogoutLog | app/actions/jira.js:276-288 | computes the run of `logout()`: CLEAR_ISSUES, CLEAR_PROJECTS and LOGOUT |
| Flows.LogoutObserved | app/actions/jira.js:276-288 | logout dispatches exactly CLEAR_ISSUES, CLEAR_PROJECTS and LOGOUT, in that order, calls nothing and settles nothing |
| Flows.CheckConnectionLog | app/actions/jira.js:16-26 | computes the run of `checkConnection()`: the is-online call, then SET_CONNECTION_STATUS with its answer |
| Flows.CheckConnectionObserved | app/actions/jira.js:16-26 | checkConnection asks is-online first and then dispatches SET_CONNECTION_STATUS with its answer as its only action |
| Jira.InstallUpdates | app/actions/jira.js:10-14 | `installUpdates()` is the INSTALL_UPDATES action |
| Jira.SetAuthSucceeded | app/actions/jira.js:290-294 | `setAuthSucceeded()` is the SET_AUTH_SUCCEEDED action |
| Jira.ConnectDispatchesAuthSucceeded | app/actions/jira.js:185-196 | when connect gets a readable response, it dispatches the action `setAuthSucceeded()` creates right after CONNECT |
| Jira.CheckConnection | app/actions/jira.js:16-26 | the method's run is exactly `Flows.CheckConnectionLog`, with no promise settled |
| Jira.AutoLoginFailed | app/actions/jira.js:46-56 | the callback appends exactly `Flows.AutoLoginFailedLog` |
| Jira.BearerClient | app/actions/jira.js:83-97 | the client for the returned login is built, the socket logged in and the profile requested, in that order |
| Jira.BearerProfile | app/actions/jira.js:97-128 | the `getMyself` callback appends the Jira error, fetch off and a rejection, or GET_SELF, CONNECT, fetch off and a resolve |
| Jira.BearerLogin | app/actions/jira.js:82-128 | the second `.then` appends exactly `Flows.BearerLoginLog` |
| Jira.ServerError | app/actions/jira.js:57-78 | the failure branch appends exactly `Flows.ServerErrorLog` |
| Jira.BearerResponse | app/actions/jira.js:41-80 | dispatching on the status appends exactly `Flows.BearerResponseLog` |
| Jira.JwtConnect | app/actions/jira.js:28-132 | the method's run is exactly `Flows.JwtConnectLog`, with the promise in the state of its first settle call |
| Jira.SaveToken | app/actions/jira.js:197-207 | the token branch appends exactly `Flows.TokenLog` |
| Jira.Memorize | app/actions/jira.js:208-216 | the memorize branch appends exactly `Flows.MemorizeLog` |
| Jira.Session | app/actions/jira.js:185-221 | the end of connect appends exactly `Flows.SessionLog` |
| Jira.Authenticated | app/actions/jira.js:179-223 | the authenticate phase appends exactly `Flows.AuthenticatedLog` |
| Jira.Profiled | app/actions/jira.js:162-223 | the `getMyself` callback with a profile appends GET_SELF, the authenticate request and `Flows.AuthenticatedLog` |
| Jira.ProfileFailed | app/actions/jira.js:152-161 | the `getMyself` callback with an error appends the authorisation error, fetch off and the rejection |
| Jira.Connect | app/actions/jira.js:134-227 | the method's run is exactly `Flows.ConnectLog` for the client on the normalised host, with the promise in the state of its first settle call |
| Jira.GetSavedCredentials | app/actions/jira.js:229-250 | the method's run is exactly `Flows.GetSavedCredentialsLog` |
| Jira.MissingToken | app/actions/jira.js:255-265 | the report of a missing token appends exactly `Flows.MissingTokenLog` |
| Jira.GetJwt | app/actions/jira.js:252-273 | the method's run is exactly `Flows.GetJwtLog` |
| Jira.Logout | app/actions/jira.js:276-288 | the method's run is exactly `Flows.LogoutLog`, with no promise settled |

## Left out

- Asynchrony: every callback is modelled at the point in the log where it
  runs. The `storage.remove` callback runs after the synchronous dispatches
  of its branch. Interleaving with other thunks or store updates is not
  modelled.
- The store's reducers, `getState`, and what `Socket.login` does inside.
  Only the fact and the order of the call are modelled.
- The JiraClient constructor is taken to succeed for any configuration.
  So the `if (!jiraClient) return;` guards (jira.js:92, 150) never fire. The
  library's check that a host is present is not modelled.
- The `success` and `fail` helpers of `helpers/promise` are not part of this
  model. `fail(x)` is modelled as a rejection carrying `x`, and `success(v)`
  as a resolution carrying `v`.
- `staticUrl`, the request headers and the JSON encoding of the POST body are
  not modelled. The POST is recorded with its three fields.
- The Immutable `credentials.toJS()` conversion is not modelled. The form is
  an input record.
- Storage answers without a usable value (`undefined` after an error, `{}`
  when nothing was saved) are modelled as one "no value" case. A token
  answer that is neither a string nor `{}` is not modelled.
- jwtConnect's 200 body is modelled as not JSON, `null`, or an object with
  string `baseUrl`, `username` and `password`. Other JSON values (a number,
  a string, an array, an object missing those fields) give `undefined`
  fields at jira.js:83-91. What the client library then does with them is
  not modelled.
- connect's authenticate response is modelled with a `token` that is a
  string or absent. A truthy `token` of another type (a number, `true`, an
  object) would also log the socket in and dispatch SAVE_JWT
  (jira.js:197-206). That input is not modelled.
- A collaborator that never answers is not modelled: a `getMyself` or
  `storage.get` callback that never fires, or an `isOnline()` promise that
  never settles. Such a run would end at the call with the promise pending,
  as a `fetch` network failure does in the model.
- An exception thrown inside a `.then` callback is modelled as the end of
  the log. An uncaught rejection on the chained promise is not recorded.
- Jira.InstallUpdates: no thunk in this file dispatches INSTALL_UPDATES, so
  the creator has no partner beyond its own constant.
