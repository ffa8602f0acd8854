/** The Redux side of the connection flow: the actions the thunks dispatch, the
    calls they make into collaborators, the resolve/reject calls on the promise
    they return, and the ordered log of all three. */
module Redux {

  datatype Option<T> = None | Some(value: T)

  /** The identity record returned by the Jira "who am I" call; opaque here. */
  datatype Profile = Profile(raw: string)

  /** The `error` carried by THROW_ERROR and passed to `fail`: a message or an
      error object (rendered as its text), or `undefined`/`null`. */
  datatype ErrorValue = Message(text: string) | NoError

  /** Configuration a `JiraClient` is constructed with: host and basic auth. */
  datatype Client = Client(host: string, username: string, password: string)

  /** What storage yields under `jira_credentials`: the saved `{host, username}`,
      or a value without them (`undefined` after a read error, an empty object
      when nothing was saved). */
  datatype SavedCredentials = NoCredentials | Saved(host: string, username: string)

  /** What storage yields under `desktop_tracker_jwt`: a string, or a value with
      no `length` (`undefined` after a read error, an empty object when nothing
      was saved). */
  datatype StoredToken = NoToken | TokenText(text: string)

  /** The Redux actions of app/actions/jira.js, one constructor per `types.*`. */
  datatype Action =
    | InstallUpdates                                   // INSTALL_UPDATES
    | SetConnectionStatus(online: bool)                // SET_CONNECTION_STATUS
    | SetFetch(inProgress: bool)                       // SET_CONNECT_FETCH_STATE
    | ThrowError(error: ErrorValue)                    // THROW_ERROR
    | GetSelf(self: Profile)                           // GET_SELF
    | Connect(client: Client, host: string, username: string, memorize: bool)  // CONNECT
    | SetAuthSucceeded                                 // SET_AUTH_SUCCEEDED
    | SaveJwt(token: string)                           // SAVE_JWT
    | MemorizeForm(host: string, username: string)     // MEMORIZE_FORM
    | GetSavedCredentials(credentials: SavedCredentials)  // GET_SAVED_CREDENTIALS
    | GetJwt(stored: StoredToken)                      // GET_JWT
    | ClearIssues                                      // CLEAR_ISSUES
    | ClearProjects                                    // CLEAR_PROJECTS
    | Logout                                           // LOGOUT

  /** A call into a collaborator library, recorded when it is made. */
  datatype Effect =
    | IsOnline                                         // is-online
    | FetchWithBearer(token: string)                   // fetch(authenticate) with the Bearer header
    | PostCredentials(baseUrl: string, username: string, password: string)  // fetch(authenticate), POST body
    | NewClient(config: Client)                        // new JiraClient(...)
    | GetMyself                                        // jiraClient.myself.getMyself
    | SocketLogin                                      // Socket.login(dispatch, getState)
    | StorageGet(key: string)                          // storage.get
    | StorageRemove(key: string)                       // storage.remove

  /** The value a thunk's promise is resolved with: `success()`, the `success`
      helper itself (uncalled), `success(credentials)` or `success({token})`. */
  datatype Value =
    | Done
    | SuccessHelper
    | CredentialsValue(credentials: SavedCredentials)
    | TokenValue(token: StoredToken)

  /** One step of a thunk, in the order it happens. A resolve or reject call is
      logged even when the promise has already settled and ignores it. */
  datatype Event =
    | Dispatched(action: Action)
    | Called(effect: Effect)
    | ResolveCalled(value: Value)
    | RejectCalled(reason: ErrorValue)
  {
    predicate IsSettleCall() { ResolveCalled? || RejectCalled? }
  }

  /** The state of a promise. */
  datatype Settlement = Pending | Fulfilled(value: Value) | Rejected(reason: ErrorValue)

  /** The action an event dispatches, if it is a dispatch. */
  function Shown(e: Event): seq<Action>
  {
    if e.Dispatched? then [e.action] else []
  }

  /** The actions of a log, in dispatch order. */
  function ActionsOf(log: seq<Event>): seq<Action>
  {
    if log == [] then [] else Shown(log[0]) + ActionsOf(log[1..])
  }

  /** The state of the promise after the resolve/reject calls in the log: the
      first call settles it, later calls are ignored. */
  function SettlementOf(log: seq<Event>): Settlement
  {
    if log == [] then Pending
    else match log[0]
      case ResolveCalled(v) => Fulfilled(v)
      case RejectCalled(e) => Rejected(e)
      case _ => SettlementOf(log[1..])
  }

  /** `x` occurs in the log strictly before `y`. */
  predicate Precedes(log: seq<Event>, x: Event, y: Event)
  {
    exists i, j :: 0 <= i < j < |log| && log[i] == x && log[j] == y
  }

  /** `y` comes right after `x` somewhere in the log. */
  predicate RightAfter(log: seq<Event>, x: Event, y: Event)
  {
    exists i :: 0 <= i < |log| - 1 && log[i] == x && log[i + 1] == y
  }

  /** Two neighbouring events stay neighbours when more of the run is put
      around them. */
  lemma RightAfterWithin(h: seq<Event>, m: seq<Event>, t: seq<Event>, x: Event, y: Event)
    requires RightAfter(m, x, y)
    ensures RightAfter(h + m + t, x, y)
  {
    var i :| 0 <= i < |m| - 1 && m[i] == x && m[i + 1] == y;
    assert (h + m + t)[|h| + i] == x && (h + m + t)[|h| + i + 1] == y;
  }

  /** Every resolve or reject call comes after some SET_CONNECT_FETCH_STATE(false),
      so the UI is released before the caller hears of the result. */
  predicate FetchEndsBeforeSettling(log: seq<Event>)
  {
    forall j :: 0 <= j < |log| && log[j].IsSettleCall() ==>
      exists i :: 0 <= i < j && log[i] == Dispatched(SetFetch(false))
  }

  /** The log makes no call into storage. */
  predicate TouchesNoStorage(log: seq<Event>)
  {
    forall e :: e in log ==> !(e.Called? && (e.effect.StorageGet? || e.effect.StorageRemove?))
  }

  lemma {:induction false} ActionsOfAppend(s: seq<Event>, t: seq<Event>)
    ensures ActionsOf(s + t) == ActionsOf(s) + ActionsOf(t)
  {
    if s == [] {
      assert s + t == t;
    } else {
      assert (s + t)[1..] == s[1..] + t;
      ActionsOfAppend(s[1..], t);
    }
  }

  /** An action is in ActionsOf(log) exactly when it was dispatched in the log. */
  lemma {:induction false} ActionsOfMember(log: seq<Event>, a: Action)
    ensures a in ActionsOf(log) <==> Dispatched(a) in log
  {
    if log != [] {
      ActionsOfMember(log[1..], a);
      assert log == [log[0]] + log[1..];
    }
  }

  /** Once the promise has settled, nothing appended to the log changes it. */
  lemma {:induction false} SettlementOfAppend(s: seq<Event>, t: seq<Event>)
    ensures SettlementOf(s + t) == if SettlementOf(s).Pending? then SettlementOf(t) else SettlementOf(s)
  {
    if s == [] {
      assert s + t == t;
    } else {
      assert (s + t)[0] == s[0];
      assert (s + t)[1..] == s[1..] + t;
      SettlementOfAppend(s[1..], t);
    }
  }

  /** Every call the log makes is one of `allowed`. */
  predicate CallsWithin(log: seq<Event>, allowed: set<Effect>)
  {
    forall e :: e in log && e.Called? ==> e.effect in allowed
  }

  lemma CallsWithinAppend(s: seq<Event>, t: seq<Event>, allowed: set<Effect>)
    requires CallsWithin(s, allowed) && CallsWithin(t, allowed)
    ensures CallsWithin(s + t, allowed)
  {
  }

  /** The log makes no resolve or reject call. */
  predicate NoSettleCall(log: seq<Event>)
  {
    forall e :: e in log ==> !e.IsSettleCall()
  }

  lemma ActionsOfCons(e: Event, s: seq<Event>)
    ensures ActionsOf([e] + s) == Shown(e) + ActionsOf(s)
  {
    assert ([e] + s)[1..] == s;
  }

  // The next lemmas are sequence identities Dafny proves unaided. Calling them
  // names the shape a proof needs, which keeps the proofs that use them small.

  /** Appending a log in pieces appends it whole. */
  lemma AppendAssoc(h: seq<Event>, s: seq<Event>, t: seq<Event>)
    ensures h + s + t == h + (s + t)
  {
  }

  /** Appending events one at a time appends them as one display. */
  lemma AppendTwo(h: seq<Event>, a: Event, b: Event)
    ensures h + [a] + [b] == h + [a, b]
  {
  }

  lemma AppendThree(h: seq<Event>, a: Event, b: Event, c: Event)
    ensures h + [a] + [b] + [c] == h + [a, b, c]
  {
    AppendTwo(h, a, b);
  }

  /** A stretch without settle calls in front of a run changes neither the
      promise's state nor the order of release and settling. */
  lemma QuietThenSettles(before: seq<Event>, after: seq<Event>)
    requires NoSettleCall(before) && FetchEndsBeforeSettling(after)
    ensures FetchEndsBeforeSettling(before + after)
    ensures SettlementOf(before + after) == SettlementOf(after)
  {
    NoSettleCallIsPending(before);
    SettlementOfAppend(before, after);
    FetchEndsBeforeSettlingAppend(before, after);
  }

  /** Two actions followed by two more (an identity, called as a hint). */
  lemma ConsTwoTwo(a: Action, b: Action, c: Action, d: Action)
    ensures [a, b] + [c, d] == [a, b, c, d]
  {
  }

  /** A call, two dispatches and a rejection in front of the rest of a run: the
      two actions come first and the rejection decides the promise. */
  lemma ReportThenReject(c: Effect, a: Action, b: Action, r: ErrorValue, rest: seq<Event>)
    ensures ActionsOf([Called(c), Dispatched(a), Dispatched(b), RejectCalled(r)] + rest) == [a, b] + ActionsOf(rest)
    ensures SettlementOf([Called(c), Dispatched(a), Dispatched(b), RejectCalled(r)] + rest) == Rejected(r)
  {
    var report := [Called(c), Dispatched(a), Dispatched(b), RejectCalled(r)];
    ActionsOfFour(report[0], report[1], report[2], report[3]);
    ActionsOfAppend(report, rest);
    SettlementOfFirst(report, 3);
    SettlementOfAppend(report, rest);
  }

  /** One action in front of four (an identity, called as a hint). */
  lemma ConsFour(a: Action, b: Action, c: Action, d: Action, e: Action)
    ensures [a] + [b, c, d, e] == [a, b, c, d, e]
  {
  }

  lemma AppendFour(h: seq<Event>, a: Event, b: Event, c: Event, d: Event)
    ensures h + [a] + [b] + [c] + [d] == h + [a, b, c, d]
  {
    AppendThree(h, a, b, c);
  }

  /** The actions of a three-event log. */
  lemma ActionsOfThree(x: Event, y: Event, z: Event)
    ensures ActionsOf([x, y, z]) == Shown(x) + Shown(y) + Shown(z)
  {
    ActionsOfCons(x, [y, z]);
    ActionsOfCons(y, [z]);
    ActionsOfCons(z, []);
    assert [x, y, z] == [x] + [y, z];
    assert [y, z] == [y] + [z];
    assert [z] == [z] + [];
  }

  /** A stretch that settles nothing leaves the rest of the run to decide the
      promise, and its actions come first. */
  lemma QuietPrefix(s: seq<Event>, t: seq<Event>)
    requires SettlementOf(s) == Pending
    ensures SettlementOf(s + t) == SettlementOf(t)
    ensures ActionsOf(s + t) == ActionsOf(s) + ActionsOf(t)
  {
    ActionsOfAppend(s, t);
    SettlementOfAppend(s, t);
  }

  /** The actions of a four-event log. */
  lemma ActionsOfFour(w: Event, x: Event, y: Event, z: Event)
    ensures ActionsOf([w, x, y, z]) == Shown(w) + Shown(x) + Shown(y) + Shown(z)
  {
    ActionsOfCons(w, [x, y, z]);
    ActionsOfThree(x, y, z);
    assert [w, x, y, z] == [w] + [x, y, z];
  }

  /** The first resolve or reject call in the log is the one that settles the
      promise. */
  lemma {:induction false} SettlementOfFirst(log: seq<Event>, k: nat)
    requires k < |log| && log[k].IsSettleCall()
    requires forall j :: 0 <= j < k ==> !log[j].IsSettleCall()
    ensures SettlementOf(log) == if log[k].ResolveCalled? then Fulfilled(log[k].value) else Rejected(log[k].reason)
  {
    if k > 0 {
      assert !log[0].IsSettleCall();
      assert forall j :: 0 <= j < k - 1 ==> log[1..][j] == log[j + 1];
      SettlementOfFirst(log[1..], k - 1);
    }
  }

  lemma SettlementOfCons(e: Event, s: seq<Event>)
    ensures SettlementOf([e] + s) == match e
      case ResolveCalled(v) => Fulfilled(v)
      case RejectCalled(r) => Rejected(r)
      case _ => SettlementOf(s)
  {
    assert ([e] + s)[1..] == s;
  }

  /** A log that makes no resolve or reject call leaves the promise pending. */
  lemma {:induction false} NoSettleCallIsPending(log: seq<Event>)
    requires NoSettleCall(log)
    ensures SettlementOf(log) == Pending && FetchEndsBeforeSettling(log)
  {
    if log != [] {
      assert log[0] in log;
      assert forall e :: e in log[1..] ==> e in log;
      NoSettleCallIsPending(log[1..]);
    }
  }

  /** Settle calls that follow a prefix without any still come after a release. */
  lemma FetchEndsBeforeSettlingAppend(before: seq<Event>, after: seq<Event>)
    requires NoSettleCall(before) && FetchEndsBeforeSettling(after)
    ensures FetchEndsBeforeSettling(before + after)
  {
    var log := before + after;
    forall j | 0 <= j < |log| && log[j].IsSettleCall()
      ensures exists i :: 0 <= i < j && log[i] == Dispatched(SetFetch(false))
    {
      var k := j - |before|;
      assert after[k] == log[j];
      var i :| 0 <= i < k && after[i] == Dispatched(SetFetch(false));
      assert log[|before| + i] == after[i];
    }
  }

  /** A log whose first resolve or reject call comes after a release of the
      fetch state releases it before settling. */
  lemma ReleasedBeforeSettling(before: seq<Event>, after: seq<Event>)
    requires NoSettleCall(before)
    ensures FetchEndsBeforeSettling(before + [Dispatched(SetFetch(false))] + after)
  {
    var tail := [Dispatched(SetFetch(false))] + after;
    forall j | 0 <= j < |tail| && tail[j].IsSettleCall()
      ensures exists i :: 0 <= i < j && tail[i] == Dispatched(SetFetch(false))
    {
      assert tail[0] == Dispatched(SetFetch(false));
    }
    FetchEndsBeforeSettlingAppend(before, tail);
    assert before + [Dispatched(SetFetch(false))] + after == before + tail;
  }

  /** One invocation of a thunk: everything it has done so far, and the state
      of the promise it returned. */
  class Run {
    var log: seq<Event>
    var settlement: Settlement

    /** The promise's state is the one the first resolve/reject call set. */
    ghost predicate Valid()
      reads this
    {
      settlement == SettlementOf(log)
    }

    constructor ()
      ensures Valid() && log == [] && settlement == Pending
    {
      log := [];
      settlement := Pending;
    }

    /** `dispatch(action)` */
    method Dispatch(a: Action)
      requires Valid()
      modifies this
      ensures Valid()
      ensures log == old(log) + [Dispatched(a)] && settlement == old(settlement)
    {
      SettlementOfAppend(log, [Dispatched(a)]);
      log := log + [Dispatched(a)];
    }

    /** A call into a collaborator. */
    method Call(e: Effect)
      requires Valid()
      modifies this
      ensures Valid()
      ensures log == old(log) + [Called(e)] && settlement == old(settlement)
    {
      SettlementOfAppend(log, [Called(e)]);
      log := log + [Called(e)];
    }

    /** `resolve(v)`: settles a pending promise, ignored on a settled one. */
    method Resolve(v: Value)
      requires Valid()
      modifies this
      ensures Valid()
      ensures log == old(log) + [ResolveCalled(v)]
      ensures settlement == if old(settlement).Pending? then Fulfilled(v) else old(settlement)
    {
      SettlementOfAppend(log, [ResolveCalled(v)]);
      log := log + [ResolveCalled(v)];
      if settlement.Pending? {
        settlement := Fulfilled(v);
      }
    }

    /** `reject(e)`: settles a pending promise, ignored on a settled one. */
    method Reject(e: ErrorValue)
      requires Valid()
      modifies this
      ensures Valid()
      ensures log == old(log) + [RejectCalled(e)]
      ensures settlement == if old(settlement).Pending? then Rejected(e) else old(settlement)
    {
      SettlementOfAppend(log, [RejectCalled(e)]);
      log := log + [RejectCalled(e)];
      if settlement.Pending? {
        settlement := Rejected(e);
      }
    }
  }
}
