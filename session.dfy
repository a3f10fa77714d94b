/**
 * The client itself: a session whose only mutable state is the cached
 * connection status, plus the agent through which every request goes.
 *
 * Each asynchronous operation is one synchronous transition.  The server's
 * replies are parameters, and `sent` records the requests the agent has
 * issued, in order.  The transition functions below specify the methods of
 * `Session`.
 */
module CollectionSpace {
  import opened Wrappers
  import opened JsValues
  import opened Options
  import opened Responses
  import opened Requests

  /**
   * How the promise an operation returns ends: resolved, rejected, or never
   * settled because an exception escaped the transport's callback.
   */
  datatype Outcome<+T> = Resolved(value: T) | Rejected(error: Error) | Unsettled(thrown: Error)

  /** The session's state: the cached connection status (null when none) and the requests issued so far. */
  datatype SessionState = SessionState(status: Value, sent: seq<Request>)

  /** A transition: the state afterwards and how the returned promise ends. */
  datatype Step<+T> = Step(state: SessionState, outcome: Outcome<T>)

  /** What `assertConnected` accepts: a truthy status whose `login` is truthy. */
  predicate IsConnected(status: Value) {
    Truthy(status) && Truthy(Member(status, "login"))
  }

  /** `assertConnected`: nothing when connected, else the ENOTCONNECTED error it throws. */
  function AssertConnected(status: Value): (r: Option<Error>)
    ensures r.None? <==> IsConnected(status)
    ensures r.Some? ==> r.value.code == NotConnected
  {
    if !Truthy(status) || !Truthy(Member(status, "login")) then Some(NotConnectedError()) else None
  }

  /** `isLoggedIn` and `assertConnected` agree on every status `isLoggedIn` accepts. */
  lemma LoggedInAgreesWithGuard(status: Value)
    requires status.Obj? || status.Arr?
    ensures IsLoggedIn(status) == Ok(IsConnected(status))
  {
  }

  /** How a record or search operation's promise ends for a reply (response data normalised inside a try). */
  function Settle(reply: Reply, parse: string -> Value): (o: Outcome<Value>)
    ensures o.Unsettled? == false
    ensures reply.Failed? ==> o == Rejected(reply.error)
    ensures reply.Received? ==>
      (o.Resolved? <==> GetResponseData(reply.response, parse).Ok?)
    ensures o.Resolved? ==> reply.Received? && o.value == Payload(reply.response, parse)
    ensures reply.Received? && GetResponseData(reply.response, parse).Err? ==>
      o == Rejected(GetResponseData(reply.response, parse).error)
  {
    match reply
    case Failed(e) => Rejected(e)
    case Received(resp) =>
      match GetResponseData(resp, parse)
      case Ok(data) => Resolved(data)
      case Err(e) => Rejected(e)
  }

  /**
   * `getConnectionStatus`: a truthy cached status is returned with no request;
   * otherwise the status is fetched, and cached when the response yields data.
   * The response is normalised outside any try, so an error it raises escapes
   * and the promise never settles.
   */
  function FetchStatus(baseUrl: string, st: SessionState, reply: Reply, parse: string -> Value): (s: Step<Value>)
    ensures Truthy(st.status) ==> s == Step(st, Resolved(st.status))
    ensures !Truthy(st.status) ==> s.state.sent == st.sent + [StatusRequest(baseUrl)]
    ensures s.outcome.Resolved? ==> s.state.status == s.outcome.value
    ensures !s.outcome.Resolved? ==> s.state.status == st.status
    ensures !Truthy(st.status) && reply.Failed? ==> s.outcome == Rejected(reply.error)
    ensures !Truthy(st.status) && reply.Received? ==>
      (s.outcome.Resolved? <==> GetResponseData(reply.response, parse).Ok?)
    ensures !Truthy(st.status) && reply.Received? && GetResponseData(reply.response, parse).Ok? ==>
      s.outcome == Resolved(GetResponseData(reply.response, parse).value)
    ensures !Truthy(st.status) && reply.Received? && GetResponseData(reply.response, parse).Err? ==>
      s.outcome == Unsettled(GetResponseData(reply.response, parse).error)
  {
    if Truthy(st.status) then Step(st, Resolved(st.status))
    else
      var st' := st.(sent := st.sent + [StatusRequest(baseUrl)]);
      match reply
      case Failed(e) => Step(st', Rejected(e))
      case Received(resp) =>
        match GetResponseData(resp, parse)
        case Err(e) => Step(st', Unsettled(e))
        case Ok(data) => Step(st'.(status := data), Resolved(data))
  }

  /**
   * `connect`: posts the credentials; on success clears the cached status,
   * fetches it again and resolves with it when it says the user is logged in.
   */
  function ConnectStep(baseUrl: string, st: SessionState, username: Value, password: Value,
                       loginReply: Reply, statusReply: Reply, parse: string -> Value): (s: Step<Value>)
    ensures |s.state.sent| > |st.sent| && s.state.sent[..|st.sent| + 1] == st.sent + [LoginRequest(baseUrl, username, password)]
    ensures loginReply.Failed? ==>
      s == Step(st.(sent := st.sent + [LoginRequest(baseUrl, username, password)]), Rejected(loginReply.error))
    ensures loginReply.Received? ==>
      s.state.sent == st.sent + [LoginRequest(baseUrl, username, password), StatusRequest(baseUrl)]
    ensures s.outcome.Resolved? ==> IsConnected(s.state.status) && s.outcome.value == s.state.status
    ensures loginReply.Received? && !s.outcome.Resolved? && !s.state.status.Null? ==>
      s.outcome.Rejected? && s.outcome.error.code in {LoginFailed, JsTypeError}
    ensures loginReply.Received? && statusReply.Received? && GetResponseData(statusReply.response, parse).Ok? ==>
      var data := GetResponseData(statusReply.response, parse).value;
      && s.state.status == data
      && (s.outcome == Resolved(data) <==> IsLoggedIn(data) == Ok(true))
      && (IsLoggedIn(data) == Ok(false) <==> s.outcome == Rejected(LoginFailedError()))
      && (IsLoggedIn(data).Err? ==> s.outcome == Rejected(IsLoggedIn(data).error))
    ensures s.outcome.Resolved? ==>
      loginReply.Received? && statusReply.Received? && GetResponseData(statusReply.response, parse).Ok?
    ensures loginReply.Received? && statusReply.Received? && GetResponseData(statusReply.response, parse).Err? ==>
      s == Step(SessionState(Null, st.sent + [LoginRequest(baseUrl, username, password), StatusRequest(baseUrl)]),
                Unsettled(GetResponseData(statusReply.response, parse).error))
  {
    var st1 := st.(sent := st.sent + [LoginRequest(baseUrl, username, password)]);
    match loginReply
    case Failed(e) => Step(st1, Rejected(e))
    case Received(_) =>
      var fetched := FetchStatus(baseUrl, st1.(status := Null), statusReply, parse);
      assert fetched.state.sent == st1.sent + [StatusRequest(baseUrl)];
      match fetched.outcome
      case Resolved(data) =>
        (match IsLoggedIn(data)
         case Err(e) => Step(fetched.state, Rejected(e))
         case Ok(loggedIn) =>
           if loggedIn then Step(fetched.state, Resolved(data))
           else Step(fetched.state, Rejected(LoginFailedError())))
      case Rejected(e) => Step(fetched.state, Rejected(e))
      case Unsettled(e) => Step(fetched.state, Unsettled(e))
  }

  /**
   * `disconnect`: requests the logout; on success clears the cached status,
   * fetches it again and resolves with true when it says nobody is logged in.
   */
  function DisconnectStep(baseUrl: string, st: SessionState, logoutReply: Reply, statusReply: Reply,
                          parse: string -> Value): (s: Step<bool>)
    ensures |s.state.sent| > |st.sent| && s.state.sent[..|st.sent| + 1] == st.sent + [LogoutRequest(baseUrl)]
    ensures logoutReply.Failed? ==>
      s == Step(st.(sent := st.sent + [LogoutRequest(baseUrl)]), Rejected(logoutReply.error))
    ensures logoutReply.Received? ==>
      s.state.sent == st.sent + [LogoutRequest(baseUrl), StatusRequest(baseUrl)]
    ensures s.outcome.Resolved? ==> s.outcome.value && !IsConnected(s.state.status)
    ensures logoutReply.Received? && statusReply.Received? && s.outcome.Rejected? && s.outcome.error.code == LogoutFailed
            ==> IsConnected(s.state.status)
    ensures logoutReply.Received? && statusReply.Received? && GetResponseData(statusReply.response, parse).Ok? ==>
      var data := GetResponseData(statusReply.response, parse).value;
      && s.state.status == data
      && (s.outcome == Resolved(true) <==> IsLoggedIn(data) == Ok(false))
      && (IsLoggedIn(data) == Ok(true) <==> s.outcome == Rejected(LogoutFailedError()))
      && (IsLoggedIn(data).Err? ==> s.outcome == Rejected(IsLoggedIn(data).error))
    ensures s.outcome.Resolved? ==>
      logoutReply.Received? && statusReply.Received? && GetResponseData(statusReply.response, parse).Ok?
    ensures logoutReply.Received? && statusReply.Received? && GetResponseData(statusReply.response, parse).Err? ==>
      s == Step(SessionState(Null, st.sent + [LogoutRequest(baseUrl), StatusRequest(baseUrl)]),
                Unsettled(GetResponseData(statusReply.response, parse).error))
  {
    var st1 := st.(sent := st.sent + [LogoutRequest(baseUrl)]);
    match logoutReply
    case Failed(e) => Step(st1, Rejected(e))
    case Received(_) =>
      var fetched := FetchStatus(baseUrl, st1.(status := Null), statusReply, parse);
      assert fetched.state.sent == st1.sent + [StatusRequest(baseUrl)];
      match fetched.outcome
      case Resolved(data) =>
        (match IsLoggedIn(data)
         case Err(e) => Step(fetched.state, Rejected(e))
         case Ok(loggedIn) =>
           if !loggedIn then Step(fetched.state.(status := data), Resolved(true))
           else Step(fetched.state, Rejected(LogoutFailedError())))
      case Rejected(e) => Step(fetched.state, Rejected(e))
      case Unsettled(e) => Step(fetched.state, Unsettled(e))
  }

  /**
   * A record, vocabulary or search operation: `assertConnected` first; when it
   * throws, nothing is sent and the state is unchanged; otherwise exactly one
   * request is sent and the reply is settled.  The cached status never changes.
   */
  function OperationStep(baseUrl: string, st: SessionState, op: Operation, reply: Reply,
                         parse: string -> Value): (s: Step<Value>)
    ensures s.state.status == st.status
    ensures !IsConnected(st.status) ==> s == Step(st, Rejected(NotConnectedError()))
    ensures IsConnected(st.status) ==>
      s.state.sent == st.sent + [RequestFor(baseUrl, op)] && s.outcome == Settle(reply, parse)
  {
    match AssertConnected(st.status)
    case Some(e) => Step(st, Rejected(e))
    case None => Step(st.(sent := st.sent + [RequestFor(baseUrl, op)]), Settle(reply, parse))
  }

  // ---------------------------------------------------------------------
  // Properties of the session over several calls

  /** A second status query after a resolved one sends nothing and returns the same status, if it is truthy. */
  lemma StatusIsCached(baseUrl: string, st: SessionState, r1: Reply, r2: Reply, parse: string -> Value)
    requires FetchStatus(baseUrl, st, r1, parse).outcome.Resolved?
    requires Truthy(FetchStatus(baseUrl, st, r1, parse).outcome.value)
    ensures var first := FetchStatus(baseUrl, st, r1, parse);
      FetchStatus(baseUrl, first.state, r2, parse) == Step(first.state, first.outcome)
  {
  }

  /** A falsy status (an empty text reply, say) is not treated as cached: the next query fetches again. */
  lemma FalsyStatusIsFetchedAgain(baseUrl: string, sent: seq<Request>, reply: Reply, parse: string -> Value)
    ensures FetchStatus(baseUrl, SessionState(Str(""), sent), reply, parse).state.sent
         == sent + [StatusRequest(baseUrl)]
  {
  }

  /** After a resolved connect, every operation passes the guard and sends its request. */
  lemma ConnectEnablesOperations(baseUrl: string, st: SessionState, username: Value, password: Value,
                                 loginReply: Reply, statusReply: Reply, parse: string -> Value,
                                 op: Operation, reply: Reply)
    requires ConnectStep(baseUrl, st, username, password, loginReply, statusReply, parse).outcome.Resolved?
    ensures var c := ConnectStep(baseUrl, st, username, password, loginReply, statusReply, parse);
      OperationStep(baseUrl, c.state, op, reply, parse)
        == Step(c.state.(sent := c.state.sent + [RequestFor(baseUrl, op)]), Settle(reply, parse))
  {
  }

  /** After a resolved disconnect, every operation fails fast with ENOTCONNECTED. */
  lemma DisconnectDisablesOperations(baseUrl: string, st: SessionState, logoutReply: Reply,
                                     statusReply: Reply, parse: string -> Value, op: Operation, reply: Reply)
    requires DisconnectStep(baseUrl, st, logoutReply, statusReply, parse).outcome.Resolved?
    ensures var d := DisconnectStep(baseUrl, st, logoutReply, statusReply, parse);
      OperationStep(baseUrl, d.state, op, reply, parse) == Step(d.state, Rejected(NotConnectedError()))
  {
  }

  /** A freshly constructed session rejects every operation without sending anything. */
  lemma NewSessionIsNotConnected(baseUrl: string, op: Operation, reply: Reply, parse: string -> Value)
    ensures OperationStep(baseUrl, SessionState(Null, []), op, reply, parse)
         == Step(SessionState(Null, []), Rejected(NotConnectedError()))
  {
  }

  /** A connect whose status fetch fails leaves no status cached, even if one was cached before. */
  lemma FailedRefetchClearsStatus(baseUrl: string, st: SessionState, username: Value, password: Value,
                                  loginResponse: Response, statusError: Error, parse: string -> Value)
    ensures ConnectStep(baseUrl, st, username, password, Received(loginResponse), Failed(statusError), parse)
         == Step(SessionState(Null, st.sent + [LoginRequest(baseUrl, username, password), StatusRequest(baseUrl)]),
                 Rejected(statusError))
  {
  }

  /** After a successful logout, a status fetch that fails leaves the cache cleared and rejects with the failure. */
  lemma FailedLogoutRefetchClearsStatus(baseUrl: string, st: SessionState, logoutResponse: Response,
                                        statusError: Error, parse: string -> Value)
    ensures DisconnectStep(baseUrl, st, Received(logoutResponse), Failed(statusError), parse)
         == Step(SessionState(Null, st.sent + [LogoutRequest(baseUrl), StatusRequest(baseUrl)]),
                 Rejected(statusError))
  {
  }

  // ---------------------------------------------------------------------
  // The client object

  class Session {
    /** The URL every request path is appended to. */
    const baseUrl: string
    /** `_connectionStatus`: the cached status, null when there is none. */
    var connectionStatus: Value
    /** The requests issued through the session's agent, oldest first. */
    var sent: seq<Request>

    function State(): SessionState
      reads this
    {
      SessionState(connectionStatus, sent)
    }

    /**
     * The constructor: fills the missing defaults into the caller's options
     * object, builds the base URL from it, and starts with no cached status.
     * `options` is null when the caller passed none (or a falsy value).
     */
    constructor (options: JsObject?)
      modifies options
      ensures options != null ==> options.props == Defaulted(old(options.props), DEFAULT_OPTIONS)
      ensures Url() == BaseUrl(Defaulted(if options == null then map[] else old(options.props), DEFAULT_OPTIONS))
      ensures State() == SessionState(Null, [])
    {
      var o: JsObject;
      if options == null {
        o := new JsObject(map[]);
      } else {
        o := options;
      }
      FillDefaults(o, DEFAULT_OPTIONS);
      baseUrl := BaseUrl(o.props);
      connectionStatus := Null;
      sent := [];
    }

    /** `getUrl`: the base URL fixed at construction. */
    function Url(): (r: string)
      ensures r == baseUrl
    {
      baseUrl
    }

    /** `getConnectionStatus`. */
    method GetConnectionStatus(reply: Reply, parse: string -> Value) returns (out: Outcome<Value>)
      modifies this
      ensures Step(State(), out) == FetchStatus(baseUrl, old(State()), reply, parse)
    {
      if Truthy(connectionStatus) {
        return Resolved(connectionStatus);
      }
      sent := sent + [StatusRequest(baseUrl)];
      match reply
      case Failed(e) =>
        out := Rejected(e);
      case Received(resp) =>
        var data := GetResponseData(resp, parse);
        match data
        case Err(e) =>
          out := Unsettled(e);
        case Ok(d) =>
          connectionStatus := d;
          out := Resolved(d);
    }

    /** `connect`: `loginReply` answers the login post, `statusReply` the status fetch after it. */
    method Connect(username: Value, password: Value, loginReply: Reply, statusReply: Reply,
                   parse: string -> Value) returns (out: Outcome<Value>)
      modifies this
      ensures Step(State(), out) == ConnectStep(baseUrl, old(State()), username, password, loginReply, statusReply, parse)
    {
      sent := sent + [LoginRequest(baseUrl, username, password)];
      if loginReply.Failed? {
        return Rejected(loginReply.error);
      }
      connectionStatus := Null;
      var fetched := GetConnectionStatus(statusReply, parse);
      match fetched
      case Resolved(data) =>
        var loggedIn := IsLoggedIn(data);
        if loggedIn.Err? {
          out := Rejected(loggedIn.error);
        } else if loggedIn.value {
          out := Resolved(data);
        } else {
          out := Rejected(LoginFailedError());
        }
      case Rejected(e) =>
        out := Rejected(e);
      case Unsettled(e) =>
        out := Unsettled(e);
    }

    /** `disconnect`: `logoutReply` answers the logout request, `statusReply` the status fetch after it. */
    method Disconnect(logoutReply: Reply, statusReply: Reply, parse: string -> Value) returns (out: Outcome<bool>)
      modifies this
      ensures Step(State(), out) == DisconnectStep(baseUrl, old(State()), logoutReply, statusReply, parse)
    {
      sent := sent + [LogoutRequest(baseUrl)];
      if logoutReply.Failed? {
        return Rejected(logoutReply.error);
      }
      connectionStatus := Null;
      var fetched := GetConnectionStatus(statusReply, parse);
      match fetched
      case Resolved(data) =>
        var loggedIn := IsLoggedIn(data);
        if loggedIn.Err? {
          out := Rejected(loggedIn.error);
        } else if !loggedIn.value {
          connectionStatus := data;
          out := Resolved(true);
        } else {
          out := Rejected(LogoutFailedError());
        }
      case Rejected(e) =>
        out := Rejected(e);
      case Unsettled(e) =>
        out := Unsettled(e);
    }

    /** `assertConnected` on the cached status. */
    function CheckConnected(): (r: Option<Error>)
      reads this
      ensures r.None? <==> IsConnected(connectionStatus)
    {
      AssertConnected(connectionStatus)
    }

    /** Issues a connected operation's request and settles its reply. */
    method Issue(request: Request, reply: Reply, parse: string -> Value) returns (out: Outcome<Value>)
      modifies this
      ensures connectionStatus == old(connectionStatus)
      ensures sent == old(sent) + [request]
      ensures out == Settle(reply, parse)
    {
      sent := sent + [request];
      match reply
      case Failed(e) =>
        out := Rejected(e);
      case Received(resp) =>
        match GetResponseData(resp, parse)
        case Ok(data) =>
          out := Resolved(data);
        case Err(e) =>
          out := Rejected(e);
    }

    /** The guard-then-request pattern shared by every operation without search options. */
    method Perform(op: Operation, reply: Reply, parse: string -> Value) returns (out: Outcome<Value>)
      modifies this
      ensures Step(State(), out) == OperationStep(baseUrl, old(State()), op, reply, parse)
    {
      var guard := CheckConnected();
      if guard.Some? {
        return Rejected(guard.value);
      }
      out := Issue(RequestFor(baseUrl, op), reply, parse);
    }

    /** `getRecord`. */
    method GetRecord(recordType: Value, csid: Value, reply: Reply, parse: string -> Value)
      returns (out: Outcome<Value>)
      modifies this
      ensures Step(State(), out) == OperationStep(baseUrl, old(State()), Operation.GetRecord(recordType, csid), reply, parse)
    {
      out := Perform(Operation.GetRecord(recordType, csid), reply, parse);
    }

    /** `createRecord`. */
    method CreateRecord(recordType: Value, data: Value, reply: Reply, parse: string -> Value)
      returns (out: Outcome<Value>)
      modifies this
      ensures Step(State(), out) == OperationStep(baseUrl, old(State()), Operation.CreateRecord(recordType, data), reply, parse)
    {
      out := Perform(Operation.CreateRecord(recordType, data), reply, parse);
    }

    /** `updateRecord`. */
    method UpdateRecord(recordType: Value, csid: Value, data: Value, reply: Reply, parse: string -> Value)
      returns (out: Outcome<Value>)
      modifies this
      ensures Step(State(), out)
           == OperationStep(baseUrl, old(State()), Operation.UpdateRecord(recordType, csid, data), reply, parse)
    {
      out := Perform(Operation.UpdateRecord(recordType, csid, data), reply, parse);
    }

    /** `saveRecord`: update when the csid is truthy, otherwise create. */
    method SaveRecord(recordType: Value, csid: Value, data: Value, reply: Reply, parse: string -> Value)
      returns (out: Outcome<Value>)
      modifies this
      ensures Step(State(), out) == OperationStep(baseUrl, old(State()), SaveOperation(recordType, csid, data), reply, parse)
    {
      if Truthy(csid) {
        out := UpdateRecord(recordType, csid, data, reply, parse);
      } else {
        out := CreateRecord(recordType, data, reply, parse);
      }
    }

    /** `getVocabulary`. */
    method GetVocabulary(shortId: Value, reply: Reply, parse: string -> Value) returns (out: Outcome<Value>)
      modifies this
      ensures Step(State(), out) == OperationStep(baseUrl, old(State()), Operation.GetVocabulary(shortId), reply, parse)
    {
      out := Perform(Operation.GetVocabulary(shortId), reply, parse);
    }

    /** `findTerms`. */
    method FindTerms(recordType: Value, fieldName: Value, searchString: Value, reply: Reply, parse: string -> Value)
      returns (out: Outcome<Value>)
      modifies this
      ensures Step(State(), out)
           == OperationStep(baseUrl, old(State()), Operation.FindTerms(recordType, fieldName, searchString), reply, parse)
    {
      out := Perform(Operation.FindTerms(recordType, fieldName, searchString), reply, parse);
    }

    /**
     * `findTermsUsed`.  Once past the guard, the caller's search-options object
     * is normalised in place; when the guard throws it is left alone.
     */
    method FindTermsUsed(recordType: Value, csid: Value, searchOptions: JsObject?, reply: Reply,
                         parse: string -> Value) returns (out: Outcome<Value>)
      modifies this, searchOptions
      ensures Step(State(), out) == OperationStep(baseUrl, old(State()),
        Operation.FindTermsUsed(recordType, csid, if searchOptions == null then map[] else old(searchOptions.props)),
        reply, parse)
      ensures searchOptions != null ==>
        searchOptions.props == (if IsConnected(old(connectionStatus)) then NormalizedSearchOptions(old(searchOptions.props))
                                else old(searchOptions.props))
    {
      var guard := CheckConnected();
      if guard.Some? {
        return Rejected(guard.value);
      }
      var raw := if searchOptions == null then map[] else searchOptions.props;
      var normalized := NormalizeSearchOptions(searchOptions);
      var op := Operation.FindTermsUsed(recordType, csid, raw);
      out := Issue(Request(Get, baseUrl + OperationPath(op), [normalized.props], NoBody), reply, parse);
    }

    /** `findRelated`; search options as in `FindTermsUsed`. */
    method FindRelated(recordType: Value, csid: Value, relatedRecordType: Value, searchOptions: JsObject?,
                       reply: Reply, parse: string -> Value) returns (out: Outcome<Value>)
      modifies this, searchOptions
      ensures Step(State(), out) == OperationStep(baseUrl, old(State()),
        Operation.FindRelated(recordType, csid, relatedRecordType,
                              if searchOptions == null then map[] else old(searchOptions.props)),
        reply, parse)
      ensures searchOptions != null ==>
        searchOptions.props == (if IsConnected(old(connectionStatus)) then NormalizedSearchOptions(old(searchOptions.props))
                                else old(searchOptions.props))
    {
      var guard := CheckConnected();
      if guard.Some? {
        return Rejected(guard.value);
      }
      var raw := if searchOptions == null then map[] else searchOptions.props;
      var normalized := NormalizeSearchOptions(searchOptions);
      var op := Operation.FindRelated(recordType, csid, relatedRecordType, raw);
      out := Issue(Request(Get, baseUrl + OperationPath(op), [normalized.props], NoBody), reply, parse);
    }

    /** `search`; search options as in `FindTermsUsed`. */
    method Search(recordType: Value, keywords: Value, searchOptions: JsObject?, reply: Reply,
                  parse: string -> Value) returns (out: Outcome<Value>)
      modifies this, searchOptions
      ensures Step(State(), out) == OperationStep(baseUrl, old(State()),
        Operation.Search(recordType, keywords, if searchOptions == null then map[] else old(searchOptions.props)),
        reply, parse)
      ensures searchOptions != null ==>
        searchOptions.props == (if IsConnected(old(connectionStatus)) then NormalizedSearchOptions(old(searchOptions.props))
                                else old(searchOptions.props))
    {
      var guard := CheckConnected();
      if guard.Some? {
        return Rejected(guard.value);
      }
      var raw := if searchOptions == null then map[] else searchOptions.props;
      var normalized := NormalizeSearchOptions(searchOptions);
      var op := Operation.Search(recordType, keywords, raw);
      out := Issue(Request(Get, baseUrl + OperationPath(op), [map["query" := keywords], normalized.props], NoBody), reply, parse);
    }
  }
}
