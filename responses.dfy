/**
 * What the client does with a server reply: the error values it rejects
 * with, the normalisation every response goes through (`getResponseData`)
 * and the login test on a connection status (`isLoggedIn`).
 */
module Responses {
  import opened Wrappers
  import opened JsValues

  /** The `code` of an error the client rejects with. */
  datatype Code =
    | NotConnected
    | LoginFailed
    | LogoutFailed
    | Api
    | JsTypeError               // thrown by the JavaScript runtime itself
    | Transport(name: string)   // set by the HTTP transport, e.g. ENOTFOUND
  {
    function Name(): (r: string)
      ensures this.Transport? ==> r == this.name
    {
      match this
      case NotConnected => "ENOTCONNECTED"
      case LoginFailed => "ELOGINFAILED"
      case LogoutFailed => "ELOGOUTFAILED"
      case Api => "EAPI"
      case JsTypeError => "TypeError"
      case Transport(n) => n
    }
  }

  /** An error with fixed fields: its code, its message and, for EAPI errors, the payload's csid. */
  datatype Error = Error(code: Code, message: string, csid: Option<Value>)

  function NotConnectedError(): Error {
    Error(NotConnected, "not connected (" + NotConnected.Name() + ")", None)
  }

  function LoginFailedError(): Error {
    Error(LoginFailed, "login failed (" + LoginFailed.Name() + ")", None)
  }

  function LogoutFailedError(): Error {
    Error(LogoutFailed, "logout failed", None)
  }

  /** A TypeError raised by the runtime; its message text is not modelled. */
  function RuntimeTypeError(): Error {
    Error(JsTypeError, "", None)
  }

  /** A response as the transport hands it over: parsed body (when the key exists), content type and raw text. */
  datatype Response = Response(body: Option<Value>, contentType: string, text: string)

  /** What the transport reports for one request: an error, or a response. */
  datatype Reply = Failed(error: Error) | Received(response: Response)

  /** Whether the transport already parsed the body: the key is present and the value is not null. */
  predicate HasParsedBody(resp: Response) {
    resp.body.Some? && !Nullish(resp.body.value)
  }

  /** The payload of a response: the parsed body, else the parsed text of a `text/json` response, else the text. */
  function Payload(resp: Response, parse: string -> Value): (r: Value)
    ensures HasParsedBody(resp) ==> r == resp.body.value
    ensures !HasParsedBody(resp) && resp.contentType == "text/json" ==> r == parse(resp.text)
    ensures !HasParsedBody(resp) && resp.contentType != "text/json" ==> r == Str(resp.text)
  {
    if HasParsedBody(resp) then resp.body.value
    else if resp.contentType == "text/json" then parse(resp.text)
    else Str(resp.text)
  }

  /** Which source the payload comes from, and what it does not depend on. */
  lemma PayloadSource(resp: Response, parse: string -> Value, parse': string -> Value)
    ensures HasParsedBody(resp) ==> Payload(resp, parse) == resp.body.value
    ensures HasParsedBody(resp) ==> Payload(resp.(contentType := "text/json"), parse) == Payload(resp, parse')
    ensures !HasParsedBody(resp) && resp.contentType == "text/json" ==> Payload(resp, parse) == parse(resp.text)
    ensures !HasParsedBody(resp) && resp.contentType != "text/json" ==>
              Payload(resp, parse) == Payload(resp, parse') == Str(resp.text)
  {
  }

  /**
   * The message of an app-layer error payload: the trimmed `message` of the
   * first entry of `messages`, or "" when `messages` is empty.  Reading a
   * missing `messages`, a missing first `message`, or calling `trim` on a
   * non-string throws a TypeError.
   */
  function ApiMessage(data: Value): (r: Result<string, Error>)
    requires !Nullish(data)
    ensures r.Ok? ==> Trimmed(r.value)
    ensures r.Err? ==> r.error == RuntimeTypeError()
    ensures Nullish(Member(data, "messages")) ==> r == Err(RuntimeTypeError())
    ensures Member(data, "messages") == Arr([]) ==> r == Ok("")
    ensures Member(data, "messages").Arr? && Member(data, "messages").elems != [] ==>
      var first := Member(data, "messages").elems[0];
      && (r.Ok? <==> !Nullish(first) && Member(first, "message").Str?)
      && (r.Ok? ==> r.value == Trim(Member(first, "message").s))
  {
    var messages := Member(data, "messages");
    match Prop(messages, "length")
    case Err(_) => Err(RuntimeTypeError())
    case Ok(length) =>
      if !GreaterThanZero(length) then Ok("")
      else
        match Index(messages, 0)
        case Err(_) => Err(RuntimeTypeError())
        case Ok(first) =>
          match Prop(first, "message")
          case Ok(Str(text)) => Ok(Trim(text))
          case _ => Err(RuntimeTypeError())
  }

  const API_SUFFIX: string := " (EAPI)"

  /** The EAPI error for a server message and a payload csid: the message with the code appended. */
  function ApiError(message: string, csid: Value): (e: Error)
    ensures e.code == Api && e.csid == Some(csid)
    ensures |e.message| == |message| + |API_SUFFIX|
    ensures e.message[..|message|] == message && e.message[|message|..] == API_SUFFIX
  {
    assert " (" + Api.Name() + ")" == API_SUFFIX;
    Error(Api, message + " (" + Api.Name() + ")", Some(csid))
  }

  /** Whether a payload is an app-layer error payload: a non-null value with a truthy `isError`. */
  predicate IsErrorPayload(data: Value) {
    !Nullish(data) && Truthy(Member(data, "isError"))
  }

  /**
   * `getResponseData`: the payload of the response, unless it is an error
   * payload, which becomes an EAPI error carrying the server's message and
   * the payload's csid.  A null payload throws a TypeError.
   */
  function GetResponseData(resp: Response, parse: string -> Value): (r: Result<Value, Error>)
    ensures var data := Payload(resp, parse);
      && (r.Ok? <==> !Nullish(data) && !IsErrorPayload(data))
      && (r.Ok? ==> r.value == data)
      && (Nullish(data) ==> r == Err(RuntimeTypeError()))
      && (IsErrorPayload(data) ==>
            r.Err? && (r.error == RuntimeTypeError() ||
                       (r.error.code == Api && r.error.csid == Some(Member(data, "csid")))))
    ensures r.Err? && r.error.code == Api ==>
      |r.error.message| >= |API_SUFFIX| && r.error.message[|r.error.message| - |API_SUFFIX|..] == API_SUFFIX
    ensures var data := Payload(resp, parse);
      IsErrorPayload(data) ==>
        && (ApiMessage(data).Err? ==> r == Err(RuntimeTypeError()))
        && (ApiMessage(data).Ok? ==> r == Err(ApiError(ApiMessage(data).value, Member(data, "csid"))))
  {
    var data := Payload(resp, parse);
    if Nullish(data) then Err(RuntimeTypeError())
    else if !Truthy(Member(data, "isError")) then Ok(data)
    else
      match ApiMessage(data)
      case Err(e) => Err(e)
      case Ok(message) => Err(ApiError(message, Member(data, "csid")))
  }

  /** An error payload with a first message: the EAPI error carries the trimmed text and the csid. */
  lemma ApiErrorWithMessage(resp: Response, parse: string -> Value, m: map<string, Value>,
                            rest: seq<Value>, entry: map<string, Value>, text: string)
    requires Payload(resp, parse) == Obj(m)
    requires "isError" in m && Truthy(m["isError"])
    requires "messages" in m && m["messages"] == Arr([Obj(entry)] + rest)
    requires "message" in entry && entry["message"] == Str(text)
    ensures GetResponseData(resp, parse)
         == Err(ApiError(Trim(text), if "csid" in m then m["csid"] else Undefined))
  {
    var data := Payload(resp, parse);
    assert Member(data, "messages") == Arr([Obj(entry)] + rest);
    assert Member(Obj(entry), "message") == Str(text);
    assert ApiMessage(data) == Ok(Trim(text));
  }

  /** An error payload with an empty message list: the EAPI message is just the code. */
  lemma ApiErrorWithoutMessages(resp: Response, parse: string -> Value, m: map<string, Value>)
    requires Payload(resp, parse) == Obj(m)
    requires "isError" in m && Truthy(m["isError"])
    requires "messages" in m && m["messages"] == Arr([])
    ensures GetResponseData(resp, parse)
         == Err(ApiError("", if "csid" in m then m["csid"] else Undefined))
  {
  }

  /**
   * `isLoggedIn`: `'login' in status && status.login`.  The `in` operator
   * throws a TypeError on anything but an object (arrays included, which
   * never have a `login` key).
   */
  function IsLoggedIn(status: Value): (r: Result<bool, Error>)
    ensures r.Err? <==> !(status.Obj? || status.Arr?)
    ensures r.Err? ==> r.error == RuntimeTypeError()
    ensures r == Ok(true) <==> status.Obj? && "login" in status.props && Truthy(status.props["login"])
  {
    match status
    case Obj(m) => Ok("login" in m && Truthy(m["login"]))
    case Arr(_) => Ok(false)
    case _ => Err(RuntimeTypeError())
  }
}
