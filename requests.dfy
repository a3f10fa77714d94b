/**
 * The requests the client issues: the record-type alias, the vocabulary
 * URN, the create/update dispatch of `saveRecord`, and the method, URL,
 * query and body of every operation.
 */
module Requests {
  import opened Wrappers
  import opened JsValues
  import opened Options

  const LOGIN_PATH: string := "/login"
  const LOGOUT_PATH: string := "/logout"
  const LOGIN_STATUS_PATH: string := "/loginstatus"
  const RECORD_READ_PATH: string := "/basic"
  const RECORD_CREATE_PATH: string := ""
  const RECORD_UPDATE_PATH: string := ""
  const VOCABULARY_PATH: string := "/termlist"
  const AUTHORITY_SEARCH_PATH: string := "/autocomplete"
  const TERMS_USED_PATH: string := "/authorities"
  const SEARCH_PATH: string := "/search"

  datatype Verb = Get | Post | Put

  /** What a request sends: nothing, form-encoded fields, or a JSON document. */
  datatype Body = NoBody | Form(fields: map<string, Value>) | Json(data: Value)

  /** One request through the session's agent; `queries` are the objects passed to `.query`, in order. */
  datatype Request = Request(verb: Verb, url: string, queries: seq<map<string, Value>>, body: Body)

  /** `normalizeRecordType`: the public alias `collectionobject` is the app layer's `cataloging`. */
  function NormalizeRecordType(recordType: Value): (r: Value)
    ensures r != Str("collectionobject")
    ensures recordType == Str("collectionobject") ==> r == Str("cataloging")
    ensures recordType != Str("collectionobject") ==> r == recordType
  {
    if recordType == Str("collectionobject") then Str("cataloging") else recordType
  }

  /** Normalizing a record type twice is normalizing it once. */
  lemma NormalizeRecordTypeIdempotent(recordType: Value)
    ensures NormalizeRecordType(NormalizeRecordType(recordType)) == NormalizeRecordType(recordType)
  {
  }

  const URN_PREFIX: string := "urn:cspace:name("
  const URN_SUFFIX: string := ")"

  /** `shortIDToCSID`: the compound identifier the server expects for a short identifier. */
  function ShortIdToCsid(shortId: Value): (r: string)
    ensures |r| == |URN_PREFIX| + |ToJsString(shortId)| + |URN_SUFFIX|
    ensures r[..|URN_PREFIX|] == URN_PREFIX
    ensures r[|URN_PREFIX|..|r| - |URN_SUFFIX|] == ToJsString(shortId)
    ensures r[|r| - |URN_SUFFIX|..] == URN_SUFFIX
  {
    URN_PREFIX + ToJsString(shortId) + URN_SUFFIX
  }

  /** The short identifier inside a compound identifier, if it has the URN form. */
  function CsidToShortId(csid: string): (r: Option<string>)
    ensures r.Some? ==> |csid| >= |URN_PREFIX| + |URN_SUFFIX|
  {
    if |csid| >= |URN_PREFIX| + |URN_SUFFIX|
       && csid[..|URN_PREFIX|] == URN_PREFIX
       && csid[|csid| - |URN_SUFFIX|..] == URN_SUFFIX
    then Some(csid[|URN_PREFIX|..|csid| - |URN_SUFFIX|])
    else None
  }

  /** The short identifier is recovered from its compound identifier. */
  lemma ShortIdRoundTrip(shortId: string)
    ensures CsidToShortId(ShortIdToCsid(Str(shortId))) == Some(shortId)
  {
    var r := ShortIdToCsid(Str(shortId));
    assert r[|URN_PREFIX|..|r| - |URN_SUFFIX|] == shortId;
  }

  /** Distinct short identifiers have distinct compound identifiers. */
  lemma ShortIdToCsidInjective(a: string, b: string)
    requires ShortIdToCsid(Str(a)) == ShortIdToCsid(Str(b))
    ensures a == b
  {
    ShortIdRoundTrip(a);
    ShortIdRoundTrip(b);
  }

  /**
   * A record, vocabulary or search operation with its arguments.  The
   * `options` of the search operations are the contents of the caller's
   * search-options object before the call (empty when none was passed).
   */
  datatype Operation =
    | GetRecord(recordType: Value, csid: Value)
    | CreateRecord(recordType: Value, data: Value)
    | UpdateRecord(recordType: Value, csid: Value, data: Value)
    | GetVocabulary(shortId: Value)
    | FindTerms(recordType: Value, fieldName: Value, searchString: Value)
    | FindTermsUsed(recordType: Value, csid: Value, options: map<string, Value>)
    | FindRelated(recordType: Value, csid: Value, relatedRecordType: Value, options: map<string, Value>)
    | Search(recordType: Value, keywords: Value, options: map<string, Value>)

  /** `saveRecord`: update the record when a truthy csid is given, otherwise create one (the csid is dropped). */
  function SaveOperation(recordType: Value, csid: Value, data: Value): (op: Operation)
    ensures op.UpdateRecord? <==> Truthy(csid)
    ensures op.CreateRecord? <==> !Truthy(csid)
    ensures op.UpdateRecord? ==> op == UpdateRecord(recordType, csid, data)
    ensures op.CreateRecord? ==> op == CreateRecord(recordType, data)
  {
    if Truthy(csid) then UpdateRecord(recordType, csid, data) else CreateRecord(recordType, data)
  }

  /** `"/" + x` with `x` converted to a string. */
  function Seg(x: Value): string {
    "/" + ToJsString(x)
  }

  function LoginRequest(baseUrl: string, username: Value, password: Value): Request {
    Request(Post, baseUrl + LOGIN_PATH, [], Form(map["userid" := username, "password" := password]))
  }

  function LogoutRequest(baseUrl: string): Request {
    Request(Get, baseUrl + LOGOUT_PATH, [], NoBody)
  }

  function StatusRequest(baseUrl: string): Request {
    Request(Get, baseUrl + LOGIN_STATUS_PATH, [], NoBody)
  }

  /** The path below the base URL that an operation's request goes to. */
  function OperationPath(op: Operation): string {
    match op
    case GetRecord(t, csid) => RECORD_READ_PATH + Seg(NormalizeRecordType(t)) + Seg(csid)
    case CreateRecord(t, _) => RECORD_CREATE_PATH + Seg(NormalizeRecordType(t)) + "/"
    case UpdateRecord(t, csid, _) => RECORD_UPDATE_PATH + Seg(NormalizeRecordType(t)) + Seg(csid)
    case GetVocabulary(shortId) => VOCABULARY_PATH + "/" + ShortIdToCsid(shortId)
    case FindTerms(t, field, _) => Seg(NormalizeRecordType(t)) + AUTHORITY_SEARCH_PATH + Seg(field)
    case FindTermsUsed(t, csid, _) => Seg(NormalizeRecordType(t)) + TERMS_USED_PATH + Seg(csid)
    case FindRelated(t, csid, related, _) =>
      Seg(NormalizeRecordType(t)) + Seg(NormalizeRecordType(related)) + Seg(csid)
    case Search(t, _, _) => Seg(NormalizeRecordType(t)) + SEARCH_PATH
  }

  /** The request an operation issues once the session is connected. */
  function RequestFor(baseUrl: string, op: Operation): (r: Request)
    ensures |r.url| >= |baseUrl| && r.url[..|baseUrl|] == baseUrl
    ensures r.verb == Post <==> op.CreateRecord?
    ensures r.verb == Put <==> op.UpdateRecord?
    ensures r.body == (if op.CreateRecord? || op.UpdateRecord? then Json(op.data) else NoBody)
    ensures op.FindTermsUsed? || op.FindRelated? ==> r.queries == [NormalizedSearchOptions(op.options)]
    ensures op.Search? ==> r.queries == [map["query" := op.keywords], NormalizedSearchOptions(op.options)]
    ensures op.FindTerms? ==> r.queries == [map["q" := op.searchString]]
    ensures op.GetRecord? || op.CreateRecord? || op.UpdateRecord? || op.GetVocabulary? ==> r.queries == []
  {
    var url := baseUrl + OperationPath(op);
    assert url[..|baseUrl|] == baseUrl;
    match op
    case GetRecord(_, _) => Request(Get, url, [], NoBody)
    case CreateRecord(_, data) => Request(Post, url, [], Json(data))
    case UpdateRecord(_, _, data) => Request(Put, url, [], Json(data))
    case GetVocabulary(_) => Request(Get, url, [], NoBody)
    case FindTerms(_, _, q) => Request(Get, url, [map["q" := q]], NoBody)
    case FindTermsUsed(_, _, options) => Request(Get, url, [NormalizedSearchOptions(options)], NoBody)
    case FindRelated(_, _, _, options) => Request(Get, url, [NormalizedSearchOptions(options)], NoBody)
    case Search(_, keywords, options) =>
      Request(Get, url, [map["query" := keywords], NormalizedSearchOptions(options)], NoBody)
  }

  /** A record read of `collectionobject` is sent to the `cataloging` service. */
  lemma ReadOfAliasGoesToCataloging(baseUrl: string, csid: string)
    ensures RequestFor(baseUrl, GetRecord(Str("collectionobject"), Str(csid))).url
         == baseUrl + "/basic/cataloging/" + csid
  {
    assert Seg(Str("cataloging")) == "/cataloging";
    assert Seg(Str(csid)) == "/" + csid;
    assert RECORD_READ_PATH + Seg(Str("cataloging")) + Seg(Str(csid)) == "/basic/cataloging/" + csid;
  }
}
