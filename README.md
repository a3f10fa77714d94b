# CollectionSpace client session, modelled in Dafny

This project models `lib/collectionspace.js`, a JavaScript client for the
HTTP endpoints of a CollectionSpace museum-collections server, with the HTTP
transport abstracted away. A client object holds a base URL, a
cookie-keeping agent, and a cached connection status (`_connectionStatus`).
It logs in (`connect`), confirms the login through the status endpoint
(`getConnectionStatus`), and logs out (`disconnect`). Every record,
vocabulary and search call first checks `assertConnected`, then issues one
request through the agent and normalises the reply with `getResponseData`.

How the model is put together:

- `js_values.dfy` (`JsValues`): the JavaScript semantics the client relies
  on. It covers values, truthiness, property access (which throws a
  TypeError on null/undefined), `String(v)`, a restricted `ToNumber`, loose
  `== 80`, `> 0`, and `String.prototype.trim`.
- `options.dfy` (`Options`): `JsObject` is a caller-owned object that the
  client mutates in place, and `FillDefaults` is the `for…in` defaulting
  loop. Also here: the client defaults, the base URL, the search-option
  defaults, and `normalizeSearchOptions`. That last one is a method that
  mutates its argument, specified by the function `NormalizedSearchOptions`.
- `responses.dfy` (`Responses`): the error taxonomy (ENOTCONNECTED,
  ELOGINFAILED, ELOGOUTFAILED, EAPI, runtime TypeError, transport errors
  passed through), `getResponseData`, and `isLoggedIn`.
- `requests.dfy` (`Requests`): `normalizeRecordType`, `shortIDToCSID` with
  its inverse, the `saveRecord` dispatch, and the method, URL, query objects
  and body of every request.
- `session.dfy` (`CollectionSpace`): transition functions for each session
  operation (`FetchStatus`, `ConnectStep`, `DisconnectStep`,
  `OperationStep`), multi-call lemmas, and the `Session` class.
  - Each async method of the source becomes one synchronous method of
    `Session`. The server's replies are parameters: `Reply = Failed(error) |
    Received(response)`.
  - The field `sent` records every request the agent issued.
  - Each method's `ensures` equates the new state and the outcome with the
    transition function.
  - A returned promise either resolves, rejects, or never settles
    (`Unsettled`). `getConnectionStatus` calls `getResponseData` outside any
    `try`, so an error payload from the status endpoint is thrown inside the
    transport callback, and the promise it returns never settles.

Where the code differs from what test/test.js expects, or from the
behaviour one might assume, the model follows the code:

- The status cache is tested for truthiness (`if (this._connectionStatus)`),
  not for presence. A falsy status, such as an empty text reply, is fetched
  again (`FalsyStatusIsFetchedAgain`).
- Transport errors are passed on unchanged, whatever their code.
- `connect` resolves with the status object, not `true`.
- `disconnect` does not check `assertConnected`.
- When the status fetch after a successful login or logout fails, the cache
  stays cleared (`FailedRefetchClearsStatus`, `FailedLogoutRefetchClearsStatus`).

## Model

| member | source | states |
|---|---|---|
| `Options.Defaulted` | lib/collectionspace.js:42-46 | every key of the defaults gets added, keys already present keep their values, and no other key appears |
| `Options.FillDefaults` | lib/collectionspace.js:42-46 | the in-place `for…in` loop leaves the object equal to `Defaulted` of its old contents |
| `Options.DefaultedIdempotent` | lib/collectionspace.js:42-46 | applying the defaults a second time changes nothing |
| `Options.BaseUrl` | lib/collectionspace.js:48-59 | with a falsy host the base URL is only `/collectionspace/tenant/` followed by the tenant |
| `Options.BaseUrlShape` | lib/collectionspace.js:48-59 | for a non-empty host, numeric port, boolean ssl and string tenant, the URL is `http(s)://host[:port]/collectionspace/tenant/tenant`, with `:port` left out when the port is 80 |
| `Options.Origin` | lib/collectionspace.js:48-57 | the origin is empty exactly when the host is falsy, and otherwise starts with `https://` when ssl is truthy and `http://` when it is not |
| `Options.OriginShape` | lib/collectionspace.js:48-54 | for a non-empty string host, a numeric port and a boolean ssl flag, the origin is `http(s)://host` followed by `:port` unless the port is 80 |
| `Options.StringPortAsNumber` | lib/collectionspace.js:48-59 | a port given as a canonical decimal string, such as `"80"`, gives the same base URL as the number it spells, so `"80"` drops the `:port` segment too |
| `Options.DefaultBaseUrl` | lib/collectionspace.js:8-13 | with no options the defaults (empty host, port 8180, no ssl, tenant `core`) give `/collectionspace/tenant/core` |
| `Options.NormalizedSearchOptions` | lib/collectionspace.js:491-506 | pageSize, pageNum and (when sorting) sortDir default to 40, 0 and 1; given keys keep their values; both sort keys are present exactly when sortKey is truthy; no other key is added or removed |
| `Options.NormalizedSearchOptionsIdempotent` | lib/collectionspace.js:491-506 | normalising search options twice is the same as normalising once |
| `Options.DefaultSearchOptions` | lib/collectionspace.js:20-25 | with no options a search asks for pageSize 40 and pageNum 0 and sends no sort keys |
| `Options.NormalizeSearchOptions` | lib/collectionspace.js:491-506 | mutates and returns the caller's object (a fresh one when none is passed) so that it holds `NormalizedSearchOptions` of its old contents |
| `JsValues.Trim` | lib/collectionspace.js:467 | the result is the input with its leading and trailing white space removed: an infix of the input with only white space before and after it, which itself neither starts nor ends with white space; an already-trimmed string is unchanged, and only an all-space string becomes empty |
| `JsValues.TrimIdempotent` | lib/collectionspace.js:467 | trimming the message a second time changes nothing |
| `JsValues.DecimalStringAsNumber` | lib/collectionspace.js:52-53 | a port given as a canonical decimal string is `==` to exactly the number it spells, and is written into the URL the same way |
| `JsValues.DecimalRoundTrip` | lib/collectionspace.js:52-53 | the decimal spelling of a port, as concatenation writes it, reads back as the same number |
| `Responses.Payload` | lib/collectionspace.js:449-460 | the payload is the parsed body when present and non-null, else the parsed text for `text/json`, else the raw text |
| `Responses.PayloadSource` | lib/collectionspace.js:449-460 | a present non-null body is the payload whatever the content type; otherwise the text is parsed exactly when the type is `text/json`, and is returned raw otherwise |
| `Responses.GetResponseData` | lib/collectionspace.js:446-479 | the payload comes back unchanged exactly when it is non-null and not an error payload; an error payload becomes the TypeError exactly when `ApiMessage` throws one, and otherwise the EAPI error built by `ApiError` from that message and the payload's csid; a null payload is a TypeError |
| `Responses.ApiMessage` | lib/collectionspace.js:464-468 | a missing `messages` throws a TypeError; an empty `messages` array gives ""; for a non-empty array the message is the trimmed `message` of the first entry, and a TypeError is thrown exactly when that entry is null or undefined or its `message` is not a string |
| `Responses.ApiError` | lib/collectionspace.js:470-473 | the EAPI error has code EAPI, the payload's csid, and the message followed by ` (EAPI)` |
| `Responses.ApiErrorWithMessage` | lib/collectionspace.js:462-476 | when the first entry of `messages` has a string `message`, the EAPI message is its trimmed text followed by ` (EAPI)`, and the csid is the payload's `csid` |
| `Responses.ApiErrorWithoutMessages` | lib/collectionspace.js:462-476 | with an empty `messages` list the EAPI message is ` (EAPI)` |
| `Responses.IsLoggedIn` | lib/collectionspace.js:515-517 | true exactly for an object with a truthy `login` key; false for other objects and arrays; a TypeError for primitives, null and undefined |
| `Requests.NormalizeRecordType` | lib/collectionspace.js:481-489 | exactly `collectionobject` becomes `cataloging`, every other value is returned unchanged, and the result is never `collectionobject` |
| `Requests.NormalizeRecordTypeIdempotent` | lib/collectionspace.js:481-489 | normalising a record type twice is the same as normalising once |
| `Requests.ShortIdToCsid` | lib/collectionspace.js:442-444 | the compound identifier is `urn:cspace:name(`, the short identifier, then `)` |
| `Requests.ShortIdRoundTrip` | lib/collectionspace.js:442-444 | the short identifier is recovered from its compound identifier |
| `Requests.ShortIdToCsidInjective` | lib/collectionspace.js:442-444 | distinct short identifiers give distinct compound identifiers |
| `Requests.SaveOperation` | lib/collectionspace.js:205-207 | an update runs exactly when the csid is truthy, otherwise a create runs without the csid |
| `Requests.RequestFor` | lib/collectionspace.js:175-429 | every request URL starts with the base URL; only create posts and only update puts, both sending the record as JSON; search-style requests query with the normalised search options, keyword search also with `query`, term search with `q` |
| `Requests.ReadOfAliasGoesToCataloging` | lib/collectionspace.js:179-184 | reading a `collectionobject` goes to `/basic/cataloging/<csid>` under the base URL |
| `CollectionSpace.AssertConnected` | lib/collectionspace.js:431-439 | fails with ENOTCONNECTED exactly when the cached status is falsy or its `login` is falsy |
| `CollectionSpace.LoggedInAgreesWithGuard` | lib/collectionspace.js:431-439 | for objects and arrays, `isLoggedIn` and the connected guard agree |
| `CollectionSpace.Settle` | lib/collectionspace.js:185-195 | a transport error rejects with that error; a response resolves with its payload exactly when `getResponseData` accepts it, and otherwise rejects with the error `getResponseData` throws; it always settles |
| `CollectionSpace.FetchStatus` | lib/collectionspace.js:114-136 | a truthy cached status is returned with no request; otherwise one status request is sent; accepted response data is what resolves and gets cached; a transport error rejects with that error; a refused response leaves the promise unsettled with the error `getResponseData` threw; a failed fetch leaves the cache as it was |
| `CollectionSpace.ConnectStep` | lib/collectionspace.js:67-108 | the login post is sent first; a transport error rejects with the cache untouched; otherwise one status request follows; a connect resolves only after an accepted status reply, and then leaves that connected status cached and returns it; for accepted status data it resolves exactly when `isLoggedIn` is true, rejects with ELOGINFAILED exactly when it is false, and rejects with the TypeError `isLoggedIn` throws otherwise; an error payload from the status request leaves the cache cleared and the promise unsettled |
| `CollectionSpace.DisconnectStep` | lib/collectionspace.js:138-173 | the logout request is sent first; a transport error rejects with the cache untouched; otherwise one status request follows; a disconnect resolves only after an accepted status reply, and then returns true and leaves a not-connected status cached; for accepted status data it resolves exactly when `isLoggedIn` is false, rejects with ELOGOUTFAILED exactly when it is true (the still logged-in status stays cached), and rejects with the TypeError `isLoggedIn` throws otherwise; an error payload from the status request leaves the cache cleared and the promise unsettled |
| `CollectionSpace.OperationStep` | lib/collectionspace.js:175-429 | without a connected status an operation rejects with ENOTCONNECTED, sends nothing and changes nothing; with one it sends exactly its request and settles the reply; the cached status never changes |
| `CollectionSpace.StatusIsCached` | lib/collectionspace.js:117-119 | after a resolved truthy status, a second query sends nothing and returns the same status |
| `CollectionSpace.FalsyStatusIsFetchedAgain` | lib/collectionspace.js:117-133 | a cached empty-string status does not count as cached: the next query sends a status request |
| `CollectionSpace.ConnectEnablesOperations` | lib/collectionspace.js:88-91 | after a resolved connect every operation passes the guard and sends its request |
| `CollectionSpace.DisconnectDisablesOperations` | lib/collectionspace.js:152-157 | after a resolved disconnect every operation fails fast with ENOTCONNECTED |
| `CollectionSpace.NewSessionIsNotConnected` | lib/collectionspace.js:62 | a new session starts with a null status, so every operation rejects with ENOTCONNECTED and sends nothing |
| `CollectionSpace.FailedRefetchClearsStatus` | lib/collectionspace.js:86-103 | when the status fetch after a login fails, the connect rejects with that error and no status stays cached |
| `CollectionSpace.FailedLogoutRefetchClearsStatus` | lib/collectionspace.js:143-170 | when the status fetch after a logout fails, the disconnect rejects with that error and no status stays cached |
| `CollectionSpace.Session.constructor` | lib/collectionspace.js:39-65 | fills the defaults into the caller's options object; the base URL is `BaseUrl` of the defaulted options; the session starts with a null status and no requests |
| `CollectionSpace.Session.GetConnectionStatus` | lib/collectionspace.js:114-136 | the new state and the outcome are those of `FetchStatus` |
| `CollectionSpace.Session.Connect` | lib/collectionspace.js:67-108 | the new state and the outcome are those of `ConnectStep` |
| `CollectionSpace.Session.Disconnect` | lib/collectionspace.js:138-173 | the new state and the outcome are those of `DisconnectStep` |
| `CollectionSpace.Session.Url` | lib/collectionspace.js:110-112 | the URL is the base URL the constructor built |
| `CollectionSpace.Session.Issue` | lib/collectionspace.js:183-196 | appends exactly the operation's request to the log, leaves the cached status alone, and settles the reply as `Settle` does |
| `CollectionSpace.Session.Perform` | lib/collectionspace.js:175-203 | the guard-then-request pattern: the new state and the outcome are those of `OperationStep` |
| `CollectionSpace.Session.CheckConnected` | lib/collectionspace.js:431-439 | accepts exactly when the cached status is connected |
| `CollectionSpace.Session.GetRecord` | lib/collectionspace.js:175-203 | the new state and the outcome are those of `OperationStep` for a record read |
| `CollectionSpace.Session.CreateRecord` | lib/collectionspace.js:209-238 | the new state and the outcome are those of `OperationStep` for a record create |
| `CollectionSpace.Session.UpdateRecord` | lib/collectionspace.js:240-269 | the new state and the outcome are those of `OperationStep` for a record update |
| `CollectionSpace.Session.SaveRecord` | lib/collectionspace.js:205-207 | the new state and the outcome are those of `OperationStep` for `SaveOperation` |
| `CollectionSpace.Session.GetVocabulary` | lib/collectionspace.js:271-297 | the new state and the outcome are those of `OperationStep` for a vocabulary lookup |
| `CollectionSpace.Session.FindTerms` | lib/collectionspace.js:302-331 | the new state and the outcome are those of `OperationStep` for a term search |
| `CollectionSpace.Session.FindTermsUsed` | lib/collectionspace.js:333-363 | the state and outcome follow `OperationStep`; the caller's search options are normalised in place only once the guard has passed |
| `CollectionSpace.Session.FindRelated` | lib/collectionspace.js:365-396 | the state and outcome follow `OperationStep`; the caller's search options are normalised in place only once the guard has passed |
| `CollectionSpace.Session.Search` | lib/collectionspace.js:398-429 | the state and outcome follow `OperationStep`; the caller's search options are normalised in place only once the guard has passed |

## Left out

- The superagent transport and its cookie agent (`getAgent`,
  lib/collectionspace.js:508-513) are foreign HTTP code. The agent is
  modelled only as the log `sent`, and its replies are method parameters.
- Q deferreds, callbacks and `.bind(this)`: each operation is one
  synchronous transition. Overlapping calls on one session are not
  modelled.
- `JSON.parse` is the function parameter `parse`. A parse failure, which
  would throw, is not modelled.
- Query-string encoding by superagent is not modelled. A request carries
  the objects passed to `.query` in order, and the form fields of the login
  post.
- JavaScript numbers are unbounded integers here. Fractions, NaN as a
  stored value, and Infinity are not modelled. Neither is the precision
  limit of doubles: integers above 2^53 are exact here, though JavaScript
  rounds them. `Decimal` and `ToJsString` always write plain digits,
  though `String(n)` uses exponent notation from 1e21 on.
- The cached status is handed to callers by reference
  (lib/collectionspace.js:91, 118, 130). Here it is a value. `StatusIsCached`
  states value equality, not identity, and the model cannot express a
  caller changing `login` on the returned object, which would change what
  `assertConnected` accepts.
- Options.BaseUrl: the loose `port == 80` test converts a string port with a
  restricted ToNumber. After trimming, the empty string is 0 and all-digit
  strings are their value. Signs, fractions, exponents and hex spellings
  count as NaN, so a port such as `"80.0"` or `"0x50"` keeps its `:port`
  segment, although JavaScript would drop it.
- Responses.ApiMessage: the `messages.length > 0` test uses the same
  restricted ToNumber. For a `length` that is a signed, fractional or hex
  string, it answers "not greater than zero".
- Property access follows own keys only. The model does not see keys
  inherited from `Object.prototype`, methods of primitives, or the
  `'login' in ...` test on an object whose prototype defines `login`.
- Options objects that are truthy but not objects (a string, say) make
  `in` throw in the source. The model accepts only an object or nothing
  (`JsObject?`).
- The text of runtime TypeError messages is not modelled
  (`RuntimeTypeError` has an empty message).
- `this.SortDir` (lib/collectionspace.js:64) is only exposed as the
  constants `SORT_ASCENDING` and `SORT_DESCENDING`.
- test/test.js and examples/*.js are not part of this model. The tests
  talk to a live server, and several of their expectations contradict the
  library code: that `connect` resolves `true`, that `disconnect` rejects
  with ENOTCONNECTED, and that the `connected` and `username` properties
  exist.
