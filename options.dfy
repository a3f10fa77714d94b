/**
 * Option objects the client fills in place: the constructor's options
 * (host, port, ssl, tenant) and the search options of the search calls.
 */
module Options {
  import opened Wrappers
  import opened JsValues

  /** A plain JavaScript object that the caller owns and the client mutates. */
  class JsObject {
    var props: map<string, Value>

    constructor (props: map<string, Value>)
      ensures this.props == props
    {
      this.props := props;
    }
  }

  /** The value of `o[key]` on a plain object: undefined when the key is absent. */
  function Get(m: map<string, Value>, key: string): Value {
    if key in m then m[key] else Undefined
  }

  /** `m` with every key of `defaults` it lacks taken from `defaults`. */
  function Defaulted(m: map<string, Value>, defaults: map<string, Value>): (r: map<string, Value>)
    ensures r.Keys == m.Keys + defaults.Keys
    ensures forall k :: k in m ==> r[k] == m[k]
    ensures forall k :: k in defaults && k !in m ==> r[k] == defaults[k]
  {
    map k | k in m.Keys + defaults.Keys :: if k in m then m[k] else defaults[k]
  }

  /** Defaults already applied are not applied again. */
  lemma DefaultedIdempotent(m: map<string, Value>, defaults: map<string, Value>)
    ensures Defaulted(Defaulted(m, defaults), defaults) == Defaulted(m, defaults)
  {
  }

  /**
   * The `for (var option in defaults) if (!(option in o)) o[option] = defaults[option]`
   * loop: adds each missing default key to `o`, in place.
   */
  method FillDefaults(o: JsObject, defaults: map<string, Value>)
    modifies o
    ensures o.props == Defaulted(old(o.props), defaults)
  {
    ghost var start := o.props;
    var todo := defaults.Keys;
    while todo != {}
      invariant todo <= defaults.Keys
      invariant o.props == Defaulted(start, defaults - todo)
      decreases todo
    {
      var k :| k in todo;
      if k !in o.props {
        o.props := o.props[k := defaults[k]];
      }
      todo := todo - {k};
    }
    assert defaults - {} == defaults;
  }

  // ---------------------------------------------------------------------
  // Client options and the base URL

  const DEFAULT_HTTP_PORT: int := 80
  const API_PATH: string := "/collectionspace/tenant"

  /** The defaults of the client's options. */
  const DEFAULT_OPTIONS: map<string, Value> :=
    map["host" := Str(""), "port" := Num(8180), "ssl" := Bool(false), "tenant" := Str("core")]

  /** The part of the base URL before the API path: empty without a host. */
  function Origin(o: map<string, Value>): (r: string)
    ensures !Truthy(Get(o, "host")) <==> r == ""
    ensures Truthy(Get(o, "host")) ==>
      var scheme := if Truthy(Get(o, "ssl")) then "https://" else "http://";
      |r| >= |scheme| && r[..|scheme|] == scheme
  {
    var host := Get(o, "host");
    var port := Get(o, "port");
    if Truthy(host) then
      var scheme := (if Truthy(Get(o, "ssl")) then "https" else "http") + "://";
      var authority := ToJsString(host)
        + (if LooseEqualsNumber(port, DEFAULT_HTTP_PORT) then "" else ":" + ToJsString(port));
      assert (scheme + authority)[..|scheme|] == scheme;
      scheme + authority
    else ""
  }

  /** The base URL built from options the defaults have already been applied to. */
  function BaseUrl(o: map<string, Value>): (r: string)
    ensures !Truthy(Get(o, "host")) ==> r == API_PATH + "/" + ToJsString(Get(o, "tenant"))
  {
    Origin(o) + API_PATH + "/" + ToJsString(Get(o, "tenant"))
  }

  /** The origin for a string host, a numeric port and a boolean ssl flag. */
  lemma OriginShape(o: map<string, Value>, host: string, port: nat, ssl: bool)
    requires host != "" && Get(o, "host") == Str(host) && Get(o, "port") == Num(port) && Get(o, "ssl") == Bool(ssl)
    ensures Origin(o) == (if ssl then "https" else "http") + "://" + host
                         + (if port == DEFAULT_HTTP_PORT then "" else ":" + Decimal(port))
  {
  }

  /** When every option is given with its expected type, the base URL has the documented shape. */
  lemma BaseUrlShape(host: string, port: nat, ssl: bool, tenant: string)
    requires host != ""
    ensures BaseUrl(map["host" := Str(host), "port" := Num(port), "ssl" := Bool(ssl), "tenant" := Str(tenant)])
         == (if ssl then "https" else "http") + "://" + host
            + (if port == 80 then "" else ":" + Decimal(port))
            + "/collectionspace/tenant/" + tenant
  {
    var o := map["host" := Str(host), "port" := Num(port), "ssl" := Bool(ssl), "tenant" := Str(tenant)];
    OriginShape(o, host, port, ssl);
    assert Get(o, "tenant") == Str(tenant);
  }

  /** Origin reads the port only through `== 80` and `String()`. */
  lemma OriginByPort(o: map<string, Value>, o': map<string, Value>)
    requires Get(o, "host") == Get(o', "host") && Get(o, "ssl") == Get(o', "ssl")
    requires LooseEqualsNumber(Get(o, "port"), DEFAULT_HTTP_PORT) == LooseEqualsNumber(Get(o', "port"), DEFAULT_HTTP_PORT)
    requires ToJsString(Get(o, "port")) == ToJsString(Get(o', "port"))
    ensures Origin(o) == Origin(o')
  {
  }

  /** A port given as a canonical decimal string gives the same base URL as the number it spells. */
  lemma StringPortAsNumber(o: map<string, Value>, port: nat)
    requires Get(o, "port") == Str(Decimal(port))
    ensures BaseUrl(o) == BaseUrl(o["port" := Num(port)])
  {
    var o' := o["port" := Num(port)];
    assert Get(o', "port") == Num(port);
    assert Get(o', "host") == Get(o, "host") && Get(o', "ssl") == Get(o, "ssl") && Get(o', "tenant") == Get(o, "tenant");
    DecimalStringAsNumber(port, DEFAULT_HTTP_PORT);
    OriginByPort(o, o');
  }

  /** With no options at all, the base URL is the relative API root of tenant `core`. */
  lemma DefaultBaseUrl()
    ensures BaseUrl(Defaulted(map[], DEFAULT_OPTIONS)) == "/collectionspace/tenant/core"
  {
  }

  // ---------------------------------------------------------------------
  // Search options

  const SORT_ASCENDING: int := 1
  const SORT_DESCENDING: int := 0

  /** The defaults of the search options. */
  const DEFAULT_SEARCH_OPTIONS: map<string, Value> :=
    map["pageSize" := Num(40), "pageNum" := Num(0), "sortKey" := Null, "sortDir" := Num(SORT_ASCENDING)]

  const SORT_KEYS: set<string> := {"sortKey", "sortDir"}

  /** Whether the options ask for sorting, i.e. carry a truthy `sortKey`. */
  predicate Sorted(m: map<string, Value>) {
    Truthy(Get(m, "sortKey"))
  }

  /** What normalizing leaves in a search-options object that held `m`. */
  function NormalizedSearchOptions(m: map<string, Value>): (r: map<string, Value>)
    ensures Sorted(m) ==> r.Keys == m.Keys + DEFAULT_SEARCH_OPTIONS.Keys
    ensures !Sorted(m) ==> r.Keys == (m.Keys + {"pageSize", "pageNum"}) - SORT_KEYS
    ensures forall k :: k in m && (Sorted(m) || k !in SORT_KEYS) ==> r[k] == m[k]
    ensures "pageSize" !in m ==> r["pageSize"] == Num(40)
    ensures "pageNum" !in m ==> r["pageNum"] == Num(0)
    ensures Sorted(m) && "sortDir" !in m ==> r["sortDir"] == Num(SORT_ASCENDING)
  {
    var d := Defaulted(m, DEFAULT_SEARCH_OPTIONS);
    assert Sorted(d) == Sorted(m);
    if Sorted(d) then d else d - SORT_KEYS
  }

  /** Normalizing options that are already normal changes nothing. */
  lemma {:induction false} NormalizedSearchOptionsIdempotent(m: map<string, Value>)
    ensures NormalizedSearchOptions(NormalizedSearchOptions(m)) == NormalizedSearchOptions(m)
  {
    var n := NormalizedSearchOptions(m);
    var nn := NormalizedSearchOptions(n);
    assert Sorted(n) == Sorted(m);
    assert nn.Keys == n.Keys;
  }

  /** With no options given, a search asks for page 0 of size 40 and no sorting. */
  lemma DefaultSearchOptions()
    ensures NormalizedSearchOptions(map[]) == map["pageSize" := Num(40), "pageNum" := Num(0)]
  {
    var r := NormalizedSearchOptions(map[]);
    assert r.Keys == {"pageSize", "pageNum"};
  }

  /**
   * `normalizeSearchOptions`: fills the defaults into the caller's object in
   * place, removes both sort keys when no sort key is given, and returns the
   * same object (a fresh one when the caller passed none).
   */
  method NormalizeSearchOptions(searchOptions: JsObject?) returns (r: JsObject)
    modifies searchOptions
    ensures searchOptions != null ==> r == searchOptions
    ensures searchOptions == null ==> fresh(r)
    ensures r.props == NormalizedSearchOptions(if searchOptions == null then map[] else old(searchOptions.props))
  {
    if searchOptions == null {
      r := new JsObject(map[]);
    } else {
      r := searchOptions;
    }
    FillDefaults(r, DEFAULT_SEARCH_OPTIONS);
    if !Truthy(Get(r.props, "sortKey")) {
      r.props := r.props - SORT_KEYS;
    }
  }
}
