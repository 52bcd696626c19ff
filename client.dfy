/**
 * `fetchFromOpenAlex`: the request it builds (URL with query pairs, and
 * User-Agent), and how it sorts every outcome of the HTTP call into either
 * the parsed JSON body or one `OpenAlexError`. Also `MetaSchema`, the
 * `meta` object of every list response.
 *
 * The HTTP call itself is not modelled: its outcome (a rejection, or a
 * response with status, status text, body text and JSON parse result) is an
 * input.
 */
module Client {
  import opened Wrappers
  import opened Json
  import opened Schema
  import opened Text
  import opened Query
  import Types

  function BaseUrl(): string
  {
    "https://api.openalex.org"
  }

  /** A value of the `params` record; a caller may leave one undefined or null. */
  datatype ParamValue = PStr(s: string) | PNum(n: int) | PBool(b: bool) | PUndefined | PNull

  /** `OpenAlexOptions`. */
  datatype Options = Options(mailto: Option<string>)

  predicate Present(v: ParamValue)
  {
    !v.PUndefined? && !v.PNull?
  }

  /** `String(value)`. */
  function ParamString(v: ParamValue): string
  {
    match v
    case PStr(s) => s
    case PNum(n) => IntToString(n)
    case PBool(b) => if b then "true" else "false"
    case PUndefined => "undefined"
    case PNull => "null"
  }

  /** The pairs the loop over `Object.entries(params)` appends: one per present value, in order. */
  function ParamPairs(params: seq<(string, ParamValue)>): (r: seq<(string, string)>)
    ensures |r| <= |params|
    ensures forall p | p in r :: exists e | e in params :: Present(e.1) && p == (e.0, ParamString(e.1))
  {
    if |params| == 0 then []
    else
      var (k, v) := params[|params| - 1];
      ParamPairs(params[..|params| - 1]) + if Present(v) then [(k, ParamString(v))] else []
  }

  /** The pair appended for a truthy `mailto`. */
  function MailtoPairs(options: Options): seq<(string, string)>
  {
    if Truthy(options.mailto) then [("mailto", options.mailto.value)] else []
  }

  function UserAgent(options: Options): string
  {
    if Truthy(options.mailto) then "mcp-openalex (" + options.mailto.value + ")" else "mcp-openalex"
  }

  /** What `fetch` is called with: the URL's path and query pairs, and the User-Agent header. */
  datatype Request = Request(path: string, query: seq<(string, string)>, userAgent: string)

  /** `url.toString()`: no `?` at all while nothing was appended. */
  function Href(r: Request): string
  {
    BaseUrl() + r.path + if |r.query| == 0 then "" else "?" + Serialize(r.query)
  }

  /** The request `fetchFromOpenAlex(endpoint, params, options)` issues. */
  function RequestFor(endpoint: string, params: seq<(string, ParamValue)>, options: Options): Request
  {
    Request(endpoint, ParamPairs(params) + MailtoPairs(options), UserAgent(options))
  }

  // ------------------------------------------------------------ failures

  datatype OpenAlexError = OpenAlexError(message: string, statusCode: Option<int>, response: Option<string>)

  /** What a rejected promise or a `throw` carries. */
  datatype Thrown =
    | ThrownOpenAlex(error: OpenAlexError) // an OpenAlexError
    | ThrownError(message: string)         // any other Error
    | ThrownOther                          // a thrown value that is not an Error

  /** `response.text()` and `response.json()` each resolve or reject. */
  datatype Response = Response(status: int, statusText: string, text: Result<string, Thrown>, json: Result<Json, Thrown>)

  /** What the HTTP call does: it rejects, or it resolves to a response. */
  datatype HttpOutcome = Rejected(reason: Thrown) | Responded(response: Response)

  /** `response.ok`. */
  predicate IsOk(r: Response)
  {
    200 <= r.status <= 299
  }

  function HttpError(status: int, statusText: string, body: string): OpenAlexError
  {
    OpenAlexError("OpenAlex API error: " + IntToString(status) + " " + statusText, Some(status), Some(body))
  }

  /** The `try` block: the parsed body, or what it throws. */
  function Attempt(outcome: HttpOutcome): Result<Json, Thrown>
  {
    match outcome
    case Rejected(t) => Err(t)
    case Responded(r) =>
      if !IsOk(r) then
        match r.text
        case Ok(body) => Err(ThrownOpenAlex(HttpError(r.status, r.statusText, body)))
        case Err(t) => Err(t)
      else r.json
  }

  /** The `catch` block: an OpenAlexError is rethrown as it is, anything else is wrapped. */
  function Catch(t: Thrown): (e: OpenAlexError)
    ensures t.ThrownOpenAlex? ==> e == t.error
    ensures !t.ThrownOpenAlex? ==>
      e.statusCode.None? && e.response.None? && "Failed to fetch from OpenAlex: " <= e.message
    ensures t.ThrownError? ==> e.message == "Failed to fetch from OpenAlex: " + t.message
    ensures t.ThrownOther? ==> e.message == "Failed to fetch from OpenAlex: Unknown error"
  {
    match t
    case ThrownOpenAlex(e) => e
    case ThrownError(m) => OpenAlexError("Failed to fetch from OpenAlex: " + m, None, None)
    case ThrownOther => OpenAlexError("Failed to fetch from OpenAlex: Unknown error", None, None)
  }

  /** What `fetchFromOpenAlex` resolves to, or the error it rejects with. */
  function Classify(outcome: HttpOutcome): (r: Result<Json, OpenAlexError>)
    ensures r.Ok? <==> outcome.Responded? && IsOk(outcome.response) && outcome.response.json.Ok?
    ensures r.Ok? ==> r.value == outcome.response.json.value
  {
    match Attempt(outcome)
    case Ok(data) => Ok(data)
    case Err(t) => Err(Catch(t))
  }

  /**
   * `fetchFromOpenAlex`: appends the present params, then a truthy mailto,
   * to the URL's search params, picks the User-Agent, and classifies what
   * the call to `fetch` with that request gives back.
   */
  method FetchFromOpenAlex(endpoint: string, params: seq<(string, ParamValue)>, options: Options, outcome: HttpOutcome)
    returns (request: Request, result: Result<Json, OpenAlexError>)
    ensures request.path == endpoint
    ensures request.query == ParamPairs(params) + MailtoPairs(options)
    ensures request.userAgent == UserAgent(options)
    ensures result == Classify(outcome)
  {
    var url := new SearchParams();
    var i := 0;
    while i < |params|
      invariant 0 <= i <= |params|
      invariant url.pairs == ParamPairs(params[..i])
    {
      var (key, value) := params[i];
      assert params[..i + 1][..i] == params[..i];
      if Present(value) {
        url.Append(key, ParamString(value));
      }
      i := i + 1;
    }
    assert params[..i] == params;
    if Truthy(options.mailto) {
      url.Append("mailto", options.mailto.value);
    }
    var userAgent := if Truthy(options.mailto) then "mcp-openalex (" + options.mailto.value + ")" else "mcp-openalex";
    request := Request(endpoint, url.pairs, userAgent);
    result := Classify(outcome);
  }

  // ------------------------------------------------------------ the query

  /** How many pairs have the name `k`. */
  function CountName(pairs: seq<(string, string)>, k: string): nat
  {
    if |pairs| == 0 then 0 else CountName(pairs[..|pairs| - 1], k) + if pairs[|pairs| - 1].0 == k then 1 else 0
  }

  lemma {:induction false} CountNameAppend(a: seq<(string, string)>, b: seq<(string, string)>, k: string)
    ensures CountName(a + b, k) == CountName(a, k) + CountName(b, k)
    decreases |b|
  {
    if |b| > 0 {
      var ab := a + b;
      assert ab[..|ab| - 1] == a + b[..|b| - 1];
      CountNameAppend(a, b[..|b| - 1], k);
    } else {
      assert a + b == a;
    }
  }

  /** The params of two runs of entries are the params of each, one after the other. */
  lemma {:induction false} ParamPairsAppend(a: seq<(string, ParamValue)>, b: seq<(string, ParamValue)>)
    ensures ParamPairs(a + b) == ParamPairs(a) + ParamPairs(b)
    decreases |b|
  {
    if |b| > 0 {
      var ab := a + b;
      assert ab[..|ab| - 1] == a + b[..|b| - 1];
      ParamPairsAppend(a, b[..|b| - 1]);
    } else {
      assert a + b == a;
    }
  }

  /**
   * One entry yields exactly one pair `(key, String(value))` unless its value
   * is undefined or null; falsy values such as 0, false and '' are kept.
   */
  lemma ParamPairsOne(k: string, v: ParamValue)
    ensures ParamPairs([(k, v)]) == if v.PUndefined? || v.PNull? then [] else [(k, ParamString(v))]
    ensures ParamPairs([(k, PNum(0))]) == [(k, "0")]
    ensures ParamPairs([(k, PBool(false))]) == [(k, "false")]
    ensures ParamPairs([(k, PStr(""))]) == [(k, "")]
  {
    assert [(k, v)][..0] == [];
    assert [(k, PNum(0))][..0] == [];
    assert [(k, PBool(false))][..0] == [];
    assert [(k, PStr(""))][..0] == [];
  }

  /**
   * A truthy mailto adds exactly one `mailto` pair, after every param pair;
   * otherwise the query is the param pairs alone.
   */
  lemma MailtoAppendedLast(params: seq<(string, ParamValue)>, options: Options)
    ensures var q := RequestFor("", params, options).query;
      && q[..|ParamPairs(params)|] == ParamPairs(params)
      && CountName(q, "mailto") == CountName(ParamPairs(params), "mailto") + (if Truthy(options.mailto) then 1 else 0)
      && (Truthy(options.mailto) <==> |q| == |ParamPairs(params)| + 1)
      && (Truthy(options.mailto) ==> q[|q| - 1] == ("mailto", options.mailto.value))
  {
    var q := RequestFor("", params, options).query;
    CountNameAppend(ParamPairs(params), MailtoPairs(options), "mailto");
    assert q[..|ParamPairs(params)|] == ParamPairs(params);
    if Truthy(options.mailto) {
      assert CountName(MailtoPairs(options), "mailto") == 1 by {
        assert MailtoPairs(options)[..0] == [];
      }
    }
  }

  /** The User-Agent names the mailto exactly when it is truthy. */
  lemma UserAgentNamesMailto(options: Options)
    ensures !Truthy(options.mailto) <==> UserAgent(options) == "mcp-openalex"
    ensures Truthy(options.mailto) ==>
      var ua := UserAgent(options);
      && ua[..14] == "mcp-openalex (" && ua[14..|ua| - 1] == options.mailto.value && ua[|ua| - 1] == ')'
  {
    if Truthy(options.mailto) {
      var ua := UserAgent(options);
      assert |ua| > |"mcp-openalex"|;
    }
  }

  /** Reading the URL's query back gives the param pairs, then the mailto pair, in order. */
  lemma QueryReadsBack(endpoint: string, params: seq<(string, ParamValue)>, options: Options)
    ensures var r := RequestFor(endpoint, params, options);
      Parse(Serialize(r.query)) == Some(ParamPairs(params) + MailtoPairs(options))
  {
    ParseSerialize(RequestFor(endpoint, params, options).query);
  }

  /** A query of one pair reads `name=value`, each written with percent-encoding. */
  lemma OnePairUrl(endpoint: string, k: string, v: string, userAgent: string)
    ensures Href(Request(endpoint, [(k, v)], userAgent)) == BaseUrl() + endpoint + "?" + Encode(k) + "=" + Encode(v)
  {
    assert Serialize([(k, v)]) == SerializePair((k, v));
  }

  /**
   * A single present string param with no mailto option gives the URL
   * `base + endpoint + "?" + name + "=" + value` when neither needs escaping,
   * as `fetchFromOpenAlex('/works', { search: 'test' })` calls
   * `https://api.openalex.org/works?search=test`, with User-Agent `mcp-openalex`.
   */
  lemma PlainParamUrl(endpoint: string, k: string, v: string)
    requires forall i | 0 <= i < |k| :: Unreserved(k[i])
    requires forall i | 0 <= i < |v| :: Unreserved(v[i])
    ensures var r := RequestFor(endpoint, [(k, PStr(v))], Options(None));
      Href(r) == BaseUrl() + endpoint + "?" + k + "=" + v && r.userAgent == "mcp-openalex"
  {
    var r := RequestFor(endpoint, [(k, PStr(v))], Options(None));
    ParamPairsOne(k, PStr(v));
    assert r.query == [(k, v)];
    EncodeUnreserved(k);
    EncodeUnreserved(v);
    OnePairUrl(endpoint, k, v, r.userAgent);
  }

  lemma EncodeAt()
    ensures Encode("@") == "%40"
  {
    assert Utf8('@') == [0x40];
  }

  /** In an address whose two halves need no escaping, only the `@` is escaped, as `%40`. */
  lemma EncodeAddress(user: string, host: string)
    requires forall i | 0 <= i < |user| :: Unreserved(user[i])
    requires forall i | 0 <= i < |host| :: Unreserved(host[i])
    ensures Encode(user + "@" + host) == user + "%40" + host
  {
    EncodeUnreserved(user);
    EncodeUnreserved(host);
    EncodeAt();
    EncodeAppend(user, "@");
    EncodeAppend(user + "@", host);
  }

  lemma EncodeMailto()
    ensures Encode("mailto") == "mailto"
  {
    EncodeUnreserved("mailto");
  }

  /**
   * With only a mailto option the URL holds one `mailto` pair carrying the
   * encoded address, and the User-Agent names the address. Together with
   * `EncodeAddress`: with `test@example.com` the URL ends
   * `?mailto=test%40example.com` and the User-Agent is
   * `mcp-openalex (test@example.com)`.
   */
  lemma MailtoUrl(endpoint: string, address: string)
    requires address != ""
    ensures var r := RequestFor(endpoint, [], Options(Some(address)));
      Href(r) == BaseUrl() + endpoint + "?mailto=" + Encode(address)
      && r.userAgent == "mcp-openalex (" + address + ")"
  {
    var r := RequestFor(endpoint, [], Options(Some(address)));
    assert r.query == [("mailto", address)];
    OnePairUrl(endpoint, "mailto", address, r.userAgent);
    EncodeMailto();
    MailtoJoin(BaseUrl() + endpoint, Encode("mailto"), Encode(address));
  }

  lemma MailtoJoin(a: string, m: string, e: string)
    requires m == "mailto"
    ensures a + "?" + m + "=" + e == a + "?mailto=" + e
  {
    assert "?" + m + "=" == "?mailto=";
  }

  // ------------------------------------------------------ classification

  /** A response that is ok gives back its parsed body unchanged, and only such a response does. */
  lemma OkPassesBodyThrough(outcome: HttpOutcome, data: Json)
    ensures Classify(outcome) == Ok(data) <==>
      outcome.Responded? && IsOk(outcome.response) && outcome.response.json == Ok(data)
  {
  }

  /** A response that is not ok becomes an error with its status and its body text. */
  lemma HttpFailureKeepsStatus(r: Response, body: string)
    requires !IsOk(r) && r.text == Ok(body)
    ensures Classify(Responded(r)) == Err(OpenAlexError(
      "OpenAlex API error: " + IntToString(r.status) + " " + r.statusText, Some(r.status), Some(body)))
  {
  }

  /** Whether the call, or reading the response, threw an OpenAlexError of its own. */
  predicate ThrowsOpenAlex(outcome: HttpOutcome)
  {
    match outcome
    case Rejected(t) => t.ThrownOpenAlex?
    case Responded(r) => if !IsOk(r) then r.text.Err? && r.text.error.ThrownOpenAlex? else r.json.Err? && r.json.error.ThrownOpenAlex?
  }

  /**
   * Every other failure (a network rejection, a body that cannot be read or
   * parsed) yields an error with neither status code nor body, whose message
   * says that the fetch failed; only an HTTP failure sets a status code.
   */
  lemma OtherFailuresCarryNoStatus(outcome: HttpOutcome)
    requires Classify(outcome).Err? && !ThrowsOpenAlex(outcome)
    ensures var e := Classify(outcome).error;
      && (e.statusCode.Some? <==> outcome.Responded? && !IsOk(outcome.response) && outcome.response.text.Ok?)
      && (e.statusCode.Some? <==> e.response.Some?)
      && (e.statusCode.None? ==> "Failed to fetch from OpenAlex: " <= e.message)
  {
  }

  /** The catch never wraps an OpenAlexError a second time. */
  lemma CatchRethrows(t: Thrown)
    ensures Catch(ThrownOpenAlex(Catch(t))) == Catch(t)
    ensures t.ThrownOpenAlex? ==> Catch(t) == t.error
  {
  }

  /** The 404 of the HTTP-error test: `OpenAlex API error: 404 Not Found`, with status and body kept. */
  lemma NotFoundTest()
    ensures Classify(Responded(Response(404, "Not Found", Ok("Resource not found"), Err(ThrownOther))))
      == Err(OpenAlexError("OpenAlex API error: 404 Not Found", Some(404), Some("Resource not found")))
  {
    assert IntToString(404) == "404";
    assert "OpenAlex API error: " + "404" + " " + "Not Found" == "OpenAlex API error: 404 Not Found";
  }

  /** The network-error test: a rejection with `Error('Network error')`. */
  lemma NetworkErrorTest()
    ensures Classify(Rejected(ThrownError("Network error")))
      == Err(OpenAlexError("Failed to fetch from OpenAlex: Network error", None, None))
  {
    assert "Failed to fetch from OpenAlex: " + "Network error" == "Failed to fetch from OpenAlex: Network error";
  }

  // ------------------------------------------------------------ MetaSchema

  function MetaFields(): Fields
  {
    Field("count", SNumber,
    Field("db_response_time_ms", SNumber,
    Field("page", SNullable(SNumber),
    Field("per_page", SNumber,
    Field("groups_count", SOptional(SNullable(SNumber)),
    End)))))
  }

  /** The parsed `meta`; `groupsCount` is None both when null and when absent. */
  datatype Meta = Meta(count: int, dbResponseTimeMs: int, page: Option<int>, perPage: int, groupsCount: Option<int>)

  function ExtractMeta(ms: seq<Member>): Meta
    requires Conforms(MetaFields(), ms)
  {
    var fs := MetaFields();
    var g := Lookup(ms, "groups_count");
    Meta(Types.NumAt(fs, ms, "count"), Types.NumAt(fs, ms, "db_response_time_ms"),
      Types.NullableNumAt(fs, ms, "page"), Types.NumAt(fs, ms, "per_page"),
      if g.Some? && g.value.JNum? then Some(g.value.n) else None)
  }

  function DecodeMeta(v: Json): (r: Option<Meta>)
    ensures r.Some? <==> Accepts(SObject(MetaFields()), Some(v))
    ensures r.Some? ==> Lookup(v.members, "count") == Some(JNum(r.value.count))
    ensures r.Some? ==> Lookup(v.members, "per_page") == Some(JNum(r.value.perPage))
    ensures r.Some? ==> Lookup(v.members, "page") == Some(if r.value.page.Some? then JNum(r.value.page.value) else JNull)
    ensures r.Some? ==>
      var g := Lookup(v.members, "groups_count");
      if r.value.groupsCount.Some? then g == Some(JNum(r.value.groupsCount.value)) else g == None || g == Some(JNull)
  {
    if v.JObj? && Conforms(MetaFields(), v.members) then
      FieldAt(MetaFields(), v.members, "groups_count");
      Some(ExtractMeta(v.members))
    else None
  }

  predicate IsNum(v: Option<Json>)
  {
    v.Some? && v.value.JNum?
  }

  /**
   * A meta object conforms exactly when count, db_response_time_ms and
   * per_page are numbers, page is present and a number or null, and
   * groups_count is absent, null or a number.
   */
  lemma MetaRule(ms: seq<Member>)
    ensures Conforms(MetaFields(), ms) <==>
      && IsNum(Lookup(ms, "count")) && IsNum(Lookup(ms, "db_response_time_ms")) && IsNum(Lookup(ms, "per_page"))
      && (Lookup(ms, "page") == Some(JNull) || IsNum(Lookup(ms, "page")))
      && (Lookup(ms, "groups_count") in {None, Some(JNull)} || IsNum(Lookup(ms, "groups_count")))
  {
    var g := Lookup(ms, "groups_count");
    assert Accepts(SOptional(SNullable(SNumber)), g) <==> g in {None, Some(JNull)} || IsNum(g);
    assert Conforms(MetaFields(), ms) <==>
      && Accepts(SNumber, Lookup(ms, "count")) && Accepts(SNumber, Lookup(ms, "db_response_time_ms"))
      && Accepts(SNullable(SNumber), Lookup(ms, "page")) && Accepts(SNumber, Lookup(ms, "per_page"))
      && Accepts(SOptional(SNullable(SNumber)), g);
  }

  /** `page` may be null but not missing; `groups_count` may be both. */
  lemma MetaPageNullableGroupsOptional(ms: seq<Member>)
    requires Conforms(MetaFields(), ms)
    ensures Conforms(MetaFields(), Set(ms, "page", JNull))
    ensures !Conforms(MetaFields(), Remove(ms, "page"))
    ensures Conforms(MetaFields(), Set(ms, "groups_count", JNull))
    ensures Conforms(MetaFields(), Remove(ms, "groups_count"))
  {
    MetaRule(ms);
    LookupPuts(ms, "page", JNull);
    LookupPuts(ms, "groups_count", JNull);
    LookupRemoves(ms, "page");
    LookupRemoves(ms, "groups_count");
    MetaRule(Set(ms, "page", JNull));
    MetaRule(Remove(ms, "page"));
    MetaRule(Set(ms, "groups_count", JNull));
    MetaRule(Remove(ms, "groups_count"));
  }

  lemma LookupPuts(ms: seq<Member>, k: string, v: Json)
    ensures Lookup(Set(ms, k, v), k) == Some(v)
    ensures forall k' | k' != k :: Lookup(Set(ms, k, v), k') == Lookup(ms, k')
  {
    forall k' ensures Lookup(Set(ms, k, v), k') == if k' == k then Some(v) else Lookup(ms, k') {
      LookupSet(ms, k, v, k');
    }
  }

  lemma LookupRemoves(ms: seq<Member>, k: string)
    ensures Lookup(Remove(ms, k), k) == None
    ensures forall k' | k' != k :: Lookup(Remove(ms, k), k') == Lookup(ms, k')
  {
    forall k' ensures Lookup(Remove(ms, k), k') == if k' == k then None else Lookup(ms, k') {
      LookupRemove(ms, k, k');
    }
  }
}
