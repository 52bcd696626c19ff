/**
 * What the six tools share.
 *
 * Every tool call has the same shape: the arguments are parsed first, and
 * outside the `try` block, so bad arguments throw out of the tool with no
 * request made; then the tool fetches, validates the whole response with
 * zod, and summarises it as text; any failure after parsing becomes an
 * `isError` result whose text is the tool's prefix and the error message.
 *
 * Also here: the two argument schemas and their defaults, the
 * normalisation of an OpenAlex id given as a URL, the `{ meta, results,
 * group_by }` list response, and the markdown lines the two `get_*` tools
 * build their text from.
 */
module Tools {
  import opened Wrappers
  import opened Json
  import opened Schema
  import opened Text
  import opened Client

  // ------------------------------------------------------------ arguments

  /** A mailto argument passes `z.string().email().optional()`: absent, or a string the email check accepts. */
  predicate EmailOk(v: Option<Json>, isEmail: string -> bool)
  {
    v.None? || (v.value.JStr? && isEmail(v.value.s))
  }

  /** The string an optional string argument holds, if any. */
  function OptStr(v: Option<Json>): Option<string>
  {
    if v.Some? && v.value.JStr? then Some(v.value.s) else None
  }

  /** `GetWorkSchema` and `GetAuthorSchema`, with the email check left to `EmailOk`. */
  function GetInputFields(): Fields
  {
    Field("id", SString,
    Field("mailto", SOptional(SString),
    End))
  }

  datatype GetInput = GetInput(id: string, mailto: Option<string>)

  /** `GetWorkSchema.parse(args)`: the id and optional mailto, or None where zod throws. */
  function ParseGetInput(args: Option<Json>, isEmail: string -> bool): (r: Option<GetInput>)
    ensures r.Some? <==> Accepts(SObject(GetInputFields()), args) && EmailOk(Get(args, "mailto"), isEmail)
    ensures r.Some? ==> Get(args, "id") == Some(JStr(r.value.id))
    ensures r.Some? ==> match r.value.mailto
      case None => Get(args, "mailto") == None
      case Some(m) => Get(args, "mailto") == Some(JStr(m)) && isEmail(m)
  {
    if args.Some? && args.value.JObj? then
      var ms := args.value.members;
      var id, mailto := Lookup(ms, "id"), Lookup(ms, "mailto");
      if id.Some? && id.value.JStr? && EmailOk(mailto, isEmail) then
        Some(GetInput(id.value.s, OptStr(mailto)))
      else None
    else None
  }

  /** `Search*Schema`: three optional strings, two optional numbers and an optional email. */
  function SearchInputFields(): Fields
  {
    Field("search", SOptional(SString),
    Field("filter", SOptional(SString),
    Field("sort", SOptional(SString),
    Field("page", SOptional(SNumber),
    Field("per_page", SOptional(SNumber),
    Field("mailto", SOptional(SString),
    End))))))
  }

  datatype SearchInput = SearchInput(
    search: Option<string>, filter: Option<string>, sort: Option<string>,
    page: int, perPage: int, mailto: Option<string>)

  /** `z.number().optional().default(d)`: the number given, or `d` when the key is absent. */
  function NumOrDefault(v: Option<Json>, d: int): int
  {
    if v.Some? && v.value.JNum? then v.value.n else d
  }

  /** `Search*Schema.parse(args)`: page defaults to 1 and per_page to 25. */
  function ParseSearchInput(args: Option<Json>, isEmail: string -> bool): (r: Option<SearchInput>)
    ensures r.Some? <==> Accepts(SObject(SearchInputFields()), args) && EmailOk(Get(args, "mailto"), isEmail)
  {
    if args.Some? && args.value.JObj? && Conforms(SearchInputFields(), args.value.members)
      && EmailOk(Lookup(args.value.members, "mailto"), isEmail)
    then
      var ms := args.value.members;
      Some(SearchInput(OptStr(Lookup(ms, "search")), OptStr(Lookup(ms, "filter")), OptStr(Lookup(ms, "sort")),
        NumOrDefault(Lookup(ms, "page"), 1), NumOrDefault(Lookup(ms, "per_page"), 25),
        OptStr(Lookup(ms, "mailto"))))
    else None
  }

  /**
   * A parsed search has the page and per_page given, or 1 and 25 when they
   * are absent, and the strings given.
   */
  lemma SearchDefaults(args: Option<Json>, isEmail: string -> bool)
    requires ParseSearchInput(args, isEmail).Some?
    ensures var p := ParseSearchInput(args, isEmail).value;
      && (Get(args, "page") == None ==> p.page == 1)
      && (Get(args, "page") != None ==> Get(args, "page") == Some(JNum(p.page)))
      && (Get(args, "per_page") == None ==> p.perPage == 25)
      && (Get(args, "per_page") != None ==> Get(args, "per_page") == Some(JNum(p.perPage)))
      && (p.search.None? <==> Get(args, "search") == None)
      && (p.search.Some? ==> Get(args, "search") == Some(JStr(p.search.value)))
      && (p.mailto.Some? ==> isEmail(p.mailto.value))
  {
    SearchNumbers(args, isEmail);
    SearchStrings(args, isEmail);
  }

  lemma SearchNumbers(args: Option<Json>, isEmail: string -> bool)
    requires ParseSearchInput(args, isEmail).Some?
    ensures var p := ParseSearchInput(args, isEmail).value;
      && (Get(args, "page") == None ==> p.page == 1)
      && (Get(args, "page") != None ==> Get(args, "page") == Some(JNum(p.page)))
      && (Get(args, "per_page") == None ==> p.perPage == 25)
      && (Get(args, "per_page") != None ==> Get(args, "per_page") == Some(JNum(p.perPage)))
  {
    var ms := args.value.members;
    assert Conforms(SearchInputFields(), ms);
    FieldAt(SearchInputFields(), ms, "page");
    FieldAt(SearchInputFields(), ms, "per_page");
  }

  lemma SearchStrings(args: Option<Json>, isEmail: string -> bool)
    requires ParseSearchInput(args, isEmail).Some?
    ensures var p := ParseSearchInput(args, isEmail).value;
      && (p.search.None? <==> Get(args, "search") == None)
      && (p.search.Some? ==> Get(args, "search") == Some(JStr(p.search.value)))
      && (p.mailto.Some? ==> isEmail(p.mailto.value))
  {
  }

  /** No range check: any page and per_page, zero and negative ones included, are accepted as given. */
  lemma NoRangeCheck(page: int, perPage: int, isEmail: string -> bool)
    ensures ParseSearchInput(Some(JObj([Member("page", JNum(page)), Member("per_page", JNum(perPage))])), isEmail)
      == Some(SearchInput(None, None, None, page, perPage, None))
  {
    var ms := [Member("page", JNum(page)), Member("per_page", JNum(perPage))];
    assert ms[..1][..0] == [];
    assert Lookup(ms, "page") == Some(JNum(page));
    assert Lookup(ms, "per_page") == Some(JNum(perPage));
    assert Lookup(ms, "search") == None && Lookup(ms, "filter") == None;
    assert Lookup(ms, "sort") == None && Lookup(ms, "mailto") == None;
    assert Conforms(SearchInputFields(), ms);
  }

  /** Arguments holding only an id parse to that id and no mailto. */
  lemma IdOnlyParses(id: string, isEmail: string -> bool)
    ensures ParseGetInput(Some(JObj([Member("id", JStr(id))])), isEmail) == Some(GetInput(id, None))
  {
    var ms := [Member("id", JStr(id))];
    assert ms[..0] == [];
    assert Lookup(ms, "id") == Some(JStr(id));
    assert Lookup(ms, "mailto") == None;
  }

  /** `z.object` is not strict: a key it does not declare changes nothing. */
  lemma SearchIgnoresUnknownKeys(ms: seq<Member>, k: string, v: Json, isEmail: string -> bool)
    requires SchemasOf(SearchInputFields(), k) == []
    ensures ParseSearchInput(Some(JObj(Set(ms, k, v))), isEmail) == ParseSearchInput(Some(JObj(ms)), isEmail)
  {
    var fs := SearchInputFields();
    forall k' | k' in ["search", "filter", "sort", "page", "per_page", "mailto"]
      ensures Lookup(Set(ms, k, v), k') == Lookup(ms, k')
    {
      LookupSet(ms, k, v, k');
    }
  }

  /** The same for the two `get_*` tools. */
  lemma GetIgnoresUnknownKeys(ms: seq<Member>, k: string, v: Json, isEmail: string -> bool)
    requires k != "id" && k != "mailto"
    ensures ParseGetInput(Some(JObj(Set(ms, k, v))), isEmail) == ParseGetInput(Some(JObj(ms)), isEmail)
  {
    LookupSet(ms, k, v, "id");
    LookupSet(ms, k, v, "mailto");
  }

  /** A null mailto is refused: `.optional()` admits a missing key, not null. */
  lemma NullMailtoThrows(args: Option<Json>, isEmail: string -> bool)
    requires Get(args, "mailto") == Some(JNull)
    ensures ParseGetInput(args, isEmail) == None && ParseSearchInput(args, isEmail) == None
  {
  }

  function StrParam(v: Option<string>): ParamValue
  {
    if v.Some? then PStr(v.value) else PUndefined
  }

  /**
   * The parsed arguments as `fetchFromOpenAlex` iterates them, in the order
   * the schema declares its keys; an absent optional key is `undefined`.
   */
  function Entries(p: SearchInput): seq<(string, ParamValue)>
  {
    [("search", StrParam(p.search)), ("filter", StrParam(p.filter)), ("sort", StrParam(p.sort)),
     ("page", PNum(p.page)), ("per_page", PNum(p.perPage)), ("mailto", StrParam(p.mailto))]
  }

  function OptPair(k: string, v: Option<string>): seq<(string, string)>
  {
    if v.Some? then [(k, v.value)] else []
  }

  lemma ParamPairsOfStr(k: string, v: Option<string>)
    ensures ParamPairs([(k, StrParam(v))]) == OptPair(k, v)
  {
    assert [(k, StrParam(v))][..0] == [];
  }

  lemma ParamPairsOfNum(k: string, n: int)
    ensures ParamPairs([(k, PNum(n))]) == [(k, IntToString(n))]
  {
    assert [(k, PNum(n))][..0] == [];
  }

  /** The params a search sends: the strings given, then page and per_page, then mailto if given. */
  lemma SearchParamPairs(p: SearchInput)
    ensures ParamPairs(Entries(p)) ==
      OptPair("search", p.search) + OptPair("filter", p.filter) + OptPair("sort", p.sort)
      + [("page", IntToString(p.page))] + [("per_page", IntToString(p.perPage))] + OptPair("mailto", p.mailto)
  {
    var e0, e1, e2 := ("search", StrParam(p.search)), ("filter", StrParam(p.filter)), ("sort", StrParam(p.sort));
    var e3, e4, e5 := ("page", PNum(p.page)), ("per_page", PNum(p.perPage)), ("mailto", StrParam(p.mailto));
    assert Entries(p) == [e0] + [e1] + [e2] + [e3] + [e4] + [e5];
    ParamPairsAppend([e0], [e1]);
    ParamPairsAppend([e0] + [e1], [e2]);
    ParamPairsAppend([e0] + [e1] + [e2], [e3]);
    ParamPairsAppend([e0] + [e1] + [e2] + [e3], [e4]);
    ParamPairsAppend([e0] + [e1] + [e2] + [e3] + [e4], [e5]);
    ParamPairsOfStr("search", p.search);
    ParamPairsOfStr("filter", p.filter);
    ParamPairsOfStr("sort", p.sort);
    ParamPairsOfNum("page", p.page);
    ParamPairsOfNum("per_page", p.perPage);
    ParamPairsOfStr("mailto", p.mailto);
  }

  lemma CountNameOne(x: (string, string), k: string)
    ensures CountName([x], k) == if x.0 == k then 1 else 0
  {
    assert [x][..0] == [];
  }

  lemma CountNameOptPair(k: string, v: Option<string>, k': string)
    ensures CountName(OptPair(k, v), k') == if v.Some? && k == k' then 1 else 0
  {
    if v.Some? {
      CountNameOne((k, v.value), k');
    }
  }

  /** How often a name occurs in a search query, piece by piece. */
  lemma SearchQueryCount(endpoint: string, p: SearchInput, k: string)
    ensures CountName(RequestFor(endpoint, Entries(p), Options(p.mailto)).query, k) ==
      CountName(OptPair("search", p.search), k) + CountName(OptPair("filter", p.filter), k)
      + CountName(OptPair("sort", p.sort), k) + CountName([("page", IntToString(p.page))], k)
      + CountName([("per_page", IntToString(p.perPage))], k) + CountName(OptPair("mailto", p.mailto), k)
      + CountName(MailtoPairs(Options(p.mailto)), k)
  {
    SearchParamPairs(p);
    var q0, q1, q2 := OptPair("search", p.search), OptPair("filter", p.filter), OptPair("sort", p.sort);
    var q3, q4 := [("page", IntToString(p.page))], [("per_page", IntToString(p.perPage))];
    var q5, q6 := OptPair("mailto", p.mailto), MailtoPairs(Options(p.mailto));
    CountNameAppend(q0, q1, k);
    CountNameAppend(q0 + q1, q2, k);
    CountNameAppend(q0 + q1 + q2, q3, k);
    CountNameAppend(q0 + q1 + q2 + q3, q4, k);
    CountNameAppend(q0 + q1 + q2 + q3 + q4, q5, k);
    CountNameAppend(q0 + q1 + q2 + q3 + q4 + q5, q6, k);
  }

  lemma MailtoPairsCount(m: Option<string>, k: string)
    ensures CountName(MailtoPairs(Options(m)), k) == if Truthy(m) && k == "mailto" then 1 else 0
  {
    if Truthy(m) {
      CountNameOne(("mailto", m.value), k);
    }
  }

  lemma NameCount(endpoint: string, p: SearchInput, k: string)
    requires k == "page" || k == "per_page" || k == "mailto"
    ensures CountName(RequestFor(endpoint, Entries(p), Options(p.mailto)).query, k) ==
      (if k == "page" || k == "per_page" then 1 else if p.mailto.None? then 0 else if p.mailto.value == "" then 1 else 2)
  {
    SearchQueryCount(endpoint, p, k);
    CountNameOptPair("search", p.search, k);
    CountNameOptPair("filter", p.filter, k);
    CountNameOptPair("sort", p.sort, k);
    CountNameOne(("page", IntToString(p.page)), k);
    CountNameOne(("per_page", IntToString(p.perPage)), k);
    CountNameOptPair("mailto", p.mailto, k);
    MailtoPairsCount(p.mailto, k);
  }

  /**
   * Every search query carries exactly one page and one per_page pair, with
   * the values parsed (or defaulted); a mailto given in the arguments is
   * sent twice, once as a param and once from the options.
   */
  lemma SearchQueryCounts(endpoint: string, p: SearchInput)
    ensures var q := RequestFor(endpoint, Entries(p), Options(p.mailto)).query;
      && CountName(q, "page") == 1 && ("page", IntToString(p.page)) in q
      && CountName(q, "per_page") == 1 && ("per_page", IntToString(p.perPage)) in q
      && CountName(q, "mailto") == (if p.mailto.None? then 0 else if p.mailto.value == "" then 1 else 2)
  {
    NameCount(endpoint, p, "page");
    NameCount(endpoint, p, "per_page");
    NameCount(endpoint, p, "mailto");
    SearchParamPairs(p);
    var q := RequestFor(endpoint, Entries(p), Options(p.mailto)).query;
    var a := OptPair("search", p.search) + OptPair("filter", p.filter) + OptPair("sort", p.sort);
    assert q[|a|] == ("page", IntToString(p.page));
    assert q[|a| + 1] == ("per_page", IntToString(p.perPage));
  }

  // ------------------------------------------------------------------- ids

  function OpenAlexPrefix(): string
  {
    "https://openalex.org/"
  }

  /** `s.split('/').pop()`: the text after the last `/`, or all of `s` when it has none. */
  function LastSegment(s: string): (r: string)
    ensures |r| <= |s| && r == s[|s| - |r|..]
    ensures forall i | 0 <= i < |r| :: r[i] != '/'
    ensures |r| < |s| ==> s[|s| - |r| - 1] == '/'
  {
    if |s| == 0 then ""
    else if s[|s| - 1] == '/' then ""
    else LastSegment(s[..|s| - 1]) + [s[|s| - 1]]
  }

  /** The id the `get_*` tools fetch: a URL-prefixed id is cut to its last path segment, unless that is empty. */
  function NormaliseId(id: string): string
  {
    if OpenAlexPrefix() <= id && LastSegment(id) != "" then LastSegment(id) else id
  }

  /** The statements of the `get_*` tools that cut a URL-prefixed id down to its last segment. */
  method CutId(id: string) returns (r: string)
    ensures r == NormaliseId(id)
  {
    r := id;
    if OpenAlexPrefix() <= id {
      var last := LastSegment(id);
      if last != "" {
        r := last;
      }
    }
  }

  /** A text without `/` does not start with the prefix, which has one. */
  lemma NoSlashNoPrefix(x: string)
    requires forall i | 0 <= i < |x| :: x[i] != '/'
    ensures !(OpenAlexPrefix() <= x)
  {
    assert OpenAlexPrefix()[6] == '/';
  }

  /**
   * An id without the prefix is used unchanged; one with the prefix becomes
   * the text after its last `/`, or stays whole when that text is empty
   * (a trailing slash). What is cut out has no `/` left in it.
   */
  lemma NormaliseIdRule(id: string)
    ensures !(OpenAlexPrefix() <= id) ==> NormaliseId(id) == id
    ensures OpenAlexPrefix() <= id && id[|id| - 1] == '/' ==> NormaliseId(id) == id
    ensures OpenAlexPrefix() <= id && id[|id| - 1] != '/' ==>
      var r := NormaliseId(id);
      && r != "" && |r| < |id| && id == id[..|id| - |r|] + r && id[|id| - |r| - 1] == '/'
      && forall i | 0 <= i < |r| :: r[i] != '/'
  {
    if OpenAlexPrefix() <= id && id[|id| - 1] != '/' {
      var r := LastSegment(id);
      assert r == LastSegment(id[..|id| - 1]) + [id[|id| - 1]];
      assert id[20] == '/';
      assert |r| < |id|;
    }
  }

  /** Normalising twice is normalising once. */
  lemma NormaliseIdIdempotent(id: string)
    ensures NormaliseId(NormaliseId(id)) == NormaliseId(id)
  {
    if OpenAlexPrefix() <= id && LastSegment(id) != "" {
      NoSlashNoPrefix(LastSegment(id));
    }
  }

  lemma {:induction false} LastSegmentAfterSlash(a: string, x: string)
    requires |a| > 0 && a[|a| - 1] == '/'
    requires forall i | 0 <= i < |x| :: x[i] != '/'
    ensures LastSegment(a + x) == x
    decreases |x|
  {
    if |x| == 0 {
      assert a + x == a;
    } else {
      var s := a + x;
      assert s[..|s| - 1] == a + x[..|x| - 1];
      LastSegmentAfterSlash(a, x[..|x| - 1]);
      assert x == x[..|x| - 1] + [x[|x| - 1]];
    }
  }

  /** `W123` and `https://openalex.org/W123` name the same entity. */
  lemma NormaliseIdOfUrl(x: string)
    requires x != "" && forall i | 0 <= i < |x| :: x[i] != '/'
    ensures NormaliseId(OpenAlexPrefix() + x) == x
    ensures NormaliseId(x) == x
  {
    LastSegmentAfterSlash(OpenAlexPrefix(), x);
    NoSlashNoPrefix(x);
  }

  // -------------------------------------------------------- list responses

  /** `z.object({ meta: MetaSchema, results: z.array(item), group_by: z.array(z.unknown()).optional() })` */
  function ResponseFields(item: Schema): Fields
  {
    Field("meta", SObject(MetaFields()),
    Field("results", SArray(item),
    Field("group_by", SOptional(SArray(SUnknown)),
    End)))
  }

  datatype Page<T> = Page(meta: Meta, results: seq<T>)

  /** Decoding every element, or None as soon as one fails. */
  function DecodeAll<T>(items: seq<Json>, decode: Json -> Option<T>): (r: Option<seq<T>>)
    ensures r.Some? <==> forall i | 0 <= i < |items| :: decode(items[i]).Some?
    ensures r.Some? ==> |r.value| == |items| && forall i | 0 <= i < |items| :: decode(items[i]) == Some(r.value[i])
  {
    if |items| == 0 then Some([])
    else
      match decode(items[0])
      case None => None
      case Some(x) =>
        match DecodeAll(items[1..], decode)
        case None => None
        case Some(xs) => Some([x] + xs)
  }

  /** `*ResponseSchema.parse(response)`, the results decoded with `decode`. */
  function DecodeResponse<T>(v: Json, decode: Json -> Option<T>): Option<Page<T>>
  {
    if !v.JObj? then None
    else
      var meta, results, groupBy := Lookup(v.members, "meta"), Lookup(v.members, "results"), Lookup(v.members, "group_by");
      if meta.None? || DecodeMeta(meta.value).None? then None
      else if results.None? || !results.value.JArr? then None
      else if groupBy.Some? && !groupBy.value.JArr? then None
      else
        match DecodeAll(results.value.items, decode)
        case None => None
        case Some(rs) => Some(Page(DecodeMeta(meta.value).value, rs))
  }

  /**
   * Where `decode` decodes exactly what the item schema accepts, the list
   * decodes exactly what the response schema accepts.
   */
  lemma ResponseParses<T>(v: Json, item: Schema, decode: Json -> Option<T>)
    requires forall x :: decode(x).Some? <==> Accepts(item, Some(x))
    ensures DecodeResponse(v, decode).Some? <==> Accepts(SObject(ResponseFields(item)), Some(v))
  {
    if v.JObj? {
      var results := Lookup(v.members, "results");
      if results.Some? && results.value.JArr? {
        DecodeAllAccepts(results.value.items, item, decode);
      }
      ResponseAccepts(v, item, decode);
    }
  }

  lemma ResponseAccepts<T>(v: Json, item: Schema, decode: Json -> Option<T>)
    requires v.JObj?
    requires var results := Lookup(v.members, "results");
      results.Some? && results.value.JArr? ==>
        (DecodeAll(results.value.items, decode).Some? <==> Accepts(SArray(item), results))
    ensures DecodeResponse(v, decode).Some? <==> Accepts(SObject(ResponseFields(item)), Some(v))
  {
    var ms := v.members;
    var meta, results, groupBy := Lookup(ms, "meta"), Lookup(ms, "results"), Lookup(ms, "group_by");
    DecodeResponseSome(v, decode);
    ResponseConforms(item, ms);
    GroupByAccepts(groupBy);
    assert Accepts(SObject(ResponseFields(item)), Some(v)) == Conforms(ResponseFields(item), ms);
    assert Accepts(SArray(item), results) ==> results.Some? && results.value.JArr?;
  }

  /** The list decodes when the meta decodes, results is an array whose items all decode, and group_by is absent or an array. */
  lemma DecodeResponseSome<T>(v: Json, decode: Json -> Option<T>)
    requires v.JObj?
    ensures var meta, results, groupBy := Lookup(v.members, "meta"), Lookup(v.members, "results"), Lookup(v.members, "group_by");
      DecodeResponse(v, decode).Some? <==>
        && Accepts(SObject(MetaFields()), meta)
        && results.Some? && results.value.JArr? && DecodeAll(results.value.items, decode).Some?
        && (groupBy.None? || groupBy.value.JArr?)
  {
    var meta := Lookup(v.members, "meta");
    assert (meta.Some? && DecodeMeta(meta.value).Some?) == Accepts(SObject(MetaFields()), meta);
  }

  lemma ResponseConforms(item: Schema, ms: seq<Member>)
    ensures Conforms(ResponseFields(item), ms) <==>
      Accepts(SObject(MetaFields()), Lookup(ms, "meta")) && Accepts(SArray(item), Lookup(ms, "results"))
      && Accepts(SOptional(SArray(SUnknown)), Lookup(ms, "group_by"))
  {
    var g := Field("group_by", SOptional(SArray(SUnknown)), End);
    var r := Field("results", SArray(item), g);
    assert ResponseFields(item) == Field("meta", SObject(MetaFields()), r);
    assert Conforms(g, ms) == Accepts(SOptional(SArray(SUnknown)), Lookup(ms, "group_by"));
    assert Conforms(r, ms) == (Accepts(SArray(item), Lookup(ms, "results")) && Conforms(g, ms));
  }

  /** `z.array(z.unknown()).optional()` admits a missing key and any array. */
  lemma GroupByAccepts(v: Option<Json>)
    ensures Accepts(SOptional(SArray(SUnknown)), v) <==> v.None? || v.value.JArr?
  {
  }

  lemma DecodeAllAccepts<T>(items: seq<Json>, item: Schema, decode: Json -> Option<T>)
    requires forall x :: decode(x).Some? <==> Accepts(item, Some(x))
    ensures DecodeAll(items, decode).Some? <==> Accepts(SArray(item), Some(JArr(items)))
  {
    assert (forall i | 0 <= i < |items| :: decode(items[i]).Some?) <==> (forall x | x in items :: Accepts(item, Some(x)));
  }

  /** One result that does not decode rejects the whole response. */
  lemma OneBadResultRejects<T>(v: Json, decode: Json -> Option<T>, i: nat)
    requires v.JObj? && Lookup(v.members, "results").Some? && Lookup(v.members, "results").value.JArr?
    requires i < |Lookup(v.members, "results").value.items|
    requires decode(Lookup(v.members, "results").value.items[i]).None?
    ensures DecodeResponse(v, decode) == None
  {
  }

  /** What a decoded list holds: the results in the order of the response. */
  lemma ResponseHoldsResults<T>(v: Json, decode: Json -> Option<T>)
    requires DecodeResponse(v, decode).Some?
    ensures var page := DecodeResponse(v, decode).value;
      var items := Lookup(v.members, "results").value.items;
      && Some(page.meta) == DecodeMeta(Lookup(v.members, "meta").value)
      && |page.results| == |items|
      && forall i | 0 <= i < |items| :: decode(items[i]) == Some(page.results[i])
  {
  }

  // ----------------------------------------------------------- tool results

  /** What the `catch` block sees: the fetch's `OpenAlexError`, or a `ZodError` from validation. */
  datatype Cause = FetchFailed(error: OpenAlexError) | Invalid

  /** `{ content: [{ type: 'text', text }] }`, or the same with `isError: true`. */
  datatype ToolResult = Reply(text: string) | Failure(prefix: string, cause: Cause)

  /** A call either throws while parsing its arguments, or issues a request and returns a result. */
  datatype ToolOutcome = Threw | Ran(request: Request, result: ToolResult)

  /** The text of an error result, where the message is known (a ZodError's message is not modelled). */
  function ErrorText(r: ToolResult): Option<string>
  {
    if r.Failure? && r.cause.FetchFailed? then Some(r.prefix + r.cause.error.message) else None
  }

  /** The `try` block after the fetch: validate with `decode`, then summarise; failures take the prefix. */
  function Handle<T>(prefix: string, fetched: Result<Json, OpenAlexError>, decode: Json -> Option<T>, summarise: T -> string): ToolResult
  {
    match fetched
    case Err(e) => Failure(prefix, FetchFailed(e))
    case Ok(body) =>
      match decode(body)
      case None => Failure(prefix, Invalid)
      case Some(x) => Reply(summarise(x))
  }

  /** The three ways the `try` block ends: a fetch failure, a validation failure, or the summary. */
  lemma HandleCases<T>(prefix: string, fetched: Result<Json, OpenAlexError>, decode: Json -> Option<T>, summarise: T -> string)
    ensures fetched.Err? ==> Handle(prefix, fetched, decode, summarise) == Failure(prefix, FetchFailed(fetched.error))
    ensures fetched.Ok? && decode(fetched.value).None? ==> Handle(prefix, fetched, decode, summarise) == Failure(prefix, Invalid)
    ensures fetched.Ok? && decode(fetched.value).Some? ==>
      Handle(prefix, fetched, decode, summarise) == Reply(summarise(decode(fetched.value).value))
  {
  }

  /** A request with no params carries at most the mailto pair. */
  lemma OnlyMailto(path: string, mailto: Option<string>)
    ensures var q := RequestFor(path, [], Options(mailto)).query;
      |q| <= 1 && CountName(q, "mailto") == |q|
  {
    assert ParamPairs([]) == [];
    var q := RequestFor(path, [], Options(mailto)).query;
    assert q == MailtoPairs(Options(mailto));
    if Truthy(mailto) {
      assert q[..0] == [];
    }
  }

  /**
   * After the fetch: a failed fetch is an error result carrying its message
   * after the prefix, a body that does not validate is an error result, and
   * only a valid body is summarised.
   */
  lemma HandleSteps<T>(prefix: string, fetched: Result<Json, OpenAlexError>, decode: Json -> Option<T>, summarise: T -> string)
    ensures var r := Handle(prefix, fetched, decode, summarise);
      && (r.Failure? ==> r.prefix == prefix)
      && (fetched.Err? <==> r.Failure? && r.cause.FetchFailed?)
      && (fetched.Err? ==> ErrorText(r) == Some(prefix + fetched.error.message))
      && (r.Reply? <==> fetched.Ok? && decode(fetched.value).Some?)
      && (r.Reply? ==> r.text == summarise(decode(fetched.value).value))
  {
  }

  /** A `search_*` tool: parse, fetch `endpoint` with every parsed argument as a param, validate the list, summarise. */
  function SearchTool<T>(endpoint: string, prefix: string, args: Option<Json>, isEmail: string -> bool,
                         outcome: HttpOutcome, decode: Json -> Option<T>, summarise: Page<T> -> string): ToolOutcome
  {
    match ParseSearchInput(args, isEmail)
    case None => Threw
    case Some(p) =>
      Ran(RequestFor(endpoint, Entries(p), Options(p.mailto)),
        Handle(prefix, Classify(outcome), v => DecodeResponse(v, decode), summarise))
  }

  /**
   * The composition of a search: it throws exactly when the arguments do
   * not parse; otherwise it requests `endpoint` with the parsed params and
   * mailto, replies with the summary of the whole validated list, and turns
   * every later failure into an error result with the tool's prefix and,
   * for a fetch failure, the `OpenAlexError`'s message.
   */
  lemma SearchToolSteps<T>(endpoint: string, prefix: string, args: Option<Json>, isEmail: string -> bool,
                           outcome: HttpOutcome, decode: Json -> Option<T>, summarise: Page<T> -> string)
    ensures var o := SearchTool(endpoint, prefix, args, isEmail, outcome, decode, summarise);
      && (o.Threw? <==> ParseSearchInput(args, isEmail).None?)
      && (o.Ran? ==> var p := ParseSearchInput(args, isEmail).value;
           && o.request.path == endpoint
           && o.request.query == ParamPairs(Entries(p)) + MailtoPairs(Options(p.mailto))
           && (o.result.Failure? ==> o.result.prefix == prefix)
           && (Classify(outcome).Err? <==> o.result.Failure? && o.result.cause.FetchFailed?)
           && (Classify(outcome).Err? ==> ErrorText(o.result) == Some(prefix + Classify(outcome).error.message))
           && (o.result.Reply? <==> Classify(outcome).Ok? && DecodeResponse(Classify(outcome).value, decode).Some?)
           && (o.result.Reply? ==> o.result.text == summarise(DecodeResponse(Classify(outcome).value, decode).value)))
  {
  }

  /**
   * Where `decode` decodes exactly what the item schema accepts, a `search_*`
   * tool that got past parsing replies with a summary exactly when the
   * fetch succeeded and the body conforms to the list response schema.
   */
  lemma SearchToolAccepts<T>(endpoint: string, prefix: string, args: Option<Json>, isEmail: string -> bool,
                             outcome: HttpOutcome, item: Schema, decode: Json -> Option<T>, summarise: Page<T> -> string)
    requires forall x :: decode(x).Some? <==> Accepts(item, Some(x))
    ensures var o := SearchTool(endpoint, prefix, args, isEmail, outcome, decode, summarise);
      o.Ran? ==> (o.result.Reply? <==>
        Classify(outcome).Ok? && Accepts(SObject(ResponseFields(item)), Some(Classify(outcome).value)))
  {
    SearchToolSteps(endpoint, prefix, args, isEmail, outcome, decode, summarise);
    if Classify(outcome).Ok? {
      ResponseParses(Classify(outcome).value, item, decode);
    }
  }

  /**
   * A `search_*` tool that got past parsing requests `endpoint` with page
   * and per_page sent once each, and mailto sent twice when it is truthy:
   * once among the params and once more from the client's options.
   */
  lemma SearchToolRequest<T>(endpoint: string, prefix: string, args: Option<Json>, isEmail: string -> bool,
                             outcome: HttpOutcome, decode: Json -> Option<T>, summarise: Page<T> -> string)
    ensures var o := SearchTool(endpoint, prefix, args, isEmail, outcome, decode, summarise);
      o.Ran? ==> var p := ParseSearchInput(args, isEmail).value;
        && o.request.path == endpoint
        && CountName(o.request.query, "page") == 1 && CountName(o.request.query, "per_page") == 1
        && (Truthy(p.mailto) ==> CountName(o.request.query, "mailto") == 2)
  {
    SearchToolSteps(endpoint, prefix, args, isEmail, outcome, decode, summarise);
    if ParseSearchInput(args, isEmail).Some? {
      SearchQueryCounts(endpoint, ParseSearchInput(args, isEmail).value);
    }
  }

  /** `${v ? `<lead>${v}` : ''}`: the labelled value, only when it is truthy. */
  function Segment(lead: string, v: Option<string>): (r: string)
    ensures r == "" <==> !Truthy(v)
  {
    if Truthy(v) then lead + v.value else ""
  }

  /** `Found ${meta.count} <noun> (showing ${results.length} results):` and a blank line. */
  function Header(noun: string, count: int, shown: int): string
  {
    "Found " + IntToString(count) + " " + noun + " (showing " + IntToString(shown) + " results):\n\n"
  }

  /** `xs.map(f)`: one element per element of `xs`, `f` of it, in order. */
  function MapEach<T, U>(xs: seq<T>, f: T -> U): (r: seq<U>)
    ensures |r| == |xs| && forall i | 0 <= i < |xs| :: r[i] == f(xs[i])
  {
    seq(|xs|, i requires 0 <= i < |xs| => f(xs[i]))
  }

  /** `results.map((x, i) => item(x, i + 1))`: one entry per result, numbered from 1 in order. */
  function NumberedItems<T>(xs: seq<T>, item: (T, int) -> string): (r: seq<string>)
    ensures |r| == |xs| && forall i | 0 <= i < |xs| :: r[i] == item(xs[i], i + 1)
  {
    seq(|xs|, i requires 0 <= i < |xs| => item(xs[i], i + 1))
  }

  /** The reply of a `search_*` tool: the header, then one item per result, separated by blank lines. */
  function ListSummary(noun: string, count: int, items: seq<string>): (r: string)
    ensures Header(noun, count, |items|) <= r
  {
    Header(noun, count, |items|) + Join(items, "\n\n")
  }

  // --------------------------------------------------------------- markdown

  /** One line of the text the `get_*` tools build. */
  datatype Line =
    | Title(text: string)                   // "# text"
    | Section(name: string)                 // "## name"
    | Labelled(name: string, value: string)  // "**name:** value"
    | Metric(name: string, value: string)    // "- **name:** value"
    | Numbered(n: int, text: string)        // "n. text"
    | Bullet(text: string)                  // "- text"
    | Bold(text: string)                    // "**text**"
    | More(count: int, what: string)        // "  ...and count more" + what
    | Plain(text: string)
    | Blank

  function Render(l: Line): string
  {
    match l
    case Title(t) => "# " + t
    case Section(n) => "## " + n
    case Labelled(k, v) => "**" + k + ":** " + v
    case Metric(k, v) => "- **" + k + ":** " + v
    case Numbered(n, t) => IntToString(n) + ". " + t
    case Bullet(t) => "- " + t
    case Bold(t) => "**" + t + "**"
    case More(c, w) => "  ...and " + IntToString(c) + " more" + w
    case Plain(t) => t
    case Blank => ""
  }

  /** Strings each followed by a newline, one after the other. */
  function Terminated(xs: seq<string>): string
  {
    if |xs| == 0 then "" else Terminated(xs[..|xs| - 1]) + xs[|xs| - 1] + "\n"
  }

  lemma {:induction false} TerminatedAppend(a: seq<string>, b: seq<string>)
    ensures Terminated(a + b) == Terminated(a) + Terminated(b)
    decreases |b|
  {
    if |b| == 0 {
      assert a + b == a;
    } else {
      var ab := a + b;
      assert ab[..|ab| - 1] == a + b[..|b| - 1];
      TerminatedAppend(a, b[..|b| - 1]);
    }
  }

  function Rendered(ls: seq<Line>): (r: seq<string>)
    ensures |r| == |ls| && forall i | 0 <= i < |ls| :: r[i] == Render(ls[i])
  {
    seq(|ls|, i requires 0 <= i < |ls| => Render(ls[i]))
  }

  /** The text of some lines: each line rendered, then a newline. */
  function Lines(ls: seq<Line>): string
  {
    Terminated(Rendered(ls))
  }

  /** The text of two runs of lines is the text of one, then of the other. */
  lemma LinesAppend(a: seq<Line>, b: seq<Line>)
    ensures Lines(a + b) == Lines(a) + Lines(b)
  {
    assert Rendered(a + b) == Rendered(a) + Rendered(b);
    TerminatedAppend(Rendered(a), Rendered(b));
  }

  /** Adding one line to the text is adding its rendering and a newline. */
  lemma LinesSnoc(a: seq<Line>, l: Line)
    ensures Lines(a + [l]) == Lines(a) + Render(l) + "\n"
  {
    LinesAppend(a, [l]);
    var x := Render(l);
    assert Rendered([l]) == [x];
    assert [x][..0] == [];
    assert Terminated([x]) == Terminated([]) + x + "\n";
  }

  /** Inside a list written between a heading line and a closing line, the `j`-th item sits at `1 + j`. */
  lemma FramedAt(head: Line, items: seq<Line>, more: seq<Line>, tail: Line, j: nat)
    requires j < |items|
    ensures ([head] + items + more + [tail])[1 + j] == items[j]
  {
  }

  /** Inside lines written after a fixed header, the `j`-th item sits right after the header. */
  lemma AfterHeaderAt(head: seq<Line>, items: seq<Line>, tail: seq<Line>, j: nat)
    requires j < |items|
    ensures (head + items + tail)[|head| + j] == items[j]
  {
  }

  /**
   * A `forEach` that writes one line per element writes `MapEach` of the
   * elements: after one more element, the lines written so far gain that
   * element's line.
   */
  lemma MapEachSnoc<T>(w: seq<Line>, xs: seq<T>, line: T -> Line, i: nat)
    requires i < |xs|
    ensures w + MapEach(xs[..i + 1], line) == w + MapEach(xs[..i], line) + [line(xs[i])]
  {
    assert MapEach(xs[..i + 1], line) == MapEach(xs[..i], line) + [line(xs[i])];
  }

  /** A `forEach((x, index) => ...)` that writes one line per element, numbered from 1. */
  function NumberedLines<T>(xs: seq<T>, text: T -> string): (r: seq<Line>)
    ensures |r| == |xs| && forall i | 0 <= i < |xs| :: r[i] == Numbered(i + 1, text(xs[i]))
  {
    seq(|xs|, i requires 0 <= i < |xs| => Numbered(i + 1, text(xs[i])))
  }

  /** After one more element, the numbered lines written so far gain that element's line. */
  lemma NumberedLinesSnoc<T>(w: seq<Line>, xs: seq<T>, text: T -> string, i: nat)
    requires i < |xs|
    ensures w + NumberedLines(xs[..i + 1], text) == w + NumberedLines(xs[..i], text) + [Numbered(i + 1, text(xs[i]))]
  {
    assert NumberedLines(xs[..i + 1], text) == NumberedLines(xs[..i], text) + [Numbered(i + 1, text(xs[i]))];
  }

  /**
   * `responseText += line + '\n'`: the text grows by one rendered line; the
   * lines written so far are kept as ghost state to state what the text is.
   */
  method Emit(text: string, ghost written: seq<Line>, l: Line) returns (text': string, ghost written': seq<Line>)
    requires text == Lines(written)
    ensures written' == written + [l]
    ensures text' == Lines(written')
  {
    text' := text + Render(l) + "\n";
    LinesSnoc(written, l);
    written' := written + [l];
  }

  /** A labelled line only when the value is truthy: `if (v) responseText += ...`. */
  function OptLine(v: Option<string>, name: string): seq<Line>
  {
    if Truthy(v) then [Labelled(name, v.value)] else []
  }

  method EmitOpt(text: string, ghost written: seq<Line>, v: Option<string>, name: string) returns (text': string, ghost written': seq<Line>)
    requires text == Lines(written)
    ensures written' == written + OptLine(v, name) && text' == Lines(written')
  {
    text', written' := text, written;
    if Truthy(v) {
      text', written' := Emit(text, written, Labelled(name, v.value));
    }
  }

  /** `n.toFixed(2)` for an integer `n`. */
  function Fixed2(n: int): string
  {
    IntToString(n) + ".00"
  }
}
