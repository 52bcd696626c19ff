# mcp-openalex in Dafny

A model of the logic of the OpenAlex MCP server: the six tools
(`get_work`, `get_author`, `search_works`, `search_authors`,
`search_institutions`, `search_sources`), the one HTTP helper they all go
through (`fetchFromOpenAlex`) and the zod schemas that decide which replies
of the OpenAlex API are accepted.

Each tool has the same shape, and each of these four steps is a Dafny
member with its own contract:

1. Parse the arguments with the tool's input schema. This happens outside
   the `try`, so bad arguments throw out of the tool (`Threw`).
2. Fetch one URL.
3. Validate the whole reply against the entity schema.
4. Summarise the reply as markdown text. Every failure after step 1 becomes
   an `isError` result whose text is the tool's prefix followed by the error
   message.

Modules:

- `Wrappers`: `Option` and `Result`.
- `Json`: the JSON values a reply can hold, with object members kept in
  order. `Lookup` reads the last member with a key, as property access
  does on an object parsed from text with a repeated key. `Set` appends a
  member, which later lookups see. `Remove` drops every member with a key.
- `Schema`: the zod combinators the sources use (object with extra keys
  stripped, string, number, boolean, array, nullable, optional, unknown,
  record) and the conformance predicate `Accepts`. A nullable field must be
  present. An optional field may be absent but not null.
- `Text`: decimal rendering of integers and its parser, `Join` and `Take`.
- `Query`: `url.searchParams` as the class `SearchParams`, which holds a
  sequence of name/value pairs. Its serialisation follows the
  application/x-www-form-urlencoded serializer of section 5.2 of the WHATWG
  URL Standard: UTF-8 bytes are percent-encoded and a space becomes `+`.
  The module also has the matching parser.
- `Client`: `fetchFromOpenAlex` as a method, the classification of every
  failure into one `OpenAlexError`, and `MetaSchema`.
  - The HTTP exchange is an input value (`HttpOutcome`): either a rejected
    fetch, or a response with `ok`, status, status text, the outcome of
    reading the body as text and the outcome of parsing it as JSON.
- `Types`: the Work, Author, Institution and Source schemas, written with
  the combinators, and a datatype for each. Each has a decoder that succeeds
  exactly when the schema accepts the value.
- `TypeRules`: what those schemas allow and refuse, stated on whole
  decoded entities.
- `Tools`: the shared parts of the tools:
  - input parsing with its defaults;
  - the cut of a URL-prefixed id;
  - the list-response schema;
  - the fixed parse → fetch → validate → summarise composition;
  - the line model of the markdown replies (`Line`, `Lines`) and the
    methods that append to a reply text.
- `GetWork`, `GetAuthor`, `SearchWorks`, `SearchAuthors`,
  `SearchInstitutions`, `SearchSources`: one module per tool.

The two `get_*` tools build their reply by appending to a string, one
`+=` at a time. They are modelled as methods that keep the text equal to
the rendering of a ghost list of lines, and that list equals a function of
the entity. The lemmas about the reply are about that function: which
sections are present, how many items are listed, and which fallbacks are
used. `get_author` sorts each listed affiliation's years in place. That sort
is an in-place method on an array, proved sorted and a permutation. The
year range is read from its two ends.

The search tools pass their whole parsed input to `fetchFromOpenAlex` as
query parameters, `mailto` included, and then pass `mailto` again as the
option. A truthy `mailto` therefore appears twice in the query. An empty
one appears once, because only the option is dropped when the value is
falsy. `page` and `per_page` always appear once, because they have
defaults. `Tools.SearchQueryCounts` states these counts.

## Model

| member | source | states |
|---|---|---|
| `Client.FetchFromOpenAlex` | src/utils/openalex-client.ts:20-65 | The request path is the endpoint. The query is the param pairs followed by the mailto pair. The User-Agent is chosen from mailto. The result is the classification of the HTTP outcome. |
| `Client.ParamPairs` | src/utils/openalex-client.ts:28-32 | At most one pair per entry. Every pair is `(key, String(value))` for an entry whose value is present. Order and falsy values are stated by `ParamPairsOne` and `FetchFromOpenAlex`. |
| `Client.RequestFor` | src/utils/openalex-client.ts:25-42 | The request of a call: the endpoint as path, the param pairs followed by the mailto pair, and the User-Agent. `MailtoAppendedLast` and `UserAgentNamesMailto` state its parts. |
| `Client.Href` | src/utils/openalex-client.ts:25-40 | `url.toString()`: base URL, path, and `?` with the serialised query only when a pair was appended. `OnePairUrl`, `PlainParamUrl` and `MailtoUrl` state its shape, and `QueryReadsBack` states that the query reads back. |
| `Client.Attempt` | src/utils/openalex-client.ts:39-56 | The `try` block: a rejected fetch, a non-ok response (the `OpenAlexError` built from its body text, or the body read failure) or the parsed JSON. `Classify` states what reaches the caller. |
| `Client.Catch` | src/utils/openalex-client.ts:57-64 | An `OpenAlexError` is rethrown as it is. Anything else becomes an error with no status code and no body. For an `Error`, the message is `Failed to fetch from OpenAlex: ` followed by that error's message. For any other thrown value, it is `Failed to fetch from OpenAlex: Unknown error`. |
| `Client.Classify` | src/utils/openalex-client.ts:39-64 | The call yields data exactly when the response is ok and its body parsed, and the data is the parsed body. |
| `Client.ParamPairsOne` | src/utils/openalex-client.ts:28-32 | An entry yields `(key, String(value))` unless its value is undefined or null. Falsy values 0, false and '' are kept. |
| `Client.MailtoAppendedLast` | src/utils/openalex-client.ts:28-37 | The query starts with the param pairs. It has one extra pair exactly when mailto is truthy, and that pair is `("mailto", mailto)` and comes last. |
| `Client.UserAgentNamesMailto` | src/utils/openalex-client.ts:42 | The User-Agent is exactly `mcp-openalex` when mailto is falsy, and otherwise `mcp-openalex (` + mailto + `)`. |
| `Client.QueryReadsBack` | src/utils/openalex-client.ts:25-37 | Parsing the serialised query gives back exactly the pairs appended, in order. |
| `Client.OnePairUrl` | src/utils/openalex-client.ts:3-25 | The URL is the base `https://api.openalex.org`, the endpoint, `?`, then the encoded name and value. |
| `Client.PlainParamUrl` | src/utils/openalex-client.test.ts:19-28 | With one unreserved parameter and no mailto, the URL is `<base><endpoint>?k=v` and the User-Agent is `mcp-openalex`. This is the shape of the first test. |
| `Client.EncodeAddress` | src/utils/openalex-client.test.ts:38-41 | `@` in an address is sent as `%40`. The rest of an unreserved address is unchanged. |
| `Client.MailtoUrl` | src/utils/openalex-client.test.ts:38-47 | With no params and a mailto, the URL ends `?mailto=` + encoded address, and the User-Agent names the address. |
| `Client.OkPassesBodyThrough` | src/utils/openalex-client.ts:55-56 | The call returns data exactly when the response is ok and its body parsed to that data. There is no validation at this layer. |
| `Client.HttpFailureKeepsStatus` | src/utils/openalex-client.ts:46-53 | A non-ok response whose body reads becomes the error `OpenAlex API error: <status> <statusText>`, carrying the status code and the raw body text. |
| `Client.OtherFailuresCarryNoStatus` | src/utils/openalex-client.ts:57-64 | Every other failure carries neither a status code nor a body, and its message starts `Failed to fetch from OpenAlex: `. A status code is present exactly when a body is. |
| `Client.CatchRethrows` | src/utils/openalex-client.ts:57-60 | An `OpenAlexError` passes through the catch unchanged. Catching twice is the same as catching once. |
| `Client.NotFoundTest` | src/utils/openalex-client.test.ts:50-58 | A 404 `Not Found` response with body `Resource not found` gives the matching `OpenAlexError`. |
| `Client.NetworkErrorTest` | src/utils/openalex-client.test.ts:61-64 | A rejected fetch with `Network error` gives `Failed to fetch from OpenAlex: Network error`, with no status and no body. |
| `Client.DecodeMeta` | src/utils/openalex-client.ts:75-81 | Meta decodes exactly when `MetaSchema` accepts the value. The decoded `count` and `per_page` are the numbers under those keys, and `page` is the number or null under `page`. `groupsCount` is the number under `groups_count`, and is None exactly when that key is absent or null. |
| `Client.MetaRule` | src/utils/openalex-client.ts:75-81 | Meta conforms iff `count`, `db_response_time_ms` and `per_page` are numbers, `page` is a number or null, and `groups_count` is absent, null or a number. |
| `Client.MetaPageNullableGroupsOptional` | src/utils/openalex-client.ts:78-80 | Setting `page` to null keeps meta valid, but removing `page` makes it invalid. `groups_count` may be set to null or removed. |
| `Query.SearchParams.constructor` | src/utils/openalex-client.ts:25 | A new URL starts with no search params. |
| `Query.SearchParams.Append` | src/utils/openalex-client.ts:30 | `append` adds one pair after the existing ones. |
| `Query.Utf8RoundTrip` | src/utils/openalex-client.ts:30 | Decoding the UTF-8 bytes of a string gives the string back. |
| `Query.DecodeEncode` | src/utils/openalex-client.ts:30 | Percent-decoding the form encoding of a string gives it back. |
| `Query.EncodeUnreserved` | src/utils/openalex-client.ts:30 | A string of unreserved characters is sent unchanged. |
| `Query.EncodeAvoids` | src/utils/openalex-client.ts:30 | An encoded name or value never contains `&` or `=`. |
| `Query.EncodeAppend` | src/utils/openalex-client.ts:30 | Encoding distributes over concatenation. |
| `Query.ParseSerialize` | src/utils/openalex-client.ts:28-37 | Parsing a serialised pair list gives back the list. |
| `Query.SerializeInjective` | src/utils/openalex-client.ts:28-37 | Two pair lists serialise to the same query string iff they are equal. |
| `Query.Encode` | src/utils/openalex-client.ts:30 | The form encoding of one name or value. `DecodeEncode`, `EncodeUnreserved`, `EncodeAvoids` and `EncodeAppend` state its properties. |
| `Query.Serialize` | src/utils/openalex-client.ts:40 | `name=value` pairs, each side encoded, joined by `&`. `ParseSerialize` and `SerializeInjective` state its properties. |
| `Query.Parse` | src/utils/openalex-client.ts:25 | The form parser a URL applies to its query, the inverse of `Serialize` by `ParseSerialize`. |
| `Text.NatToString` | src/utils/openalex-client.ts:30 | `String(n)` of a natural is a nonempty string of digits, with no leading zero unless n is 0. |
| `Text.IntToStringRoundTrip` | src/utils/openalex-client.ts:30 | Parsing `String(n)` gives n back. |
| `Text.IntToStringInjective` | src/utils/openalex-client.ts:30 | Different integers print differently. |
| `Text.IntToString` | src/utils/openalex-client.ts:30 | `String(n)`: a minus sign for a negative, then the digits of the magnitude. `NatToString`, `IntToStringRoundTrip` and `IntToStringInjective` state its properties. |
| `Text.JoinIsEmpty` | src/tools/search-authors.ts:58-59 | `join` with a nonempty separator is empty iff the list is empty or is one empty string. This is when a `\|\|` fallback applies. |
| `Text.Join` | src/tools/search-authors.ts:58-59 | `join(sep)`: the strings with `sep` between neighbours. `JoinIsEmpty` states when the result is empty. |
| `Text.Take` | src/tools/get-author.ts:59 | `slice(0, n)` has length min(n, length) and is a prefix. |
| `Json.Lookup` | src/types.ts:4-129 | A key is found iff some member has it. The value found is that of a member with the key after which no member has it, so the last one wins. |
| `Json.LookupSet` | src/types.ts:4-129 | After setting a key, that key reads the new value and every other key reads as before. |
| `Json.LookupRemove` | src/types.ts:4-129 | After removing a key it reads as absent, and every other key reads as before. |
| `Schema.ObjectAccepts` | src/types.ts:4-129 | An object schema accepts exactly the objects whose members conform. |
| `Schema.ConformsByKey` | src/types.ts:4-129 | Members conform iff every key's value is admitted by its declared field. Undeclared keys are admitted (stripped). |
| `Schema.FieldRefuses` | src/types.ts:4-129 | One refused declared field makes the whole object refused. |
| `Schema.NullableIsNotOptional` | src/types.ts:18-38 | Nullable accepts null but not absence. Optional accepts absence but not null. Optional-nullable accepts both. |
| `Schema.ArrayRefusesElement` | src/types.ts:108-115 | One refused element makes the whole array refused. |
| `Schema.EditConforms` | src/types.ts:4-129 | Setting or removing one key keeps an object conforming when the field admits the new value. |
| `Schema.ConcatConforms` | src/types.ts:4-129 | Conforming to a field list split in two is conforming to both halves. |
| `Types.DecodeWork` | src/types.ts:4-129 | Decoding succeeds exactly when the members satisfy the Work field groups. |
| `Types.DecodeWorkParses` | src/types.ts:4-129 | A value decodes as a Work iff `WorkSchema` accepts it. |
| `Types.DecodeWorkFields` | src/types.ts:5-119 | A decoded work's id, display name, title, publication year, retraction flag and citation count are the values under `id`, `display_name`, `title`, `publication_year`, `is_retracted` and `cited_by_count`. A None title or year is a null there. |
| `Types.DecodeWorkPages` | src/types.ts:70-75 | A decoded work's first and last page are the strings or nulls under `biblio.first_page` and `biblio.last_page`. |
| `Types.DecodeWorkVenue` | src/types.ts:18-38 | `primary_location.source.display_name` of the object is the decoded source name. It is undefined exactly when the decoded location or its source is None, that is, null in the object. |
| `Types.LocationVenue` | src/types.ts:18-38 | The same for any nullable location field: the name under its nullable `source`. |
| `Types.WorkGroups` | src/types.ts:4-129 | Conforming to `WorkSchema`'s fields is conforming to each of its groups. |
| `Types.DecodeAuthor` | src/types.ts:132-210 | Decoding succeeds exactly when the members satisfy the Author field groups. |
| `Types.DecodeAuthorParses` | src/types.ts:132-210 | A value decodes as an Author iff `AuthorSchema` accepts it. |
| `Types.DecodeAuthorFields` | src/types.ts:133-141 | A decoded author's id, display name, ORCID, works count, citation count and h-index are the values under `id`, `display_name`, `orcid` (string or null), `works_count`, `cited_by_count` and `summary_stats.h_index`. |
| `Types.DecodeInstitution` | src/types.ts:213-310 | Decoding succeeds exactly when the members satisfy the Institution field groups. |
| `Types.DecodeInstitutionParses` | src/types.ts:213-310 | A value decodes as an Institution iff `InstitutionSchema` accepts it. |
| `Types.DecodeInstitutionFields` | src/types.ts:214-225 | A decoded institution's id, ROR, display name, country code, type, homepage, works count and citation count are the values under the keys of those names. A None is a null there. |
| `Types.DecodeInstitutionCity` | src/types.ts:239-249 | `geo.city` of the object is the decoded city, null included. It is undefined exactly when the decoded geo is None. |
| `Types.DecodeSource` | src/types.ts:313-385 | Decoding succeeds exactly when the members satisfy the Source field groups. |
| `Types.DecodeSourceParses` | src/types.ts:313-385 | A value decodes as a Source iff `SourceSchema` accepts it. |
| `Types.DecodeSourceFields` | src/types.ts:314-346 | A decoded source's id, ISSN-L, display name, publisher name, works count, citation count, open-access flag, homepage, APC, country code and type are the values under the keys of those names. A None is a null there. |
| `Types.ObjectAt` | src/types.ts:11-16 | A nested object field of a conforming object conforms to its own schema. |
| `Types.NullableObjectAt` | src/types.ts:18-38 | A nullable nested object is None exactly when the field is null, and otherwise conforms. |
| `TypeRules.WorkRequiresDisplayName` | src/types.ts:8 | A Work without a string `display_name` is refused. |
| `TypeRules.WorkTitleMayBeNull` | src/types.ts:7 | Setting `title` to null keeps a Work valid, and its title is then None. |
| `TypeRules.WorkPrimaryLocationMayBeNull` | src/types.ts:18 | `primary_location` may be null. |
| `TypeRules.WorkPrimaryLocationRequired` | src/types.ts:18 | A Work with no `primary_location` key is refused, so nullable is not optional. |
| `TypeRules.LocationSourceMayBeNull` | src/types.ts:20-28 | A location's `source` may be null. |
| `TypeRules.LocationSourceRequired` | src/types.ts:20-28 | A location without a `source` key is refused. |
| `TypeRules.WorkLocationSourceMayBeNull` | src/types.ts:18-38 | A valid Work whose primary location's source is set to null stays valid, with no source. |
| `TypeRules.WorkIdsRule` | src/types.ts:11-16 | `ids` conforms iff `openalex` is a string and each of `doi`, `pmid` and `pmcid` is absent or a string. |
| `TypeRules.WorkUnknownArraysTakeAnything` | src/types.ts:108-115 | Any array of any JSON values may be put in `mesh`, `locations`, `sustainable_development_goals`, `grants`, `datasets` or `versions`. |
| `TypeRules.WorkBestOaLocationTakesAnything` | src/types.ts:111 | Any value, null included, is accepted as `best_oa_location` and kept as given. |
| `TypeRules.WorkBestOaLocationMayBeMissing` | src/types.ts:111 | `best_oa_location` may also be absent. |
| `TypeRules.WorkCountHasNoRange` | src/types.ts:119 | Any integer, negative included, is accepted as `cited_by_count`. |
| `TypeRules.ScoreHasNoRange` | src/types.ts:81-82 | Any integer, above 1 included, is accepted as a score. |
| `TypeRules.WorkIgnoresUndeclaredKeys` | src/types.ts:4-129 | Adding a key `WorkSchema` does not declare keeps a Work valid. |
| `TypeRules.AuthorAlternativesRequired` | src/types.ts:136 | An Author without `display_name_alternatives` is refused. |
| `TypeRules.AuthorCountHasNoRange` | src/types.ts:137 | Any integer is accepted as `works_count`. |
| `TypeRules.InstitutionAlternativesOptional` | src/types.ts:217-218 | An Institution stays valid with both `display_name_alternatives` and `display_name_acronyms` removed. |
| `TypeRules.InternationalRule` | src/types.ts:250-254 | `international` is null, or an object whose `display_name` is an object with only string values. |
| `TypeRules.InstitutionInternationalMayBeNull` | src/types.ts:250-254 | An Institution stays valid with `international` set to null. |
| `TypeRules.SourceIndexedInDoajOptional` | src/types.ts:330 | A Source stays valid with `is_indexed_in_doaj` removed. |
| `TypeRules.SourceOpenAccessFlagsRequired` | src/types.ts:328-329 | A Source whose `is_oa` or `is_in_doaj` is not a boolean is refused. |
| `Tools.ParseGetInput` | src/tools/get-work.ts:5-11 | The input parses iff it is an object with a string `id` and an absent or valid-email `mailto`. The parsed fields are the given ones. |
| `Tools.ParseSearchInput` | src/tools/search-works.ts:5-12 | The input parses iff it conforms to the search schema and its mailto, if present, is an email. |
| `Tools.SearchDefaults` | src/tools/search-works.ts:9-10 | An absent `page` becomes 1 and an absent `per_page` becomes 25. Given values and strings are kept, and a parsed mailto is an email. |
| `Tools.NoRangeCheck` | src/tools/search-works.ts:9-10 | Any integers, 0 or negative included, are accepted as page and per_page. |
| `Tools.SearchIgnoresUnknownKeys` | src/tools/search-works.ts:5-12 | An undeclared input key changes nothing: it is stripped, not rejected. |
| `Tools.GetIgnoresUnknownKeys` | src/tools/get-work.ts:5-8 | Keys other than `id` and `mailto` change nothing. |
| `Tools.NullMailtoThrows` | src/tools/get-work.ts:7 | A null `mailto` fails both input schemas. |
| `Tools.SearchParamPairs` | src/tools/search-works.ts:24-30 | The params sent are search, filter, sort (when given), page, per_page, then mailto (when given), in schema order. |
| `Tools.SearchQueryCounts` | src/tools/search-works.ts:24-30 | A search query has page and per_page once each. It has mailto 0, 1 or 2 times, for absent, empty and nonempty mailto. |
| `Tools.LastSegment` | src/tools/get-work.ts:17 | `split('/').pop()` is the suffix after the last `/`, and contains no `/`. |
| `Tools.CutId` | src/tools/get-work.ts:15-18 | The statements that cut the id compute `NormaliseId`. |
| `Tools.NormaliseIdRule` | src/tools/get-work.ts:15-18 | An id without the `https://openalex.org/` prefix is kept. A prefixed id ending in `/` is kept. Otherwise the result is the nonempty text after its last `/`. |
| `Tools.NormaliseIdIdempotent` | src/tools/get-work.ts:15-18 | Normalising twice is normalising once. |
| `Tools.NormaliseIdOfUrl` | src/tools/get-work.ts:15-21 | `W123` and `https://openalex.org/W123` both normalise to `W123`. |
| `Tools.DecodeAll` | src/tools/search-works.ts:16 | The results decode iff every element does, and the decoded list matches element by element. |
| `Tools.ResponseParses` | src/tools/search-works.ts:14-18 | A list response decodes iff the response schema accepts it. |
| `Tools.DecodeAllAccepts` | src/tools/search-works.ts:16 | The results decode iff the array schema accepts them. |
| `Tools.OneBadResultRejects` | src/tools/search-works.ts:14-18 | One result that fails its schema rejects the whole response. |
| `Tools.ResponseHoldsResults` | src/tools/search-works.ts:14-18 | A decoded response carries the decoded meta and one decoded result per element, in order. |
| `Tools.DecodeResponse` | src/tools/search-works.ts:14-18 | A list response `{ meta, results }` decoded with the entity decoder. `ResponseParses`, `OneBadResultRejects` and `ResponseHoldsResults` state its properties. |
| `Tools.HandleSteps` | src/tools/search-works.ts:23-75 | A fetch failure becomes `isError` with prefix + message. The reply is a summary exactly when the fetch succeeded and the body decoded. Every failure has the tool's prefix. |
| `Tools.Handle` | src/tools/search-works.ts:32-75 | After the fetch: validate, summarise, or turn the failure into `isError` with the prefix. `HandleSteps` states its cases. |
| `Tools.OnlyMailto` | src/tools/get-work.ts:20-24 | With empty params, the query holds at most one pair, and it is mailto. |
| `Tools.SearchToolSteps` | src/tools/search-works.ts:20-75 | Bad input throws with no fetch. Otherwise the request has the endpoint and the pairs above. Failures, error text and replies are as in `HandleSteps`. |
| `Tools.SearchTool` | src/tools/search-works.ts:20-75 | A search tool: parse the input, fetch the endpoint with the search params, then `Handle`. `SearchToolSteps`, `SearchToolAccepts` and `SearchToolRequest` state its properties. |
| `Tools.SearchToolAccepts` | src/tools/search-works.ts:14-32 | A search reply is a summary iff the fetch succeeded and the response schema accepts the body. |
| `Tools.SearchToolRequest` | src/tools/search-works.ts:24-30 | The request has the endpoint, page and per_page once each, and mailto twice when it is truthy. |
| `Tools.Segment` | src/tools/search-institutions.ts:58-61 | A conditional segment is empty iff its value is falsy. |
| `Tools.ListSummary` | src/tools/search-works.ts:52 | The reply opens with the header that names the count and the number shown. |
| `Tools.Emit` | src/tools/get-work.ts:73-119 | `responseText +=` one line. The text stays the rendering of the lines written. |
| `Tools.EmitOpt` | src/tools/get-work.ts:90-92 | A conditional `+=` writes one line exactly when the value is truthy. |
| `GetWork.AuthorEntries` | src/tools/get-work.ts:29-34 | One entry per authorship, in order. Entry i has authorship i's author name, position and ORCID. Its institutions text is the names of authorship i's institutions, one per institution and in order, joined by `, `. |
| `GetWork.Pages` | src/tools/get-work.ts:51-53 | The pages text of a biblio. `PagesRule` states its cases. |
| `GetWork.Format` | src/tools/get-work.ts:39-71 | `formattedWork`: each field read from the work as the tool lists it. `VenueRule`, `PagesRule` and `AuthorEntries` state the computed ones. |
| `GetWork.WorkLines` | src/tools/get-work.ts:73-119 | The reply as a list of lines, section by section. `RenderWork` proves the `+=` sequence builds it, and `AuthorsListed` to `YearLine` state which lines it holds. |
| `GetWork.VenueRule` | src/tools/get-work.ts:48 | The venue is `Unknown` when the location or source is null. Otherwise it is the source's nonempty name. |
| `GetWork.PagesRule` | src/tools/get-work.ts:51-53 | Pages is null iff `first_page` is null or empty. Otherwise it is `<first>-<last>`, with a null last page as empty. |
| `GetWork.AuthorInstitutionsShown` | src/tools/get-work.ts:32-83 | The institutions part is shown iff the joined names are nonempty. |
| `GetWork.BuildAuthorText` | src/tools/get-work.ts:82-85 | The `+=` steps for one author build its line. |
| `GetWork.EmitHead` | src/tools/get-work.ts:73-80 | Appends the title, the head lines and the Authors heading. |
| `GetWork.EmitAuthors` | src/tools/get-work.ts:81-86 | The `forEach` appends one numbered line per author. |
| `GetWork.EmitDetails` | src/tools/get-work.ts:88-92 | Appends the publication details. |
| `GetWork.EmitOpenAccess` | src/tools/get-work.ts:94-98 | Appends the open-access section. |
| `GetWork.EmitTopic` | src/tools/get-work.ts:100-103 | Appends the primary topic when there is one. |
| `GetWork.EmitKeywords` | src/tools/get-work.ts:105-108 | Appends the keywords when there are any. |
| `GetWork.EmitMetrics` | src/tools/get-work.ts:110-113 | Appends the metrics and the retraction notice. |
| `GetWork.EmitLinks` | src/tools/get-work.ts:115-119 | Appends the links when there is a landing page. |
| `GetWork.RenderWork` | src/tools/get-work.ts:73-119 | The whole `+=` sequence yields the rendering of `WorkLines`. |
| `GetWork.Summarise` | src/tools/get-work.ts:29-119 | `formatWork` then the rendering yields the reply text. |
| `GetWork.AuthorsListed` | src/tools/get-work.ts:80-86 | Author i is line 9 + i of the reply, numbered i + 1. |
| `GetWork.AuthorLinesNumbered` | src/tools/get-work.ts:81-86 | Every author line is a numbered line. |
| `GetWork.InWorkLines` | src/tools/get-work.ts:73-119 | A line is in the reply iff it is in one of its sections. |
| `GetWork.RetractionLine` | src/tools/get-work.ts:113 | The retraction notice appears iff `is_retracted`. |
| `GetWork.LinksSection` | src/tools/get-work.ts:115-116 | The Links section appears iff the landing page URL is truthy. |
| `GetWork.PdfLine` | src/tools/get-work.ts:115-118 | The PDF line appears iff both the landing page and the PDF URL are truthy, and it shows the PDF URL. |
| `GetWork.PagesLine` | src/tools/get-work.ts:92 | The Pages line appears iff pages is truthy, and it shows pages. |
| `GetWork.KeywordsSection` | src/tools/get-work.ts:105-108 | The Keywords section appears iff there are keywords. |
| `GetWork.PrimaryTopicSection` | src/tools/get-work.ts:100-103 | The Primary Topic section appears iff there is a primary topic. |
| `GetWork.YearLine` | src/tools/get-work.ts:75 | The year reads `N/A` when it is null or 0, and otherwise the year. |
| `GetWork.GetWork` | src/tools/get-work.ts:10-140 | The method computes `GetWorkOutcome`. |
| `GetWork.FetchWork` | src/tools/get-work.ts:20-139 | Fetches `/works/<id>` with only the mailto option, then handles the reply with the work prefix. |
| `GetWork.GetWorkSteps` | src/tools/get-work.ts:10-139 | Bad input throws with no fetch. Otherwise the path is `/works/` + normalised id and the query is at most one mailto pair. Failures carry `Error fetching work: `. The reply is a summary iff the body decoded as a Work. |
| `GetWork.UrlIdSameRequest` | src/tools/get-work.ts:15-24 | The short id and the URL id give the same outcome. |
| `GetAuthor.Largest` | src/tools/get-author.ts:62 | The largest year is in the list and is not below any year. |
| `GetAuthor.Smallest` | src/tools/get-author.ts:62 | The smallest year is in the list and is not above any year. |
| `GetAuthor.Swap` | src/tools/get-author.ts:60 | Exchanges two cells. Nothing else changes, and the multiset is kept. |
| `GetAuthor.SortDescending` | src/tools/get-author.ts:60 | `years.sort((a, b) => b - a)` leaves the array descending and a permutation of the input. |
| `GetAuthor.DescendingEnds` | src/tools/get-author.ts:60-62 | A descending permutation starts with the largest year and ends with the smallest. |
| `GetAuthor.YearRange` | src/tools/get-author.ts:60-62 | Sorting and reading the two ends computes `YearRangeOf`. |
| `GetAuthor.YearRangeOf` | src/tools/get-author.ts:60-62 | The years text of one affiliation. `YearRange` proves the sort computes it, and `YearRangeBounds` states that it spans the least and greatest year. |
| `GetAuthor.YearRangeBounds` | src/tools/get-author.ts:61-62 | With more than one year, the range is `<lo>-<hi>` for years lo ≤ hi of the list that bound every year. |
| `GetAuthor.EmitHead` | src/tools/get-author.ts:29-37 | Appends the title, alternative names, ORCID and id. |
| `GetAuthor.EmitCareer` | src/tools/get-author.ts:39-44 | Appends the career metrics. |
| `GetAuthor.EmitCurrent` | src/tools/get-author.ts:46-55 | Appends the current affiliations when there are any. |
| `GetAuthor.EmitAffiliations` | src/tools/get-author.ts:59-67 | The `forEach` appends one bullet per listed affiliation, sorting its years. |
| `GetAuthor.EmitHistory` | src/tools/get-author.ts:57-72 | Appends the affiliation history. |
| `GetAuthor.EmitTopicEntries` | src/tools/get-author.ts:76-80 | The `forEach` appends three lines per listed topic. |
| `GetAuthor.EmitTopics` | src/tools/get-author.ts:74-85 | Appends the research topics. |
| `GetAuthor.EmitRows` | src/tools/get-author.ts:93-95 | The `forEach` appends one table row per year. |
| `GetAuthor.EmitActivity` | src/tools/get-author.ts:88-97 | Appends the activity table when there are counts. |
| `GetAuthor.EmitId` | src/tools/get-author.ts:101-106 | Appends one external id line when the id is truthy. |
| `GetAuthor.EmitExternal` | src/tools/get-author.ts:100-106 | Appends the external ids in the order ORCID, Scopus, Twitter, Wikipedia. |
| `GetAuthor.EmitLinks` | src/tools/get-author.ts:108-110 | Appends the links. |
| `GetAuthor.RenderAuthor` | src/tools/get-author.ts:29-110 | The whole `+=` sequence yields the rendering of `SummaryLines`. |
| `GetAuthor.SummaryLines` | src/tools/get-author.ts:29-110 | The reply as a list of lines, section by section. `RenderAuthor` proves the `+=` sequence builds it, and `InSummary` to `ActivityShape` state which lines it holds. |
| `GetAuthor.InSummary` | src/tools/get-author.ts:29-110 | A line is in the reply iff it is in one of its sections. |
| `GetAuthor.ListSections` | src/tools/get-author.ts:46-97 | The only headings or labelled lines in the list sections are their own headings. |
| `GetAuthor.FixedSections` | src/tools/get-author.ts:29-110 | The head has no heading. Career Metrics, External IDs and Links are each in their own section only. |
| `GetAuthor.AlternativeNamesShown` | src/tools/get-author.ts:31-33 | The Alternative names line appears iff the list is nonempty, and it shows the `, `-joined names. |
| `GetAuthor.CurrentAffiliationsShown` | src/tools/get-author.ts:46-47 | Current Affiliations appears iff there are last-known institutions. |
| `GetAuthor.HistoryShown` | src/tools/get-author.ts:57-58 | Affiliation History appears iff there are affiliations. |
| `GetAuthor.TopicsShown` | src/tools/get-author.ts:74-75 | Research Topics appears iff there are topics. |
| `GetAuthor.ActivityShown` | src/tools/get-author.ts:88-90 | Recent Activity appears iff there are yearly counts. |
| `GetAuthor.HistoryShape` | src/tools/get-author.ts:57-72 | The history lists the first min(n, 5) affiliations in order. `...and N more` with N = n − 5 appears iff n > 5. |
| `GetAuthor.TopicsFrame` | src/tools/get-author.ts:74-85 | Three lines for each of the first min(n, 10) topics. `...and N more topics` with N = n − 10 appears iff n > 10. |
| `GetAuthor.TopicShown` | src/tools/get-author.ts:76-80 | Topic i (i < 10) is shown with its count, field and domain at lines 1 + 3i to 3 + 3i. |
| `GetAuthor.ActivityShape` | src/tools/get-author.ts:88-97 | The table has its header, then rows for the first min(n, 5) yearly counts in order, then a blank line. |
| `GetAuthor.GetAuthor` | src/tools/get-author.ts:10-131 | The method computes `GetAuthorOutcome`. |
| `GetAuthor.FetchAuthor` | src/tools/get-author.ts:20-130 | Fetches `/authors/<id>` with only the mailto option, then handles the reply with the author prefix. |
| `GetAuthor.GetAuthorSteps` | src/tools/get-author.ts:10-130 | Bad input throws with no fetch. Otherwise the path is `/authors/` + normalised id and the query is at most one mailto pair. Failures carry `Error fetching author: `. The reply is a summary iff the body decoded as an Author. |
| `SearchWorks.AuthorPreview` | src/tools/search-works.ts:38-56 | At most 3 author names, the first ones, are shown. `, ...` is appended iff the work has more than 3 authorships. |
| `SearchWorks.OptionalSegments` | src/tools/search-works.ts:57-59 | The DOI segment is shown iff the DOI is truthy. The year reads `N/A` iff it is null or 0. |
| `SearchWorks.SummaryHeader` | src/tools/search-works.ts:52 | The reply opens with `meta.count` and the number of results. |
| `SearchWorks.ItemsNumbered` | src/tools/search-works.ts:53-61 | One item per result, numbered from 1. |
| `SearchWorks.Preview` | src/tools/search-works.ts:35-46 | One element of `formattedResults`, each field read from the work as the tool lists it. `AuthorPreview` and `OptionalSegments` state what is shown. |
| `SearchWorks.Item` | src/tools/search-works.ts:54-59 | The text of one numbered result. `ItemsNumbered` states its numbering. |
| `SearchWorks.SearchWorks` | src/tools/search-works.ts:20-75 | The tool handler: `SearchTool` on its endpoint with its prefix, decoder and summary. `SearchWorksRequest` and `SearchWorksReply` state its behaviour. |
| `SearchWorks.SearchWorksRequest` | src/tools/search-works.ts:20-75 | Bad input throws. `/works` gets page and per_page once each and a truthy mailto twice. Failures carry `Error searching works: `. |
| `SearchWorks.DecodeWorkExact` | src/tools/search-works.ts:16 | Each result decodes iff `WorkSchema` accepts it. |
| `SearchWorks.SearchWorksReply` | src/tools/search-works.ts:14-32 | The reply is a summary iff the fetch succeeded and the body conforms to the works list schema. |
| `SearchAuthors.OrcidSegment` | src/tools/search-authors.ts:55 | The ORCID segment is shown iff orcid is truthy. |
| `SearchAuthors.TopicPreview` | src/tools/search-authors.ts:45 | Only the first min(n, 3) topic names are shown. |
| `SearchAuthors.JoinOrFallback` | src/tools/search-authors.ts:58-59 | A joined list falls back exactly when it joins to the empty string. |
| `SearchAuthors.Fallbacks` | src/tools/search-authors.ts:58-59 | No institutions reads `Unknown`. No topics reads `N/A`. |
| `SearchAuthors.SummaryHeader` | src/tools/search-authors.ts:52 | The reply opens with `meta.count` and the number of results. |
| `SearchAuthors.ItemsNumbered` | src/tools/search-authors.ts:53-60 | One item per result, numbered from 1. |
| `SearchAuthors.Preview` | src/tools/search-authors.ts:35-46 | One element of `formattedResults`, each field read from the author as the tool lists it. `Fallbacks` and the other lemmas of the module state what is shown. |
| `SearchAuthors.Item` | src/tools/search-authors.ts:54-59 | The text of one numbered result. `ItemsNumbered` states its numbering. |
| `SearchAuthors.SearchAuthors` | src/tools/search-authors.ts:20-75 | The tool handler: `SearchTool` on its endpoint with its prefix, decoder and summary. `SearchAuthorsRequest` and `SearchAuthorsReply` state its behaviour. |
| `SearchAuthors.SearchAuthorsRequest` | src/tools/search-authors.ts:20-75 | Bad input throws. `/authors` gets page and per_page once each and a truthy mailto twice. Failures carry `Error searching authors: `. |
| `SearchAuthors.DecodeAuthorExact` | src/tools/search-authors.ts:16 | Each result decodes iff `AuthorSchema` accepts it. |
| `SearchAuthors.SearchAuthorsReply` | src/tools/search-authors.ts:14-32 | The reply is a summary iff the fetch succeeded and the body conforms to the authors list schema. |
| `SearchInstitutions.Fallbacks` | src/tools/search-institutions.ts:57-61 | Type and country read `Unknown` iff falsy (or already `Unknown`). City, Homepage and ROR are shown iff truthy. |
| `SearchInstitutions.SummaryHeader` | src/tools/search-institutions.ts:52-54 | The reply opens with `meta.count` and the number of results. |
| `SearchInstitutions.ItemsNumbered` | src/tools/search-institutions.ts:55-62 | One item per result, numbered from 1. |
| `SearchInstitutions.Preview` | src/tools/search-institutions.ts:35-46 | One element of `formattedResults`, each field read from the institution as the tool lists it. `Fallbacks` and the other lemmas of the module state what is shown. |
| `SearchInstitutions.Item` | src/tools/search-institutions.ts:56-61 | The text of one numbered result. `ItemsNumbered` states its numbering. |
| `SearchInstitutions.SearchInstitutions` | src/tools/search-institutions.ts:20-77 | The tool handler: `SearchTool` on its endpoint with its prefix, decoder and summary. `SearchInstitutionsRequest` and `SearchInstitutionsReply` state its behaviour. |
| `SearchInstitutions.SearchInstitutionsRequest` | src/tools/search-institutions.ts:20-77 | Bad input throws. `/institutions` gets page and per_page once each and a truthy mailto twice. Failures carry `Error searching institutions: `. |
| `SearchInstitutions.DecodeInstitutionExact` | src/tools/search-institutions.ts:16 | Each result decodes iff `InstitutionSchema` accepts it. |
| `SearchInstitutions.SearchInstitutionsReply` | src/tools/search-institutions.ts:14-32 | The reply is a summary iff the fetch succeeded and the body conforms to the institutions list schema. |
| `SearchSources.ApcSegment` | src/tools/search-sources.ts:63 | The APC segment is left out iff `apc_usd` is null or 0. |
| `SearchSources.Fallbacks` | src/tools/search-sources.ts:58-65 | Publisher and Homepage are shown iff truthy. ISSN-L reads `N/A`, and type and country read `Unknown`, iff falsy (or already that text). The APC is left out iff null or 0. |
| `SearchSources.SummaryHeader` | src/tools/search-sources.ts:55 | The reply opens with `meta.count` and the number of results. |
| `SearchSources.ItemsNumbered` | src/tools/search-sources.ts:56-67 | One item per result, numbered from 1. |
| `SearchSources.Preview` | src/tools/search-sources.ts:35-49 | One element of `formattedResults`, each field read from the source record as the tool lists it. `Fallbacks` and the other lemmas of the module state what is shown. |
| `SearchSources.Item` | src/tools/search-sources.ts:57-66 | The text of one numbered result. `ItemsNumbered` states its numbering. |
| `SearchSources.SearchSources` | src/tools/search-sources.ts:20-82 | The tool handler: `SearchTool` on its endpoint with its prefix, decoder and summary. `SearchSourcesRequest` and `SearchSourcesReply` state its behaviour. |
| `SearchSources.SearchSourcesRequest` | src/tools/search-sources.ts:20-82 | Bad input throws. `/sources` gets page and per_page once each and a truthy mailto twice. Failures carry `Error searching sources: `. |
| `SearchSources.DecodeSourceExact` | src/tools/search-sources.ts:16 | Each result decodes iff `SourceSchema` accepts it. |
| `SearchSources.SearchSourcesReply` | src/tools/search-sources.ts:14-32 | The reply is a summary iff the fetch succeeded and the body conforms to the sources list schema. |

## Left out

- The real `fetch`, `async`/`await` and `Response` objects are left out. The HTTP exchange is the input `HttpOutcome`, and a body that cannot be read as text is one of its cases.
- `src/index.ts` is left out: the MCP server, the stdio transport, the tool listing and the dispatch on tool names.
- The email check of zod (`z.string().email()`) is a parameter `isEmail` of the parsers, not a regular expression.
- The ZodError message text is left out. A refused reply is the failure cause `Invalid`, and a refused input is `Threw`.
- JSON numbers are integers. `toFixed(2)` (`src/tools/get-work.ts:102`, `src/tools/get-author.ts:44`) is modelled as the integer followed by `.00`. `String(n)` for non-integers is not modelled.
- `PaginationSchema` and `FilterSchema` (`src/utils/openalex-client.ts:68-73`, `84-91`) are not modelled, because no tool uses them.
- Params values are strings, numbers, booleans, null or undefined. An undefined entry stands for a key the object holds with the value `undefined`.
- The endpoint is concatenated to the base URL as given, and the URL parser's normalisation of the path is not modelled. In particular an id containing `?` or `#` is kept in the path: the source's URL parser would move its tail into the query or the fragment, and mailto would then be joined to that query with `&`.
- `Schema.Accepts`: a `z.record` is checked on every member, including one shadowed by a later member with the same key. A record parsed from JSON text keeps only the last value of a repeated key, so the model can refuse an object the source accepts when a shadowed value is not a string.
- Strings are sequences of Unicode scalar values, so a lone UTF-16 surrogate, which the serializer would replace with U+FFFD, cannot be expressed.
- `Client.DecodeMeta` merges a null and an absent `groups_count`; the meta schema itself (`Client.MetaRule`) still tells them apart.
- `GetAuthor.YearRange`: an affiliation with no years yields the text `undefined`, as the template literal does, without modelling JavaScript's `undefined` beyond that.
- `GetAuthor.EmitAffiliations`: `years.sort` mutates the parsed object's own array. The model sorts a fresh array per affiliation, which is unobservable, because that array is not read again.
- `src/utils/validation.test.ts` tests `src/utils/validation.ts`, which is not part of this model.
