/**
 * The `search_authors` tool: a page of authors matching a query, one
 * short item per author.
 */
module SearchAuthors {
  import opened Wrappers
  import opened Json
  import opened Schema
  import opened Text
  import opened Client
  import opened Types
  import opened Tools

  function ErrorPrefix(): string
  {
    "Error searching authors: "
  }

  /** What one result is reduced to before it is printed. */
  datatype AuthorPreview = AuthorPreview(
    id: string, name: string, orcid: Option<string>, worksCount: int, citedByCount: int, hIndex: int,
    institutions: seq<string>, topics: seq<string>)

  function Preview(a: Author): AuthorPreview
  {
    AuthorPreview(a.id, a.displayName, a.orcid, a.worksCount, a.citedByCount, a.summaryStats.hIndex,
      MapEach(a.lastKnownInstitutions, (inst: DehydratedInstitution) => inst.displayName),
      MapEach(Take(a.topics, 3), (t: Topic) => t.displayName))
  }

  /** `names.join(', ') || fallback`. */
  function JoinOr(names: seq<string>, fallback: string): string
  {
    var joined := Join(names, ", ");
    if joined != "" then joined else fallback
  }

  /** ` [ORCID: ...]` after the name, only when the ORCID is truthy. */
  function OrcidSegment(orcid: Option<string>): (r: string)
    ensures r == "" <==> !Truthy(orcid)
  {
    if Truthy(orcid) then " [ORCID: " + orcid.value + "]" else ""
  }

  /** The `n`-th item: name and ORCID, counts, institutions, topics, id. */
  function Item(p: AuthorPreview, n: int): string
  {
    IntToString(n) + ". " + p.name + OrcidSegment(p.orcid)
    + "\n   Works: " + IntToString(p.worksCount) + ", Citations: " + IntToString(p.citedByCount)
    + ", h-index: " + IntToString(p.hIndex)
    + "\n   Institutions: " + JoinOr(p.institutions, "Unknown")
    + "\n   Topics: " + JoinOr(p.topics, "N/A")
    + "\n   ID: " + p.id
  }

  /** The items, numbered from 1 in the order of the results. */
  function Items(authors: seq<Author>): seq<string>
  {
    NumberedItems(authors, (x, n) => Item(Preview(x), n))
  }

  function Summary(page: Page<Author>): string
  {
    ListSummary("authors", page.meta.count, Items(page.results))
  }

  /** `searchAuthors(args)`, given what the HTTP call brings back. */
  function SearchAuthors(args: Option<Json>, isEmail: string -> bool, outcome: HttpOutcome): ToolOutcome
  {
    SearchTool("/authors", ErrorPrefix(), args, isEmail, outcome, DecodeAuthor, Summary)
  }

  /** At most three topics are shown: the first three, in order. */
  lemma TopicPreview(a: Author)
    ensures var p, n := Preview(a), |a.topics|;
      && |p.topics| == (if n < 3 then n else 3)
      && forall i | 0 <= i < |p.topics| :: p.topics[i] == a.topics[i].displayName
  {
    var shown := Take(a.topics, 3);
    forall i | 0 <= i < |shown|
      ensures shown[i] == a.topics[i]
    {
    }
  }

  /**
   * A joined list falls back exactly when the join is empty: no names at
   * all, or a single empty name; otherwise the names appear joined by `, `.
   */
  lemma JoinOrFallback(names: seq<string>, fallback: string)
    ensures |names| == 0 || (|names| == 1 && names[0] == "") ==> JoinOr(names, fallback) == fallback
    ensures !(|names| == 0 || (|names| == 1 && names[0] == "")) ==> JoinOr(names, fallback) == Join(names, ", ")
  {
    JoinIsEmpty(names, ", ");
  }

  /**
   * An author with no last known institution reads `Unknown`, one with no
   * topic reads `N/A`.
   */
  lemma Fallbacks(a: Author)
    ensures |a.lastKnownInstitutions| == 0 ==> JoinOr(Preview(a).institutions, "Unknown") == "Unknown"
    ensures |a.topics| == 0 ==> JoinOr(Preview(a).topics, "N/A") == "N/A"
  {
    JoinOrFallback(Preview(a).institutions, "Unknown");
    JoinOrFallback(Preview(a).topics, "N/A");
  }

  /**
   * The reply opens with the total count and the number shown, which is
   * the number of results on the page.
   */
  lemma SummaryHeader(page: Page<Author>)
    ensures Header("authors", page.meta.count, |page.results|) <= Summary(page)
  {
  }

  /** One item per result, numbered from 1 in the order of the results. */
  lemma ItemsNumbered(xs: seq<Author>)
    ensures |Items(xs)| == |xs|
    ensures forall i | 0 <= i < |xs| :: Items(xs)[i] == Item(Preview(xs[i]), i + 1)
  {
  }

  /**
   * Bad arguments throw before any request. Otherwise `/authors` is
   * fetched with page and per_page each sent once and mailto sent twice
   * when it is truthy, and every failure carries the authors prefix.
   */
  lemma SearchAuthorsRequest(args: Option<Json>, isEmail: string -> bool, outcome: HttpOutcome)
    ensures var o := SearchAuthors(args, isEmail, outcome);
      && (o.Threw? <==> ParseSearchInput(args, isEmail).None?)
      && (o.Ran? ==> var p := ParseSearchInput(args, isEmail).value;
           && o.request.path == "/authors"
           && CountName(o.request.query, "page") == 1 && CountName(o.request.query, "per_page") == 1
           && (Truthy(p.mailto) ==> CountName(o.request.query, "mailto") == 2)
           && (o.result.Failure? ==> o.result.prefix == ErrorPrefix()))
  {
    SearchToolSteps("/authors", ErrorPrefix(), args, isEmail, outcome, DecodeAuthor, Summary);
    SearchToolRequest("/authors", ErrorPrefix(), args, isEmail, outcome, DecodeAuthor, Summary);
  }

  lemma DecodeAuthorExact()
    ensures forall x :: DecodeAuthor(x).Some? <==> Accepts(AuthorSchema(), Some(x))
  {
    forall x
      ensures DecodeAuthor(x).Some? <==> Accepts(AuthorSchema(), Some(x))
    {
      DecodeAuthorParses(x);
    }
  }

  /** The reply is a summary exactly when the body conforms to the authors list schema. */
  lemma SearchAuthorsReply(args: Option<Json>, isEmail: string -> bool, outcome: HttpOutcome)
    ensures var o := SearchAuthors(args, isEmail, outcome);
      o.Ran? ==> (o.result.Reply? <==>
        Classify(outcome).Ok? && Accepts(SObject(ResponseFields(AuthorSchema())), Some(Classify(outcome).value)))
  {
    DecodeAuthorExact();
    SearchToolAccepts("/authors", ErrorPrefix(), args, isEmail, outcome, AuthorSchema(), DecodeAuthor, Summary);
  }
}
