/**
 * The `search_works` tool: a page of works matching a query, one short
 * item per work.
 *
 * Every parsed argument is sent as a query parameter, with the mailto
 * option appended again on top; the body must conform to the works list
 * schema, where one bad work rejects the whole page.
 */
module SearchWorks {
  import opened Wrappers
  import opened Json
  import opened Schema
  import opened Text
  import opened Client
  import opened Types
  import opened Tools

  function ErrorPrefix(): string
  {
    "Error searching works: "
  }

  /** What one result is reduced to before it is printed. */
  datatype WorkPreview = WorkPreview(
    id: string, title: string, authors: seq<string>, totalAuthors: int, year: Option<int>,
    venue: string, workType: string, openAccess: bool, citedByCount: int, doi: Option<string>)

  function Preview(w: Work): WorkPreview
  {
    WorkPreview(w.id, w.displayName, MapEach(Take(w.authorships, 3), (a: Authorship) => a.author.displayName), |w.authorships|,
      w.publicationYear, Venue(w.primaryLocation), w.workType, w.openAccess.isOa, w.citedByCount, w.doi)
  }

  /** `, ...` after the names when fewer names are shown than the work has authors. */
  function MoreAuthors(p: WorkPreview): string
  {
    if |p.authors| < p.totalAuthors then ", ..." else ""
  }

  /** The `n`-th item: title, authors, year and venue, type and access, citations, DOI, id. */
  function Item(p: WorkPreview, n: int): string
  {
    IntToString(n) + ". " + p.title
    + "\n   Authors: " + Join(p.authors, ", ") + MoreAuthors(p)
    + "\n   Year: " + NumOr(p.year, "N/A") + ", Venue: " + p.venue
    + "\n   Type: " + p.workType + ", Open Access: " + YesNo(p.openAccess)
    + "\n   Citations: " + IntToString(p.citedByCount) + Segment("\n   DOI: ", p.doi)
    + "\n   ID: " + p.id
  }

  /** The items, numbered from 1 in the order of the results. */
  function Items(ws: seq<Work>): seq<string>
  {
    NumberedItems(ws, (x, n) => Item(Preview(x), n))
  }

  function Summary(page: Page<Work>): string
  {
    ListSummary("works", page.meta.count, Items(page.results))
  }

  /** `searchWorks(args)`, given what the HTTP call brings back. */
  function SearchWorks(args: Option<Json>, isEmail: string -> bool, outcome: HttpOutcome): ToolOutcome
  {
    SearchTool("/works", ErrorPrefix(), args, isEmail, outcome, DecodeWork, Summary)
  }

  /**
   * At most three author names are shown, the first three in order, and
   * `, ...` follows them exactly when the work has more than three authors.
   */
  lemma AuthorPreview(w: Work)
    ensures var p, n := Preview(w), |w.authorships|;
      && |p.authors| == (if n < 3 then n else 3)
      && (forall i | 0 <= i < |p.authors| :: p.authors[i] == w.authorships[i].author.displayName)
      && (MoreAuthors(p) == ", ..." <==> n > 3)
      && (MoreAuthors(p) == "" <==> n <= 3)
  {
    var shown := Take(w.authorships, 3);
    forall i | 0 <= i < |shown|
      ensures shown[i] == w.authorships[i]
    {
    }
  }

  /** The DOI line is shown exactly when the DOI is truthy; the year reads `N/A` when null or 0. */
  lemma OptionalSegments(w: Work)
    ensures Segment("\n   DOI: ", Preview(w).doi) == "" <==> !Truthy(w.doi)
    ensures NumOr(Preview(w).year, "N/A") == "N/A" <==> w.publicationYear.None? || w.publicationYear == Some(0)
  {
    if w.publicationYear.Some? && w.publicationYear.value != 0 {
      var s := IntToString(w.publicationYear.value);
      IntToStringRoundTrip(w.publicationYear.value);
      assert ParseInt("N/A") == None by {
        assert "N/A"[0] == 'N' && !IsDigit('N');
      }
    }
  }

  /**
   * The reply opens with the total count and the number shown, which is
   * the number of results on the page.
   */
  lemma SummaryHeader(page: Page<Work>)
    ensures Header("works", page.meta.count, |page.results|) <= Summary(page)
  {
  }

  /** One item per result, numbered from 1 in the order of the results. */
  lemma ItemsNumbered(xs: seq<Work>)
    ensures |Items(xs)| == |xs|
    ensures forall i | 0 <= i < |xs| :: Items(xs)[i] == Item(Preview(xs[i]), i + 1)
  {
  }

  /**
   * Bad arguments throw before any request. Otherwise `/works` is fetched
   * with page and per_page each sent once and mailto sent twice when it is
   * truthy, and every failure carries the works prefix.
   */
  lemma SearchWorksRequest(args: Option<Json>, isEmail: string -> bool, outcome: HttpOutcome)
    ensures var o := SearchWorks(args, isEmail, outcome);
      && (o.Threw? <==> ParseSearchInput(args, isEmail).None?)
      && (o.Ran? ==> var p := ParseSearchInput(args, isEmail).value;
           && o.request.path == "/works"
           && CountName(o.request.query, "page") == 1 && CountName(o.request.query, "per_page") == 1
           && (Truthy(p.mailto) ==> CountName(o.request.query, "mailto") == 2)
           && (o.result.Failure? ==> o.result.prefix == ErrorPrefix()))
  {
    SearchToolSteps("/works", ErrorPrefix(), args, isEmail, outcome, DecodeWork, Summary);
    SearchToolRequest("/works", ErrorPrefix(), args, isEmail, outcome, DecodeWork, Summary);
  }

  lemma DecodeWorkExact()
    ensures forall x :: DecodeWork(x).Some? <==> Accepts(WorkSchema(), Some(x))
  {
    forall x
      ensures DecodeWork(x).Some? <==> Accepts(WorkSchema(), Some(x))
    {
      DecodeWorkParses(x);
    }
  }

  /** The reply is a summary exactly when the body conforms to the works list schema. */
  lemma SearchWorksReply(args: Option<Json>, isEmail: string -> bool, outcome: HttpOutcome)
    ensures var o := SearchWorks(args, isEmail, outcome);
      o.Ran? ==> (o.result.Reply? <==>
        Classify(outcome).Ok? && Accepts(SObject(ResponseFields(WorkSchema())), Some(Classify(outcome).value)))
  {
    DecodeWorkExact();
    SearchToolAccepts("/works", ErrorPrefix(), args, isEmail, outcome, WorkSchema(), DecodeWork, Summary);
  }
}
