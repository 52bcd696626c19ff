/**
 * The `search_sources` tool: a page of journals, repositories and other
 * venues matching a query, one short item per source.
 */
module SearchSources {
  import opened Wrappers
  import opened Json
  import opened Schema
  import opened Text
  import opened Client
  import opened Types
  import opened Tools

  function ErrorPrefix(): string
  {
    "Error searching sources: "
  }

  /** What one result is reduced to before it is printed. */
  datatype SourcePreview = SourcePreview(
    id: string, name: string, sourceType: Option<string>, publisher: Option<string>, issnL: Option<string>,
    isOa: bool, isInDoaj: bool, worksCount: int, citedByCount: int, hIndex: int, apcUsd: Option<int>,
    country: Option<string>, homepage: Option<string>)

  function Preview(s: Source): SourcePreview
  {
    SourcePreview(s.id, s.displayName, s.sourceType, s.hostOrganizationName, s.issnL, s.isOa, s.isInDoaj,
      s.worksCount, s.citedByCount, s.summaryStats.hIndex, s.apcUsd, s.countryCode, s.homepageUrl)
  }

  /** `, APC: $<amount>`, only when the charge is present and not zero. */
  function ApcSegment(apcUsd: Option<int>): (r: string)
    ensures r == "" <==> apcUsd.None? || apcUsd.value == 0
  {
    if apcUsd.Some? && apcUsd.value != 0 then ", APC: $" + IntToString(apcUsd.value) else ""
  }

  /** The `n`-th item: name, type and publisher, ISSN-L and country, access and charge, counts, homepage, id. */
  function Item(p: SourcePreview, n: int): string
  {
    IntToString(n) + ". " + p.name
    + "\n   Type: " + Or(p.sourceType, "Unknown") + Segment(", Publisher: ", p.publisher)
    + "\n   ISSN-L: " + Or(p.issnL, "N/A") + ", Country: " + Or(p.country, "Unknown")
    + "\n   Open Access: " + YesNo(p.isOa) + ", In DOAJ: " + YesNo(p.isInDoaj) + ApcSegment(p.apcUsd)
    + "\n   Works: " + IntToString(p.worksCount) + ", Citations: " + IntToString(p.citedByCount)
    + ", h-index: " + IntToString(p.hIndex)
    + Segment("\n   Homepage: ", p.homepage)
    + "\n   ID: " + p.id
  }

  /** The items, numbered from 1 in the order of the results. */
  function Items(ss: seq<Source>): seq<string>
  {
    NumberedItems(ss, (x, n) => Item(Preview(x), n))
  }

  function Summary(page: Page<Source>): string
  {
    ListSummary("sources", page.meta.count, Items(page.results))
  }

  /** `searchSources(args)`, given what the HTTP call brings back. */
  function SearchSources(args: Option<Json>, isEmail: string -> bool, outcome: HttpOutcome): ToolOutcome
  {
    SearchTool("/sources", ErrorPrefix(), args, isEmail, outcome, DecodeSource, Summary)
  }

  /**
   * The publisher (the host organisation's name) and the homepage are
   * shown exactly when truthy, the ISSN-L reads `N/A` and the type and
   * country `Unknown` exactly when falsy or already that text, and the
   * charge is left out when it is null or zero.
   */
  lemma Fallbacks(s: Source)
    ensures var p := Preview(s);
      && (Segment(", Publisher: ", p.publisher) == "" <==> !Truthy(s.hostOrganizationName))
      && (Segment("\n   Homepage: ", p.homepage) == "" <==> !Truthy(s.homepageUrl))
      && (Or(p.issnL, "N/A") == "N/A" <==> !Truthy(s.issnL) || s.issnL.value == "N/A")
      && (Or(p.sourceType, "Unknown") == "Unknown" <==> !Truthy(s.sourceType) || s.sourceType.value == "Unknown")
      && (Or(p.country, "Unknown") == "Unknown" <==> !Truthy(s.countryCode) || s.countryCode.value == "Unknown")
      && (ApcSegment(p.apcUsd) == "" <==> s.apcUsd.None? || s.apcUsd.value == 0)
  {
  }

  /**
   * The reply opens with the total count and the number shown, which is
   * the number of results on the page.
   */
  lemma SummaryHeader(page: Page<Source>)
    ensures Header("sources", page.meta.count, |page.results|) <= Summary(page)
  {
  }

  /** One item per result, numbered from 1 in the order of the results. */
  lemma ItemsNumbered(xs: seq<Source>)
    ensures |Items(xs)| == |xs|
    ensures forall i | 0 <= i < |xs| :: Items(xs)[i] == Item(Preview(xs[i]), i + 1)
  {
  }

  /**
   * Bad arguments throw before any request. Otherwise `/sources` is
   * fetched with page and per_page each sent once and mailto sent twice
   * when it is truthy, and every failure carries the sources prefix.
   */
  lemma SearchSourcesRequest(args: Option<Json>, isEmail: string -> bool, outcome: HttpOutcome)
    ensures var o := SearchSources(args, isEmail, outcome);
      && (o.Threw? <==> ParseSearchInput(args, isEmail).None?)
      && (o.Ran? ==> var p := ParseSearchInput(args, isEmail).value;
           && o.request.path == "/sources"
           && CountName(o.request.query, "page") == 1 && CountName(o.request.query, "per_page") == 1
           && (Truthy(p.mailto) ==> CountName(o.request.query, "mailto") == 2)
           && (o.result.Failure? ==> o.result.prefix == ErrorPrefix()))
  {
    SearchToolSteps("/sources", ErrorPrefix(), args, isEmail, outcome, DecodeSource, Summary);
    SearchToolRequest("/sources", ErrorPrefix(), args, isEmail, outcome, DecodeSource, Summary);
  }

  lemma DecodeSourceExact()
    ensures forall x :: DecodeSource(x).Some? <==> Accepts(SourceSchema(), Some(x))
  {
    forall x
      ensures DecodeSource(x).Some? <==> Accepts(SourceSchema(), Some(x))
    {
      DecodeSourceParses(x);
    }
  }

  /** The reply is a summary exactly when the body conforms to the sources list schema. */
  lemma SearchSourcesReply(args: Option<Json>, isEmail: string -> bool, outcome: HttpOutcome)
    ensures var o := SearchSources(args, isEmail, outcome);
      o.Ran? ==> (o.result.Reply? <==>
        Classify(outcome).Ok? && Accepts(SObject(ResponseFields(SourceSchema())), Some(Classify(outcome).value)))
  {
    DecodeSourceExact();
    SearchToolAccepts("/sources", ErrorPrefix(), args, isEmail, outcome, SourceSchema(), DecodeSource, Summary);
  }
}
