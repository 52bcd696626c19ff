/**
 * The `search_institutions` tool: a page of institutions matching a
 * query, one short item per institution.
 */
module SearchInstitutions {
  import opened Wrappers
  import opened Json
  import opened Schema
  import opened Text
  import opened Client
  import opened Types
  import opened Tools

  function ErrorPrefix(): string
  {
    "Error searching institutions: "
  }

  /** What one result is reduced to before it is printed. */
  datatype InstitutionPreview = InstitutionPreview(
    id: string, name: string, institutionType: Option<string>, country: Option<string>, city: Option<string>,
    worksCount: int, citedByCount: int, hIndex: int, homepage: Option<string>, ror: Option<string>)

  /** `geo?.city`: absent when there is no geo record. */
  function City(geo: Option<Geo>): (r: Option<string>)
    ensures geo.None? ==> r.None?
    ensures geo.Some? ==> r == geo.value.city
  {
    if geo.Some? then geo.value.city else None
  }

  function Preview(inst: Institution): InstitutionPreview
  {
    InstitutionPreview(inst.id, inst.displayName, inst.institutionType, inst.countryCode, City(inst.geo),
      inst.worksCount, inst.citedByCount, inst.summaryStats.hIndex, inst.homepageUrl, inst.ror)
  }

  /** The `n`-th item: name, type and place, counts, homepage, ROR, id. */
  function Item(p: InstitutionPreview, n: int): string
  {
    IntToString(n) + ". " + p.name
    + "\n   Type: " + Or(p.institutionType, "Unknown") + ", Country: " + Or(p.country, "Unknown")
    + Segment(", City: ", p.city)
    + "\n   Works: " + IntToString(p.worksCount) + ", Citations: " + IntToString(p.citedByCount)
    + ", h-index: " + IntToString(p.hIndex)
    + Segment("\n   Homepage: ", p.homepage) + Segment("\n   ROR: ", p.ror)
    + "\n   ID: " + p.id
  }

  /** The items, numbered from 1 in the order of the results. */
  function Items(insts: seq<Institution>): seq<string>
  {
    NumberedItems(insts, (x, n) => Item(Preview(x), n))
  }

  function Summary(page: Page<Institution>): string
  {
    ListSummary("institutions", page.meta.count, Items(page.results))
  }

  /** `searchInstitutions(args)`, given what the HTTP call brings back. */
  function SearchInstitutions(args: Option<Json>, isEmail: string -> bool, outcome: HttpOutcome): ToolOutcome
  {
    SearchTool("/institutions", ErrorPrefix(), args, isEmail, outcome, DecodeInstitution, Summary)
  }

  /**
   * The type and the country read `Unknown` exactly when they are falsy;
   * the city, homepage and ROR are shown exactly when they are truthy, and
   * an institution without a geo record shows no city.
   */
  lemma Fallbacks(inst: Institution)
    ensures var p := Preview(inst);
      && (Or(p.institutionType, "Unknown") == "Unknown" <==> !Truthy(inst.institutionType) || inst.institutionType.value == "Unknown")
      && (Or(p.country, "Unknown") == "Unknown" <==> !Truthy(inst.countryCode) || inst.countryCode.value == "Unknown")
      && (Segment(", City: ", p.city) == "" <==> inst.geo.None? || !Truthy(inst.geo.value.city))
      && (Segment("\n   Homepage: ", p.homepage) == "" <==> !Truthy(inst.homepageUrl))
      && (Segment("\n   ROR: ", p.ror) == "" <==> !Truthy(inst.ror))
  {
  }

  /**
   * The reply opens with the total count and the number shown, which is
   * the number of results on the page.
   */
  lemma SummaryHeader(page: Page<Institution>)
    ensures Header("institutions", page.meta.count, |page.results|) <= Summary(page)
  {
  }

  /** One item per result, numbered from 1 in the order of the results. */
  lemma ItemsNumbered(xs: seq<Institution>)
    ensures |Items(xs)| == |xs|
    ensures forall i | 0 <= i < |xs| :: Items(xs)[i] == Item(Preview(xs[i]), i + 1)
  {
  }

  /**
   * Bad arguments throw before any request. Otherwise `/institutions` is
   * fetched with page and per_page each sent once and mailto sent twice
   * when it is truthy, and every failure carries the institutions prefix.
   */
  lemma SearchInstitutionsRequest(args: Option<Json>, isEmail: string -> bool, outcome: HttpOutcome)
    ensures var o := SearchInstitutions(args, isEmail, outcome);
      && (o.Threw? <==> ParseSearchInput(args, isEmail).None?)
      && (o.Ran? ==> var p := ParseSearchInput(args, isEmail).value;
           && o.request.path == "/institutions"
           && CountName(o.request.query, "page") == 1 && CountName(o.request.query, "per_page") == 1
           && (Truthy(p.mailto) ==> CountName(o.request.query, "mailto") == 2)
           && (o.result.Failure? ==> o.result.prefix == ErrorPrefix()))
  {
    SearchToolSteps("/institutions", ErrorPrefix(), args, isEmail, outcome, DecodeInstitution, Summary);
    SearchToolRequest("/institutions", ErrorPrefix(), args, isEmail, outcome, DecodeInstitution, Summary);
  }

  lemma DecodeInstitutionExact()
    ensures forall x :: DecodeInstitution(x).Some? <==> Accepts(InstitutionSchema(), Some(x))
  {
    forall x
      ensures DecodeInstitution(x).Some? <==> Accepts(InstitutionSchema(), Some(x))
    {
      DecodeInstitutionParses(x);
    }
  }

  /** The reply is a summary exactly when the body conforms to the institutions list schema. */
  lemma SearchInstitutionsReply(args: Option<Json>, isEmail: string -> bool, outcome: HttpOutcome)
    ensures var o := SearchInstitutions(args, isEmail, outcome);
      o.Ran? ==> (o.result.Reply? <==>
        Classify(outcome).Ok? && Accepts(SObject(ResponseFields(InstitutionSchema())), Some(Classify(outcome).value)))
  {
    DecodeInstitutionExact();
    SearchToolAccepts("/institutions", ErrorPrefix(), args, isEmail, outcome, InstitutionSchema(),
      DecodeInstitution, Summary);
  }
}
