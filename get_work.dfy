/**
 * The `get_work` tool: one work by id, as a markdown summary.
 *
 * The arguments are parsed before anything else; an id given as an
 * `https://openalex.org/` URL is cut to its last path segment; the work is
 * fetched from `/works/<id>` with only the mailto option; the body must
 * conform to `WorkSchema`; the summary is built line by line, with
 * sections and lines that appear only when there is something to show.
 */
module GetWork {
  import opened Wrappers
  import opened Json
  import opened Text
  import opened Client
  import opened Types
  import opened Tools

  function ErrorPrefix(): string
  {
    "Error fetching work: "
  }

  // ------------------------------------------------------- formatted work

  /** One element of `authors`: name, position, institution names joined, ORCID. */
  datatype AuthorEntry = AuthorEntry(name: string, position: string, institutions: string, orcid: Option<string>)

  /** `institutions.map((inst) => inst.display_name)` */
  function InstitutionNames(insts: seq<DehydratedInstitution>): seq<string>
  {
    MapEach(insts, (inst: DehydratedInstitution) => inst.displayName)
  }

  function AuthorEntryOf(a: Authorship): AuthorEntry
  {
    AuthorEntry(a.author.displayName, a.authorPosition, Join(InstitutionNames(a.institutions), ", "), a.author.orcid)
  }

  /**
   * `authorships.map(...)`: entry i names the i-th author, keeps its position
   * and ORCID, and lists its institutions' names, in order, joined by ", ".
   */
  function AuthorEntries(authorships: seq<Authorship>): (r: seq<AuthorEntry>)
    ensures |r| == |authorships|
    ensures forall i | 0 <= i < |r| ::
      && r[i].name == authorships[i].author.displayName
      && r[i].position == authorships[i].authorPosition
      && r[i].orcid == authorships[i].author.orcid
    ensures forall i | 0 <= i < |r| ::
      var insts := authorships[i].institutions;
      var names := InstitutionNames(insts);
      && r[i].institutions == Join(names, ", ")
      && |names| == |insts|
      && forall j | 0 <= j < |insts| :: names[j] == insts[j].displayName
  {
    seq(|authorships|, i requires 0 <= i < |authorships| => AuthorEntryOf(authorships[i]))
  }

  /** `formattedWork` */
  datatype FormattedWork = FormattedWork(
    id: string, title: string, publicationYear: Option<int>, publicationDate: Option<string>,
    workType: string, language: Option<string>, doi: Option<string>, authors: seq<AuthorEntry>,
    venue: string, volume: Option<string>, issue: Option<string>, pages: Option<string>,
    isOa: bool, oaStatus: string, oaUrl: Option<string>, primaryTopic: Option<(string, int)>,
    keywords: seq<string>, citedByCount: int, referencesCount: int, isRetracted: bool,
    landingPageUrl: Option<string>, pdfUrl: Option<string>)

  /** A first page makes `first-last`, with a missing last page left empty; no first page, no pages. */
  function Pages(b: Biblio): Option<string>
  {
    if Truthy(b.firstPage) then Some(b.firstPage.value + "-" + Or(b.lastPage, "")) else None
  }

  /** `keywords.map((k) => k.display_name)` */
  function KeywordNames(ks: seq<Scored>): seq<string>
  {
    MapEach(ks, (k: Scored) => k.displayName)
  }

  function Format(w: Work): FormattedWork
  {
    var loc := w.primaryLocation;
    FormattedWork(
      w.id, w.displayName, w.publicationYear, w.publicationDate, w.workType, w.language, w.doi,
      AuthorEntries(w.authorships), Venue(loc), w.biblio.volume, w.biblio.issue, Pages(w.biblio),
      w.openAccess.isOa, w.openAccess.oaStatus, w.openAccess.oaUrl,
      if w.primaryTopic.Some? then Some((w.primaryTopic.value.displayName, w.primaryTopic.value.score)) else None,
      KeywordNames(w.keywords), w.citedByCount, w.referencedWorksCount, w.isRetracted,
      if loc.Some? then loc.value.landingPageUrl else None,
      if loc.Some? then loc.value.pdfUrl else None)
  }

  /**
   * The venue is the primary source's name, and `Unknown` when the primary
   * location or its source is null, or the name is empty.
   */
  lemma VenueRule(w: Work)
    ensures var loc := w.primaryLocation;
      && (loc.None? || loc.value.source.None? ==> Format(w).venue == "Unknown")
      && (loc.Some? && loc.value.source.Some? && loc.value.source.value.displayName != "" ==>
            Format(w).venue == loc.value.source.value.displayName)
      && (Format(w).venue == "Unknown" || (loc.Some? && loc.value.source.Some? && Format(w).venue == loc.value.source.value.displayName))
  {
  }

  /**
   * Pages are absent exactly when the first page is null or empty; otherwise
   * they are the first page, a dash, and the last page or nothing.
   */
  lemma PagesRule(w: Work)
    ensures var b := w.biblio;
      && (Format(w).pages.None? <==> b.firstPage.None? || b.firstPage.value == "")
      && (Format(w).pages.Some? ==> Format(w).pages.value == b.firstPage.value + "-" + (if b.lastPage.Some? then b.lastPage.value else ""))
      && (Format(w).pages.Some? ==> Format(w).pages.value != "")
  {
  }

  /** An author's institutions are shown unless there are none or the only one has an empty name. */
  lemma AuthorInstitutionsShown(a: Authorship)
    ensures AuthorEntryOf(a).institutions != "" <==>
      !(|a.institutions| == 0 || (|a.institutions| == 1 && a.institutions[0].displayName == ""))
  {
    JoinIsEmpty(InstitutionNames(a.institutions), ", ");
  }

  // ------------------------------------------------------------ the lines

  function RetractedNotice(): string
  {
    "⚠️ This work has been retracted"
  }

  /** `${name} (${position})`, then ` - ${institutions}` and ` [ORCID: ${orcid}]` when truthy. */
  function AuthorText(a: AuthorEntry): string
  {
    var base := a.name + " (" + a.position + ")";
    var withInstitutions := if a.institutions != "" then base + " - " + a.institutions else base;
    if Truthy(a.orcid) then withInstitutions + " [ORCID: " + a.orcid.value + "]" else withInstitutions
  }

  function HeadLines(fw: FormattedWork): seq<Line>
  {
    [Title(fw.title), Blank,
     Labelled("Type", fw.workType),
     Labelled("Year", NumOr(fw.publicationYear, "N/A")),
     Labelled("Date", Or(fw.publicationDate, "N/A")),
     Labelled("Language", Or(fw.language, "N/A")),
     Labelled("DOI", Or(fw.doi, "N/A")), Blank,
     Section("Authors")]
  }

  /** The numbered author lines, from 1, in the order of the authorships. */
  function AuthorLines(authors: seq<AuthorEntry>): seq<Line>
  {
    NumberedLines(authors, AuthorText)
  }

  function DetailLines(fw: FormattedWork): seq<Line>
  {
    [Blank, Section("Publication Details"), Labelled("Venue", fw.venue)]
    + OptLine(fw.volume, "Volume") + OptLine(fw.issue, "Issue") + OptLine(fw.pages, "Pages")
  }

  function OpenAccessLines(fw: FormattedWork): seq<Line>
  {
    [Blank, Section("Open Access"), Labelled("Is OA", YesNo(fw.isOa)), Labelled("OA Status", fw.oaStatus)]
    + OptLine(fw.oaUrl, "OA URL")
  }

  function TopicLines(fw: FormattedWork): seq<Line>
  {
    if fw.primaryTopic.Some? then
      [Blank, Section("Primary Topic"),
       Plain(fw.primaryTopic.value.0 + " (score: " + Fixed2(fw.primaryTopic.value.1) + ")")]
    else []
  }

  function KeywordLines(fw: FormattedWork): seq<Line>
  {
    if |fw.keywords| > 0 then [Blank, Section("Keywords"), Plain(Join(fw.keywords, ", "))] else []
  }

  function MetricLines(fw: FormattedWork): seq<Line>
  {
    [Blank, Section("Metrics"), Labelled("Citations", IntToString(fw.citedByCount)),
     Labelled("References", IntToString(fw.referencesCount))]
    + if fw.isRetracted then [Bold(RetractedNotice())] else []
  }

  function LinkLines(fw: FormattedWork): seq<Line>
  {
    if Truthy(fw.landingPageUrl) then
      [Blank, Section("Links"), Labelled("Landing page", fw.landingPageUrl.value)] + OptLine(fw.pdfUrl, "PDF")
    else []
  }

  /** The lines of the summary, section by section. */
  function WorkLines(fw: FormattedWork): seq<Line>
  {
    HeadLines(fw) + AuthorLines(fw.authors) + DetailLines(fw) + OpenAccessLines(fw)
    + TopicLines(fw) + KeywordLines(fw) + MetricLines(fw) + LinkLines(fw)
  }

  /** The text `getWork` replies with for a validated work. */
  function WorkText(w: Work): string
  {
    Lines(WorkLines(Format(w)))
  }

  /** The title and the labelled lines above the authors. */
  method EmitHead(text: string, ghost written: seq<Line>, fw: FormattedWork) returns (text': string, ghost written': seq<Line>)
    requires text == Lines(written)
    ensures written' == written + HeadLines(fw) && text' == Lines(written')
  {
    text', written' := Emit(text, written, Title(fw.title));
    text', written' := Emit(text', written', Blank);
    text', written' := Emit(text', written', Labelled("Type", fw.workType));
    text', written' := Emit(text', written', Labelled("Year", NumOr(fw.publicationYear, "N/A")));
    text', written' := Emit(text', written', Labelled("Date", Or(fw.publicationDate, "N/A")));
    text', written' := Emit(text', written', Labelled("Language", Or(fw.language, "N/A")));
    text', written' := Emit(text', written', Labelled("DOI", Or(fw.doi, "N/A")));
    text', written' := Emit(text', written', Blank);
    text', written' := Emit(text', written', Section("Authors"));
    HeadLinesBuilt(written, fw);
  }

  // The lines a section method appends one by one are its section's lines;
  // stated apart from the text so that the solver meets the two separately.

  lemma HeadLinesBuilt(w: seq<Line>, fw: FormattedWork)
    ensures w + [Title(fw.title)] + [Blank] + [Labelled("Type", fw.workType)]
      + [Labelled("Year", NumOr(fw.publicationYear, "N/A"))]
      + [Labelled("Date", Or(fw.publicationDate, "N/A"))]
      + [Labelled("Language", Or(fw.language, "N/A"))]
      + [Labelled("DOI", Or(fw.doi, "N/A"))] + [Blank] + [Section("Authors")]
      == w + HeadLines(fw)
  {
  }

  lemma DetailLinesBuilt(w: seq<Line>, fw: FormattedWork)
    ensures w + [Blank] + [Section("Publication Details")] + [Labelled("Venue", fw.venue)]
      + OptLine(fw.volume, "Volume") + OptLine(fw.issue, "Issue") + OptLine(fw.pages, "Pages")
      == w + DetailLines(fw)
  {
  }

  lemma OpenAccessLinesBuilt(w: seq<Line>, fw: FormattedWork)
    ensures w + [Blank] + [Section("Open Access")] + [Labelled("Is OA", YesNo(fw.isOa))]
      + [Labelled("OA Status", fw.oaStatus)] + OptLine(fw.oaUrl, "OA URL")
      == w + OpenAccessLines(fw)
  {
  }

  lemma MetricLinesBuilt(w: seq<Line>, fw: FormattedWork)
    ensures var b := w + [Blank] + [Section("Metrics")]
      + [Labelled("Citations", IntToString(fw.citedByCount))]
      + [Labelled("References", IntToString(fw.referencesCount))];
      (if fw.isRetracted then b + [Bold(RetractedNotice())] else b) == w + MetricLines(fw)
  {
  }

  lemma LinkLinesBuilt(w: seq<Line>, fw: FormattedWork)
    ensures Truthy(fw.landingPageUrl) ==>
      w + [Blank] + [Section("Links")] + [Labelled("Landing page", fw.landingPageUrl.value)]
      + OptLine(fw.pdfUrl, "PDF") == w + LinkLines(fw)
    ensures !Truthy(fw.landingPageUrl) ==> w == w + LinkLines(fw)
  {
  }

  /** One author's line, built up piece by piece. */
  method BuildAuthorText(author: AuthorEntry) returns (line: string)
    ensures line == AuthorText(author)
  {
    line := author.name + " (" + author.position + ")";
    if author.institutions != "" {
      line := line + " - " + author.institutions;
    }
    if Truthy(author.orcid) {
      line := line + " [ORCID: " + author.orcid.value + "]";
    }
  }

  /** `authors.forEach(...)`: one numbered line per author. */
  method EmitAuthors(text: string, ghost written: seq<Line>, authors: seq<AuthorEntry>) returns (text': string, ghost written': seq<Line>)
    requires text == Lines(written)
    ensures written' == written + AuthorLines(authors) && text' == Lines(written')
  {
    text', written' := text, written;
    var i := 0;
    while i < |authors|
      invariant 0 <= i <= |authors|
      invariant written' == written + AuthorLines(authors[..i])
      invariant text' == Lines(written')
    {
      var line := BuildAuthorText(authors[i]);
      text', written' := Emit(text', written', Numbered(i + 1, line));
      NumberedLinesSnoc(written, authors, AuthorText, i);
      i := i + 1;
    }
    assert authors[..i] == authors;
  }

  method EmitDetails(text: string, ghost written: seq<Line>, fw: FormattedWork) returns (text': string, ghost written': seq<Line>)
    requires text == Lines(written)
    ensures written' == written + DetailLines(fw) && text' == Lines(written')
  {
    text', written' := Emit(text, written, Blank);
    text', written' := Emit(text', written', Section("Publication Details"));
    text', written' := Emit(text', written', Labelled("Venue", fw.venue));
    text', written' := EmitOpt(text', written', fw.volume, "Volume");
    text', written' := EmitOpt(text', written', fw.issue, "Issue");
    text', written' := EmitOpt(text', written', fw.pages, "Pages");
    DetailLinesBuilt(written, fw);
  }

  method EmitOpenAccess(text: string, ghost written: seq<Line>, fw: FormattedWork) returns (text': string, ghost written': seq<Line>)
    requires text == Lines(written)
    ensures written' == written + OpenAccessLines(fw) && text' == Lines(written')
  {
    text', written' := Emit(text, written, Blank);
    text', written' := Emit(text', written', Section("Open Access"));
    text', written' := Emit(text', written', Labelled("Is OA", YesNo(fw.isOa)));
    text', written' := Emit(text', written', Labelled("OA Status", fw.oaStatus));
    text', written' := EmitOpt(text', written', fw.oaUrl, "OA URL");
    OpenAccessLinesBuilt(written, fw);
  }

  method EmitTopic(text: string, ghost written: seq<Line>, fw: FormattedWork) returns (text': string, ghost written': seq<Line>)
    requires text == Lines(written)
    ensures written' == written + TopicLines(fw) && text' == Lines(written')
  {
    text', written' := text, written;
    if fw.primaryTopic.Some? {
      text', written' := Emit(text', written', Blank);
      text', written' := Emit(text', written', Section("Primary Topic"));
      text', written' := Emit(text', written', Plain(fw.primaryTopic.value.0 + " (score: " + Fixed2(fw.primaryTopic.value.1) + ")"));
    }
  }

  method EmitKeywords(text: string, ghost written: seq<Line>, fw: FormattedWork) returns (text': string, ghost written': seq<Line>)
    requires text == Lines(written)
    ensures written' == written + KeywordLines(fw) && text' == Lines(written')
  {
    text', written' := text, written;
    if |fw.keywords| > 0 {
      text', written' := Emit(text', written', Blank);
      text', written' := Emit(text', written', Section("Keywords"));
      text', written' := Emit(text', written', Plain(Join(fw.keywords, ", ")));
    }
  }

  method EmitMetrics(text: string, ghost written: seq<Line>, fw: FormattedWork) returns (text': string, ghost written': seq<Line>)
    requires text == Lines(written)
    ensures written' == written + MetricLines(fw) && text' == Lines(written')
  {
    text', written' := Emit(text, written, Blank);
    text', written' := Emit(text', written', Section("Metrics"));
    text', written' := Emit(text', written', Labelled("Citations", IntToString(fw.citedByCount)));
    text', written' := Emit(text', written', Labelled("References", IntToString(fw.referencesCount)));
    if fw.isRetracted {
      text', written' := Emit(text', written', Bold(RetractedNotice()));
    }
    MetricLinesBuilt(written, fw);
  }

  method EmitLinks(text: string, ghost written: seq<Line>, fw: FormattedWork) returns (text': string, ghost written': seq<Line>)
    requires text == Lines(written)
    ensures written' == written + LinkLines(fw) && text' == Lines(written')
  {
    text', written' := text, written;
    if Truthy(fw.landingPageUrl) {
      text', written' := Emit(text', written', Blank);
      text', written' := Emit(text', written', Section("Links"));
      text', written' := Emit(text', written', Labelled("Landing page", fw.landingPageUrl.value));
      text', written' := EmitOpt(text', written', fw.pdfUrl, "PDF");
    }
    LinkLinesBuilt(written, fw);
  }

  /**
   * Builds the summary as `getWork` does, appending to the response text
   * line by line: the head, a loop over the authors, then sections and
   * lines under conditions.
   */
  method RenderWork(fw: FormattedWork) returns (responseText: string)
    ensures responseText == Lines(WorkLines(fw))
  {
    ghost var written: seq<Line> := [];
    assert Lines([]) == "";
    responseText, written := EmitHead("", [], fw);
    responseText, written := EmitAuthors(responseText, written, fw.authors);
    responseText, written := EmitDetails(responseText, written, fw);
    responseText, written := EmitOpenAccess(responseText, written, fw);
    responseText, written := EmitTopic(responseText, written, fw);
    responseText, written := EmitKeywords(responseText, written, fw);
    responseText, written := EmitMetrics(responseText, written, fw);
    responseText, written := EmitLinks(responseText, written, fw);
    WorkLinesBuilt(fw);
  }

  lemma WorkLinesBuilt(fw: FormattedWork)
    ensures [] + HeadLines(fw) + AuthorLines(fw.authors) + DetailLines(fw) + OpenAccessLines(fw)
      + TopicLines(fw) + KeywordLines(fw) + MetricLines(fw) + LinkLines(fw) == WorkLines(fw)
  {
    assert [] + HeadLines(fw) == HeadLines(fw);
  }

  // ---------------------------------------------------- what the lines hold

  /**
   * The authors follow the nine heading lines in the order of the
   * authorships, numbered from 1: name and position, then the institutions
   * and the ORCID when there are any.
   */
  lemma AuthorsListed(w: Work, i: nat)
    requires i < |w.authorships|
    ensures var ls, a := WorkLines(Format(w)), w.authorships[i];
      && 9 + i < |ls|
      && ls[9 + i] == Numbered(i + 1, AuthorText(AuthorEntryOf(a)))
  {
    var fw := Format(w);
    assert fw.authors == AuthorEntries(w.authorships);
    AuthorLineAt(fw, i);
  }

  /** The `i`-th author line is line `9 + i` of the reply. */
  lemma AuthorLineAt(fw: FormattedWork, i: nat)
    requires i < |fw.authors|
    ensures 9 + i < |WorkLines(fw)| && WorkLines(fw)[9 + i] == Numbered(i + 1, AuthorText(fw.authors[i]))
  {
    var head, authors := HeadLines(fw), AuthorLines(fw.authors);
    var ha := head + authors;
    assert |head| == 9;
    assert WorkLines(fw) == ha + DetailLines(fw) + OpenAccessLines(fw) + TopicLines(fw) + KeywordLines(fw)
      + MetricLines(fw) + LinkLines(fw);
    AfterHeaderAt(head, authors, [], i);
  }

  lemma AuthorLinesNumbered(authors: seq<AuthorEntry>, l: Line)
    requires l in AuthorLines(authors)
    ensures l.Numbered?
  {
  }

  /** A line of the summary is a line of one of its sections. */
  lemma InWorkLines(fw: FormattedWork, l: Line)
    ensures l in WorkLines(fw) <==>
      l in HeadLines(fw) || l in AuthorLines(fw.authors) || l in DetailLines(fw) || l in OpenAccessLines(fw)
      || l in TopicLines(fw) || l in KeywordLines(fw) || l in MetricLines(fw) || l in LinkLines(fw)
  {
  }

  /** The retraction line appears exactly when the work is retracted. */
  lemma RetractionLine(fw: FormattedWork)
    ensures Bold(RetractedNotice()) in WorkLines(fw) <==> fw.isRetracted
  {
    InWorkLines(fw, Bold(RetractedNotice()));
    if Bold(RetractedNotice()) in AuthorLines(fw.authors) {
      AuthorLinesNumbered(fw.authors, Bold(RetractedNotice()));
    }
  }

  /** The Links section appears exactly when there is a landing page. */
  lemma LinksSection(fw: FormattedWork)
    ensures Section("Links") in WorkLines(fw) <==> Truthy(fw.landingPageUrl)
  {
    InWorkLines(fw, Section("Links"));
    if Section("Links") in AuthorLines(fw.authors) {
      AuthorLinesNumbered(fw.authors, Section("Links"));
    }
  }

  /** The PDF line appears only inside the Links section: when there is a landing page and a PDF URL. */
  lemma PdfLine(fw: FormattedWork)
    ensures forall v :: Labelled("PDF", v) in WorkLines(fw) <==>
      Truthy(fw.landingPageUrl) && Truthy(fw.pdfUrl) && v == fw.pdfUrl.value
  {
    forall v
      ensures Labelled("PDF", v) in WorkLines(fw) <==> Truthy(fw.landingPageUrl) && Truthy(fw.pdfUrl) && v == fw.pdfUrl.value
    {
      InWorkLines(fw, Labelled("PDF", v));
      if Labelled("PDF", v) in AuthorLines(fw.authors) {
        AuthorLinesNumbered(fw.authors, Labelled("PDF", v));
      }
    }
  }

  /** The pages line appears exactly when there are pages, and shows them. */
  lemma PagesLine(fw: FormattedWork)
    ensures forall v :: Labelled("Pages", v) in WorkLines(fw) <==> Truthy(fw.pages) && v == fw.pages.value
  {
    forall v
      ensures Labelled("Pages", v) in WorkLines(fw) <==> Truthy(fw.pages) && v == fw.pages.value
    {
      InWorkLines(fw, Labelled("Pages", v));
      if Labelled("Pages", v) in AuthorLines(fw.authors) {
        AuthorLinesNumbered(fw.authors, Labelled("Pages", v));
      }
    }
  }

  /** The Keywords section appears exactly when there are keywords. */
  lemma KeywordsSection(fw: FormattedWork)
    ensures Section("Keywords") in WorkLines(fw) <==> |fw.keywords| > 0
  {
    InWorkLines(fw, Section("Keywords"));
    if Section("Keywords") in AuthorLines(fw.authors) {
      AuthorLinesNumbered(fw.authors, Section("Keywords"));
    }
  }

  /** The Primary Topic section appears exactly when the work has a primary topic. */
  lemma PrimaryTopicSection(fw: FormattedWork)
    ensures Section("Primary Topic") in WorkLines(fw) <==> fw.primaryTopic.Some?
  {
    InWorkLines(fw, Section("Primary Topic"));
    if Section("Primary Topic") in AuthorLines(fw.authors) {
      AuthorLinesNumbered(fw.authors, Section("Primary Topic"));
    }
  }

  /** A year of 0 or null reads `N/A`, as `publication_year || 'N/A'` does. */
  lemma YearLine(fw: FormattedWork)
    ensures fw.publicationYear.None? || fw.publicationYear == Some(0) ==>
      HeadLines(fw)[3] == Labelled("Year", "N/A")
    ensures fw.publicationYear.Some? && fw.publicationYear.value != 0 ==>
      HeadLines(fw)[3] == Labelled("Year", IntToString(fw.publicationYear.value))
  {
  }

  // ------------------------------------------------------------- the tool

  /** What `getWork(args)` does, given what the HTTP call brings back. */
  function GetWorkOutcome(args: Option<Json>, isEmail: string -> bool, outcome: HttpOutcome): ToolOutcome
  {
    match ParseGetInput(args, isEmail)
    case None => Threw
    case Some(p) =>
      Ran(RequestFor("/works/" + NormaliseId(p.id), [], Options(p.mailto)),
        Handle(ErrorPrefix(), Classify(outcome), DecodeWork, WorkText))
  }

  /**
   * `getWork`: parse the arguments (a failure throws), cut a URL id down,
   * then fetch and reply.
   */
  method GetWork(args: Option<Json>, isEmail: string -> bool, outcome: HttpOutcome) returns (result: ToolOutcome)
    ensures result == GetWorkOutcome(args, isEmail, outcome)
  {
    var params := ParseGetInput(args, isEmail);
    if params.None? {
      return Threw;
    }
    var workId := CutId(params.value.id);
    result := FetchWork(workId, params.value.mailto, outcome);
  }

  /** The `try` block of `getWork`: fetch `/works/<id>`, validate, and reply with the summary or an error result. */
  method FetchWork(workId: string, mailto: Option<string>, outcome: HttpOutcome) returns (result: ToolOutcome)
    ensures result == Ran(RequestFor("/works/" + workId, [], Options(mailto)),
                          Handle(ErrorPrefix(), Classify(outcome), DecodeWork, WorkText))
  {
    var request, fetched := FetchFromOpenAlex("/works/" + workId, [], Options(mailto), outcome);
    HandleCases(ErrorPrefix(), fetched, DecodeWork, WorkText);
    if fetched.Err? {
      return Ran(request, Failure(ErrorPrefix(), FetchFailed(fetched.error)));
    }
    var work := DecodeWork(fetched.value);
    if work.None? {
      return Ran(request, Failure(ErrorPrefix(), Invalid));
    }
    var text := Summarise(work.value);
    result := Ran(request, Reply(text));
  }

  /** `formatWork` followed by the rendering of its lines. */
  method Summarise(w: Work) returns (text: string)
    ensures text == WorkText(w)
  {
    text := RenderWork(Format(w));
  }

  /**
   * Bad arguments throw with no request; otherwise the request is for
   * `/works/<normalised id>` and carries at most the one mailto pair; every
   * failure after parsing is an error result with the prefix
   * `Error fetching work: `.
   */
  lemma GetWorkSteps(args: Option<Json>, isEmail: string -> bool, outcome: HttpOutcome)
    ensures var o := GetWorkOutcome(args, isEmail, outcome);
      && (o.Threw? <==> ParseGetInput(args, isEmail).None?)
      && (o.Ran? ==> var p := ParseGetInput(args, isEmail).value;
           && o.request.path == "/works/" + NormaliseId(p.id)
           && |o.request.query| <= 1 && CountName(o.request.query, "mailto") == |o.request.query|
           && (o.result.Failure? ==> o.result.prefix == ErrorPrefix())
           && (Classify(outcome).Err? ==> ErrorText(o.result) == Some(ErrorPrefix() + Classify(outcome).error.message))
           && (o.result.Reply? <==> Classify(outcome).Ok? && DecodeWork(Classify(outcome).value).Some?))
  {
    var o := GetWorkOutcome(args, isEmail, outcome);
    if o.Ran? {
      var p := ParseGetInput(args, isEmail).value;
      OnlyMailto("/works/" + NormaliseId(p.id), p.mailto);
      HandleSteps(ErrorPrefix(), Classify(outcome), DecodeWork, WorkText);
    }
  }

  /** `W123` and `https://openalex.org/W123` fetch the same `/works/W123`. */
  lemma UrlIdSameRequest(x: string, isEmail: string -> bool, outcome: HttpOutcome)
    requires x != "" && forall i | 0 <= i < |x| :: x[i] != '/'
    ensures var short := Some(JObj([Member("id", JStr(x))]));
      var long := Some(JObj([Member("id", JStr(OpenAlexPrefix() + x))]));
      var fetched := Ran(RequestFor("/works/" + x, [], Options(None)), Handle(ErrorPrefix(), Classify(outcome), DecodeWork, WorkText));
      GetWorkOutcome(short, isEmail, outcome) == fetched && GetWorkOutcome(long, isEmail, outcome) == fetched
  {
    NormaliseIdOfUrl(x);
    IdOnlyParses(x, isEmail);
    IdOnlyParses(OpenAlexPrefix() + x, isEmail);
  }
}
