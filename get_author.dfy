/**
 * The `get_author` tool: one author by id, as a markdown summary.
 *
 * The arguments are parsed first; an `https://openalex.org/` URL id is cut
 * to its last path segment; the author is fetched from `/authors/<id>` with
 * only the mailto option; the body must conform to `AuthorSchema`; the
 * summary is built line by line. Each affiliation's years are sorted
 * newest first in place before its year range is read off the two ends.
 */
module GetAuthor {
  import opened Wrappers
  import opened Json
  import opened Text
  import opened Client
  import opened Types
  import opened Tools

  function ErrorPrefix(): string
  {
    "Error fetching author: "
  }

  // ---------------------------------------------------------- year ranges

  /** Newest first: every year is at least every later one. */
  predicate Descending(s: seq<int>)
  {
    forall p, q | 0 <= p < q < |s| :: s[p] >= s[q]
  }

  function Largest(s: seq<int>): (m: int)
    requires |s| > 0
    ensures m in s && forall x | x in s :: x <= m
  {
    if |s| == 1 then s[0]
    else
      var rest := Largest(s[1..]);
      assert forall x | x in s :: x == s[0] || x in s[1..];
      if s[0] >= rest then s[0] else rest
  }

  function Smallest(s: seq<int>): (m: int)
    requires |s| > 0
    ensures m in s && forall x | x in s :: m <= x
  {
    if |s| == 1 then s[0]
    else
      var rest := Smallest(s[1..]);
      assert forall x | x in s :: x == s[0] || x in s[1..];
      if s[0] <= rest then s[0] else rest
  }

  /**
   * The year range of an affiliation: earliest and latest year joined by a
   * dash when there are two or more years, the one year alone, and
   * `undefined` (what a template prints for `years[0]` of an empty array)
   * when there are none.
   */
  function YearRangeOf(years: seq<int>): string
  {
    if |years| > 1 then IntToString(Smallest(years)) + "-" + IntToString(Largest(years))
    else if |years| == 1 then IntToString(years[0])
    else "undefined"
  }

  /** Exchanges two elements, leaving the others where they are. */
  method Swap(a: array<int>, i: int, j: int)
    requires 0 <= i < a.Length && 0 <= j < a.Length
    modifies a
    ensures a[i] == old(a[j]) && a[j] == old(a[i])
    ensures forall k | 0 <= k < a.Length && k != i && k != j :: a[k] == old(a[k])
    ensures multiset(a[..]) == multiset(old(a[..]))
  {
    a[i], a[j] := a[j], a[i];
  }

  /** `years.sort((a, b) => b - a)`: sorts in place, newest first. */
  method SortDescending(a: array<int>)
    modifies a
    ensures Descending(a[..])
    ensures multiset(a[..]) == multiset(old(a[..]))
  {
    var i := 1;
    while i < a.Length
      invariant a.Length == 0 || 1 <= i <= a.Length
      invariant forall p, q | 0 <= p < q < i && q < a.Length :: a[p] >= a[q]
      invariant multiset(a[..]) == multiset(old(a[..]))
    {
      var j := i;
      while j > 0 && a[j - 1] < a[j]
        invariant 0 <= j <= i
        invariant forall p, q | 0 <= p < q <= i && q != j :: a[p] >= a[q]
        invariant 0 < j < i ==> a[j - 1] >= a[j + 1]
        invariant multiset(a[..]) == multiset(old(a[..]))
      {
        Swap(a, j - 1, j);
        j := j - 1;
      }
      i := i + 1;
    }
  }

  /** The first of a newest-first permutation is the latest year, the last the earliest. */
  lemma DescendingEnds(s: seq<int>, t: seq<int>)
    requires Descending(s) && multiset(s) == multiset(t) && |t| > 0
    ensures |s| == |t| && s[0] == Largest(t) && s[|s| - 1] == Smallest(t)
  {
    assert |s| == |multiset(s)| == |t|;
    assert s[0] in multiset(t) && s[|s| - 1] in multiset(t);
    assert s[0] in t && s[|s| - 1] in t;
    var hi, lo := Largest(t), Smallest(t);
    assert hi in multiset(s) && lo in multiset(s);
    var k :| 0 <= k < |s| && s[k] == hi;
    var m :| 0 <= m < |s| && s[m] == lo;
    assert s[0] >= s[k] && s[m] >= s[|s| - 1];
  }

  /**
   * The year range as `getAuthor` computes it: copy the years, sort them
   * newest first, and read the two ends.
   */
  method YearRange(years: seq<int>) returns (range: string)
    ensures range == YearRangeOf(years)
  {
    var a := new int[|years|](i requires 0 <= i < |years| => years[i]);
    assert a[..] == years;
    SortDescending(a);
    if a.Length > 0 {
      DescendingEnds(a[..], years);
    }
    if a.Length > 1 {
      range := IntToString(a[a.Length - 1]) + "-" + IntToString(a[0]);
    } else if a.Length == 1 {
      assert years == [years[0]];
      range := IntToString(a[0]);
    } else {
      range := "undefined";
    }
  }

  /** Two or more years make `earliest-latest`, with the earliest no later than the latest. */
  lemma YearRangeBounds(years: seq<int>)
    requires |years| > 1
    ensures exists lo, hi | lo in years && hi in years ::
      lo <= hi && YearRangeOf(years) == IntToString(lo) + "-" + IntToString(hi)
      && forall y | y in years :: lo <= y <= hi
  {
    var lo, hi := Smallest(years), Largest(years);
    assert lo <= years[0] <= hi;
  }

  // ------------------------------------------------------------ the lines

  function AlternativeNamesLine(a: Author): seq<Line>
  {
    if |a.displayNameAlternatives| > 0 then
      [Labelled("Alternative names", Join(a.displayNameAlternatives, ", "))]
    else []
  }

  function HeadLines(a: Author): seq<Line>
  {
    [Title(a.displayName), Blank] + AlternativeNamesLine(a) + OptLine(a.orcid, "ORCID")
    + [Labelled("OpenAlex ID", a.id), Blank]
  }

  function CareerLines(a: Author): seq<Line>
  {
    [Section("Career Metrics"),
     Metric("Total Works", IntToString(a.worksCount)),
     Metric("Total Citations", IntToString(a.citedByCount)),
     Metric("h-index", IntToString(a.summaryStats.hIndex)),
     Metric("i10-index", IntToString(a.summaryStats.i10Index)),
     Metric("2-year mean citedness", Fixed2(a.summaryStats.twoYearMeanCitedness)),
     Blank]
  }

  /** `- ${name}`, then ` (${country})` and ` - ${type}` when truthy. */
  function InstitutionText(inst: DehydratedInstitution): string
  {
    var withCountry := if Truthy(inst.countryCode) then inst.displayName + " (" + inst.countryCode.value + ")" else inst.displayName;
    if Truthy(inst.institutionType) then withCountry + " - " + inst.institutionType.value else withCountry
  }

  function InstitutionBullet(inst: DehydratedInstitution): Line
  {
    Bullet(InstitutionText(inst))
  }

  function InstitutionBullets(insts: seq<DehydratedInstitution>): seq<Line>
  {
    MapEach(insts, InstitutionBullet)
  }

  function CurrentLines(a: Author): seq<Line>
  {
    if |a.lastKnownInstitutions| > 0 then
      [Section("Current Affiliations")] + InstitutionBullets(a.lastKnownInstitutions) + [Blank]
    else []
  }

  /** `- ${institution} (${yearRange})`, then ` - ${country}` when truthy. */
  function AffiliationText(af: Affiliation): string
  {
    var base := af.institution.displayName + " (" + YearRangeOf(af.years) + ")";
    if Truthy(af.institution.countryCode) then base + " - " + af.institution.countryCode.value else base
  }

  function AffiliationBullet(af: Affiliation): Line
  {
    Bullet(AffiliationText(af))
  }

  function AffiliationBullets(afs: seq<Affiliation>): seq<Line>
  {
    MapEach(afs, AffiliationBullet)
  }

  /** `  ...and <n> more<what>` when `n` items were left out, nothing otherwise. */
  function MoreLine(n: int, shown: nat, what: string): seq<Line>
  {
    if n > shown then [More(n - shown, what)] else []
  }

  function HistoryLines(a: Author): seq<Line>
  {
    var afs := a.affiliations;
    if |afs| > 0 then
      [Section("Affiliation History")] + AffiliationBullets(Take(afs, 5)) + MoreLine(|afs|, 5, "") + [Blank]
    else []
  }

  /** A topic's three lines: name and count, then its field and its domain. */
  function TopicEntry(t: Topic): seq<Line>
  {
    [Bullet(t.displayName + " (" + IntToString(t.count) + " works)"),
     Plain("  - Field: " + t.field.displayName),
     Plain("  - Domain: " + t.domain.displayName)]
  }

  function TopicEntries(ts: seq<Topic>): seq<Line>
  {
    if |ts| == 0 then [] else TopicEntries(ts[..|ts| - 1]) + TopicEntry(ts[|ts| - 1])
  }

  function TopicLines(a: Author): seq<Line>
  {
    var ts := a.topics;
    if |ts| > 0 then
      [Section("Research Topics")] + TopicEntries(Take(ts, 10)) + MoreLine(|ts|, 10, " topics") + [Blank]
    else []
  }

  /** `| ${year} | ${works} | ${citations} |` */
  function Row(y: YearCount): Line
  {
    Plain("| " + IntToString(y.year) + " | " + IntToString(y.worksCount) + " | " + IntToString(y.citedByCount) + " |")
  }

  function Rows(ys: seq<YearCount>): seq<Line>
  {
    MapEach(ys, Row)
  }

  function TableHeader(): seq<Line>
  {
    [Section("Recent Activity"), Plain("| Year | Works | Citations |"), Plain("|------|-------|----------|")]
  }

  function ActivityLines(a: Author): seq<Line>
  {
    var recent := Take(a.countsByYear, 5);
    if |recent| > 0 then TableHeader() + Rows(recent) + [Blank] else []
  }

  /** `- ${name}: ${id}` when the id is truthy. */
  function IdLine(v: Option<string>, name: string): seq<Line>
  {
    if Truthy(v) then [Bullet(name + ": " + v.value)] else []
  }

  function ExternalLines(a: Author): seq<Line>
  {
    [Section("External IDs")]
    + IdLine(a.ids.orcid, "ORCID") + IdLine(a.ids.scopus, "Scopus")
    + IdLine(a.ids.twitter, "Twitter") + IdLine(a.ids.wikipedia, "Wikipedia")
  }

  function LinkLines(a: Author): seq<Line>
  {
    [Blank, Section("Links"), Bullet("Works API: " + a.worksApiUrl), Bullet("Updated: " + a.updatedDate)]
  }

  /** The lines of the summary, section by section. */
  function SummaryLines(a: Author): seq<Line>
  {
    HeadLines(a) + CareerLines(a) + CurrentLines(a) + HistoryLines(a) + TopicLines(a)
    + ActivityLines(a) + ExternalLines(a) + LinkLines(a)
  }

  /** The text `getAuthor` replies with for a validated author. */
  function AuthorText(a: Author): string
  {
    Lines(SummaryLines(a))
  }

  // ----------------------------------------------- building the text

  // The lines a section method appends one by one are its section's lines;
  // stated apart from the text so that the solver meets the two separately.

  lemma HeadLinesBuilt(w: seq<Line>, a: Author)
    ensures w + [Title(a.displayName)] + [Blank] + AlternativeNamesLine(a) + OptLine(a.orcid, "ORCID")
      + [Labelled("OpenAlex ID", a.id)] + [Blank] == w + HeadLines(a)
  {
  }

  lemma CareerLinesBuilt(w: seq<Line>, a: Author)
    ensures w + [Section("Career Metrics")]
      + [Metric("Total Works", IntToString(a.worksCount))]
      + [Metric("Total Citations", IntToString(a.citedByCount))]
      + [Metric("h-index", IntToString(a.summaryStats.hIndex))]
      + [Metric("i10-index", IntToString(a.summaryStats.i10Index))]
      + [Metric("2-year mean citedness", Fixed2(a.summaryStats.twoYearMeanCitedness))]
      + [Blank] == w + CareerLines(a)
  {
  }

  lemma ListBuilt(w: seq<Line>, head: seq<Line>, items: seq<Line>, more: seq<Line>, tail: seq<Line>)
    ensures w + head + items + more + tail == w + (head + items + more + tail)
  {
  }

  lemma TableBuilt(w: seq<Line>, head: seq<Line>, items: seq<Line>, tail: seq<Line>)
    ensures w + head + items + tail == w + (head + items + tail)
  {
  }

  lemma ExternalLinesBuilt(w: seq<Line>, a: Author)
    ensures w + [Section("External IDs")]
      + IdLine(a.ids.orcid, "ORCID") + IdLine(a.ids.scopus, "Scopus")
      + IdLine(a.ids.twitter, "Twitter") + IdLine(a.ids.wikipedia, "Wikipedia") == w + ExternalLines(a)
  {
  }

  lemma LinkLinesBuilt(w: seq<Line>, a: Author)
    ensures w + [Blank] + [Section("Links")] + [Bullet("Works API: " + a.worksApiUrl)]
      + [Bullet("Updated: " + a.updatedDate)] == w + LinkLines(a)
  {
  }

  lemma SummaryLinesBuilt(a: Author)
    ensures [] + HeadLines(a) + CareerLines(a) + CurrentLines(a) + HistoryLines(a) + TopicLines(a)
      + ActivityLines(a) + ExternalLines(a) + LinkLines(a) == SummaryLines(a)
  {
    assert [] + HeadLines(a) == HeadLines(a);
  }

  method EmitHead(text: string, ghost written: seq<Line>, a: Author) returns (text': string, ghost written': seq<Line>)
    requires text == Lines(written)
    ensures written' == written + HeadLines(a) && text' == Lines(written')
  {
    text', written' := Emit(text, written, Title(a.displayName));
    text', written' := Emit(text', written', Blank);
    ghost var before := written';
    if |a.displayNameAlternatives| > 0 {
      text', written' := Emit(text', written', Labelled("Alternative names", Join(a.displayNameAlternatives, ", ")));
    }
    assert written' == before + AlternativeNamesLine(a);
    text', written' := EmitOpt(text', written', a.orcid, "ORCID");
    text', written' := Emit(text', written', Labelled("OpenAlex ID", a.id));
    text', written' := Emit(text', written', Blank);
    HeadLinesBuilt(written, a);
  }

  method EmitCareer(text: string, ghost written: seq<Line>, a: Author) returns (text': string, ghost written': seq<Line>)
    requires text == Lines(written)
    ensures written' == written + CareerLines(a) && text' == Lines(written')
  {
    text', written' := Emit(text, written, Section("Career Metrics"));
    text', written' := Emit(text', written', Metric("Total Works", IntToString(a.worksCount)));
    text', written' := Emit(text', written', Metric("Total Citations", IntToString(a.citedByCount)));
    text', written' := Emit(text', written', Metric("h-index", IntToString(a.summaryStats.hIndex)));
    text', written' := Emit(text', written', Metric("i10-index", IntToString(a.summaryStats.i10Index)));
    text', written' := Emit(text', written', Metric("2-year mean citedness", Fixed2(a.summaryStats.twoYearMeanCitedness)));
    text', written' := Emit(text', written', Blank);
    CareerLinesBuilt(written, a);
  }

  /** `last_known_institutions.forEach(...)` under its heading, when there are any. */
  method EmitCurrent(text: string, ghost written: seq<Line>, a: Author) returns (text': string, ghost written': seq<Line>)
    requires text == Lines(written)
    ensures written' == written + CurrentLines(a) && text' == Lines(written')
  {
    text', written' := text, written;
    var insts := a.lastKnownInstitutions;
    if |insts| > 0 {
      text', written' := Emit(text', written', Section("Current Affiliations"));
      ghost var start := written';
      var i := 0;
      while i < |insts|
        invariant 0 <= i <= |insts|
        invariant written' == start + InstitutionBullets(insts[..i])
        invariant text' == Lines(written')
      {
        var inst := insts[i];
        var line := inst.displayName;
        if Truthy(inst.countryCode) {
          line := line + " (" + inst.countryCode.value + ")";
        }
        if Truthy(inst.institutionType) {
          line := line + " - " + inst.institutionType.value;
        }
        assert line == InstitutionText(inst);
        text', written' := Emit(text', written', Bullet(line));
        MapEachSnoc(start, insts, InstitutionBullet, i);
        i := i + 1;
      }
      assert insts[..i] == insts;
      text', written' := Emit(text', written', Blank);
      TableBuilt(written, [Section("Current Affiliations")], InstitutionBullets(insts), [Blank]);
    }
  }

  /** `slice(0, 5).forEach(...)`: one bullet per affiliation, each with its sorted year range. */
  method EmitAffiliations(text: string, ghost written: seq<Line>, shown: seq<Affiliation>) returns (text': string, ghost written': seq<Line>)
    requires text == Lines(written)
    ensures written' == written + AffiliationBullets(shown) && text' == Lines(written')
  {
    text', written' := text, written;
    var i := 0;
    while i < |shown|
      invariant 0 <= i <= |shown|
      invariant written' == written + AffiliationBullets(shown[..i])
      invariant text' == Lines(written')
    {
      var af := shown[i];
      var range := YearRange(af.years);
      var line := af.institution.displayName + " (" + range + ")";
      if Truthy(af.institution.countryCode) {
        line := line + " - " + af.institution.countryCode.value;
      }
      assert line == AffiliationText(af);
      text', written' := Emit(text', written', Bullet(line));
      MapEachSnoc(written, shown, AffiliationBullet, i);
      i := i + 1;
    }
    assert shown[..i] == shown;
  }

  /** The first five affiliations, then how many were left out. */
  method EmitHistory(text: string, ghost written: seq<Line>, a: Author) returns (text': string, ghost written': seq<Line>)
    requires text == Lines(written)
    ensures written' == written + HistoryLines(a) && text' == Lines(written')
  {
    text', written' := text, written;
    var afs := a.affiliations;
    if |afs| > 0 {
      text', written' := Emit(text', written', Section("Affiliation History"));
      var shown := Take(afs, 5);
      text', written' := EmitAffiliations(text', written', shown);
      ghost var listed := written';
      if |afs| > 5 {
        text', written' := Emit(text', written', More(|afs| - 5, ""));
      }
      assert written' == listed + MoreLine(|afs|, 5, "");
      text', written' := Emit(text', written', Blank);
      ListBuilt(written, [Section("Affiliation History")], AffiliationBullets(shown), MoreLine(|afs|, 5, ""), [Blank]);
    }
  }

  lemma TopicEntriesSnoc(w: seq<Line>, ts: seq<Topic>, i: nat)
    requires i < |ts|
    ensures w + TopicEntries(ts[..i + 1]) == w + TopicEntries(ts[..i]) + TopicEntry(ts[i])
  {
    assert ts[..i + 1][..i] == ts[..i];
  }

  lemma TopicEntryBuilt(w: seq<Line>, t: Topic)
    ensures w + [Bullet(t.displayName + " (" + IntToString(t.count) + " works)")]
      + [Plain("  - Field: " + t.field.displayName)]
      + [Plain("  - Domain: " + t.domain.displayName)] == w + TopicEntry(t)
  {
  }

  /** `slice(0, 10).forEach(...)`: three lines per topic. */
  method EmitTopicEntries(text: string, ghost written: seq<Line>, shown: seq<Topic>) returns (text': string, ghost written': seq<Line>)
    requires text == Lines(written)
    ensures written' == written + TopicEntries(shown) && text' == Lines(written')
  {
    text', written' := text, written;
    var i := 0;
    while i < |shown|
      invariant 0 <= i <= |shown|
      invariant written' == written + TopicEntries(shown[..i])
      invariant text' == Lines(written')
    {
      var t := shown[i];
      ghost var before := written';
      text', written' := Emit(text', written', Bullet(t.displayName + " (" + IntToString(t.count) + " works)"));
      text', written' := Emit(text', written', Plain("  - Field: " + t.field.displayName));
      text', written' := Emit(text', written', Plain("  - Domain: " + t.domain.displayName));
      TopicEntryBuilt(before, t);
      TopicEntriesSnoc(written, shown, i);
      i := i + 1;
    }
    assert shown[..i] == shown;
  }

  /** The first ten topics, then how many were left out. */
  method EmitTopics(text: string, ghost written: seq<Line>, a: Author) returns (text': string, ghost written': seq<Line>)
    requires text == Lines(written)
    ensures written' == written + TopicLines(a) && text' == Lines(written')
  {
    text', written' := text, written;
    var ts := a.topics;
    if |ts| > 0 {
      text', written' := Emit(text', written', Section("Research Topics"));
      var shown := Take(ts, 10);
      text', written' := EmitTopicEntries(text', written', shown);
      ghost var listed := written';
      if |ts| > 10 {
        text', written' := Emit(text', written', More(|ts| - 10, " topics"));
      }
      assert written' == listed + MoreLine(|ts|, 10, " topics");
      text', written' := Emit(text', written', Blank);
      ListBuilt(written, [Section("Research Topics")], TopicEntries(shown), MoreLine(|ts|, 10, " topics"), [Blank]);
    }
  }

  /** `recentYears.forEach(...)`: one table row per year. */
  method EmitRows(text: string, ghost written: seq<Line>, recent: seq<YearCount>) returns (text': string, ghost written': seq<Line>)
    requires text == Lines(written)
    ensures written' == written + Rows(recent) && text' == Lines(written')
  {
    text', written' := text, written;
    var i := 0;
    while i < |recent|
      invariant 0 <= i <= |recent|
      invariant written' == written + Rows(recent[..i])
      invariant text' == Lines(written')
    {
      text', written' := Emit(text', written', Row(recent[i]));
      MapEachSnoc(written, recent, Row, i);
      i := i + 1;
    }
    assert recent[..i] == recent;
  }

  /** The table of the first five years of `counts_by_year`, when there are any. */
  method EmitActivity(text: string, ghost written: seq<Line>, a: Author) returns (text': string, ghost written': seq<Line>)
    requires text == Lines(written)
    ensures written' == written + ActivityLines(a) && text' == Lines(written')
  {
    text', written' := text, written;
    var recent := Take(a.countsByYear, 5);
    if |recent| > 0 {
      text', written' := Emit(text', written', Section("Recent Activity"));
      text', written' := Emit(text', written', Plain("| Year | Works | Citations |"));
      text', written' := Emit(text', written', Plain("|------|-------|----------|"));
      TableHeaderBuilt(written);
      text', written' := EmitRows(text', written', recent);
      text', written' := Emit(text', written', Blank);
      TableBuilt(written, TableHeader(), Rows(recent), [Blank]);
    }
  }

  lemma TableHeaderBuilt(w: seq<Line>)
    ensures w + [Section("Recent Activity")] + [Plain("| Year | Works | Citations |")]
      + [Plain("|------|-------|----------|")] == w + TableHeader()
  {
  }

  /** A bullet for an external id when it is truthy. */
  method EmitId(text: string, ghost written: seq<Line>, v: Option<string>, name: string) returns (text': string, ghost written': seq<Line>)
    requires text == Lines(written)
    ensures written' == written + IdLine(v, name) && text' == Lines(written')
  {
    text', written' := text, written;
    if Truthy(v) {
      text', written' := Emit(text', written', Bullet(name + ": " + v.value));
    }
  }

  method EmitExternal(text: string, ghost written: seq<Line>, a: Author) returns (text': string, ghost written': seq<Line>)
    requires text == Lines(written)
    ensures written' == written + ExternalLines(a) && text' == Lines(written')
  {
    text', written' := Emit(text, written, Section("External IDs"));
    text', written' := EmitId(text', written', a.ids.orcid, "ORCID");
    text', written' := EmitId(text', written', a.ids.scopus, "Scopus");
    text', written' := EmitId(text', written', a.ids.twitter, "Twitter");
    text', written' := EmitId(text', written', a.ids.wikipedia, "Wikipedia");
    ExternalLinesBuilt(written, a);
  }

  method EmitLinks(text: string, ghost written: seq<Line>, a: Author) returns (text': string, ghost written': seq<Line>)
    requires text == Lines(written)
    ensures written' == written + LinkLines(a) && text' == Lines(written')
  {
    text', written' := Emit(text, written, Blank);
    text', written' := Emit(text', written', Section("Links"));
    text', written' := Emit(text', written', Bullet("Works API: " + a.worksApiUrl));
    text', written' := Emit(text', written', Bullet("Updated: " + a.updatedDate));
    LinkLinesBuilt(written, a);
  }

  /** Builds the summary as `getAuthor` does, section by section. */
  method RenderAuthor(a: Author) returns (responseText: string)
    ensures responseText == Lines(SummaryLines(a))
  {
    ghost var written: seq<Line> := [];
    assert Lines([]) == "";
    responseText, written := EmitHead("", [], a);
    responseText, written := EmitCareer(responseText, written, a);
    responseText, written := EmitCurrent(responseText, written, a);
    responseText, written := EmitHistory(responseText, written, a);
    responseText, written := EmitTopics(responseText, written, a);
    responseText, written := EmitActivity(responseText, written, a);
    responseText, written := EmitExternal(responseText, written, a);
    responseText, written := EmitLinks(responseText, written, a);
    SummaryLinesBuilt(a);
  }

  // ---------------------------------------------------- what the lines hold

  /** The lines inside a list: bullets, plain lines and the `...and n more` line. */
  predicate ListLines(ls: seq<Line>)
  {
    forall l | l in ls :: l.Bullet? || l.Plain? || l.More?
  }

  lemma {:induction false} TopicEntriesLength(ts: seq<Topic>)
    ensures |TopicEntries(ts)| == 3 * |ts|
  {
    if |ts| > 0 {
      TopicEntriesLength(ts[..|ts| - 1]);
    }
  }

  /** The three lines of the `i`-th topic sit at `3 * i`. */
  lemma {:induction false} TopicEntriesAt(ts: seq<Topic>, i: nat)
    requires i < |ts|
    ensures var es, e := TopicEntries(ts), TopicEntry(ts[i]);
      |es| == 3 * |ts| && es[3 * i] == e[0] && es[3 * i + 1] == e[1] && es[3 * i + 2] == e[2]
  {
    TopicEntriesLength(ts);
    var init := ts[..|ts| - 1];
    TopicEntriesLength(init);
    if i < |ts| - 1 {
      TopicEntriesAt(init, i);
      assert init[i] == ts[i];
    }
  }

  lemma {:induction false} TopicEntriesAreListLines(ts: seq<Topic>)
    ensures ListLines(TopicEntries(ts))
  {
    if |ts| > 0 {
      TopicEntriesAreListLines(ts[..|ts| - 1]);
    }
  }

  /** A line of the summary is a line of one of its sections. */
  lemma InSummary(a: Author, l: Line)
    ensures l in SummaryLines(a) <==>
      l in HeadLines(a) || l in CareerLines(a) || l in CurrentLines(a) || l in HistoryLines(a)
      || l in TopicLines(a) || l in ActivityLines(a) || l in ExternalLines(a) || l in LinkLines(a)
  {
  }

  /** Sections and labelled lines never come from inside a list. */
  lemma ListSections(a: Author, l: Line)
    requires l.Section? || l.Labelled?
    ensures l in CurrentLines(a) ==> l == Section("Current Affiliations")
    ensures l in HistoryLines(a) ==> l == Section("Affiliation History")
    ensures l in TopicLines(a) ==> l == Section("Research Topics")
    ensures l in ActivityLines(a) ==> l == Section("Recent Activity")
  {
    AffiliationSections(a, l);
    TopicAndActivitySections(a, l);
  }

  lemma AffiliationSections(a: Author, l: Line)
    requires l.Section? || l.Labelled?
    ensures l in CurrentLines(a) ==> l == Section("Current Affiliations")
    ensures l in HistoryLines(a) ==> l == Section("Affiliation History")
  {
    assert ListLines(InstitutionBullets(a.lastKnownInstitutions));
    assert ListLines(AffiliationBullets(Take(a.affiliations, 5)));
  }

  lemma TopicAndActivitySections(a: Author, l: Line)
    requires l.Section? || l.Labelled?
    ensures l in TopicLines(a) ==> l == Section("Research Topics")
    ensures l in ActivityLines(a) ==> l == Section("Recent Activity")
  {
    TopicEntriesAreListLines(Take(a.topics, 10));
    assert ListLines(Rows(Take(a.countsByYear, 5)));
  }

  /** The sections that are always there, and the head, which has none. */
  lemma FixedSections(a: Author, l: Line)
    requires l.Section?
    ensures l !in HeadLines(a)
    ensures l in CareerLines(a) <==> l == Section("Career Metrics")
    ensures l in ExternalLines(a) <==> l == Section("External IDs")
    ensures l in LinkLines(a) <==> l == Section("Links")
  {
    assert forall x | x in HeadLines(a) :: !x.Section?;
    IdLinesHaveNoSection(a, l);
  }

  lemma IdLinesHaveNoSection(a: Author, l: Line)
    requires l.Section?
    ensures l in ExternalLines(a) <==> l == Section("External IDs")
  {
    var ids := IdLine(a.ids.orcid, "ORCID") + IdLine(a.ids.scopus, "Scopus")
      + IdLine(a.ids.twitter, "Twitter") + IdLine(a.ids.wikipedia, "Wikipedia");
    assert forall x | x in ids :: x.Bullet?;
    assert ExternalLines(a) == [Section("External IDs")] + ids;
  }

  /**
   * The alternative names line appears exactly when there are alternative
   * names, and shows them joined by commas.
   */
  lemma AlternativeNamesShown(a: Author, v: string)
    ensures Labelled("Alternative names", v) in SummaryLines(a) <==>
      |a.displayNameAlternatives| > 0 && v == Join(a.displayNameAlternatives, ", ")
  {
    var l := Labelled("Alternative names", v);
    InSummary(a, l);
    ListSections(a, l);
    AlternativeNamesInHead(a, v);
    assert l !in CareerLines(a) && l !in LinkLines(a);
    assert l !in ExternalLines(a);
  }

  /** Among the heading lines, only the alternative names line carries that label. */
  lemma AlternativeNamesInHead(a: Author, v: string)
    ensures Labelled("Alternative names", v) in HeadLines(a) <==>
      |a.displayNameAlternatives| > 0 && v == Join(a.displayNameAlternatives, ", ")
  {
    var alt, orcid := AlternativeNamesLine(a), OptLine(a.orcid, "ORCID");
    assert HeadLines(a) == [Title(a.displayName), Blank] + alt + orcid + [Labelled("OpenAlex ID", a.id), Blank];
    assert Labelled("Alternative names", v) !in orcid;
  }

  /** The Current Affiliations section appears exactly when there are last known institutions. */
  lemma CurrentAffiliationsShown(a: Author)
    ensures Section("Current Affiliations") in SummaryLines(a) <==> |a.lastKnownInstitutions| > 0
  {
    InSummary(a, Section("Current Affiliations"));
    ListSections(a, Section("Current Affiliations"));
    FixedSections(a, Section("Current Affiliations"));
  }

  /** The Affiliation History section appears exactly when there are affiliations. */
  lemma HistoryShown(a: Author)
    ensures Section("Affiliation History") in SummaryLines(a) <==> |a.affiliations| > 0
  {
    InSummary(a, Section("Affiliation History"));
    ListSections(a, Section("Affiliation History"));
    FixedSections(a, Section("Affiliation History"));
  }

  /** The Research Topics section appears exactly when there are topics. */
  lemma TopicsShown(a: Author)
    ensures Section("Research Topics") in SummaryLines(a) <==> |a.topics| > 0
  {
    InSummary(a, Section("Research Topics"));
    ListSections(a, Section("Research Topics"));
    FixedSections(a, Section("Research Topics"));
  }

  /** The Recent Activity table appears exactly when there are yearly counts. */
  lemma ActivityShown(a: Author)
    ensures Section("Recent Activity") in SummaryLines(a) <==> |a.countsByYear| > 0
  {
    InSummary(a, Section("Recent Activity"));
    ListSections(a, Section("Recent Activity"));
    FixedSections(a, Section("Recent Activity"));
  }

  /**
   * Affiliation History lists the first five affiliations in order, each
   * with its year range, then says how many more there are when there are
   * more than five.
   */
  lemma HistoryShape(a: Author)
    requires |a.affiliations| > 0
    ensures var afs, h := a.affiliations, HistoryLines(a);
      var n := if |afs| < 5 then |afs| else 5;
      && |h| == n + (if |afs| > 5 then 3 else 2)
      && h[0] == Section("Affiliation History") && h[|h| - 1] == Blank
      && (forall i | 0 <= i < n :: h[1 + i] == Bullet(AffiliationText(afs[i])))
      && (|afs| > 5 ==> h[|h| - 2] == More(|afs| - 5, ""))
      && (|afs| <= 5 ==> forall l | l in h :: !l.More?)
  {
    var afs := a.affiliations;
    var shown := Take(afs, 5);
    var bs, more := AffiliationBullets(shown), MoreLine(|afs|, 5, "");
    var h := HistoryLines(a);
    assert h == [Section("Affiliation History")] + bs + more + [Blank];
    forall i | 0 <= i < |shown|
      ensures h[1 + i] == Bullet(AffiliationText(afs[i]))
    {
      FramedAt(Section("Affiliation History"), bs, more, Blank, i);
      assert shown[i] == afs[i];
    }
  }

  /** Research Topics shows at most ten topics, then how many more there are when there are more than ten. */
  lemma TopicsFrame(a: Author)
    requires |a.topics| > 0
    ensures var ts, t := a.topics, TopicLines(a);
      var n := if |ts| < 10 then |ts| else 10;
      && |t| == 3 * n + (if |ts| > 10 then 3 else 2)
      && t[0] == Section("Research Topics") && t[|t| - 1] == Blank
      && (|ts| > 10 ==> t[|t| - 2] == More(|ts| - 10, " topics"))
  {
    var ts := a.topics;
    var es := TopicEntries(Take(ts, 10));
    TopicEntriesLength(Take(ts, 10));
    assert TopicLines(a) == [Section("Research Topics")] + es + MoreLine(|ts|, 10, " topics") + [Blank];
  }

  /** The topic entries follow the heading. */
  lemma TopicLinesAt(a: Author, j: nat)
    requires |a.topics| > 0 && j < |TopicEntries(Take(a.topics, 10))|
    ensures |TopicEntries(Take(a.topics, 10))| + 2 <= |TopicLines(a)|
    ensures TopicLines(a)[1 + j] == TopicEntries(Take(a.topics, 10))[j]
  {
    var es, more := TopicEntries(Take(a.topics, 10)), MoreLine(|a.topics|, 10, " topics");
    assert TopicLines(a) == [Section("Research Topics")] + es + more + [Blank];
    FramedAt(Section("Research Topics"), es, more, Blank, j);
  }

  /** Each of the first ten topics takes three lines, in order: name and count, field, domain. */
  lemma TopicShown(a: Author, i: nat)
    requires i < |a.topics| && i < 10
    ensures var ts, t := a.topics, TopicLines(a);
      && 3 + 3 * i < |t|
      && t[1 + 3 * i] == Bullet(ts[i].displayName + " (" + IntToString(ts[i].count) + " works)")
      && t[2 + 3 * i] == Plain("  - Field: " + ts[i].field.displayName)
      && t[3 + 3 * i] == Plain("  - Domain: " + ts[i].domain.displayName)
  {
    var ts := a.topics;
    var shown := Take(ts, 10);
    var es := TopicEntries(shown);
    TopicEntriesAt(shown, i);
    assert shown[i] == ts[i];
    TopicLinesAt(a, 3 * i);
    TopicLinesAt(a, 3 * i + 1);
    TopicLinesAt(a, 3 * i + 2);
  }

  /** Recent Activity shows the header and then the first five yearly counts, in the order given. */
  lemma ActivityShape(a: Author)
    requires |a.countsByYear| > 0
    ensures var ys, t := a.countsByYear, ActivityLines(a);
      var n := if |ys| < 5 then |ys| else 5;
      && |t| == 4 + n
      && t[..3] == TableHeader() && t[|t| - 1] == Blank
      && forall i | 0 <= i < n :: t[3 + i] == Row(ys[i])
  {
    var recent := Take(a.countsByYear, 5);
    var rs := Rows(recent);
    var t := ActivityLines(a);
    assert t == TableHeader() + rs + [Blank];
    forall i | 0 <= i < |recent|
      ensures t[3 + i] == Row(a.countsByYear[i])
    {
      AfterHeaderAt(TableHeader(), rs, [Blank], i);
      assert recent[i] == a.countsByYear[i];
    }
  }

  // ------------------------------------------------------------- the tool

  /** What `getAuthor(args)` does, given what the HTTP call brings back. */
  function GetAuthorOutcome(args: Option<Json>, isEmail: string -> bool, outcome: HttpOutcome): ToolOutcome
  {
    match ParseGetInput(args, isEmail)
    case None => Threw
    case Some(p) =>
      Ran(RequestFor("/authors/" + NormaliseId(p.id), [], Options(p.mailto)),
        Handle(ErrorPrefix(), Classify(outcome), DecodeAuthor, AuthorText))
  }

  /**
   * `getAuthor`: parse the arguments (a failure throws), cut a URL id down,
   * then fetch and reply.
   */
  method GetAuthor(args: Option<Json>, isEmail: string -> bool, outcome: HttpOutcome) returns (result: ToolOutcome)
    ensures result == GetAuthorOutcome(args, isEmail, outcome)
  {
    var params := ParseGetInput(args, isEmail);
    if params.None? {
      return Threw;
    }
    var authorId := CutId(params.value.id);
    result := FetchAuthor(authorId, params.value.mailto, outcome);
  }

  /** The `try` block of `getAuthor`: fetch `/authors/<id>`, validate, and reply with the summary or an error result. */
  method FetchAuthor(authorId: string, mailto: Option<string>, outcome: HttpOutcome) returns (result: ToolOutcome)
    ensures result == Ran(RequestFor("/authors/" + authorId, [], Options(mailto)),
                          Handle(ErrorPrefix(), Classify(outcome), DecodeAuthor, AuthorText))
  {
    var request, fetched := FetchFromOpenAlex("/authors/" + authorId, [], Options(mailto), outcome);
    if fetched.Err? {
      return Ran(request, Failure(ErrorPrefix(), FetchFailed(fetched.error)));
    }
    var author := DecodeAuthor(fetched.value);
    if author.None? {
      return Ran(request, Failure(ErrorPrefix(), Invalid));
    }
    var text := RenderAuthor(author.value);
    result := Ran(request, Reply(text));
  }

  /**
   * Bad arguments throw with no request; otherwise the request is for
   * `/authors/<normalised id>` with at most the mailto pair, and every
   * failure after parsing is an error result with the prefix
   * `Error fetching author: `.
   */
  lemma GetAuthorSteps(args: Option<Json>, isEmail: string -> bool, outcome: HttpOutcome)
    ensures var o := GetAuthorOutcome(args, isEmail, outcome);
      && (o.Threw? <==> ParseGetInput(args, isEmail).None?)
      && (o.Ran? ==> var p := ParseGetInput(args, isEmail).value;
           && o.request.path == "/authors/" + NormaliseId(p.id)
           && |o.request.query| <= 1 && CountName(o.request.query, "mailto") == |o.request.query|
           && (o.result.Failure? ==> o.result.prefix == ErrorPrefix())
           && (Classify(outcome).Err? ==> ErrorText(o.result) == Some(ErrorPrefix() + Classify(outcome).error.message))
           && (o.result.Reply? <==> Classify(outcome).Ok? && DecodeAuthor(Classify(outcome).value).Some?))
  {
    var o := GetAuthorOutcome(args, isEmail, outcome);
    if o.Ran? {
      var p := ParseGetInput(args, isEmail).value;
      OnlyMailto("/authors/" + NormaliseId(p.id), p.mailto);
      HandleSteps(ErrorPrefix(), Classify(outcome), DecodeAuthor, AuthorText);
    }
  }
}
