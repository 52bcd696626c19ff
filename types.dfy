/**
 * The entity schemas of src/types.ts (Work, Author, Institution, Source), as
 * Schema values, and the typed records a successful parse yields.
 *
 * A parse is the conformance check followed by extraction: `DecodeWork(v)`
 * is `Some(w)` exactly when `v` conforms to `WorkSchema()`, and `w` holds
 * the declared fields only (undeclared keys are stripped, as z.object does).
 * Nullable fields become `Option<T>` (None: null), optional ones
 * `Option<T>` (None: the key was absent); `z.unknown()` values stay `Json`.
 *
 * Each entity's fields are written in source order in groups of at most
 * eight, joined with `Concat`; `IsWork` and its kin state conformance group
 * by group, and `WorkGroups` and its kin show that this is conformance to
 * the whole object schema.
 */
module Types {
  import opened Wrappers
  import opened Json
  import opened Schema
  import opened Text

  // ------------------------------------------------------------- accessors
  // What a conforming object holds under a key whose declared schema is known.

  /** Strings of a `z.array(z.string())`. */
  function Strings(items: seq<Json>): (r: seq<string>)
    requires forall x | x in items :: x.JStr?
    ensures |r| == |items| && forall i | 0 <= i < |r| :: items[i] == JStr(r[i])
  {
    var r := seq(|items|, i requires 0 <= i < |items| => assert items[i] in items; items[i].s);
    assert forall i | 0 <= i < |r| :: items[i] in items;
    r
  }

  /** Numbers of a `z.array(z.number())`. */
  function Numbers(items: seq<Json>): (r: seq<int>)
    requires forall x | x in items :: x.JNum?
    ensures |r| == |items| && forall i | 0 <= i < |r| :: items[i] == JNum(r[i])
  {
    var r := seq(|items|, i requires 0 <= i < |items| => assert items[i] in items; items[i].n);
    assert forall i | 0 <= i < |r| :: items[i] in items;
    r
  }

  function StrAt(fs: Fields, ms: seq<Member>, k: string): (r: string)
    requires Conforms(fs, ms) && SchemaOf(fs, k) == Some(SString)
    ensures Lookup(ms, k) == Some(JStr(r))
  {
    FieldAt(fs, ms, k);
    Lookup(ms, k).value.s
  }

  function NumAt(fs: Fields, ms: seq<Member>, k: string): (r: int)
    requires Conforms(fs, ms) && SchemaOf(fs, k) == Some(SNumber)
    ensures Lookup(ms, k) == Some(JNum(r))
  {
    FieldAt(fs, ms, k);
    Lookup(ms, k).value.n
  }

  function BoolAt(fs: Fields, ms: seq<Member>, k: string): (r: bool)
    requires Conforms(fs, ms) && SchemaOf(fs, k) == Some(SBool)
    ensures Lookup(ms, k) == Some(JBool(r))
  {
    FieldAt(fs, ms, k);
    Lookup(ms, k).value.b
  }

  function NullableStrAt(fs: Fields, ms: seq<Member>, k: string): (r: Option<string>)
    requires Conforms(fs, ms) && SchemaOf(fs, k) == Some(SNullable(SString))
    ensures Lookup(ms, k) == Some(if r.Some? then JStr(r.value) else JNull)
  {
    FieldAt(fs, ms, k);
    var v := Lookup(ms, k).value;
    if v.JStr? then Some(v.s) else None
  }

  function NullableNumAt(fs: Fields, ms: seq<Member>, k: string): (r: Option<int>)
    requires Conforms(fs, ms) && SchemaOf(fs, k) == Some(SNullable(SNumber))
    ensures Lookup(ms, k) == Some(if r.Some? then JNum(r.value) else JNull)
  {
    FieldAt(fs, ms, k);
    var v := Lookup(ms, k).value;
    if v.JNum? then Some(v.n) else None
  }

  function OptionalStrAt(fs: Fields, ms: seq<Member>, k: string): Option<string>
    requires Conforms(fs, ms) && SchemaOf(fs, k) == Some(SOptional(SString))
  {
    FieldAt(fs, ms, k);
    var v := Lookup(ms, k);
    if v.Some? then Some(v.value.s) else None
  }

  function OptionalBoolAt(fs: Fields, ms: seq<Member>, k: string): Option<bool>
    requires Conforms(fs, ms) && SchemaOf(fs, k) == Some(SOptional(SBool))
  {
    FieldAt(fs, ms, k);
    var v := Lookup(ms, k);
    if v.Some? then Some(v.value.b) else None
  }

  function StrsAt(fs: Fields, ms: seq<Member>, k: string): seq<string>
    requires Conforms(fs, ms) && SchemaOf(fs, k) == Some(SArray(SString))
  {
    FieldAt(fs, ms, k);
    Strings(Lookup(ms, k).value.items)
  }

  function OptionalStrsAt(fs: Fields, ms: seq<Member>, k: string): Option<seq<string>>
    requires Conforms(fs, ms) && SchemaOf(fs, k) == Some(SOptional(SArray(SString)))
  {
    FieldAt(fs, ms, k);
    var v := Lookup(ms, k);
    if v.Some? then Some(Strings(v.value.items)) else None
  }

  function NullableStrsAt(fs: Fields, ms: seq<Member>, k: string): Option<seq<string>>
    requires Conforms(fs, ms) && SchemaOf(fs, k) == Some(SNullable(SArray(SString)))
  {
    FieldAt(fs, ms, k);
    var v := Lookup(ms, k).value;
    if v.JArr? then Some(Strings(v.items)) else None
  }

  function NumsAt(fs: Fields, ms: seq<Member>, k: string): seq<int>
    requires Conforms(fs, ms) && SchemaOf(fs, k) == Some(SArray(SNumber))
  {
    FieldAt(fs, ms, k);
    Numbers(Lookup(ms, k).value.items)
  }

  function UnknownsAt(fs: Fields, ms: seq<Member>, k: string): seq<Json>
    requires Conforms(fs, ms) && SchemaOf(fs, k) == Some(SArray(SUnknown))
  {
    FieldAt(fs, ms, k);
    Lookup(ms, k).value.items
  }

  function NullableUnknownsAt(fs: Fields, ms: seq<Member>, k: string): Option<seq<Json>>
    requires Conforms(fs, ms) && SchemaOf(fs, k) == Some(SNullable(SArray(SUnknown)))
  {
    FieldAt(fs, ms, k);
    var v := Lookup(ms, k).value;
    if v.JArr? then Some(v.items) else None
  }

  /** The name-to-string pairs of a `z.record(z.string())`, in the order written. */
  function StrRecordAt(fs: Fields, ms: seq<Member>, k: string): seq<(string, string)>
    requires Conforms(fs, ms) && SchemaOf(fs, k) == Some(SRecord(SString))
  {
    FieldAt(fs, ms, k);
    var names := Lookup(ms, k).value.members;
    seq(|names|, i requires 0 <= i < |names| => assert names[i] in names; (names[i].key, names[i].value.s))
  }

  /** The members of a nested object. */
  function ObjectAt(fs: Fields, ms: seq<Member>, k: string, sub: Fields): (r: seq<Member>)
    requires Conforms(fs, ms) && SchemaOf(fs, k) == Some(SObject(sub))
    ensures Lookup(ms, k) == Some(JObj(r))
    ensures Conforms(sub, r)
  {
    FieldAt(fs, ms, k);
    Lookup(ms, k).value.members
  }

  /** The members of a nested object that may be null (None). */
  function NullableObjectAt(fs: Fields, ms: seq<Member>, k: string, sub: Fields): (r: Option<seq<Member>>)
    requires Conforms(fs, ms) && SchemaOf(fs, k) == Some(SNullable(SObject(sub)))
    ensures Lookup(ms, k) == Some(if r.Some? then JObj(r.value) else JNull)
    ensures r.Some? ==> Conforms(sub, r.value)
  {
    FieldAt(fs, ms, k);
    var v := Lookup(ms, k).value;
    if v.JObj? then Some(v.members) else None
  }

  /** The members of each object of a nested array of objects. */
  function ObjectsAt(fs: Fields, ms: seq<Member>, k: string, sub: Fields): (r: seq<seq<Member>>)
    requires Conforms(fs, ms) && SchemaOf(fs, k) == Some(SArray(SObject(sub)))
    ensures forall i | 0 <= i < |r| :: Conforms(sub, r[i])
  {
    FieldAt(fs, ms, k);
    var items := Lookup(ms, k).value.items;
    var r := seq(|items|, i requires 0 <= i < |items| => assert items[i] in items; items[i].members);
    assert forall i | 0 <= i < |r| :: items[i] in items;
    r
  }

  // ------------------------------------------------------- shared pieces

  /** `{ id, display_name }` of a topic's subfield, field and domain. */
  function RefFields(): Fields
  {
    Field("id", SString,
    Field("display_name", SString,
    End))
  }

  datatype Ref = Ref(id: string, displayName: string)

  function ExtractRef(ms: seq<Member>): Ref
    requires Conforms(RefFields(), ms)
  {
    var fs := RefFields();
    Ref(StrAt(fs, ms, "id"), StrAt(fs, ms, "display_name"))
  }

  /** An institution as authorships and affiliations show it. */
  function DehydratedInstitutionFields(): Fields
  {
    Field("id", SString,
    Field("display_name", SString,
    Field("ror", SNullable(SString),
    Field("country_code", SNullable(SString),
    Field("type", SNullable(SString),
    End)))))
  }

  datatype DehydratedInstitution = DehydratedInstitution(
    id: string, displayName: string, ror: Option<string>, countryCode: Option<string>,
    institutionType: Option<string>)

  function ExtractDehydratedInstitution(ms: seq<Member>): DehydratedInstitution
    requires Conforms(DehydratedInstitutionFields(), ms)
  {
    var fs := DehydratedInstitutionFields();
    DehydratedInstitution(StrAt(fs, ms, "id"), StrAt(fs, ms, "display_name"), NullableStrAt(fs, ms, "ror"),
      NullableStrAt(fs, ms, "country_code"), NullableStrAt(fs, ms, "type"))
  }

  function DehydratedInstitutionsAt(fs: Fields, ms: seq<Member>, k: string): seq<DehydratedInstitution>
    requires Conforms(fs, ms) && SchemaOf(fs, k) == Some(SArray(SObject(DehydratedInstitutionFields())))
  {
    var os := ObjectsAt(fs, ms, k, DehydratedInstitutionFields());
    seq(|os|, i requires 0 <= i < |os| => ExtractDehydratedInstitution(os[i]))
  }

  /** `{ '2yr_mean_citedness', h_index, i10_index }` */
  function SummaryStatsFields(): Fields
  {
    Field("2yr_mean_citedness", SNumber,
    Field("h_index", SNumber,
    Field("i10_index", SNumber,
    End)))
  }

  datatype SummaryStats = SummaryStats(twoYearMeanCitedness: int, hIndex: int, i10Index: int)

  function ExtractSummaryStats(ms: seq<Member>): SummaryStats
    requires Conforms(SummaryStatsFields(), ms)
  {
    var fs := SummaryStatsFields();
    SummaryStats(NumAt(fs, ms, "2yr_mean_citedness"), NumAt(fs, ms, "h_index"), NumAt(fs, ms, "i10_index"))
  }

  /** A topic with its work count and its place in the subfield/field/domain hierarchy. */
  function TopicFields(): Fields
  {
    Field("id", SString,
    Field("display_name", SString,
    Field("count", SNumber,
    Field("subfield", SObject(RefFields()),
    Field("field", SObject(RefFields()),
    Field("domain", SObject(RefFields()),
    End))))))
  }

  datatype Topic = Topic(id: string, displayName: string, count: int, subfield: Ref, field: Ref, domain: Ref)

  function ExtractTopic(ms: seq<Member>): Topic
    requires Conforms(TopicFields(), ms)
  {
    var fs := TopicFields();
    Topic(StrAt(fs, ms, "id"), StrAt(fs, ms, "display_name"), NumAt(fs, ms, "count"),
      ExtractRef(ObjectAt(fs, ms, "subfield", RefFields())),
      ExtractRef(ObjectAt(fs, ms, "field", RefFields())),
      ExtractRef(ObjectAt(fs, ms, "domain", RefFields())))
  }

  function TopicsAt(fs: Fields, ms: seq<Member>, k: string): seq<Topic>
    requires Conforms(fs, ms) && SchemaOf(fs, k) == Some(SArray(SObject(TopicFields())))
  {
    var os := ObjectsAt(fs, ms, k, TopicFields());
    seq(|os|, i requires 0 <= i < |os| => ExtractTopic(os[i]))
  }

  /** The (legacy) concepts of works and x_concepts of the other entities. */
  function ConceptFields(): Fields
  {
    Field("id", SString,
    Field("wikidata", SString,
    Field("display_name", SString,
    Field("level", SNumber,
    Field("score", SNumber,
    End)))))
  }

  datatype Concept = Concept(id: string, wikidata: string, displayName: string, level: int, score: int)

  function ExtractConcept(ms: seq<Member>): Concept
    requires Conforms(ConceptFields(), ms)
  {
    var fs := ConceptFields();
    Concept(StrAt(fs, ms, "id"), StrAt(fs, ms, "wikidata"), StrAt(fs, ms, "display_name"),
      NumAt(fs, ms, "level"), NumAt(fs, ms, "score"))
  }

  function ConceptsAt(fs: Fields, ms: seq<Member>, k: string): seq<Concept>
    requires Conforms(fs, ms) && SchemaOf(fs, k) == Some(SArray(SObject(ConceptFields())))
  {
    var os := ObjectsAt(fs, ms, k, ConceptFields());
    seq(|os|, i requires 0 <= i < |os| => ExtractConcept(os[i]))
  }

  /** A year's works and citations, for authors, institutions and sources. */
  function YearCountFields(): Fields
  {
    Field("year", SNumber,
    Field("works_count", SNumber,
    Field("cited_by_count", SNumber,
    End)))
  }

  datatype YearCount = YearCount(year: int, worksCount: int, citedByCount: int)

  function ExtractYearCount(ms: seq<Member>): YearCount
    requires Conforms(YearCountFields(), ms)
  {
    var fs := YearCountFields();
    YearCount(NumAt(fs, ms, "year"), NumAt(fs, ms, "works_count"), NumAt(fs, ms, "cited_by_count"))
  }

  function YearCountsAt(fs: Fields, ms: seq<Member>, k: string): seq<YearCount>
    requires Conforms(fs, ms) && SchemaOf(fs, k) == Some(SArray(SObject(YearCountFields())))
  {
    var os := ObjectsAt(fs, ms, k, YearCountFields());
    seq(|os|, i requires 0 <= i < |os| => ExtractYearCount(os[i]))
  }

  // ------------------------------------------------------------------ Work

  function WorkIdsFields(): Fields
  {
    Field("openalex", SString,
    Field("doi", SOptional(SString),
    Field("pmid", SOptional(SString),
    Field("pmcid", SOptional(SString),
    End))))
  }

  datatype WorkIds = WorkIds(openalex: string, doi: Option<string>, pmid: Option<string>, pmcid: Option<string>)

  function ExtractWorkIds(ms: seq<Member>): WorkIds
    requires Conforms(WorkIdsFields(), ms)
  {
    var fs := WorkIdsFields();
    WorkIds(StrAt(fs, ms, "openalex"), OptionalStrAt(fs, ms, "doi"), OptionalStrAt(fs, ms, "pmid"),
      OptionalStrAt(fs, ms, "pmcid"))
  }

  /** The venue of a location. */
  function LocationSourceFields(): Fields
  {
    Field("id", SString,
    Field("display_name", SString,
    Field("issn_l", SNullable(SString),
    Field("issn", SNullable(SArray(SString)),
    Field("is_oa", SBool,
    Field("is_in_doaj", SBool,
    End))))))
  }

  datatype LocationSource = LocationSource(
    id: string, displayName: string, issnL: Option<string>, issn: Option<seq<string>>, isOa: bool, isInDoaj: bool)

  function ExtractLocationSource(ms: seq<Member>): LocationSource
    requires Conforms(LocationSourceFields(), ms)
  {
    var fs := LocationSourceFields();
    LocationSource(StrAt(fs, ms, "id"), StrAt(fs, ms, "display_name"), NullableStrAt(fs, ms, "issn_l"),
      NullableStrsAt(fs, ms, "issn"), BoolAt(fs, ms, "is_oa"), BoolAt(fs, ms, "is_in_doaj"))
  }

  function LocationFields(): Fields
  {
    Field("source", SNullable(SObject(LocationSourceFields())),
    Field("landing_page_url", SNullable(SString),
    Field("pdf_url", SNullable(SString),
    Field("license", SNullable(SString),
    Field("version", SNullable(SString),
    Field("is_oa", SBool,
    Field("is_accepted", SBool,
    Field("is_published", SBool,
    End))))))))
  }

  datatype Location = Location(
    source: Option<LocationSource>, landingPageUrl: Option<string>, pdfUrl: Option<string>,
    license: Option<string>, version: Option<string>, isOa: bool, isAccepted: bool, isPublished: bool)

  function ExtractLocation(ms: seq<Member>): Location
    requires Conforms(LocationFields(), ms)
  {
    var fs := LocationFields();
    var src := NullableObjectAt(fs, ms, "source", LocationSourceFields());
    Location(
      if src.Some? then Some(ExtractLocationSource(src.value)) else None,
      NullableStrAt(fs, ms, "landing_page_url"), NullableStrAt(fs, ms, "pdf_url"),
      NullableStrAt(fs, ms, "license"), NullableStrAt(fs, ms, "version"),
      BoolAt(fs, ms, "is_oa"), BoolAt(fs, ms, "is_accepted"), BoolAt(fs, ms, "is_published"))
  }

  function NullableLocationAt(fs: Fields, ms: seq<Member>, k: string): Option<Location>
    requires Conforms(fs, ms) && SchemaOf(fs, k) == Some(SNullable(SObject(LocationFields())))
  {
    var o := NullableObjectAt(fs, ms, k, LocationFields());
    if o.Some? then Some(ExtractLocation(o.value)) else None
  }

  /** The venue name of a nullable location is the name under its nullable source. */
  lemma LocationVenue(fs: Fields, ms: seq<Member>, k: string)
    requires Conforms(fs, ms) && SchemaOf(fs, k) == Some(SNullable(SObject(LocationFields())))
    ensures var l := NullableLocationAt(fs, ms, k);
      Get(Get(Lookup(ms, k), "source"), "display_name") ==
        if l.Some? && l.value.source.Some? then Some(JStr(l.value.source.value.displayName)) else None
  {
    var o := NullableObjectAt(fs, ms, k, LocationFields());
    if o.Some? {
      var src := NullableObjectAt(LocationFields(), o.value, "source", LocationSourceFields());
      if src.Some? {
        assert ExtractLocationSource(src.value).displayName == StrAt(LocationSourceFields(), src.value, "display_name");
      }
    }
  }

  function OpenAccessFields(): Fields
  {
    Field("is_oa", SBool,
    Field("oa_status", SString,
    Field("oa_url", SNullable(SString),
    Field("any_repository_has_fulltext", SBool,
    End))))
  }

  /** `primaryLocation?.source?.display_name || 'Unknown'` */
  function Venue(location: Option<Location>): string
  {
    if location.Some? && location.value.source.Some? then Or(Some(location.value.source.value.displayName), "Unknown")
    else "Unknown"
  }

  datatype OpenAccess = OpenAccess(isOa: bool, oaStatus: string, oaUrl: Option<string>, anyRepositoryHasFulltext: bool)

  function ExtractOpenAccess(ms: seq<Member>): OpenAccess
    requires Conforms(OpenAccessFields(), ms)
  {
    var fs := OpenAccessFields();
    OpenAccess(BoolAt(fs, ms, "is_oa"), StrAt(fs, ms, "oa_status"), NullableStrAt(fs, ms, "oa_url"),
      BoolAt(fs, ms, "any_repository_has_fulltext"))
  }

  function AuthorRefFields(): Fields
  {
    Field("id", SString,
    Field("display_name", SString,
    Field("orcid", SNullable(SString),
    End)))
  }

  datatype AuthorRef = AuthorRef(id: string, displayName: string, orcid: Option<string>)

  function ExtractAuthorRef(ms: seq<Member>): AuthorRef
    requires Conforms(AuthorRefFields(), ms)
  {
    var fs := AuthorRefFields();
    AuthorRef(StrAt(fs, ms, "id"), StrAt(fs, ms, "display_name"), NullableStrAt(fs, ms, "orcid"))
  }

  function AuthorshipFields(): Fields
  {
    Field("author_position", SString,
    Field("author", SObject(AuthorRefFields()),
    Field("institutions", SArray(SObject(DehydratedInstitutionFields())),
    Field("countries", SArray(SString),
    Field("is_corresponding", SBool,
    Field("raw_author_name", SString,
    Field("raw_affiliation_strings", SArray(SString),
    End)))))))
  }

  datatype Authorship = Authorship(
    authorPosition: string, author: AuthorRef, institutions: seq<DehydratedInstitution>,
    countries: seq<string>, isCorresponding: bool, rawAuthorName: string, rawAffiliationStrings: seq<string>)

  function ExtractAuthorship(ms: seq<Member>): Authorship
    requires Conforms(AuthorshipFields(), ms)
  {
    var fs := AuthorshipFields();
    Authorship(StrAt(fs, ms, "author_position"),
      ExtractAuthorRef(ObjectAt(fs, ms, "author", AuthorRefFields())),
      DehydratedInstitutionsAt(fs, ms, "institutions"),
      StrsAt(fs, ms, "countries"), BoolAt(fs, ms, "is_corresponding"), StrAt(fs, ms, "raw_author_name"),
      StrsAt(fs, ms, "raw_affiliation_strings"))
  }

  function AuthorshipsAt(fs: Fields, ms: seq<Member>, k: string): seq<Authorship>
    requires Conforms(fs, ms) && SchemaOf(fs, k) == Some(SArray(SObject(AuthorshipFields())))
  {
    var os := ObjectsAt(fs, ms, k, AuthorshipFields());
    seq(|os|, i requires 0 <= i < |os| => ExtractAuthorship(os[i]))
  }

  function BiblioFields(): Fields
  {
    Field("volume", SNullable(SString),
    Field("issue", SNullable(SString),
    Field("first_page", SNullable(SString),
    Field("last_page", SNullable(SString),
    End))))
  }

  datatype Biblio = Biblio(volume: Option<string>, issue: Option<string>, firstPage: Option<string>, lastPage: Option<string>)

  function ExtractBiblio(ms: seq<Member>): Biblio
    requires Conforms(BiblioFields(), ms)
  {
    var fs := BiblioFields();
    Biblio(NullableStrAt(fs, ms, "volume"), NullableStrAt(fs, ms, "issue"),
      NullableStrAt(fs, ms, "first_page"), NullableStrAt(fs, ms, "last_page"))
  }

  /** `{ id, display_name, score }`: a work's primary topic, topics and keywords. */
  function ScoredFields(): Fields
  {
    Field("id", SString,
    Field("display_name", SString,
    Field("score", SNumber,
    End)))
  }

  datatype Scored = Scored(id: string, displayName: string, score: int)

  function ExtractScored(ms: seq<Member>): Scored
    requires Conforms(ScoredFields(), ms)
  {
    var fs := ScoredFields();
    Scored(StrAt(fs, ms, "id"), StrAt(fs, ms, "display_name"), NumAt(fs, ms, "score"))
  }

  function ScoredsAt(fs: Fields, ms: seq<Member>, k: string): seq<Scored>
    requires Conforms(fs, ms) && SchemaOf(fs, k) == Some(SArray(SObject(ScoredFields())))
  {
    var os := ObjectsAt(fs, ms, k, ScoredFields());
    seq(|os|, i requires 0 <= i < |os| => ExtractScored(os[i]))
  }

  function NullableScoredAt(fs: Fields, ms: seq<Member>, k: string): Option<Scored>
    requires Conforms(fs, ms) && SchemaOf(fs, k) == Some(SNullable(SObject(ScoredFields())))
  {
    var o := NullableObjectAt(fs, ms, k, ScoredFields());
    if o.Some? then Some(ExtractScored(o.value)) else None
  }

  function CitationCountFields(): Fields
  {
    Field("year", SNumber,
    Field("cited_by_count", SNumber,
    End))
  }

  datatype CitationCount = CitationCount(year: int, citedByCount: int)

  function ExtractCitationCount(ms: seq<Member>): CitationCount
    requires Conforms(CitationCountFields(), ms)
  {
    var fs := CitationCountFields();
    CitationCount(NumAt(fs, ms, "year"), NumAt(fs, ms, "cited_by_count"))
  }

  function CitationCountsAt(fs: Fields, ms: seq<Member>, k: string): seq<CitationCount>
    requires Conforms(fs, ms) && SchemaOf(fs, k) == Some(SArray(SObject(CitationCountFields())))
  {
    var os := ObjectsAt(fs, ms, k, CitationCountFields());
    seq(|os|, i requires 0 <= i < |os| => ExtractCitationCount(os[i]))
  }

  function WorkFieldsA(): Fields
  {
    Field("id", SString,
    Field("doi", SNullable(SString),
    Field("title", SNullable(SString),
    Field("display_name", SString,
    Field("publication_year", SNullable(SNumber),
    Field("publication_date", SNullable(SString),
    Field("ids", SObject(WorkIdsFields()),
    End)))))))
  }

  function WorkFieldsB(): Fields
  {
    Field("language", SNullable(SString),
    Field("primary_location", SNullable(SObject(LocationFields())),
    Field("type", SString,
    Field("type_crossref", SNullable(SString),
    Field("open_access", SObject(OpenAccessFields()),
    Field("authorships", SArray(SObject(AuthorshipFields())),
    End))))))
  }

  function WorkFieldsC(): Fields
  {
    Field("biblio", SObject(BiblioFields()),
    Field("is_retracted", SBool,
    Field("is_paratext", SBool,
    Field("primary_topic", SNullable(SObject(ScoredFields())),
    Field("topics", SArray(SObject(ScoredFields())),
    Field("keywords", SArray(SObject(ScoredFields())),
    End))))))
  }

  function WorkFieldsD(): Fields
  {
    Field("concepts", SArray(SObject(ConceptFields())),
    Field("mesh", SArray(SUnknown),
    Field("locations_count", SNumber,
    Field("locations", SArray(SUnknown),
    Field("best_oa_location", SNullable(SUnknown),
    Field("sustainable_development_goals", SArray(SUnknown),
    End))))))
  }

  function WorkFieldsE(): Fields
  {
    Field("grants", SArray(SUnknown),
    Field("datasets", SArray(SUnknown),
    Field("versions", SArray(SUnknown),
    Field("referenced_works_count", SNumber,
    Field("referenced_works", SArray(SString),
    Field("related_works", SArray(SString),
    End))))))
  }

  function WorkFieldsF(): Fields
  {
    Field("cited_by_count", SNumber,
    Field("cited_by_api_url", SString,
    Field("counts_by_year", SArray(SObject(CitationCountFields())),
    Field("updated_date", SString,
    Field("created_date", SString,
    End)))))
  }

  function WorkFields(): Fields
  {
    Concat(WorkFieldsA(), Concat(WorkFieldsB(), Concat(WorkFieldsC(),
      Concat(WorkFieldsD(), Concat(WorkFieldsE(), WorkFieldsF())))))
  }

  /** `WorkSchema`: an object with every work field. */
  function WorkSchema(): Schema
  {
    SObject(WorkFields())
  }

  /** A work conforms exactly when it conforms to each of the six groups. */
  predicate IsWork(ms: seq<Member>)
  {
    Conforms(WorkFieldsA(), ms) && Conforms(WorkFieldsB(), ms) && Conforms(WorkFieldsC(), ms) && Conforms(WorkFieldsD(), ms) && Conforms(WorkFieldsE(), ms) && Conforms(WorkFieldsF(), ms)
  }

  lemma WorkGroups(ms: seq<Member>)
    ensures Conforms(WorkFields(), ms) <==> IsWork(ms)
  {
    var e := Concat(WorkFieldsE(), WorkFieldsF());
    var d := Concat(WorkFieldsD(), e);
    var c := Concat(WorkFieldsC(), d);
    var b := Concat(WorkFieldsB(), c);
    ConcatConforms(WorkFieldsA(), b, ms);
    ConcatConforms(WorkFieldsB(), c, ms);
    ConcatConforms(WorkFieldsC(), d, ms);
    ConcatConforms(WorkFieldsD(), e, ms);
    ConcatConforms(WorkFieldsE(), WorkFieldsF(), ms);
  }

  datatype Work = Work(
    id: string, doi: Option<string>, title: Option<string>, displayName: string,
    publicationYear: Option<int>, publicationDate: Option<string>, ids: WorkIds,
    language: Option<string>, primaryLocation: Option<Location>, workType: string,
    typeCrossref: Option<string>, openAccess: OpenAccess, authorships: seq<Authorship>,
    biblio: Biblio, isRetracted: bool, isParatext: bool, primaryTopic: Option<Scored>,
    topics: seq<Scored>, keywords: seq<Scored>,
    concepts: seq<Concept>, mesh: seq<Json>, locationsCount: int, locations: seq<Json>,
    bestOaLocation: Option<Json>, sustainableDevelopmentGoals: seq<Json>,
    grants: seq<Json>, datasets: seq<Json>, versions: seq<Json>, referencedWorksCount: int,
    referencedWorks: seq<string>, relatedWorks: seq<string>,
    citedByCount: int, citedByApiUrl: string, countsByYear: seq<CitationCount>,
    updatedDate: string, createdDate: string)

  // The six groups of a work, extracted one at a time.

  function WorkPartA(ms: seq<Member>): (string, Option<string>, Option<string>, string, Option<int>, Option<string>, WorkIds)
    requires Conforms(WorkFieldsA(), ms)
  {
    var a := WorkFieldsA();
    (StrAt(a, ms, "id"), NullableStrAt(a, ms, "doi"), NullableStrAt(a, ms, "title"),
     StrAt(a, ms, "display_name"), NullableNumAt(a, ms, "publication_year"),
     NullableStrAt(a, ms, "publication_date"), ExtractWorkIds(ObjectAt(a, ms, "ids", WorkIdsFields())))
  }

  function WorkPartB(ms: seq<Member>): (Option<string>, Option<Location>, string, Option<string>, OpenAccess, seq<Authorship>)
    requires Conforms(WorkFieldsB(), ms)
  {
    var b := WorkFieldsB();
    (NullableStrAt(b, ms, "language"), NullableLocationAt(b, ms, "primary_location"),
     StrAt(b, ms, "type"), NullableStrAt(b, ms, "type_crossref"),
     ExtractOpenAccess(ObjectAt(b, ms, "open_access", OpenAccessFields())), AuthorshipsAt(b, ms, "authorships"))
  }

  function WorkPartC(ms: seq<Member>): (Biblio, bool, bool, Option<Scored>, seq<Scored>, seq<Scored>)
    requires Conforms(WorkFieldsC(), ms)
  {
    var c := WorkFieldsC();
    (ExtractBiblio(ObjectAt(c, ms, "biblio", BiblioFields())), BoolAt(c, ms, "is_retracted"),
     BoolAt(c, ms, "is_paratext"), NullableScoredAt(c, ms, "primary_topic"),
     ScoredsAt(c, ms, "topics"), ScoredsAt(c, ms, "keywords"))
  }

  function WorkPartD(ms: seq<Member>): (seq<Concept>, seq<Json>, int, seq<Json>, Option<Json>, seq<Json>)
    requires Conforms(WorkFieldsD(), ms)
  {
    var d := WorkFieldsD();
    (ConceptsAt(d, ms, "concepts"), UnknownsAt(d, ms, "mesh"), NumAt(d, ms, "locations_count"),
     UnknownsAt(d, ms, "locations"), Lookup(ms, "best_oa_location"), UnknownsAt(d, ms, "sustainable_development_goals"))
  }

  function WorkPartE(ms: seq<Member>): (seq<Json>, seq<Json>, seq<Json>, int, seq<string>, seq<string>)
    requires Conforms(WorkFieldsE(), ms)
  {
    var e := WorkFieldsE();
    (UnknownsAt(e, ms, "grants"), UnknownsAt(e, ms, "datasets"), UnknownsAt(e, ms, "versions"),
     NumAt(e, ms, "referenced_works_count"), StrsAt(e, ms, "referenced_works"), StrsAt(e, ms, "related_works"))
  }

  function WorkPartF(ms: seq<Member>): (int, string, seq<CitationCount>, string, string)
    requires Conforms(WorkFieldsF(), ms)
  {
    var f := WorkFieldsF();
    (NumAt(f, ms, "cited_by_count"), StrAt(f, ms, "cited_by_api_url"), CitationCountsAt(f, ms, "counts_by_year"),
     StrAt(f, ms, "updated_date"), StrAt(f, ms, "created_date"))
  }

  function ExtractWork(ms: seq<Member>): Work
    requires IsWork(ms)
  {
    var a, b, c := WorkPartA(ms), WorkPartB(ms), WorkPartC(ms);
    var d, e, f := WorkPartD(ms), WorkPartE(ms), WorkPartF(ms);
    Work(a.0, a.1, a.2, a.3, a.4, a.5, a.6,
      b.0, b.1, b.2, b.3, b.4, b.5,
      c.0, c.1, c.2, c.3, c.4, c.5,
      d.0, d.1, d.2, d.3, d.4, d.5,
      e.0, e.1, e.2, e.3, e.4, e.5,
      f.0, f.1, f.2, f.3, f.4)
  }

  /** `WorkSchema.parse`: the typed record when the value conforms, None when it throws. */
  function DecodeWork(v: Json): (r: Option<Work>)
    ensures r.Some? <==> v.JObj? && IsWork(v.members)
  {
    if v.JObj? && IsWork(v.members) then Some(ExtractWork(v.members)) else None
  }

  /** Decoding succeeds exactly when the value conforms to the whole object schema. */
  lemma DecodeWorkParses(v: Json)
    ensures DecodeWork(v).Some? <==> Accepts(WorkSchema(), Some(v))
  {
    ObjectAccepts(WorkFields(), v);
    if v.JObj? {
      WorkGroups(v.members);
    }
  }

  /**
   * A decoded work holds what the object holds under each key the tools
   * print: its id, display_name, title, publication_year, is_retracted and
   * cited_by_count, the pages under biblio, and the venue name under
   * primary_location.source (absent when either is null).
   */
  lemma DecodeWorkFields(v: Json)
    requires DecodeWork(v).Some?
    ensures Lookup(v.members, "id") == Some(JStr(DecodeWork(v).value.id))
    ensures Lookup(v.members, "display_name") == Some(JStr(DecodeWork(v).value.displayName))
    ensures var t := DecodeWork(v).value.title;
      Lookup(v.members, "title") == Some(if t.Some? then JStr(t.value) else JNull)
    ensures var y := DecodeWork(v).value.publicationYear;
      Lookup(v.members, "publication_year") == Some(if y.Some? then JNum(y.value) else JNull)
    ensures Lookup(v.members, "is_retracted") == Some(JBool(DecodeWork(v).value.isRetracted))
    ensures Lookup(v.members, "cited_by_count") == Some(JNum(DecodeWork(v).value.citedByCount))
  {
    var ms := v.members;
    var a, c, f := WorkFieldsA(), WorkFieldsC(), WorkFieldsF();
    assert DecodeWork(v).value == ExtractWork(ms);
  }

  /** The pages of a decoded work are those under its biblio object. */
  lemma DecodeWorkPages(v: Json)
    requires DecodeWork(v).Some?
    ensures var p := DecodeWork(v).value.biblio.firstPage;
      Get(Lookup(v.members, "biblio"), "first_page") == Some(if p.Some? then JStr(p.value) else JNull)
    ensures var p := DecodeWork(v).value.biblio.lastPage;
      Get(Lookup(v.members, "biblio"), "last_page") == Some(if p.Some? then JStr(p.value) else JNull)
  {
    assert DecodeWork(v).value.biblio == WorkPartC(v.members).0;
    BiblioPages(v.members);
  }

  lemma BiblioPages(ms: seq<Member>)
    requires Conforms(WorkFieldsC(), ms)
    ensures var p := WorkPartC(ms).0.firstPage;
      Get(Lookup(ms, "biblio"), "first_page") == Some(if p.Some? then JStr(p.value) else JNull)
    ensures var p := WorkPartC(ms).0.lastPage;
      Get(Lookup(ms, "biblio"), "last_page") == Some(if p.Some? then JStr(p.value) else JNull)
  {
  }

  /** The venue of a decoded work is the name under primary_location.source; undefined when either is null. */
  lemma DecodeWorkVenue(v: Json)
    requires DecodeWork(v).Some?
    ensures var l := DecodeWork(v).value.primaryLocation;
      Get(Get(Lookup(v.members, "primary_location"), "source"), "display_name") ==
        if l.Some? && l.value.source.Some? then Some(JStr(l.value.source.value.displayName)) else None
  {
    var ms, b := v.members, WorkFieldsB();
    assert DecodeWork(v).value.primaryLocation == WorkPartB(ms).1;
    LocationVenue(b, ms, "primary_location");
  }

  // ---------------------------------------------------------------- Author

  function AuthorIdsFields(): Fields
  {
    Field("openalex", SString,
    Field("orcid", SNullable(SString),
    Field("scopus", SNullable(SString),
    Field("twitter", SNullable(SString),
    Field("wikipedia", SNullable(SString),
    End)))))
  }

  datatype AuthorIds = AuthorIds(
    openalex: string, orcid: Option<string>, scopus: Option<string>, twitter: Option<string>, wikipedia: Option<string>)

  function ExtractAuthorIds(ms: seq<Member>): AuthorIds
    requires Conforms(AuthorIdsFields(), ms)
  {
    var fs := AuthorIdsFields();
    AuthorIds(StrAt(fs, ms, "openalex"), NullableStrAt(fs, ms, "orcid"), NullableStrAt(fs, ms, "scopus"),
      NullableStrAt(fs, ms, "twitter"), NullableStrAt(fs, ms, "wikipedia"))
  }

  function AffiliationFields(): Fields
  {
    Field("institution", SObject(DehydratedInstitutionFields()),
    Field("years", SArray(SNumber),
    End))
  }

  datatype Affiliation = Affiliation(institution: DehydratedInstitution, years: seq<int>)

  function ExtractAffiliation(ms: seq<Member>): Affiliation
    requires Conforms(AffiliationFields(), ms)
  {
    var fs := AffiliationFields();
    Affiliation(ExtractDehydratedInstitution(ObjectAt(fs, ms, "institution", DehydratedInstitutionFields())),
      NumsAt(fs, ms, "years"))
  }

  function AffiliationsAt(fs: Fields, ms: seq<Member>, k: string): seq<Affiliation>
    requires Conforms(fs, ms) && SchemaOf(fs, k) == Some(SArray(SObject(AffiliationFields())))
  {
    var os := ObjectsAt(fs, ms, k, AffiliationFields());
    seq(|os|, i requires 0 <= i < |os| => ExtractAffiliation(os[i]))
  }

  function AuthorFieldsA(): Fields
  {
    Field("id", SString,
    Field("orcid", SNullable(SString),
    Field("display_name", SString,
    Field("display_name_alternatives", SArray(SString),
    Field("works_count", SNumber,
    Field("cited_by_count", SNumber,
    End))))))
  }

  function AuthorFieldsB(): Fields
  {
    Field("summary_stats", SObject(SummaryStatsFields()),
    Field("ids", SObject(AuthorIdsFields()),
    Field("affiliations", SArray(SObject(AffiliationFields())),
    Field("last_known_institutions", SArray(SObject(DehydratedInstitutionFields())),
    Field("topics", SArray(SObject(TopicFields())),
    End)))))
  }

  function AuthorFieldsC(): Fields
  {
    Field("x_concepts", SArray(SObject(ConceptFields())),
    Field("counts_by_year", SArray(SObject(YearCountFields())),
    Field("works_api_url", SString,
    Field("updated_date", SString,
    Field("created_date", SString,
    End)))))
  }

  function AuthorFields(): Fields
  {
    Concat(AuthorFieldsA(), Concat(AuthorFieldsB(), AuthorFieldsC()))
  }

  /** `AuthorSchema`: an object with every author field. */
  function AuthorSchema(): Schema
  {
    SObject(AuthorFields())
  }

  /** An author conforms exactly when it conforms to each of the three groups. */
  predicate IsAuthor(ms: seq<Member>)
  {
    Conforms(AuthorFieldsA(), ms) && Conforms(AuthorFieldsB(), ms) && Conforms(AuthorFieldsC(), ms)
  }

  lemma AuthorGroups(ms: seq<Member>)
    ensures Conforms(AuthorFields(), ms) <==> IsAuthor(ms)
  {
    ConcatConforms(AuthorFieldsA(), Concat(AuthorFieldsB(), AuthorFieldsC()), ms);
    ConcatConforms(AuthorFieldsB(), AuthorFieldsC(), ms);
  }

  datatype Author = Author(
    id: string, orcid: Option<string>, displayName: string, displayNameAlternatives: seq<string>,
    worksCount: int, citedByCount: int,
    summaryStats: SummaryStats, ids: AuthorIds, affiliations: seq<Affiliation>,
    lastKnownInstitutions: seq<DehydratedInstitution>, topics: seq<Topic>,
    xConcepts: seq<Concept>, countsByYear: seq<YearCount>, worksApiUrl: string,
    updatedDate: string, createdDate: string)

  function ExtractAuthor(ms: seq<Member>): Author
    requires IsAuthor(ms)
  {
    var a, b, c := AuthorFieldsA(), AuthorFieldsB(), AuthorFieldsC();
    Author(
      StrAt(a, ms, "id"), NullableStrAt(a, ms, "orcid"), StrAt(a, ms, "display_name"),
      StrsAt(a, ms, "display_name_alternatives"), NumAt(a, ms, "works_count"), NumAt(a, ms, "cited_by_count"),
      ExtractSummaryStats(ObjectAt(b, ms, "summary_stats", SummaryStatsFields())),
      ExtractAuthorIds(ObjectAt(b, ms, "ids", AuthorIdsFields())),
      AffiliationsAt(b, ms, "affiliations"),
      DehydratedInstitutionsAt(b, ms, "last_known_institutions"), TopicsAt(b, ms, "topics"),
      ConceptsAt(c, ms, "x_concepts"), YearCountsAt(c, ms, "counts_by_year"), StrAt(c, ms, "works_api_url"),
      StrAt(c, ms, "updated_date"), StrAt(c, ms, "created_date"))
  }

  /** `AuthorSchema.parse`: the typed record when the value conforms, None when it throws. */
  function DecodeAuthor(v: Json): (r: Option<Author>)
    ensures r.Some? <==> v.JObj? && IsAuthor(v.members)
  {
    if v.JObj? && IsAuthor(v.members) then Some(ExtractAuthor(v.members)) else None
  }

  /** Decoding succeeds exactly when the value conforms to the whole object schema. */
  lemma DecodeAuthorParses(v: Json)
    ensures DecodeAuthor(v).Some? <==> Accepts(AuthorSchema(), Some(v))
  {
    ObjectAccepts(AuthorFields(), v);
    if v.JObj? {
      AuthorGroups(v.members);
    }
  }

  /**
   * A decoded author holds what the object holds under each key the tools
   * print: id, display_name, orcid, works_count, cited_by_count and the
   * h_index under summary_stats.
   */
  lemma DecodeAuthorFields(v: Json)
    requires DecodeAuthor(v).Some?
    ensures Lookup(v.members, "id") == Some(JStr(DecodeAuthor(v).value.id))
    ensures Lookup(v.members, "display_name") == Some(JStr(DecodeAuthor(v).value.displayName))
    ensures var o := DecodeAuthor(v).value.orcid;
      Lookup(v.members, "orcid") == Some(if o.Some? then JStr(o.value) else JNull)
    ensures Lookup(v.members, "works_count") == Some(JNum(DecodeAuthor(v).value.worksCount))
    ensures Lookup(v.members, "cited_by_count") == Some(JNum(DecodeAuthor(v).value.citedByCount))
    ensures Get(Lookup(v.members, "summary_stats"), "h_index") == Some(JNum(DecodeAuthor(v).value.summaryStats.hIndex))
  {
    assert DecodeAuthor(v).value == ExtractAuthor(v.members);
  }

  // ----------------------------------------------------------- Institution

  function InstitutionIdsFields(): Fields
  {
    Field("openalex", SString,
    Field("ror", SNullable(SString),
    Field("grid", SNullable(SString),
    Field("wikipedia", SNullable(SString),
    Field("wikidata", SNullable(SString),
    Field("mag", SNullable(SString),
    End))))))
  }

  datatype InstitutionIds = InstitutionIds(
    openalex: string, ror: Option<string>, grid: Option<string>, wikipedia: Option<string>,
    wikidata: Option<string>, mag: Option<string>)

  function ExtractInstitutionIds(ms: seq<Member>): InstitutionIds
    requires Conforms(InstitutionIdsFields(), ms)
  {
    var fs := InstitutionIdsFields();
    InstitutionIds(StrAt(fs, ms, "openalex"), NullableStrAt(fs, ms, "ror"), NullableStrAt(fs, ms, "grid"),
      NullableStrAt(fs, ms, "wikipedia"), NullableStrAt(fs, ms, "wikidata"), NullableStrAt(fs, ms, "mag"))
  }

  function GeoFields(): Fields
  {
    Field("city", SNullable(SString),
    Field("geonames_city_id", SNullable(SString),
    Field("region", SNullable(SString),
    Field("country_code", SNullable(SString),
    Field("country", SNullable(SString),
    Field("latitude", SNullable(SNumber),
    Field("longitude", SNullable(SNumber),
    End)))))))
  }

  datatype Geo = Geo(
    city: Option<string>, geonamesCityId: Option<string>, region: Option<string>, countryCode: Option<string>,
    country: Option<string>, latitude: Option<int>, longitude: Option<int>)

  function ExtractGeo(ms: seq<Member>): Geo
    requires Conforms(GeoFields(), ms)
  {
    var fs := GeoFields();
    Geo(NullableStrAt(fs, ms, "city"), NullableStrAt(fs, ms, "geonames_city_id"), NullableStrAt(fs, ms, "region"),
      NullableStrAt(fs, ms, "country_code"), NullableStrAt(fs, ms, "country"),
      NullableNumAt(fs, ms, "latitude"), NullableNumAt(fs, ms, "longitude"))
  }

  function NullableGeoAt(fs: Fields, ms: seq<Member>, k: string): Option<Geo>
    requires Conforms(fs, ms) && SchemaOf(fs, k) == Some(SNullable(SObject(GeoFields())))
  {
    var o := NullableObjectAt(fs, ms, k, GeoFields());
    if o.Some? then Some(ExtractGeo(o.value)) else None
  }

  /** `{ display_name: z.record(z.string()) }`: the name in each language. */
  function InternationalFields(): Fields
  {
    Field("display_name", SRecord(SString), End)
  }

  /** The city of a nullable geo field is the string or null under its `city`. */
  lemma GeoCity(fs: Fields, ms: seq<Member>, k: string)
    requires Conforms(fs, ms) && SchemaOf(fs, k) == Some(SNullable(SObject(GeoFields())))
    ensures var g := NullableGeoAt(fs, ms, k);
      Get(Lookup(ms, k), "city") ==
        if g.Some? then Some(if g.value.city.Some? then JStr(g.value.city.value) else JNull) else None
  {
  }

  /** The language-to-name pairs of `international.display_name`, in the order written. */
  function NullableInternationalAt(fs: Fields, ms: seq<Member>, k: string): Option<seq<(string, string)>>
    requires Conforms(fs, ms) && SchemaOf(fs, k) == Some(SNullable(SObject(InternationalFields())))
  {
    var o := NullableObjectAt(fs, ms, k, InternationalFields());
    if o.Some? then Some(StrRecordAt(InternationalFields(), o.value, "display_name")) else None
  }

  function AssociatedInstitutionFields(): Fields
  {
    Field("id", SString,
    Field("ror", SNullable(SString),
    Field("display_name", SString,
    Field("country_code", SNullable(SString),
    Field("type", SNullable(SString),
    Field("relationship", SString,
    End))))))
  }

  datatype AssociatedInstitution = AssociatedInstitution(
    id: string, ror: Option<string>, displayName: string, countryCode: Option<string>,
    institutionType: Option<string>, relationship: string)

  function ExtractAssociatedInstitution(ms: seq<Member>): AssociatedInstitution
    requires Conforms(AssociatedInstitutionFields(), ms)
  {
    var fs := AssociatedInstitutionFields();
    AssociatedInstitution(StrAt(fs, ms, "id"), NullableStrAt(fs, ms, "ror"), StrAt(fs, ms, "display_name"),
      NullableStrAt(fs, ms, "country_code"), NullableStrAt(fs, ms, "type"), StrAt(fs, ms, "relationship"))
  }

  function AssociatedInstitutionsAt(fs: Fields, ms: seq<Member>, k: string): seq<AssociatedInstitution>
    requires Conforms(fs, ms) && SchemaOf(fs, k) == Some(SArray(SObject(AssociatedInstitutionFields())))
  {
    var os := ObjectsAt(fs, ms, k, AssociatedInstitutionFields());
    seq(|os|, i requires 0 <= i < |os| => ExtractAssociatedInstitution(os[i]))
  }

  function RoleFields(): Fields
  {
    Field("role", SString,
    Field("id", SString,
    Field("works_count", SNumber,
    End)))
  }

  datatype Role = Role(role: string, id: string, worksCount: int)

  function ExtractRole(ms: seq<Member>): Role
    requires Conforms(RoleFields(), ms)
  {
    var fs := RoleFields();
    Role(StrAt(fs, ms, "role"), StrAt(fs, ms, "id"), NumAt(fs, ms, "works_count"))
  }

  function RolesAt(fs: Fields, ms: seq<Member>, k: string): seq<Role>
    requires Conforms(fs, ms) && SchemaOf(fs, k) == Some(SArray(SObject(RoleFields())))
  {
    var os := ObjectsAt(fs, ms, k, RoleFields());
    seq(|os|, i requires 0 <= i < |os| => ExtractRole(os[i]))
  }

  function InstitutionFieldsA(): Fields
  {
    Field("id", SString,
    Field("ror", SNullable(SString),
    Field("display_name", SString,
    Field("display_name_alternatives", SOptional(SArray(SString)),
    Field("display_name_acronyms", SOptional(SArray(SString)),
    Field("country_code", SNullable(SString),
    End))))))
  }

  function InstitutionFieldsB(): Fields
  {
    Field("type", SNullable(SString),
    Field("homepage_url", SNullable(SString),
    Field("image_url", SNullable(SString),
    Field("image_thumbnail_url", SNullable(SString),
    Field("works_count", SNumber,
    Field("cited_by_count", SNumber,
    End))))))
  }

  function InstitutionFieldsC(): Fields
  {
    Field("summary_stats", SObject(SummaryStatsFields()),
    Field("ids", SObject(InstitutionIdsFields()),
    Field("geo", SNullable(SObject(GeoFields())),
    Field("international", SNullable(SObject(InternationalFields())),
    Field("associated_institutions", SArray(SObject(AssociatedInstitutionFields())),
    Field("counts_by_year", SArray(SObject(YearCountFields())),
    End))))))
  }

  function InstitutionFieldsD(): Fields
  {
    Field("roles", SArray(SObject(RoleFields())),
    Field("topics", SArray(SObject(TopicFields())),
    Field("x_concepts", SArray(SObject(ConceptFields())),
    Field("works_api_url", SString,
    Field("updated_date", SString,
    Field("created_date", SString,
    End))))))
  }

  function InstitutionFields(): Fields
  {
    Concat(InstitutionFieldsA(), Concat(InstitutionFieldsB(), Concat(InstitutionFieldsC(), InstitutionFieldsD())))
  }

  /** `InstitutionSchema`: an object with every institution field. */
  function InstitutionSchema(): Schema
  {
    SObject(InstitutionFields())
  }

  /** An institution conforms exactly when it conforms to each of the four groups. */
  predicate IsInstitution(ms: seq<Member>)
  {
    Conforms(InstitutionFieldsA(), ms) && Conforms(InstitutionFieldsB(), ms) && Conforms(InstitutionFieldsC(), ms) && Conforms(InstitutionFieldsD(), ms)
  }

  lemma InstitutionGroups(ms: seq<Member>)
    ensures Conforms(InstitutionFields(), ms) <==> IsInstitution(ms)
  {
    var c := Concat(InstitutionFieldsC(), InstitutionFieldsD());
    var b := Concat(InstitutionFieldsB(), c);
    ConcatConforms(InstitutionFieldsA(), b, ms);
    ConcatConforms(InstitutionFieldsB(), c, ms);
    ConcatConforms(InstitutionFieldsC(), InstitutionFieldsD(), ms);
  }

  datatype Institution = Institution(
    id: string, ror: Option<string>, displayName: string, displayNameAlternatives: Option<seq<string>>,
    displayNameAcronyms: Option<seq<string>>, countryCode: Option<string>,
    institutionType: Option<string>, homepageUrl: Option<string>, imageUrl: Option<string>,
    imageThumbnailUrl: Option<string>, worksCount: int, citedByCount: int,
    summaryStats: SummaryStats, ids: InstitutionIds, geo: Option<Geo>,
    international: Option<seq<(string, string)>>, associatedInstitutions: seq<AssociatedInstitution>,
    countsByYear: seq<YearCount>,
    roles: seq<Role>, topics: seq<Topic>, xConcepts: seq<Concept>, worksApiUrl: string,
    updatedDate: string, createdDate: string)

  // The four groups of an institution, extracted one at a time.

  function InstitutionPartA(ms: seq<Member>):
    (string, Option<string>, string, Option<seq<string>>, Option<seq<string>>, Option<string>)
    requires Conforms(InstitutionFieldsA(), ms)
  {
    var a := InstitutionFieldsA();
    (StrAt(a, ms, "id"), NullableStrAt(a, ms, "ror"), StrAt(a, ms, "display_name"),
     OptionalStrsAt(a, ms, "display_name_alternatives"), OptionalStrsAt(a, ms, "display_name_acronyms"),
     NullableStrAt(a, ms, "country_code"))
  }

  function InstitutionPartB(ms: seq<Member>): (Option<string>, Option<string>, Option<string>, Option<string>, int, int)
    requires Conforms(InstitutionFieldsB(), ms)
  {
    var b := InstitutionFieldsB();
    (NullableStrAt(b, ms, "type"), NullableStrAt(b, ms, "homepage_url"), NullableStrAt(b, ms, "image_url"),
     NullableStrAt(b, ms, "image_thumbnail_url"), NumAt(b, ms, "works_count"), NumAt(b, ms, "cited_by_count"))
  }

  function InstitutionPartC(ms: seq<Member>):
    (SummaryStats, InstitutionIds, Option<Geo>, Option<seq<(string, string)>>, seq<AssociatedInstitution>, seq<YearCount>)
    requires Conforms(InstitutionFieldsC(), ms)
  {
    var (stats, ids, geo) := InstitutionPlace(ms);
    var c := InstitutionFieldsC();
    (stats, ids, geo, NullableInternationalAt(c, ms, "international"),
     AssociatedInstitutionsAt(c, ms, "associated_institutions"), YearCountsAt(c, ms, "counts_by_year"))
  }

  /** The first half of the third group: summary stats, ids and geo. */
  function InstitutionPlace(ms: seq<Member>): (SummaryStats, InstitutionIds, Option<Geo>)
    requires Conforms(InstitutionFieldsC(), ms)
  {
    var c := InstitutionFieldsC();
    (ExtractSummaryStats(ObjectAt(c, ms, "summary_stats", SummaryStatsFields())),
     ExtractInstitutionIds(ObjectAt(c, ms, "ids", InstitutionIdsFields())),
     NullableGeoAt(c, ms, "geo"))
  }

  function InstitutionPartD(ms: seq<Member>): (seq<Role>, seq<Topic>, seq<Concept>, string, string, string)
    requires Conforms(InstitutionFieldsD(), ms)
  {
    var d := InstitutionFieldsD();
    (RolesAt(d, ms, "roles"), TopicsAt(d, ms, "topics"), ConceptsAt(d, ms, "x_concepts"),
     StrAt(d, ms, "works_api_url"), StrAt(d, ms, "updated_date"), StrAt(d, ms, "created_date"))
  }

  function ExtractInstitution(ms: seq<Member>): Institution
    requires IsInstitution(ms)
  {
    var a, b := InstitutionPartA(ms), InstitutionPartB(ms);
    var c, d := InstitutionPartC(ms), InstitutionPartD(ms);
    Institution(a.0, a.1, a.2, a.3, a.4, a.5, b.0, b.1, b.2, b.3, b.4, b.5,
      c.0, c.1, c.2, c.3, c.4, c.5, d.0, d.1, d.2, d.3, d.4, d.5)
  }

  /** `InstitutionSchema.parse`: the typed record when the value conforms, None when it throws. */
  function DecodeInstitution(v: Json): (r: Option<Institution>)
    ensures r.Some? <==> v.JObj? && IsInstitution(v.members)
  {
    if v.JObj? && IsInstitution(v.members) then Some(ExtractInstitution(v.members)) else None
  }

  /** Decoding succeeds exactly when the value conforms to the whole object schema. */
  lemma DecodeInstitutionParses(v: Json)
    ensures DecodeInstitution(v).Some? <==> Accepts(InstitutionSchema(), Some(v))
  {
    ObjectAccepts(InstitutionFields(), v);
    if v.JObj? {
      InstitutionGroups(v.members);
    }
  }

  /**
   * A decoded institution holds what the object holds under each key the
   * tools print: id, display_name, country_code, type, works_count,
   * cited_by_count, ror and homepage_url.
   */
  lemma DecodeInstitutionFields(v: Json)
    requires DecodeInstitution(v).Some?
    ensures Lookup(v.members, "id") == Some(JStr(DecodeInstitution(v).value.id))
    ensures Lookup(v.members, "display_name") == Some(JStr(DecodeInstitution(v).value.displayName))
    ensures var c := DecodeInstitution(v).value.countryCode;
      Lookup(v.members, "country_code") == Some(if c.Some? then JStr(c.value) else JNull)
    ensures var t := DecodeInstitution(v).value.institutionType;
      Lookup(v.members, "type") == Some(if t.Some? then JStr(t.value) else JNull)
    ensures Lookup(v.members, "works_count") == Some(JNum(DecodeInstitution(v).value.worksCount))
    ensures Lookup(v.members, "cited_by_count") == Some(JNum(DecodeInstitution(v).value.citedByCount))
    ensures var r := DecodeInstitution(v).value.ror;
      Lookup(v.members, "ror") == Some(if r.Some? then JStr(r.value) else JNull)
    ensures var h := DecodeInstitution(v).value.homepageUrl;
      Lookup(v.members, "homepage_url") == Some(if h.Some? then JStr(h.value) else JNull)
  {
    assert DecodeInstitution(v).value == ExtractInstitution(v.members);
  }

  /** The city of a decoded institution is the one under geo; undefined when geo is null. */
  lemma DecodeInstitutionCity(v: Json)
    requires DecodeInstitution(v).Some?
    ensures var g := DecodeInstitution(v).value.geo;
      Get(Lookup(v.members, "geo"), "city") ==
        if g.Some? then Some(if g.value.city.Some? then JStr(g.value.city.value) else JNull) else None
  {
    var ms := v.members;
    assert DecodeInstitution(v).value.geo == InstitutionPlace(ms).2;
    PlaceCity(ms);
  }

  lemma PlaceCity(ms: seq<Member>)
    requires Conforms(InstitutionFieldsC(), ms)
    ensures var g := InstitutionPlace(ms).2;
      Get(Lookup(ms, "geo"), "city") ==
        if g.Some? then Some(if g.value.city.Some? then JStr(g.value.city.value) else JNull) else None
  {
    GeoCity(InstitutionFieldsC(), ms, "geo");
  }

  // ---------------------------------------------------------------- Source

  function SourceIdsFields(): Fields
  {
    Field("openalex", SString,
    Field("issn_l", SNullable(SString),
    Field("issn", SNullable(SArray(SString)),
    Field("mag", SNullable(SString),
    Field("wikidata", SNullable(SString),
    Field("fatcat", SNullable(SString),
    End))))))
  }

  datatype SourceIds = SourceIds(
    openalex: string, issnL: Option<string>, issn: Option<seq<string>>, mag: Option<string>,
    wikidata: Option<string>, fatcat: Option<string>)

  function ExtractSourceIds(ms: seq<Member>): SourceIds
    requires Conforms(SourceIdsFields(), ms)
  {
    var fs := SourceIdsFields();
    SourceIds(StrAt(fs, ms, "openalex"), NullableStrAt(fs, ms, "issn_l"), NullableStrsAt(fs, ms, "issn"),
      NullableStrAt(fs, ms, "mag"), NullableStrAt(fs, ms, "wikidata"), NullableStrAt(fs, ms, "fatcat"))
  }

  function SourceFieldsA(): Fields
  {
    Field("id", SString,
    Field("issn_l", SNullable(SString),
    Field("issn", SNullable(SArray(SString)),
    Field("display_name", SString,
    Field("host_organization", SNullable(SString),
    Field("host_organization_name", SNullable(SString),
    Field("host_organization_lineage", SArray(SString),
    End)))))))
  }

  function SourceFieldsB(): Fields
  {
    Field("works_count", SNumber,
    Field("cited_by_count", SNumber,
    Field("summary_stats", SObject(SummaryStatsFields()),
    Field("is_oa", SBool,
    Field("is_in_doaj", SBool,
    Field("is_indexed_in_doaj", SOptional(SBool),
    End))))))
  }

  function SourceFieldsC(): Fields
  {
    Field("ids", SObject(SourceIdsFields()),
    Field("homepage_url", SNullable(SString),
    Field("apc_prices", SNullable(SArray(SUnknown)),
    Field("apc_usd", SNullable(SNumber),
    Field("country_code", SNullable(SString),
    Field("societies", SArray(SUnknown),
    End))))))
  }

  function SourceFieldsD(): Fields
  {
    Field("alternate_titles", SArray(SString),
    Field("abbreviated_title", SNullable(SString),
    Field("type", SNullable(SString),
    Field("topics", SArray(SObject(TopicFields())),
    Field("x_concepts", SArray(SObject(ConceptFields())),
    End)))))
  }

  function SourceFieldsE(): Fields
  {
    Field("counts_by_year", SArray(SObject(YearCountFields())),
    Field("works_api_url", SString,
    Field("updated_date", SString,
    Field("created_date", SString,
    End))))
  }

  function SourceFields(): Fields
  {
    Concat(SourceFieldsA(), Concat(SourceFieldsB(), Concat(SourceFieldsC(), Concat(SourceFieldsD(), SourceFieldsE()))))
  }

  /** `SourceSchema`: an object with every source field. */
  function SourceSchema(): Schema
  {
    SObject(SourceFields())
  }

  /** A source conforms exactly when it conforms to each of the five groups. */
  predicate IsSource(ms: seq<Member>)
  {
    Conforms(SourceFieldsA(), ms) && Conforms(SourceFieldsB(), ms) && Conforms(SourceFieldsC(), ms) && Conforms(SourceFieldsD(), ms) && Conforms(SourceFieldsE(), ms)
  }

  lemma SourceGroups(ms: seq<Member>)
    ensures Conforms(SourceFields(), ms) <==> IsSource(ms)
  {
    var d := Concat(SourceFieldsD(), SourceFieldsE());
    var c := Concat(SourceFieldsC(), d);
    var b := Concat(SourceFieldsB(), c);
    ConcatConforms(SourceFieldsA(), b, ms);
    ConcatConforms(SourceFieldsB(), c, ms);
    ConcatConforms(SourceFieldsC(), d, ms);
    ConcatConforms(SourceFieldsD(), SourceFieldsE(), ms);
  }

  datatype Source = Source(
    id: string, issnL: Option<string>, issn: Option<seq<string>>, displayName: string,
    hostOrganization: Option<string>, hostOrganizationName: Option<string>, hostOrganizationLineage: seq<string>,
    worksCount: int, citedByCount: int, summaryStats: SummaryStats, isOa: bool, isInDoaj: bool,
    isIndexedInDoaj: Option<bool>,
    ids: SourceIds, homepageUrl: Option<string>, apcPrices: Option<seq<Json>>, apcUsd: Option<int>,
    countryCode: Option<string>, societies: seq<Json>,
    alternateTitles: seq<string>, abbreviatedTitle: Option<string>, sourceType: Option<string>,
    topics: seq<Topic>, xConcepts: seq<Concept>,
    countsByYear: seq<YearCount>, worksApiUrl: string, updatedDate: string, createdDate: string)

  function ExtractSource(ms: seq<Member>): Source
    requires IsSource(ms)
  {
    var a, b, c, d, e := SourceFieldsA(), SourceFieldsB(), SourceFieldsC(), SourceFieldsD(), SourceFieldsE();
    Source(
      StrAt(a, ms, "id"), NullableStrAt(a, ms, "issn_l"), NullableStrsAt(a, ms, "issn"),
      StrAt(a, ms, "display_name"), NullableStrAt(a, ms, "host_organization"),
      NullableStrAt(a, ms, "host_organization_name"), StrsAt(a, ms, "host_organization_lineage"),
      NumAt(b, ms, "works_count"), NumAt(b, ms, "cited_by_count"),
      ExtractSummaryStats(ObjectAt(b, ms, "summary_stats", SummaryStatsFields())),
      BoolAt(b, ms, "is_oa"), BoolAt(b, ms, "is_in_doaj"), OptionalBoolAt(b, ms, "is_indexed_in_doaj"),
      ExtractSourceIds(ObjectAt(c, ms, "ids", SourceIdsFields())), NullableStrAt(c, ms, "homepage_url"),
      NullableUnknownsAt(c, ms, "apc_prices"), NullableNumAt(c, ms, "apc_usd"),
      NullableStrAt(c, ms, "country_code"), UnknownsAt(c, ms, "societies"),
      StrsAt(d, ms, "alternate_titles"), NullableStrAt(d, ms, "abbreviated_title"), NullableStrAt(d, ms, "type"),
      TopicsAt(d, ms, "topics"), ConceptsAt(d, ms, "x_concepts"),
      YearCountsAt(e, ms, "counts_by_year"), StrAt(e, ms, "works_api_url"),
      StrAt(e, ms, "updated_date"), StrAt(e, ms, "created_date"))
  }

  /** `SourceSchema.parse`: the typed record when the value conforms, None when it throws. */
  function DecodeSource(v: Json): (r: Option<Source>)
    ensures r.Some? <==> v.JObj? && IsSource(v.members)
  {
    if v.JObj? && IsSource(v.members) then Some(ExtractSource(v.members)) else None
  }

  /** Decoding succeeds exactly when the value conforms to the whole object schema. */
  lemma DecodeSourceParses(v: Json)
    ensures DecodeSource(v).Some? <==> Accepts(SourceSchema(), Some(v))
  {
    ObjectAccepts(SourceFields(), v);
    if v.JObj? {
      SourceGroups(v.members);
    }
  }

  /**
   * A decoded source holds what the object holds under each key the tools
   * print: id, display_name, issn_l, works_count, cited_by_count, is_oa,
   * type, host_organization_name, apc_usd, country_code and homepage_url.
   */
  lemma DecodeSourceFields(v: Json)
    requires DecodeSource(v).Some?
    ensures Lookup(v.members, "id") == Some(JStr(DecodeSource(v).value.id))
    ensures Lookup(v.members, "display_name") == Some(JStr(DecodeSource(v).value.displayName))
    ensures var i := DecodeSource(v).value.issnL;
      Lookup(v.members, "issn_l") == Some(if i.Some? then JStr(i.value) else JNull)
    ensures Lookup(v.members, "works_count") == Some(JNum(DecodeSource(v).value.worksCount))
    ensures Lookup(v.members, "cited_by_count") == Some(JNum(DecodeSource(v).value.citedByCount))
    ensures Lookup(v.members, "is_oa") == Some(JBool(DecodeSource(v).value.isOa))
    ensures var t := DecodeSource(v).value.sourceType;
      Lookup(v.members, "type") == Some(if t.Some? then JStr(t.value) else JNull)
    ensures var h := DecodeSource(v).value.hostOrganizationName;
      Lookup(v.members, "host_organization_name") == Some(if h.Some? then JStr(h.value) else JNull)
    ensures var a := DecodeSource(v).value.apcUsd;
      Lookup(v.members, "apc_usd") == Some(if a.Some? then JNum(a.value) else JNull)
    ensures var c := DecodeSource(v).value.countryCode;
      Lookup(v.members, "country_code") == Some(if c.Some? then JStr(c.value) else JNull)
    ensures var h := DecodeSource(v).value.homepageUrl;
      Lookup(v.members, "homepage_url") == Some(if h.Some? then JStr(h.value) else JNull)
  {
    assert DecodeSource(v).value == ExtractSource(v.members);
  }
}
