/**
 * What the entity schemas of src/types.ts let through and what they refuse:
 * which fields are required, which may be null, which may be absent, and
 * which take anything.  Each lemma starts from an object that parses, or
 * from one field's value, and changes one key.
 */
module TypeRules {
  import opened Wrappers
  import opened Json
  import opened Schema
  import opened Types

  // ------------------------------------------------------ editing an entity
  //
  // `WorkAdmits(k, v)`: every declaration of `k` in the work schema lets `v`
  // through (vacuous when the work does not declare `k`).  An edit of one key
  // keeps a work parsing exactly when the key's new state is admitted.  The
  // admissions for a given key are shown in lemmas of their own, away from
  // any particular object.

  predicate WorkAdmits(k: string, v: Option<Json>)
  {
    Admits(WorkFieldsA(), k, v) && Admits(WorkFieldsB(), k, v) && Admits(WorkFieldsC(), k, v) &&
    Admits(WorkFieldsD(), k, v) && Admits(WorkFieldsE(), k, v) && Admits(WorkFieldsF(), k, v)
  }

  predicate AuthorAdmits(k: string, v: Option<Json>)
  {
    Admits(AuthorFieldsA(), k, v) && Admits(AuthorFieldsB(), k, v) && Admits(AuthorFieldsC(), k, v)
  }

  predicate InstitutionAdmits(k: string, v: Option<Json>)
  {
    Admits(InstitutionFieldsA(), k, v) && Admits(InstitutionFieldsB(), k, v) &&
    Admits(InstitutionFieldsC(), k, v) && Admits(InstitutionFieldsD(), k, v)
  }

  predicate SourceAdmits(k: string, v: Option<Json>)
  {
    Admits(SourceFieldsA(), k, v) && Admits(SourceFieldsB(), k, v) && Admits(SourceFieldsC(), k, v) &&
    Admits(SourceFieldsD(), k, v) && Admits(SourceFieldsE(), k, v)
  }

  /** The group-by-group admission is admission by the whole work schema. */
  lemma WorkAdmitsWhole(k: string, v: Option<Json>)
    ensures WorkAdmits(k, v) <==> Admits(WorkFields(), k, v)
  {
    var e := Concat(WorkFieldsE(), WorkFieldsF());
    var d := Concat(WorkFieldsD(), e);
    var c := Concat(WorkFieldsC(), d);
    var b := Concat(WorkFieldsB(), c);
    AdmitsConcat(WorkFieldsA(), b, k, v);
    AdmitsConcat(WorkFieldsB(), c, k, v);
    AdmitsConcat(WorkFieldsC(), d, k, v);
    AdmitsConcat(WorkFieldsD(), e, k, v);
    AdmitsConcat(WorkFieldsE(), WorkFieldsF(), k, v);
  }

  /** A parsing work still parses after an edit whose result every declaration of the key admits. */
  lemma WorkEdit(ms: seq<Member>, e: Edit)
    requires IsWork(ms)
    requires WorkAdmits(e.key, After(e, ms, e.key))
    ensures IsWork(Apply(ms, e))
  {
    EditConforms(WorkFieldsA(), ms, e);
    EditConforms(WorkFieldsB(), ms, e);
    EditConforms(WorkFieldsC(), ms, e);
    EditConforms(WorkFieldsD(), ms, e);
    EditConforms(WorkFieldsE(), ms, e);
    EditConforms(WorkFieldsF(), ms, e);
  }

  /** A parsing author still parses after an edit whose result every declaration of the key admits. */
  lemma AuthorEdit(ms: seq<Member>, e: Edit)
    requires IsAuthor(ms)
    requires AuthorAdmits(e.key, After(e, ms, e.key))
    ensures IsAuthor(Apply(ms, e))
  {
    EditConforms(AuthorFieldsA(), ms, e);
    EditConforms(AuthorFieldsB(), ms, e);
    EditConforms(AuthorFieldsC(), ms, e);
  }

  /** A parsing institution still parses after an edit whose result every declaration of the key admits. */
  lemma InstitutionEdit(ms: seq<Member>, e: Edit)
    requires IsInstitution(ms)
    requires InstitutionAdmits(e.key, After(e, ms, e.key))
    ensures IsInstitution(Apply(ms, e))
  {
    EditConforms(InstitutionFieldsA(), ms, e);
    EditConforms(InstitutionFieldsB(), ms, e);
    EditConforms(InstitutionFieldsC(), ms, e);
    EditConforms(InstitutionFieldsD(), ms, e);
  }

  /** A parsing source still parses after an edit whose result every declaration of the key admits. */
  lemma SourceEdit(ms: seq<Member>, e: Edit)
    requires IsSource(ms)
    requires SourceAdmits(e.key, After(e, ms, e.key))
    ensures IsSource(Apply(ms, e))
  {
    EditConforms(SourceFieldsA(), ms, e);
    EditConforms(SourceFieldsB(), ms, e);
    EditConforms(SourceFieldsC(), ms, e);
    EditConforms(SourceFieldsD(), ms, e);
    EditConforms(SourceFieldsE(), ms, e);
  }

  // ------------------------------------------------- single-key admissions
  //
  // Which groups leave a key undeclared, one group per lemma (the verifier
  // evaluates each group's declarations on its own far more cheaply than all
  // of them at once), and then what the declaring group admits.

  /** The keys of a work whose schema is an array of `z.unknown()`. */
  predicate UnknownArrayKey(k: string)
  {
    k == "mesh" || k == "locations" || k == "sustainable_development_goals" ||
    k == "grants" || k == "datasets" || k == "versions"
  }

  lemma WorkAOmits()
    ensures SchemasOf(WorkFieldsA(), "primary_location") == []
    ensures SchemasOf(WorkFieldsA(), "best_oa_location") == []
    ensures SchemasOf(WorkFieldsA(), "cited_by_count") == []
    ensures SchemasOf(WorkFieldsA(), "mesh") == []
    ensures SchemasOf(WorkFieldsA(), "locations") == []
    ensures SchemasOf(WorkFieldsA(), "sustainable_development_goals") == []
    ensures SchemasOf(WorkFieldsA(), "grants") == []
    ensures SchemasOf(WorkFieldsA(), "datasets") == []
    ensures SchemasOf(WorkFieldsA(), "versions") == []
  {
  }

  lemma WorkBOmits()
    ensures SchemasOf(WorkFieldsB(), "title") == []
    ensures SchemasOf(WorkFieldsB(), "best_oa_location") == []
    ensures SchemasOf(WorkFieldsB(), "cited_by_count") == []
    ensures SchemasOf(WorkFieldsB(), "mesh") == []
    ensures SchemasOf(WorkFieldsB(), "locations") == []
    ensures SchemasOf(WorkFieldsB(), "sustainable_development_goals") == []
    ensures SchemasOf(WorkFieldsB(), "grants") == []
    ensures SchemasOf(WorkFieldsB(), "datasets") == []
    ensures SchemasOf(WorkFieldsB(), "versions") == []
  {
  }

  lemma WorkCOmits()
    ensures SchemasOf(WorkFieldsC(), "title") == []
    ensures SchemasOf(WorkFieldsC(), "primary_location") == []
    ensures SchemasOf(WorkFieldsC(), "best_oa_location") == []
    ensures SchemasOf(WorkFieldsC(), "cited_by_count") == []
    ensures SchemasOf(WorkFieldsC(), "mesh") == []
    ensures SchemasOf(WorkFieldsC(), "locations") == []
    ensures SchemasOf(WorkFieldsC(), "sustainable_development_goals") == []
    ensures SchemasOf(WorkFieldsC(), "grants") == []
    ensures SchemasOf(WorkFieldsC(), "datasets") == []
    ensures SchemasOf(WorkFieldsC(), "versions") == []
  {
  }

  lemma WorkDOmits()
    ensures SchemasOf(WorkFieldsD(), "title") == []
    ensures SchemasOf(WorkFieldsD(), "primary_location") == []
    ensures SchemasOf(WorkFieldsD(), "cited_by_count") == []
    ensures SchemasOf(WorkFieldsD(), "grants") == []
    ensures SchemasOf(WorkFieldsD(), "datasets") == []
    ensures SchemasOf(WorkFieldsD(), "versions") == []
  {
  }

  lemma WorkEOmits()
    ensures SchemasOf(WorkFieldsE(), "title") == []
    ensures SchemasOf(WorkFieldsE(), "primary_location") == []
    ensures SchemasOf(WorkFieldsE(), "best_oa_location") == []
    ensures SchemasOf(WorkFieldsE(), "cited_by_count") == []
    ensures SchemasOf(WorkFieldsE(), "mesh") == []
    ensures SchemasOf(WorkFieldsE(), "locations") == []
    ensures SchemasOf(WorkFieldsE(), "sustainable_development_goals") == []
  {
  }

  lemma WorkFOmits()
    ensures SchemasOf(WorkFieldsF(), "title") == []
    ensures SchemasOf(WorkFieldsF(), "primary_location") == []
    ensures SchemasOf(WorkFieldsF(), "best_oa_location") == []
    ensures SchemasOf(WorkFieldsF(), "mesh") == []
    ensures SchemasOf(WorkFieldsF(), "locations") == []
    ensures SchemasOf(WorkFieldsF(), "sustainable_development_goals") == []
    ensures SchemasOf(WorkFieldsF(), "grants") == []
    ensures SchemasOf(WorkFieldsF(), "datasets") == []
    ensures SchemasOf(WorkFieldsF(), "versions") == []
  {
  }

  lemma WorkDeclaresAB()
    ensures SchemasOf(WorkFieldsA(), "title") == [SNullable(SString)]
    ensures SchemasOf(WorkFieldsB(), "primary_location") == [SNullable(SObject(LocationFields()))]
  {
  }

  lemma WorkDeclaresD()
    ensures SchemasOf(WorkFieldsD(), "best_oa_location") == [SNullable(SUnknown)]
    ensures SchemasOf(WorkFieldsD(), "mesh") == [SArray(SUnknown)]
    ensures SchemasOf(WorkFieldsD(), "locations") == [SArray(SUnknown)]
    ensures SchemasOf(WorkFieldsD(), "sustainable_development_goals") == [SArray(SUnknown)]
  {
  }

  lemma WorkDeclaresEF()
    ensures SchemasOf(WorkFieldsE(), "grants") == [SArray(SUnknown)]
    ensures SchemasOf(WorkFieldsE(), "datasets") == [SArray(SUnknown)]
    ensures SchemasOf(WorkFieldsE(), "versions") == [SArray(SUnknown)]
    ensures SchemasOf(WorkFieldsF(), "cited_by_count") == [SNumber]
  {
  }

  lemma TitleAdmitsNull()
    ensures WorkAdmits("title", Some(JNull))
  {
    WorkBOmits(); WorkCOmits(); WorkDOmits(); WorkEOmits(); WorkFOmits(); WorkDeclaresAB();
    DeclaredOnce(WorkFieldsA(), "title", SNullable(SString), Some(JNull));
    Undeclared(WorkFieldsB(), "title", Some(JNull));
    Undeclared(WorkFieldsC(), "title", Some(JNull));
    Undeclared(WorkFieldsD(), "title", Some(JNull));
    Undeclared(WorkFieldsE(), "title", Some(JNull));
    Undeclared(WorkFieldsF(), "title", Some(JNull));
  }

  lemma PrimaryLocationAdmits(l: Json)
    requires Accepts(SNullable(SObject(LocationFields())), Some(l))
    ensures WorkAdmits("primary_location", Some(l))
  {
    WorkAOmits(); WorkCOmits(); WorkDOmits(); WorkEOmits(); WorkFOmits(); WorkDeclaresAB();
    Undeclared(WorkFieldsA(), "primary_location", Some(l));
    DeclaredOnce(WorkFieldsB(), "primary_location", SNullable(SObject(LocationFields())), Some(l));
    Undeclared(WorkFieldsC(), "primary_location", Some(l));
    Undeclared(WorkFieldsD(), "primary_location", Some(l));
    Undeclared(WorkFieldsE(), "primary_location", Some(l));
    Undeclared(WorkFieldsF(), "primary_location", Some(l));
  }

  lemma MeshAdmitsArray(items: seq<Json>)
    ensures WorkAdmits("mesh", Some(JArr(items)))
  {
    WorkAOmits(); WorkBOmits(); WorkCOmits(); WorkEOmits(); WorkFOmits();
    WorkDeclaresD();
    Undeclared(WorkFieldsA(), "mesh", Some(JArr(items)));
    Undeclared(WorkFieldsB(), "mesh", Some(JArr(items)));
    Undeclared(WorkFieldsC(), "mesh", Some(JArr(items)));
    DeclaredOnce(WorkFieldsD(), "mesh", SArray(SUnknown), Some(JArr(items)));
    Undeclared(WorkFieldsE(), "mesh", Some(JArr(items)));
    Undeclared(WorkFieldsF(), "mesh", Some(JArr(items)));
  }

  lemma LocationsAdmitsArray(items: seq<Json>)
    ensures WorkAdmits("locations", Some(JArr(items)))
  {
    WorkAOmits(); WorkBOmits(); WorkCOmits(); WorkEOmits(); WorkFOmits();
    WorkDeclaresD();
    Undeclared(WorkFieldsA(), "locations", Some(JArr(items)));
    Undeclared(WorkFieldsB(), "locations", Some(JArr(items)));
    Undeclared(WorkFieldsC(), "locations", Some(JArr(items)));
    DeclaredOnce(WorkFieldsD(), "locations", SArray(SUnknown), Some(JArr(items)));
    Undeclared(WorkFieldsE(), "locations", Some(JArr(items)));
    Undeclared(WorkFieldsF(), "locations", Some(JArr(items)));
  }

  lemma SustainableDevelopmentGoalsAdmitsArray(items: seq<Json>)
    ensures WorkAdmits("sustainable_development_goals", Some(JArr(items)))
  {
    WorkAOmits(); WorkBOmits(); WorkCOmits(); WorkEOmits(); WorkFOmits();
    WorkDeclaresD();
    Undeclared(WorkFieldsA(), "sustainable_development_goals", Some(JArr(items)));
    Undeclared(WorkFieldsB(), "sustainable_development_goals", Some(JArr(items)));
    Undeclared(WorkFieldsC(), "sustainable_development_goals", Some(JArr(items)));
    DeclaredOnce(WorkFieldsD(), "sustainable_development_goals", SArray(SUnknown), Some(JArr(items)));
    Undeclared(WorkFieldsE(), "sustainable_development_goals", Some(JArr(items)));
    Undeclared(WorkFieldsF(), "sustainable_development_goals", Some(JArr(items)));
  }

  lemma GrantsAdmitsArray(items: seq<Json>)
    ensures WorkAdmits("grants", Some(JArr(items)))
  {
    WorkAOmits(); WorkBOmits(); WorkCOmits(); WorkDOmits(); WorkFOmits();
    WorkDeclaresEF();
    Undeclared(WorkFieldsA(), "grants", Some(JArr(items)));
    Undeclared(WorkFieldsB(), "grants", Some(JArr(items)));
    Undeclared(WorkFieldsC(), "grants", Some(JArr(items)));
    Undeclared(WorkFieldsD(), "grants", Some(JArr(items)));
    DeclaredOnce(WorkFieldsE(), "grants", SArray(SUnknown), Some(JArr(items)));
    Undeclared(WorkFieldsF(), "grants", Some(JArr(items)));
  }

  lemma DatasetsAdmitsArray(items: seq<Json>)
    ensures WorkAdmits("datasets", Some(JArr(items)))
  {
    WorkAOmits(); WorkBOmits(); WorkCOmits(); WorkDOmits(); WorkFOmits();
    WorkDeclaresEF();
    Undeclared(WorkFieldsA(), "datasets", Some(JArr(items)));
    Undeclared(WorkFieldsB(), "datasets", Some(JArr(items)));
    Undeclared(WorkFieldsC(), "datasets", Some(JArr(items)));
    Undeclared(WorkFieldsD(), "datasets", Some(JArr(items)));
    DeclaredOnce(WorkFieldsE(), "datasets", SArray(SUnknown), Some(JArr(items)));
    Undeclared(WorkFieldsF(), "datasets", Some(JArr(items)));
  }

  lemma VersionsAdmitsArray(items: seq<Json>)
    ensures WorkAdmits("versions", Some(JArr(items)))
  {
    WorkAOmits(); WorkBOmits(); WorkCOmits(); WorkDOmits(); WorkFOmits();
    WorkDeclaresEF();
    Undeclared(WorkFieldsA(), "versions", Some(JArr(items)));
    Undeclared(WorkFieldsB(), "versions", Some(JArr(items)));
    Undeclared(WorkFieldsC(), "versions", Some(JArr(items)));
    Undeclared(WorkFieldsD(), "versions", Some(JArr(items)));
    DeclaredOnce(WorkFieldsE(), "versions", SArray(SUnknown), Some(JArr(items)));
    Undeclared(WorkFieldsF(), "versions", Some(JArr(items)));
  }

  lemma UnknownArrayAdmits(k: string, items: seq<Json>)
    requires UnknownArrayKey(k)
    ensures WorkAdmits(k, Some(JArr(items)))
  {
    if k == "mesh" {
      MeshAdmitsArray(items);
    } else if k == "locations" {
      LocationsAdmitsArray(items);
    } else if k == "sustainable_development_goals" {
      SustainableDevelopmentGoalsAdmitsArray(items);
    } else if k == "grants" {
      GrantsAdmitsArray(items);
    } else if k == "datasets" {
      DatasetsAdmitsArray(items);
    } else {
      assert k == "versions";
      VersionsAdmitsArray(items);
    }
  }

  lemma BestOaLocationAdmits(v: Option<Json>)
    ensures WorkAdmits("best_oa_location", v)
  {
    WorkAOmits(); WorkBOmits(); WorkCOmits(); WorkEOmits(); WorkFOmits(); WorkDeclaresD();
    Undeclared(WorkFieldsA(), "best_oa_location", v);
    Undeclared(WorkFieldsB(), "best_oa_location", v);
    Undeclared(WorkFieldsC(), "best_oa_location", v);
    DeclaredOnce(WorkFieldsD(), "best_oa_location", SNullable(SUnknown), v);
    Undeclared(WorkFieldsE(), "best_oa_location", v);
    Undeclared(WorkFieldsF(), "best_oa_location", v);
  }

  lemma WorkCitedByCountAdmits(n: int)
    ensures WorkAdmits("cited_by_count", Some(JNum(n)))
  {
    WorkAOmits(); WorkBOmits(); WorkCOmits(); WorkDOmits(); WorkEOmits(); WorkDeclaresEF();
    Undeclared(WorkFieldsA(), "cited_by_count", Some(JNum(n)));
    Undeclared(WorkFieldsB(), "cited_by_count", Some(JNum(n)));
    Undeclared(WorkFieldsC(), "cited_by_count", Some(JNum(n)));
    Undeclared(WorkFieldsD(), "cited_by_count", Some(JNum(n)));
    Undeclared(WorkFieldsE(), "cited_by_count", Some(JNum(n)));
    DeclaredOnce(WorkFieldsF(), "cited_by_count", SNumber, Some(JNum(n)));
  }

  lemma AuthorWorksCountAdmits(n: int)
    ensures AuthorAdmits("works_count", Some(JNum(n)))
  {
    AuthorOmits();
    DeclaredOnce(AuthorFieldsA(), "works_count", SNumber, Some(JNum(n)));
    Undeclared(AuthorFieldsB(), "works_count", Some(JNum(n)));
    Undeclared(AuthorFieldsC(), "works_count", Some(JNum(n)));
  }

  lemma AuthorOmits()
    ensures SchemasOf(AuthorFieldsA(), "works_count") == [SNumber]
    ensures SchemasOf(AuthorFieldsB(), "works_count") == []
    ensures SchemasOf(AuthorFieldsC(), "works_count") == []
  {
  }

  lemma InstitutionOmits()
    ensures SchemasOf(InstitutionFieldsA(), "display_name_alternatives") == [SOptional(SArray(SString))]
    ensures SchemasOf(InstitutionFieldsA(), "display_name_acronyms") == [SOptional(SArray(SString))]
    ensures SchemasOf(InstitutionFieldsA(), "international") == []
    ensures SchemasOf(InstitutionFieldsB(), "display_name_alternatives") == []
    ensures SchemasOf(InstitutionFieldsB(), "display_name_acronyms") == []
    ensures SchemasOf(InstitutionFieldsB(), "international") == []
  {
  }

  lemma InstitutionLaterOmits()
    ensures SchemasOf(InstitutionFieldsC(), "display_name_alternatives") == []
    ensures SchemasOf(InstitutionFieldsC(), "display_name_acronyms") == []
    ensures SchemasOf(InstitutionFieldsC(), "international") == [SNullable(SObject(InternationalFields()))]
    ensures SchemasOf(InstitutionFieldsD(), "display_name_alternatives") == []
    ensures SchemasOf(InstitutionFieldsD(), "display_name_acronyms") == []
    ensures SchemasOf(InstitutionFieldsD(), "international") == []
  {
  }

  lemma InstitutionNamesAdmitUndefined()
    ensures InstitutionAdmits("display_name_alternatives", None)
    ensures InstitutionAdmits("display_name_acronyms", None)
  {
    InstitutionOmits();
    InstitutionLaterOmits();
    var names := SOptional(SArray(SString));
    DeclaredOnce(InstitutionFieldsA(), "display_name_alternatives", names, None);
    Undeclared(InstitutionFieldsB(), "display_name_alternatives", None);
    Undeclared(InstitutionFieldsC(), "display_name_alternatives", None);
    Undeclared(InstitutionFieldsD(), "display_name_alternatives", None);
    DeclaredOnce(InstitutionFieldsA(), "display_name_acronyms", names, None);
    Undeclared(InstitutionFieldsB(), "display_name_acronyms", None);
    Undeclared(InstitutionFieldsC(), "display_name_acronyms", None);
    Undeclared(InstitutionFieldsD(), "display_name_acronyms", None);
  }

  lemma InternationalAdmitsNull()
    ensures InstitutionAdmits("international", Some(JNull))
  {
    InstitutionOmits();
    InstitutionLaterOmits();
    Undeclared(InstitutionFieldsA(), "international", Some(JNull));
    Undeclared(InstitutionFieldsB(), "international", Some(JNull));
    DeclaredOnce(InstitutionFieldsC(), "international", SNullable(SObject(InternationalFields())), Some(JNull));
    Undeclared(InstitutionFieldsD(), "international", Some(JNull));
  }

  lemma SourceOmits()
    ensures SchemasOf(SourceFieldsA(), "is_indexed_in_doaj") == []
    ensures SchemasOf(SourceFieldsB(), "is_indexed_in_doaj") == [SOptional(SBool)]
    ensures SchemasOf(SourceFieldsC(), "is_indexed_in_doaj") == []
    ensures SchemasOf(SourceFieldsD(), "is_indexed_in_doaj") == []
    ensures SchemasOf(SourceFieldsE(), "is_indexed_in_doaj") == []
  {
  }

  lemma IndexedInDoajAdmitsUndefined()
    ensures SourceAdmits("is_indexed_in_doaj", None)
  {
    SourceOmits();
    Undeclared(SourceFieldsA(), "is_indexed_in_doaj", None);
    DeclaredOnce(SourceFieldsB(), "is_indexed_in_doaj", SOptional(SBool), None);
    Undeclared(SourceFieldsC(), "is_indexed_in_doaj", None);
    Undeclared(SourceFieldsD(), "is_indexed_in_doaj", None);
    Undeclared(SourceFieldsE(), "is_indexed_in_doaj", None);
  }

  // ------------------------------------------------------------------ Work

  /** A work whose `display_name` is not a string (null, missing, a number, ...) fails to parse. */
  lemma WorkRequiresDisplayName(ms: seq<Member>)
    requires !(Lookup(ms, "display_name").Some? && Lookup(ms, "display_name").value.JStr?)
    ensures DecodeWork(JObj(ms)) == None
  {
    FieldRefuses(WorkFieldsA(), ms, "display_name");
  }

  lemma TitleOf(ms: seq<Member>)
    requires IsWork(Set(ms, "title", JNull))
    ensures ExtractWork(Set(ms, "title", JNull)).title == None
  {
    LookupSet(ms, "title", JNull, "title");
  }

  /** A parsing work still parses with `title: null`, and then has no title. */
  lemma WorkTitleMayBeNull(ms: seq<Member>)
    requires DecodeWork(JObj(ms)).Some?
    ensures var r := DecodeWork(JObj(Set(ms, "title", JNull))); r.Some? && r.value.title == None
  {
    TitleAdmitsNull();
    WorkEdit(ms, Put("title", JNull));
    TitleOf(ms);
  }

  lemma PrimaryLocationOf(ms: seq<Member>, l: Json)
    requires IsWork(Set(ms, "primary_location", l))
    ensures var p := ExtractWork(Set(ms, "primary_location", l)).primaryLocation;
      p.None? <==> l == JNull
  {
    LookupSet(ms, "primary_location", l, "primary_location");
  }

  /** `primary_location` may be null: a parsing work still parses with it set to null, and then has none. */
  lemma WorkPrimaryLocationMayBeNull(ms: seq<Member>)
    requires DecodeWork(JObj(ms)).Some?
    ensures var r := DecodeWork(JObj(Set(ms, "primary_location", JNull)));
      r.Some? && r.value.primaryLocation == None
  {
    PrimaryLocationAdmits(JNull);
    WorkEdit(ms, Put("primary_location", JNull));
    PrimaryLocationOf(ms, JNull);
  }

  /** ... but it may not be missing: a work without the key fails to parse. */
  lemma WorkPrimaryLocationRequired(ms: seq<Member>)
    requires Lookup(ms, "primary_location") == None
    ensures DecodeWork(JObj(ms)) == None
  {
    FieldRefuses(WorkFieldsB(), ms, "primary_location");
  }

  /** A location's `source` may be null ... */
  lemma LocationSourceMayBeNull(ls: seq<Member>)
    requires Conforms(LocationFields(), ls)
    ensures Conforms(LocationFields(), Set(ls, "source", JNull))
    ensures ExtractLocation(Set(ls, "source", JNull)).source == None
  {
    var e := Put("source", JNull);
    EditConforms(LocationFields(), ls, e);
    LookupSet(ls, "source", JNull, "source");
  }

  /** ... but may not be missing. */
  lemma LocationSourceRequired(ls: seq<Member>)
    requires Lookup(ls, "source") == None
    ensures !Accepts(SObject(LocationFields()), Some(JObj(ls)))
  {
    FieldRefuses(LocationFields(), ls, "source");
  }

  lemma PrimaryLocationSourceOf(ms: seq<Member>, ls: seq<Member>)
    requires Conforms(LocationFields(), ls)
    requires IsWork(Set(ms, "primary_location", JObj(ls)))
    requires ExtractLocation(ls).source == None
    ensures var p := ExtractWork(Set(ms, "primary_location", JObj(ls))).primaryLocation;
      p.Some? && p.value.source == None
  {
    LookupSet(ms, "primary_location", JObj(ls), "primary_location");
  }

  lemma PrimaryLocationDeclared()
    ensures SchemaOf(WorkFieldsB(), "primary_location") == Some(SNullable(SObject(LocationFields())))
  {
  }

  lemma PrimaryLocationConforms(ms: seq<Member>, ls: seq<Member>)
    requires Conforms(WorkFieldsB(), ms)
    requires Lookup(ms, "primary_location") == Some(JObj(ls))
    ensures Conforms(LocationFields(), ls)
  {
    PrimaryLocationDeclared();
    FieldAt(WorkFieldsB(), ms, "primary_location");
    NullableObjectConforms(LocationFields(), ls);
  }

  lemma NullableObjectConforms(fs: Fields, ms: seq<Member>)
    requires Accepts(SNullable(SObject(fs)), Some(JObj(ms)))
    ensures Conforms(fs, ms)
  {
  }

  lemma SourceDroppedKeepsWork(ms: seq<Member>, ls: seq<Member>)
    requires IsWork(ms)
    requires Lookup(ms, "primary_location") == Some(JObj(ls))
    ensures Conforms(LocationFields(), Set(ls, "source", JNull))
    ensures ExtractLocation(Set(ls, "source", JNull)).source == None
    ensures IsWork(Set(ms, "primary_location", JObj(Set(ls, "source", JNull))))
  {
    PrimaryLocationConforms(ms, ls);
    LocationSourceMayBeNull(ls);
    var ls' := Set(ls, "source", JNull);
    LocationAdmitted(ls');
    WorkEdit(ms, Put("primary_location", JObj(ls')));
  }

  lemma LocationAdmitted(ls: seq<Member>)
    requires Conforms(LocationFields(), ls)
    ensures WorkAdmits("primary_location", Some(JObj(ls)))
  {
    ObjectAccepts(LocationFields(), JObj(ls));
    assert Accepts(SNullable(SObject(LocationFields())), Some(JObj(ls)));
    PrimaryLocationAdmits(JObj(ls));
  }

  /**
   * Hence a whole work whose primary location loses its source (set to
   * null) still parses, with a primary location and no source.
   */
  lemma WorkLocationSourceMayBeNull(ms: seq<Member>, ls: seq<Member>)
    requires DecodeWork(JObj(ms)).Some?
    requires Lookup(ms, "primary_location") == Some(JObj(ls))
    ensures var r := DecodeWork(JObj(Set(ms, "primary_location", JObj(Set(ls, "source", JNull)))));
      r.Some? && r.value.primaryLocation.Some? && r.value.primaryLocation.value.source == None
  {
    SourceDroppedKeepsWork(ms, ls);
    PrimaryLocationSourceOf(ms, Set(ls, "source", JNull));
  }

  /** In `ids` only `openalex` is required; `doi`, `pmid` and `pmcid` may be missing, though not null. */
  lemma WorkIdsRule(ids: seq<Member>)
    ensures Conforms(WorkIdsFields(), ids) <==>
      (Lookup(ids, "openalex").Some? && Lookup(ids, "openalex").value.JStr?) &&
      (Lookup(ids, "doi") == None || Lookup(ids, "doi").value.JStr?) &&
      (Lookup(ids, "pmid") == None || Lookup(ids, "pmid").value.JStr?) &&
      (Lookup(ids, "pmcid") == None || Lookup(ids, "pmcid").value.JStr?)
  {
    assert Conforms(WorkIdsFields(), ids) <==>
      && Accepts(SString, Lookup(ids, "openalex")) && Accepts(SOptional(SString), Lookup(ids, "doi"))
      && Accepts(SOptional(SString), Lookup(ids, "pmid")) && Accepts(SOptional(SString), Lookup(ids, "pmcid"));
  }

  /** The arrays of `z.unknown()` take any elements at all. */
  lemma WorkUnknownArraysTakeAnything(ms: seq<Member>, k: string, items: seq<Json>)
    requires DecodeWork(JObj(ms)).Some?
    requires UnknownArrayKey(k)
    ensures DecodeWork(JObj(Set(ms, k, JArr(items)))).Some?
  {
    UnknownArrayAdmits(k, items);
    WorkEdit(ms, Put(k, JArr(items)));
  }

  lemma BestOaLocationOf(ms: seq<Member>, e: Edit)
    requires e.key == "best_oa_location"
    requires IsWork(Apply(ms, e))
    ensures ExtractWork(Apply(ms, e)).bestOaLocation == After(e, ms, "best_oa_location")
  {
    LookupApply(ms, e, "best_oa_location");
  }

  /** `best_oa_location` takes any value, null included ... */
  lemma WorkBestOaLocationTakesAnything(ms: seq<Member>, v: Json)
    requires DecodeWork(JObj(ms)).Some?
    ensures var r := DecodeWork(JObj(Set(ms, "best_oa_location", v)));
      r.Some? && r.value.bestOaLocation == Some(v)
  {
    var e := Put("best_oa_location", v);
    BestOaLocationAdmits(Some(v));
    WorkEdit(ms, e);
    BestOaLocationOf(ms, e);
  }

  /** ... and, since `z.unknown()` admits undefined, may even be missing. */
  lemma WorkBestOaLocationMayBeMissing(ms: seq<Member>)
    requires DecodeWork(JObj(ms)).Some?
    ensures var r := DecodeWork(JObj(Remove(ms, "best_oa_location")));
      r.Some? && r.value.bestOaLocation == None
  {
    var e := Delete("best_oa_location");
    BestOaLocationAdmits(None);
    WorkEdit(ms, e);
    BestOaLocationOf(ms, e);
  }

  lemma CitedByCountOf(ms: seq<Member>, n: int)
    requires IsWork(Set(ms, "cited_by_count", JNum(n)))
    ensures ExtractWork(Set(ms, "cited_by_count", JNum(n))).citedByCount == n
  {
    LookupSet(ms, "cited_by_count", JNum(n), "cited_by_count");
  }

  /** Counts carry no range: a negative `cited_by_count` parses and is kept as it is. */
  lemma WorkCountHasNoRange(ms: seq<Member>, n: int)
    requires DecodeWork(JObj(ms)).Some?
    ensures var r := DecodeWork(JObj(Set(ms, "cited_by_count", JNum(n))));
      r.Some? && r.value.citedByCount == n
  {
    WorkCitedByCountAdmits(n);
    WorkEdit(ms, Put("cited_by_count", JNum(n)));
    CitedByCountOf(ms, n);
  }

  /** Scores carry no range either: any score, above 1 or below 0, parses. */
  lemma ScoreHasNoRange(ss: seq<Member>, n: int)
    requires Conforms(ScoredFields(), ss)
    ensures Conforms(ScoredFields(), Set(ss, "score", JNum(n)))
    ensures ExtractScored(Set(ss, "score", JNum(n))).score == n
  {
    EditConforms(ScoredFields(), ss, Put("score", JNum(n)));
    LookupSet(ss, "score", JNum(n), "score");
  }

  /** Keys the work schema does not declare are let through (and stripped). */
  lemma WorkIgnoresUndeclaredKeys(ms: seq<Member>, k: string, v: Json)
    requires DecodeWork(JObj(ms)).Some?
    requires SchemaOf(WorkFields(), k) == None
    ensures DecodeWork(JObj(Set(ms, k, v))).Some?
  {
    SchemaOfIsDeclared(WorkFields(), k);
    assert Admits(WorkFields(), k, Some(v));
    WorkAdmitsWhole(k, Some(v));
    WorkEdit(ms, Put(k, v));
  }

  // ---------------------------------------------------------------- Author

  /** An author must carry `display_name_alternatives`: without it the author fails to parse. */
  lemma AuthorAlternativesRequired(ms: seq<Member>)
    requires Lookup(ms, "display_name_alternatives") == None
    ensures DecodeAuthor(JObj(ms)) == None
  {
    FieldRefuses(AuthorFieldsA(), ms, "display_name_alternatives");
  }

  lemma WorksCountOf(ms: seq<Member>, n: int)
    requires IsAuthor(Set(ms, "works_count", JNum(n)))
    ensures ExtractAuthor(Set(ms, "works_count", JNum(n))).worksCount == n
  {
    LookupSet(ms, "works_count", JNum(n), "works_count");
  }

  /** A negative `works_count` parses and is kept. */
  lemma AuthorCountHasNoRange(ms: seq<Member>, n: int)
    requires DecodeAuthor(JObj(ms)).Some?
    ensures var r := DecodeAuthor(JObj(Set(ms, "works_count", JNum(n))));
      r.Some? && r.value.worksCount == n
  {
    AuthorWorksCountAdmits(n);
    AuthorEdit(ms, Put("works_count", JNum(n)));
    WorksCountOf(ms, n);
  }

  // ----------------------------------------------------------- Institution

  lemma NamesOf(m1: seq<Member>, m2: seq<Member>)
    requires m2 == Remove(m1, "display_name_acronyms")
    requires Lookup(m1, "display_name_alternatives") == None
    requires IsInstitution(m2)
    ensures var i := ExtractInstitution(m2); i.displayNameAlternatives == None && i.displayNameAcronyms == None
  {
    LookupRemove(m1, "display_name_acronyms", "display_name_alternatives");
    LookupRemove(m1, "display_name_acronyms", "display_name_acronyms");
  }

  /** An institution may leave out its alternative names and acronyms: it still parses, with neither. */
  lemma InstitutionAlternativesOptional(ms: seq<Member>)
    requires DecodeInstitution(JObj(ms)).Some?
    ensures var ms' := Remove(Remove(ms, "display_name_alternatives"), "display_name_acronyms");
      var r := DecodeInstitution(JObj(ms'));
      r.Some? && r.value.displayNameAlternatives == None && r.value.displayNameAcronyms == None
  {
    InstitutionNamesAdmitUndefined();
    var e1, e2 := Delete("display_name_alternatives"), Delete("display_name_acronyms");
    InstitutionEdit(ms, e1);
    var m1 := Apply(ms, e1);
    InstitutionEdit(m1, e2);
    LookupRemove(ms, "display_name_alternatives", "display_name_alternatives");
    NamesOf(m1, Apply(m1, e2));
  }

  /**
   * `international` is null, or an object whose `display_name` is an object
   * with string values only (a language-to-name map; any keys).
   */
  lemma InternationalRule(v: Json)
    ensures Accepts(SNullable(SObject(InternationalFields())), Some(v)) <==>
      v == JNull ||
      (v.JObj? && Lookup(v.members, "display_name").Some? && Lookup(v.members, "display_name").value.JObj? &&
       forall m | m in Lookup(v.members, "display_name").value.members :: m.value.JStr?)
  {
  }

  lemma InternationalOf(ms: seq<Member>)
    requires IsInstitution(Set(ms, "international", JNull))
    ensures ExtractInstitution(Set(ms, "international", JNull)).international == None
  {
    LookupSet(ms, "international", JNull, "international");
  }

  /** `international` may be null: a parsing institution still parses with it set to null. */
  lemma InstitutionInternationalMayBeNull(ms: seq<Member>)
    requires DecodeInstitution(JObj(ms)).Some?
    ensures var r := DecodeInstitution(JObj(Set(ms, "international", JNull)));
      r.Some? && r.value.international == None
  {
    InternationalAdmitsNull();
    InstitutionEdit(ms, Put("international", JNull));
    InternationalOf(ms);
  }

  // ---------------------------------------------------------------- Source

  lemma IndexedInDoajOf(ms: seq<Member>)
    requires IsSource(Remove(ms, "is_indexed_in_doaj"))
    ensures ExtractSource(Remove(ms, "is_indexed_in_doaj")).isIndexedInDoaj == None
  {
    LookupRemove(ms, "is_indexed_in_doaj", "is_indexed_in_doaj");
  }

  /** `is_indexed_in_doaj` is optional: a parsing source still parses without it. */
  lemma SourceIndexedInDoajOptional(ms: seq<Member>)
    requires DecodeSource(JObj(ms)).Some?
    ensures var r := DecodeSource(JObj(Remove(ms, "is_indexed_in_doaj")));
      r.Some? && r.value.isIndexedInDoaj == None
  {
    IndexedInDoajAdmitsUndefined();
    SourceEdit(ms, Delete("is_indexed_in_doaj"));
    IndexedInDoajOf(ms);
  }

  /** `is_oa` and `is_in_doaj` are required booleans: a source where either is not a boolean fails. */
  lemma SourceOpenAccessFlagsRequired(ms: seq<Member>, k: string)
    requires k == "is_oa" || k == "is_in_doaj"
    requires !(Lookup(ms, k).Some? && Lookup(ms, k).value.JBool?)
    ensures DecodeSource(JObj(ms)) == None
  {
    if k == "is_oa" {
      FieldRefuses(SourceFieldsB(), ms, "is_oa");
    } else {
      FieldRefuses(SourceFieldsB(), ms, "is_in_doaj");
    }
  }
}
