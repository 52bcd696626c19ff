/**
 * The zod combinators the response and entity schemas are built from, as
 * data, and what it means for a JSON value to conform to one of them.
 *
 * `z.object` ignores keys it does not declare (they are stripped from the
 * parsed result), `.nullable()` admits null but not a missing key,
 * `.optional()` admits a missing key but not null, and `z.unknown()` admits
 * anything, a missing key included.
 */
module Schema {
  import opened Wrappers
  import opened Json

  datatype Schema =
    | SString                  // z.string()
    | SNumber                  // z.number()
    | SBool                    // z.boolean()
    | SUnknown                 // z.unknown()
    | SNullable(inner: Schema) // inner.nullable()
    | SOptional(inner: Schema) // inner.optional()
    | SArray(elem: Schema)     // z.array(elem)
    | SObject(fields: Fields)  // z.object({...}), unknown keys stripped
    | SRecord(values: Schema)  // z.record(values)

  /** The declared keys of a `z.object`, in declaration order. */
  datatype Fields = End | Field(name: string, schema: Schema, rest: Fields)

  /** Does the value at hand (None: undefined) pass the schema? */
  predicate Accepts(s: Schema, v: Option<Json>)
    decreases s
  {
    match s
    case SString => v.Some? && v.value.JStr?
    case SNumber => v.Some? && v.value.JNum?
    case SBool => v.Some? && v.value.JBool?
    case SUnknown => true
    case SNullable(inner) => v == Some(JNull) || Accepts(inner, v)
    case SOptional(inner) => v == None || Accepts(inner, v)
    case SArray(e) =>
      v.Some? && v.value.JArr? && forall x | x in v.value.items :: Accepts(e, Some(x))
    case SObject(fs) =>
      v.Some? && v.value.JObj? && Conforms(fs, v.value.members)
    case SRecord(e) =>
      v.Some? && v.value.JObj? && forall m | m in v.value.members :: Accepts(e, Some(m.value))
  }

  /** Every declared field's schema accepts what the object holds under its key. */
  predicate Conforms(fs: Fields, ms: seq<Member>)
    decreases fs
  {
    match fs
    case End => true
    case Field(k, s, rest) => Accepts(s, Lookup(ms, k)) && Conforms(rest, ms)
  }

  /** The fields of `a` followed by those of `b`. */
  function Concat(a: Fields, b: Fields): Fields
  {
    match a
    case End => b
    case Field(k, s, rest) => Field(k, s, Concat(rest, b))
  }

  /** The schemas declared for key `k`, in declaration order. */
  function SchemasOf(fs: Fields, k: string): seq<Schema>
  {
    match fs
    case End => []
    case Field(n, s, rest) => (if n == k then [s] else []) + SchemasOf(rest, k)
  }

  /** The schema first declared for key `k`. */
  function SchemaOf(fs: Fields, k: string): Option<Schema>
  {
    match fs
    case End => None
    case Field(n, s, rest) => if n == k then Some(s) else SchemaOf(rest, k)
  }

  /** Every schema declared for key `k` lets `v` through (vacuous when `k` is not declared). */
  predicate Admits(fs: Fields, k: string, v: Option<Json>)
  {
    forall s | s in SchemasOf(fs, k) :: Accepts(s, v)
  }

  /** The first declaration of a key is one of its declarations. */
  lemma {:induction false} SchemaOfIsDeclared(fs: Fields, k: string)
    ensures SchemaOf(fs, k).Some? <==> |SchemasOf(fs, k)| > 0
    ensures SchemaOf(fs, k).Some? ==> SchemaOf(fs, k).value == SchemasOf(fs, k)[0]
  {
    match fs
    case End =>
    case Field(n, s, rest) => SchemaOfIsDeclared(rest, k);
  }

  /**
   * An object conforms exactly when, for every key, each schema declared for
   * that key accepts what the object holds under it.
   */
  lemma {:induction false} ConformsByKey(fs: Fields, ms: seq<Member>)
    ensures Conforms(fs, ms) ==> forall k :: Admits(fs, k, Lookup(ms, k))
    ensures (forall k :: Admits(fs, k, Lookup(ms, k))) ==> Conforms(fs, ms)
  {
    match fs
    case End =>
    case Field(n, s, rest) =>
      ConformsByKey(rest, ms);
      if Conforms(fs, ms) {
        forall k ensures Admits(fs, k, Lookup(ms, k)) {
          assert SchemasOf(fs, k) == (if n == k then [s] else []) + SchemasOf(rest, k);
          assert Admits(rest, k, Lookup(ms, k));
        }
      } else if !Accepts(s, Lookup(ms, n)) {
        assert SchemasOf(fs, n) == [s] + SchemasOf(rest, n);
        assert !Admits(fs, n, Lookup(ms, n));
      } else {
        var k :| !Admits(rest, k, Lookup(ms, k));
        assert SchemasOf(fs, k) == (if n == k then [s] else []) + SchemasOf(rest, k);
        assert !Admits(fs, k, Lookup(ms, k));
      }
  }

  /** A conforming object satisfies the schema first declared for each key. */
  lemma {:induction false} FieldAt(fs: Fields, ms: seq<Member>, k: string)
    requires Conforms(fs, ms) && SchemaOf(fs, k).Some?
    ensures Accepts(SchemaOf(fs, k).value, Lookup(ms, k))
  {
    match fs
    case Field(n, s, rest) => if n != k { FieldAt(rest, ms, k); }
  }

  /** A field whose schema refuses what the object holds under its key makes the whole object fail. */
  lemma FieldRefuses(fs: Fields, ms: seq<Member>, k: string)
    requires SchemaOf(fs, k).Some? && !Accepts(SchemaOf(fs, k).value, Lookup(ms, k))
    ensures !Conforms(fs, ms)
  {
    if Conforms(fs, ms) {
      FieldAt(fs, ms, k);
    }
  }

  lemma {:induction false} SchemasOfConcat(a: Fields, b: Fields, k: string)
    ensures SchemasOf(Concat(a, b), k) == SchemasOf(a, k) + SchemasOf(b, k)
  {
    match a
    case End =>
    case Field(n, s, rest) =>
      var head := if n == k then [s] else [];
      calc {
        SchemasOf(Concat(a, b), k);
        head + SchemasOf(Concat(rest, b), k);
        { SchemasOfConcat(rest, b, k); }
        head + (SchemasOf(rest, k) + SchemasOf(b, k));
        (head + SchemasOf(rest, k)) + SchemasOf(b, k);
      }
  }

  /** An object schema accepts exactly the objects whose members conform. */
  lemma ObjectAccepts(fs: Fields, v: Json)
    ensures Accepts(SObject(fs), Some(v)) <==> v.JObj? && Conforms(fs, v.members)
  {
  }

  /** An object schema declared in two groups is the conjunction of the groups. */
  lemma {:induction false} ConcatConforms(a: Fields, b: Fields, ms: seq<Member>)
    ensures Conforms(Concat(a, b), ms) <==> Conforms(a, ms) && Conforms(b, ms)
  {
    match a
    case End =>
    case Field(n, s, rest) => ConcatConforms(rest, b, ms);
  }

  /** A key the fields do not declare admits any value. */
  lemma Undeclared(fs: Fields, k: string, v: Option<Json>)
    requires SchemasOf(fs, k) == []
    ensures Admits(fs, k, v)
  {
  }

  /** A key declared once admits what its schema accepts. */
  lemma DeclaredOnce(fs: Fields, k: string, s: Schema, v: Option<Json>)
    requires SchemasOf(fs, k) == [s] && Accepts(s, v)
    ensures Admits(fs, k, v)
  {
  }

  /** A value is admitted by two groups together exactly when each group admits it. */
  lemma AdmitsConcat(a: Fields, b: Fields, k: string, v: Option<Json>)
    ensures Admits(Concat(a, b), k, v) <==> Admits(a, k, v) && Admits(b, k, v)
  {
    SchemasOfConcat(a, b, k);
  }

  /**
   * Editing one key of a conforming object (setting it, or deleting it) keeps
   * the object conforming when every schema declared for that key admits the
   * key's new state.
   */
  lemma {:induction false} EditConforms(fs: Fields, ms: seq<Member>, e: Edit)
    requires Conforms(fs, ms)
    requires Admits(fs, e.key, After(e, ms, e.key))
    ensures Conforms(fs, Apply(ms, e))
  {
    match fs
    case End =>
    case Field(n, s, rest) =>
      LookupApply(ms, e, n);
      if n == e.key {
        assert s in SchemasOf(fs, e.key);
      }
      assert SchemasOf(fs, e.key) == (if n == e.key then [s] else []) + SchemasOf(rest, e.key);
      EditConforms(rest, ms, e);
  }

  /**
   * Keys the schema does not declare neither help nor hurt: editing one
   * leaves the object's conformance as it was.
   */
  lemma {:induction false} EditElsewhere(fs: Fields, ms: seq<Member>, e: Edit)
    requires SchemasOf(fs, e.key) == []
    ensures Conforms(fs, Apply(ms, e)) <==> Conforms(fs, ms)
  {
    match fs
    case End =>
    case Field(n, s, rest) =>
      LookupApply(ms, e, n);
      assert SchemasOf(fs, e.key) == (if n == e.key then [s] else []) + SchemasOf(rest, e.key);
      EditElsewhere(rest, ms, e);
  }

  /** The schemas that refuse both undefined and null. */
  predicate Strict(s: Schema)
  {
    s.SString? || s.SNumber? || s.SBool? || s.SArray? || s.SObject? || s.SRecord?
  }

  /**
   * `.nullable()` and `.optional()` are different: around a strict schema,
   * the first admits null and refuses a missing key, the second the reverse.
   */
  lemma NullableIsNotOptional(s: Schema)
    requires Strict(s)
    ensures Accepts(SNullable(s), Some(JNull)) && !Accepts(SNullable(s), None)
    ensures Accepts(SOptional(s), None) && !Accepts(SOptional(s), Some(JNull))
    ensures Accepts(SOptional(SNullable(s)), None) && Accepts(SOptional(SNullable(s)), Some(JNull))
  {
  }

  /** One element the element schema refuses makes the whole array fail. */
  lemma ArrayRefusesElement(e: Schema, items: seq<Json>, i: nat)
    requires i < |items|
    requires !Accepts(e, Some(items[i]))
    ensures !Accepts(SArray(e), Some(JArr(items)))
  {
    assert items[i] in items;
  }
}
