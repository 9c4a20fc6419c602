/**
 * Field-level rules shared by task documents: a start must carry every
 * `@NotNull` field, a patch must not carry any `@Immutable` field, and an
 * accepted patch overwrites the fields it carries.
 *
 * The annotations are read by reflection in the services; here they are an
 * explicit per-field table, a `Schema`.
 */
module TaskDocuments {
  import opened Wrappers

  /** The non-null fields of a document other than its task state, by field name, with their JSON text. */
  type Fields = map<string, string>

  datatype FieldSpec = FieldSpec(name: string, notNull: bool, immutable: bool)

  /** The document's fields in declaration order with their annotations. */
  type Schema = seq<FieldSpec>

  datatype DocumentError =
    | MissingField(field: string)
    | ImmutableFieldSet(field: string)
    | MissingTaskState
    | InvalidStartState
    | InvalidTransition

  /** The first `@NotNull` field, in declaration order, that the document lacks. */
  function FirstMissingRequired(schema: Schema, fields: Fields): (r: Option<string>)
    ensures r.None? <==> forall i :: 0 <= i < |schema| && schema[i].notNull ==> schema[i].name in fields
    ensures r.Some? ==> r.value !in fields
    ensures r.Some? ==>
      exists i :: 0 <= i < |schema| && schema[i].notNull && schema[i].name == r.value &&
        forall j :: 0 <= j < i && schema[j].notNull ==> schema[j].name in fields
  {
    if |schema| == 0 then None
    else if schema[0].notNull && schema[0].name !in fields then Some(schema[0].name)
    else
      var rest := FirstMissingRequired(schema[1..], fields);
      assert forall i :: 1 <= i < |schema| ==> schema[i] == schema[1..][i - 1];
      if rest.Some? then
        ghost var k :| 0 <= k < |schema[1..]| && schema[1..][k].notNull && schema[1..][k].name == rest.value &&
          forall j :: 0 <= j < k && schema[1..][j].notNull ==> schema[1..][j].name in fields;
        assert schema[k + 1].notNull && schema[k + 1].name == rest.value;
        assert forall j :: 0 <= j < k + 1 && schema[j].notNull ==> schema[j].name in fields;
        rest
      else rest
  }

  /** The first `@Immutable` field, in declaration order, that a patch carries. */
  function FirstImmutableSet(schema: Schema, patch: Fields): (r: Option<string>)
    ensures r.None? <==> forall i :: 0 <= i < |schema| && schema[i].immutable ==> schema[i].name !in patch
    ensures r.Some? ==> r.value in patch
    ensures r.Some? ==>
      exists i :: 0 <= i < |schema| && schema[i].immutable && schema[i].name == r.value &&
        forall j :: 0 <= j < i && schema[j].immutable ==> schema[j].name !in patch
  {
    if |schema| == 0 then None
    else if schema[0].immutable && schema[0].name in patch then Some(schema[0].name)
    else
      var rest := FirstImmutableSet(schema[1..], patch);
      assert forall i :: 1 <= i < |schema| ==> schema[i] == schema[1..][i - 1];
      if rest.Some? then
        ghost var k :| 0 <= k < |schema[1..]| && schema[1..][k].immutable && schema[1..][k].name == rest.value &&
          forall j :: 0 <= j < k && schema[1..][j].immutable ==> schema[1..][j].name !in patch;
        assert schema[k + 1].immutable && schema[k + 1].name == rest.value;
        assert forall j :: 0 <= j < k + 1 && schema[j].immutable ==> schema[j].name !in patch;
        rest
      else rest
  }

  /** A start is rejected for the first required field it lacks. */
  function ValidateRequired(schema: Schema, fields: Fields): (r: Outcome<DocumentError>)
    ensures r.Pass? <==> forall i :: 0 <= i < |schema| && schema[i].notNull ==> schema[i].name in fields
    ensures r.Fail? ==> r.error.MissingField? && r.error.field !in fields
  {
    match FirstMissingRequired(schema, fields)
    case None => Pass
    case Some(name) => Fail(MissingField(name))
  }

  /** A patch is rejected for the first immutable field it carries, whatever its value. */
  function ValidateImmutable(schema: Schema, patch: Fields): (r: Outcome<DocumentError>)
    ensures r.Pass? <==> forall i :: 0 <= i < |schema| && schema[i].immutable ==> schema[i].name !in patch
    ensures r.Fail? ==> r.error.ImmutableFieldSet? && r.error.field in patch
  {
    match FirstImmutableSet(schema, patch)
    case None => Pass
    case Some(name) => Fail(ImmutableFieldSet(name))
  }

  /** Every field the patch carries replaces the stored one; the others are kept. */
  function MergePatch(current: Fields, patch: Fields): (r: Fields)
    ensures forall name :: name in r <==> name in current || name in patch
    ensures forall name :: name in patch ==> r[name] == patch[name]
    ensures forall name :: name in current && name !in patch ==> r[name] == current[name]
  {
    current + patch
  }

  /** A patch that passed the immutable check leaves every immutable field as it was. */
  lemma MergeKeepsImmutable(schema: Schema, current: Fields, patch: Fields)
    requires ValidateImmutable(schema, patch).Pass?
    ensures forall i :: 0 <= i < |schema| && schema[i].immutable ==>
      (schema[i].name in MergePatch(current, patch) <==> schema[i].name in current)
    ensures forall i :: 0 <= i < |schema| && schema[i].immutable && schema[i].name in current ==>
      MergePatch(current, patch)[schema[i].name] == current[schema[i].name]
  {
  }

  /** A stored document keeps its required fields under every patch. */
  lemma MergeKeepsRequired(schema: Schema, current: Fields, patch: Fields)
    requires ValidateRequired(schema, current).Pass?
    ensures ValidateRequired(schema, MergePatch(current, patch)).Pass?
  {
  }
}
