/**
 * The schema and its validation (SchemaValidatorMixin in protobuf_schema_builder/mixins.py).
 * Validation only reads the schema, so it is a family of functions returning an Outcome.
 */
module SchemaValidator {
  import opened Wrappers
  import opened Exceptions

  /** A field definition: a dictionary from attribute name to value; "type" is the one that matters. */
  type FieldDef = map<string, string>

  /** One `field_name: field_def` item of the schema dictionary. */
  datatype Entry = Entry(name: string, def: FieldDef)

  predicate DistinctNames(entries: seq<Entry>) {
    forall i, j :: 0 <= i < j < |entries| ==> entries[i].name != entries[j].name
  }

  /** The schema: an insertion-ordered dictionary, so no name occurs twice. */
  type Schema = s: seq<Entry> | DistinctNames(s) witness []

  function Names(entries: seq<Entry>): set<string> {
    set k | 0 <= k < |entries| :: entries[k].name
  }

  /** The definition carries a "type" attribute whose value is one of the supported types. */
  predicate HasSupportedType(def: FieldDef, supported: set<string>) {
    "type" in def && def["type"] in supported
  }

  predicate AllSupported(entries: seq<Entry>, supported: set<string>) {
    forall k :: 0 <= k < |entries| ==> HasSupportedType(entries[k].def, supported)
  }

  /** `_validate_schema_not_empty`. */
  function ValidateSchemaNotEmpty(schema: Schema): (r: Outcome<ValidationFailure>)
    ensures r.Pass? <==> |schema| > 0
    ensures r.Fail? ==> r.error == EmptySchema
  {
    if |schema| == 0 then Fail(EmptySchema) else Pass
  }

  /** `_validate_field_type`: a missing "type" is reported before an unsupported one. */
  function ValidateFieldType(name: string, def: FieldDef, supported: set<string>): (r: Outcome<ValidationFailure>)
    ensures r.Pass? <==> HasSupportedType(def, supported)
    ensures "type" !in def ==> r == Fail(MissingType(name))
    ensures "type" in def && def["type"] !in supported ==> r == Fail(UnsupportedType(name, def["type"]))
  {
    if "type" !in def then Fail(MissingType(name))
    else if def["type"] !in supported then Fail(UnsupportedType(name, def["type"]))
    else Pass
  }

  /** `_validate_field_definitions`: the entries are checked in order and the first failure is raised. */
  function ValidateFieldDefinitions(entries: seq<Entry>, supported: set<string>): (r: Outcome<ValidationFailure>)
    ensures r.Pass? <==> AllSupported(entries, supported)
    ensures r.Fail? ==> r.error.MissingType? || r.error.UnsupportedType?
    ensures r.Fail? ==> r.error.field in Names(entries)
  {
    if entries == [] then Pass
    else
      match ValidateFieldType(entries[0].name, entries[0].def, supported)
      case Fail(e) => Fail(e)
      case Pass =>
        var rest := ValidateFieldDefinitions(entries[1..], supported);
        assert AllSupported(entries, supported) <==> AllSupported(entries[1..], supported) by {
          assert forall k :: 0 < k < |entries| ==> entries[k] == entries[1..][k - 1];
        }
        assert rest.Fail? ==> rest.error.field in Names(entries) by {
          assert forall k :: 0 <= k < |entries| - 1 ==> entries[1..][k] == entries[k + 1];
        }
        rest
  }

  /** `validate_schema`: emptiness first, then every definition. */
  function ValidateSchema(schema: Schema, supported: set<string>): (r: Outcome<ValidationFailure>)
    ensures r.Pass? <==> |schema| > 0 && AllSupported(schema, supported)
    ensures |schema| == 0 ==> r == Fail(EmptySchema)
  {
    match ValidateSchemaNotEmpty(schema)
    case Fail(e) => Fail(e)
    case Pass => ValidateFieldDefinitions(schema, supported)
  }

  /** The first offending entry, and only it, determines the reported error. */
  lemma {:induction false} FirstOffenderDecides(entries: seq<Entry>, supported: set<string>, i: nat)
    requires i < |entries|
    requires AllSupported(entries[..i], supported)
    requires !HasSupportedType(entries[i].def, supported)
    ensures ValidateFieldDefinitions(entries, supported)
         == ValidateFieldType(entries[i].name, entries[i].def, supported)
  {
    if i > 0 {
      assert HasSupportedType(entries[..i][0].def, supported);
      assert entries[1..][..i - 1] == entries[..i][1..];
      assert entries[1..][i - 1] == entries[i];
      FirstOffenderDecides(entries[1..], supported, i - 1);
    }
  }

  /** Conversely, a reported error names an entry all of whose predecessors are valid. */
  lemma {:induction false} ErrorComesFromFirstOffender(entries: seq<Entry>, supported: set<string>)
    requires ValidateFieldDefinitions(entries, supported).Fail?
    ensures exists i :: (0 <= i < |entries| && AllSupported(entries[..i], supported)
                         && !HasSupportedType(entries[i].def, supported)
                         && ValidateFieldDefinitions(entries, supported)
                            == ValidateFieldType(entries[i].name, entries[i].def, supported))
  {
    if HasSupportedType(entries[0].def, supported) {
      ErrorComesFromFirstOffender(entries[1..], supported);
      var i :| 0 <= i < |entries[1..]| && AllSupported(entries[1..][..i], supported)
        && !HasSupportedType(entries[1..][i].def, supported)
        && ValidateFieldDefinitions(entries[1..], supported) == ValidateFieldType(entries[1..][i].name, entries[1..][i].def, supported);
      assert entries[..i + 1] == [entries[0]] + entries[1..][..i];
      assert AllSupported(entries[..i + 1], supported);
      assert entries[i + 1] == entries[1..][i];
    } else {
      assert AllSupported(entries[..0], supported);
    }
  }
}
