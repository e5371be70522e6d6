/**
 * `ProtobufMessageBuilder` (protobuf_schema_builder/builder.py): validates the schema, then
 * walks it in insertion order, numbering, renaming and dispatching each field to its handler,
 * which appends one spec to the message descriptor.
 *
 * The builder's mutable state (field counter, name mapping, descriptor) is mirrored by the
 * value `State`; `AddFieldStep` and `BuildLoop` say, as functions of that value, what
 * `add_field` and the loop of `build` do, and the class's methods are proved against them.
 */
module Builder {
  import opened Wrappers
  import opened Exceptions
  import opened SchemaValidator
  import opened FieldNames
  import opened Descriptor
  import opened FieldHandlers

  /** The handler table `__init__` sets up; its keys are the supported types. */
  const DefaultFieldHandlers: map<string, FieldHandler> := map[
    "STRING" := StringFieldHandler,
    "DOUBLE" := DoubleFieldHandler,
    "INT64" := Int64FieldHandler,
    "BOOL" := BooleanFieldHandler
  ]

  const SupportedFieldTypes: set<string> := DefaultFieldHandlers.Keys

  const MessageName: string := "DynamicMessage"
  /** The key `build` looks the generated class up under. */
  const MessageFullName: string := "dp_package.DynamicMessage"

  /** The type tag whose handler records `kind`: dispatch reaches every type. */
  function TagOf(kind: FieldKind): (tag: string)
    ensures tag in DefaultFieldHandlers && DefaultFieldHandlers[tag].Kind() == kind
  {
    match kind
    case TypeBool => "BOOL"
    case TypeDouble => "DOUBLE"
    case TypeInt64 => "INT64"
    case TypeString => "STRING"
  }

  /** Dispatch is one-to-one: a tag is recovered from the type its handler records. */
  lemma DispatchIsInjective(tag: string)
    requires tag in DefaultFieldHandlers
    ensures TagOf(DefaultFieldHandlers[tag].Kind()) == tag
  {
  }

  /** The builder's mutable attributes, as a value. */
  datatype State = State(fieldNum: nat, mapping: map<string, string>, fields: seq<FieldSpec>)

  /** What one or more `add_field` calls return, and the state they leave. */
  datatype Step = Step(outcome: Outcome<BuildError>, state: State)

  /** The compiled message type: its full name and the field specs it was compiled from. */
  datatype MessageClass = MessageClass(fullName: string, fields: seq<FieldSpec>)

  /** What `build` returns: the message class and the name mapping. */
  datatype Built = Built(messageClass: MessageClass, fieldMapping: map<string, string>)

  /** The exception `add_field` meets for a definition without a usable type. */
  function FailureOf(def: FieldDef): FieldFailure {
    if "type" !in def then MissingTypeKey else NoHandler(def["type"])
  }

  /** The type a supported definition's handler records. */
  function KindOf(def: FieldDef): FieldKind
    requires HasSupportedType(def, SupportedFieldTypes)
  {
    DefaultFieldHandlers[def["type"]].Kind()
  }

  /**
   * `add_field(field_name, field_def)` on a state: the counter is bumped and the mapping
   * written first; only then is the type looked up, so a failure leaves both changed
   * and the descriptor as it was.
   */
  function AddFieldStep(sanitize: string -> string, st: State, fieldName: string, fieldDef: FieldDef): (r: Step)
    ensures r.state.fieldNum == st.fieldNum + 1
    ensures r.state.mapping == st.mapping[fieldName := sanitize(fieldName)]
    ensures r.outcome.Pass? <==> HasSupportedType(fieldDef, SupportedFieldTypes)
    ensures r.outcome.Fail? ==>
      r.outcome.error == FieldCreationError(fieldName, FailureOf(fieldDef)) && r.state.fields == st.fields
    ensures r.outcome.Pass? ==>
      r.state.fields == st.fields + [FieldSpec(sanitize(fieldName), st.fieldNum + 1, KindOf(fieldDef))]
  {
    var num := st.fieldNum + 1;
    var protoFieldName := sanitize(fieldName);
    var mapping := st.mapping[fieldName := protoFieldName];
    if "type" !in fieldDef then
      Step(Fail(FieldCreationError(fieldName, MissingTypeKey)), State(num, mapping, st.fields))
    else if fieldDef["type"] !in DefaultFieldHandlers then
      Step(Fail(FieldCreationError(fieldName, NoHandler(fieldDef["type"]))), State(num, mapping, st.fields))
    else
      var kind := DefaultFieldHandlers[fieldDef["type"]].Kind();
      Step(Pass, State(num, mapping, st.fields + [FieldSpec(protoFieldName, num, kind)]))
  }

  /** Every spec's number is in 1..fieldNum and the numbers strictly increase: none is 0 or reused. */
  predicate NumberedUpTo(fields: seq<FieldSpec>, fieldNum: int) {
    && (forall k :: 0 <= k < |fields| ==> 1 <= fields[k].number <= fieldNum)
    && (forall j, k :: 0 <= j < k < |fields| ==> fields[j].number < fields[k].number)
  }

  /** Every name in the mapping is mapped to what `sanitize` makes of it. */
  predicate MapsBy(mapping: map<string, string>, sanitize: string -> string) {
    forall n {:trigger mapping[n]} :: n in mapping ==> mapping[n] == sanitize(n)
  }

  /** Every name in the mapping is mapped to its safe name. */
  predicate MapsToSafeNames(mapping: map<string, string>, hex8: string -> Hex8) {
    forall n {:trigger mapping[n]} :: n in mapping ==> mapping[n] == SafeFieldName(hex8, n)
  }

  /**
   * The loop of `build`: `add_field` on each entry in order, stopping at the first failure.
   * The counter never decreases, earlier specs are kept, the numbering stays sound, and a
   * failure is always a FieldCreationError.
   */
  function BuildLoop(sanitize: string -> string, st: State, entries: seq<Entry>): (r: Step)
    ensures st.fieldNum <= r.state.fieldNum <= st.fieldNum + |entries|
    ensures |st.fields| <= |r.state.fields| && r.state.fields[..|st.fields|] == st.fields
    ensures r.outcome.Fail? ==> r.outcome.error.FieldCreationError?
    decreases |entries|
  {
    if entries == [] then Step(Pass, st)
    else
      var prev := BuildLoop(sanitize, st, entries[..|entries| - 1]);
      if prev.outcome.Fail? then prev
      else AddFieldStep(sanitize, prev.state, entries[|entries| - 1].name, entries[|entries| - 1].def)
  }

  /** One `add_field` keeps the numbering sound: the new spec takes the next number. */
  lemma AddFieldStepKeepsNumbering(sanitize: string -> string, st: State, fieldName: string, fieldDef: FieldDef)
    requires NumberedUpTo(st.fields, st.fieldNum)
    ensures var r := AddFieldStep(sanitize, st, fieldName, fieldDef);
      NumberedUpTo(r.state.fields, r.state.fieldNum)
  {
    var r := AddFieldStep(sanitize, st, fieldName, fieldDef);
    if r.outcome.Pass? {
      assert forall k :: 0 <= k < |st.fields| ==> r.state.fields[k] == st.fields[k];
    }
  }

  /** Whatever the schema, the loop keeps the numbering sound: no number is 0 or reused. */
  lemma {:induction false} BuildLoopKeepsNumbering(sanitize: string -> string, st: State, entries: seq<Entry>)
    requires NumberedUpTo(st.fields, st.fieldNum)
    ensures var r := BuildLoop(sanitize, st, entries);
      NumberedUpTo(r.state.fields, r.state.fieldNum)
  {
    if entries != [] {
      var init := entries[..|entries| - 1];
      var last := entries[|entries| - 1];
      BuildLoopKeepsNumbering(sanitize, st, init);
      var prev := BuildLoop(sanitize, st, init);
      if prev.outcome.Pass? {
        AddFieldStepKeepsNumbering(sanitize, prev.state, last.name, last.def);
      }
    }
  }

  /** Whatever the schema, every name the loop records is mapped to its sanitised name. */
  lemma {:induction false} BuildLoopKeepsSafeNames(sanitize: string -> string, st: State, entries: seq<Entry>)
    requires MapsBy(st.mapping, sanitize)
    ensures MapsBy(BuildLoop(sanitize, st, entries).state.mapping, sanitize)
  {
    if entries != [] {
      var init := entries[..|entries| - 1];
      var last := entries[|entries| - 1];
      BuildLoopKeepsSafeNames(sanitize, st, init);
      var prev := BuildLoop(sanitize, st, init);
      if prev.outcome.Pass? {
        var m := AddFieldStep(sanitize, prev.state, last.name, last.def).state.mapping;
        assert BuildLoop(sanitize, st, entries).state.mapping == m;
        forall n | n in m ensures m[n] == sanitize(n) {
          if n != last.name {
            assert n in prev.state.mapping;
          }
        }
      }
    }
  }

  /**
   * One turn of the loop: with the entries before `i` passed and `add_field` run on entry `i`,
   * either the loop goes on from the new state or it has ended, failed, in that state.
   */
  lemma BuildLoopAdvance(sanitize: string -> string, st: State, entries: seq<Entry>, i: nat,
                         before: State, outcome: Outcome<BuildError>, after: State)
    requires i < |entries|
    requires BuildLoop(sanitize, st, entries[..i]) == Step(Pass, before)
    requires Step(outcome, after) == AddFieldStep(sanitize, before, entries[i].name, entries[i].def)
    ensures outcome.Pass? ==> BuildLoop(sanitize, st, entries[..i + 1]) == Step(Pass, after)
    ensures outcome.Fail? ==> BuildLoop(sanitize, st, entries) == Step(outcome, after)
  {
    assert entries[..i + 1][..i] == entries[..i];
    if outcome.Fail? {
      BuildLoopStopsAtFailure(sanitize, st, entries, i + 1);
    }
  }

  /** Once a prefix has failed, the rest of the schema is not visited. */
  lemma {:induction false} BuildLoopStopsAtFailure(sanitize: string -> string, st: State, entries: seq<Entry>, j: nat)
    requires j <= |entries|
    requires BuildLoop(sanitize, st, entries[..j]).outcome.Fail?
    ensures BuildLoop(sanitize, st, entries) == BuildLoop(sanitize, st, entries[..j])
    decreases |entries| - j
  {
    if j < |entries| {
      var init := entries[..|entries| - 1];
      assert init[..j] == entries[..j];
      BuildLoopStopsAtFailure(sanitize, st, init, j);
    } else {
      assert entries[..j] == entries;
    }
  }

  /**
   * The specs the handlers append for `entries`, all of supported type, when the counter
   * stands at `fieldNum`: one per entry, in order.
   */
  function AppendedSpecs(sanitize: string -> string, fieldNum: nat, entries: seq<Entry>): (specs: seq<FieldSpec>)
    requires AllSupported(entries, SupportedFieldTypes)
    ensures |specs| == |entries|
    decreases |entries|
  {
    if entries == [] then []
    else
      var init := entries[..|entries| - 1];
      var last := entries[|entries| - 1];
      assert forall k :: 0 <= k < |init| ==> init[k] == entries[k];
      AppendedSpecs(sanitize, fieldNum, init) + [FieldSpec(sanitize(last.name), fieldNum + |entries|, KindOf(last.def))]
  }

  /** The k-th appended spec carries the k-th entry's sanitised name, number fieldNum + k + 1 and its type. */
  lemma {:induction false} AppendedSpecsAt(sanitize: string -> string, fieldNum: nat, entries: seq<Entry>, k: nat)
    requires AllSupported(entries, SupportedFieldTypes)
    requires k < |entries|
    ensures AppendedSpecs(sanitize, fieldNum, entries)[k]
      == FieldSpec(sanitize(entries[k].name), fieldNum + k + 1, KindOf(entries[k].def))
    decreases |entries|
  {
    var init := entries[..|entries| - 1];
    if k < |init| {
      assert forall i :: 0 <= i < |init| ==> init[i] == entries[i];
      AppendedSpecsAt(sanitize, fieldNum, init, k);
    }
  }

  /**
   * With every type supported, the loop succeeds, bumps the counter once per entry and
   * appends one spec per entry, in order.
   */
  lemma {:induction false} BuildLoopAllSupported(sanitize: string -> string, st: State, entries: seq<Entry>)
    requires AllSupported(entries, SupportedFieldTypes)
    ensures var r := BuildLoop(sanitize, st, entries);
      && r.outcome == Pass
      && r.state.fieldNum == st.fieldNum + |entries|
      && r.state.fields == st.fields + AppendedSpecs(sanitize, st.fieldNum, entries)
  {
    if entries != [] {
      var init := entries[..|entries| - 1];
      var last := entries[|entries| - 1];
      assert AllSupported(init, SupportedFieldTypes) && HasSupportedType(last.def, SupportedFieldTypes) by {
        assert forall k :: 0 <= k < |init| ==> init[k] == entries[k];
      }
      BuildLoopAllSupported(sanitize, st, init);
      var prev := BuildLoop(sanitize, st, init);
      assert BuildLoop(sanitize, st, entries) == AddFieldStep(sanitize, prev.state, last.name, last.def);
      var spec := FieldSpec(sanitize(last.name), st.fieldNum + |entries|, KindOf(last.def));
      var appended := AppendedSpecs(sanitize, st.fieldNum, init);
      assert (st.fields + appended) + [spec] == st.fields + (appended + [spec]);
    }
  }

  /** With every type supported, the mapping gains exactly the entries' names. */
  lemma {:induction false} BuildLoopMappingKeys(sanitize: string -> string, st: State, entries: seq<Entry>)
    requires AllSupported(entries, SupportedFieldTypes)
    ensures BuildLoop(sanitize, st, entries).state.mapping.Keys == st.mapping.Keys + Names(entries)
  {
    if entries != [] {
      var init := entries[..|entries| - 1];
      assert forall k :: 0 <= k < |init| ==> init[k] == entries[k];
      assert AllSupported(init, SupportedFieldTypes);
      BuildLoopAllSupported(sanitize, st, init);
      BuildLoopMappingKeys(sanitize, st, init);
      NamesOfSnoc(entries);
    }
  }

  lemma {:induction false} NamesOfSnoc(entries: seq<Entry>)
    requires entries != []
    ensures Names(entries) == Names(entries[..|entries| - 1]) + {entries[|entries| - 1].name}
  {
    var init := entries[..|entries| - 1];
    assert forall k :: 0 <= k < |init| ==> init[k] == entries[k];
    forall n | n in Names(entries) ensures n in Names(init) + {entries[|entries| - 1].name} {
      var k :| 0 <= k < |entries| && entries[k].name == n;
      if k < |init| { assert init[k].name == n; }
    }
  }

  /**
   * The first entry without a supported type aborts the loop with a FieldCreationError
   * naming it; by then the counter has been bumped for it and its name mapped, but no spec
   * was appended for it.
   */
  lemma {:induction false} BuildLoopFirstFailure(sanitize: string -> string, st: State, entries: seq<Entry>, i: nat)
    requires i < |entries|
    requires AllSupported(entries[..i], SupportedFieldTypes)
    requires !HasSupportedType(entries[i].def, SupportedFieldTypes)
    ensures var r := BuildLoop(sanitize, st, entries);
      && r.outcome == Fail(FieldCreationError(entries[i].name, FailureOf(entries[i].def)))
      && r.state.fieldNum == st.fieldNum + i + 1
      && |r.state.fields| == |st.fields| + i
      && entries[i].name in r.state.mapping
      && r.state.mapping[entries[i].name] == sanitize(entries[i].name)
  {
    var upTo := entries[..i + 1];
    assert upTo[..i] == entries[..i];
    BuildLoopAllSupported(sanitize, st, entries[..i]);
    assert BuildLoop(sanitize, st, upTo).outcome.Fail?;
    BuildLoopStopsAtFailure(sanitize, st, entries, i + 1);
  }

  /** A successful build of `schema` from a fresh builder, described field by field. */
  predicate Describes(schema: Schema, fields: seq<FieldSpec>, mapping: map<string, string>)
  {
    && mapping.Keys == Names(schema)
    && |fields| == |schema|
    && (forall k :: 0 <= k < |schema| ==>
          && HasSupportedType(schema[k].def, SupportedFieldTypes)
          && fields[k] == FieldSpec(mapping[schema[k].name], k + 1, KindOf(schema[k].def)))
  }

  /** The specs appended from a counter at 0, under a mapping made by `sanitize`, describe the schema. */
  lemma {:induction false} AppendedSpecsDescribe(schema: Schema, sanitize: string -> string, fields: seq<FieldSpec>, mapping: map<string, string>)
    requires AllSupported(schema, SupportedFieldTypes)
    requires fields == AppendedSpecs(sanitize, 0, schema)
    requires mapping.Keys == Names(schema) && MapsBy(mapping, sanitize)
    ensures Describes(schema, fields, mapping)
  {
    forall k | 0 <= k < |schema|
      ensures fields[k] == FieldSpec(mapping[schema[k].name], k + 1, KindOf(schema[k].def))
    {
      assert schema[k].name in Names(schema);
      AppendedSpecsAt(sanitize, 0, schema, k);
    }
  }

  /**
   * From a fresh builder a validated schema yields specs numbered 1..n in schema order,
   * the k-th named by the mapping of the k-th key, and a mapping whose keys are the schema's,
   * each mapped to its sanitised name.
   */
  lemma {:induction false} FreshBuild(schema: Schema, sanitize: string -> string)
    requires ValidateSchema(schema, SupportedFieldTypes).Pass?
    ensures var r := BuildLoop(sanitize, State(0, map[], []), schema);
      r.outcome == Pass && Describes(schema, r.state.fields, r.state.mapping) && MapsBy(r.state.mapping, sanitize)
  {
    var init := State(0, map[], []);
    var r := BuildLoop(sanitize, init, schema);
    BuildLoopAllSupported(sanitize, init, schema);
    BuildLoopMappingKeys(sanitize, init, schema);
    BuildLoopKeepsSafeNames(sanitize, init, schema);
    assert r.state.fields == AppendedSpecs(sanitize, 0, schema) by {
      assert init.fields + AppendedSpecs(sanitize, 0, schema) == AppendedSpecs(sanitize, 0, schema);
    }
    AppendedSpecsDescribe(schema, sanitize, r.state.fields, r.state.mapping);
  }

  /** Appending the schema's specs a second time repeats every name, numbered on from n + 1. */
  lemma {:induction false} AppendedTwiceRepeatsNames(sanitize: string -> string, schema: seq<Entry>, fields: seq<FieldSpec>)
    requires AllSupported(schema, SupportedFieldTypes)
    requires fields == AppendedSpecs(sanitize, 0, schema) + AppendedSpecs(sanitize, |schema|, schema)
    ensures |fields| == 2 * |schema|
    ensures forall j :: |schema| <= j < 2 * |schema| ==>
      && fields[j].number == j + 1
      && fields[j].name == fields[j - |schema|].name
  {
    var n := |schema|;
    var once, again := AppendedSpecs(sanitize, 0, schema), AppendedSpecs(sanitize, n, schema);
    forall j | n <= j < 2 * n
      ensures fields[j].number == j + 1
      ensures fields[j].name == fields[j - n].name
    {
      AppendedSpecsAt(sanitize, 0, schema, j - n);
      AppendedSpecsAt(sanitize, n, schema, j - n);
      assert fields[j] == again[j - n];
      assert fields[j - n] == once[j - n];
    }
  }

  /**
   * The state is not reset between `build` calls: building the same schema again continues
   * the numbering at n + 1 and appends a second spec under every name already present.
   */
  lemma {:induction false} RepeatedBuildDuplicatesNames(schema: Schema, sanitize: string -> string)
    requires ValidateSchema(schema, SupportedFieldTypes).Pass?
    ensures var first := BuildLoop(sanitize, State(0, map[], []), schema).state;
      var second := BuildLoop(sanitize, first, schema);
      && second.outcome == Pass
      && |second.state.fields| == 2 * |schema|
      && (forall j :: |schema| <= j < 2 * |schema| ==>
            && second.state.fields[j].number == j + 1
            && second.state.fields[j].name == second.state.fields[j - |schema|].name)
  {
    var init := State(0, map[], []);
    BuildLoopAllSupported(sanitize, init, schema);
    var first := BuildLoop(sanitize, init, schema).state;
    BuildLoopAllSupported(sanitize, first, schema);
    var once := AppendedSpecs(sanitize, 0, schema);
    assert first.fields == once by {
      assert init.fields + once == once;
    }
    AppendedTwiceRepeatsNames(sanitize, schema, BuildLoop(sanitize, first, schema).state.fields);
  }

  /**
   * Names in one message are unique as far as the digests of its keys are: when no two keys
   * of the schema share a digest, no two fields of a fresh build share a name. The digest is
   * an 8-hex-digit prefix, so this is a condition on the schema, not a guarantee.
   */
  lemma {:induction false} UniqueNamesIfDigestsDistinct(schema: Schema, hex8: string -> Hex8, fields: seq<FieldSpec>, mapping: map<string, string>)
    requires Describes(schema, fields, mapping)
    requires MapsToSafeNames(mapping, hex8)
    requires forall j, k :: 0 <= j < k < |schema| ==> hex8(schema[j].name) != hex8(schema[k].name)
    ensures forall j, k :: 0 <= j < k < |fields| ==> fields[j].name != fields[k].name
  {
    forall j, k | 0 <= j < k < |fields| ensures fields[j].name != fields[k].name {
      DistinctDigestsDistinctNames(hex8, schema[j].name, schema[k].name);
    }
  }

  class ProtobufMessageBuilder {
    const fieldHandlers: map<string, FieldHandler>
    const supportedFieldTypes: set<string>
    const schema: Schema
    /**
     * `self.generate_protobuf_safe_field_name`: SafeFieldName over the digest
     * `hashlib.sha1(...).hexdigest()[:8]` (see the constructor).
     */
    const safeFieldName: string -> string
    const messageDescriptorProto: DescriptorProto
    var fieldNum: nat
    var fieldNameMapping: map<string, string>

    ghost predicate Valid()
      reads this, messageDescriptorProto
    {
      && fieldHandlers == DefaultFieldHandlers
      && supportedFieldTypes == SupportedFieldTypes
      && messageDescriptorProto.name == MessageName
      && NumberedUpTo(messageDescriptorProto.field, fieldNum)
    }

    /** The mutable attributes as a value. */
    function Snapshot(): State
      reads this, messageDescriptorProto
    {
      State(fieldNum, fieldNameMapping, messageDescriptorProto.field)
    }

    /** The part of `__init__` after the schema has been validated (see New). */
    constructor (schema: Schema, hex8: string -> Hex8)
      ensures Valid() && fresh(messageDescriptorProto)
      ensures this.schema == schema
      ensures forall n :: safeFieldName(n) == SafeFieldName(hex8, n)
      ensures Snapshot() == State(0, map[], [])
    {
      fieldHandlers := DefaultFieldHandlers;
      supportedFieldTypes := DefaultFieldHandlers.Keys;
      this.schema := schema;
      safeFieldName := n => SafeFieldName(hex8, n);
      var proto := new DescriptorProto();
      proto.name := MessageName;
      messageDescriptorProto := proto;
      fieldNum := 0;
      fieldNameMapping := map[];
    }

    /**
     * `ProtobufMessageBuilder(schema)`: the schema is validated before anything is stored,
     * so an invalid schema yields a SchemaValidationError and no builder.
     */
    static method New(schema: Schema, hex8: string -> Hex8) returns (r: Result<ProtobufMessageBuilder, BuildError>)
      ensures r.Failure? <==> ValidateSchema(schema, SupportedFieldTypes).Fail?
      ensures r.Failure? ==> r.error == SchemaValidationError(ValidateSchema(schema, SupportedFieldTypes).error)
      ensures r.Success? ==>
        && fresh(r.value) && fresh(r.value.messageDescriptorProto) && r.value.Valid()
        && r.value.schema == schema
        && (forall n :: r.value.safeFieldName(n) == SafeFieldName(hex8, n))
        && r.value.Snapshot() == State(0, map[], [])
    {
      match ValidateSchema(schema, SupportedFieldTypes)
      case Fail(e) =>
        r := Failure(SchemaValidationError(e));
      case Pass =>
        var b := new ProtobufMessageBuilder(schema, hex8);
        r := Success(b);
    }

    /** `add_field(field_name, field_def)`; any failure surfaces as a FieldCreationError. */
    method AddField(fieldName: string, fieldDef: FieldDef) returns (r: Outcome<BuildError>)
      requires Valid()
      modifies this, messageDescriptorProto
      ensures Valid()
      ensures Step(r, Snapshot()) == AddFieldStep(safeFieldName, old(Snapshot()), fieldName, fieldDef)
    {
      ghost var start := Snapshot();
      fieldNum := fieldNum + 1;
      var protoFieldName := safeFieldName(fieldName);
      fieldNameMapping := fieldNameMapping[fieldName := protoFieldName];
      if "type" !in fieldDef {
        r := Fail(FieldCreationError(fieldName, MissingTypeKey));
      } else {
        var fieldType := fieldDef["type"];
        var handler := if fieldType in fieldHandlers then Some(fieldHandlers[fieldType]) else None;
        match handler
        case None =>
          r := Fail(FieldCreationError(fieldName, NoHandler(fieldType)));
        case Some(h) =>
          h.AddField(messageDescriptorProto, fieldNum, protoFieldName);
          r := Pass;
      }
      assert Step(r, Snapshot()) == AddFieldStep(safeFieldName, start, fieldName, fieldDef);
      AddFieldStepKeepsNumbering(safeFieldName, start, fieldName, fieldDef);
    }

    /**
     * `build()`: `add_field` for every entry in schema order; a FieldCreationError is passed
     * on unchanged; a failure of the later stage (descriptor assembly, pool registration,
     * class generation: the opaque `laterStage`) becomes a MessageBuildError.
     */
    method Build(laterStage: Option<string>) returns (r: Result<Built, BuildError>)
      requires Valid()
      modifies this, messageDescriptorProto
      ensures Valid()
      ensures Snapshot() == BuildLoop(safeFieldName, old(Snapshot()), schema).state
      ensures var step := BuildLoop(safeFieldName, old(Snapshot()), schema);
        && (step.outcome.Fail? ==> r == Failure(step.outcome.error))
        && (step.outcome.Pass? && laterStage.Some? ==> r == Failure(MessageBuildError(laterStage.value)))
        && (step.outcome.Pass? && laterStage.None? ==>
              r == Success(Built(MessageClass(MessageFullName, messageDescriptorProto.field),
                                 fieldNameMapping)))
    {
      ghost var start := Snapshot();
      var i := 0;
      while i < |schema|
        invariant 0 <= i <= |schema|
        invariant Valid()
        invariant BuildLoop(safeFieldName, start, schema[..i]) == Step(Pass, Snapshot())
      {
        var entry := schema[i];
        ghost var before := Snapshot();
        var o := AddField(entry.name, entry.def);
        BuildLoopAdvance(safeFieldName, start, schema, i, before, o, Snapshot());
        if o.Fail? {
          return Failure(o.error);
        }
        i := i + 1;
      }
      assert schema[..i] == schema;
      match laterStage
      case Some(message) =>
        r := Failure(MessageBuildError(message));
      case None =>
        r := Success(Built(MessageClass(MessageFullName, messageDescriptorProto.field),
                           fieldNameMapping));
    }
  }

  /**
   * `ProtobufMessageBuilder(schema).build()`: an invalid schema is reported by the validator
   * unchanged; a valid one never fails field by field, so it either hits the later stage's
   * failure or yields specs numbered 1..n in schema order under the mapped names.
   */
  method BuildMessage(schema: Schema, hex8: string -> Hex8, laterStage: Option<string>)
    returns (r: Result<Built, BuildError>)
    ensures ValidateSchema(schema, SupportedFieldTypes).Fail? ==>
      r == Failure(SchemaValidationError(ValidateSchema(schema, SupportedFieldTypes).error))
    ensures r.Failure? ==> !r.error.FieldCreationError?
    ensures ValidateSchema(schema, SupportedFieldTypes).Pass? && laterStage.Some? ==>
      r == Failure(MessageBuildError(laterStage.value))
    ensures ValidateSchema(schema, SupportedFieldTypes).Pass? && laterStage.None? ==>
      && r.Success?
      && r.value.messageClass.fullName == MessageFullName
      && Describes(schema, r.value.messageClass.fields, r.value.fieldMapping)
      && MapsToSafeNames(r.value.fieldMapping, hex8)
  {
    var created := ProtobufMessageBuilder.New(schema, hex8);
    match created
    case Failure(e) =>
      r := Failure(e);
    case Success(builder) =>
      FreshBuild(schema, builder.safeFieldName);
      r := builder.Build(laterStage);
  }
}
