# protobuf_schema_builder, modelled in Dafny

This project models the descriptor-building core of `protobuf_schema_builder`. The library
takes a flat schema: an ordered dictionary from field name to a definition whose `"type"` is
one of `STRING`, `DOUBLE`, `INT64` or `BOOL`. From it, the library builds a protobuf message
type at run time.

The model covers three parts:

- **Schema validation** (`SchemaValidatorMixin`, module `SchemaValidator`, `mixins.dfy`).
  These are pure functions that return an `Outcome`. An empty schema is rejected first. Then
  the entries are checked in order, and the first entry with no `"type"` or an unsupported
  `"type"` decides the error. Validation only reads the schema.
- **Field-name sanitisation** (`generate_protobuf_safe_field_name`, module `FieldNames`,
  `field_names.dfy`). This is a pure string transform:
  - Every character outside ASCII `[A-Za-z0-9]` becomes `_`.
  - A leading digit gets the prefix `f_`.
  - `_` and an 8-hex-digit digest of the original name are appended.
  - An empty name becomes `field_` followed by the digest.

  SHA-1 is not modelled. The digest is a function parameter `hex8` whose results are 8
  lower-case hexadecimal digits.
- **Descriptor assembly** (`ProtobufMessageBuilder`, the four field handlers; modules
  `Builder`, `FieldHandlers`, `Descriptor`).
  - The builder is a class. Its mutable attributes are `fieldNum`, `fieldNameMapping` and a
    `DescriptorProto` object whose `field` sequence the handlers grow in place.
  - The builder holds its naming function `safeFieldName`, the static method it calls
    through `self`. The constructor sets it to `SafeFieldName` over the digest `hex8`.
  - `AddField` and `Build` are proved against the pure functions `AddFieldStep` and
    `BuildLoop`, which act on a `State` value. These functions take the naming function as
    a parameter, so the loop lemmas hold for any sanitiser. The lemmas about those functions carry the
    properties:
    - numbering 1..n in schema order, never 0 and never reused;
    - the mapping's keys are the schema's keys;
    - the k-th spec is named `mapping[k-th key]`;
    - the first failure stops the loop;
    - any failure is a `FieldCreationError`, and it cannot happen when `build` directly
      follows a successful construction on the same, unchanged schema (`BuildMessage`).
  - The errors of `exceptions.py` are the variants of `Exceptions.BuildError`.

Behaviour of the code a reader may not expect:

- An empty name gives `field_<hash>`, with no second `_<hash>` suffix.
- Validation runs in the constructor, not in `build`. An invalid schema therefore yields no
  builder at all (`ProtobufMessageBuilder.New`).
- The message is always `DynamicMessage` in package `dp_package`, looked up as
  `dp_package.DynamicMessage`. No per-build namespace exists.
- The builder's state is not reset between `build` calls. A second call continues the
  numbering at n + 1 and appends every field again under the same names
  (`RepeatedBuildDuplicatesNames`).
- `add_field` bumps the counter and records the mapping before it looks up the handler. A
  failing `add_field` therefore still changes both.

## Model

| member | source | states |
|---|---|---|
| `SchemaValidator.ValidateSchemaNotEmpty` | protobuf_schema_builder/mixins.py:9-11 | passes exactly when the schema has an entry, and otherwise fails with EmptySchema |
| `SchemaValidator.ValidateFieldType` | protobuf_schema_builder/mixins.py:17-26 | passes exactly when the definition has a "type" in the supported set; a missing "type" gives MissingType(name), which takes precedence over UnsupportedType(name, type) for a type outside the set |
| `SchemaValidator.ValidateFieldDefinitions` | protobuf_schema_builder/mixins.py:13-15 | passes exactly when every entry has a supported type; a failure is MissingType or UnsupportedType naming a field of the schema |
| `SchemaValidator.ValidateSchema` | protobuf_schema_builder/mixins.py:5-7 | passes exactly when the schema is non-empty and every entry has a supported type; an empty schema always reports EmptySchema |
| `SchemaValidator.FirstOffenderDecides` | protobuf_schema_builder/mixins.py:13-15 | when every entry before i is valid and entry i is not, the result is entry i's own error |
| `SchemaValidator.ErrorComesFromFirstOffender` | protobuf_schema_builder/mixins.py:13-15 | every reported error is the error of an offending entry whose predecessors are all valid |
| `FieldNames.Mask` | protobuf_schema_builder/builder.py:63 | length-preserving; position i keeps an ASCII letter or digit and otherwise holds `_`; every character is a letter, digit or `_` |
| `FieldNames.SafeFieldName` | protobuf_schema_builder/builder.py:60-73 | the result matches `^[A-Za-z_][A-Za-z0-9_]*$` and does not begin with a digit |
| `FieldNames.SafeFieldNameShape` | protobuf_schema_builder/builder.py:63-73 | empty name gives `field_` + digest; otherwise the length is the name's + 9, or + 11 when the name starts with a digit and `f_` is prefixed; each character is kept or replaced in place; `_` precedes the digest |
| `FieldNames.SafeFieldNameSuffix` | protobuf_schema_builder/builder.py:66-73 | the last 8 characters are the digest of the original, unmasked name |
| `FieldNames.DistinctDigestsDistinctNames` | protobuf_schema_builder/builder.py:71-73 | names with different digests never get the same safe name |
| `Descriptor.DescriptorProto.constructor` | protobuf_schema_builder/builder.py:22 | a new descriptor has no name and no fields |
| `Descriptor.DescriptorProto.AddField` | protobuf_schema_builder/field_handlers.py:7-11 | `field.add` appends one spec at the end and leaves the rest unchanged |
| `FieldHandlers.FieldHandler.AddField` | protobuf_schema_builder/field_handlers.py:5-38 | each handler appends exactly one spec carrying the given name and number and its own type; earlier specs and the message name are unchanged |
| `FieldHandlers.KindsDistinct` | protobuf_schema_builder/field_handlers.py:5-38 | different handlers record different types (BOOL, DOUBLE, INT64, STRING) |
| `FieldHandlers.HandlerFor` | protobuf_schema_builder/field_handlers.py:5-38 | every one of the four types is recorded by some handler |
| `Builder.TagOf` | protobuf_schema_builder/builder.py:13-19 | every type is reached by dispatching on one of the four table keys |
| `Builder.DispatchIsInjective` | protobuf_schema_builder/builder.py:13-19 | a tag is recovered from the type its handler records, so dispatch is one-to-one |
| `Builder.AddFieldStep` | protobuf_schema_builder/builder.py:27-37 | the counter grows by exactly 1 and the mapping gains the name, bound to its sanitised name, first; it succeeds exactly for a supported type and then appends one spec (safe name, new number, the tag's type); otherwise it fails with FieldCreationError(name, cause) and leaves the specs unchanged |
| `Builder.BuildLoop` | protobuf_schema_builder/builder.py:41-42 | the counter never decreases and grows by at most one per entry; earlier specs are kept; every failure is a FieldCreationError |
| `Builder.AddFieldStepKeepsNumbering` | protobuf_schema_builder/builder.py:27-37 | one `add_field` keeps the spec numbers within 1..field_num and strictly increasing |
| `Builder.BuildLoopKeepsNumbering` | protobuf_schema_builder/builder.py:24-42 | spec numbers stay within 1..field_num and strictly increasing, so none is 0 or reused |
| `Builder.BuildLoopKeepsSafeNames` | protobuf_schema_builder/builder.py:30-31 | every name in the mapping stays bound to its sanitised name |
| `Builder.BuildLoopAdvance` | protobuf_schema_builder/builder.py:41-42 | after the entries before i passed, `add_field` on entry i either continues the loop from its new state or ends it with that failure and state |
| `Builder.BuildLoopStopsAtFailure` | protobuf_schema_builder/builder.py:36-42 | once an entry fails, the later entries are not visited |
| `Builder.AppendedSpecsAt` | protobuf_schema_builder/builder.py:29-35 | the k-th appended spec has the k-th entry's sanitised name, number field_num + k + 1 and the entry's type |
| `Builder.BuildLoopAllSupported` | protobuf_schema_builder/builder.py:29-42 | with all types supported the loop succeeds, the counter grows by the number of entries, and exactly the appended specs are added after the old ones |
| `Builder.BuildLoopMappingKeys` | protobuf_schema_builder/builder.py:30-42 | with all types supported the mapping gains exactly the schema's names |
| `Builder.NamesOfSnoc` | protobuf_schema_builder/builder.py:41 | the names of a schema are those of its prefix plus its last entry's |
| `Builder.BuildLoopFirstFailure` | protobuf_schema_builder/builder.py:27-42 | the first entry without a supported type aborts with FieldCreationError naming it; its number was already used and its name mapped, but no spec was appended for it |
| `Builder.AppendedSpecsDescribe` | protobuf_schema_builder/builder.py:24-42 | the specs appended from counter 0 are numbered 1..n in schema order, the k-th named `mapping[k-th key]` with that key's type |
| `Builder.FreshBuild` | protobuf_schema_builder/builder.py:24-42 | from a fresh builder a validated schema yields specs numbered 1..n in schema order; the k-th is named `mapping[k-th key]` and has that key's type; the mapping's keys are the schema's, each bound to its sanitised name |
| `Builder.AppendedTwiceRepeatsNames` | protobuf_schema_builder/builder.py:27-35 | appending the schema's specs a second time from counter n numbers them n + 1..2n and repeats every name |
| `Builder.RepeatedBuildDuplicatesNames` | protobuf_schema_builder/builder.py:24-42 | a second build continues the numbering at n + 1 and repeats every name |
| `Builder.UniqueNamesIfDigestsDistinct` | protobuf_schema_builder/builder.py:71-73 | the names within one message are distinct whenever no two keys of the schema share a digest |
| `Builder.ProtobufMessageBuilder.constructor` | protobuf_schema_builder/builder.py:13-25 | stores the schema with the fixed handler table and SafeFieldName over the digest as its naming function; the descriptor is named DynamicMessage; the counter is 0 and the mapping is empty |
| `Builder.ProtobufMessageBuilder.New` | protobuf_schema_builder/builder.py:12-25 | fails with SchemaValidationError (the validator's own reason) exactly when validation fails, and then no builder exists; otherwise returns a fresh builder in its initial state, naming fields by SafeFieldName |
| `Builder.ProtobufMessageBuilder.AddField` | protobuf_schema_builder/builder.py:27-37 | the return value and new state are those of AddFieldStep on the old state; any failure is a FieldCreationError |
| `Builder.ProtobufMessageBuilder.Build` | protobuf_schema_builder/builder.py:39-58 | the new state is BuildLoop of the old state; a FieldCreationError is passed on unchanged; a later-stage failure becomes MessageBuildError; otherwise returns the class `dp_package.DynamicMessage` with the specs and the mapping |
| `Builder.BuildMessage` | protobuf_schema_builder/builder.py:12-58 | building from a schema reports an invalid schema as its validation error; it never fails with FieldCreationError; with a valid schema it fails only at the later stage, and otherwise the mapping's keys are the schema's, each bound to SafeFieldName of it, and the specs are numbered 1..n in order under the mapped names |

## Left out

- Descriptor-pool registration and class generation are calls into the protobuf runtime (`FileDescriptorProto` assembly, `DescriptorPool().Add`, `message_factory.GetMessages`, builder.py:44-52). They are not modelled. Their failure is the opaque input `laterStage`, and the class is represented by its full name and field specs.
- SHA-1 and UTF-8 encoding are not modelled. The digest is the parameter `hex8`, with no injectivity claimed.
- `serialize_record` and the protobuf wire format are not part of this model. `serialization.py` is not part of this model.
- DOUBLE values and floating point appear only as a type tag.
- The runtime's range checks on field numbers are not modelled. For example, the int32 limit and the reserved range 19000-19999 surface only as runtime failures.
- `Builder.ProtobufMessageBuilder`: holds the schema as a value captured at construction, with `str` names. The source keeps a reference to the caller's dictionary (builder.py:21) and reads it only in `build` (builder.py:41). An entry added or changed after construction therefore reaches `add_field` unvalidated, and a non-`str` key passes validation but fails in `re.sub` (builder.py:63). Both surface as `FieldCreationError`, which the model does not capture.
- `Builder.ProtobufMessageBuilder.Build`: returns the mapping as a value. The source returns its live dictionary, so later builder calls are visible through it (aliasing). Its insertion order is not modelled either.
- Field definitions are dictionaries from attribute name to string. A hashable non-string `"type"` value behaves like any unsupported string, because it is not in the supported set. An unhashable one, such as a list, makes the membership test at mixins.py:22 raise `TypeError` out of the constructor; that path is outside the model.
- Names are sequences of Unicode scalar values. Python strings holding lone surrogates are outside the model.
- Concurrency and the shared descriptor namespace are not modelled. All operations are sequential.
