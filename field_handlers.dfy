/**
 * The four handlers of protobuf_schema_builder/field_handlers.py. They are stateless and
 * differ only in the type they record, so they are the variants of one datatype.
 */
module FieldHandlers {
  import opened Descriptor

  datatype FieldHandler = BooleanFieldHandler | DoubleFieldHandler | Int64FieldHandler | StringFieldHandler
  {
    /** The type this handler records. */
    function Kind(): FieldKind {
      match this
      case BooleanFieldHandler => TypeBool
      case DoubleFieldHandler => TypeDouble
      case Int64FieldHandler => TypeInt64
      case StringFieldHandler => TypeString
    }

    /**
     * `add_field(message_proto, field_num, proto_field_name)`: appends exactly one spec,
     * carrying the given name and number unchanged and this handler's own type; the specs
     * already there and the message name are untouched.
     */
    method AddField(messageProto: DescriptorProto, fieldNum: int, protoFieldName: string)
      modifies messageProto
      ensures |messageProto.field| == |old(messageProto.field)| + 1
      ensures messageProto.field[..|old(messageProto.field)|] == old(messageProto.field)
      ensures messageProto.field[|old(messageProto.field)|] == FieldSpec(protoFieldName, fieldNum, Kind())
      ensures messageProto.name == old(messageProto.name)
    {
      match this
      case BooleanFieldHandler => messageProto.AddField(protoFieldName, fieldNum, TypeBool);
      case DoubleFieldHandler => messageProto.AddField(protoFieldName, fieldNum, TypeDouble);
      case Int64FieldHandler => messageProto.AddField(protoFieldName, fieldNum, TypeInt64);
      case StringFieldHandler => messageProto.AddField(protoFieldName, fieldNum, TypeString);
    }
  }

  /** Each handler records its own type and no other: no two handlers share a type. */
  lemma KindsDistinct(h1: FieldHandler, h2: FieldHandler)
    requires h1 != h2
    ensures h1.Kind() != h2.Kind()
  {
  }

  /** Every type is recorded by some handler. */
  function HandlerFor(kind: FieldKind): (h: FieldHandler)
    ensures h.Kind() == kind
  {
    match kind
    case TypeBool => BooleanFieldHandler
    case TypeDouble => DoubleFieldHandler
    case TypeInt64 => Int64FieldHandler
    case TypeString => StringFieldHandler
  }
}
