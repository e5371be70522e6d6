/**
 * The part of the protobuf runtime's `DescriptorProto` the core touches: a message name and
 * the repeated `field` list, to which `field.add(name=, number=, type=)` appends one entry.
 */
module Descriptor {

  /** The `FieldDescriptorProto.Type` values the handlers use. */
  datatype FieldKind = TypeBool | TypeDouble | TypeInt64 | TypeString

  /** One `FieldDescriptorProto`: name, number and type. */
  datatype FieldSpec = FieldSpec(name: string, number: int, kind: FieldKind)

  class DescriptorProto {
    var name: string
    var field: seq<FieldSpec>

    /** `descriptor_pb2.DescriptorProto()`: no name and no fields. */
    constructor ()
      ensures name == "" && field == []
    {
      name := "";
      field := [];
    }

    /** `field.add(name=..., number=..., type=...)`: append one spec at the end. */
    method AddField(fieldName: string, number: int, kind: FieldKind)
      modifies this
      ensures field == old(field) + [FieldSpec(fieldName, number, kind)]
      ensures name == old(name)
    {
      field := field + [FieldSpec(fieldName, number, kind)];
    }
  }
}
