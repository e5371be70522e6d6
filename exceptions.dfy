/**
 * The exception hierarchy of protobuf_schema_builder/exceptions.py as one datatype:
 * every variant of BuildError is a ProtobufMessageBuilderError.
 */
module Exceptions {

  /** Why a schema was rejected by the validator (always raised as SchemaValidationError). */
  datatype ValidationFailure =
    | EmptySchema
    | MissingType(field: string)
    | UnsupportedType(field: string, fieldType: string)

  /** What went wrong inside `add_field` before it was wrapped as FieldCreationError. */
  datatype FieldFailure =
    | MissingTypeKey            // `field_def["type"]` raised KeyError
    | NoHandler(fieldType: string)  // `field_handlers.get` gave None, calling it raised AttributeError

  datatype BuildError =
    | SchemaValidationError(reason: ValidationFailure)
    | FieldCreationError(field: string, cause: FieldFailure)
    | MessageBuildError(message: string)
}
