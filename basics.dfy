/** Foundation and library types the order builder uses, kept abstract:
    identifiers, points in time, durations, the dynamic values of a build
    request and the buildable-type tag. */
module Basics {

  /** A UUID; only equality matters to the core. */
  type Uuid = nat

  /** A point in time, as seconds since a fixed reference date. */
  type Date = real

  /** A duration in seconds. */
  type TimeInterval = real

  /** A dynamically typed value, as carried by the freeform object of a
      build request. */
  datatype AnyValue =
    | NullValue
    | BoolValue(b: bool)
    | NumberValue(n: real)
    | StringValue(s: string)
    | ArrayValue(items: seq<AnyValue>)
    | ObjectValue(fields: map<string, AnyValue>)

  /** The kind of entity a build request asks for; its cases are not part of
      this model, so it is an opaque tag. */
  datatype BuildableType = BuildableType(tag: string)
}
