/**
 The two data formats a signal description travels in: the openDAQ data descriptor
 and the metadata record of the WebSocket Streaming Protocol.
 */
module Descriptors {
  import opened Wrappers

  datatype SampleType =
    | Undefined
    | Float32 | Float64
    | Int8 | Int16 | Int32 | Int64
    | UInt8 | UInt16 | UInt32 | UInt64
    | RangeInt64 | ComplexFloat32 | ComplexFloat64 | Binary | Text
    | Struct
    | Absent

  /** A linear rule may come without a parameter dictionary, or with parameters missing from it. */
  datatype LinearParams = LinearParams(start: Option<int>, delta: Option<int>)

  datatype DataRule =
    | ExplicitRule
    | ConstantRule
    | LinearRule(params: Option<LinearParams>)
    | OtherRule

  datatype DimensionRule = LinearDimension(start: int, delta: int, size: int) | OtherDimension

  datatype Dimension = Dimension(name: string, rule: Option<DimensionRule>)

  datatype Unit = Unit(symbol: string, id: int, name: string, quantity: string)

  datatype Descriptor = Descriptor(
    name: string,
    sampleType: SampleType,
    fields: Option<seq<Descriptor>>,
    dimensions: Option<seq<Dimension>>,
    origin: Option<string>,
    tickResolution: Option<(int, int)>,
    valueRange: Option<(real, real)>,
    unit: Option<Unit>,
    rule: Option<DataRule>)
  {
    /** Does the descriptor say that its values are computed instead of transmitted? */
    predicate IsLinear() {
      rule.Some? && rule.value.LinearRule?
    }
  }

  /** The protocol's names of data types; a peer may send others, or none. */
  datatype TypeName =
    | NoType
    | Real32T | Real64T
    | Int8T | Int16T | Int32T | Int64T
    | UInt8T | UInt16T | UInt32T | UInt64T
    | StructT
    | OtherT(name: string)

  /** The protocol's names of rules; a peer may send others, or none. */
  datatype RuleName = NoRule | ExplicitR | LinearR | ConstantR | OtherR(name: string)

  datatype WireDimension = WireDimension(name: string, rule: RuleName, start: Option<int>, delta: Option<int>, size: Option<int>)

  datatype WireField = WireField(name: string, dataType: TypeName, dimensions: seq<WireDimension>)

  datatype WireUnit = WireUnit(id: int, name: string, quantity: string, symbol: string)

  datatype WireMetadata = WireMetadata(
    name: string,
    dataType: TypeName,
    fields: seq<WireField>,
    origin: string,
    tickResolution: Option<(int, int)>,
    range: Option<(real, real)>,
    unit: Option<WireUnit>,
    tableId: string,
    rule: RuleName,
    start: Option<int>,
    delta: Option<int>)
}
