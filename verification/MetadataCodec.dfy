/**
 Translation between openDAQ data descriptors and the metadata of the WebSocket Streaming
 Protocol: the server encodes, the client decodes.
 */
module MetadataCodec {
  import opened Wrappers
  import opened Descriptors

  // ----- the server's side ---------------------------------------------------------------

  /** The protocol's name of a sample type, if the protocol can express it. */
  function DataTypeName(t: SampleType): TypeName
  {
    match t
    case Float32 => Real32T
    case Float64 => Real64T
    case Int8 => Int8T
    case Int16 => Int16T
    case Int32 => Int32T
    case Int64 => Int64T
    case UInt8 => UInt8T
    case UInt16 => UInt16T
    case UInt32 => UInt32T
    case UInt64 => UInt64T
    case Struct => StructT
    case _ => NoType
  }

  /** Every dimension gets the rule passed for it, which is the one of the field's first dimension. */
  function EncodeDimension(name: string, rule: Option<DimensionRule>): WireDimension
  {
    if rule.Some? && rule.value.LinearDimension? then
      WireDimension(name, LinearR, Some(rule.value.start), Some(rule.value.delta), Some(rule.value.size))
    else
      WireDimension(name, NoRule, None, None, None)
  }

  function EncodeDimensions(dims: seq<Dimension>): seq<WireDimension>
  {
    seq(|dims|, i requires 0 <= i < |dims| => EncodeDimension(dims[i].name, dims[0].rule))
  }

  function EncodeField(field: Descriptor): WireField
  {
    WireField(field.name, DataTypeName(field.sampleType), if field.dimensions.Some? then EncodeDimensions(field.dimensions.value) else [])
  }

  function EncodeFields(fields: seq<Descriptor>): seq<WireField>
  {
    seq(|fields|, i requires 0 <= i < |fields| => EncodeField(fields[i]))
  }

  function EncodeUnit(unit: Unit): WireUnit
  {
    WireUnit(unit.id, unit.name, unit.quantity, unit.symbol)
  }

  function OrElse(x: Option<int>, default: int): int
  {
    if x.Some? then x.value else default
  }

  /** A linear rule starts at 0 and advances by 1 unless its parameters say otherwise. */
  function EncodeLinear(params: Option<LinearParams>): (int, int)
  {
    if params.None? then (0, 1) else (OrElse(params.value.start, 0), OrElse(params.value.delta, 1))
  }

  /** The metadata of a signal; its table is that of its domain signal, or its own. */
  function Encode(d: Descriptor, signalId: string, domainSignalId: string): WireMetadata
  {
    var linear := d.IsLinear();
    var (start, delta) := if linear then EncodeLinear(d.rule.value.params) else (0, 0);
    WireMetadata(
      d.name,
      DataTypeName(d.sampleType),
      if d.fields.Some? then EncodeFields(d.fields.value) else [],
      if d.origin.Some? then d.origin.value else "",
      d.tickResolution,
      d.valueRange,
      if d.unit.Some? then Some(EncodeUnit(d.unit.value)) else None,
      if domainSignalId != "" then domainSignalId else signalId,
      if linear then LinearR else if d.rule == Some(ConstantRule) then ConstantR else ExplicitR,
      if linear then Some(start) else None,
      if linear then Some(delta) else None)
  }

  /** The encoder as the server runs it, driving a builder field by field. */
  method DescriptorToMetadata(d: Descriptor, signalId: string, domainSignalId: string) returns (w: WireMetadata)
    ensures w == Encode(d, signalId, domainSignalId)
  {
    w := WireMetadata(d.name, NoType, [], "", None, None, None, "", ExplicitR, None, None);
    var dataType := DataTypeName(d.sampleType);
    if dataType != NoType {
      w := w.(dataType := dataType);
    }
    if d.fields.Some? {
      var fields := FieldsToMetadata(d.fields.value);
      w := w.(fields := fields);
    }
    if d.origin.Some? {
      w := w.(origin := d.origin.value);
    }
    if d.tickResolution.Some? {
      w := w.(tickResolution := d.tickResolution);
    }
    if d.valueRange.Some? {
      w := w.(range := d.valueRange);
    }
    if d.unit.Some? {
      w := w.(unit := Some(EncodeUnit(d.unit.value)));
    }
    w := w.(tableId := if domainSignalId != "" then domainSignalId else signalId);
    w := AddRule(d, w);
  }

  /** Adds the rule; a descriptor without one, or with the explicit one, leaves what the builder starts with. */
  method AddRule(d: Descriptor, bare: WireMetadata) returns (w: WireMetadata)
    requires bare.rule == ExplicitR && bare.start.None? && bare.delta.None?
    ensures
      var encoded := Encode(d, "", "");
      w == bare.(rule := encoded.rule, start := encoded.start, delta := encoded.delta)
  {
    w := bare;
    if d.rule.Some? {
      if d.rule.value.LinearRule? {
        var start, delta := LinearParameters(d.rule.value.params);
        w := w.(rule := LinearR, start := Some(start), delta := Some(delta));
      } else if d.rule.value.ConstantRule? {
        w := w.(rule := ConstantR);
      }
    }
  }

  method LinearParameters(params: Option<LinearParams>) returns (start: int, delta: int)
    ensures (start, delta) == EncodeLinear(params)
  {
    start, delta := 0, 1;
    if params.Some? {
      if params.value.start.Some? {
        start := params.value.start.value;
      }
      if params.value.delta.Some? {
        delta := params.value.delta.value;
      }
    }
  }

  method FieldsToMetadata(fields: seq<Descriptor>) returns (ws: seq<WireField>)
    ensures ws == EncodeFields(fields)
  {
    ws := [];
    for i := 0 to |fields|
      invariant ws == EncodeFields(fields)[..i]
    {
      var field := FieldToMetadata(fields[i]);
      assert EncodeFields(fields)[..i + 1] == EncodeFields(fields)[..i] + [field];
      ws := ws + [field];
    }
    assert ws == EncodeFields(fields);
  }

  method FieldToMetadata(field: Descriptor) returns (w: WireField)
    ensures w == EncodeField(field)
  {
    w := WireField(field.name, DataTypeName(field.sampleType), []);
    if field.dimensions.Some? {
      var dims := field.dimensions.value;
      for i := 0 to |dims|
        invariant w == WireField(field.name, DataTypeName(field.sampleType), EncodeDimensions(dims)[..i])
      {
        var dim := WireDimension(dims[i].name, NoRule, None, None, None);
        var rule := dims[0].rule;
        if rule.Some? && rule.value.LinearDimension? {
          dim := dim.(rule := LinearR, start := Some(rule.value.start), delta := Some(rule.value.delta), size := Some(rule.value.size));
        }
        assert EncodeDimensions(dims)[..i + 1] == EncodeDimensions(dims)[..i] + [dim];
        w := w.(dimensions := w.dimensions + [dim]);
      }
      assert w.dimensions == EncodeDimensions(dims);
    }
  }

  // ----- the client's side ---------------------------------------------------------------

  function SampleTypeNamed(name: TypeName): SampleType
  {
    match name
    case Real32T => Float32
    case Real64T => Float64
    case Int8T => Int8
    case Int16T => Int16
    case Int32T => Int32
    case Int64T => Int64
    case UInt8T => UInt8
    case UInt16T => UInt16
    case UInt32T => UInt32
    case UInt64T => UInt64
    case StructT => Struct
    case _ => Undefined
  }

  function DecodeDimension(w: WireDimension): Dimension
  {
    Dimension(w.name,
              if w.rule == LinearR then Some(LinearDimension(OrElse(w.start, 0), OrElse(w.delta, 0), OrElse(w.size, 0))) else None)
  }

  function DecodeDimensions(dims: seq<WireDimension>): seq<Dimension>
  {
    seq(|dims|, i requires 0 <= i < |dims| => DecodeDimension(dims[i]))
  }

  function DecodeField(w: WireField): Descriptor
  {
    Descriptor(w.name, SampleTypeNamed(w.dataType), None, Some(DecodeDimensions(w.dimensions)), None, None, None, None, Some(ExplicitRule))
  }

  function DecodeFields(fields: seq<WireField>): seq<Descriptor>
  {
    seq(|fields|, i requires 0 <= i < |fields| => DecodeField(fields[i]))
  }

  function DecodeUnit(w: WireUnit): Unit
  {
    Unit(w.symbol, w.id, w.name, w.quantity)
  }

  function DecodeRule(w: WireMetadata): DataRule
  {
    if w.rule == LinearR then LinearRule(Some(LinearParams(Some(OrElse(w.start, 0)), Some(OrElse(w.delta, 0)))))
    else if w.rule == ConstantR then ConstantRule
    else ExplicitRule
  }

  /** A descriptor built without a rule is explicit, and without dimensions it has none. */
  function Decode(w: WireMetadata): Descriptor
  {
    var sampleType := SampleTypeNamed(w.dataType);
    Descriptor(
      w.name,
      sampleType,
      if sampleType == Struct then Some(DecodeFields(w.fields)) else None,
      Some([]),
      if w.origin != "" then Some(w.origin) else None,
      w.tickResolution,
      w.range,
      if w.unit.Some? then Some(DecodeUnit(w.unit.value)) else None,
      Some(DecodeRule(w)))
  }

  /** The decoder as the client runs it. */
  method MetadataToDescriptor(w: WireMetadata) returns (d: Descriptor)
    ensures d == Decode(w)
  {
    d := Descriptor(w.name, SampleTypeNamed(w.dataType), None, Some([]), None, None, None, None, Some(ExplicitRule));
    if w.origin != "" {
      d := d.(origin := Some(w.origin));
    }
    if w.tickResolution.Some? {
      d := d.(tickResolution := w.tickResolution);
    }
    if w.range.Some? {
      d := d.(valueRange := w.range);
    }
    if w.unit.Some? {
      d := d.(unit := Some(DecodeUnit(w.unit.value)));
    }
    if w.rule == LinearR {
      d := d.(rule := Some(LinearRule(Some(LinearParams(Some(OrElse(w.start, 0)), Some(OrElse(w.delta, 0)))))));
    } else if w.rule == ConstantR {
      d := d.(rule := Some(ConstantRule));
    }
    if d.sampleType == Struct {
      var fields := MetadataToFields(w.fields);
      d := d.(fields := Some(fields));
    }
  }

  method MetadataToFields(ws: seq<WireField>) returns (fields: seq<Descriptor>)
    ensures fields == DecodeFields(ws)
  {
    fields := [];
    for i := 0 to |ws|
      invariant fields == DecodeFields(ws)[..i]
    {
      var field := MetadataToField(ws[i]);
      assert DecodeFields(ws)[..i + 1] == DecodeFields(ws)[..i] + [field];
      fields := fields + [field];
    }
    assert fields == DecodeFields(ws);
  }

  method MetadataToField(w: WireField) returns (d: Descriptor)
    ensures d == DecodeField(w)
  {
    var dimensions := [];
    for i := 0 to |w.dimensions|
      invariant dimensions == DecodeDimensions(w.dimensions)[..i]
    {
      var dim := w.dimensions[i];
      var dimension := Dimension(dim.name, None);
      if dim.rule == LinearR {
        dimension := dimension.(rule := Some(LinearDimension(OrElse(dim.start, 0), OrElse(dim.delta, 0), OrElse(dim.size, 0))));
      }
      assert DecodeDimensions(w.dimensions)[..i + 1] == DecodeDimensions(w.dimensions)[..i] + [dimension];
      dimensions := dimensions + [dimension];
    }
    assert dimensions == DecodeDimensions(w.dimensions);
    d := Descriptor(w.name, SampleTypeNamed(w.dataType), None, Some(dimensions), None, None, None, None, Some(ExplicitRule));
  }

  // ----- what survives the journey -------------------------------------------------------

  predicate Named(t: SampleType)
  {
    t in {Undefined, Float32, Float64, Int8, Int16, Int32, Int64, UInt8, UInt16, UInt32, UInt64, Struct}
  }

  lemma NameRoundTrip(t: SampleType)
    ensures SampleTypeNamed(DataTypeName(t)) == (if Named(t) then t else Undefined)
  {
  }

  /** All dimensions share one rule, and it is linear or missing. */
  predicate UniformDimensions(dims: seq<Dimension>)
  {
    forall i :: 0 <= i < |dims| ==> dims[i].rule == dims[0].rule && (dims[i].rule.None? || dims[i].rule.value.LinearDimension?)
  }

  /** A struct field carries a name, a type and dimensions, and is explicit. */
  predicate RepresentableField(d: Descriptor)
  {
    && Named(d.sampleType)
    && d.fields.None?
    && d.dimensions.Some? && UniformDimensions(d.dimensions.value)
    && d.origin.None? && d.tickResolution.None? && d.valueRange.None? && d.unit.None?
    && d.rule == Some(ExplicitRule)
  }

  /** An explicit or constant rule, or a linear one with both parameters. */
  predicate RepresentableRule(rule: Option<DataRule>)
  {
    && rule.Some?
    && (rule.value.LinearRule? ==> rule.value.params.Some? && rule.value.params.value.start.Some? && rule.value.params.value.delta.Some?)
    && !rule.value.OtherRule?
  }

  /** The descriptors the protocol can express. */
  predicate Representable(d: Descriptor)
  {
    && Named(d.sampleType)
    && d.fields.Some? == d.sampleType.Struct?
    && (d.fields.Some? ==> forall i :: 0 <= i < |d.fields.value| ==> RepresentableField(d.fields.value[i]))
    && d.dimensions == Some([])
    && d.origin != Some("")
    && RepresentableRule(d.rule)
  }

  lemma DimensionRoundTrip(name: string, rule: Option<DimensionRule>)
    ensures
      DecodeDimension(EncodeDimension(name, rule)) ==
      Dimension(name, if rule.Some? && rule.value.LinearDimension? then rule else None)
  {
  }

  lemma DimensionsRoundTrip(dims: seq<Dimension>)
    ensures DecodeDimensions(EncodeDimensions(dims)) == dims <==> UniformDimensions(dims)
    ensures UniformDimensions(DecodeDimensions(EncodeDimensions(dims)))
  {
    var back := DecodeDimensions(EncodeDimensions(dims));
    forall i | 0 <= i < |dims|
      ensures back[i].name == dims[i].name
      ensures back[i].rule == if dims[0].rule.Some? && dims[0].rule.value.LinearDimension? then dims[0].rule else None
    {
      DimensionRoundTrip(dims[i].name, dims[0].rule);
    }
    if UniformDimensions(dims) {
      assert back == dims;
    } else if back == dims {
      assert dims[0] == back[0];
      assert UniformDimensions(back);
    }
  }

  lemma FieldRoundTrip(d: Descriptor)
    ensures DecodeField(EncodeField(d)) == d <==> RepresentableField(d)
    ensures RepresentableField(DecodeField(EncodeField(d)))
  {
    NameRoundTrip(d.sampleType);
    if d.dimensions.Some? {
      DimensionsRoundTrip(d.dimensions.value);
    }
  }

  lemma FieldsRoundTrip(fields: seq<Descriptor>)
    ensures DecodeFields(EncodeFields(fields)) == fields <==> forall i :: 0 <= i < |fields| ==> RepresentableField(fields[i])
    ensures forall i :: 0 <= i < |fields| ==> RepresentableField(DecodeFields(EncodeFields(fields))[i])
  {
    var back := DecodeFields(EncodeFields(fields));
    forall i | 0 <= i < |fields|
      ensures back[i] == fields[i] <==> RepresentableField(fields[i])
      ensures RepresentableField(back[i])
    {
      FieldRoundTrip(fields[i]);
    }
    if forall i :: 0 <= i < |fields| ==> RepresentableField(fields[i]) {
      assert back == fields;
    }
  }

  lemma RuleRoundTrip(d: Descriptor, signalId: string, domainSignalId: string)
    ensures Some(DecodeRule(Encode(d, signalId, domainSignalId))) == d.rule <==> RepresentableRule(d.rule)
    ensures RepresentableRule(Some(DecodeRule(Encode(d, signalId, domainSignalId))))
  {
  }

  /** What the client decodes is what the server encoded exactly for the descriptors the protocol can express. */
  lemma RoundTripExactlyRepresentable(d: Descriptor, signalId: string, domainSignalId: string)
    ensures Decode(Encode(d, signalId, domainSignalId)) == d <==> Representable(d)
  {
    NameRoundTrip(d.sampleType);
    RuleRoundTrip(d, signalId, domainSignalId);
    if d.fields.Some? {
      FieldsRoundTrip(d.fields.value);
    }
  }

  /** What the client decodes can always be expressed, so one journey loses all that will ever be lost. */
  lemma JourneyIsProjection(d: Descriptor, signalId: string, domainSignalId: string, nextId: string, nextDomainId: string)
    ensures
      var once := Decode(Encode(d, signalId, domainSignalId));
      Representable(once) && Decode(Encode(once, nextId, nextDomainId)) == once
  {
    var once := Decode(Encode(d, signalId, domainSignalId));
    NameRoundTrip(d.sampleType);
    RuleRoundTrip(d, signalId, domainSignalId);
    FieldsRoundTrip(if d.fields.Some? then d.fields.value else []);
    assert once.fields.Some? ==> once.fields.value == DecodeFields(EncodeFields(if d.fields.Some? then d.fields.value else []));
    RoundTripExactlyRepresentable(once, nextId, nextDomainId);
  }

  // ----- what the metadata says ----------------------------------------------------------
  // Both translations are held to the meaning of the members, so that they cannot agree on a wrong one.

  /** The numbers a type stands for. */
  datatype Numbers = Floating(bits: nat) | Signed(bits: nat) | Unsigned(bits: nat) | NotNumbers

  function SampleNumbers(t: SampleType): Numbers
  {
    match t
    case Float32 => Floating(32) case Float64 => Floating(64)
    case Int8 => Signed(8) case Int16 => Signed(16) case Int32 => Signed(32) case Int64 => Signed(64)
    case UInt8 => Unsigned(8) case UInt16 => Unsigned(16) case UInt32 => Unsigned(32) case UInt64 => Unsigned(64)
    case _ => NotNumbers
  }

  function WireNumbers(n: TypeName): Numbers
  {
    match n
    case Real32T => Floating(32) case Real64T => Floating(64)
    case Int8T => Signed(8) case Int16T => Signed(16) case Int32T => Signed(32) case Int64T => Signed(64)
    case UInt8T => Unsigned(8) case UInt16T => Unsigned(16) case UInt32T => Unsigned(32) case UInt64T => Unsigned(64)
    case _ => NotNumbers
  }

  /** A type travels under the name for the same numbers, and a name is read as the type for them; unknown names mean nothing. */
  lemma SameNumbers(t: SampleType, n: TypeName)
    ensures WireNumbers(DataTypeName(t)) == SampleNumbers(t) && (DataTypeName(t) == StructT <==> t == Struct)
    ensures SampleNumbers(SampleTypeNamed(n)) == WireNumbers(n) && (SampleTypeNamed(n) == Struct <==> n == StructT)
    ensures SampleTypeNamed(n) == Undefined <==> n.NoType? || n.OtherT?
  {
  }

  /** The value of a linear rule at index `k`. */
  function LinearAt(start: int, delta: int, k: int): int
  {
    start + k * delta
  }

  /** The same with parameters missing: from 0 in steps of 1 in a descriptor, in steps of 0 in metadata. */
  function RuleAt(params: Option<LinearParams>, k: int): int
  {
    if params.None? then k
    else LinearAt(if params.value.start.Some? then params.value.start.value else 0,
                  if params.value.delta.Some? then params.value.delta.value else 1, k)
  }

  function WireAt(w: WireMetadata, k: int): int
  {
    LinearAt(if w.start.Some? then w.start.value else 0, if w.delta.Some? then w.delta.value else 0, k)
  }

  /** A linear rule has the same values on both sides, in both directions. */
  lemma SameLinearValues(d: Descriptor, w: WireMetadata, signalId: string, domainSignalId: string, k: int)
    ensures
      var encoded := Encode(d, signalId, domainSignalId);
      && (encoded.rule == LinearR <==> d.IsLinear())
      && (d.IsLinear() ==> encoded.start.Some? && encoded.delta.Some? && WireAt(encoded, k) == RuleAt(d.rule.value.params, k))
    ensures Decode(w).IsLinear() <==> w.rule == LinearR
    ensures w.rule == LinearR ==> RuleAt(Decode(w).rule.value.params, k) == WireAt(w, k)
  {
    assert RuleAt(None, k) == LinearAt(0, 1, k);
  }

  predicate SameUnit(unit: Option<Unit>, w: Option<WireUnit>)
  {
    && unit.Some? == w.Some?
    && (unit.Some? ==>
          && w.value.id == unit.value.id && w.value.name == unit.value.name
          && w.value.quantity == unit.value.quantity && w.value.symbol == unit.value.symbol)
  }

  /** Metadata and descriptor agree member by member; an origin without text is none, and a field's fields do not travel. */
  predicate SameMembers(d: Descriptor, w: WireMetadata)
  {
    && w.name == d.name
    && w.origin == (if d.origin.Some? then d.origin.value else "")
    && w.tickResolution == d.tickResolution && w.range == d.valueRange && SameUnit(d.unit, w.unit)
    && (d.rule == Some(ConstantRule) <==> w.rule == ConstantR)
  }

  predicate SameField(field: Descriptor, w: WireField)
  {
    && w.name == field.name && w.dataType == DataTypeName(field.sampleType)
    && |w.dimensions| == (if field.dimensions.Some? then |field.dimensions.value| else 0)
    && forall j :: 0 <= j < |w.dimensions| ==> w.dimensions[j].name == field.dimensions.value[j].name
  }

  /** What is encoded says what the descriptor says, under the table of the domain signal or the signal's own. */
  lemma EncodedSaysSame(d: Descriptor, signalId: string, domainSignalId: string)
    ensures
      var w := Encode(d, signalId, domainSignalId);
      && SameMembers(d, w)
      && w.tableId == (if domainSignalId == "" then signalId else domainSignalId)
      && |w.fields| == (if d.fields.Some? then |d.fields.value| else 0)
      && forall i :: 0 <= i < |w.fields| ==> SameField(d.fields.value[i], w.fields[i])
  {
  }

  /** What is decoded says what the metadata says; fields count in a struct only. */
  lemma DecodedSaysSame(w: WireMetadata)
    ensures
      var d := Decode(w);
      && SameMembers(d, w) && d.origin != Some("")
      && (d.fields.Some? <==> w.dataType == StructT)
      && (d.fields.Some? ==> |d.fields.value| == |w.fields| && forall i :: 0 <= i < |w.fields| ==> DecodedField(d.fields.value[i], w.fields[i]))
  {
  }

  predicate DecodedField(field: Descriptor, w: WireField)
  {
    && field.name == w.name && field.sampleType == SampleTypeNamed(w.dataType)
    && field.dimensions.Some? && |field.dimensions.value| == |w.dimensions|
    && forall j :: 0 <= j < |w.dimensions| ==> DecodedDimension(field.dimensions.value[j], w.dimensions[j])
  }

  predicate DecodedDimension(dim: Dimension, w: WireDimension)
  {
    && dim.name == w.name
    && (dim.rule.Some? <==> w.rule == LinearR)
    && (dim.rule.Some? ==>
          dim.rule.value == LinearDimension(
            if w.start.Some? then w.start.value else 0, if w.delta.Some? then w.delta.value else 0, if w.size.Some? then w.size.value else 0))
  }

  // ----- metadata that survives the way there and back -----------------------------------

  /** Linear with all its parameters, or without a rule and parameters. */
  predicate PlainDimension(w: WireDimension)
  {
    if w.rule == LinearR then w.start.Some? && w.delta.Some? && w.size.Some?
    else w.rule == NoRule && w.start.None? && w.delta.None? && w.size.None?
  }

  predicate PlainField(w: WireField)
  {
    && !w.dataType.OtherT?
    && forall j :: 0 <= j < |w.dimensions| ==>
         PlainDimension(w.dimensions[j]) && w.dimensions[j] == w.dimensions[0].(name := w.dimensions[j].name)
  }

  predicate PlainRule(w: WireMetadata)
  {
    if w.rule == LinearR then w.start.Some? && w.delta.Some?
    else (w.rule == ConstantR || w.rule == ExplicitR) && w.start.None? && w.delta.None?
  }

  /** Metadata with nothing in it that openDAQ has no place for. */
  predicate PlainMetadata(w: WireMetadata, signalId: string, domainSignalId: string)
  {
    && !w.dataType.OtherT?
    && (if w.dataType == StructT then forall i :: 0 <= i < |w.fields| ==> PlainField(w.fields[i]) else w.fields == [])
    && w.tableId == (if domainSignalId == "" then signalId else domainSignalId)
    && PlainRule(w)
  }

  lemma FieldBack(w: WireField)
    ensures EncodeField(DecodeField(w)) == w <==> PlainField(w)
  {
    var back := EncodeField(DecodeField(w)).dimensions;
    assert |back| == |w.dimensions|;
    forall j | 0 <= j < |back|
      ensures back[j].name == w.dimensions[j].name && back[j] == back[0].(name := w.dimensions[j].name) && PlainDimension(back[j])
    {
    }
    if PlainField(w) {
      forall j | 0 <= j < |back|
        ensures back[j] == w.dimensions[j]
      {
        assert back[0] == w.dimensions[0];
      }
      assert back == w.dimensions;
    }
  }

  lemma FieldsBack(ws: seq<WireField>)
    ensures EncodeFields(DecodeFields(ws)) == ws <==> forall i :: 0 <= i < |ws| ==> PlainField(ws[i])
  {
    var back := EncodeFields(DecodeFields(ws));
    forall i | 0 <= i < |ws|
      ensures back[i] == ws[i] <==> PlainField(ws[i])
    {
      FieldBack(ws[i]);
    }
    if forall i :: 0 <= i < |ws| ==> PlainField(ws[i]) {
      assert back == ws;
    }
  }

  /** Metadata that is decoded and encoded again for the same signal is the same exactly if it is plain. */
  lemma MetadataBackExactlyPlain(w: WireMetadata, signalId: string, domainSignalId: string)
    ensures Encode(Decode(w), signalId, domainSignalId) == w <==> PlainMetadata(w, signalId, domainSignalId)
  {
    hide EncodeFields, DecodeFields, PlainField;
    FieldsBack(w.fields);
  }
}
