/**
 * The experimental operators: the shape inference of the two fill operators
 * (ConstantFill and GivenTensorFill) and the registrations of the twelve
 * experimental schemas.
 */
module Experiments {

  import opened Wrappers
  import opened TensorTypes
  import opened Attributes
  import opened InferenceContexts
  import opened Schemas

  // ---------------------------------------------------------------------
  // Fill shape inference

  predicate AllNonNegative(values: seq<int>)
  {
    forall k :: 0 <= k < |values| ==> values[k] >= 0
  }

  /**
   * The input shape with each extra entry appended as a concrete trailing
   * dimension, or `None` when an entry is negative.
   */
  function ExtendedShape(dims: seq<Dim>, extra: seq<int>): Option<seq<Dim>>
  {
    if AllNonNegative(extra) then Some(dims + DimsOf(extra)) else None
  }

  /**
   * The shape the fill operators leave in output 0, given the shape `prior`
   * that slot had before: the `shape` attribute wins; a non-zero
   * `input_as_shape` leaves `prior`; otherwise input 0's shape extended by
   * `extra_shape`, or `prior` when input 0's rank is unknown or an extra
   * entry is negative.
   */
  function FillShape(attrs: Attributes, inputs: Inputs, prior: Shape): Shape
  {
    if "shape" in attrs then Some(ShapeFromAttribute(attrs, "shape"))
    else if GetIntAttribute(attrs, "input_as_shape", 0) != 0 then prior
    else if !HasInputShape(inputs, 0) then prior
    else match ExtendedShape(InputShape(inputs, 0).value, GetRepeatedInts(attrs, "extra_shape"))
      case None => prior
      case Some(dims) => Some(dims)
  }

  /** Output 0 after ConstantFill's inference. */
  function ConstantFillOutput(attrs: Attributes, inputs: Inputs, slot: TypeShape): TypeShape
  {
    TypeShape(ElemTypeFromAttribute(attrs, "dtype", Float), FillShape(attrs, inputs, slot.shape))
  }

  /** Output 0 after GivenTensorFill's inference. */
  function GivenTensorFillOutput(attrs: Attributes, inputs: Inputs, slot: TypeShape): TypeShape
  {
    TypeShape(WithElemTypeFromInput(inputs, 0, slot).elemType, FillShape(attrs, inputs, slot.shape))
  }

  /**
   * The loop over `extra_shape`: appends each entry to a local copy of the
   * input dimensions, giving up at the first negative entry.
   */
  method AppendExtraDims(inputDims: seq<Dim>, extra: seq<int>) returns (shape: Option<seq<Dim>>)
    ensures shape == ExtendedShape(inputDims, extra)
  {
    var dims := inputDims;
    for i := 0 to |extra|
      invariant dims == inputDims + DimsOf(extra[..i])
      invariant AllNonNegative(extra[..i])
    {
      if extra[i] < 0 {
        return None;
      }
      DimsOfAppend(extra[..i], extra[i]);
      assert extra[..i + 1] == extra[..i] + [extra[i]];
      dims := dims + [Known(extra[i])];
    }
    assert extra[..|extra|] == extra;
    return Some(dims);
  }

  /** The part of both fill lambdas after the element type is set. */
  method InferFillShape(ctx: InferenceContext)
    requires 1 <= ctx.outputs.Length
    modifies ctx.outputs
    ensures ctx.outputs[..] ==
      old(ctx.outputs[..])[0 := old(ctx.outputs[0]).(shape := FillShape(ctx.attributes, ctx.inputs, old(ctx.outputs[0]).shape))]
  {
    if "shape" in ctx.attributes {
      ctx.PropagateShapeFromAttributeToOutput("shape", 0);
      return;
    }
    if GetIntAttribute(ctx.attributes, "input_as_shape", 0) != 0 {
      // dynamic shape
      return;
    }
    var extraShape := GetRepeatedInts(ctx.attributes, "extra_shape");
    if HasInputShape(ctx.inputs, 0) {
      var shape := AppendExtraDims(InputShape(ctx.inputs, 0).value, extraShape);
      if shape.None? {
        return;
      }
      ctx.UpdateOutputShape(0, shape.value);
    }
  }

  /** The ConstantFill inference function. */
  method ConstantFillInference(ctx: InferenceContext)
    requires 1 <= ctx.outputs.Length
    modifies ctx.outputs
    ensures ctx.outputs[..] == old(ctx.outputs[..])[0 := ConstantFillOutput(ctx.attributes, ctx.inputs, old(ctx.outputs[0]))]
  {
    ctx.PropagateElemTypeFromAttributeToOutput("dtype", 0, Float);
    InferFillShape(ctx);
  }

  /** The GivenTensorFill inference function. */
  method GivenTensorFillInference(ctx: InferenceContext)
    requires 1 <= ctx.outputs.Length
    modifies ctx.outputs
    ensures ctx.outputs[..] == old(ctx.outputs[..])[0 := GivenTensorFillOutput(ctx.attributes, ctx.inputs, old(ctx.outputs[0]))]
  {
    ctx.PropagateElemTypeFromInputToOutput(0, 0);
    InferFillShape(ctx);
  }

  // ---------------------------------------------------------------------
  // Properties of fill inference

  /** The extended shape is the input dimensions followed by one concrete dimension per extra entry. */
  lemma ExtendedShapeMeaning(dims: seq<Dim>, extra: seq<int>)
    ensures ExtendedShape(dims, extra).None? <==> exists k :: 0 <= k < |extra| && extra[k] < 0
    ensures ExtendedShape(dims, extra).Some? ==>
      var r := ExtendedShape(dims, extra).value;
      && |r| == |dims| + |extra|
      && r[..|dims|] == dims
      && forall k :: 0 <= k < |extra| ==> r[|dims| + k] == Known(extra[k])
  {
  }

  /** A `shape` attribute decides the output shape alone: inputs, other attributes and the prior shape do not matter. */
  lemma FillShapeAttributeWins(attrs: Attributes, inputs: Inputs, prior: Shape,
                               attrs': Attributes, inputs': Inputs, prior': Shape)
    requires "shape" in attrs && "shape" in attrs' && attrs["shape"] == attrs'["shape"]
    ensures FillShape(attrs, inputs, prior) == Some(ShapeFromAttribute(attrs, "shape"))
    ensures FillShape(attrs, inputs, prior) == FillShape(attrs', inputs', prior')
  {
  }

  /** A list-valued `shape` attribute becomes the output's dimensions verbatim. */
  lemma FillShapeFromAttributeList(attrs: Attributes, inputs: Inputs, prior: Shape, values: seq<int>)
    requires "shape" in attrs && attrs["shape"] == IntsValue(values)
    ensures FillShape(attrs, inputs, prior).Some?
    ensures |FillShape(attrs, inputs, prior).value| == |values|
    ensures forall k :: 0 <= k < |values| ==> FillShape(attrs, inputs, prior).value[k] == Known(values[k])
  {
  }

  /** Without `shape`, a non-zero `input_as_shape` leaves the output shape as it was. */
  lemma FillShapeDynamicBailOut(attrs: Attributes, inputs: Inputs, prior: Shape)
    requires "shape" !in attrs && GetIntAttribute(attrs, "input_as_shape", 0) != 0
    ensures FillShape(attrs, inputs, prior) == prior
  {
  }

  /** An absent `input_as_shape` behaves as `input_as_shape` = 0. */
  lemma AbsentInputAsShapeIsZero(attrs: Attributes, inputs: Inputs, prior: Shape)
    ensures FillShape(attrs - {"input_as_shape"}, inputs, prior) ==
            FillShape(attrs["input_as_shape" := IntValue(0)], inputs, prior)
  {
  }

  /** The extension path: input 0's dimensions, in order, followed by the extra entries as concrete dimensions. */
  lemma FillShapeExtends(attrs: Attributes, inputs: Inputs, prior: Shape)
    requires "shape" !in attrs && GetIntAttribute(attrs, "input_as_shape", 0) == 0
    requires HasInputShape(inputs, 0)
    requires AllNonNegative(GetRepeatedInts(attrs, "extra_shape"))
    ensures var dims := InputShape(inputs, 0).value;
            var extra := GetRepeatedInts(attrs, "extra_shape");
            var r := FillShape(attrs, inputs, prior);
            && r.Some?
            && |r.value| == |dims| + |extra|
            && r.value[..|dims|] == dims
            && forall k :: 0 <= k < |extra| ==> r.value[|dims| + k] == Known(extra[k])
  {
    ExtendedShapeMeaning(InputShape(inputs, 0).value, GetRepeatedInts(attrs, "extra_shape"));
  }

  /** A negative extra entry leaves the output shape as it was: nothing is written, not even a prefix. */
  lemma FillShapeNegativeExtra(attrs: Attributes, inputs: Inputs, prior: Shape, k: nat)
    requires "shape" !in attrs
    requires k < |GetRepeatedInts(attrs, "extra_shape")| && GetRepeatedInts(attrs, "extra_shape")[k] < 0
    ensures FillShape(attrs, inputs, prior) == prior
  {
  }

  /** Without `shape`, an input 0 of unknown rank (or no input 0) leaves the output shape as it was. */
  lemma FillShapeUnknownInput(attrs: Attributes, inputs: Inputs, prior: Shape)
    requires "shape" !in attrs && !HasInputShape(inputs, 0)
    ensures FillShape(attrs, inputs, prior) == prior
  {
  }

  /** Without `shape` and `extra_shape`, the output shape is input 0's. */
  lemma FillShapeNoExtra(attrs: Attributes, inputs: Inputs, prior: Shape)
    requires "shape" !in attrs && "extra_shape" !in attrs && GetIntAttribute(attrs, "input_as_shape", 0) == 0
    requires HasInputShape(inputs, 0)
    ensures FillShape(attrs, inputs, prior) == InputShape(inputs, 0)
  {
    assert GetRepeatedInts(attrs, "extra_shape") == [];
    assert InputShape(inputs, 0).value + DimsOf([]) == InputShape(inputs, 0).value;
  }

  /** Running the fill shape inference on its own result changes nothing. */
  lemma FillShapeIdempotent(attrs: Attributes, inputs: Inputs, prior: Shape)
    ensures FillShape(attrs, inputs, FillShape(attrs, inputs, prior)) == FillShape(attrs, inputs, prior)
  {
  }

  /**
   * ConstantFill's element type is the `dtype` code, FLOAT when `dtype` is
   * absent, on every shape path, including those that leave the shape alone.
   */
  lemma ConstantFillElemType(attrs: Attributes, inputs: Inputs, slot: TypeShape)
    ensures "dtype" !in attrs ==> ConstantFillOutput(attrs, inputs, slot).elemType == Float
    ensures forall c :: "dtype" in attrs && attrs["dtype"] == IntValue(c) ==>
      Code(ConstantFillOutput(attrs, inputs, slot).elemType) == c
    ensures ConstantFillOutput(attrs, inputs, slot).shape == FillShape(attrs, inputs, slot.shape)
  {
  }

  /**
   * GivenTensorFill's element type comes from input 0, not from an attribute,
   * and its shape follows the same paths as ConstantFill's.
   */
  lemma GivenTensorFillElemType(attrs: Attributes, inputs: Inputs, slot: TypeShape)
    ensures InputElemType(inputs, 0) != Undefined ==>
      GivenTensorFillOutput(attrs, inputs, slot).elemType == InputElemType(inputs, 0)
    ensures InputElemType(inputs, 0) == Undefined ==>
      GivenTensorFillOutput(attrs, inputs, slot).elemType == slot.elemType
    ensures GivenTensorFillOutput(attrs, inputs, slot).shape == ConstantFillOutput(attrs, inputs, slot).shape
  {
  }

  /** Input shape [2, 3] with `extra_shape` [5] gives [2, 3, 5]; with [-1] the shape stays unresolved. */
  lemma FillShapeExamples()
    ensures FillShape(map["extra_shape" := IntsValue([5])],
                      [Some(TypeShape(Float, Some([Known(2), Known(3)])))], None)
            == Some([Known(2), Known(3), Known(5)])
    ensures FillShape(map["extra_shape" := IntsValue([-1])],
                      [Some(TypeShape(Float, Some([Known(2), Known(3)])))], None)
            == None
    ensures FillShape(map["input_as_shape" := IntValue(1), "extra_shape" := IntsValue([5])],
                      [Some(TypeShape(Float, Some([Known(2), Known(3)])))], None)
            == None
  {
    assert DimsOf([5]) == [Known(5)];
    assert !AllNonNegative([-1]) by { assert [-1][0] < 0; }
    assert [Known(2), Known(3)] + [Known(5)] == [Known(2), Known(3), Known(5)];
  }

  // ---------------------------------------------------------------------
  // Registrations

  function Param(name: string, constraint: string, option: FormalOption := Single): FormalParameter
  {
    FormalParameter(name, ConstraintParam(constraint), option)
  }

  /**
   * The record of a shape-preserving operator: its attributes, one input and
   * one output over T = the float tensor types, and its inference function.
   */
  function UnaryFloatRecord(attributes: map<string, AttrSpec>, input: string, output: string,
                            inference: Option<InferenceFunction>): Schema
  {
    Schema("", "", 1, "", attributes, map[0 := Param(input, "T")], map[0 := Param(output, "T")],
           map["T" := FloatTypes], false, inference)
  }

  const AffineRecord := UnaryFloatRecord(
    map["alpha" := AttrSpec(FloatAttr, DefaultValue(FloatValue(1.0))),
        "beta" := AttrSpec(FloatAttr, DefaultValue(FloatValue(0.0)))],
    "X", "Y", Some(FirstInputPropagation))

  const ThresholdedReluRecord := UnaryFloatRecord(
    map["alpha" := AttrSpec(FloatAttr, DefaultValue(FloatValue(1.0)))],
    "X", "Y", Some(FirstInputPropagation))

  const ScaledTanhRecord := UnaryFloatRecord(
    map["alpha" := AttrSpec(FloatAttr, OptionalAttr), "beta" := AttrSpec(FloatAttr, OptionalAttr)],
    "input", "output", Some(FirstInputPropagation))

  const ParametricSoftplusRecord := UnaryFloatRecord(
    map["alpha" := AttrSpec(FloatAttr, OptionalAttr), "beta" := AttrSpec(FloatAttr, OptionalAttr)],
    "X", "Y", Some(FirstInputPropagation))

  /** The element types both ConstantFill constraints allow. */
  const FillTypes: set<ElemType> := {Float, Int32, Int64, Bool}

  const ConstantFillRecord := Schema("", "", 1, "",
    map["value" := AttrSpec(FloatAttr, DefaultValue(FloatValue(0.0))),
        "dtype" := AttrSpec(IntAttr, DefaultValue(IntValue(1))),
        "shape" := AttrSpec(IntsAttr, OptionalAttr),
        "extra_shape" := AttrSpec(IntsAttr, OptionalAttr),
        "input_as_shape" := AttrSpec(IntAttr, OptionalAttr)],
    map[0 := Param("input", "T1", Optional)],
    map[0 := Param("output", "T2")],
    map["T1" := FillTypes, "T2" := FillTypes],
    false, Some(ConstantFillShape))

  const GivenTensorFillRecord := Schema("", "", 1, "",
    map["values" := AttrSpec(FloatsAttr, OptionalAttr),
        "shape" := AttrSpec(IntsAttr, OptionalAttr),
        "input_as_shape" := AttrSpec(IntAttr, OptionalAttr),
        "extra_shape" := AttrSpec(IntsAttr, OptionalAttr)],
    map[0 := Param("shape", "T", Optional)],
    map[0 := Param("X", "T")],
    map["T" := FloatTypes],
    false, Some(GivenTensorFillShape))

  const ScaleRecord := UnaryFloatRecord(
    map["scale" := AttrSpec(FloatAttr, DefaultValue(FloatValue(1.0)))],
    "input", "output", Some(FirstInputPropagation))

  const GRUUnitRecord := Schema("", "", 1, "",
    map["drop_states" := AttrSpec(IntAttr, OptionalAttr)],
    map[0 := Param("hidden_prev", "T"), 1 := Param("gates", "T"),
        2 := Param("seq_lengths", "T"), 3 := Param("t", "T")],
    map[0 := Param("hidden", "T")],
    map["T" := FloatTypes],
    false, None)

  const ATenRecord := Schema("", "", 1, "", map[],
    map[0 := Param("input", "T", Variadic)],
    map[0 := Param("output", "T", Variadic)],
    map["T" := {Bool, Int32, Int64, Float16, Float, Double}],
    true, None)

  const ImageScalerRecord := UnaryFloatRecord(
    map["bias" := AttrSpec(FloatsAttr, OptionalAttr),
        "scale" := AttrSpec(FloatAttr, DefaultValue(FloatValue(1.0)))],
    "input", "output", Some(FirstInputPropagation))

  const MeanVarianceNormalizationRecord := UnaryFloatRecord(
    map["across_channels" := AttrSpec(IntAttr, DefaultValue(IntValue(0))),
        "normalize_variance" := AttrSpec(IntAttr, DefaultValue(IntValue(1)))],
    "input", "output", Some(FirstInputPropagation))

  const CropRecord := UnaryFloatRecord(
    map["border" := AttrSpec(IntsAttr, OptionalAttr), "scale" := AttrSpec(IntsAttr, OptionalAttr)],
    "input", "output", None)

  // The builder chains. Each leaves the record above in a fresh builder.

  method BuildAffine() returns (s: OpSchema)
    ensures fresh(s) && s.record == AffineRecord
  {
    s := new OpSchema();
    s.Attr("alpha", FloatAttr, DefaultValue(FloatValue(1.0)));
    s.Attr("beta", FloatAttr, DefaultValue(FloatValue(0.0)));
    s.Input(0, "X", ConstraintParam("T"));
    s.Output(0, "Y", ConstraintParam("T"));
    s.TypeConstraint("T", FloatTypes);
    s.TypeAndShapeInferenceFunction(FirstInputPropagation);
  }

  method BuildThresholdedRelu() returns (s: OpSchema)
    ensures fresh(s) && s.record == ThresholdedReluRecord
  {
    s := new OpSchema();
    s.Attr("alpha", FloatAttr, DefaultValue(FloatValue(1.0)));
    s.Input(0, "X", ConstraintParam("T"));
    s.Output(0, "Y", ConstraintParam("T"));
    s.TypeConstraint("T", FloatTypes);
    s.TypeAndShapeInferenceFunction(FirstInputPropagation);
  }

  method BuildScaledTanh() returns (s: OpSchema)
    ensures fresh(s) && s.record == ScaledTanhRecord
  {
    s := new OpSchema();
    s.Attr("alpha", FloatAttr, OptionalAttr);
    s.Attr("beta", FloatAttr, OptionalAttr);
    s.Input(0, "input", ConstraintParam("T"));
    s.Output(0, "output", ConstraintParam("T"));
    s.TypeConstraint("T", FloatTypes);
    s.TypeAndShapeInferenceFunction(FirstInputPropagation);
  }

  method BuildParametricSoftplus() returns (s: OpSchema)
    ensures fresh(s) && s.record == ParametricSoftplusRecord
  {
    s := new OpSchema();
    s.Attr("alpha", FloatAttr, OptionalAttr);
    s.Attr("beta", FloatAttr, OptionalAttr);
    s.Input(0, "X", ConstraintParam("T"));
    s.Output(0, "Y", ConstraintParam("T"));
    s.TypeConstraint("T", FloatTypes);
    s.TypeAndShapeInferenceFunction(FirstInputPropagation);
  }

  method BuildConstantFill() returns (s: OpSchema)
    ensures fresh(s) && s.record == ConstantFillRecord
  {
    s := new OpSchema();
    s.Attr("value", FloatAttr, DefaultValue(FloatValue(0.0)));
    s.Attr("dtype", IntAttr, DefaultValue(IntValue(Code(Float))));
    s.Attr("shape", IntsAttr, OptionalAttr);
    s.Attr("extra_shape", IntsAttr, OptionalAttr);
    s.Attr("input_as_shape", IntAttr, OptionalAttr);
    s.Input(0, "input", ConstraintParam("T1"), Optional);
    s.Output(0, "output", ConstraintParam("T2"));
    s.TypeConstraint("T1", FillTypes);
    s.TypeConstraint("T2", FillTypes);
    s.TypeAndShapeInferenceFunction(ConstantFillShape);
  }

  method BuildGivenTensorFill() returns (s: OpSchema)
    ensures fresh(s) && s.record == GivenTensorFillRecord
  {
    s := new OpSchema();
    s.Input(0, "shape", ConstraintParam("T"), Optional);
    s.Output(0, "X", ConstraintParam("T"));
    s.TypeConstraint("T", FloatTypes);
    s.Attr("values", FloatsAttr, OptionalAttr);
    s.Attr("shape", IntsAttr, OptionalAttr);
    s.Attr("input_as_shape", IntAttr, OptionalAttr);
    s.Attr("extra_shape", IntsAttr, OptionalAttr);
    s.TypeAndShapeInferenceFunction(GivenTensorFillShape);
  }

  method BuildScale() returns (s: OpSchema)
    ensures fresh(s) && s.record == ScaleRecord
  {
    s := new OpSchema();
    s.Input(0, "input", ConstraintParam("T"));
    s.Output(0, "output", ConstraintParam("T"));
    s.TypeConstraint("T", FloatTypes);
    s.Attr("scale", FloatAttr, DefaultValue(FloatValue(1.0)));
    s.TypeAndShapeInferenceFunction(FirstInputPropagation);
  }

  method BuildGRUUnit() returns (s: OpSchema)
    ensures fresh(s) && s.record == GRUUnitRecord
  {
    s := new OpSchema();
    s.Attr("drop_states", IntAttr, OptionalAttr);
    s.Input(0, "hidden_prev", ConstraintParam("T"));
    s.Input(1, "gates", ConstraintParam("T"));
    s.Input(2, "seq_lengths", ConstraintParam("T"));
    s.Input(3, "t", ConstraintParam("T"));
    s.Output(0, "hidden", ConstraintParam("T"));
    s.TypeConstraint("T", FloatTypes);
  }

  method BuildATen() returns (s: OpSchema)
    ensures fresh(s) && s.record == ATenRecord
  {
    s := new OpSchema();
    s.AllowUncheckedAttributes();
    s.Input(0, "input", ConstraintParam("T"), Variadic);
    s.Output(0, "output", ConstraintParam("T"), Variadic);
    s.TypeConstraint("T", {Bool, Int32, Int64, Float16, Float, Double});
  }

  method BuildImageScaler() returns (s: OpSchema)
    ensures fresh(s) && s.record == ImageScalerRecord
  {
    s := new OpSchema();
    s.Attr("bias", FloatsAttr, OptionalAttr);
    s.Attr("scale", FloatAttr, DefaultValue(FloatValue(1.0)));
    s.Input(0, "input", ConstraintParam("T"));
    s.Output(0, "output", ConstraintParam("T"));
    s.TypeConstraint("T", FloatTypes);
    s.TypeAndShapeInferenceFunction(FirstInputPropagation);
  }

  method BuildMeanVarianceNormalization() returns (s: OpSchema)
    ensures fresh(s) && s.record == MeanVarianceNormalizationRecord
  {
    s := new OpSchema();
    s.Attr("across_channels", IntAttr, DefaultValue(IntValue(0)));
    s.Attr("normalize_variance", IntAttr, DefaultValue(IntValue(1)));
    s.Input(0, "input", ConstraintParam("T"));
    s.Output(0, "output", ConstraintParam("T"));
    s.TypeConstraint("T", FloatTypes);
    s.TypeAndShapeInferenceFunction(FirstInputPropagation);
  }

  method BuildCrop() returns (s: OpSchema)
    ensures fresh(s) && s.record == CropRecord
  {
    s := new OpSchema();
    s.Attr("border", IntsAttr, OptionalAttr);
    s.Attr("scale", IntsAttr, OptionalAttr);
    s.Input(0, "input", ConstraintParam("T"));
    s.Output(0, "output", ConstraintParam("T"));
    s.TypeConstraint("T", FloatTypes);
  }

  method RegisterAffine(reg: Registry)
    requires reg.Valid() && SchemaKey(OnnxDomain, "Affine", 1) !in reg.schemas
    modifies reg
    ensures reg.Valid()
    ensures reg.schemas == old(reg.schemas)[SchemaKey(OnnxDomain, "Affine", 1) := Stamp(AffineRecord, "Affine", OnnxDomain, 1)]
  {
    var s := BuildAffine();
    OperatorSchema(reg, s, "Affine", OnnxDomain, 1);
  }

  method RegisterThresholdedRelu(reg: Registry)
    requires reg.Valid() && SchemaKey(OnnxDomain, "ThresholdedRelu", 1) !in reg.schemas
    modifies reg
    ensures reg.Valid()
    ensures reg.schemas == old(reg.schemas)[SchemaKey(OnnxDomain, "ThresholdedRelu", 1) := Stamp(ThresholdedReluRecord, "ThresholdedRelu", OnnxDomain, 1)]
  {
    var s := BuildThresholdedRelu();
    OperatorSchema(reg, s, "ThresholdedRelu", OnnxDomain, 1);
  }

  method RegisterScaledTanh(reg: Registry)
    requires reg.Valid() && SchemaKey(OnnxDomain, "ScaledTanh", 1) !in reg.schemas
    modifies reg
    ensures reg.Valid()
    ensures reg.schemas == old(reg.schemas)[SchemaKey(OnnxDomain, "ScaledTanh", 1) := Stamp(ScaledTanhRecord, "ScaledTanh", OnnxDomain, 1)]
  {
    var s := BuildScaledTanh();
    OperatorSchema(reg, s, "ScaledTanh", OnnxDomain, 1);
  }

  method RegisterParametricSoftplus(reg: Registry)
    requires reg.Valid() && SchemaKey(OnnxDomain, "ParametricSoftplus", 1) !in reg.schemas
    modifies reg
    ensures reg.Valid()
    ensures reg.schemas == old(reg.schemas)[SchemaKey(OnnxDomain, "ParametricSoftplus", 1) := Stamp(ParametricSoftplusRecord, "ParametricSoftplus", OnnxDomain, 1)]
  {
    var s := BuildParametricSoftplus();
    OperatorSchema(reg, s, "ParametricSoftplus", OnnxDomain, 1);
  }

  method RegisterConstantFill(reg: Registry)
    requires reg.Valid() && SchemaKey(OnnxDomain, "ConstantFill", 1) !in reg.schemas
    modifies reg
    ensures reg.Valid()
    ensures reg.schemas == old(reg.schemas)[SchemaKey(OnnxDomain, "ConstantFill", 1) := Stamp(ConstantFillRecord, "ConstantFill", OnnxDomain, 1)]
  {
    var s := BuildConstantFill();
    OperatorSchema(reg, s, "ConstantFill", OnnxDomain, 1);
  }

  method RegisterGivenTensorFill(reg: Registry)
    requires reg.Valid() && SchemaKey(OnnxDomain, "GivenTensorFill", 1) !in reg.schemas
    modifies reg
    ensures reg.Valid()
    ensures reg.schemas == old(reg.schemas)[SchemaKey(OnnxDomain, "GivenTensorFill", 1) := Stamp(GivenTensorFillRecord, "GivenTensorFill", OnnxDomain, 1)]
  {
    var s := BuildGivenTensorFill();
    OperatorSchema(reg, s, "GivenTensorFill", OnnxDomain, 1);
  }

  method RegisterScale(reg: Registry)
    requires reg.Valid() && SchemaKey(OnnxDomain, "Scale", 1) !in reg.schemas
    modifies reg
    ensures reg.Valid()
    ensures reg.schemas == old(reg.schemas)[SchemaKey(OnnxDomain, "Scale", 1) := Stamp(ScaleRecord, "Scale", OnnxDomain, 1)]
  {
    var s := BuildScale();
    OperatorSchema(reg, s, "Scale", OnnxDomain, 1);
  }

  method RegisterGRUUnit(reg: Registry)
    requires reg.Valid() && SchemaKey(OnnxDomain, "GRUUnit", 1) !in reg.schemas
    modifies reg
    ensures reg.Valid()
    ensures reg.schemas == old(reg.schemas)[SchemaKey(OnnxDomain, "GRUUnit", 1) := Stamp(GRUUnitRecord, "GRUUnit", OnnxDomain, 1)]
  {
    var s := BuildGRUUnit();
    OperatorSchema(reg, s, "GRUUnit", OnnxDomain, 1);
  }

  method RegisterATen(reg: Registry)
    requires reg.Valid() && SchemaKey(OnnxDomain, "ATen", 1) !in reg.schemas
    modifies reg
    ensures reg.Valid()
    ensures reg.schemas == old(reg.schemas)[SchemaKey(OnnxDomain, "ATen", 1) := Stamp(ATenRecord, "ATen", OnnxDomain, 1)]
  {
    var s := BuildATen();
    OperatorSchema(reg, s, "ATen", OnnxDomain, 1);
  }

  method RegisterImageScaler(reg: Registry)
    requires reg.Valid() && SchemaKey(OnnxDomain, "ImageScaler", 1) !in reg.schemas
    modifies reg
    ensures reg.Valid()
    ensures reg.schemas == old(reg.schemas)[SchemaKey(OnnxDomain, "ImageScaler", 1) := Stamp(ImageScalerRecord, "ImageScaler", OnnxDomain, 1)]
  {
    var s := BuildImageScaler();
    OperatorSchema(reg, s, "ImageScaler", OnnxDomain, 1);
  }

  method RegisterMeanVarianceNormalization(reg: Registry)
    requires reg.Valid() && SchemaKey(OnnxDomain, "MeanVarianceNormalization", 1) !in reg.schemas
    modifies reg
    ensures reg.Valid()
    ensures reg.schemas == old(reg.schemas)[SchemaKey(OnnxDomain, "MeanVarianceNormalization", 1) := Stamp(MeanVarianceNormalizationRecord, "MeanVarianceNormalization", OnnxDomain, 1)]
  {
    var s := BuildMeanVarianceNormalization();
    OperatorSchema(reg, s, "MeanVarianceNormalization", OnnxDomain, 1);
  }

  method RegisterCrop(reg: Registry)
    requires reg.Valid() && SchemaKey(OnnxDomain, "Crop", 1) !in reg.schemas
    modifies reg
    ensures reg.Valid()
    ensures reg.schemas == old(reg.schemas)[SchemaKey(OnnxDomain, "Crop", 1) := Stamp(CropRecord, "Crop", OnnxDomain, 1)]
  {
    var s := BuildCrop();
    OperatorSchema(reg, s, "Crop", OnnxDomain, 1);
  }

  /** The twelve experimental operators, in declaration order. */
  const ExperimentalOps := ["Affine", "ThresholdedRelu", "ScaledTanh", "ParametricSoftplus",
                            "ConstantFill", "GivenTensorFill", "Scale", "GRUUnit", "ATen",
                            "ImageScaler", "MeanVarianceNormalization", "Crop"]

  /** No experimental operator name is declared twice. */
  lemma ExperimentalOpsDistinct()
    ensures forall a, b :: 0 <= a < b < |ExperimentalOps| ==> ExperimentalOps[a] != ExperimentalOps[b]
  {
    assert NoDuplicates(ExperimentalOps, 8);
    assert NoDuplicates(ExperimentalOps, 5);
    assert NoDuplicates(ExperimentalOps, 2);
    NoDuplicatesDistinct(ExperimentalOps, 0);
  }

  /**
   * The file's registrations, run in order into a registry holding none of
   * the twelve identities (an empty one, say), all succeed whatever records
   * the builders assemble, and each record is found under its operator's
   * name, in the default domain, at version 1.
   */
  lemma ExperimentalRegistrationsSucceed(m: map<SchemaKey, Schema>, records: seq<Schema>)
    requires |records| == |ExperimentalOps|
    requires forall op :: op in ExperimentalOps ==> SchemaKey(OnnxDomain, op, 1) !in m
    ensures RegisterInOrder(m, StampAll(records, ExperimentalOps, OnnxDomain, 1)).Some?
    ensures forall i :: 0 <= i < |ExperimentalOps| ==>
      var r := RegisterInOrder(m, StampAll(records, ExperimentalOps, OnnxDomain, 1)).value;
      && SchemaKey(OnnxDomain, ExperimentalOps[i], 1) in r
      && r[SchemaKey(OnnxDomain, ExperimentalOps[i], 1)] == Stamp(records[i], ExperimentalOps[i], OnnxDomain, 1)
  {
    ExperimentalOpsDistinct();
    UnitRegistrationsSucceed(m, records, ExperimentalOps, OnnxDomain, 1);
  }

  /** The records the twelve builder chains assemble, in declaration order. */
  const ExperimentalRecords := [AffineRecord, ThresholdedReluRecord, ScaledTanhRecord, ParametricSoftplusRecord,
                                ConstantFillRecord, GivenTensorFillRecord, ScaleRecord, GRUUnitRecord, ATenRecord,
                                ImageScalerRecord, MeanVarianceNormalizationRecord, CropRecord]

  /** The registration at position `i` of the file, by the Register method of that operator. */
  method RegisterExperimentalAt(reg: Registry, i: nat)
    requires i < |ExperimentalOps|
    requires reg.Valid() && SchemaKey(OnnxDomain, ExperimentalOps[i], 1) !in reg.schemas
    modifies reg
    ensures reg.Valid()
    ensures reg.schemas == old(reg.schemas)[SchemaKey(OnnxDomain, ExperimentalOps[i], 1) :=
                                            Stamp(ExperimentalRecords[i], ExperimentalOps[i], OnnxDomain, 1)]
  {
    if i == 0 { RegisterAffine(reg); }
    else if i == 1 { RegisterThresholdedRelu(reg); }
    else if i == 2 { RegisterScaledTanh(reg); }
    else if i == 3 { RegisterParametricSoftplus(reg); }
    else if i == 4 { RegisterConstantFill(reg); }
    else if i == 5 { RegisterGivenTensorFill(reg); }
    else if i == 6 { RegisterScale(reg); }
    else if i == 7 { RegisterGRUUnit(reg); }
    else if i == 8 { RegisterATen(reg); }
    else if i == 9 { RegisterImageScaler(reg); }
    else if i == 10 { RegisterMeanVarianceNormalization(reg); }
    else { RegisterCrop(reg); }
  }

  /**
   * The file's static registrations, run in declaration order: the registry
   * ends as the in-order fold of the twelve stamped records, each found under
   * its operator's identity, with every earlier entry kept.
   */
  method RegisterExperimentalUnit(reg: Registry)
    requires reg.Valid()
    requires forall i :: 0 <= i < |ExperimentalOps| ==> SchemaKey(OnnxDomain, ExperimentalOps[i], 1) !in reg.schemas
    modifies reg
    ensures reg.Valid()
    ensures RegisterInOrder(old(reg.schemas), StampAll(ExperimentalRecords, ExperimentalOps, OnnxDomain, 1)) == Some(reg.schemas)
    ensures forall i :: 0 <= i < |ExperimentalOps| ==>
      && SchemaKey(OnnxDomain, ExperimentalOps[i], 1) in reg.schemas
      && reg.schemas[SchemaKey(OnnxDomain, ExperimentalOps[i], 1)] == Stamp(ExperimentalRecords[i], ExperimentalOps[i], OnnxDomain, 1)
    ensures forall k :: k in old(reg.schemas) ==> k in reg.schemas && reg.schemas[k] == old(reg.schemas)[k]
  {
    ghost var m0 := reg.schemas;
    ExperimentalOpsDistinct();
    for i := 0 to |ExperimentalOps|
      invariant reg.Valid()
      invariant RegisterInOrder(m0, StampAll(ExperimentalRecords, ExperimentalOps, OnnxDomain, 1)[..i]) == Some(reg.schemas)
      invariant forall j :: i <= j < |ExperimentalOps| ==> SchemaKey(OnnxDomain, ExperimentalOps[j], 1) !in reg.schemas
    {
      RegisterStep(m0, ExperimentalRecords, ExperimentalOps, OnnxDomain, 1, i, reg.schemas);
      RegisterExperimentalAt(reg, i);
    }
    assert StampAll(ExperimentalRecords, ExperimentalOps, OnnxDomain, 1)[..|ExperimentalOps|]
        == StampAll(ExperimentalRecords, ExperimentalOps, OnnxDomain, 1);
    UnitRegistrationsStore(m0, ExperimentalRecords, ExperimentalOps, OnnxDomain, 1);
  }
}
