/**
 * Running the inference function a schema attaches. A schema with none
 * leaves every output as it was; each of the four attached functions
 * writes output 0 only.
 */
module Dispatch {

  import opened Wrappers
  import opened TensorTypes
  import opened Attributes
  import opened InferenceContexts
  import opened Schemas
  import opened Experiments
  import opened Logical
  import opened Reduction

  /** What the inference function `f` makes of output 0. */
  function InferredOutput(f: InferenceFunction, attrs: Attributes, inputs: Inputs, slot: TypeShape): TypeShape
  {
    match f
    case FirstInputPropagation => FirstInputOutput(inputs, slot)
    case LogicalOp => LogicalOutput(inputs, slot)
    case ConstantFillShape => ConstantFillOutput(attrs, inputs, slot)
    case GivenTensorFillShape => GivenTensorFillOutput(attrs, inputs, slot)
  }

  /** The outputs after the schema's inference function (if any) has run. */
  function InferredOutputs(inference: Option<InferenceFunction>, attrs: Attributes, inputs: Inputs,
                           outs: seq<TypeShape>): (r: seq<TypeShape>)
    requires 1 <= |outs|
    ensures |r| == |outs|
    ensures forall i :: 1 <= i < |outs| ==> r[i] == outs[i]
    ensures inference.None? ==> r == outs
  {
    match inference
    case None => outs
    case Some(f) => outs[0 := InferredOutput(f, attrs, inputs, outs[0])]
  }

  /** Runs the schema's inference function on the context. */
  method RunInference(schema: Schema, ctx: InferenceContext)
    requires 1 <= ctx.outputs.Length
    modifies ctx.outputs
    ensures ctx.outputs[..] == InferredOutputs(schema.inference, ctx.attributes, ctx.inputs, old(ctx.outputs[..]))
  {
    match schema.inference {
      case None =>
      case Some(f) =>
        match f {
          case FirstInputPropagation => PropagateShapeAndTypeFromFirstInput(ctx);
          case LogicalOp => LogicalOpInference(ctx);
          case ConstantFillShape => ConstantFillInference(ctx);
          case GivenTensorFillShape => GivenTensorFillInference(ctx);
        }
    }
  }

  /** Running any of the inference functions a second time changes nothing. */
  lemma InferenceIdempotent(f: InferenceFunction, attrs: Attributes, inputs: Inputs, slot: TypeShape)
    ensures InferredOutput(f, attrs, inputs, InferredOutput(f, attrs, inputs, slot)) == InferredOutput(f, attrs, inputs, slot)
  {
    match f
    case FirstInputPropagation => FirstInputIdempotent(inputs, slot);
    case LogicalOp => LogicalOutputIdempotent(inputs, slot);
    case ConstantFillShape => FillShapeIdempotent(attrs, inputs, slot.shape);
    case GivenTensorFillShape => FillShapeIdempotent(attrs, inputs, slot.shape);
  }

  /**
   * Affine, ThresholdedRelu, ScaledTanh, ParametricSoftplus, Scale,
   * ImageScaler and MeanVarianceNormalization copy input 0's type and shape
   * into output 0; GRUUnit, ATen and Crop attach no inference and leave the
   * outputs as they were; the two fills run their own inference.
   */
  lemma ExperimentalInference(attrs: Attributes, inputs: Inputs, outs: seq<TypeShape>)
    requires 1 <= |outs|
    ensures InferredOutputs(AffineRecord.inference, attrs, inputs, outs)[0] == FirstInputOutput(inputs, outs[0])
    ensures InferredOutputs(ThresholdedReluRecord.inference, attrs, inputs, outs)[0] == FirstInputOutput(inputs, outs[0])
    ensures InferredOutputs(ScaledTanhRecord.inference, attrs, inputs, outs)[0] == FirstInputOutput(inputs, outs[0])
    ensures InferredOutputs(ParametricSoftplusRecord.inference, attrs, inputs, outs)[0] == FirstInputOutput(inputs, outs[0])
    ensures InferredOutputs(ScaleRecord.inference, attrs, inputs, outs)[0] == FirstInputOutput(inputs, outs[0])
    ensures InferredOutputs(ImageScalerRecord.inference, attrs, inputs, outs)[0] == FirstInputOutput(inputs, outs[0])
    ensures InferredOutputs(MeanVarianceNormalizationRecord.inference, attrs, inputs, outs)[0] == FirstInputOutput(inputs, outs[0])
    ensures InferredOutputs(GRUUnitRecord.inference, attrs, inputs, outs) == outs
    ensures InferredOutputs(ATenRecord.inference, attrs, inputs, outs) == outs
    ensures InferredOutputs(CropRecord.inference, attrs, inputs, outs) == outs
    ensures InferredOutputs(ConstantFillRecord.inference, attrs, inputs, outs)[0] == ConstantFillOutput(attrs, inputs, outs[0])
    ensures InferredOutputs(GivenTensorFillRecord.inference, attrs, inputs, outs)[0] == GivenTensorFillOutput(attrs, inputs, outs[0])
  {
  }

  /**
   * Every logical operator's inference gives output 0 the element type BOOL,
   * which is the one its output constraint admits, and takes the shape from
   * input 0 when that is known.
   */
  lemma LogicalInferenceMeetsConstraint(opName: string, inputTypes: set<ElemType>, attrs: Attributes,
                                        inputs: Inputs, outs: seq<TypeShape>)
    requires 1 <= |outs|
    ensures var r := InferredOutputs(BinaryLogicRecord(opName, inputTypes).inference, attrs, inputs, outs);
      && r[0].elemType in OutputTypes(BinaryLogicRecord(opName, inputTypes), 0)
      && (HasInputShape(inputs, 0) ==> r[0].shape == InputShape(inputs, 0))
    ensures var r := InferredOutputs(NotRecord.inference, attrs, inputs, outs);
      && r[0].elemType in OutputTypes(NotRecord, 0)
      && (HasInputShape(inputs, 0) ==> r[0].shape == InputShape(inputs, 0))
  {
    LogicalOutputsAreBool(opName, inputTypes, inputs, outs[0]);
    LogicalOutputMeaning(inputs, outs[0]);
  }

  /** No reduction operator changes an output type or shape through inference. */
  lemma ReductionInferenceLeavesOutputs(i: nat, attrs: Attributes, inputs: Inputs, outs: seq<TypeShape>)
    requires i < |ReductionOps| && 1 <= |outs|
    ensures InferredOutputs(ReductionRecord(i).inference, attrs, inputs, outs) == outs
  {
    ReductionsHaveNoInference(i);
  }
}
