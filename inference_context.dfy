/**
 * The inference context one operator instance is inferred in: its attributes,
 * its input descriptors (read-only) and its output descriptor slots (written
 * by the inference function), with the small propagation helpers that the
 * operator definitions call.
 */
module InferenceContexts {

  import opened Wrappers
  import opened TensorTypes
  import opened Attributes

  /** Input descriptors in slot order; `None` is an absent input or one of unknown type. */
  type Inputs = seq<Option<TypeShape>>

  /** The shape of input `n`, unknown rank when the input is absent. */
  function InputShape(inputs: Inputs, n: nat): Shape
  {
    if n < |inputs| && inputs[n].Some? then inputs[n].value.shape else None
  }

  /** hasInputShape: input `n` exists and its rank is known. */
  predicate HasInputShape(inputs: Inputs, n: nat)
  {
    InputShape(inputs, n).Some?
  }

  /** The element type of input `n`, undefined when the input is absent. */
  function InputElemType(inputs: Inputs, n: nat): ElemType
  {
    if n < |inputs| && inputs[n].Some? then inputs[n].value.elemType else Undefined
  }

  /** The element type an integer attribute names, or `default` when it is absent. */
  function ElemTypeFromAttribute(attrs: Attributes, name: string, default: ElemType): ElemType
  {
    match IntAttribute(attrs, name)
    case Some(c) => FromCode(c)
    case None => default
  }

  /** The shape a list attribute spells out, one concrete dimension per entry. */
  function ShapeFromAttribute(attrs: Attributes, name: string): seq<Dim>
  {
    DimsOf(GetRepeatedInts(attrs, name))
  }

  // What each helper does to one output slot.

  function WithElemTypeFromInput(inputs: Inputs, i: nat, slot: TypeShape): TypeShape
  {
    if InputElemType(inputs, i) != Undefined then slot.(elemType := InputElemType(inputs, i)) else slot
  }

  function WithShapeFromInput(inputs: Inputs, i: nat, slot: TypeShape): TypeShape
  {
    if HasInputShape(inputs, i) then slot.(shape := InputShape(inputs, i)) else slot
  }

  /** What propagateShapeAndTypeFromFirstInput leaves in output 0. */
  function FirstInputOutput(inputs: Inputs, slot: TypeShape): TypeShape
  {
    WithShapeFromInput(inputs, 0, WithElemTypeFromInput(inputs, 0, slot))
  }

  class InferenceContext {
    const attributes: Attributes
    const inputs: Inputs
    const outputs: array<TypeShape>

    /** A context whose every output slot starts unresolved. */
    constructor (attributes: Attributes, inputs: Inputs, numOutputs: nat)
      ensures this.attributes == attributes && this.inputs == inputs
      ensures fresh(outputs) && outputs.Length == numOutputs
      ensures forall k :: 0 <= k < numOutputs ==> outputs[k] == Unresolved
    {
      this.attributes := attributes;
      this.inputs := inputs;
      outputs := new TypeShape[numOutputs](_ => Unresolved);
    }

    /** updateOutputElemType: output `n` gets element type `t`; its shape stays. */
    method UpdateOutputElemType(n: nat, t: ElemType)
      requires n < outputs.Length
      modifies outputs
      ensures outputs[..] == old(outputs[..])[n := old(outputs[n]).(elemType := t)]
    {
      outputs[n] := outputs[n].(elemType := t);
    }

    /** updateOutputShape: output `n` gets the known-rank shape `dims`; its element type stays. */
    method UpdateOutputShape(n: nat, dims: seq<Dim>)
      requires n < outputs.Length
      modifies outputs
      ensures outputs[..] == old(outputs[..])[n := old(outputs[n]).(shape := Some(dims))]
    {
      outputs[n] := outputs[n].(shape := Some(dims));
    }

    /** propagateElemTypeFromInputToOutput: a no-op when input `i`'s element type is undefined. */
    method PropagateElemTypeFromInputToOutput(i: nat, n: nat)
      requires n < outputs.Length
      modifies outputs
      ensures outputs[..] == old(outputs[..])[n := WithElemTypeFromInput(inputs, i, old(outputs[n]))]
    {
      var t := InputElemType(inputs, i);
      if t != Undefined {
        UpdateOutputElemType(n, t);
      }
    }

    /** propagateShapeFromInputToOutput: a no-op when input `i` has unknown rank. */
    method PropagateShapeFromInputToOutput(i: nat, n: nat)
      requires n < outputs.Length
      modifies outputs
      ensures outputs[..] == old(outputs[..])[n := WithShapeFromInput(inputs, i, old(outputs[n]))]
    {
      if HasInputShape(inputs, i) {
        UpdateOutputShape(n, InputShape(inputs, i).value);
      }
    }

    /** propagateElemTypeFromAttributeToOutput with a default element type. */
    method PropagateElemTypeFromAttributeToOutput(name: string, n: nat, default: ElemType)
      requires n < outputs.Length
      modifies outputs
      ensures outputs[..] ==
        old(outputs[..])[n := old(outputs[n]).(elemType := ElemTypeFromAttribute(attributes, name, default))]
    {
      UpdateOutputElemType(n, ElemTypeFromAttribute(attributes, name, default));
    }

    /** propagateShapeFromAttributeToOutput: output `n`'s shape is the attribute's list. */
    method PropagateShapeFromAttributeToOutput(name: string, n: nat)
      requires n < outputs.Length
      modifies outputs
      ensures outputs[..] == old(outputs[..])[n := old(outputs[n]).(shape := Some(ShapeFromAttribute(attributes, name)))]
    {
      UpdateOutputShape(n, ShapeFromAttribute(attributes, name));
    }
  }

  /** propagateShapeAndTypeFromFirstInput, the identity inference of shape-preserving operators. */
  method PropagateShapeAndTypeFromFirstInput(ctx: InferenceContext)
    requires 1 <= ctx.outputs.Length
    modifies ctx.outputs
    ensures ctx.outputs[..] == old(ctx.outputs[..])[0 := FirstInputOutput(ctx.inputs, old(ctx.outputs[0]))]
  {
    ctx.PropagateElemTypeFromInputToOutput(0, 0);
    if !HasInputShape(ctx.inputs, 0) {
      return;
    }
    ctx.PropagateShapeFromInputToOutput(0, 0);
  }

  /** A fully known input 0 is copied to output 0 exactly. */
  lemma FirstInputCopiesKnownInput(inputs: Inputs, slot: TypeShape)
    requires 1 <= |inputs| && inputs[0].Some?
    requires inputs[0].value.elemType != Undefined && inputs[0].value.shape.Some?
    ensures FirstInputOutput(inputs, slot) == inputs[0].value
  {
  }

  /**
   * With input 0 of unknown rank, the output's shape is untouched while a
   * known element type is still copied.
   */
  lemma FirstInputUnknownRank(inputs: Inputs, slot: TypeShape)
    requires !HasInputShape(inputs, 0)
    ensures FirstInputOutput(inputs, slot).shape == slot.shape
    ensures InputElemType(inputs, 0) != Undefined ==> FirstInputOutput(inputs, slot).elemType == InputElemType(inputs, 0)
  {
  }

  /** Identity propagation run twice is identity propagation run once. */
  lemma FirstInputIdempotent(inputs: Inputs, slot: TypeShape)
    ensures FirstInputOutput(inputs, FirstInputOutput(inputs, slot)) == FirstInputOutput(inputs, slot)
  {
  }
}
