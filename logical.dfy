/**
 * The logical operators: their inference function, the documentation
 * generator shared by the six binary operators, and the seven registrations.
 */
module Logical {

  import opened Wrappers
  import opened TensorTypes
  import opened Attributes
  import opened InferenceContexts
  import opened Schemas

  // ---------------------------------------------------------------------
  // Inference

  /** What logicalOpInference leaves in output 0: BOOL, with input 0's shape when its rank is known. */
  function LogicalOutput(inputs: Inputs, slot: TypeShape): TypeShape
  {
    WithShapeFromInput(inputs, 0, slot.(elemType := Bool))
  }

  /** logicalOpInference. */
  method LogicalOpInference(ctx: InferenceContext)
    requires 1 <= ctx.outputs.Length
    modifies ctx.outputs
    ensures ctx.outputs[..] == old(ctx.outputs[..])[0 := LogicalOutput(ctx.inputs, old(ctx.outputs[0]))]
  {
    ctx.UpdateOutputElemType(0, Bool);
    if HasInputShape(ctx.inputs, 0) {
      ctx.PropagateShapeFromInputToOutput(0, 0);
    }
  }

  /**
   * The output is BOOL whatever the inputs' element types; its shape is input
   * 0's when that rank is known and is otherwise left as it was.
   */
  lemma LogicalOutputMeaning(inputs: Inputs, slot: TypeShape)
    ensures LogicalOutput(inputs, slot).elemType == Bool
    ensures HasInputShape(inputs, 0) ==> LogicalOutput(inputs, slot).shape == InputShape(inputs, 0)
    ensures !HasInputShape(inputs, 0) ==> LogicalOutput(inputs, slot).shape == slot.shape
  {
  }

  /**
   * Only the shape of input 0 is read: input 1 (and input 0's element type)
   * never affect the result.
   */
  lemma LogicalOutputReadsOnlyFirstShape(inputs: Inputs, inputs': Inputs, slot: TypeShape)
    requires InputShape(inputs, 0) == InputShape(inputs', 0)
    ensures LogicalOutput(inputs, slot) == LogicalOutput(inputs', slot)
  {
  }

  /** Running the inference on its own result changes nothing. */
  lemma LogicalOutputIdempotent(inputs: Inputs, slot: TypeShape)
    ensures LogicalOutput(inputs, LogicalOutput(inputs, slot)) == LogicalOutput(inputs, slot)
  {
  }

  // ---------------------------------------------------------------------
  // The binary logic fragment

  /** The documentation template of the binary operators, around its one placeholder. */
  const LogicDocBefore := "Returns the tensor resulted from " + "performing the `"
  const LogicDocAfter := "` logical operation elementwise " + "on the input tensors `A` and `B`."

  /** The documentation of the binary operator `opName`. */
  function BinaryLogicDoc(opName: string): string
  {
    LogicDocBefore + opName + LogicDocAfter
  }

  /** The template holds no opening brace besides the placeholder's. */
  lemma LogicTemplateBraces()
    ensures '{' !in LogicDocBefore && '{' !in LogicDocAfter
  {
    NoBrace1();
    NoBrace2();
    NoBrace3();
    NoBrace4();
  }

  lemma NoBrace1() ensures '{' !in "Returns the tensor resulted from " {}
  lemma NoBrace2() ensures '{' !in "performing the `" {}
  lemma NoBrace3() ensures '{' !in "` logical operation elementwise " {}
  lemma NoBrace4() ensures '{' !in "on the input tensors `A` and `B`." {}

  /** Replacing the placeholder in the template gives exactly the operator's documentation. */
  lemma BinaryLogicDocReplacesPlaceholder(opName: string)
    ensures ReplaceAll(LogicDocBefore + Placeholder + LogicDocAfter, Placeholder, opName) == BinaryLogicDoc(opName)
  {
    LogicTemplateBraces();
    ReplaceSinglePlaceholder(LogicDocBefore, Placeholder, LogicDocAfter, opName);
  }

  /** What BinaryLogicDocGenerator(opName) does to a schema record. */
  function BinaryLogicFragment(s: Schema, opName: string): Schema
  {
    var withDoc := s.(doc := BinaryLogicDoc(opName));
    var withAttrs := WithAttr(WithAttr(withDoc, "broadcast", IntAttr, DefaultValue(IntValue(0))),
                              "axis", IntAttr, OptionalAttr);
    var withSlots := WithOutput(WithInput(WithInput(withAttrs, 0, "A", ConstraintParam("T"), Single),
                                          1, "B", ConstraintParam("T"), Single),
                                0, "C", ConstraintParam("T1"), Single);
    withSlots.(inference := Some(LogicalOp))
  }

  /** BinaryLogicDocGenerator(opName), applied through FillUsing. */
  method BinaryLogicDocGenerator(opName: string, schema: OpSchema)
    modifies schema
    ensures schema.record == BinaryLogicFragment(old(schema.record), opName)
  {
    var doc := ReplaceAll(LogicDocBefore + Placeholder + LogicDocAfter, Placeholder, opName);
    BinaryLogicDocReplacesPlaceholder(opName);
    schema.SetDoc(doc);
    schema.Attr("broadcast", IntAttr, DefaultValue(IntValue(0)));
    schema.Attr("axis", IntAttr, OptionalAttr);
    schema.Input(0, "A", ConstraintParam("T"));
    schema.Input(1, "B", ConstraintParam("T"));
    schema.Output(0, "C", ConstraintParam("T1"));
    schema.TypeAndShapeInferenceFunction(LogicalOp);
  }

  /**
   * On a schema that has declared neither attribute, the fragment declares
   * `broadcast` (INT, default 0) and `axis` (INT, optional), inputs A and B
   * over T, output C over T1, the logical inference and the substituted
   * documentation, and leaves the identity and type constraints alone.
   */
  lemma BinaryLogicFragmentDeclares(s: Schema, opName: string)
    requires "broadcast" !in s.attributes && "axis" !in s.attributes
    ensures var r := BinaryLogicFragment(s, opName);
      && r.doc == LogicDocBefore + opName + LogicDocAfter
      && r.attributes == s.attributes["broadcast" := AttrSpec(IntAttr, DefaultValue(IntValue(0)))]
                                     ["axis" := AttrSpec(IntAttr, OptionalAttr)]
      && r.inputs == s.inputs[0 := FormalParameter("A", ConstraintParam("T"), Single)]
                             [1 := FormalParameter("B", ConstraintParam("T"), Single)]
      && r.outputs == s.outputs[0 := FormalParameter("C", ConstraintParam("T1"), Single)]
      && r.inference == Some(LogicalOp)
      && KeyOf(r) == KeyOf(s)
      && r.typeConstraints == s.typeConstraints
      && r.allowsUncheckedAttributes == s.allowsUncheckedAttributes
  {
    assert "broadcast" != "axis";
  }

  // ---------------------------------------------------------------------
  // Registrations

  /** The record of a binary logical operator whose inputs range over `inputTypes`. */
  function BinaryLogicRecord(opName: string, inputTypes: set<ElemType>): Schema
  {
    WithTypeConstraint(WithTypeConstraint(BinaryLogicFragment(EmptySchema, opName), "T", inputTypes),
                       "T1", {Bool})
  }

  /**
   * A binary logical record: the fragment's declarations, T as given, T1 =
   * {bool}, so that output C can only be BOOL.
   */
  lemma BinaryLogicRecordContents(opName: string, inputTypes: set<ElemType>)
    ensures var r := BinaryLogicRecord(opName, inputTypes);
      && HasAttr(r, "broadcast", IntAttr, DefaultValue(IntValue(0)))
      && HasAttr(r, "axis", IntAttr, OptionalAttr)
      && r.attributes.Keys == {"broadcast", "axis"}
      && HasInput(r, 0, "A", ConstraintParam("T"), Single)
      && HasInput(r, 1, "B", ConstraintParam("T"), Single)
      && r.inputs.Keys == {0, 1}
      && HasOutput(r, 0, "C", ConstraintParam("T1"), Single)
      && r.outputs.Keys == {0}
      && r.typeConstraints == map["T" := inputTypes, "T1" := {Bool}]
      && OutputTypes(r, 0) == {Bool}
      && r.inference == Some(LogicalOp)
      && r.doc == LogicDocBefore + opName + LogicDocAfter
  {
    BinaryLogicFragmentDeclares(EmptySchema, opName);
    assert "T" != "T1";
  }

  /** The `.FillUsing(...)`, `.TypeConstraint("T", ...)`, `.TypeConstraint("T1", {bool})` chain. */
  method BuildBinaryLogic(opName: string, inputTypes: set<ElemType>) returns (s: OpSchema)
    ensures fresh(s) && s.record == BinaryLogicRecord(opName, inputTypes)
  {
    s := new OpSchema();
    BinaryLogicDocGenerator(opName, s);
    s.TypeConstraint("T", inputTypes);
    s.TypeConstraint("T1", {Bool});
  }

  /** The element types the integral comparison Equal accepts. */
  const EqualTypes: set<ElemType> := {Bool, Int32, Int64}

  const NotDoc := "Returns the negation of the input tensor element-wise."

  const NotRecord := Schema("", "", 1, NotDoc, map[],
    map[0 := FormalParameter("X", ConstraintParam("T"), Single)],
    map[0 := FormalParameter("Y", ConstraintParam("T"), Single)],
    map["T" := {Bool}], false, Some(LogicalOp))

  method BuildNot() returns (s: OpSchema)
    ensures fresh(s) && s.record == NotRecord
  {
    s := new OpSchema();
    s.SetDoc(NotDoc);
    s.Input(0, "X", ConstraintParam("T"));
    s.Output(0, "Y", ConstraintParam("T"));
    s.TypeConstraint("T", {Bool});
    s.TypeAndShapeInferenceFunction(LogicalOp);
  }

  method RegisterAnd(reg: Registry)
    requires reg.Valid() && SchemaKey(OnnxDomain, "And", 1) !in reg.schemas
    modifies reg
    ensures reg.Valid()
    ensures reg.schemas == old(reg.schemas)[SchemaKey(OnnxDomain, "And", 1) := Stamp(BinaryLogicRecord("and", {Bool}), "And", OnnxDomain, 1)]
  {
    var s := BuildBinaryLogic("and", {Bool});
    OperatorSchema(reg, s, "And", OnnxDomain, 1);
  }

  method RegisterOr(reg: Registry)
    requires reg.Valid() && SchemaKey(OnnxDomain, "Or", 1) !in reg.schemas
    modifies reg
    ensures reg.Valid()
    ensures reg.schemas == old(reg.schemas)[SchemaKey(OnnxDomain, "Or", 1) := Stamp(BinaryLogicRecord("or", {Bool}), "Or", OnnxDomain, 1)]
  {
    var s := BuildBinaryLogic("or", {Bool});
    OperatorSchema(reg, s, "Or", OnnxDomain, 1);
  }

  method RegisterXor(reg: Registry)
    requires reg.Valid() && SchemaKey(OnnxDomain, "Xor", 1) !in reg.schemas
    modifies reg
    ensures reg.Valid()
    ensures reg.schemas == old(reg.schemas)[SchemaKey(OnnxDomain, "Xor", 1) := Stamp(BinaryLogicRecord("xor", {Bool}), "Xor", OnnxDomain, 1)]
  {
    var s := BuildBinaryLogic("xor", {Bool});
    OperatorSchema(reg, s, "Xor", OnnxDomain, 1);
  }

  method RegisterGreater(reg: Registry)
    requires reg.Valid() && SchemaKey(OnnxDomain, "Greater", 1) !in reg.schemas
    modifies reg
    ensures reg.Valid()
    ensures reg.schemas == old(reg.schemas)[SchemaKey(OnnxDomain, "Greater", 1) := Stamp(BinaryLogicRecord("greater", FloatTypes), "Greater", OnnxDomain, 1)]
  {
    var s := BuildBinaryLogic("greater", FloatTypes);
    OperatorSchema(reg, s, "Greater", OnnxDomain, 1);
  }

  method RegisterLess(reg: Registry)
    requires reg.Valid() && SchemaKey(OnnxDomain, "Less", 1) !in reg.schemas
    modifies reg
    ensures reg.Valid()
    ensures reg.schemas == old(reg.schemas)[SchemaKey(OnnxDomain, "Less", 1) := Stamp(BinaryLogicRecord("less", FloatTypes), "Less", OnnxDomain, 1)]
  {
    var s := BuildBinaryLogic("less", FloatTypes);
    OperatorSchema(reg, s, "Less", OnnxDomain, 1);
  }

  method RegisterEqual(reg: Registry)
    requires reg.Valid() && SchemaKey(OnnxDomain, "Equal", 1) !in reg.schemas
    modifies reg
    ensures reg.Valid()
    ensures reg.schemas == old(reg.schemas)[SchemaKey(OnnxDomain, "Equal", 1) := Stamp(BinaryLogicRecord("equal", EqualTypes), "Equal", OnnxDomain, 1)]
  {
    var s := BuildBinaryLogic("equal", EqualTypes);
    OperatorSchema(reg, s, "Equal", OnnxDomain, 1);
  }

  method RegisterNot(reg: Registry)
    requires reg.Valid() && SchemaKey(OnnxDomain, "Not", 1) !in reg.schemas
    modifies reg
    ensures reg.Valid()
    ensures reg.schemas == old(reg.schemas)[SchemaKey(OnnxDomain, "Not", 1) := Stamp(NotRecord, "Not", OnnxDomain, 1)]
  {
    var s := BuildNot();
    OperatorSchema(reg, s, "Not", OnnxDomain, 1);
  }

  /** The seven logical operators, in declaration order. */
  const LogicalOps := ["And", "Or", "Xor", "Greater", "Less", "Equal", "Not"]

  /** Every logical operator's output 0 is constrained to BOOL, the type the inference assigns. */
  lemma LogicalOutputsAreBool(opName: string, inputTypes: set<ElemType>, inputs: Inputs, slot: TypeShape)
    ensures BinaryLogicRecord(opName, inputTypes).inference == Some(LogicalOp)
    ensures OutputTypes(BinaryLogicRecord(opName, inputTypes), 0) == {Bool}
    ensures NotRecord.inference == Some(LogicalOp)
    ensures OutputTypes(NotRecord, 0) == {Bool}
    ensures LogicalOutput(inputs, slot).elemType in OutputTypes(NotRecord, 0)
  {
    BinaryLogicRecordContents(opName, inputTypes);
  }

  /** No two logical operators share a name. */
  lemma LogicalOpsDistinct()
    ensures forall a, b :: 0 <= a < b < |LogicalOps| ==> LogicalOps[a] != LogicalOps[b]
  {
    assert NoDuplicates(LogicalOps, 3);
    NoDuplicatesDistinct(LogicalOps, 0);
  }

  /**
   * The file's registrations, run in order into a registry holding none of
   * the seven identities (an empty one, say), all succeed whatever records
   * the builders assemble, and each record is found under its operator's
   * name, in the default domain, at version 1.
   */
  lemma LogicalRegistrationsSucceed(m: map<SchemaKey, Schema>, records: seq<Schema>)
    requires |records| == |LogicalOps|
    requires forall op :: op in LogicalOps ==> SchemaKey(OnnxDomain, op, 1) !in m
    ensures RegisterInOrder(m, StampAll(records, LogicalOps, OnnxDomain, 1)).Some?
    ensures forall i :: 0 <= i < |LogicalOps| ==>
      var r := RegisterInOrder(m, StampAll(records, LogicalOps, OnnxDomain, 1)).value;
      && SchemaKey(OnnxDomain, LogicalOps[i], 1) in r
      && r[SchemaKey(OnnxDomain, LogicalOps[i], 1)] == Stamp(records[i], LogicalOps[i], OnnxDomain, 1)
  {
    LogicalOpsDistinct();
    UnitRegistrationsSucceed(m, records, LogicalOps, OnnxDomain, 1);
  }

  /** The name each binary operator substitutes into its documentation, and its input types. */
  const LogicalDocNames := ["and", "or", "xor", "greater", "less", "equal"]
  const LogicalInputTypes := [{Bool}, {Bool}, {Bool}, FloatTypes, FloatTypes, EqualTypes]

  /** The record the builder chain of the `i`-th logical registration assembles. */
  function LogicalRecord(i: nat): Schema
    requires i < |LogicalOps|
  {
    if i < 6 then BinaryLogicRecord(LogicalDocNames[i], LogicalInputTypes[i]) else NotRecord
  }

  /** The registration at position `i` of the file, by the Register method of that operator. */
  method RegisterLogicalAt(reg: Registry, i: nat)
    requires i < |LogicalOps|
    requires reg.Valid() && SchemaKey(OnnxDomain, LogicalOps[i], 1) !in reg.schemas
    modifies reg
    ensures reg.Valid()
    ensures reg.schemas == old(reg.schemas)[SchemaKey(OnnxDomain, LogicalOps[i], 1) := Stamp(LogicalRecord(i), LogicalOps[i], OnnxDomain, 1)]
  {
    if i == 0 {
      RegisterAnd(reg);
    } else if i == 1 {
      RegisterOr(reg);
    } else if i == 2 {
      RegisterXor(reg);
    } else if i == 3 {
      RegisterGreater(reg);
    } else if i == 4 {
      RegisterLess(reg);
    } else if i == 5 {
      RegisterEqual(reg);
    } else {
      RegisterNot(reg);
    }
  }

  /** The records of the seven registrations, in declaration order. */
  const LogicalRecords := seq(|LogicalOps|, k requires 0 <= k < |LogicalOps| => LogicalRecord(k))

  /**
   * The file's static registrations, run in declaration order: the registry
   * ends as the in-order fold of the seven stamped records, each found under
   * its operator's identity, with every earlier entry kept.
   */
  method RegisterLogicalUnit(reg: Registry)
    requires reg.Valid()
    requires forall i :: 0 <= i < |LogicalOps| ==> SchemaKey(OnnxDomain, LogicalOps[i], 1) !in reg.schemas
    modifies reg
    ensures reg.Valid()
    ensures RegisterInOrder(old(reg.schemas), StampAll(LogicalRecords, LogicalOps, OnnxDomain, 1)) == Some(reg.schemas)
    ensures forall i :: 0 <= i < |LogicalOps| ==>
      && SchemaKey(OnnxDomain, LogicalOps[i], 1) in reg.schemas
      && reg.schemas[SchemaKey(OnnxDomain, LogicalOps[i], 1)] == Stamp(LogicalRecord(i), LogicalOps[i], OnnxDomain, 1)
    ensures forall k :: k in old(reg.schemas) ==> k in reg.schemas && reg.schemas[k] == old(reg.schemas)[k]
  {
    ghost var m0 := reg.schemas;
    LogicalOpsDistinct();
    for i := 0 to |LogicalOps|
      invariant reg.Valid()
      invariant RegisterInOrder(m0, StampAll(LogicalRecords, LogicalOps, OnnxDomain, 1)[..i]) == Some(reg.schemas)
      invariant forall j :: i <= j < |LogicalOps| ==> SchemaKey(OnnxDomain, LogicalOps[j], 1) !in reg.schemas
    {
      assert LogicalRecords[i] == LogicalRecord(i);
      RegisterStep(m0, LogicalRecords, LogicalOps, OnnxDomain, 1, i, reg.schemas);
      RegisterLogicalAt(reg, i);
    }
    assert StampAll(LogicalRecords, LogicalOps, OnnxDomain, 1)[..|LogicalOps|] == StampAll(LogicalRecords, LogicalOps, OnnxDomain, 1);
    UnitRegistrationsStore(m0, LogicalRecords, LogicalOps, OnnxDomain, 1);
  }
}
