/**
 * The reduction operators: the two documentation generators (for the ten
 * Reduce* operators and for ArgMax/ArgMin) and the twelve registrations.
 * No reduction attaches an inference function.
 */
module Reduction {

  import opened Wrappers
  import opened TensorTypes
  import opened Attributes
  import opened Schemas

  // ---------------------------------------------------------------------
  // ReduceDocGenerator

  /** The documentation template of the Reduce* operators, around its one placeholder. */
  const ReduceDocBefore := "Computes the "
  const ReduceDocAfter := " of the input tensor's element " + "along the provided axes."

  function ReduceDoc(docName: string): string
  {
    ReduceDocBefore + docName + ReduceDocAfter
  }

  lemma NoBraceReduce1() ensures '{' !in "Computes the " {}
  lemma NoBraceReduce2() ensures '{' !in " of the input tensor's element " {}
  lemma NoBraceReduce3() ensures '{' !in "along the provided axes." {}

  /** Replacing the placeholder in the template gives exactly the operator's documentation. */
  lemma ReduceDocReplacesPlaceholder(docName: string)
    ensures ReplaceAll(ReduceDocBefore + Placeholder + ReduceDocAfter, Placeholder, docName) == ReduceDoc(docName)
  {
    NoBraceReduce1();
    NoBraceReduce2();
    NoBraceReduce3();
    ReplaceSinglePlaceholder(ReduceDocBefore, Placeholder, ReduceDocAfter, docName);
  }

  /** What ReduceDocGenerator(docName) does to a schema record. */
  function ReduceFragment(s: Schema, docName: string): Schema
  {
    var withDoc := s.(doc := ReduceDoc(docName));
    var withAttrs := WithAttr(WithAttr(withDoc, "axes", IntsAttr, OptionalAttr),
                              "keepdims", IntAttr, DefaultValue(IntValue(1)));
    var withSlots := WithOutput(WithInput(withAttrs, 0, "data", ConstraintParam("T"), Single),
                                0, "reduced", ConstraintParam("T"), Single);
    WithTypeConstraint(withSlots, "T", HighPrecisionNumericTypes)
  }

  /** ReduceDocGenerator(docName), applied through FillUsing. */
  method ReduceDocGenerator(docName: string, schema: OpSchema)
    modifies schema
    ensures schema.record == ReduceFragment(old(schema.record), docName)
  {
    var doc := ReplaceAll(ReduceDocBefore + Placeholder + ReduceDocAfter, Placeholder, docName);
    ReduceDocReplacesPlaceholder(docName);
    schema.SetDoc(doc);
    schema.Attr("axes", IntsAttr, OptionalAttr);
    schema.Attr("keepdims", IntAttr, DefaultValue(IntValue(1)));
    schema.Input(0, "data", ConstraintParam("T"));
    schema.Output(0, "reduced", ConstraintParam("T"));
    schema.TypeConstraint("T", HighPrecisionNumericTypes);
  }

  /** The record of a Reduce* operator: the fragment applied to a fresh builder. */
  function ReduceRecord(docName: string): Schema
  {
    ReduceFragment(EmptySchema, docName)
  }

  /**
   * A Reduce* record declares `axes` (INTS, optional) and `keepdims` (INT,
   * default 1), input `data` and output `reduced` over T =
   * high_precision_numeric_types, no inference function, and the substituted
   * documentation.
   */
  lemma ReduceRecordContents(docName: string)
    ensures var r := ReduceRecord(docName);
      && HasAttr(r, "axes", IntsAttr, OptionalAttr)
      && HasAttr(r, "keepdims", IntAttr, DefaultValue(IntValue(1)))
      && r.attributes.Keys == {"axes", "keepdims"}
      && HasInput(r, 0, "data", ConstraintParam("T"), Single)
      && r.inputs.Keys == {0}
      && HasOutput(r, 0, "reduced", ConstraintParam("T"), Single)
      && r.outputs.Keys == {0}
      && r.typeConstraints == map["T" := HighPrecisionNumericTypes]
      && OutputTypes(r, 0) == HighPrecisionNumericTypes
      && r.inference == None
      && !r.allowsUncheckedAttributes
      && r.doc == ReduceDocBefore + docName + ReduceDocAfter
  {
    assert "axes" != "keepdims";
  }

  method BuildReduce(docName: string) returns (s: OpSchema)
    ensures fresh(s) && s.record == ReduceRecord(docName)
  {
    s := new OpSchema();
    ReduceDocGenerator(docName, s);
  }

  // ---------------------------------------------------------------------
  // ArgReduceDocGenerator

  /** The documentation template of ArgMax and ArgMin, around its one placeholder. */
  const ArgReduceDocBefore := "Computes the indices of the "
  const ArgReduceDocAfter := " elements of the input tensor's " + "element along the provided axis."

  function ArgReduceDoc(docName: string): string
  {
    ArgReduceDocBefore + docName + ArgReduceDocAfter
  }

  lemma NoBraceArg1() ensures '{' !in "Computes the indices of the " {}
  lemma NoBraceArg2() ensures '{' !in " elements of the input tensor's " {}
  lemma NoBraceArg3() ensures '{' !in "element along the provided axis." {}

  /** Replacing the placeholder in the template gives exactly the operator's documentation. */
  lemma ArgReduceDocReplacesPlaceholder(docName: string)
    ensures ReplaceAll(ArgReduceDocBefore + Placeholder + ArgReduceDocAfter, Placeholder, docName) == ArgReduceDoc(docName)
  {
    NoBraceArg1();
    NoBraceArg2();
    NoBraceArg3();
    ReplaceSinglePlaceholder(ArgReduceDocBefore, Placeholder, ArgReduceDocAfter, docName);
  }

  /** What ArgReduceDocGenerator(docName) does to a schema record. */
  function ArgReduceFragment(s: Schema, docName: string): Schema
  {
    var withDoc := s.(doc := ArgReduceDoc(docName));
    var withAttrs := WithAttr(WithAttr(withDoc, "axis", IntAttr, DefaultValue(IntValue(0))),
                              "keepdims", IntAttr, DefaultValue(IntValue(1)));
    var withSlots := WithOutput(WithInput(withAttrs, 0, "data", ConstraintParam("T"), Single),
                                0, "reduced", TensorType(Int64), Single);
    WithTypeConstraint(withSlots, "T", AllNumericTypes)
  }

  /** ArgReduceDocGenerator(docName), applied through FillUsing. */
  method ArgReduceDocGenerator(docName: string, schema: OpSchema)
    modifies schema
    ensures schema.record == ArgReduceFragment(old(schema.record), docName)
  {
    var doc := ReplaceAll(ArgReduceDocBefore + Placeholder + ArgReduceDocAfter, Placeholder, docName);
    ArgReduceDocReplacesPlaceholder(docName);
    schema.SetDoc(doc);
    schema.Attr("axis", IntAttr, DefaultValue(IntValue(0)));
    schema.Attr("keepdims", IntAttr, DefaultValue(IntValue(1)));
    schema.Input(0, "data", ConstraintParam("T"));
    schema.Output(0, "reduced", TensorType(Int64));
    schema.TypeConstraint("T", AllNumericTypes);
  }

  function ArgReduceRecord(docName: string): Schema
  {
    ArgReduceFragment(EmptySchema, docName)
  }

  /**
   * An ArgMax/ArgMin record declares `axis` (INT, default 0) and `keepdims`
   * (INT, default 1), input `data` over T = all_numeric_types, output
   * `reduced` fixed to tensor(int64), no inference function, and the
   * substituted documentation.
   */
  lemma ArgReduceRecordContents(docName: string)
    ensures var r := ArgReduceRecord(docName);
      && HasAttr(r, "axis", IntAttr, DefaultValue(IntValue(0)))
      && HasAttr(r, "keepdims", IntAttr, DefaultValue(IntValue(1)))
      && r.attributes.Keys == {"axis", "keepdims"}
      && HasInput(r, 0, "data", ConstraintParam("T"), Single)
      && r.inputs.Keys == {0}
      && HasOutput(r, 0, "reduced", TensorType(Int64), Single)
      && r.outputs.Keys == {0}
      && r.typeConstraints == map["T" := AllNumericTypes]
      && OutputTypes(r, 0) == {Int64}
      && r.inference == None
      && !r.allowsUncheckedAttributes
      && r.doc == ArgReduceDocBefore + docName + ArgReduceDocAfter
  {
    assert "axis" != "keepdims";
  }

  method BuildArgReduce(docName: string) returns (s: OpSchema)
    ensures fresh(s) && s.record == ArgReduceRecord(docName)
  {
    s := new OpSchema();
    ArgReduceDocGenerator(docName, s);
  }

  // ---------------------------------------------------------------------
  // Registrations

  /** ONNX_OPERATOR_SCHEMA(opName, ONNX_DOMAIN, 1, OpSchema().FillUsing(ReduceDocGenerator(docName))). */
  method RegisterReduce(reg: Registry, opName: string, docName: string)
    requires reg.Valid() && SchemaKey(OnnxDomain, opName, 1) !in reg.schemas
    modifies reg
    ensures reg.Valid()
    ensures reg.schemas == old(reg.schemas)[SchemaKey(OnnxDomain, opName, 1) := Stamp(ReduceRecord(docName), opName, OnnxDomain, 1)]
  {
    var s := BuildReduce(docName);
    OperatorSchema(reg, s, opName, OnnxDomain, 1);
  }

  /** ONNX_OPERATOR_SCHEMA(opName, ONNX_DOMAIN, 1, OpSchema().FillUsing(ArgReduceDocGenerator(docName))). */
  method RegisterArgReduce(reg: Registry, opName: string, docName: string)
    requires reg.Valid() && SchemaKey(OnnxDomain, opName, 1) !in reg.schemas
    modifies reg
    ensures reg.Valid()
    ensures reg.schemas == old(reg.schemas)[SchemaKey(OnnxDomain, opName, 1) := Stamp(ArgReduceRecord(docName), opName, OnnxDomain, 1)]
  {
    var s := BuildArgReduce(docName);
    OperatorSchema(reg, s, opName, OnnxDomain, 1);
  }

  /** The twelve reduction operators, in declaration order. */
  const ReductionOps := ["ReduceMax", "ReduceMin", "ReduceSum", "ReduceSumSquare", "ReduceMean", "ReduceProd",
                         "ReduceLogSum", "ReduceLogSumExp", "ReduceL1", "ReduceL2", "ArgMax", "ArgMin"]

  /** The name each one substitutes into its documentation, in the same order. */
  const ReductionDocNames := ["max", "min", "sum", "sum square", "mean", "product",
                              "log sum", "log sum exponent", "L1 norm", "L2 norm", "max", "min"]

  /** The first ten use ReduceDocGenerator, the last two ArgReduceDocGenerator. */
  function ReductionRecord(i: nat): Schema
    requires i < |ReductionOps|
  {
    if i < 10 then ReduceRecord(ReductionDocNames[i]) else ArgReduceRecord(ReductionDocNames[i])
  }

  /** No two reduction operators share a name. */
  lemma ReductionOpsDistinct()
    ensures forall a, b :: 0 <= a < b < |ReductionOps| ==> ReductionOps[a] != ReductionOps[b]
  {
    assert NoDuplicates(ReductionOps, 8);
    assert NoDuplicates(ReductionOps, 5);
    assert NoDuplicates(ReductionOps, 2);
    NoDuplicatesDistinct(ReductionOps, 0);
  }

  /**
   * The file's twelve registrations, run in order into a registry holding
   * none of their identities (an empty one, say), all succeed whatever
   * records the builders assemble, and each record is found under its
   * operator's name, in the default domain, at version 1.
   */
  lemma ReductionRegistrationsSucceed(m: map<SchemaKey, Schema>, records: seq<Schema>)
    requires |records| == |ReductionOps|
    requires forall op :: op in ReductionOps ==> SchemaKey(OnnxDomain, op, 1) !in m
    ensures RegisterInOrder(m, StampAll(records, ReductionOps, OnnxDomain, 1)).Some?
    ensures forall i :: 0 <= i < |ReductionOps| ==>
      var r := RegisterInOrder(m, StampAll(records, ReductionOps, OnnxDomain, 1)).value;
      && SchemaKey(OnnxDomain, ReductionOps[i], 1) in r
      && r[SchemaKey(OnnxDomain, ReductionOps[i], 1)] == Stamp(records[i], ReductionOps[i], OnnxDomain, 1)
  {
    ReductionOpsDistinct();
    UnitRegistrationsSucceed(m, records, ReductionOps, OnnxDomain, 1);
  }

  /** The records of the twelve registrations, in declaration order. */
  const ReductionRecords := seq(|ReductionOps|, k requires 0 <= k < |ReductionOps| => ReductionRecord(k))

  /**
   * The file's static registrations, run in declaration order: the registry
   * ends as the in-order fold of the twelve stamped records, each found under
   * its operator's identity, with every earlier entry kept.
   */
  method RegisterReductionUnit(reg: Registry)
    requires reg.Valid()
    requires forall i :: 0 <= i < |ReductionOps| ==> SchemaKey(OnnxDomain, ReductionOps[i], 1) !in reg.schemas
    modifies reg
    ensures reg.Valid()
    ensures RegisterInOrder(old(reg.schemas), StampAll(ReductionRecords, ReductionOps, OnnxDomain, 1)) == Some(reg.schemas)
    ensures forall i :: 0 <= i < |ReductionOps| ==>
      && SchemaKey(OnnxDomain, ReductionOps[i], 1) in reg.schemas
      && reg.schemas[SchemaKey(OnnxDomain, ReductionOps[i], 1)] == Stamp(ReductionRecord(i), ReductionOps[i], OnnxDomain, 1)
    ensures forall k :: k in old(reg.schemas) ==> k in reg.schemas && reg.schemas[k] == old(reg.schemas)[k]
  {
    ghost var m0 := reg.schemas;
    ReductionOpsDistinct();
    for i := 0 to |ReductionOps|
      invariant reg.Valid()
      invariant RegisterInOrder(m0, StampAll(ReductionRecords, ReductionOps, OnnxDomain, 1)[..i]) == Some(reg.schemas)
      invariant forall j :: i <= j < |ReductionOps| ==> SchemaKey(OnnxDomain, ReductionOps[j], 1) !in reg.schemas
    {
      assert ReductionRecords[i] == ReductionRecord(i);
      RegisterStep(m0, ReductionRecords, ReductionOps, OnnxDomain, 1, i, reg.schemas);
      if i < 10 {
        RegisterReduce(reg, ReductionOps[i], ReductionDocNames[i]);
      } else {
        RegisterArgReduce(reg, ReductionOps[i], ReductionDocNames[i]);
      }
    }
    assert StampAll(ReductionRecords, ReductionOps, OnnxDomain, 1)[..|ReductionOps|] == StampAll(ReductionRecords, ReductionOps, OnnxDomain, 1);
    UnitRegistrationsStore(m0, ReductionRecords, ReductionOps, OnnxDomain, 1);
  }

  /** No reduction operator attaches an inference function. */
  lemma ReductionsHaveNoInference(i: nat)
    requires i < |ReductionOps|
    ensures ReductionRecord(i).inference == None
    ensures i >= 10 ==> OutputTypes(ReductionRecord(i), 0) == {Int64}
    ensures i < 10 ==> OutputTypes(ReductionRecord(i), 0) == HighPrecisionNumericTypes
  {
    if i < 10 {
      ReduceRecordContents(ReductionDocNames[i]);
    } else {
      ArgReduceRecordContents(ReductionDocNames[i]);
    }
  }
}
