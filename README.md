# ONNX operator definitions: experimental, logical and reduction operators

This project models three operator-definition units of ONNX:

- the experimental operators. These are Affine, ThresholdedRelu, ScaledTanh, ParametricSoftplus, ConstantFill, GivenTensorFill, Scale, GRUUnit, ATen, ImageScaler, MeanVarianceNormalization and Crop.
- the logical operators. These are And, Or, Xor, Greater, Less, Equal and Not.
- the reduction operators. These are ReduceMax through ReduceL2, ArgMax and ArgMin.

Each unit declares operator schemas. A schema is built with the `OpSchema` builder, which supplies:

- attributes with their kinds and defaults;
- formal inputs and outputs;
- type constraints;
- documentation;
- optionally, a type-and-shape inference function.

Each schema is then registered under its (domain, name, version) identity.

The model has these parts:

- **`TensorTypes`**: the TensorProto element types, with their numeric codes, and tensor shapes.
  - A shape is either of unknown rank, or a list of dimensions.
  - A dimension is either known or symbolic.
- **`Attributes`**: the attribute values an operator instance carries, and the accessors used on them.
  - The accessors are `getAttribute` with a default and `getRepeatedAttribute`.
- **`InferenceContexts`**: the context an inference function runs in.
  - Its attributes and inputs are read-only.
  - Its outputs are an array of slots.
  - It also carries the propagation helpers the definitions call. These are `updateOutputElemType`, `updateOutputShape`, `propagateElemTypeFromInputToOutput`, `propagateShapeFromInputToOutput`, `propagateElemTypeFromAttributeToOutput`, `propagateShapeFromAttributeToOutput` and `propagateShapeAndTypeFromFirstInput`.
- **`Schemas`**: the schema record, the `OpSchema` builder class, `ReplaceAll`, and the registry class.
  - The registry refuses a second schema with the same identity.
  - `RegisterInOrder` is the pure fold of a unit's static registrations. `OperatorSchema` is one registration.
- **`Experiments`**: the ConstantFill and GivenTensorFill inference functions.
  - The dimension-appending loop is a method with loop invariants.
  - This module also holds the twelve experimental schemas and their registrations.
- **`Logical`**: `logicalOpInference`, `BinaryLogicDocGenerator`, and the seven logical registrations.
- **`Reduction`**: `ReduceDocGenerator`, `ArgReduceDocGenerator`, and the twelve reduction registrations.
- **`Dispatch`**: runs whichever inference function a schema attaches.
  - A schema without one leaves the outputs unchanged.

The main properties proved are these:

- **ConstantFill** inference:
  - the element type comes from `dtype`, with FLOAT as the default;
  - a `shape` attribute wins outright;
  - a non-zero `input_as_shape` leaves the shape as it was, and an absent one counts as 0;
  - otherwise, a known input shape is extended by `extra_shape`, with rank `|input| + |extra|`;
  - one negative extra entry means no shape is written at all;
  - an unknown input shape leaves the output shape as it was;
  - an absent `extra_shape` copies the input shape;
  - the inference is idempotent;
  - the inputs are never written.
- **GivenTensorFill** inference takes its element type from input 0 and shares ConstantFill's shape logic.
- **Logical** inference:
  - always gives BOOL;
  - copies the shape of input 0 only;
  - admits its result under every logical operator's output constraint.
- **Documentation generators**: each replaces `{name}` with the operator's name. The fragment each adds is stated field by field.
- **Registrations**: each unit's registrations succeed in order in a registry that holds none of their identities, the empty one in particular. Each record is then found under its own identity.
  - `RegisterInOrder` succeeds exactly when the identities are pairwise distinct and absent from the registry.
  - Each unit's `Register*` methods, run in declaration order, leave the registry equal to that fold.
- **Reductions**: no reduction operator attaches an inference function.

## Model

| member | source | states |
|---|---|---|
| TensorTypes.FromCode | onnx/defs/experiments/defs.cc:147 | The element type read from a `dtype` code has that code, for every integer. Unknown codes are kept as unrecognised values, not lost. |
| TensorTypes.CodeRoundTrip | onnx/defs/experiments/defs.cc:147 | Converting a well-formed element type to its code and back gives the same element type. |
| TensorTypes.DimsOf | onnx/defs/experiments/defs.cc:149 | A shape written from an integer list has as many dimensions as the list has entries. That each dimension is known and carries its entry's value is stated by Experiments.FillShapeFromAttributeList and Experiments.ExtendedShapeMeaning. |
| TensorTypes.DimsOfAppend | onnx/defs/experiments/defs.cc:158-161 | Appending one value to a list appends its known dimension. |
| TensorTypes.DimsOfConcat | onnx/defs/experiments/defs.cc:158-161 | Writing the dimensions of two concatenated lists gives the concatenation of their dimensions. |
| Attributes.DefaultFallback | onnx/defs/experiments/defs.cc:152 | `getAttribute` with a default returns the default when the attribute is absent, and the carried integer when it is present as INT. |
| Attributes.AbsentListIsEmpty | onnx/defs/experiments/defs.cc:154-155 | `getRepeatedAttribute` reads an absent integer list as the empty list. |
| InferenceContexts.InferenceContext.constructor | onnx/defs/experiments/defs.cc:146 | A fresh context holds the given attributes and inputs, with every output slot unresolved. |
| InferenceContexts.InferenceContext.UpdateOutputElemType | onnx/defs/logical/defs.cc:9 | Output n gets the element type. Its shape and every other output are unchanged. |
| InferenceContexts.InferenceContext.UpdateOutputShape | onnx/defs/experiments/defs.cc:162 | Output n gets the known-rank shape. Its element type and every other output are unchanged. |
| InferenceContexts.InferenceContext.PropagateElemTypeFromInputToOutput | onnx/defs/experiments/defs.cc:179 | Output n takes input i's element type when that is defined, and is left alone otherwise. |
| InferenceContexts.InferenceContext.PropagateShapeFromInputToOutput | onnx/defs/logical/defs.cc:10-12 | Output n takes input i's shape when its rank is known, and is left alone otherwise. |
| InferenceContexts.InferenceContext.PropagateElemTypeFromAttributeToOutput | onnx/defs/experiments/defs.cc:147 | Output n's element type is the one the attribute names, or the default when the attribute is absent. |
| InferenceContexts.InferenceContext.PropagateShapeFromAttributeToOutput | onnx/defs/experiments/defs.cc:148-151 | Output n's shape is the attribute's list, one known dimension per entry. |
| InferenceContexts.PropagateShapeAndTypeFromFirstInput | onnx/defs/experiments/defs.cc:277 | Output 0 takes input 0's element type and, when its rank is known, its shape. Other outputs are unchanged. |
| InferenceContexts.FirstInputCopiesKnownInput | onnx/defs/experiments/defs.cc:290 | A fully known input 0 is copied exactly into output 0. |
| InferenceContexts.FirstInputUnknownRank | onnx/defs/experiments/defs.cc:290 | When input 0's rank is unknown, output 0's shape is untouched, while a known element type is still copied. |
| InferenceContexts.FirstInputIdempotent | onnx/defs/experiments/defs.cc:277 | First-input propagation run twice gives the same result as running it once. |
| Schemas.ReplaceAllNoMatch | onnx/defs/logical/defs.cc:25 | ReplaceAll leaves unchanged a text in which the pattern's first character does not occur. |
| Schemas.ReplaceSinglePlaceholder | onnx/defs/reduction/defs.cc:18 | A template with one placeholder, and no brace outside it, is rewritten to before + name + after. |
| Schemas.OpSchema.constructor | onnx/defs/reduction/defs.cc:40 | The builder starts from the empty schema: no attributes, inputs, outputs, constraints or inference. |
| Schemas.OpSchema.SetName | onnx/defs/reduction/defs.cc:40 | Only the name changes. |
| Schemas.OpSchema.SetDomain | onnx/defs/reduction/defs.cc:40 | Only the domain changes. |
| Schemas.OpSchema.SinceVersion | onnx/defs/reduction/defs.cc:40 | Only the version changes. |
| Schemas.OpSchema.SetDoc | onnx/defs/reduction/defs.cc:19 | Only the documentation changes. |
| Schemas.OpSchema.Attr | onnx/defs/reduction/defs.cc:20-30 | The attribute with its kind and default is added when its name is new. A repeated name keeps the first declaration. |
| Schemas.OpSchema.Input | onnx/defs/reduction/defs.cc:31 | Input slot n is set to the named formal parameter. |
| Schemas.OpSchema.Output | onnx/defs/reduction/defs.cc:32 | Output slot n is set to the named formal parameter. |
| Schemas.OpSchema.TypeConstraint | onnx/defs/reduction/defs.cc:33-36 | The constraint's allowed types are recorded when its name is new. A repeated name keeps the first declaration. |
| Schemas.OpSchema.TypeAndShapeInferenceFunction | onnx/defs/logical/defs.cc:34 | The inference function is attached. Nothing else changes. |
| Schemas.OpSchema.AllowUncheckedAttributes | onnx/defs/experiments/defs.cc:253 | Unchecked attributes become allowed. Nothing else changes. |
| Schemas.Registry.constructor | onnx/defs/experiments/defs.cc:11 | The registry starts empty and well-keyed. |
| Schemas.Registry.Register | onnx/defs/experiments/defs.cc:11 | The schema is stored under its own identity, and that identity must be new. Every other entry is unchanged, and every entry stays stored under its own identity. |
| Schemas.OperatorSchema | onnx/defs/reduction/defs.cc:40-41 | One registration: the builder stamps the name, domain and version, and the registry gains exactly that record under that identity. |
| Schemas.Stamp | onnx/defs/reduction/defs.cc:40 | A stamped record has the given identity. Apart from the three identity fields it equals the original. |
| Schemas.RegisterInOrderSucceeds | onnx/defs/reduction/defs.cc:40-104 | A unit's registrations run in order all succeed exactly when their identities are pairwise distinct and absent from the registry. This is proved in both directions. |
| Schemas.KeysOfCons | onnx/defs/reduction/defs.cc:40-104 | The identities of a non-empty table are the identity of its head together with the identities of its tail. |
| Schemas.RegisterInOrderKeys | onnx/defs/reduction/defs.cc:40-104 | After a successful fold, the registry holds exactly its earlier identities plus the table's identities. |
| Schemas.RegisterInOrderKeepsEarlier | onnx/defs/reduction/defs.cc:40-104 | A successful fold leaves every earlier entry unchanged. |
| Schemas.RegisterInOrderStores | onnx/defs/reduction/defs.cc:40-104 | After a successful fold, every record in the table is found under its own identity. |
| Schemas.RegisterInOrderWellKeyed | onnx/defs/reduction/defs.cc:40-104 | A successful fold keeps every entry stored under its own identity. |
| Schemas.NotInMeaning | onnx/defs/reduction/defs.cc:40-104 | The index-wise absence check means the name differs from every later name. |
| Schemas.NoDuplicatesDistinct | onnx/defs/reduction/defs.cc:40-104 | The index-wise duplicate check means the names are pairwise distinct. |
| Schemas.StampAllDistinct | onnx/defs/reduction/defs.cc:40-104 | Pairwise distinct names give pairwise distinct identities. |
| Schemas.UnitRegistrationsSucceed | onnx/defs/reduction/defs.cc:40-104 | Distinct names, all absent from the registry, register without conflict, and each name's record is found under its identity. |
| Schemas.UnitRegistrationsStore | onnx/defs/reduction/defs.cc:40-104 | After a unit's registrations have succeeded, every stamped record is found under its name's identity and every earlier entry is unchanged. |
| Schemas.RegisterInOrderSnoc | onnx/defs/reduction/defs.cc:40-104 | Registering one more schema whose identity is new, after a successful fold, gives the fold of the longer table. |
| Schemas.RegisterStep | onnx/defs/reduction/defs.cc:40-104 | When the first i registrations of a unit have produced a registry and the rest are still absent, the i-th registration gives the fold of the first i + 1, and the later identities stay absent. |
| Experiments.AppendExtraDims | onnx/defs/experiments/defs.cc:156-163 | The loop gives the input dimensions followed by one known dimension per extra entry. Any negative entry gives no shape at all. |
| Experiments.InferFillShape | onnx/defs/experiments/defs.cc:148-163 | Output 0's shape becomes FillShape of the attributes, the inputs and its prior shape. Its element type and the other outputs are unchanged. |
| Experiments.ConstantFillInference | onnx/defs/experiments/defs.cc:146-164 | Output 0 becomes ConstantFillOutput. No other output changes, and the inputs are read-only. |
| Experiments.GivenTensorFillInference | onnx/defs/experiments/defs.cc:178-197 | Output 0 becomes GivenTensorFillOutput. No other output changes. |
| Experiments.ExtendedShapeMeaning | onnx/defs/experiments/defs.cc:158-161 | There is no result exactly when some extra entry is negative. Otherwise the result is the input dimensions followed by the extra ones, and its rank is the sum of the two lengths. |
| Experiments.FillShapeAttributeWins | onnx/defs/experiments/defs.cc:148-151 | With a `shape` attribute, the result is that list regardless of inputs, `input_as_shape`, `extra_shape` or the prior shape. |
| Experiments.FillShapeFromAttributeList | onnx/defs/experiments/defs.cc:149 | The result has one known dimension per entry of the `shape` list, in order. |
| Experiments.FillShapeDynamicBailOut | onnx/defs/experiments/defs.cc:152-153 | Without `shape`, a non-zero `input_as_shape` leaves the prior shape. |
| Experiments.AbsentInputAsShapeIsZero | onnx/defs/experiments/defs.cc:152 | An absent `input_as_shape` behaves exactly as `input_as_shape = 0`. |
| Experiments.FillShapeExtends | onnx/defs/experiments/defs.cc:154-162 | With a known input shape and no negative extra entry, the result is the input dimensions followed by the extra ones, with rank `|input| + |extra|`. |
| Experiments.FillShapeNegativeExtra | onnx/defs/experiments/defs.cc:159 | A negative extra entry leaves the prior shape: nothing is written. |
| Experiments.FillShapeUnknownInput | onnx/defs/experiments/defs.cc:156 | When input 0's rank is unknown, the prior shape is kept. |
| Experiments.FillShapeNoExtra | onnx/defs/experiments/defs.cc:154-162 | An absent `extra_shape` copies input 0's shape. |
| Experiments.FillShapeIdempotent | onnx/defs/experiments/defs.cc:148-163 | Applying the fill shape logic to its own result changes nothing. |
| Experiments.ConstantFillElemType | onnx/defs/experiments/defs.cc:147 | The element type is FLOAT when `dtype` is absent, and the type named by `dtype` otherwise. The shape is FillShape. |
| Experiments.GivenTensorFillElemType | onnx/defs/experiments/defs.cc:179 | The element type comes from input 0 when that is defined, and otherwise stays. The shape logic equals ConstantFill's. |
| Experiments.FillShapeExamples | onnx/defs/experiments/defs.cc:146-164 | Concrete cases: extension by [5], a negative extra entry, and a dynamic bail-out. |
| Experiments.BuildAffine | onnx/defs/experiments/defs.cc:11-24 | The builder chain yields the Affine record. |
| Experiments.BuildThresholdedRelu | onnx/defs/experiments/defs.cc:26-41 | The builder chain yields the ThresholdedRelu record. |
| Experiments.BuildScaledTanh | onnx/defs/experiments/defs.cc:43-57 | The builder chain yields the ScaledTanh record. |
| Experiments.BuildParametricSoftplus | onnx/defs/experiments/defs.cc:59-72 | The builder chain yields the ParametricSoftplus record. |
| Experiments.BuildConstantFill | onnx/defs/experiments/defs.cc:74-164 | The builder chain yields the ConstantFill record, including its inference function. |
| Experiments.BuildGivenTensorFill | onnx/defs/experiments/defs.cc:166-198 | The builder chain yields the GivenTensorFill record, including its inference function. |
| Experiments.BuildScale | onnx/defs/experiments/defs.cc:200-213 | The builder chain yields the Scale record. |
| Experiments.BuildGRUUnit | onnx/defs/experiments/defs.cc:215-249 | The builder chain yields the GRUUnit record, which has no inference function. |
| Experiments.BuildATen | onnx/defs/experiments/defs.cc:251-263 | The builder chain yields the ATen record: unchecked attributes, variadic slots and no inference function. |
| Experiments.BuildImageScaler | onnx/defs/experiments/defs.cc:265-277 | The builder chain yields the ImageScaler record, with first-input propagation. |
| Experiments.BuildMeanVarianceNormalization | onnx/defs/experiments/defs.cc:279-290 | The builder chain yields the MeanVarianceNormalization record, with first-input propagation. |
| Experiments.BuildCrop | onnx/defs/experiments/defs.cc:292-304 | The builder chain yields the Crop record, which has no inference function. |
| Experiments.RegisterAffine | onnx/defs/experiments/defs.cc:11 | The registry gains the stamped Affine record under (ONNX domain, Affine, 1) and nothing else. |
| Experiments.RegisterThresholdedRelu | onnx/defs/experiments/defs.cc:26 | The registry gains the stamped ThresholdedRelu record and nothing else. |
| Experiments.RegisterScaledTanh | onnx/defs/experiments/defs.cc:43 | The registry gains the stamped ScaledTanh record and nothing else. |
| Experiments.RegisterParametricSoftplus | onnx/defs/experiments/defs.cc:59 | The registry gains the stamped ParametricSoftplus record and nothing else. |
| Experiments.RegisterConstantFill | onnx/defs/experiments/defs.cc:74 | The registry gains the stamped ConstantFill record and nothing else. |
| Experiments.RegisterGivenTensorFill | onnx/defs/experiments/defs.cc:166 | The registry gains the stamped GivenTensorFill record and nothing else. |
| Experiments.RegisterScale | onnx/defs/experiments/defs.cc:200 | The registry gains the stamped Scale record and nothing else. |
| Experiments.RegisterGRUUnit | onnx/defs/experiments/defs.cc:215 | The registry gains the stamped GRUUnit record and nothing else. |
| Experiments.RegisterATen | onnx/defs/experiments/defs.cc:251 | The registry gains the stamped ATen record and nothing else. |
| Experiments.RegisterImageScaler | onnx/defs/experiments/defs.cc:265 | The registry gains the stamped ImageScaler record and nothing else. |
| Experiments.RegisterMeanVarianceNormalization | onnx/defs/experiments/defs.cc:279 | The registry gains the stamped MeanVarianceNormalization record and nothing else. |
| Experiments.RegisterCrop | onnx/defs/experiments/defs.cc:292 | The registry gains the stamped Crop record and nothing else. |
| Experiments.ExperimentalOpsDistinct | onnx/defs/experiments/defs.cc:11-304 | No two of the twelve experimental registrations use the same operator name. |
| Experiments.ExperimentalRegistrationsSucceed | onnx/defs/experiments/defs.cc:11-304 | The twelve experimental registrations succeed in order, whatever records the builders assemble, in a registry holding none of them. Each record is found under its name. |
| Experiments.RegisterExperimentalAt | onnx/defs/experiments/defs.cc:11-304 | The i-th registration of the file, by that operator's own Register method, adds exactly the i-th stamped record. |
| Experiments.RegisterExperimentalUnit | onnx/defs/experiments/defs.cc:11-304 | The twelve registrations, run by their own Register methods in declaration order in a registry holding none of them, leave the registry equal to the in-order fold of the stamped records. Each record is then found under its identity, and every earlier entry is unchanged. |
| Logical.LogicalOpInference | onnx/defs/logical/defs.cc:8-13 | Output 0 becomes BOOL and takes input 0's shape when that is known. Other outputs are unchanged. |
| Logical.LogicalOutputMeaning | onnx/defs/logical/defs.cc:8-13 | The element type is always BOOL. The shape is input 0's when its rank is known, and otherwise the prior shape. |
| Logical.LogicalOutputReadsOnlyFirstShape | onnx/defs/logical/defs.cc:10-12 | Two input lists that agree on input 0's shape give the same output. Input 1, and input 0's element type, are never read. |
| Logical.LogicalOutputIdempotent | onnx/defs/logical/defs.cc:8-13 | Logical inference run twice gives the same result as running it once. |
| Logical.BinaryLogicDocReplacesPlaceholder | onnx/defs/logical/defs.cc:17-25 | Replacing `{name}` in the template gives the documentation with the operator's name in the placeholder's place. |
| Logical.BinaryLogicDocGenerator | onnx/defs/logical/defs.cc:15-36 | Applying the generator adds exactly the binary logic fragment to the schema. |
| Logical.BinaryLogicFragmentDeclares | onnx/defs/logical/defs.cc:26-34 | The fragment declares: `broadcast` INT with default 0; `axis` INT optional; A and B as inputs 0 and 1 over T; C as output 0 over T1; and logical inference. The identity and the constraints are unchanged. |
| Logical.BinaryLogicRecordContents | onnx/defs/logical/defs.cc:38-78 | A binary logical record has exactly the attributes broadcast and axis, the inputs 0 and 1, and the output 0. Its constraints are T = the input types and T1 = {bool}. Its output types are {bool}. |
| Logical.BuildBinaryLogic | onnx/defs/logical/defs.cc:38-43 | The builder chain, the generator followed by the T and T1 constraints, yields the binary logical record. |
| Logical.BuildNot | onnx/defs/logical/defs.cc:80-88 | The builder chain yields the Not record: X to Y over T = {bool}, with logical inference. |
| Logical.RegisterAnd | onnx/defs/logical/defs.cc:38-43 | The registry gains And, with T = {bool}. |
| Logical.RegisterOr | onnx/defs/logical/defs.cc:45-50 | The registry gains Or, with T = {bool}. |
| Logical.RegisterXor | onnx/defs/logical/defs.cc:52-57 | The registry gains Xor, with T = {bool}. |
| Logical.RegisterGreater | onnx/defs/logical/defs.cc:59-64 | The registry gains Greater, with T = {float16, float, double}. |
| Logical.RegisterLess | onnx/defs/logical/defs.cc:66-71 | The registry gains Less, with T = {float16, float, double}. |
| Logical.RegisterEqual | onnx/defs/logical/defs.cc:73-78 | The registry gains Equal, with T = {bool, int32, int64}. |
| Logical.RegisterNot | onnx/defs/logical/defs.cc:80-88 | The registry gains Not. |
| Logical.LogicalOutputsAreBool | onnx/defs/logical/defs.cc:38-88 | Every logical record attaches logical inference, and its output 0 admits exactly {bool}. The inferred element type lies in that set. |
| Logical.LogicalOpsDistinct | onnx/defs/logical/defs.cc:38-88 | No two of the seven logical registrations use the same operator name. |
| Logical.LogicalRegistrationsSucceed | onnx/defs/logical/defs.cc:38-88 | The seven logical registrations succeed in order in a registry holding none of them. Each record is found under its name. |
| Logical.RegisterLogicalAt | onnx/defs/logical/defs.cc:38-88 | The i-th registration of the file, by that operator's own Register method, adds exactly the i-th stamped record. |
| Logical.RegisterLogicalUnit | onnx/defs/logical/defs.cc:38-88 | The seven registrations, run by their own Register methods in declaration order in a registry holding none of them, leave the registry equal to the in-order fold of the stamped records. Each record is then found under its identity, and every earlier entry is unchanged. |
| Reduction.ReduceDocReplacesPlaceholder | onnx/defs/reduction/defs.cc:11-18 | Replacing `{name}` in the Reduce template gives the documentation with the name in the placeholder's place. |
| Reduction.ReduceDocGenerator | onnx/defs/reduction/defs.cc:9-38 | Applying the generator adds exactly the reduce fragment. |
| Reduction.ReduceRecordContents | onnx/defs/reduction/defs.cc:19-36 | A Reduce record has `axes` INTS optional and `keepdims` INT with default 1, and no other attribute. Its input `data` and output `reduced` are over T = high_precision_numeric_types. It has no inference, and its documentation is substituted. |
| Reduction.BuildReduce | onnx/defs/reduction/defs.cc:40-41 | A fresh builder filled using the generator yields the Reduce record. |
| Reduction.ArgReduceDocReplacesPlaceholder | onnx/defs/reduction/defs.cc:72-77 | Replacing `{name}` in the ArgReduce template gives the documentation with the name in the placeholder's place. |
| Reduction.ArgReduceDocGenerator | onnx/defs/reduction/defs.cc:70-100 | Applying the generator adds exactly the arg-reduce fragment. |
| Reduction.ArgReduceRecordContents | onnx/defs/reduction/defs.cc:78-98 | An ArgReduce record has `axis` INT with default 0 and `keepdims` INT with default 1. Its input `data` is over T = all_numeric_types, and its output `reduced` is fixed to tensor(int64), so its output types are {int64}. It has no inference. |
| Reduction.BuildArgReduce | onnx/defs/reduction/defs.cc:102 | A fresh builder filled using the generator yields the ArgReduce record. |
| Reduction.RegisterReduce | onnx/defs/reduction/defs.cc:40-68 | The registry gains the stamped Reduce record under the operator's identity and nothing else. |
| Reduction.RegisterArgReduce | onnx/defs/reduction/defs.cc:102-104 | The registry gains the stamped ArgReduce record under the operator's identity and nothing else. |
| Reduction.ReductionOpsDistinct | onnx/defs/reduction/defs.cc:40-104 | No two of the twelve reduction registrations use the same operator name. |
| Reduction.ReductionRegistrationsSucceed | onnx/defs/reduction/defs.cc:40-104 | The twelve reduction registrations succeed in order in a registry holding none of them, the empty one included. Each record is found under its name. |
| Reduction.RegisterReductionUnit | onnx/defs/reduction/defs.cc:40-104 | The twelve registrations, run in declaration order in a registry holding none of them, leave the registry equal to the in-order fold of the stamped records. The first ten use RegisterReduce and the last two RegisterArgReduce. Each record is then found under its identity, and every earlier entry is unchanged. |
| Reduction.ReductionsHaveNoInference | onnx/defs/reduction/defs.cc:40-104 | No reduction record attaches inference. Output 0 admits high_precision_numeric_types for the ten Reduce operators and {int64} for ArgMax and ArgMin. |
| Dispatch.InferredOutputs | onnx/defs/logical/defs.cc:34 | Running a schema's inference keeps the number of outputs and never changes outputs other than 0. A schema without inference changes nothing. |
| Dispatch.RunInference | onnx/defs/experiments/defs.cc:146 | The context's outputs become InferredOutputs of the schema's inference function. |
| Dispatch.InferenceIdempotent | onnx/defs/experiments/defs.cc:146-197 | Each of the four inference functions run twice gives the same result as running it once. |
| Dispatch.ExperimentalInference | onnx/defs/experiments/defs.cc:24-304 | Affine, ThresholdedRelu, ScaledTanh, ParametricSoftplus, Scale, ImageScaler and MeanVarianceNormalization give first-input propagation. GRUUnit, ATen and Crop leave the outputs as they were. ConstantFill and GivenTensorFill give their fill outputs. |
| Dispatch.LogicalInferenceMeetsConstraint | onnx/defs/logical/defs.cc:38-88 | Every logical operator's inferred output type is admitted by its own output constraint, and the inferred shape is input 0's when known. |
| Dispatch.ReductionInferenceLeavesOutputs | onnx/defs/reduction/defs.cc:40-104 | Inference on any reduction schema leaves every output as it was. |

## Left out

- The schema builder, the registry and the inference helpers are defined in onnx/defs/schema.h, onnx/defs/schema.cc and onnx/defs/shape_inference.h, and those files are not part of this model. They are modelled from the way these three units use them.
- Schema lookup is in onnx/defs/schema.cc, which is not part of this model. `Schemas.Registry.Lookup` is kept as the exact-(domain, name, version) lookup the registry is read through, and no line of these units calls it.
- Numeric kernels: no operator's computation is modelled, only its declaration.
- The protobuf layout of types, shapes and attributes. Dimensions are unbounded integers, not int64.
- A dimension's symbolic name: an unknown dimension carries no name.
- Reduction shape inference and broadcast-union shapes. These are not attached by these units, so they are not modelled.
- Validation that `dtype` is a valid enumerator, that `shape` and input 0 are not both given, and that `shape` has no negative entries. ONNX does not check these in these inference functions. An unrecognised `dtype` code is kept as an unrecognised element type.
- Error reporting for an attribute of the wrong kind. The accessors read it as absent, or as the empty list.
- Documentation: each template is abbreviated to its first sentence, which holds the placeholder. The experimental operators' documentation and the attribute, input and output descriptions are not kept.
- Support levels (EXPERIMENTAL), the builder's Finalize step and its checks, and other per-schema metadata.
- Static initialisation: a unit's registrations are modelled in declaration order, by the `RegisterInOrder` fold, by one `Register*` method per macro, and by one `Register*Unit` method per file that runs those methods in order. The order across units is not modelled, and neither is thread safety.
- OpSchema builder: all of its fields are held as one `Schema` record value, which each builder method replaces.
- Registration lemmas: the lemmas about a unit's registrations are stated for any records the builders produce, not for the literal records. The `Build*` methods state the literal records.
- ReplaceAll: `std::string::find` and the in-place rewriting of the string buffer are not modelled. The model scans the text left to right and builds a new string.
- Reduction.RegisterReduce: the ten ReduceX registrations share one method, parametrised by operator name and documentation name. ArgMax and ArgMin share RegisterArgReduce.
- Refinement of output types and shapes: `UpdateOutputElemType` and `UpdateOutputShape` overwrite the slot, as the ONNX helpers do. For example, a `shape` attribute replaces a shape already known for output 0. An element type or shape is kept once set only by the caller's merge of inferred and existing types, which is not part of this model.
