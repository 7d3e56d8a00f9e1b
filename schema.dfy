/**
 * Operator schemas: the declarative record of one versioned operator, the
 * fluent builder that assembles it, and the registry keyed by
 * (domain, name, version) that stores it.
 */
module Schemas {

  import opened Wrappers
  import opened TensorTypes
  import opened Attributes

  /** Whether an attribute must be given, may be omitted, or has a default value. */
  datatype AttrDefault = RequiredAttr | OptionalAttr | DefaultValue(value: AttrValue)

  datatype AttrSpec = AttrSpec(kind: AttrKind, default: AttrDefault)

  /** The cardinality of an input or output slot. */
  datatype FormalOption = Single | Optional | Variadic

  /**
   * The type a slot declares: the name of a type constraint of the schema,
   * or one fixed tensor type such as "tensor(int64)".
   */
  datatype TypeRef = ConstraintParam(constraint: string) | TensorType(elemType: ElemType)

  datatype FormalParameter = FormalParameter(name: string, typeRef: TypeRef, option: FormalOption)

  /** The inference functions the operator definitions attach. */
  datatype InferenceFunction =
    | FirstInputPropagation   // propagateShapeAndTypeFromFirstInput
    | LogicalOp               // logicalOpInference
    | ConstantFillShape       // the ConstantFill lambda
    | GivenTensorFillShape    // the GivenTensorFill lambda

  datatype Schema = Schema(
    name: string,
    domain: string,
    sinceVersion: int,
    doc: string,
    attributes: map<string, AttrSpec>,
    inputs: map<nat, FormalParameter>,
    outputs: map<nat, FormalParameter>,
    typeConstraints: map<string, set<ElemType>>,
    allowsUncheckedAttributes: bool,
    inference: Option<InferenceFunction>)

  /** The record a fresh builder starts from. */
  const EmptySchema := Schema("", "", 1, "", map[], map[], map[], map[], false, None)

  /** The registry's identity of a schema. */
  datatype SchemaKey = SchemaKey(domain: string, name: string, version: int)

  function KeyOf(s: Schema): SchemaKey
  {
    SchemaKey(s.domain, s.name, s.sinceVersion)
  }

  /** The default operator domain. */
  const OnnxDomain := ""

  /** The element types of high_precision_numeric_types(). */
  const HighPrecisionNumericTypes: set<ElemType> := {UInt32, UInt64, Int32, Int64, Float16, Float, Double}

  /** The element types of all_numeric_types(). */
  const AllNumericTypes: set<ElemType> :=
    {UInt8, UInt16, UInt32, UInt64, Int8, Int16, Int32, Int64, Float16, Float, Double}

  /** The float tensor types most experimental operators are constrained to. */
  const FloatTypes: set<ElemType> := {Float16, Float, Double}

  /** Map insertion that keeps an entry already present under the key. */
  function Insert<K, V>(m: map<K, V>, k: K, v: V): map<K, V>
  {
    if k in m then m else m[k := v]
  }

  // Builder steps on the record.

  function WithAttr(s: Schema, name: string, kind: AttrKind, default: AttrDefault): Schema
  {
    s.(attributes := Insert(s.attributes, name, AttrSpec(kind, default)))
  }

  function WithInput(s: Schema, n: nat, name: string, t: TypeRef, option: FormalOption): Schema
  {
    s.(inputs := s.inputs[n := FormalParameter(name, t, option)])
  }

  function WithOutput(s: Schema, n: nat, name: string, t: TypeRef, option: FormalOption): Schema
  {
    s.(outputs := s.outputs[n := FormalParameter(name, t, option)])
  }

  function WithTypeConstraint(s: Schema, name: string, allowed: set<ElemType>): Schema
  {
    s.(typeConstraints := Insert(s.typeConstraints, name, allowed))
  }

  // Queries on a record.

  predicate HasAttr(s: Schema, name: string, kind: AttrKind, default: AttrDefault)
  {
    name in s.attributes && s.attributes[name] == AttrSpec(kind, default)
  }

  predicate HasInput(s: Schema, n: nat, name: string, t: TypeRef, option: FormalOption)
  {
    n in s.inputs && s.inputs[n] == FormalParameter(name, t, option)
  }

  predicate HasOutput(s: Schema, n: nat, name: string, t: TypeRef, option: FormalOption)
  {
    n in s.outputs && s.outputs[n] == FormalParameter(name, t, option)
  }

  /**
   * The element types output `n` may have: its fixed tensor type, the set of
   * the constraint it names, or nothing when it names no constraint.
   */
  function OutputTypes(s: Schema, n: nat): set<ElemType>
  {
    if n !in s.outputs then {}
    else match s.outputs[n].typeRef
      case TensorType(t) => {t}
      case ConstraintParam(c) => if c in s.typeConstraints then s.typeConstraints[c] else {}
  }

  /** The placeholder the documentation generators substitute the operator's name for. */
  const Placeholder := "{name}"

  /**
   * ReplaceAll: every occurrence of `pattern`, scanning left to right, is
   * replaced by `replacement`; the scan resumes after the inserted text.
   */
  function ReplaceAll(s: string, pattern: string, replacement: string): string
    requires pattern != []
    decreases |s|
  {
    if |s| < |pattern| then s
    else if s[..|pattern|] == pattern then replacement + ReplaceAll(s[|pattern|..], pattern, replacement)
    else [s[0]] + ReplaceAll(s[1..], pattern, replacement)
  }

  /** Text that lacks the pattern's first character is left as it is. */
  lemma {:induction false} ReplaceAllNoMatch(s: string, pattern: string, replacement: string)
    requires pattern != [] && pattern[0] !in s
    ensures ReplaceAll(s, pattern, replacement) == s
    decreases |s|
  {
    if |s| >= |pattern| {
      assert s[..|pattern|][0] == s[0];
      assert s[0] in s;
      assert s[..|pattern|] != pattern;
      ReplaceAllNoMatch(s[1..], pattern, replacement);
      assert s == [s[0]] + s[1..];
    }
  }

  /**
   * A template holding the placeholder once, with the placeholder's first
   * character nowhere else, has exactly that occurrence replaced.
   */
  lemma {:induction false} ReplaceSinglePlaceholder(before: string, pattern: string, after: string, replacement: string)
    requires pattern != []
    requires pattern[0] !in before && pattern[0] !in after
    ensures ReplaceAll(before + pattern + after, pattern, replacement) == before + replacement + after
    decreases |before|
  {
    var s := before + pattern + after;
    if before == [] {
      assert s == pattern + after;
      assert s[..|pattern|] == pattern;
      assert s[|pattern|..] == after;
      ReplaceAllNoMatch(after, pattern, replacement);
    } else {
      var rest := before[1..];
      assert s[0] == before[0];
      assert s[..|pattern|] != pattern by {
        assert before[0] in before;
        assert s[..|pattern|][0] == before[0];
      }
      assert s[1..] == rest + pattern + after;
      assert ReplaceAll(s, pattern, replacement) == [s[0]] + ReplaceAll(s[1..], pattern, replacement);
      ReplaceSinglePlaceholder(rest, pattern, after, replacement);
      assert before == [before[0]] + rest;
    }
  }

  /**
   * OpSchema: the fluent builder of one schema. Its fields are kept together
   * as the record they make up; every step replaces the record.
   */
  class OpSchema {
    /** The record the builder has assembled so far. */
    var record: Schema

    constructor ()
      ensures record == EmptySchema
    {
      record := EmptySchema;
    }

    method SetName(n: string)
      modifies this
      ensures record == old(record).(name := n)
    {
      record := record.(name := n);
    }

    method SetDomain(d: string)
      modifies this
      ensures record == old(record).(domain := d)
    {
      record := record.(domain := d);
    }

    method SinceVersion(v: int)
      modifies this
      ensures record == old(record).(sinceVersion := v)
    {
      record := record.(sinceVersion := v);
    }

    method SetDoc(d: string)
      modifies this
      ensures record == old(record).(doc := d)
    {
      record := record.(doc := d);
    }

    /** Attr: declares an attribute; a name already declared keeps its first declaration. */
    method Attr(attrName: string, kind: AttrKind, default: AttrDefault)
      modifies this
      ensures record == WithAttr(old(record), attrName, kind, default)
    {
      record := WithAttr(record, attrName, kind, default);
    }

    /** Input: declares input slot `n`, replacing an earlier declaration of that index. */
    method Input(n: nat, paramName: string, t: TypeRef, option: FormalOption := Single)
      modifies this
      ensures record == WithInput(old(record), n, paramName, t, option)
    {
      record := WithInput(record, n, paramName, t, option);
    }

    /** Output: declares output slot `n`, replacing an earlier declaration of that index. */
    method Output(n: nat, paramName: string, t: TypeRef, option: FormalOption := Single)
      modifies this
      ensures record == WithOutput(old(record), n, paramName, t, option)
    {
      record := WithOutput(record, n, paramName, t, option);
    }

    /** TypeConstraint: names a set of allowed element types; a name already declared keeps its first set. */
    method TypeConstraint(constraintName: string, allowed: set<ElemType>)
      modifies this
      ensures record == WithTypeConstraint(old(record), constraintName, allowed)
    {
      record := WithTypeConstraint(record, constraintName, allowed);
    }

    method TypeAndShapeInferenceFunction(f: InferenceFunction)
      modifies this
      ensures record == old(record).(inference := Some(f))
    {
      record := record.(inference := Some(f));
    }

    method AllowUncheckedAttributes()
      modifies this
      ensures record == old(record).(allowsUncheckedAttributes := true)
    {
      record := record.(allowsUncheckedAttributes := true);
    }
  }

  /** Every schema of the table is stored under its own identity. */
  ghost predicate WellKeyed(m: map<SchemaKey, Schema>)
  {
    forall k {:trigger KeyOf(m[k])} :: k in m ==> KeyOf(m[k]) == k
  }

  /** The table of registered schemas, keyed by (domain, name, version). */
  class Registry {
    var schemas: map<SchemaKey, Schema>

    ghost predicate Valid()
      reads this
    {
      WellKeyed(schemas)
    }

    constructor ()
      ensures Valid() && schemas == map[]
    {
      schemas := map[];
    }

    /** Register: a duplicate identity is a fatal construction-time error, so the key must be new. */
    method Register(s: OpSchema)
      requires Valid()
      requires KeyOf(s.record) !in schemas
      modifies this
      ensures Valid()
      ensures schemas == old(schemas)[KeyOf(s.record) := s.record]
    {
      schemas := schemas[KeyOf(s.record) := s.record];
    }

    /** Lookup by exact (domain, name, version); not-found is an ordinary outcome. */
    function Lookup(domain: string, name: string, version: int): (r: Option<Schema>)
      requires Valid()
      reads this
      ensures r.Some? <==> SchemaKey(domain, name, version) in schemas
      ensures r.Some? ==> r.value.domain == domain && r.value.name == name && r.value.sinceVersion == version
      ensures r.Some? ==> r.value == schemas[SchemaKey(domain, name, version)]
    {
      var k := SchemaKey(domain, name, version);
      if k in schemas then assert KeyOf(schemas[k]) == k; Some(schemas[k]) else None
    }
  }

  /**
   * ONNX_OPERATOR_SCHEMA(name, domain, version, builder): stamps the identity
   * on the assembled builder and registers its record.
   */
  method OperatorSchema(reg: Registry, s: OpSchema, name: string, domain: string, version: int)
    requires reg.Valid()
    requires SchemaKey(domain, name, version) !in reg.schemas
    modifies reg, s
    ensures reg.Valid()
    ensures s.record == Stamp(old(s.record), name, domain, version)
    ensures reg.schemas == old(reg.schemas)[SchemaKey(domain, name, version) := s.record]
  {
    s.SetName(name);
    s.SetDomain(domain);
    s.SinceVersion(version);
    reg.Register(s);
  }

  /** The record with the identity ONNX_OPERATOR_SCHEMA stamps on it. */
  function Stamp(r: Schema, name: string, domain: string, version: int): (s: Schema)
    ensures KeyOf(s) == SchemaKey(domain, name, version)
    ensures s.(name := r.name, domain := r.domain, sinceVersion := r.sinceVersion) == r
  {
    r.(name := name, domain := domain, sinceVersion := version)
  }

  /**
   * The static registrations of one translation unit, run in declaration
   * order: None when one of them meets an identity already registered, which
   * aborts the process.
   */
  function RegisterInOrder(m: map<SchemaKey, Schema>, table: seq<Schema>): Option<map<SchemaKey, Schema>>
    decreases |table|
  {
    if table == [] then Some(m)
    else if KeyOf(table[0]) in m then None
    else RegisterInOrder(m[KeyOf(table[0]) := table[0]], table[1..])
  }

  /** No two schemas of the table share an identity. */
  predicate DistinctKeys(table: seq<Schema>)
  {
    forall i, j :: 0 <= i < j < |table| ==> KeyOf(table[i]) != KeyOf(table[j])
  }

  /** None of the table's identities is registered yet. */
  predicate AllAbsent(m: map<SchemaKey, Schema>, table: seq<Schema>)
  {
    forall i :: 0 <= i < |table| ==> KeyOf(table[i]) !in m
  }

  function KeysOf(table: seq<Schema>): set<SchemaKey>
  {
    set i | 0 <= i < |table| :: KeyOf(table[i])
  }

  /** The registrations all succeed exactly when their identities are distinct and new. */
  lemma {:induction false} RegisterInOrderSucceeds(m: map<SchemaKey, Schema>, table: seq<Schema>)
    ensures RegisterInOrder(m, table).Some? <==> DistinctKeys(table) && AllAbsent(m, table)
    decreases |table|
  {
    if table != [] {
      var k := KeyOf(table[0]);
      RegisterInOrderSucceeds(m[k := table[0]], table[1..]);
      if k !in m {
        if DistinctKeys(table[1..]) && AllAbsent(m[k := table[0]], table[1..]) {
          forall i, j | 0 <= i < j < |table|
            ensures KeyOf(table[i]) != KeyOf(table[j])
          {
            if i == 0 {
              assert KeyOf(table[1..][j - 1]) !in m[k := table[0]];
            } else {
              assert table[i] == table[1..][i - 1] && table[j] == table[1..][j - 1];
            }
          }
          forall i | 0 <= i < |table|
            ensures KeyOf(table[i]) !in m
          {
            if i > 0 {
              assert table[i] == table[1..][i - 1];
            }
          }
        }
        if DistinctKeys(table) && AllAbsent(m, table) {
          forall i, j | 0 <= i < j < |table[1..]|
            ensures KeyOf(table[1..][i]) != KeyOf(table[1..][j])
          {
            assert table[1..][i] == table[i + 1] && table[1..][j] == table[j + 1];
          }
          forall i | 0 <= i < |table[1..]|
            ensures KeyOf(table[1..][i]) !in m[k := table[0]]
          {
            assert table[1..][i] == table[i + 1];
            assert KeyOf(table[0]) != KeyOf(table[i + 1]);
          }
        }
      } else {
        assert !AllAbsent(m, table) by {
          assert KeyOf(table[0]) in m;
        }
      }
    }
  }

  lemma KeysOfCons(table: seq<Schema>)
    requires table != []
    ensures KeysOf(table) == {KeyOf(table[0])} + KeysOf(table[1..])
  {
    forall x | x in KeysOf(table)
      ensures x in {KeyOf(table[0])} + KeysOf(table[1..])
    {
      var i :| 0 <= i < |table| && KeyOf(table[i]) == x;
      if i > 0 {
        assert table[1..][i - 1] == table[i];
      }
    }
    forall x | x in KeysOf(table[1..])
      ensures x in KeysOf(table)
    {
      var i :| 0 <= i < |table[1..]| && KeyOf(table[1..][i]) == x;
      assert table[1..][i] == table[i + 1];
    }
  }

  /** Successful registrations add exactly the table's identities. */
  lemma {:induction false} RegisterInOrderKeys(m: map<SchemaKey, Schema>, table: seq<Schema>)
    requires RegisterInOrder(m, table).Some?
    ensures RegisterInOrder(m, table).value.Keys == m.Keys + KeysOf(table)
    decreases |table|
  {
    if table != [] {
      RegisterInOrderKeys(m[KeyOf(table[0]) := table[0]], table[1..]);
      KeysOfCons(table);
    }
  }

  /** Successful registrations change no schema registered before them. */
  lemma {:induction false} RegisterInOrderKeepsEarlier(m: map<SchemaKey, Schema>, table: seq<Schema>, k: SchemaKey)
    requires RegisterInOrder(m, table).Some? && k in m
    ensures k in RegisterInOrder(m, table).value && RegisterInOrder(m, table).value[k] == m[k]
    decreases |table|
  {
    if table != [] {
      RegisterInOrderKeepsEarlier(m[KeyOf(table[0]) := table[0]], table[1..], k);
    }
  }

  /** After successful registrations, every schema of the table is found under its own identity. */
  lemma {:induction false} RegisterInOrderStores(m: map<SchemaKey, Schema>, table: seq<Schema>, i: nat)
    requires RegisterInOrder(m, table).Some? && i < |table|
    ensures KeyOf(table[i]) in RegisterInOrder(m, table).value
    ensures RegisterInOrder(m, table).value[KeyOf(table[i])] == table[i]
    decreases |table|
  {
    var m' := m[KeyOf(table[0]) := table[0]];
    if i == 0 {
      RegisterInOrderKeepsEarlier(m', table[1..], KeyOf(table[0]));
    } else {
      RegisterInOrderStores(m', table[1..], i - 1);
      assert table[1..][i - 1] == table[i];
    }
  }

  /** Registrations keep every schema stored under its own identity. */
  lemma {:induction false} RegisterInOrderWellKeyed(m: map<SchemaKey, Schema>, table: seq<Schema>)
    requires RegisterInOrder(m, table).Some? && WellKeyed(m)
    ensures WellKeyed(RegisterInOrder(m, table).value)
    decreases |table|
  {
    if table != [] {
      var k := KeyOf(table[0]);
      var m' := m[k := table[0]];
      assert WellKeyed(m') by {
        forall x | x in m'
          ensures KeyOf(m'[x]) == x
        {
          if x != k {
            assert m'[x] == m[x];
          }
        }
      }
      RegisterInOrderWellKeyed(m', table[1..]);
    }
  }

  /** One more registration after a successful fold registers that record last. */
  lemma {:induction false} RegisterInOrderSnoc(m: map<SchemaKey, Schema>, table: seq<Schema>, x: Schema)
    requires RegisterInOrder(m, table).Some?
    requires KeyOf(x) !in RegisterInOrder(m, table).value
    ensures RegisterInOrder(m, table + [x]) == Some(RegisterInOrder(m, table).value[KeyOf(x) := x])
    decreases |table|
  {
    if table == [] {
      assert [] + [x] == [x];
      assert [x][1..] == [];
    } else {
      assert (table + [x])[0] == table[0];
      assert (table + [x])[1..] == table[1..] + [x];
      RegisterInOrderSnoc(m[KeyOf(table[0]) := table[0]], table[1..], x);
    }
  }

  /** Each record stamped with the identity of the same position. */
  function StampAll(records: seq<Schema>, names: seq<string>, domain: string, version: int): (t: seq<Schema>)
    requires |records| == |names|
    ensures |t| == |names|
  {
    seq(|names|, i requires 0 <= i < |names| => Stamp(records[i], names[i], domain, version))
  }

  /**
   * One step of a translation unit's registrations in declaration order:
   * when the first `i` have produced `before` and the rest are still absent,
   * registering the `i`-th gives the fold of the first `i + 1`, and the rest
   * stay absent.
   */
  lemma RegisterStep(m0: map<SchemaKey, Schema>, records: seq<Schema>, names: seq<string>, domain: string,
                     version: int, i: nat, before: map<SchemaKey, Schema>)
    requires |records| == |names| && i < |names|
    requires forall a, b :: 0 <= a < b < |names| ==> names[a] != names[b]
    requires RegisterInOrder(m0, StampAll(records, names, domain, version)[..i]) == Some(before)
    requires forall j :: i <= j < |names| ==> SchemaKey(domain, names[j], version) !in before
    ensures var after := before[SchemaKey(domain, names[i], version) := Stamp(records[i], names[i], domain, version)];
      && RegisterInOrder(m0, StampAll(records, names, domain, version)[..i + 1]) == Some(after)
      && forall j :: i < j < |names| ==> SchemaKey(domain, names[j], version) !in after
  {
    var table := StampAll(records, names, domain, version);
    assert table[i] == Stamp(records[i], names[i], domain, version);
    RegisterInOrderSnoc(m0, table[..i], table[i]);
    assert table[..i + 1] == table[..i] + [table[i]];
  }

  /** `x` differs from every name at position `from` or later. */
  predicate NotIn(x: string, names: seq<string>, from: nat)
    decreases |names| - from
  {
    from >= |names| || (x != names[from] && NotIn(x, names, from + 1))
  }

  /** No name at position `from` or later occurs twice. */
  predicate NoDuplicates(names: seq<string>, from: nat)
    decreases |names| - from
  {
    from >= |names| || (NotIn(names[from], names, from + 1) && NoDuplicates(names, from + 1))
  }

  lemma {:induction false} NotInMeaning(x: string, names: seq<string>, from: nat)
    requires NotIn(x, names, from)
    ensures forall j :: from <= j < |names| ==> x != names[j]
    decreases |names| - from
  {
    if from < |names| {
      NotInMeaning(x, names, from + 1);
    }
  }

  lemma {:induction false} NoDuplicatesDistinct(names: seq<string>, from: nat)
    requires NoDuplicates(names, from)
    ensures forall i, j :: from <= i < j < |names| ==> names[i] != names[j]
    decreases |names| - from
  {
    if from < |names| {
      NotInMeaning(names[from], names, from + 1);
      NoDuplicatesDistinct(names, from + 1);
    }
  }

  /** Distinct names in one domain and version give distinct identities. */
  lemma StampAllDistinct(records: seq<Schema>, names: seq<string>, domain: string, version: int)
    requires |records| == |names|
    requires forall i, j :: 0 <= i < j < |names| ==> names[i] != names[j]
    ensures DistinctKeys(StampAll(records, names, domain, version))
  {
  }

  /**
   * After a unit's registrations have succeeded, every stamped record is
   * found under its operator's identity and every earlier entry is kept.
   */
  lemma UnitRegistrationsStore(m: map<SchemaKey, Schema>, records: seq<Schema>, names: seq<string>,
                               domain: string, version: int)
    requires |records| == |names|
    requires RegisterInOrder(m, StampAll(records, names, domain, version)).Some?
    ensures var r := RegisterInOrder(m, StampAll(records, names, domain, version)).value;
      && (forall i :: 0 <= i < |names| ==>
            && SchemaKey(domain, names[i], version) in r
            && r[SchemaKey(domain, names[i], version)] == Stamp(records[i], names[i], domain, version))
      && (forall k :: k in m ==> k in r && r[k] == m[k])
  {
    var t := StampAll(records, names, domain, version);
    var r := RegisterInOrder(m, t).value;
    forall i | 0 <= i < |names|
      ensures SchemaKey(domain, names[i], version) in r
      ensures r[SchemaKey(domain, names[i], version)] == Stamp(records[i], names[i], domain, version)
    {
      assert t[i] == Stamp(records[i], names[i], domain, version);
      RegisterInOrderStores(m, t, i);
    }
    forall k | k in m
      ensures k in r && r[k] == m[k]
    {
      RegisterInOrderKeepsEarlier(m, t, k);
    }
  }

  /**
   * The registrations of one translation unit, whose operator names are
   * distinct, stamping each record with its name in one domain and version,
   * succeed in a registry holding none of those identities, and every record
   * is then found under its own identity.
   */
  lemma UnitRegistrationsSucceed(m: map<SchemaKey, Schema>, records: seq<Schema>, names: seq<string>,
                                 domain: string, version: int)
    requires |records| == |names|
    requires forall a, b :: 0 <= a < b < |names| ==> names[a] != names[b]
    requires forall i :: 0 <= i < |names| ==> SchemaKey(domain, names[i], version) !in m
    ensures RegisterInOrder(m, StampAll(records, names, domain, version)).Some?
    ensures forall i :: 0 <= i < |names| ==>
      var r := RegisterInOrder(m, StampAll(records, names, domain, version)).value;
      && SchemaKey(domain, names[i], version) in r
      && r[SchemaKey(domain, names[i], version)] == Stamp(records[i], names[i], domain, version)
  {
    StampAllDistinct(records, names, domain, version);
    RegisterInOrderSucceeds(m, StampAll(records, names, domain, version));
    UnitRegistrationsStore(m, records, names, domain, version);
  }
}
