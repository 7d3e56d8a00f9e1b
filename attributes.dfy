/**
 * The attribute store of one operator instance and the typed accessors
 * the inference functions read it with.
 */
module Attributes {

  import opened Wrappers

  /** The declared kind of an attribute (AttributeProto's type). */
  datatype AttrKind = FloatAttr | IntAttr | StringAttr | FloatsAttr | IntsAttr | StringsAttr

  /** One attribute value; floating-point values are modelled as reals. */
  datatype AttrValue =
    | FloatValue(f: real)
    | IntValue(i: int)
    | StringValue(s: string)
    | FloatsValue(floats: seq<real>)
    | IntsValue(ints: seq<int>)
    | StringsValue(strings: seq<string>)

  /** The attributes an operator instance carries, by name. */
  type Attributes = map<string, AttrValue>

  /** The integer an attribute holds, when it is present and of kind INT. */
  function IntAttribute(attrs: Attributes, name: string): Option<int>
  {
    if name in attrs && attrs[name].IntValue? then Some(attrs[name].i) else None
  }

  /** getAttribute with a default: the attribute's integer, or the default. */
  function GetIntAttribute(attrs: Attributes, name: string, default: int): int
  {
    match IntAttribute(attrs, name)
    case Some(i) => i
    case None => default
  }

  /**
   * getRepeatedAttribute for integers: the attribute's list, in order.
   * An absent attribute, and one of another kind, read as the empty list.
   */
  function GetRepeatedInts(attrs: Attributes, name: string): seq<int>
  {
    if name in attrs && attrs[name].IntsValue? then attrs[name].ints else []
  }

  /** An absent attribute reads as the default; one present as INT reads as its integer. */
  lemma DefaultFallback(attrs: Attributes, name: string, default: int, v: int)
    ensures GetIntAttribute(attrs - {name}, name, default) == default
    ensures GetIntAttribute(attrs[name := IntValue(v)], name, default) == v
  {
  }

  /** An absent list attribute and an empty one cannot be told apart. */
  lemma AbsentListIsEmpty(attrs: Attributes, name: string)
    ensures GetRepeatedInts(attrs - {name}, name) == []
    ensures GetRepeatedInts(attrs[name := IntsValue([])], name) == []
  {
  }
}
