/**
 The remotely callable method "ServerMethod" of the chat server: the callback
 `func` that doubles its argument, and the method node's declared signature
 (one Int64 argument, one Int64 result).
 */
module ServerMethod {

  /** The variant type tags the address space uses. */
  datatype VariantType = Int64 | String

  /** A value as it travels in a method call. */
  datatype Variant = Int64Value(i: int) | StringValue(s: string)

  const INT64_MIN: int := -0x8000_0000_0000_0000
  const INT64_MAX: int := 0x7FFF_FFFF_FFFF_FFFF

  /** `v` is a well-formed value of type `t`; an Int64 must lie in the signed 64-bit range. */
  predicate HasType(v: Variant, t: VariantType)
  {
    match v
    case Int64Value(i) => t == Int64 && INT64_MIN <= i <= INT64_MAX
    case StringValue(_) => t == String
  }

  /** The values `vs` match the ordered type list `ts` one for one. */
  predicate Conforms(vs: seq<Variant>, ts: seq<VariantType>)
  {
    |vs| == |ts| && forall k :: 0 <= k < |vs| ==> HasType(vs[k], ts[k])
  }

  /** A method node: its browse name and its declared argument and result types. */
  datatype MethodNode = MethodNode(browseName: string, inputTypes: seq<VariantType>, outputTypes: seq<VariantType>)

  /** The method node the server adds under Objects. */
  const ServerMethodNode: MethodNode := MethodNode("ServerMethod", [Int64], [Int64])

  /**
   The callback bound to ServerMethod. The result is the unique even number
   whose half is the argument; it holds for zero and for negative arguments.
   */
  function Func(value: int): (r: int)
    ensures r % 2 == 0 && r / 2 == value
  {
    value * 2
  }

  /** The node declares exactly one Int64 argument and exactly one Int64 result. */
  lemma SignatureIsOneInt64In(v: Variant)
    ensures ServerMethodNode.browseName == "ServerMethod"
    ensures ServerMethodNode.inputTypes == [Int64] && ServerMethodNode.outputTypes == [Int64]
    ensures Conforms([v], ServerMethodNode.inputTypes) <==> v.Int64Value? && INT64_MIN <= v.i <= INT64_MAX
  {
    ConformsOne(v, Int64);
  }

  /**
   For every argument the node accepts, the callback's result conforms to the
   declared Int64 result type exactly when doubling does not leave the 64-bit range.
   */
  lemma ResultFitsOutputIff(value: int)
    requires Conforms([Int64Value(value)], ServerMethodNode.inputTypes)
    ensures Conforms([Int64Value(Func(value))], ServerMethodNode.outputTypes)
            <==> INT64_MIN / 2 <= value <= INT64_MAX / 2
  {
    ConformsOne(Int64Value(Func(value)), Int64);
  }

  /** A one-element value list conforms to a one-element type list exactly when the value has that type. */
  lemma ConformsOne(v: Variant, t: VariantType)
    ensures Conforms([v], [t]) <==> HasType(v, t)
  {
    var vs, ts := [v], [t];
    assert vs[0] == v && ts[0] == t;
  }
}
