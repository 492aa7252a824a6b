/** Dynamic metadata: the deep conversion of a decision value into the
    structured document type (`google.protobuf.Struct`) Envoy attaches to the
    authorization response. */
module Metadata {
  import opened DecisionValue

  /** A `google.protobuf.Value`. Numbers are integers here (see README). */
  datatype StructuredValue =
    | SNull
    | SBool(b: bool)
    | SNumber(n: int)
    | SString(s: string)
    | SList(items: seq<StructuredValue>)
    | SStruct(fields: map<string, StructuredValue>)

  /** A `google.protobuf.Struct`: the top-level metadata document. */
  datatype Struct = Struct(fields: map<string, StructuredValue>)

  /** True when every leaf of `v` has a type the conversion knows. */
  predicate Convertible(v: Value) {
    match v
    case VOther => false
    case VList(xs) => forall i :: 0 <= i < |xs| ==> Convertible(xs[i])
    case VMap(m) => forall k :: k in m ==> Convertible(m[k])
    case _ => true
  }

  /** The decision value a structured value stands for: the embedding the
      conversion below inverts. */
  function AsValue(s: StructuredValue): Value {
    match s
    case SNull => VNull
    case SBool(b) => VBool(b)
    case SNumber(n) => VNum(n)
    case SString(t) => VStr(t)
    case SList(xs) => VList(seq(|xs|, i requires 0 <= i < |xs| => AsValue(xs[i])))
    case SStruct(m) => VMap(map k | k in m :: AsValue(m[k]))
  }

  /** Deep conversion of a decision value; fails on any unconvertible leaf. */
  function ToStructured(v: Value): (r: Result<StructuredValue>)
    ensures r.Ok? <==> Convertible(v)
    ensures r.Err? ==> r.error == StructureError
    ensures r.Ok? ==> AsValue(r.value) == v
  {
    match v
    case VNull => Ok(SNull)
    case VBool(b) => Ok(SBool(b))
    case VNum(n) => Ok(SNumber(n))
    case VStr(t) => Ok(SString(t))
    case VList(xs) =>
      if forall i :: 0 <= i < |xs| ==> ToStructured(xs[i]).Ok? then
        var ys := seq(|xs|, i requires 0 <= i < |xs| => ToStructured(xs[i]).value);
        assert AsValue(SList(ys)) == VList(xs) by {
          assert forall i :: 0 <= i < |xs| ==> AsValue(ys[i]) == xs[i];
        }
        Ok(SList(ys))
      else Err(StructureError)
    case VMap(m) =>
      if forall k :: k in m ==> ToStructured(m[k]).Ok? then
        var fs := map k | k in m :: ToStructured(m[k]).value;
        assert AsValue(SStruct(fs)) == VMap(m) by {
          assert forall k :: k in m ==> AsValue(fs[k]) == m[k];
        }
        Ok(SStruct(fs))
      else Err(StructureError)
    case VOther => Err(StructureError)
  }

  /** Every structured value converts back from the decision value it stands for. */
  lemma {:induction false} ToStructuredAsValue(s: StructuredValue)
    ensures ToStructured(AsValue(s)) == Ok(s)
  {
    match s
    case SList(xs) =>
      forall i | 0 <= i < |xs| ensures ToStructured(AsValue(xs[i])) == Ok(xs[i]) {
        ToStructuredAsValue(xs[i]);
      }
      var zs := seq(|xs|, i requires 0 <= i < |xs| => AsValue(xs[i]));
      assert AsValue(s) == VList(zs);
      assert forall i :: 0 <= i < |zs| ==> ToStructured(zs[i]) == Ok(xs[i]);
      var ys := seq(|zs|, i requires 0 <= i < |zs| => ToStructured(zs[i]).value);
      assert ys == xs;
    case SStruct(m) =>
      forall k | k in m ensures ToStructured(AsValue(m[k])) == Ok(m[k]) {
        ToStructuredAsValue(m[k]);
      }
      var vm := map k | k in m :: AsValue(m[k]);
      var fs := map k | k in vm :: ToStructured(vm[k]).value;
      assert fs == m;
    case _ =>
  }

  /** `structpb.NewStruct`: the document whose fields are the converted members
      of a decision mapping. */
  function NewStruct(m: map<string, Value>): (r: Result<Struct>)
    ensures r.Ok? <==> forall k :: k in m ==> Convertible(m[k])
    ensures r.Err? ==> r.error == StructureError
    ensures r.Ok? ==> r.value.fields.Keys == m.Keys
    ensures r.Ok? ==> forall k :: k in m ==> AsValue(r.value.fields[k]) == m[k]
  {
    match ToStructured(VMap(m))
    case Ok(SStruct(fs)) => Ok(Struct(fs))
    case Ok(_) => assert false; Err(StructureError)
    case Err(e) => Err(e)
  }
}
