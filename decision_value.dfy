/** The loosely typed policy decision every decoder reads, the errors the
    decoders report, and the accessor that classifies the decision's root. */
module DecisionValue {

  /** A decision as the policy engine hands it over: a JSON-like tree.
      Go's `[]string`, `[]interface{}` and `[]map[string]interface{}` are all
      `VList` here (the element shapes carry the difference), `json.Number` and
      native Go integers are both `VNum`, and `VOther` stands for a value of any
      other Go type (a struct, a channel, a function). */
  datatype Value =
    | VNull
    | VBool(b: bool)
    | VNum(n: int)
    | VStr(s: string)
    | VList(items: seq<Value>)
    | VMap(fields: map<string, Value>)
    | VOther

  /** The kinds of decode failure. */
  datatype DecodeError =
    | ShapeError                    // the root is neither a boolean nor a mapping where one is needed
    | MissingKey(key: string)       // a required key is absent
    | KeyTypeError(key: string)     // the value under a key has the wrong top-level type
    | ElementTypeError(key: string) // an element inside the value under a key has the wrong type
    | RangeError(code: int)         // a status code outside the recognized enumeration
    | StructureError                // a metadata leaf that cannot be converted

  /** What a decoder returns: a value, or the error that stopped it. */
  datatype Result<+T> = Ok(value: T) | Err(error: DecodeError)

  datatype Option<+T> = None | Some(value: T)

  /** The root accessor shared by the field decoders: a boolean root reads as
      "no optional directive present", a mapping root yields what is stored
      under `key` (if anything), and every other root is a shape error. */
  function Lookup(decision: Value, key: string): (r: Result<Option<Value>>)
    ensures r.Ok? <==> decision.VBool? || decision.VMap?
    ensures r.Err? ==> r.error == ShapeError
    ensures r == Ok(None) <==> decision.VBool? || (decision.VMap? && key !in decision.fields)
    ensures r.Ok? && r.value.Some? ==>
              decision.VMap? && key in decision.fields && r.value.value == decision.fields[key]
  {
    match decision
    case VBool(_) => Ok(None)
    case VMap(fields) => if key in fields then Ok(Some(fields[key])) else Ok(None)
    case _ => Err(ShapeError)
  }

  /** True when `decision` is a mapping that holds `key`. */
  predicate Has(decision: Value, key: string) {
    decision.VMap? && key in decision.fields
  }
}
