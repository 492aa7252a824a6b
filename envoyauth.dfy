/** The decision decoder behind `EvalResult`: one function per decoder. Each
    reads only the decision and returns a value or an error. */
module EnvoyAuth {
  import opened DecisionValue
  import opened Normalizer
  import opened StatusCodes
  import opened Metadata

  const AllowedKey := "allowed"
  const RequestHeadersToRemoveKey := "request_headers_to_remove"
  const ResponseHeadersToAddKey := "response_headers_to_add"
  const HeadersKey := "headers"
  const BodyKey := "body"
  const HttpStatusKey := "http_status"
  const DynamicMetadataKey := "dynamic_metadata"
  const QueryParametersToSetKey := "query_parameters_to_set"

  /** How the allow flag treats a bare boolean decision. The observed behaviour
      never exercises that case, so it is a parameter and every property of
      `IsAllowed` is proved for both choices. */
  datatype BooleanShorthand = AcceptBooleanRoot | RejectBooleanRoot

  /** `EvalResult.IsAllowed`. */
  function IsAllowed(decision: Value, shorthand: BooleanShorthand): (r: Result<bool>)
    // the flag returned is the one the decision states, never a default
    ensures r.Ok? ==>
              || (Has(decision, AllowedKey) && decision.fields[AllowedKey] == VBool(r.value))
              || (shorthand == AcceptBooleanRoot && decision == VBool(r.value))
    // a flag the decision states is always returned
    ensures Has(decision, AllowedKey) && decision.fields[AllowedKey].VBool? ==> r.Ok?
    ensures shorthand == AcceptBooleanRoot && decision.VBool? ==> r.Ok?
    ensures decision.VMap? && AllowedKey !in decision.fields ==> r == Err(MissingKey(AllowedKey))
    ensures Has(decision, AllowedKey) && !decision.fields[AllowedKey].VBool? ==> r == Err(KeyTypeError(AllowedKey))
    ensures !decision.VMap? && !(decision.VBool? && shorthand == AcceptBooleanRoot) ==> r == Err(ShapeError)
  {
    match decision
    case VBool(b) => if shorthand == AcceptBooleanRoot then Ok(b) else Err(ShapeError)
    case VMap(fields) =>
      if AllowedKey !in fields then Err(MissingKey(AllowedKey))
      else if fields[AllowedKey].VBool? then Ok(fields[AllowedKey].b)
      else Err(KeyTypeError(AllowedKey))
    case _ => Err(ShapeError)
  }

  /** `EvalResult.GetRequestHTTPHeadersToRemove`: list mode under
      `request_headers_to_remove`. */
  function GetRequestHTTPHeadersToRemove(decision: Value): (r: Result<seq<string>>)
    ensures r.Ok? <==>
              || decision.VBool?
              || (decision.VMap? && (RequestHeadersToRemoveKey !in decision.fields
                                     || IsStringList(decision.fields[RequestHeadersToRemoveKey])))
    ensures r.Ok? && Has(decision, RequestHeadersToRemoveKey) ==>
              decision.fields[RequestHeadersToRemoveKey] == VList(StringValues(r.value))
    ensures r.Ok? && !Has(decision, RequestHeadersToRemoveKey) ==> r.value == []
  {
    match Lookup(decision, RequestHeadersToRemoveKey)
    case Err(e) => Err(e)
    case Ok(None) => Ok([])
    case Ok(Some(v)) => StringList(RequestHeadersToRemoveKey, v)
  }

  /** `EvalResult.GetResponseHTTPHeadersToAdd`: map mode under
      `response_headers_to_add`. */
  ghost function GetResponseHTTPHeadersToAdd(decision: Value): (r: Result<seq<HeaderEntry>>)
    ensures r.Ok? <==>
              || decision.VBool?
              || (decision.VMap? && (ResponseHeadersToAddKey !in decision.fields
                                     || IsHeaderShape(decision.fields[ResponseHeadersToAddKey])))
    ensures r.Ok? ==> forall e :: multiset(r.value)[e]
                              == if Has(decision, ResponseHeadersToAddKey)
                                 then Count(e, decision.fields[ResponseHeadersToAddKey]) else 0
  {
    match Lookup(decision, ResponseHeadersToAddKey)
    case Err(e) => Err(e)
    case Ok(None) => Ok([])
    case Ok(Some(v)) => HeaderEntries(ResponseHeadersToAddKey, v)
  }

  /** Envoy's `HeaderValueOption`, reduced to the header it carries. */
  datatype HeaderValueOption = HeaderValueOption(header: HeaderEntry)

  function AsOptions(hs: seq<HeaderEntry>): (os: seq<HeaderValueOption>)
    ensures |os| == |hs|
    ensures forall i :: 0 <= i < |hs| ==> os[i] == HeaderValueOption(hs[i])
  {
    seq(|hs|, i requires 0 <= i < |hs| => HeaderValueOption(hs[i]))
  }

  /** Wrapping keeps every entry exactly as often as before. */
  lemma {:induction false} AsOptionsCount(hs: seq<HeaderEntry>, e: HeaderEntry)
    ensures multiset(AsOptions(hs))[HeaderValueOption(e)] == multiset(hs)[e]
  {
    if hs != [] {
      AsOptionsCount(hs[1..], e);
      assert hs == [hs[0]] + hs[1..];
      assert AsOptions(hs) == [HeaderValueOption(hs[0])] + AsOptions(hs[1..]);
    }
  }

  /** `EvalResult.GetResponseEnvoyHeaderValueOptions`: map mode under
      `headers`, one header-value option per entry. */
  ghost function GetResponseEnvoyHeaderValueOptions(decision: Value): (r: Result<seq<HeaderValueOption>>)
    ensures r.Ok? <==>
              || decision.VBool?
              || (decision.VMap? && (HeadersKey !in decision.fields
                                     || IsHeaderShape(decision.fields[HeadersKey])))
    ensures r.Ok? ==> forall e :: multiset(r.value)[HeaderValueOption(e)]
                              == if Has(decision, HeadersKey) then Count(e, decision.fields[HeadersKey]) else 0
  {
    match Lookup(decision, HeadersKey)
    case Err(e) => Err(e)
    case Ok(None) => Ok([])
    case Ok(Some(v)) =>
      match HeaderEntries(HeadersKey, v)
      case Err(e) => Err(e)
      case Ok(hs) =>
        assert forall e :: multiset(AsOptions(hs))[HeaderValueOption(e)] == multiset(hs)[e] by {
          forall e ensures multiset(AsOptions(hs))[HeaderValueOption(e)] == multiset(hs)[e] {
            AsOptionsCount(hs, e);
          }
        }
        Ok(AsOptions(hs))
  }

  /** `EvalResult.GetResponseBody`. */
  function GetResponseBody(decision: Value): (r: Result<string>)
    ensures r.Ok? <==>
              || decision.VBool?
              || (decision.VMap? && (BodyKey !in decision.fields || decision.fields[BodyKey].VStr?))
    ensures r.Ok? && Has(decision, BodyKey) ==> decision.fields[BodyKey] == VStr(r.value)
    ensures r.Ok? && !Has(decision, BodyKey) ==> r.value == ""
  {
    match Lookup(decision, BodyKey)
    case Err(e) => Err(e)
    case Ok(None) => Ok("")
    case Ok(Some(v)) => if v.VStr? then Ok(v.s) else Err(KeyTypeError(BodyKey))
  }

  /** `EvalResult.GetResponseEnvoyHTTPStatus`. */
  function GetResponseEnvoyHTTPStatus(decision: Value): (r: Result<HttpStatus>)
    ensures r.Ok? ==> IsRecognizedStatus(r.value.code)
    ensures r.Ok? <==>
              || decision.VBool?
              || (decision.VMap? && (HttpStatusKey !in decision.fields
                                     || (decision.fields[HttpStatusKey].VNum?
                                         && IsRecognizedStatus(decision.fields[HttpStatusKey].n))))
    ensures r.Ok? && Has(decision, HttpStatusKey) ==> decision.fields[HttpStatusKey] == VNum(r.value.code)
    ensures r.Ok? && !Has(decision, HttpStatusKey) ==> r.value.code == Forbidden
    ensures Has(decision, HttpStatusKey) && decision.fields[HttpStatusKey].VNum?
            && !IsRecognizedStatus(decision.fields[HttpStatusKey].n)
            ==> r == Err(RangeError(decision.fields[HttpStatusKey].n))
  {
    match Lookup(decision, HttpStatusKey)
    case Err(e) => Err(e)
    case Ok(None) => Ok(HttpStatus(Forbidden))
    case Ok(Some(v)) =>
      if !v.VNum? then Err(KeyTypeError(HttpStatusKey))
      else if !IsRecognizedStatus(v.n) then Err(RangeError(v.n))
      else Ok(HttpStatus(v.n))
  }

  /** `EvalResult.GetDynamicMetadata`: unlike every other decoder it needs a
      mapping root; a boolean root is an error. */
  function GetDynamicMetadata(decision: Value): (r: Result<Option<Struct>>)
    ensures decision.VBool? ==> r == Err(ShapeError)
    ensures r.Ok? <==>
              decision.VMap? && (DynamicMetadataKey !in decision.fields
                                 || (decision.fields[DynamicMetadataKey].VMap?
                                     && Convertible(decision.fields[DynamicMetadataKey])))
    ensures r == Ok(None) <==> decision.VMap? && DynamicMetadataKey !in decision.fields
    ensures r.Ok? && r.value.Some? ==>
              decision.fields[DynamicMetadataKey] == AsValue(SStruct(r.value.value.fields))
  {
    match decision
    case VMap(fields) =>
      if DynamicMetadataKey !in fields then Ok(None)
      else
        (match fields[DynamicMetadataKey]
         case VMap(m) =>
           (match NewStruct(m)
            case Err(e) => Err(e)
            case Ok(doc) =>
              assert AsValue(SStruct(doc.fields)) == VMap(m);
              Ok(Some(doc)))
         case _ => Err(KeyTypeError(DynamicMetadataKey)))
    case _ => Err(ShapeError)
  }

  /** Envoy's `QueryParameter`. */
  datatype QueryParameter = QueryParameter(key: string, value: string)

  /** The `{key, value}` mapping a query parameter is written as. */
  function QueryParameterValue(q: QueryParameter): Value {
    VMap(map["key" := VStr(q.key), "value" := VStr(q.value)])
  }

  predicate IsQueryParameterValue(v: Value) {
    && v.VMap?
    && v.fields.Keys == {"key", "value"}
    && v.fields["key"].VStr?
    && v.fields["value"].VStr?
  }

  /** One query parameter per element, in list order. */
  function QueryParametersOf(xs: seq<Value>): (r: Result<seq<QueryParameter>>)
    ensures r.Ok? <==> forall i :: 0 <= i < |xs| ==> IsQueryParameterValue(xs[i])
    ensures r.Err? ==> r.error == ElementTypeError(QueryParametersToSetKey)
    ensures r.Ok? ==> |r.value| == |xs|
    ensures r.Ok? ==> forall i :: 0 <= i < |xs| ==> xs[i] == QueryParameterValue(r.value[i])
  {
    if xs == [] then Ok([])
    else if !IsQueryParameterValue(xs[0]) then Err(ElementTypeError(QueryParametersToSetKey))
    else
      match QueryParametersOf(xs[1..])
      case Err(e) => Err(e)
      case Ok(rest) =>
        var q := QueryParameter(xs[0].fields["key"].s, xs[0].fields["value"].s);
        assert xs[0].fields == QueryParameterValue(q).fields;
        Ok([q] + rest)
  }

  /** `EvalResult.GetQueryParametersToSet`. */
  function GetQueryParametersToSet(decision: Value): (r: Result<seq<QueryParameter>>)
    ensures r.Ok? <==>
              || decision.VBool?
              || (decision.VMap? && (QueryParametersToSetKey !in decision.fields
                                     || (decision.fields[QueryParametersToSetKey].VList?
                                         && forall i :: 0 <= i < |decision.fields[QueryParametersToSetKey].items|
                                              ==> IsQueryParameterValue(decision.fields[QueryParametersToSetKey].items[i]))))
    ensures r.Ok? && Has(decision, QueryParametersToSetKey) ==>
              var xs := decision.fields[QueryParametersToSetKey].items;
              |r.value| == |xs| && forall i :: 0 <= i < |xs| ==> xs[i] == QueryParameterValue(r.value[i])
    ensures r.Ok? && !Has(decision, QueryParametersToSetKey) ==> r.value == []
  {
    match Lookup(decision, QueryParametersToSetKey)
    case Err(e) => Err(e)
    case Ok(None) => Ok([])
    case Ok(Some(v)) =>
      if v.VList? then QueryParametersOf(v.items) else Err(KeyTypeError(QueryParametersToSetKey))
  }
}
