/** The directives a caller assembles from one decision by calling every
    decoder once (any error aborts the assembly), and a canonical way of
    writing directives as a decision. Decoding what was encoded gives back the
    same directives: no decoder loses, reorders or invents anything. */
module Directives {
  import opened DecisionValue
  import opened Normalizer
  import opened StatusCodes
  import opened Metadata
  import opened EnvoyAuth

  /** What one decision tells Envoy to do. */
  datatype EnvoyDirectives = EnvoyDirectives(
    allowed: bool,
    requestHeadersToRemove: seq<string>,
    responseHeadersToAdd: seq<HeaderEntry>,
    headers: seq<HeaderValueOption>,
    body: string,
    status: HttpStatus,
    dynamicMetadata: Option<Struct>,
    queryParametersToSet: seq<QueryParameter>)

  /** Whether a decision can express `d`: its status must be one Envoy names. */
  predicate HasRecognizedStatus(d: EnvoyDirectives) {
    IsRecognizedStatus(d.status.code)
  }

  /** Every decoder on one decision, stopping at the first error. */
  ghost function Decode(decision: Value, shorthand: BooleanShorthand): Result<EnvoyDirectives> {
    match IsAllowed(decision, shorthand)
    case Err(e) => Err(e)
    case Ok(allowed) =>
      match GetRequestHTTPHeadersToRemove(decision)
      case Err(e) => Err(e)
      case Ok(toRemove) =>
        match GetResponseHTTPHeadersToAdd(decision)
        case Err(e) => Err(e)
        case Ok(toAdd) =>
          match GetResponseEnvoyHeaderValueOptions(decision)
          case Err(e) => Err(e)
          case Ok(headers) =>
            match GetResponseBody(decision)
            case Err(e) => Err(e)
            case Ok(body) =>
              match GetResponseEnvoyHTTPStatus(decision)
              case Err(e) => Err(e)
              case Ok(status) =>
                match GetDynamicMetadata(decision)
                case Err(e) => Err(e)
                case Ok(metadata) =>
                  match GetQueryParametersToSet(decision)
                  case Err(e) => Err(e)
                  case Ok(params) =>
                    Ok(EnvoyDirectives(allowed, toRemove, toAdd, headers, body, status, metadata, params))
  }

  /** A header entry written as a single-entry mapping. */
  function EntryMapping(e: HeaderEntry): Value {
    VMap(map[e.name := VStr(e.value)])
  }

  function EntryMappings(es: seq<HeaderEntry>): (vs: seq<Value>)
    ensures |vs| == |es|
    ensures forall i :: 0 <= i < |es| ==> vs[i] == EntryMapping(es[i])
  {
    seq(|es|, i requires 0 <= i < |es| => EntryMapping(es[i]))
  }

  function OptionHeaders(os: seq<HeaderValueOption>): (es: seq<HeaderEntry>)
    ensures |es| == |os|
    ensures forall i :: 0 <= i < |os| ==> es[i] == os[i].header
  {
    seq(|os|, i requires 0 <= i < |os| => os[i].header)
  }

  function QueryParameterValues(qs: seq<QueryParameter>): (vs: seq<Value>)
    ensures |vs| == |qs|
    ensures forall i :: 0 <= i < |qs| ==> vs[i] == QueryParameterValue(qs[i])
  {
    seq(|qs|, i requires 0 <= i < |qs| => QueryParameterValue(qs[i]))
  }

  /** The canonical decision for a set of directives: headers as lists of
      single-entry mappings (so their order is kept), metadata only if present. */
  function Encode(d: EnvoyDirectives): Value {
    VMap(map[
      AllowedKey := VBool(d.allowed),
      RequestHeadersToRemoveKey := VList(StringValues(d.requestHeadersToRemove)),
      ResponseHeadersToAddKey := VList(EntryMappings(d.responseHeadersToAdd)),
      HeadersKey := VList(EntryMappings(OptionHeaders(d.headers))),
      BodyKey := VStr(d.body),
      HttpStatusKey := VNum(d.status.code),
      QueryParametersToSetKey := VList(QueryParameterValues(d.queryParametersToSet))
    ] + (if d.dynamicMetadata.Some?
         then map[DynamicMetadataKey := AsValue(SStruct(d.dynamicMetadata.value.fields))]
         else map[]))
  }

  /** A single-entry mapping decodes to exactly its entry. */
  lemma SingleEntryMapping(key: string, e: HeaderEntry)
    ensures FromMapping(key, EntryMapping(e).fields) == Ok([e])
  {
    SingleKeyMapping(key, e.name, VStr(e.value));
  }

  /** Shape (c) keeps the order: a list of single-entry mappings decodes to
      its entries, one per element, in list order. */
  lemma {:induction false} SingleEntryMappingsRoundTrip(key: string, es: seq<HeaderEntry>)
    ensures FromSingleEntryMappings(key, EntryMappings(es)) == Ok(es)
  {
    var xs := EntryMappings(es);
    if es != [] {
      assert |xs[0].fields| == 1 by {
        assert xs[0].fields.Keys == {es[0].name};
      }
      SingleEntryMapping(key, es[0]);
      assert xs[1..] == EntryMappings(es[1..]);
      SingleEntryMappingsRoundTrip(key, es[1..]);
      assert es == [es[0]] + es[1..];
    }
  }

  lemma QueryParameterValueInjective(p: QueryParameter, q: QueryParameter)
    requires QueryParameterValue(p) == QueryParameterValue(q)
    ensures p == q
  {
    assert QueryParameterValue(p).fields["key"] == QueryParameterValue(q).fields["key"];
    assert QueryParameterValue(p).fields["value"] == QueryParameterValue(q).fields["value"];
  }

  /** Distinct structured values stand for distinct decision values. */
  lemma AsValueInjective(s: StructuredValue, t: StructuredValue)
    requires AsValue(s) == AsValue(t)
    ensures s == t
  {
    ToStructuredAsValue(s);
    ToStructuredAsValue(t);
  }

  lemma OptionHeadersRoundTrip(os: seq<HeaderValueOption>)
    ensures AsOptions(OptionHeaders(os)) == os
  {
  }

  /** Any list of strings under `request_headers_to_remove` comes back
      unchanged, whatever else the decision holds. */
  lemma HeadersToRemoveRoundTrip(fields: map<string, Value>, ss: seq<string>)
    requires RequestHeadersToRemoveKey in fields
    requires fields[RequestHeadersToRemoveKey] == VList(StringValues(ss))
    ensures GetRequestHTTPHeadersToRemove(VMap(fields)) == Ok(ss)
  {
    var r := GetRequestHTTPHeadersToRemove(VMap(fields));
    assert r.Ok?;
    StringValuesInjective(r.value, ss);
  }

  /** Header entries written as single-entry mappings under
      `response_headers_to_add` come back unchanged and in order. */
  lemma HeadersToAddRoundTrip(fields: map<string, Value>, es: seq<HeaderEntry>)
    requires ResponseHeadersToAddKey in fields
    requires fields[ResponseHeadersToAddKey] == VList(EntryMappings(es))
    ensures GetResponseHTTPHeadersToAdd(VMap(fields)) == Ok(es)
  {
    SingleEntryMappingsRoundTrip(ResponseHeadersToAddKey, es);
  }

  /** Header-value options written as single-entry mappings under `headers`
      come back unchanged and in order. */
  lemma HeaderOptionsRoundTrip(fields: map<string, Value>, os: seq<HeaderValueOption>)
    requires HeadersKey in fields
    requires fields[HeadersKey] == VList(EntryMappings(OptionHeaders(os)))
    ensures GetResponseEnvoyHeaderValueOptions(VMap(fields)) == Ok(os)
  {
    SingleEntryMappingsRoundTrip(HeadersKey, OptionHeaders(os));
    assert AsOptions(OptionHeaders(os)) == os;
  }

  /** A metadata document written under `dynamic_metadata` comes back unchanged. */
  lemma DynamicMetadataRoundTrip(fields: map<string, Value>, doc: Struct)
    requires DynamicMetadataKey in fields
    requires fields[DynamicMetadataKey] == AsValue(SStruct(doc.fields))
    ensures GetDynamicMetadata(VMap(fields)) == Ok(Some(doc))
  {
    ToStructuredAsValue(SStruct(doc.fields));
    var r := GetDynamicMetadata(VMap(fields));
    assert r.Ok? && r.value.Some?;
    AsValueInjective(SStruct(r.value.value.fields), SStruct(doc.fields));
  }

  /** Query parameters written as `{key, value}` mappings come back unchanged
      and in order. */
  lemma QueryParametersRoundTrip(fields: map<string, Value>, qs: seq<QueryParameter>)
    requires QueryParametersToSetKey in fields
    requires fields[QueryParametersToSetKey] == VList(QueryParameterValues(qs))
    ensures GetQueryParametersToSet(VMap(fields)) == Ok(qs)
  {
    var r := GetQueryParametersToSet(VMap(fields));
    forall i | 0 <= i < |qs| ensures IsQueryParameterValue(QueryParameterValues(qs)[i]) {
      assert QueryParameterValue(qs[i]).fields.Keys == {"key", "value"};
    }
    assert r.Ok?;
    assert |r.value| == |qs|;
    forall i | 0 <= i < |qs| ensures r.value[i] == qs[i] {
      QueryParameterValueInjective(r.value[i], qs[i]);
    }
    assert r.value == qs;
  }

  /** What the canonical decision holds under each key. */
  lemma EncodeFields(d: EnvoyDirectives)
    ensures Encode(d).VMap?
    ensures AllowedKey in Encode(d).fields && Encode(d).fields[AllowedKey] == VBool(d.allowed)
    ensures RequestHeadersToRemoveKey in Encode(d).fields
    ensures Encode(d).fields[RequestHeadersToRemoveKey] == VList(StringValues(d.requestHeadersToRemove))
    ensures ResponseHeadersToAddKey in Encode(d).fields
    ensures Encode(d).fields[ResponseHeadersToAddKey] == VList(EntryMappings(d.responseHeadersToAdd))
    ensures HeadersKey in Encode(d).fields
    ensures Encode(d).fields[HeadersKey] == VList(EntryMappings(OptionHeaders(d.headers)))
    ensures BodyKey in Encode(d).fields && Encode(d).fields[BodyKey] == VStr(d.body)
    ensures HttpStatusKey in Encode(d).fields && Encode(d).fields[HttpStatusKey] == VNum(d.status.code)
    ensures QueryParametersToSetKey in Encode(d).fields
    ensures Encode(d).fields[QueryParametersToSetKey] == VList(QueryParameterValues(d.queryParametersToSet))
    ensures DynamicMetadataKey in Encode(d).fields <==> d.dynamicMetadata.Some?
    ensures d.dynamicMetadata.Some? ==>
              Encode(d).fields[DynamicMetadataKey] == AsValue(SStruct(d.dynamicMetadata.value.fields))
  {
  }

  /** A bare boolean decision means "no optional directive" to every field
      decoder except dynamic metadata, which rejects it. */
  lemma BooleanDecisionDefaults(b: bool)
    ensures GetRequestHTTPHeadersToRemove(VBool(b)) == Ok([])
    ensures GetResponseHTTPHeadersToAdd(VBool(b)) == Ok([])
    ensures GetResponseEnvoyHeaderValueOptions(VBool(b)) == Ok([])
    ensures GetResponseBody(VBool(b)) == Ok("")
    ensures GetResponseEnvoyHTTPStatus(VBool(b)) == Ok(HttpStatus(Forbidden))
    ensures GetQueryParametersToSet(VBool(b)) == Ok([])
    ensures GetDynamicMetadata(VBool(b)).Err?
  {
  }

  /** A decision that is neither a boolean nor a mapping is an error for every
      decoder, the allow flag included. */
  lemma InvalidDecisionErrors(decision: Value, shorthand: BooleanShorthand)
    requires !decision.VBool? && !decision.VMap?
    ensures IsAllowed(decision, shorthand).Err?
    ensures GetRequestHTTPHeadersToRemove(decision).Err?
    ensures GetResponseHTTPHeadersToAdd(decision).Err?
    ensures GetResponseEnvoyHeaderValueOptions(decision).Err?
    ensures GetResponseBody(decision).Err?
    ensures GetResponseEnvoyHTTPStatus(decision).Err?
    ensures GetDynamicMetadata(decision).Err?
    ensures GetQueryParametersToSet(decision).Err?
    ensures Decode(decision, shorthand).Err?
  {
  }

  /** When every decoder succeeds, the assembly holds exactly their results. */
  lemma DecodeWhenAllSucceed(decision: Value, shorthand: BooleanShorthand, d: EnvoyDirectives)
    requires IsAllowed(decision, shorthand) == Ok(d.allowed)
    requires GetRequestHTTPHeadersToRemove(decision) == Ok(d.requestHeadersToRemove)
    requires GetResponseHTTPHeadersToAdd(decision) == Ok(d.responseHeadersToAdd)
    requires GetResponseEnvoyHeaderValueOptions(decision) == Ok(d.headers)
    requires GetResponseBody(decision) == Ok(d.body)
    requires GetResponseEnvoyHTTPStatus(decision) == Ok(d.status)
    requires GetDynamicMetadata(decision) == Ok(d.dynamicMetadata)
    requires GetQueryParametersToSet(decision) == Ok(d.queryParametersToSet)
    ensures Decode(decision, shorthand) == Ok(d)
  {
  }

  /** The allow flag, body, status and metadata of the canonical decision
      decode to the directives' own. */
  lemma ScalarFieldsRoundTrip(d: EnvoyDirectives, shorthand: BooleanShorthand)
    requires HasRecognizedStatus(d)
    ensures IsAllowed(Encode(d), shorthand) == Ok(d.allowed)
    ensures GetResponseBody(Encode(d)) == Ok(d.body)
    ensures GetResponseEnvoyHTTPStatus(Encode(d)) == Ok(d.status)
    ensures GetDynamicMetadata(Encode(d)) == Ok(d.dynamicMetadata)
  {
    EncodeFields(d);
    if d.dynamicMetadata.Some? {
      DynamicMetadataRoundTrip(Encode(d).fields, d.dynamicMetadata.value);
    }
  }

  /** Decoding the canonical decision gives back the directives, whatever the
      allow flag does with a bare boolean. */
  lemma DecodeEncode(d: EnvoyDirectives, shorthand: BooleanShorthand)
    requires HasRecognizedStatus(d)
    ensures Decode(Encode(d), shorthand) == Ok(d)
  {
    var fields := Encode(d).fields;
    EncodeFields(d);
    HeadersToRemoveRoundTrip(fields, d.requestHeadersToRemove);
    HeadersToAddRoundTrip(fields, d.responseHeadersToAdd);
    HeaderOptionsRoundTrip(fields, d.headers);
    QueryParametersRoundTrip(fields, d.queryParametersToSet);
    ScalarFieldsRoundTrip(d, shorthand);
    DecodeWhenAllSucceed(Encode(d), shorthand, d);
  }
}
