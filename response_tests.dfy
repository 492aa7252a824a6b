/** The decoder's observed behaviour, case by case, stated about the model:
    one lemma per group of cases in envoyauth/response_test.go. */
module ResponseTests {
  import opened DecisionValue
  import opened Normalizer
  import opened StatusCodes
  import opened Metadata
  import opened EnvoyAuth
  import opened Construction
  import opened Directives

  /** A sequence whose multiset matches `expected` element for element has
      exactly as many elements. */
  lemma CountsGiveLength<T>(r: seq<T>, expected: multiset<T>)
    requires forall e :: multiset(r)[e] == expected[e]
    ensures |r| == |expected|
  {
    assert multiset(r) == expected;
  }

  const Foo := VMap(map["foo" := VStr("bar")])
  const FooAndBaz := VMap(map["foo" := VStr("bar"), "baz" := VNum(1)])
  const TwoSingleEntryMaps := VList([VMap(map["foo" := VStr("bar")]), VMap(map["foo" := VStr("baz")])])
  const FooFannedOut := VMap(map["foo" := VList(StringValues(["bar", "baz"]))])

  /** TestIsAllowed, under either treatment of a bare boolean decision. */
  lemma IsAllowedCases(shorthand: BooleanShorthand)
    ensures IsAllowed(VMap(map[]), shorthand).Err?
    ensures IsAllowed(VMap(map["allowed" := VNum(1)]), shorthand).Err?
    ensures IsAllowed(VMap(map["allowed" := VBool(true)]), shorthand) == Ok(true)
  {
  }

  /** TestGetRequestHTTPHeadersToRemove. */
  lemma HeadersToRemoveCases()
    ensures GetRequestHTTPHeadersToRemove(VBool(true)) == Ok([])
    ensures GetRequestHTTPHeadersToRemove(VStr("hello")).Err?
    ensures GetRequestHTTPHeadersToRemove(VMap(map[])) == Ok([])
    ensures GetRequestHTTPHeadersToRemove(VMap(map["request_headers_to_remove" := VStr("test")])).Err?
    ensures GetRequestHTTPHeadersToRemove(
              VMap(map["request_headers_to_remove" := VList([VStr("foo"), VStr("bar")])]))
            == Ok(["foo", "bar"])
    ensures GetRequestHTTPHeadersToRemove(
              VMap(map["request_headers_to_remove" := VList([VStr("foo"), VStr("bar"), VStr("fuz")])]))
            == Ok(["foo", "bar", "fuz"])
    ensures GetRequestHTTPHeadersToRemove(VMap(map["request_headers_to_remove" := VList([VNum(1)])])).Err?
  {
    var two := GetRequestHTTPHeadersToRemove(
                 VMap(map["request_headers_to_remove" := VList([VStr("foo"), VStr("bar")])]));
    StringValuesInjective(two.value, ["foo", "bar"]);
    var three := GetRequestHTTPHeadersToRemove(
                   VMap(map["request_headers_to_remove" := VList([VStr("foo"), VStr("bar"), VStr("fuz")])]));
    StringValuesInjective(three.value, ["foo", "bar", "fuz"]);
  }

  /** TestGetResponseHTTPHeadersToAdd: no key, and a bare string. */
  lemma HeadersToAddErrorCases()
    ensures GetResponseHTTPHeadersToAdd(VMap(map[])) == Ok([])
    ensures GetResponseHTTPHeadersToAdd(VMap(map["response_headers_to_add" := VStr("test")])).Err?
    ensures GetResponseHTTPHeadersToAdd(VMap(map["response_headers_to_add" := FooAndBaz])).Err?
  {
    assert !IsHeaderValue(FooAndBaz.fields["baz"]);
  }

  /** TestGetResponseHTTPHeadersToAdd: `{"foo": "bar"}` gives one header. */
  lemma HeadersToAddOneEntry()
    ensures var r := GetResponseHTTPHeadersToAdd(VMap(map["response_headers_to_add" := Foo]));
            r.Ok? && |r.value| == 1
  {
    var r := GetResponseHTTPHeadersToAdd(VMap(map["response_headers_to_add" := Foo]));
    CountsGiveLength(r.value, multiset{HeaderEntry("foo", "bar")});
  }

  /** TestGetResponseHTTPHeadersToAdd: a list of two single-entry mappings
      gives two headers, in list order. */
  lemma HeadersToAddListed()
    ensures var r := GetResponseHTTPHeadersToAdd(VMap(map["response_headers_to_add" := TwoSingleEntryMaps]));
            r == Ok([HeaderEntry("foo", "bar"), HeaderEntry("foo", "baz")]) && |r.value| == 2
  {
    var es := [HeaderEntry("foo", "bar"), HeaderEntry("foo", "baz")];
    assert TwoSingleEntryMaps == VList(EntryMappings(es));
    HeadersToAddRoundTrip(map["response_headers_to_add" := TwoSingleEntryMaps], es);
  }

  /** `{"foo": ["bar", "baz"]}` in map mode: two entries named foo, in list order. */
  lemma FannedOutEntries(key: string)
    ensures HeaderEntries(key, FooFannedOut) == Ok([HeaderEntry("foo", "bar"), HeaderEntry("foo", "baz")])
  {
    SingleListMapping(key, "foo", ["bar", "baz"]);
    NamedBarBaz();
  }

  /** `Named` on a two-string list, written out. */
  lemma NamedBarBaz()
    ensures Named("foo", ["bar", "baz"]) == [HeaderEntry("foo", "bar"), HeaderEntry("foo", "baz")]
  {
    var ss := ["bar", "baz"];
    assert Named("foo", ss[1..][1..]) == [];
  }

  /** TestGetResponseHTTPHeadersToAdd: `{"foo": ["bar", "baz"]}` fans out to
      two headers. */
  lemma HeadersToAddFannedOut()
    ensures var r := GetResponseHTTPHeadersToAdd(VMap(map["response_headers_to_add" := FooFannedOut]));
            r == Ok([HeaderEntry("foo", "bar"), HeaderEntry("foo", "baz")]) && |r.value| == 2
  {
    FannedOutEntries(ResponseHeadersToAddKey);
    assert Lookup(VMap(map["response_headers_to_add" := FooFannedOut]), ResponseHeadersToAddKey)
        == Ok(Some(FooFannedOut));
  }

  /** TestGetResponseHeaders: no key, a bare string, a non-string value. */
  lemma HeaderOptionsErrorCases()
    ensures GetResponseEnvoyHeaderValueOptions(VMap(map[])) == Ok([])
    ensures GetResponseEnvoyHeaderValueOptions(VMap(map["headers" := VStr("test")])).Err?
    ensures GetResponseEnvoyHeaderValueOptions(VMap(map["headers" := FooAndBaz])).Err?
  {
    assert !IsHeaderValue(FooAndBaz.fields["baz"]);
  }

  /** TestGetResponseHeaders: `{"foo": "bar"}` gives one option. */
  lemma HeaderOptionsOneEntry()
    ensures var r := GetResponseEnvoyHeaderValueOptions(VMap(map["headers" := Foo]));
            r.Ok? && |r.value| == 1
  {
    var d := VMap(map["headers" := Foo]);
    assert Lookup(d, HeadersKey) == Ok(Some(Foo));
    var h := HeaderEntries(HeadersKey, Foo);
    assert h.Ok?;
    var hs := h.value;
    assert GetResponseEnvoyHeaderValueOptions(d) == Ok(AsOptions(hs));
    CountsGiveLength(hs, multiset{HeaderEntry("foo", "bar")});
  }

  /** TestGetResponseHeaders: a list of two single-entry mappings gives two
      options, whose values are `bar` once and `baz` once. */
  lemma HeaderOptionsListed()
    ensures var r := GetResponseEnvoyHeaderValueOptions(VMap(map["headers" := TwoSingleEntryMaps]));
            && r.Ok? && |r.value| == 2
            && multiset(r.value)[HeaderValueOption(HeaderEntry("foo", "bar"))] == 1
            && multiset(r.value)[HeaderValueOption(HeaderEntry("foo", "baz"))] == 1
  {
    var os := [HeaderValueOption(HeaderEntry("foo", "bar")), HeaderValueOption(HeaderEntry("foo", "baz"))];
    assert OptionHeaders(os) == [HeaderEntry("foo", "bar"), HeaderEntry("foo", "baz")];
    assert TwoSingleEntryMaps == VList(EntryMappings(OptionHeaders(os)));
    HeaderOptionsRoundTrip(map["headers" := TwoSingleEntryMaps], os);
  }

  /** Whatever entries the value under `headers` decodes to, the options are
      those entries wrapped one by one. */
  lemma HeaderOptionsOfEntries(v: Value, hs: seq<HeaderEntry>)
    requires HeaderEntries(HeadersKey, v) == Ok(hs)
    ensures GetResponseEnvoyHeaderValueOptions(VMap(map[HeadersKey := v])) == Ok(AsOptions(hs))
  {
    assert Lookup(VMap(map[HeadersKey := v]), HeadersKey) == Ok(Some(v));
  }

  /** TestGetResponseHeaders: `{"foo": ["bar", "baz"]}` fans out to two options. */
  lemma HeaderOptionsFannedOut()
    ensures var r := GetResponseEnvoyHeaderValueOptions(VMap(map[HeadersKey := FooFannedOut]));
            r == Ok([HeaderValueOption(HeaderEntry("foo", "bar")), HeaderValueOption(HeaderEntry("foo", "baz"))])
            && |r.value| == 2
  {
    FannedOutOptions();
    OptionsBarBaz();
  }

  /** `{"foo": ["bar", "baz"]}` under `headers`, wrapped as options. */
  lemma FannedOutOptions()
    ensures GetResponseEnvoyHeaderValueOptions(VMap(map[HeadersKey := FooFannedOut]))
         == Ok(AsOptions([HeaderEntry("foo", "bar"), HeaderEntry("foo", "baz")]))
  {
    FannedOutEntries(HeadersKey);
    HeaderOptionsOfEntries(FooFannedOut, [HeaderEntry("foo", "bar"), HeaderEntry("foo", "baz")]);
  }

  /** The two fanned-out entries wrapped, in order. */
  lemma OptionsBarBaz()
    ensures AsOptions([HeaderEntry("foo", "bar"), HeaderEntry("foo", "baz")])
         == [HeaderValueOption(HeaderEntry("foo", "bar")), HeaderValueOption(HeaderEntry("foo", "baz"))]
  {
  }

  /** TestGetResponseBody. */
  lemma BodyCases()
    ensures GetResponseBody(VMap(map[])) == Ok("")
    ensures GetResponseBody(VMap(map["body" := VStr("hello")])) == Ok("hello")
    ensures GetResponseBody(VMap(map["body" := VNum(123)])).Err?
  {
  }

  /** TestGetResponseHttpStatus. */
  lemma HttpStatusCases()
    ensures GetResponseEnvoyHTTPStatus(VMap(map[])) == Ok(HttpStatus(Forbidden))
    ensures GetResponseEnvoyHTTPStatus(VMap(map["http_status" := VBool(true)])).Err?
    ensures GetResponseEnvoyHTTPStatus(VMap(map["http_status" := VNum(1)])).Err?
    ensures GetResponseEnvoyHTTPStatus(VMap(map["http_status" := VNum(9999)])).Err?
    ensures GetResponseEnvoyHTTPStatus(VMap(map["http_status" := VNum(400)])) == Ok(HttpStatus(BadRequest))
  {
  }

  /** TestGetDynamicMetadata and TestGetDynamicMetadataWithBooleanDecision. */
  lemma DynamicMetadataCases()
    ensures GetDynamicMetadata(VMap(map[])) == Ok(None)
    ensures GetDynamicMetadata(VMap(map["dynamic_metadata" := Foo]))
            == Ok(Some(Struct(map["foo" := SString("bar")])))
    ensures GetDynamicMetadata(VBool(true)).Err?
  {
    var r := GetDynamicMetadata(VMap(map["dynamic_metadata" := Foo]));
    assert AsValue(SStruct(map["foo" := SString("bar")])) == Foo;
    ToStructuredAsValue(SStruct(map["foo" := SString("bar")]));
    ToStructuredAsValue(SStruct(r.value.value.fields));
  }

  /** TestGetQueryParametersToSet. */
  lemma QueryParametersCases()
    ensures GetQueryParametersToSet(VBool(true)) == Ok([])
    ensures GetQueryParametersToSet(VStr("hello")).Err?
    ensures GetQueryParametersToSet(VMap(map[])) == Ok([])
    ensures GetQueryParametersToSet(VMap(map["query_parameters_to_set" := VStr("test")])).Err?
    ensures GetQueryParametersToSet(
              VMap(map["query_parameters_to_set" := VList([VStr("foo"), VStr("bar")])])).Err?
    ensures GetQueryParametersToSet(
              VMap(map["query_parameters_to_set" := VList([QueryParameterValue(QueryParameter("abc", "123"))])]))
            == Ok([QueryParameter("abc", "123")])
    ensures GetQueryParametersToSet(
              VMap(map["query_parameters_to_set" := VList([QueryParameterValue(QueryParameter("abc", "123")),
                                                           QueryParameterValue(QueryParameter("xyz", "987"))])]))
            == Ok([QueryParameter("abc", "123"), QueryParameter("xyz", "987")])
  {
    var abc, xyz := QueryParameter("abc", "123"), QueryParameter("xyz", "987");
    assert QueryParameterValue(abc).fields.Keys == {"key", "value"};
    assert QueryParameterValue(xyz).fields.Keys == {"key", "value"};
    var one := GetQueryParametersToSet(
                 VMap(map["query_parameters_to_set" := VList([QueryParameterValue(abc)])]));
    assert one.Ok?;
    assert one.value == [abc] by {
      assert QueryParameterValue(one.value[0]).fields["key"] == VStr("abc");
      assert QueryParameterValue(one.value[0]).fields["value"] == VStr("123");
    }
    var two := GetQueryParametersToSet(
                 VMap(map["query_parameters_to_set" := VList([QueryParameterValue(abc), QueryParameterValue(xyz)])]));
    assert two.Ok?;
    assert two.value == [abc, xyz] by {
      assert QueryParameterValue(two.value[0]).fields["key"] == VStr("abc");
      assert QueryParameterValue(two.value[0]).fields["value"] == VStr("123");
      assert QueryParameterValue(two.value[1]).fields["key"] == VStr("xyz");
      assert QueryParameterValue(two.value[1]).fields["value"] == VStr("987");
    }
  }

  /** TestNewEvalResultWithDecisionID. */
  method NewEvalResultWithDecisionID(generatedID: string) returns (decisionID: string)
    ensures decisionID == "some-decision-id"
  {
    var er := NewEvalResult([WithDecisionID("some-decision-id")], generatedID);
    decisionID := er.decisionID;
  }
}
