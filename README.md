# Decision decoder of the OPA Envoy plugin (`envoyauth.EvalResult`)

This project models, in Dafny, the decision decoder of the `envoyauth` package
of the OPA Envoy external-authorization plugin. A policy evaluation produces a
loosely typed decision (`Decision interface{}`); the decoder turns it into the
directives of Envoy's external-authorization response: the allow flag, the
request headers to remove, the response headers to add, the header-value
options, the response body, the HTTP status, the dynamic metadata and the query
parameters to set. `NewEvalResult` builds the `EvalResult` that holds the
decision and its decision id.

The behaviour modelled is the one `envoyauth/response_test.go` pins down; the
implementation file `envoyauth/response.go` is not part of this model, and
where the test file is silent the model follows the component's design as
documented: a boolean decision is shorthand for "no optional directive" for
every field decoder except dynamic metadata; any other non-mapping decision is
an error for every decoder.

Modules:

- `DecisionValue` (decision_value.dfy): the decision as a tagged tree `Value`,
  the error kinds, `Result`/`Option`, and the root accessor `Lookup` every field
  decoder starts with.
- `Normalizer` (normalizer.dfy): the shared list/map normalizer. List mode takes
  a list of strings; map (fan-out) mode takes a mapping of names to strings or
  to lists of strings, or a list of single-entry mappings.
- `StatusCodes` (status_codes.dfy): the codes Envoy's `type.v3.StatusCode`
  enumeration names, listed class by class and proved equal to a range
  description.
- `Metadata` (metadata.dfy): `google.protobuf.Struct`/`Value` as `Struct` and
  `StructuredValue`, the deep conversion `ToStructured` and its inverse
  embedding `AsValue`.
- `EnvoyAuth` (envoyauth.dfy): one function per `EvalResult` decoder. Every Go
  method reads only `Decision`, so each is a function of the decision. For
  headers taken from a mapping, two calls on the same result give the same
  entries as a multiset; their order may differ (see below).
- `Construction` (construction.dfy): `EvalResult` as a class whose fields the
  configuration callbacks write, and `NewEvalResult` applying them in order.
- `Directives` (directives.dfy): all decoders together, a canonical encoding
  of directives as a decision, and round-trip lemmas (decoding what was
  encoded gives it back, so no decoder drops, reorders or invents anything).
- `ResponseTests` (response_tests.dfy): every case of response_test.go stated
  as a lemma about the model.

Go's map iteration order is unspecified. The model takes the next key of a
mapping with Dafny's `:|`, which fixes some order without saying which, so
everything promised about headers that come from a mapping is stated over the
multiset of entries. Headers given as a list of single-entry mappings keep the
list order exactly, whatever each name's value is: the entries are each
mapping's fan-out, one mapping after the other. The fan-out of one name's list
keeps that list's order too.

## Model

| member | source | states |
|---|---|---|
| DecisionValue.Lookup | envoyauth/response_test.go:51-65 | a boolean root means "key absent", a mapping root yields exactly the value stored under the key, any other root is a shape error |
| Normalizer.StringsOf | envoyauth/response_test.go:76-85 | succeeds iff every element is a string, and then the strings written back as values are exactly the input list (same order, same content); otherwise an element-type error |
| Normalizer.StringList | envoyauth/response_test.go:66-85 | list mode accepts exactly the lists of strings and returns them unchanged; a non-list is a key-type error, a non-string element an element-type error |
| Normalizer.FanOut | envoyauth/response_test.go:174-186 | one name's value is accepted iff it is a string or a list of strings; the entries all carry that name, and each value appears as often as the decision gives it |
| Normalizer.FanOutList | envoyauth/response_test.go:174-186 | a name with a list of strings fans out to one entry per string, in list order |
| Normalizer.SingleKeyMapping | envoyauth/response_test.go:136-147 | a one-key mapping decodes exactly as that key's fan-out |
| Normalizer.SingleListMapping | envoyauth/response_test.go:174-186 | a one-key mapping whose value is a list of strings decodes to one entry per string, in list order, and succeeds |
| Normalizer.FromMapping | envoyauth/response_test.go:136-154 | a mapping is accepted iff every value is a header value; then each entry (name, value) appears exactly as often as the mapping asks for it |
| Normalizer.FanOuts | envoyauth/response_test.go:156-172 | reference order for a list of single-entry mappings: accepted iff every value is a header value, otherwise an element-type error |
| Normalizer.SingleEntryMappingsCons | envoyauth/response_test.go:156-172 | a list of single-entry mappings decodes as its first mapping's fan-out followed by the entries of the rest; an error in either aborts |
| Normalizer.SingleEntryMappingsInOrder | envoyauth/response_test.go:156-172 | a list of single-entry mappings with any header values decodes to exactly each mapping's fan-out, in list order |
| Normalizer.FromSingleEntryMappings | envoyauth/response_test.go:156-172 | a list is accepted iff every element is a single-entry mapping with a header value; the entry counts are the sums over the elements |
| Normalizer.HeaderEntries | envoyauth/response_test.go:128-186 | map mode accepts exactly the mapping and list-of-single-entry-mapping shapes; other shapes are key-type errors; entry counts match what the shape asks for |
| StatusCodes.IsRecognizedStatus | envoyauth/response_test.go:326-346 | every accepted status is a code in 100-511 (its exact set is pinned down by StatusCodes.EnumeratedAsRanges) |
| StatusCodes.EnumeratedAsRanges | envoyauth/response_test.go:326-346 | a status is accepted iff the enumeration, listed value by value class by class, contains it |
| StatusCodes.TestedStatusCodes | envoyauth/response_test.go:326-346 | 400 and 403 are recognized, 1 and 9999 are not |
| Metadata.ToStructured | envoyauth/response_test.go:364-383 | conversion succeeds iff no leaf has an unknown type, and the structured value stands for exactly the input |
| Metadata.ToStructuredAsValue | envoyauth/response_test.go:372-383 | every structured document converts back from the decision value it stands for |
| Metadata.NewStruct | envoyauth/response_test.go:364-383 | the document has exactly the mapping's keys, each field standing for that key's value; fails iff some member is unconvertible |
| EnvoyAuth.IsAllowed | envoyauth/response_test.go:13-43 | a returned flag is always the one the decision states (never a default on error); a missing `allowed` is a missing-key error, a non-boolean a key-type error; a bare boolean is accepted or rejected by an explicit parameter |
| EnvoyAuth.GetRequestHTTPHeadersToRemove | envoyauth/response_test.go:45-111 | succeeds iff the root is boolean or the key is absent or holds a list of strings; the names returned are exactly that list in order; empty when absent |
| EnvoyAuth.GetResponseHTTPHeadersToAdd | envoyauth/response_test.go:113-187 | succeeds iff the root is boolean or the key is absent or holds an accepted header shape; each entry appears exactly as often as the shape asks for |
| EnvoyAuth.AsOptionsCount | envoyauth/response_test.go:250-256 | wrapping entries into header-value options keeps each entry exactly as often |
| EnvoyAuth.GetResponseEnvoyHeaderValueOptions | envoyauth/response_test.go:189-271 | the same acceptance as headers to add, under `headers`; each header-value option appears exactly as often as its entry is asked for |
| EnvoyAuth.GetResponseBody | envoyauth/response_test.go:273-303 | succeeds iff the body is absent or a string; a present body is returned verbatim, an absent one as "" |
| EnvoyAuth.GetResponseEnvoyHTTPStatus | envoyauth/response_test.go:305-347 | the code returned is always recognized; absent gives 403; a non-number is an error; an unrecognized number is a range error naming it; a recognized one is returned as given |
| EnvoyAuth.GetDynamicMetadata | envoyauth/response_test.go:349-399 | a boolean root is an error; absent key gives no document; a present object converts to a document that stands for exactly that object; non-objects and unconvertible leaves are errors |
| EnvoyAuth.QueryParametersOf | envoyauth/response_test.go:452-480 | accepted iff every element is a `{key, value}` mapping of strings; one parameter per element, in order, each written back as its element |
| EnvoyAuth.GetQueryParametersToSet | envoyauth/response_test.go:421-506 | succeeds iff the root is boolean or the key is absent or holds a list of `{key, value}` mappings; plain strings are rejected; the output mirrors the list one to one in order |
| Construction.ConfigureSnoc | envoyauth/response_test.go:402-412 | applying one more callback is one more step on the fields |
| Construction.ConfigureLastWins | envoyauth/response_test.go:402-418 | callbacks run in argument order: for each field the last callback that writes it wins, an untouched field keeps its value |
| Construction.EvalResult.Apply | envoyauth/response_test.go:404-408 | one callback writes its field and nothing else |
| Construction.NewEvalResult | envoyauth/response_test.go:401-419 | the new result carries the decision id of the last `WithDecisionID` (a generated one if none is set) and the decision of the last `WithDecision` |
| Directives.SingleEntryMapping | envoyauth/response_test.go:156-163 | a single-entry mapping decodes to exactly its entry |
| Directives.SingleEntryMappingsRoundTrip | envoyauth/response_test.go:156-172 | a list of single-entry mappings decodes to its entries, one per element, in list order |
| Directives.HeadersToRemoveRoundTrip | envoyauth/response_test.go:71-80 | any list of strings under `request_headers_to_remove` comes back unchanged |
| Directives.HeadersToAddRoundTrip | envoyauth/response_test.go:156-172 | header entries written as single-entry mappings come back unchanged and in order |
| Directives.HeaderOptionsRoundTrip | envoyauth/response_test.go:232-256 | header-value options written as single-entry mappings come back unchanged and in order |
| Directives.DynamicMetadataRoundTrip | envoyauth/response_test.go:364-383 | any metadata document written under `dynamic_metadata` comes back unchanged |
| Directives.QueryParametersRoundTrip | envoyauth/response_test.go:452-480 | query parameters written as `{key, value}` mappings come back unchanged and in order |
| Directives.BooleanDecisionDefaults | envoyauth/response_test.go:386-399 | a boolean decision gives every field decoder its empty or default value (no headers, "", 403, no query parameters), except dynamic metadata, which errors |
| Directives.InvalidDecisionErrors | envoyauth/response_test.go:427-436 | a decision that is neither boolean nor mapping is an error for every decoder and for the whole assembly |
| Directives.ScalarFieldsRoundTrip | envoyauth/response_test.go:273-384 | the allow flag, body, recognized status and metadata written in the canonical decision decode back to the same values |
| Directives.DecodeEncode | envoyauth/response_test.go:13-506 | decoding the canonical decision of any directives with a recognized status gives the same directives back, under either boolean-shorthand choice |
| ResponseTests.IsAllowedCases | envoyauth/response_test.go:13-43 | no `allowed` is an error, `allowed: 1` is an error, `allowed: true` gives true |
| ResponseTests.HeadersToRemoveCases | envoyauth/response_test.go:51-85 | the seven table cases: boolean and empty mapping give [], a string root and a string value and a list holding 1 are errors, string lists come back in order |
| ResponseTests.HeadersToAddErrorCases | envoyauth/response_test.go:119-154 | no key gives no headers; a bare string and `{"foo": "bar", "baz": 1}` are errors |
| ResponseTests.HeadersToAddOneEntry | envoyauth/response_test.go:136-147 | `{"foo": "bar"}` gives exactly one header |
| ResponseTests.HeadersToAddListed | envoyauth/response_test.go:156-172 | two single-entry mappings give exactly two headers, in list order |
| ResponseTests.HeadersToAddFannedOut | envoyauth/response_test.go:174-186 | `{"foo": ["bar", "baz"]}` gives exactly two headers |
| ResponseTests.HeaderOptionsErrorCases | envoyauth/response_test.go:195-230 | no key gives no options; a bare string and a non-string value are errors |
| ResponseTests.HeaderOptionsOneEntry | envoyauth/response_test.go:212-223 | `{"foo": "bar"}` gives exactly one option |
| ResponseTests.HeaderOptionsListed | envoyauth/response_test.go:232-256 | two single-entry mappings give two options, value `bar` once and `baz` once |
| ResponseTests.HeaderOptionsFannedOut | envoyauth/response_test.go:258-270 | `{"foo": ["bar", "baz"]}` gives exactly two options |
| ResponseTests.BodyCases | envoyauth/response_test.go:273-303 | absent body gives "", "hello" comes back verbatim, 123 is an error |
| ResponseTests.HttpStatusCases | envoyauth/response_test.go:305-347 | absent gives Forbidden (403), true, 1 and 9999 are errors, 400 gives BadRequest |
| ResponseTests.DynamicMetadataCases | envoyauth/response_test.go:349-399 | absent gives no document, `{"foo": "bar"}` gives the document whose only field is foo = "bar", a boolean decision is an error |
| ResponseTests.QueryParametersCases | envoyauth/response_test.go:421-506 | the seven table cases: boolean and empty mapping give [], a string root, a string value and a list of strings are errors, `{key, value}` lists come back one to one in order |
| ResponseTests.NewEvalResultWithDecisionID | envoyauth/response_test.go:401-419 | a result built with `WithDecisionID("some-decision-id")` carries exactly that decision id, whatever id the generator would give |

## Left out

- EnvoyAuth.IsAllowed: what a bare boolean decision yields is not pinned down by the observed behaviour; it is the parameter `BooleanShorthand` and every property is proved for both choices.
- EnvoyAuth.GetResponseHTTPHeadersToAdd: for mapping shapes the result is stated as a multiset, not a sequence, because Go's map iteration order is unspecified.
- EnvoyAuth.GetResponseEnvoyHeaderValueOptions: stated as a multiset for mapping shapes, for the same reason.
- Normalizer.FromMapping: the model fixes one order of a mapping's keys, so two calls on the same decision return the same sequence; Go's map iteration order can differ from one call to the next, and only the multiset of entries is the same. Nothing in the model relies on the fixed order.
- Header-value options carry only their header; their other Envoy fields (such as the append action) are not modelled.
- Envoy and protobuf message types are plain records: `HeaderValueOption`, `QueryParameter`, `HttpStatus` (an integer code; enum names such as Forbidden and BadRequest are constants) and `Struct`.
- Numbers are integers. `json.Number` and native Go integers are one case (`VNum`); parsing a `json.Number` that is not an integer, and protobuf's float64 number representation, are not modelled.
- Go's distinction between `[]string`, `[]interface{}` and `[]map[string]interface{}` is folded into `VList`; the element shapes carry the difference.
- The enumeration's zero value, which is not an HTTP status, is not a recognized code here.
- Decode errors are kinds (shape, missing key, key type, element type, range, structure); the text of the error messages is not modelled.
- Where the observed behaviour is silent the model follows the documented design: in map mode each element of a list must be a mapping with exactly one entry; a query parameter must be a mapping with exactly the keys `key` and `value`; dynamic metadata must be an object; a decision that is neither a boolean nor a mapping is an error for the body decoder too.
- NewEvalResult: configuration callbacks are the two setters `WithDecisionID` and `WithDecision`, not arbitrary Go closures; the identifier generator is the parameter `generatedID`, and its failure (the constructor's error return) is not modelled.
- The evaluator handle `NewEvalResult` returns, metrics, revisions and storage transactions are opaque to the decoders and are not modelled.
- How the request-handling layer uses the directives (sending the gRPC response, decision logging) is outside this component.
