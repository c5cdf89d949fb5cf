# Handler contracts of the Veraison verification services, in Dafny

This project models the `handler` package of the Veraison services, as far as its test files
fix the behaviour:

- **Bad-evidence errors** (`errors.dfy`, module `Errors`). A Go `error` is a chain:
  `Leaf(id, msg)` is an `errors.New(msg)`; `Wrap(id, prefix, inner)` is a
  `fmt.Errorf(prefix + "%w", inner)`, whose message is the prefix followed by the inner message;
  `BadEvidence(detail)` is a `BadEvidenceError`. Its `Detail` is a tagged variant: `Text`, `Err`
  (an error chain) or `Other` (any other value). The module defines the JSON projection
  (`ToJson`, standing for `MarshalJSON`), `UnwrapDetail` (`BadEvidenceError.Unwrap`), `Unwrap`
  (`errors.Unwrap`), `IsKind` (`BadEvidenceError.Is`) and `Is` (`errors.Is`). `ToJson`, `Unwrap`
  and `Is` are proved against `Chain`, an independent list of the layers of an error;
  `UnwrapDetail` and `IsKind` are single-step operations whose contracts state their results
  directly.
- **Endorsement model** (`endorsements.dfy`, module `Endorsements`). It holds the
  `EndorsementType` constants, `Endorsement` and `EndorsementHandlerResponse` (`Response`), and
  a JSON encoding of them. A response's slices and map may be Go `nil` (`None`), which encodes
  as `null`, or present and possibly empty, which encodes as `[]` or `{}`. A decoder for each
  encoder comes with round-trip lemmas.
- **Mock handlers** (`endorsement_handler.dfy`, `evidence_handler.dfy`, `store_handler.dfy`).
  `MockEndorsementHandler`, `MockEvidenceHandler` and `MockStoreHandler` are classes whose fields
  are the Go struct's fields. Each method sets its `...Called` field and returns the injected
  results. Each method may modify only its own flag, and says of the whole new state
  `State() == old(State()).(flag := true)`. The error sentinels `ErrUnsupportedFormat`,
  `ErrValidationFailed`, `ErrEmptyKey` and `ErrKeyNotFound` are constants. A scenario method per
  test replays that test against the contracts.
- `json.dfy` holds the JSON value tree. Objects are maps, so key order does not matter, just as
  in the tests' `JSONEq` comparisons. `common.dfy` holds `Option` (Go's `nil`) and `Bytes`.

Go pointers returned by `errors.New` and `fmt.Errorf` compare equal only when they are one
allocation. The `id` field on `Leaf` and `Wrap` stands for that allocation, which is how `Is`
tells "the same error" from "an error with the same text".

The mock store neither rejects empty keys nor returns what was stored, and the package's code
has no validate-then-extract pipeline, so the model has neither. The third endorsement type,
`EndorsementType_VERIFICATION_KEY`, is the string `"trust anchor"`.

## Model

| member | source | states |
|---|---|---|
| `Errors.JsonFields` | handler/error_full_test.go:20-46 | every serialised bad-evidence error has `error: "bad evidence"`; `detail-type` is `string`, `error` or `other` by variant; a string detail is serialised as itself and an other detail as its raw JSON value |
| `Errors.ToJson` | handler/error_full_test.go:23-45 | the serialised form is an object with exactly the keys `error`, `detail-type`, `detail` |
| `Errors.ErrorDetailIsMessageList` | handler/error_full_test.go:30-37 | an error detail of depth n serialises as an array of n messages: entry k is the message of layer k, entry 0 is the detail's own message, and the last layer does not unwrap |
| `Errors.MessagesFollowChain` | handler/error_full_test.go:35 | the message list has one entry per chain layer, in chain order (outermost first) |
| `Errors.ChainEndsUnwrapped` | handler/error_full_test.go:35 | the innermost listed layer is one that `Unwrap` cannot go past |
| `Errors.Message` | handler/error_full_test.go:31-35 | a plain error's message is its own text; a wrapping error's message ends with the wrapped error's message; a bad-evidence error's message starts with `"bad evidence: "` |
| `Errors.Depth` | handler/error_full_test.go:31-35 | every error has at least one layer |
| `Errors.Messages` | handler/error_full_test.go:35 | the message list has one entry per layer and starts with the error's own message |
| `Errors.DetailType` | handler/error_full_test.go:25-43 | the `detail-type` name is `string`, `error` or `other` exactly when the detail is a string, an error or another value |
| `Errors.Chain` | handler/error_full_test.go:31 | the chain of an error starts with the error and has one entry per layer |
| `Errors.StringDetailJson` | handler/error_full_test.go:20-28 | `{"test error"}` serialises to exactly the test's expected object |
| `Errors.WrappedDetailJson` | handler/error_full_test.go:29-37 | `{fmt.Errorf("wrapped: %w", errors.New("inner"))}` serialises with detail `["wrapped: inner","inner"]` |
| `Errors.OtherDetailJson` | handler/error_full_test.go:38-46 | `{42}` serialises with `detail-type: "other"` and detail `42` |
| `Errors.UnwrapDetail` | handler/error_full_test.go:58-97 | `Unwrap` returns an error exactly when the detail is an error, and then returns that very error, leaf or wrapping, with the detail's message |
| `Errors.Unwrap` | handler/error_full_test.go:121 | one unwrapping step drops exactly the first layer of the chain; it returns nothing exactly at a one-layer chain |
| `Errors.UnwrapCases` | handler/error_full_test.go:59-84 | the three unwrap test cases: `"wrapped: inner error"`, `"simple"`, and nil for a string detail |
| `Errors.IsKind` | handler/error_full_test.go:107-118 | `BadEvidenceError.Is` accepts every bad-evidence target, and whatever it accepts is a layer match of the receiver |
| `Errors.Is` | handler/error_full_test.go:100-131 | a layer that matches the target makes `errors.Is` hold; a match against a plain (non-bad-evidence) target is never against a target deeper than the error itself |
| `Errors.WrapAll` | handler/error_full_test.go:121 | wrapping with n `%w` layers adds exactly n layers to the chain |
| `Errors.IsMeansSomeLayerMatches` | handler/error_full_test.go:100-131 | `errors.Is(err, target)` holds iff some layer of err's chain is the target itself, or is a bad-evidence error while the target is one |
| `Errors.MatchingLayer` | handler/error_full_test.go:119-124 | when `errors.Is` holds, it names a layer of the chain that is the target or is a bad-evidence error matching a bad-evidence target |
| `Errors.NoLayerMatches` | handler/error_full_test.go:113-118 | when `errors.Is` fails, no layer of the chain is the target or a bad-evidence error matching a bad-evidence target |
| `Errors.BadEvidenceMatchesAnyBadEvidence` | handler/error_full_test.go:107-112 | any bad-evidence error matches any other, whatever both details are |
| `Errors.IsIgnoresTargetDetail` | handler/error_full_test.go:107-124 | whether an error matches `BadEvidenceError{x}` does not depend on x, and holds iff some layer of its chain is a bad-evidence error |
| `Errors.IsThroughWrapping` | handler/error_full_test.go:119-124 | a match survives any number of `%w` wrapping layers |
| `Errors.IsThroughDetail` | handler/error_full_test.go:68-72 | a bad-evidence error whose detail is an error matches whatever that error matches |
| `Errors.PlainTargetMatchesOnlyItself` | handler/error_full_test.go:113-118 | a target that is not a bad-evidence error matches iff it is itself a layer of the chain, so a plain error with the detail's text does not match |
| `Errors.IsCases` | handler/error_full_test.go:107-124 | the three `TestIs` cases: true, false, true |
| `Endorsements.TypeName` | handler/endorsement_test.go:101-105 | each constant is exactly its own string: `"unspecified"`, `"reference value"` or `"trust anchor"`, each string belonging to one constant only |
| `Endorsements.ParseTypeName` | handler/endorsement_test.go:101-105 | maps each of the three type strings back to its constant and every other string to none |
| `Endorsements.TypeNames` | handler/endorsement_test.go:101-105 | the constants are `"unspecified"`, `"reference value"`, `"trust anchor"`, pairwise distinct |
| `Endorsements.EndorsementToJson` | handler/endorsement_test.go:62-66 | an endorsement serialises as an object with exactly the members `Scheme`, `Type`, `SubType`, `Attributes`, the attributes carried verbatim |
| `Endorsements.ListToJson` | handler/endorsement_test.go:54-58 | an endorsement list serialises as an array of the same length, entry by entry |
| `Endorsements.SliceToJson` | handler/endorsement_test.go:54-55 | a slice serialises as `null` exactly when it is nil, and otherwise as the list's array (`[]` when empty) |
| `Endorsements.SignerInfoToJson` | handler/endorsement_test.go:56-58 | signer info serialises as an object with the same keys |
| `Endorsements.SignerMapToJson` | handler/endorsement_test.go:56-58 | a signer map serialises as `null` exactly when it is nil, and otherwise as an object (`{}` when empty) |
| `Endorsements.ResponseToJson` | handler/endorsement_test.go:52-58 | a serialised response has exactly the three members; each is `null` exactly when the field is nil, and otherwise an array of the slice's length or an object with the map's keys |
| `Endorsements.EndorsementFromJson` | handler/endorsement_test.go:61-79 | decoding succeeds only on the serialised form of the endorsement it returns |
| `Endorsements.ListFromJson` | handler/endorsement_test.go:69-77 | decoding a list succeeds only on the serialised form of the list it returns |
| `Endorsements.SliceFromJson` | handler/endorsement_test.go:54-55 | reading a slice back succeeds only on the serialised form of the slice (nil or not) it returns |
| `Endorsements.SignerMapFromJson` | handler/endorsement_test.go:56-58 | reading a signer map back succeeds only on the serialised form of the map (nil or not) it returns |
| `Endorsements.SignerInfoFromJson` | handler/endorsement_test.go:78 | decoding signer info succeeds only on the serialised form of the map it returns |
| `Endorsements.ResponseFromJson` | handler/endorsement_test.go:83-89 | decoding a response succeeds only on the serialised form of the response it returns |
| `Endorsements.EndorsementRoundTrip` | handler/endorsement_test.go:62-75 | an endorsement keeps its scheme, type, subtype and attributes through its JSON |
| `Endorsements.ListRoundTrip` | handler/endorsement_test.go:68-77 | a list of endorsements keeps every entry, in order and with duplicates, through its JSON |
| `Endorsements.SignerInfoRoundTrip` | handler/endorsement_test.go:78 | signer info is recovered exactly from its JSON |
| `Endorsements.SliceRoundTrip` | handler/endorsement_test.go:54-55 | a slice comes back from its JSON nil if it was nil, and otherwise with the same entries |
| `Endorsements.SignerMapRoundTrip` | handler/endorsement_test.go:56-58 | a signer map comes back from its JSON nil if it was nil, and otherwise equal |
| `Endorsements.ResponseRoundTrip` | handler/endorsement_test.go:83-88 | a response is recovered exactly from its JSON, nil fields staying nil and empty ones empty |
| `Endorsements.EmptyResponseJson` | handler/endorsement_test.go:52-58 | the response with empty fields serialises to exactly `{"ReferenceValues":[],"TrustAnchors":[],"SignerInfo":{}}`, while the all-nil response serialises to three `null`s |
| `Endorsements.ReferenceValueFields` | handler/endorsement_test.go:91-95 | in the JSON of a response with reference values, the k-th entry carries the k-th endorsement's scheme, type name, subtype and attributes unchanged |
| `EndorsementHandler.MockEndorsementHandler.constructor` | handler/endorsement_test.go:15-24 | a fresh mock has no flag set and holds the injected results |
| `EndorsementHandler.MockEndorsementHandler.Init` | handler/endorsement_test.go:26-29 | sets `InitCalled`, changes nothing else, returns exactly `InitError` |
| `EndorsementHandler.MockEndorsementHandler.Close` | handler/endorsement_test.go:31-34 | sets `CloseCalled`, changes nothing else, returns exactly `CloseError` |
| `EndorsementHandler.MockEndorsementHandler.Decode` | handler/endorsement_test.go:36-42 | sets `DecodeCalled` and changes nothing else; with a `DecodeError` returns no response and that error, otherwise `MockResponse` unchanged and no error, whatever the inputs |
| `EndorsementHandler.MockEndorsementHandlerScenario` | handler/endorsement_test.go:107-136 | on a mock holding one reference value with nil trust anchors and signer info: Init, Decode and Close return no error, and the response has exactly that one reference value; its trust anchors and signer info encode as `null` |
| `EndorsementHandler.DecodeErrorScenario` | handler/endorsement_test.go:36-42 | a mock with a `DecodeError` returns no response and exactly that error, for any input and any `MockResponse` |
| `EvidenceHandler.SentinelsAreDistinct` | handler/evidence_test.go:15-18 | `ErrUnsupportedFormat` and `ErrValidationFailed` each match only themselves and are not bad-evidence errors |
| `EvidenceHandler.MockEvidenceHandler.constructor` | handler/evidence_test.go:21-28 | a fresh mock has no flag set and holds the injected results |
| `EvidenceHandler.MockEvidenceHandler.ExtractClaims` | handler/evidence_test.go:30-36 | sets `ExtractClaimsCalled` on both paths and changes nothing else; with an injected error returns nil claims and exactly that error, otherwise `MockClaims` exactly and no error, for any token and trust anchors |
| `EvidenceHandler.MockEvidenceHandler.ValidateEvidenceIntegrity` | handler/evidence_test.go:38-41 | sets `ValidateEvidenceIntegrityCalled`, changes nothing else, returns the injected error verbatim (none means success) |
| `EvidenceHandler.ExtractClaimsScenario` | handler/evidence_test.go:43-98 | the mock holding `{"key1":"value1","key2":42}` returns exactly those claims and no error; the one holding `ErrUnsupportedFormat` returns nil claims and that error |
| `EvidenceHandler.ValidateEvidenceIntegrityScenario` | handler/evidence_test.go:100-142 | the empty mock accepts `"test-data"`; the one holding `ErrValidationFailed` rejects `"invalid-data"` with that error |
| `EvidenceHandler.ResultsIgnoreInputs` | handler/evidence_test.go:30-41 | two calls with different tokens and trust anchors return the same claims and errors |
| `StoreHandler.SentinelsAreDistinct` | handler/store_test.go:14-17 | `ErrEmptyKey` and `ErrKeyNotFound` each match only themselves and are not bad-evidence errors |
| `StoreHandler.MockStoreHandler.constructor` | handler/store_test.go:20-26 | a fresh mock has no flag set and holds the injected results |
| `StoreHandler.MockStoreHandler.Store` | handler/store_test.go:28-31 | sets `StoreCalled`, leaves `MockData`, `GetCalled` and the rest alone, and returns exactly `StoreError` for any key and value |
| `StoreHandler.MockStoreHandler.Get` | handler/store_test.go:33-36 | sets `GetCalled`, leaves `StoreCalled` and the rest alone, and returns `MockData` and `GetError` unchanged for any key |
| `StoreHandler.MockStoreHandler.GetAttestationScheme` | handler/store_test.go:38-40 | always returns `"mock-scheme"` and changes no field |
| `StoreHandler.MockStoreHandlerScenario` | handler/store_test.go:42-61 | Store of `"test-value"` succeeds, the following Get returns `"test-data"` (not the stored value) and no error, and the scheme is `"mock-scheme"` |
| `StoreHandler.StoreErrorsScenario` | handler/store_test.go:63-122 | Store and Get return exactly the injected `ErrKeyNotFound` for `"test-key"` and the injected `ErrEmptyKey` for `""` |
| `StoreHandler.ErrorsIgnoreKeyScenario` | handler/store_test.go:28-36 | an injected error is returned identically for the empty key and for any other key |

## Left out

- `plugin.Plugin[plugin.IPluggable]`, embedded in two of the mocks, is left out. It is a foreign package whose logic is not part of this model.
- `context.Context` and cancellation are left out. The mocks never read the context.
- `proto.AttestationToken` is reduced to `TenantId` and `Data`. It is generated code that is not part of this model. A nil token pointer is not modelled, because the mocks never dereference it.
- The `encoding/json` byte encoder is not modelled. JSON is an abstract value tree. `json.RawMessage` attributes and claim values are opaque JSON values. JSON numbers are integers, which covers the `42` of the tests.
- Nil is `Option.None` for the response slices and signer map (encoded as `null`), the response pointer, errors and the claims map. A nil `[]byte` (`MockData`, the result of `Get`, the `data`, `value` and token `Data` arguments) is the empty sequence, which no test tells apart from nil. The lists inside a `Response` are not further distinguished by capacity.
- Endorsements.EndorsementToJson: the struct tags of `Endorsement` are not part of this model, and no test fixes its JSON member names; the model takes them to be the Go field names `Scheme`, `Type`, `SubType` and `Attributes`. The response's member names are the ones the test's expected JSON fixes.
- `EndorsementType` is a closed set of three constants. The Go type would admit any string.
- Errors.Message: the production `BadEvidenceError.Error()` is not part of this model. It is not fixed by the code's tests. The model assumes `"bad evidence: "` followed by the detail's text, and an `Other` detail carries its printed form. No stated property depends on that text.
- Errors.Is: `errors.Is` with a nil error or target, `Unwrap() []error` multi-errors, and the runtime panic when comparing uncomparable details are not modelled. The handler code never does any of these.
- Errors.ToJson: how the production `MarshalJSON` walks the chain is not part of this model. It is modelled as the message list along `errors.Unwrap`, which is what the test fixes.
- Mock methods return injected values, not Go references, so aliasing is not modelled: neither between `MockResponse` and the response pointer `Decode` returns, nor between `MockClaims` and the map `ExtractClaims` returns (a Go map is a reference).
- There is no store/get round trip, no "key required" check, no scheme registry and no validate-then-extract pipeline. The package's code has none of them: the mock store ignores its key and value.
- The testify assertion machinery and any scheme's cryptographic validation are left out. The test bodies are replayed as scenario methods, whose assertions hold by the contracts alone.
