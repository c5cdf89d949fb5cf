/**
 * `MockEvidenceHandler`: a stand-in evidence handler whose methods record that they were
 * called and hand back the injected claims and errors, whatever token they are given.
 */
module EvidenceHandler {
  import opened Common
  import opened Json
  import opened Errors

  /** Claims: keys mapped to arbitrary structured values. */
  type Claims = map<string, Json.Value>

  /** `proto.AttestationToken`, reduced to the two fields the handlers see. */
  datatype AttestationToken = AttestationToken(tenantId: string, data: Bytes)

  /** The error sentinels of evidence handling; each is its own allocation. */
  const ErrUnsupportedFormat: Error := Leaf(1, "unsupported evidence format")
  const ErrValidationFailed: Error := Leaf(2, "evidence validation failed")

  /** The two sentinels are told apart by `errors.Is`, and neither is a bad-evidence
      error. */
  lemma SentinelsAreDistinct(d: Detail)
    ensures Is(ErrUnsupportedFormat, ErrUnsupportedFormat) && Is(ErrValidationFailed, ErrValidationFailed)
    ensures !Is(ErrUnsupportedFormat, ErrValidationFailed) && !Is(ErrValidationFailed, ErrUnsupportedFormat)
    ensures !Is(ErrUnsupportedFormat, BadEvidence(d)) && !Is(ErrValidationFailed, BadEvidence(d))
  {
  }

  /** A snapshot of every field of the mock. */
  datatype MockState = MockState(
    extractClaimsCalled: bool, extractClaimsError: Option<Error>, mockClaims: Option<Claims>,
    validateEvidenceIntegrityCalled: bool, validateEvidenceIntegrityError: Option<Error>)

  class MockEvidenceHandler {
    var extractClaimsCalled: bool
    var extractClaimsError: Option<Error>
    /** `None` is a nil claims map. */
    var mockClaims: Option<Claims>
    var validateEvidenceIntegrityCalled: bool
    var validateEvidenceIntegrityError: Option<Error>

    function State(): MockState
      reads this
    {
      MockState(extractClaimsCalled, extractClaimsError, mockClaims,
        validateEvidenceIntegrityCalled, validateEvidenceIntegrityError)
    }

    constructor (extractClaimsError: Option<Error>, mockClaims: Option<Claims>,
                 validateEvidenceIntegrityError: Option<Error>)
      ensures State() == MockState(false, extractClaimsError, mockClaims, false, validateEvidenceIntegrityError)
    {
      this.extractClaimsCalled := false;
      this.extractClaimsError := extractClaimsError;
      this.mockClaims := mockClaims;
      this.validateEvidenceIntegrityCalled := false;
      this.validateEvidenceIntegrityError := validateEvidenceIntegrityError;
    }

    /** Records the call on both paths; with an injected error returns nil claims and
        that error, otherwise `MockClaims` exactly and no error. */
    method ExtractClaims(token: AttestationToken, trustAnchors: seq<string>)
      returns (claims: Option<Claims>, err: Option<Error>)
      modifies this`extractClaimsCalled
      ensures State() == old(State()).(extractClaimsCalled := true)
      ensures err == extractClaimsError
      ensures extractClaimsError.Some? ==> claims.None?
      ensures extractClaimsError.None? ==> claims == mockClaims
    {
      extractClaimsCalled := true;
      if extractClaimsError.Some? {
        return None, extractClaimsError;
      }
      return mockClaims, None;
    }

    /** Records the call and returns the injected error verbatim; `None` is success. */
    method ValidateEvidenceIntegrity(token: AttestationToken, trustAnchors: seq<string>)
      returns (err: Option<Error>)
      modifies this`validateEvidenceIntegrityCalled
      ensures State() == old(State()).(validateEvidenceIntegrityCalled := true)
      ensures err == validateEvidenceIntegrityError
    {
      validateEvidenceIntegrityCalled := true;
      err := validateEvidenceIntegrityError;
    }
  }

  /** "test-data" and "invalid-data" as bytes. */
  const TestData: Bytes := [0x74, 0x65, 0x73, 0x74, 0x2d, 0x64, 0x61, 0x74, 0x61]
  const InvalidData: Bytes := [0x69, 0x6e, 0x76, 0x61, 0x6c, 0x69, 0x64, 0x2d, 0x64, 0x61, 0x74, 0x61]

  /** The extraction test: a mock holding claims returns exactly them and no error; one
      holding `ErrUnsupportedFormat` returns nil claims and that error; both record the
      call. */
  method ExtractClaimsScenario()
    returns (okClaims: Option<Claims>, okErr: Option<Error>,
             failClaims: Option<Claims>, failErr: Option<Error>)
    ensures okErr.None? && okClaims == Some(map["key1" := JString("value1"), "key2" := JNumber(42)])
    ensures failErr == Some(ErrUnsupportedFormat) && failClaims.None?
  {
    var token := AttestationToken("test-tenant", TestData);
    var mockClaims := map["key1" := JString("value1"), "key2" := JNumber(42)];

    var ok := new MockEvidenceHandler(None, Some(mockClaims), None);
    okClaims, okErr := ok.ExtractClaims(token, ["anchor1", "anchor2"]);
    assert ok.extractClaimsCalled;

    var failing := new MockEvidenceHandler(Some(ErrUnsupportedFormat), None, None);
    failClaims, failErr := failing.ExtractClaims(token, ["anchor1"]);
    assert failing.extractClaimsCalled && !failing.validateEvidenceIntegrityCalled;
  }

  /** The validation test: an empty mock accepts "test-data", one holding
      `ErrValidationFailed` rejects "invalid-data" with that error; both record the call. */
  method ValidateEvidenceIntegrityScenario() returns (okErr: Option<Error>, failErr: Option<Error>)
    ensures okErr.None?
    ensures failErr == Some(ErrValidationFailed)
  {
    var ok := new MockEvidenceHandler(None, None, None);
    okErr := ok.ValidateEvidenceIntegrity(AttestationToken("test-tenant", TestData), ["anchor1", "anchor2"]);
    assert ok.validateEvidenceIntegrityCalled && !ok.extractClaimsCalled;

    var failing := new MockEvidenceHandler(None, None, Some(ErrValidationFailed));
    failErr := failing.ValidateEvidenceIntegrity(AttestationToken("test-tenant", InvalidData), ["anchor1"]);
    assert failing.validateEvidenceIntegrityCalled;
  }

  /** Results depend on neither the token nor the trust-anchor list: two calls with
      different inputs return the same values. */
  method ResultsIgnoreInputs(h: MockEvidenceHandler, t1: AttestationToken, a1: seq<string>,
                             t2: AttestationToken, a2: seq<string>)
    returns (c1: Option<Claims>, e1: Option<Error>, c2: Option<Claims>, e2: Option<Error>,
             v1: Option<Error>, v2: Option<Error>)
    modifies h
    ensures c1 == c2 && e1 == e2 && v1 == v2
  {
    c1, e1 := h.ExtractClaims(t1, a1);
    c2, e2 := h.ExtractClaims(t2, a2);
    v1 := h.ValidateEvidenceIntegrity(t1, a1);
    v2 := h.ValidateEvidenceIntegrity(t2, a2);
  }
}
