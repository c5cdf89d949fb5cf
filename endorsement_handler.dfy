/**
 * `MockEndorsementHandler`: a stand-in endorsement handler whose every method records
 * that it was called and hands back what was injected into it.
 */
module EndorsementHandler {
  import opened Common
  import opened Json
  import opened Errors
  import opened Endorsements

  /** `EndorsementHandlerParams`: configuration options, never read by the mock. */
  type Params = map<string, Json.Value>

  /** A snapshot of every field of the mock. */
  datatype MockState = MockState(
    initCalled: bool, initError: Option<Error>,
    closeCalled: bool, closeError: Option<Error>,
    decodeCalled: bool, decodeError: Option<Error>,
    mockResponse: Option<Response>)

  class MockEndorsementHandler {
    var initCalled: bool
    var initError: Option<Error>
    var closeCalled: bool
    var closeError: Option<Error>
    var decodeCalled: bool
    var decodeError: Option<Error>
    /** `None` is a nil `*EndorsementHandlerResponse`. */
    var mockResponse: Option<Response>

    function State(): MockState
      reads this
    {
      MockState(initCalled, initError, closeCalled, closeError, decodeCalled, decodeError, mockResponse)
    }

    /** A struct literal naming the injected results; no method has been called yet. */
    constructor (initError: Option<Error>, closeError: Option<Error>,
                 decodeError: Option<Error>, mockResponse: Option<Response>)
      ensures State() == MockState(false, initError, false, closeError, false, decodeError, mockResponse)
    {
      this.initCalled := false;
      this.initError := initError;
      this.closeCalled := false;
      this.closeError := closeError;
      this.decodeCalled := false;
      this.decodeError := decodeError;
      this.mockResponse := mockResponse;
    }

    /** Records the call and returns the injected `InitError`. */
    method Init(params: Params) returns (err: Option<Error>)
      modifies this`initCalled
      ensures State() == old(State()).(initCalled := true)
      ensures err == initError
    {
      initCalled := true;
      err := initError;
    }

    /** Records the call and returns the injected `CloseError`. */
    method Close() returns (err: Option<Error>)
      modifies this`closeCalled
      ensures State() == old(State()).(closeCalled := true)
      ensures err == closeError
    {
      closeCalled := true;
      err := closeError;
    }

    /** Records the call; with an injected error returns no response and that error,
        otherwise `MockResponse` as it is and no error. The document, its media type and
        the CA pool are not looked at. */
    method Decode(data: Bytes, mediaType: string, caCertPool: Option<Bytes>)
      returns (resp: Option<Response>, err: Option<Error>)
      modifies this`decodeCalled
      ensures State() == old(State()).(decodeCalled := true)
      ensures err == decodeError
      ensures decodeError.Some? ==> resp.None?
      ensures decodeError.None? ==> resp == mockResponse
    {
      decodeCalled := true;
      if decodeError.Some? {
        return None, decodeError;
      }
      return mockResponse, None;
    }
  }

  /** The handler test: Init, Decode and Close on a mock whose response holds one
      reference value and leaves the trust anchors and signer info nil. Every call
      succeeds, and the decoded response carries that single reference value; serialised,
      its nil members are `null`. */
  method MockEndorsementHandlerScenario()
    returns (initErr: Option<Error>, resp: Option<Response>, decodeErr: Option<Error>,
             closeErr: Option<Error>)
    ensures initErr.None? && decodeErr.None? && closeErr.None?
    ensures resp.Some? && resp.value.referenceValues.Some?
    ensures |resp.value.referenceValues.value| == 1
    ensures resp.value.referenceValues.value[0].scheme == "test-scheme"
    ensures resp.value.referenceValues.value[0].endorsementType == ReferenceValue
    ensures ResponseToJson(resp.value).fields["TrustAnchors"] == JNull
    ensures ResponseToJson(resp.value).fields["SignerInfo"] == JNull
  {
    var rv := Endorsement("test-scheme", ReferenceValue, "test-subtype",
      JObject(map["key" := JString("value")]));
    var handler := new MockEndorsementHandler(None, None, None, Some(Response(Some([rv]), None, None)));

    initErr := handler.Init(map["param" := JString("value")]);
    assert handler.initCalled;

    resp, decodeErr := handler.Decode([0x74, 0x65, 0x73, 0x74], "application/json", None);
    assert handler.decodeCalled;

    closeErr := handler.Close();
    assert handler.closeCalled && handler.initCalled && handler.decodeCalled;
  }

  /** An injected decode error is returned with no response, whatever the input. */
  method DecodeErrorScenario(data: Bytes, mediaType: string, failure: Error, r: Response)
    returns (resp: Option<Response>, err: Option<Error>)
    ensures resp.None? && err == Some(failure)
  {
    var handler := new MockEndorsementHandler(None, None, Some(failure), Some(r));
    resp, err := handler.Decode(data, mediaType, None);
    assert !handler.initCalled && !handler.closeCalled;
  }
}
