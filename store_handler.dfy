/**
 * `MockStoreHandler`: a stand-in store handler. It is not a key/value store: `Store`
 * and `Get` ignore the key and the value, record that they were called and return what
 * was injected, so nothing stored is ever read back.
 */
module StoreHandler {
  import opened Common
  import opened Errors

  /** The error sentinels of store operations; each is its own allocation. */
  const ErrEmptyKey: Error := Leaf(3, "empty key")
  const ErrKeyNotFound: Error := Leaf(4, "key not found")

  /** "Empty key" and "key not found" are different errors to `errors.Is`, and neither
      is a bad-evidence error. */
  lemma SentinelsAreDistinct(d: Detail)
    ensures Is(ErrEmptyKey, ErrEmptyKey) && Is(ErrKeyNotFound, ErrKeyNotFound)
    ensures !Is(ErrEmptyKey, ErrKeyNotFound) && !Is(ErrKeyNotFound, ErrEmptyKey)
    ensures !Is(ErrEmptyKey, BadEvidence(d)) && !Is(ErrKeyNotFound, BadEvidence(d))
  {
  }

  /** The scheme every mock store reports. */
  const MockScheme := "mock-scheme"

  /** A snapshot of every field of the mock. */
  datatype MockState = MockState(
    storeCalled: bool, storeError: Option<Error>,
    getCalled: bool, getError: Option<Error>,
    mockData: Bytes)

  class MockStoreHandler {
    var storeCalled: bool
    var storeError: Option<Error>
    var getCalled: bool
    var getError: Option<Error>
    var mockData: Bytes

    function State(): MockState
      reads this
    {
      MockState(storeCalled, storeError, getCalled, getError, mockData)
    }

    constructor (storeError: Option<Error>, getError: Option<Error>, mockData: Bytes)
      ensures State() == MockState(false, storeError, false, getError, mockData)
    {
      this.storeCalled := false;
      this.storeError := storeError;
      this.getCalled := false;
      this.getError := getError;
      this.mockData := mockData;
    }

    /** Records the call and returns the injected `StoreError`; the value is dropped and
        `MockData` is left as it was. */
    method Store(key: string, value: Bytes) returns (err: Option<Error>)
      modifies this`storeCalled
      ensures State() == old(State()).(storeCalled := true)
      ensures err == storeError
    {
      storeCalled := true;
      err := storeError;
    }

    /** Records the call and returns `MockData` together with the injected `GetError`,
        for any key. */
    method Get(key: string) returns (data: Bytes, err: Option<Error>)
      modifies this`getCalled
      ensures State() == old(State()).(getCalled := true)
      ensures data == mockData && err == getError
    {
      getCalled := true;
      data, err := mockData, getError;
    }

    /** The fixed scheme name; no field changes. */
    method GetAttestationScheme() returns (scheme: string)
      ensures scheme == "mock-scheme"
    {
      scheme := MockScheme;
    }
  }

  /** "test-data" and "test-value" as bytes. */
  const TestData: Bytes := [0x74, 0x65, 0x73, 0x74, 0x2d, 0x64, 0x61, 0x74, 0x61]
  const TestValue: Bytes := [0x74, 0x65, 0x73, 0x74, 0x2d, 0x76, 0x61, 0x6c, 0x75, 0x65]

  /** The store test: a Store of "test-value" succeeds, a later Get still yields
      "test-data", and the scheme is "mock-scheme". */
  method MockStoreHandlerScenario()
    returns (storeErr: Option<Error>, data: Bytes, getErr: Option<Error>, scheme: string)
    ensures storeErr.None? && getErr.None?
    ensures data == TestData && data != TestValue
    ensures scheme == "mock-scheme"
  {
    var handler := new MockStoreHandler(None, None, TestData);

    storeErr := handler.Store("test-key", TestValue);
    assert handler.storeCalled && !handler.getCalled;

    data, getErr := handler.Get("test-key");
    assert handler.getCalled;

    scheme := handler.GetAttestationScheme();
  }

  /** The four error cases of the store test: Store and Get each return exactly the
      injected `ErrKeyNotFound` for "test-key" and the injected `ErrEmptyKey` for "". */
  method StoreErrorsScenario()
    returns (storeNotFound: Option<Error>, getNotFound: Option<Error>,
             storeEmpty: Option<Error>, getEmpty: Option<Error>)
    ensures storeNotFound == Some(ErrKeyNotFound) && getNotFound == Some(ErrKeyNotFound)
    ensures storeEmpty == Some(ErrEmptyKey) && getEmpty == Some(ErrEmptyKey)
  {
    var h1 := new MockStoreHandler(Some(ErrKeyNotFound), None, []);
    storeNotFound := h1.Store("test-key", TestValue);
    var h2 := new MockStoreHandler(None, Some(ErrKeyNotFound), []);
    var _, r2 := h2.Get("test-key");
    getNotFound := r2;
    var h3 := new MockStoreHandler(Some(ErrEmptyKey), None, []);
    storeEmpty := h3.Store("", TestValue);
    var h4 := new MockStoreHandler(None, Some(ErrEmptyKey), []);
    var _, r4 := h4.Get("");
    getEmpty := r4;
  }

  /** A configured error comes back identically for an empty and a non-empty key. */
  method ErrorsIgnoreKeyScenario(key: string, value: Bytes)
    returns (e1: Option<Error>, e2: Option<Error>, g1: Option<Error>, g2: Option<Error>)
    ensures e1 == e2 == Some(ErrEmptyKey)
    ensures g1 == g2 == Some(ErrKeyNotFound)
  {
    var storing := new MockStoreHandler(Some(ErrEmptyKey), None, []);
    e1 := storing.Store("", value);
    e2 := storing.Store(key, value);

    var getting := new MockStoreHandler(None, Some(ErrKeyNotFound), []);
    var _, r1 := getting.Get("");
    var _, r2 := getting.Get(key);
    g1, g2 := r1, r2;
    assert !getting.storeCalled;
  }
}
