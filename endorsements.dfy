/**
 * The endorsement data model shared by every scheme plugin: the endorsement types, a
 * single `Endorsement`, the `EndorsementHandlerResponse` a decoder returns, and their
 * JSON shape. A response's lists and map may be Go `nil`, which `encoding/json` writes as
 * `null`, or present and possibly empty, written as `[]` and `{}`. The endorsement member
 * names are taken to be the Go field names. A decoder from that shape back to the model
 * is the partner of each encoder: the round-trip lemmas say the encoding loses nothing.
 */
module Endorsements {
  import opened Common
  import opened Json

  /** The `EndorsementType` constants. */
  datatype EndorsementType = Unspecified | ReferenceValue | VerificationKey

  /** The string each `EndorsementType` constant stands for. */
  function TypeName(t: EndorsementType): (s: string)
    ensures t.Unspecified? <==> s == "unspecified"
    ensures t.ReferenceValue? <==> s == "reference value"
    ensures t.VerificationKey? <==> s == "trust anchor"
  {
    match t
    case Unspecified => "unspecified"
    case ReferenceValue => "reference value"
    case VerificationKey => "trust anchor"
  }

  /** The constant, if any, that a string names. */
  function ParseTypeName(s: string): (r: Option<EndorsementType>)
    ensures r.Some? ==> TypeName(r.value) == s
    ensures forall t :: TypeName(t) == s ==> r == Some(t)
  {
    if s == "unspecified" then Some(Unspecified)
    else if s == "reference value" then Some(ReferenceValue)
    else if s == "trust anchor" then Some(VerificationKey)
    else None
  }

  /** The three constants are the strings "unspecified", "reference value" and
      "trust anchor", and no two of them are the same string. */
  lemma TypeNames()
    ensures TypeName(Unspecified) == "unspecified"
    ensures TypeName(ReferenceValue) == "reference value"
    ensures TypeName(VerificationKey) == "trust anchor"
    ensures forall t, u :: TypeName(t) == TypeName(u) ==> t == u
  {
    forall t, u | TypeName(t) == TypeName(u) ensures t == u {
      assert ParseTypeName(TypeName(t)) == Some(t);
    }
  }

  /** One unit of endorsement material. `attributes` is the scheme's raw JSON document,
      carried without being inspected. */
  datatype Endorsement = Endorsement(
    scheme: string,
    endorsementType: EndorsementType,
    subType: string,
    attributes: Json.Value)

  /** `EndorsementHandlerResponse`; `None` is a nil slice or a nil map. */
  datatype Response = Response(
    referenceValues: Option<seq<Endorsement>>,
    trustAnchors: Option<seq<Endorsement>>,
    signerInfo: Option<map<string, string>>)

  const EndorsementKeys: set<string> := {"Scheme", "Type", "SubType", "Attributes"}
  const ResponseKeys: set<string> := {"ReferenceValues", "TrustAnchors", "SignerInfo"}

  // ---------------------------------------------------------------------------
  // Encoding

  function EndorsementToJson(e: Endorsement): (j: Json.Value)
    ensures j.JObject? && j.fields.Keys == EndorsementKeys
    ensures j.fields["Attributes"] == e.attributes
  {
    JObject(map[
      "Scheme" := JString(e.scheme),
      "Type" := JString(TypeName(e.endorsementType)),
      "SubType" := JString(e.subType),
      "Attributes" := e.attributes])
  }

  function ListToJson(es: seq<Endorsement>): (j: Json.Value)
    ensures j.JArray? && |j.items| == |es|
    ensures forall k :: 0 <= k < |es| ==> j.items[k] == EndorsementToJson(es[k])
  {
    JArray(seq(|es|, k requires 0 <= k < |es| => EndorsementToJson(es[k])))
  }

  /** A slice: `null` when nil, otherwise an array, `[]` when empty. */
  function SliceToJson(s: Option<seq<Endorsement>>): (j: Json.Value)
    ensures j.JNull? <==> s.None?
    ensures s.Some? ==> j == ListToJson(s.value)
  {
    match s
    case None => JNull
    case Some(es) => ListToJson(es)
  }

  function SignerInfoToJson(m: map<string, string>): (j: Json.Value)
    ensures j.JObject? && j.fields.Keys == m.Keys
  {
    JObject(map k | k in m :: JString(m[k]))
  }

  /** A string map: `null` when nil, otherwise an object, `{}` when empty. */
  function SignerMapToJson(m: Option<map<string, string>>): (j: Json.Value)
    ensures j.JNull? <==> m.None?
    ensures m.Some? ==> j == SignerInfoToJson(m.value)
  {
    match m
    case None => JNull
    case Some(si) => SignerInfoToJson(si)
  }

  /** `json.Marshal(response)`: exactly the three members; each is `null` exactly when
      it is nil, and otherwise an array of the slice's length or an object over the map's
      keys. */
  function ResponseToJson(r: Response): (j: Json.Value)
    ensures j.JObject? && j.fields.Keys == ResponseKeys
    ensures j.fields["ReferenceValues"].JNull? <==> r.referenceValues.None?
    ensures j.fields["TrustAnchors"].JNull? <==> r.trustAnchors.None?
    ensures j.fields["SignerInfo"].JNull? <==> r.signerInfo.None?
    ensures r.referenceValues.Some? ==>
      j.fields["ReferenceValues"].JArray? && |j.fields["ReferenceValues"].items| == |r.referenceValues.value|
    ensures r.trustAnchors.Some? ==>
      j.fields["TrustAnchors"].JArray? && |j.fields["TrustAnchors"].items| == |r.trustAnchors.value|
    ensures r.signerInfo.Some? ==>
      j.fields["SignerInfo"].JObject? && j.fields["SignerInfo"].fields.Keys == r.signerInfo.value.Keys
  {
    JObject(map[
      "ReferenceValues" := SliceToJson(r.referenceValues),
      "TrustAnchors" := SliceToJson(r.trustAnchors),
      "SignerInfo" := SignerMapToJson(r.signerInfo)])
  }

  // ---------------------------------------------------------------------------
  // Decoding, the partner of the encoding

  function EndorsementFromJson(j: Json.Value): (r: Option<Endorsement>)
    ensures r.Some? ==> EndorsementToJson(r.value) == j
  {
    if j.JObject? && j.fields.Keys == EndorsementKeys
      && j.fields["Scheme"].JString? && j.fields["Type"].JString? && j.fields["SubType"].JString?
      && ParseTypeName(j.fields["Type"].str).Some?
    then
      var e := Endorsement(j.fields["Scheme"].str, ParseTypeName(j.fields["Type"].str).value,
        j.fields["SubType"].str, j.fields["Attributes"]);
      assert EndorsementToJson(e).fields == j.fields;
      Some(e)
    else None
  }

  function ListFromJson(items: seq<Json.Value>): (r: Option<seq<Endorsement>>)
    ensures r.Some? ==> ListToJson(r.value).items == items
  {
    if items == [] then Some([])
    else
      var head := EndorsementFromJson(items[0]);
      var tail := ListFromJson(items[1..]);
      if head.None? || tail.None? then None
      else
        ListToJsonCons(head.value, tail.value);
        assert items == [items[0]] + items[1..];
        Some([head.value] + tail.value)
  }

  lemma ListToJsonCons(e: Endorsement, es: seq<Endorsement>)
    ensures ListToJson([e] + es).items == [EndorsementToJson(e)] + ListToJson(es).items
  {
  }

  /** Reads a slice back: `null` is nil; the outer `None` is a document of another shape. */
  function SliceFromJson(j: Json.Value): (r: Option<Option<seq<Endorsement>>>)
    ensures r.Some? ==> SliceToJson(r.value) == j
  {
    match j
    case JNull => Some(None)
    case JArray(items) =>
      (match ListFromJson(items)
       case Some(es) => Some(Some(es))
       case None => None)
    case _ => None
  }

  function SignerInfoFromJson(j: Json.Value): (r: Option<map<string, string>>)
    ensures r.Some? ==> SignerInfoToJson(r.value) == j
  {
    if j.JObject? && forall k :: k in j.fields ==> j.fields[k].JString? then
      var m := map k | k in j.fields :: j.fields[k].str;
      assert SignerInfoToJson(m).fields == j.fields;
      Some(m)
    else None
  }

  function SignerMapFromJson(j: Json.Value): (r: Option<Option<map<string, string>>>)
    ensures r.Some? ==> SignerMapToJson(r.value) == j
  {
    if j.JNull? then Some(None)
    else match SignerInfoFromJson(j)
      case Some(m) => Some(Some(m))
      case None => None
  }

  function ResponseFromJson(j: Json.Value): (r: Option<Response>)
    ensures r.Some? ==> ResponseToJson(r.value) == j
  {
    if j.JObject? && j.fields.Keys == ResponseKeys then
      match (SliceFromJson(j.fields["ReferenceValues"]),
             SliceFromJson(j.fields["TrustAnchors"]),
             SignerMapFromJson(j.fields["SignerInfo"]))
      case (Some(rvs), Some(tas), Some(si)) =>
        assert ResponseToJson(Response(rvs, tas, si)).fields == j.fields;
        Some(Response(rvs, tas, si))
      case _ => None
    else None
  }

  // ---------------------------------------------------------------------------
  // Properties

  /** An endorsement keeps its scheme, type, subtype and attributes through JSON. */
  lemma EndorsementRoundTrip(e: Endorsement)
    ensures EndorsementFromJson(EndorsementToJson(e)) == Some(e)
  {
    assert ParseTypeName(TypeName(e.endorsementType)) == Some(e.endorsementType);
  }

  /** A list of endorsements keeps every entry, in order, duplicates included. */
  lemma {:induction false} ListRoundTrip(es: seq<Endorsement>)
    ensures ListFromJson(ListToJson(es).items) == Some(es)
  {
    if es != [] {
      var items := ListToJson(es).items;
      assert items[1..] == ListToJson(es[1..]).items;
      EndorsementRoundTrip(es[0]);
      ListRoundTrip(es[1..]);
      assert [es[0]] + es[1..] == es;
    }
  }

  lemma SignerInfoRoundTrip(m: map<string, string>)
    ensures SignerInfoFromJson(SignerInfoToJson(m)) == Some(m)
  {
    var j := SignerInfoToJson(m);
    var back := map k | k in j.fields :: j.fields[k].str;
    assert back == m;
  }

  /** Serialising a response and reading it back yields the same response, nil members
      staying nil and empty ones empty. */
  lemma ResponseRoundTrip(r: Response)
    ensures ResponseFromJson(ResponseToJson(r)) == Some(r)
  {
    var j := ResponseToJson(r);
    SliceRoundTrip(r.referenceValues);
    SliceRoundTrip(r.trustAnchors);
    SignerMapRoundTrip(r.signerInfo);
    assert j.fields["ReferenceValues"] == SliceToJson(r.referenceValues);
    assert j.fields["TrustAnchors"] == SliceToJson(r.trustAnchors);
    assert j.fields["SignerInfo"] == SignerMapToJson(r.signerInfo);
  }

  /** A slice comes back nil when it was nil and with the same entries otherwise. */
  lemma SliceRoundTrip(s: Option<seq<Endorsement>>)
    ensures SliceFromJson(SliceToJson(s)) == Some(s)
  {
    if s.Some? { ListRoundTrip(s.value); }
  }

  /** A signer-info map comes back nil when it was nil and equal otherwise. */
  lemma SignerMapRoundTrip(m: Option<map<string, string>>)
    ensures SignerMapFromJson(SignerMapToJson(m)) == Some(m)
  {
    if m.Some? { SignerInfoRoundTrip(m.value); }
  }

  /** A present but empty response serialises as
      `{"ReferenceValues":[],"TrustAnchors":[],"SignerInfo":{}}`, a nil one as three
      `null`s: the two are told apart. */
  lemma EmptyResponseJson()
    ensures ResponseToJson(Response(Some([]), Some([]), Some(map[]))) == JObject(map[
      "ReferenceValues" := JArray([]),
      "TrustAnchors" := JArray([]),
      "SignerInfo" := JObject(map[])])
    ensures ResponseToJson(Response(None, None, None)) == JObject(map[
      "ReferenceValues" := JNull,
      "TrustAnchors" := JNull,
      "SignerInfo" := JNull])
  {
    assert ListToJson([]).items == [];
    assert SignerInfoToJson(map[]).fields == map[];
  }

  /** The k-th entry of `ReferenceValues` in the JSON carries the k-th endorsement's
      scheme, type name, subtype and attributes unchanged. */
  lemma ReferenceValueFields(r: Response, k: nat)
    requires r.referenceValues.Some? && k < |r.referenceValues.value|
    ensures var e := r.referenceValues.value[k];
      var entry := ResponseToJson(r).fields["ReferenceValues"].items[k];
      && entry.JObject?
      && entry.fields["Scheme"] == JString(e.scheme)
      && entry.fields["Type"] == JString(TypeName(e.endorsementType))
      && entry.fields["SubType"] == JString(e.subType)
      && entry.fields["Attributes"] == e.attributes
  {
  }
}
