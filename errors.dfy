/**
 * Go error values as the handler package uses them, and the bad-evidence error.
 *
 * A Go `error` here is one of
 *  - `Leaf(id, msg)`: a value made by `errors.New(msg)`;
 *  - `Wrap(id, prefix, inner)`: a value made by `fmt.Errorf(prefix + "%w", inner)`,
 *    whose message is `prefix` followed by the message of `inner`;
 *  - `BadEvidence(detail)`: a `BadEvidenceError` carrying its opaque `Detail`.
 * `errors.New` and `fmt.Errorf` return pointers, so two such errors are `==` only when
 * they are the same allocation; `id` stands for that allocation.
 */
module Errors {
  import opened Common
  import opened Json

  /** A detail value that is neither a string nor an error: its JSON encoding and its
      printed (`fmt`) form. */
  datatype Opaque = Opaque(json: Json.Value, printed: string)

  /** The dynamic type of a `BadEvidenceError`'s `Detail` field. */
  datatype Detail =
    | Text(text: string)
    | Err(err: Error)
    | Other(value: Opaque)

  datatype Error =
    | Leaf(id: nat, msg: string)
    | Wrap(id: nat, prefix: string, inner: Error)
    | BadEvidence(detail: Detail)

  /** The fixed marker in the `error` field of every serialised bad-evidence error. */
  const Marker := "bad evidence"

  /** `err.Error()`: a plain error's own text; a wrapping error's message ends with the
      wrapped error's message; a bad-evidence error's starts with the marker. */
  function Message(e: Error): (m: string)
    ensures e.Leaf? ==> m == e.msg
    ensures e.Wrap? ==> |Message(e.inner)| <= |m| && m[|m| - |Message(e.inner)|..] == Message(e.inner)
    ensures e.BadEvidence? ==> |Marker| + 2 <= |m| && m[..|Marker| + 2] == "bad evidence: "
  {
    match e
    case Leaf(_, msg) => msg
    case Wrap(_, prefix, inner) => prefix + Message(inner)
    case BadEvidence(d) => Marker + ": " + DetailText(d)
  }

  /** The text of a detail, as `BadEvidenceError.Error()` prints it. */
  function DetailText(d: Detail): (s: string)
  {
    match d
    case Text(s) => s
    case Err(e) => Message(e)
    case Other(v) => v.printed
  }

  /** Number of layers of an error chain: every error that `errors.Unwrap` reaches,
      the error itself included. */
  function Depth(e: Error): (n: nat)
    ensures n >= 1
  {
    match e
    case Leaf(_, _) => 1
    case Wrap(_, _, inner) => 1 + Depth(inner)
    case BadEvidence(Err(inner)) => 1 + Depth(inner)
    case BadEvidence(_) => 1
  }

  /** The chain `e, Unwrap(e), Unwrap(Unwrap(e)), ...`, outermost first: the reference
      against which `Unwrap`, `Is` and the JSON detail list are stated. */
  function Chain(e: Error): (c: seq<Error>)
    ensures |c| == Depth(e) && c[0] == e
  {
    match e
    case Leaf(_, _) => [e]
    case Wrap(_, _, inner) => [e] + Chain(inner)
    case BadEvidence(Err(inner)) => [e] + Chain(inner)
    case BadEvidence(_) => [e]
  }

  /** `BadEvidenceError.Unwrap()`: the detail when it is an error, `nil` otherwise. */
  function UnwrapDetail(d: Detail): (r: Option<Error>)
    ensures r.Some? <==> d.Err?
    ensures r.Some? ==> r.value == d.err && Message(r.value) == DetailText(d)
  {
    match d
    case Err(e) => Some(e)
    case _ => None
  }

  /** `errors.Unwrap(e)`: one step along the chain. */
  function Unwrap(e: Error): (r: Option<Error>)
    ensures r.Some? <==> Depth(e) > 1
    ensures r.Some? ==> Depth(r.value) == Depth(e) - 1 && Chain(e) == [e] + Chain(r.value)
  {
    match e
    case Leaf(_, _) => None
    case Wrap(_, _, inner) => Some(inner)
    case BadEvidence(d) => UnwrapDetail(d)
  }

  /** `BadEvidenceError.Is(target)`: every bad-evidence error is of the same kind,
      whatever either detail is. */
  predicate IsKind(d: Detail, target: Error)
    ensures target.BadEvidence? ==> IsKind(d, target)
    ensures IsKind(d, target) ==> LayerMatches(BadEvidence(d), target)
  {
    target.BadEvidence?
  }

  /** `errors.Is(err, target)`: walk the chain; a layer matches when it is identical to
      the target or, being a bad-evidence error, reports the target as its kind. */
  predicate Is(err: Error, target: Error)
    ensures LayerMatches(err, target) ==> Is(err, target)
    ensures Is(err, target) && !target.BadEvidence? ==> Depth(target) <= Depth(err)
    decreases Depth(err)
  {
    || err == target
    || (err.BadEvidence? && IsKind(err.detail, target))
    || (match Unwrap(err)
        case None => false
        case Some(next) => Is(next, target))
  }

  /** The messages along the chain, outermost first, as `MarshalJSON` lists them. */
  function Messages(e: Error): (ms: seq<string>)
    ensures |ms| == Depth(e) && ms[0] == Message(e)
    decreases Depth(e)
  {
    match Unwrap(e)
    case None => [Message(e)]
    case Some(next) => [Message(e)] + Messages(next)
  }

  /** The name of the detail's dynamic type in the `detail-type` field. */
  function DetailType(d: Detail): (name: string)
    ensures name == "string" <==> d.Text?
    ensures name == "error" <==> d.Err?
    ensures name == "other" <==> d.Other?
  {
    match d
    case Text(_) => "string"
    case Err(_) => "error"
    case Other(_) => "other"
  }

  /** `json.Marshal(BadEvidenceError{d})`. */
  function ToJson(d: Detail): (j: Json.Value)
    ensures j.JObject? && j.fields.Keys == {"error", "detail-type", "detail"}
  {
    var detail := match d
      case Text(s) => JString(s)
      case Err(e) => Strings(Messages(e))
      case Other(v) => v.json;
    JObject(map["error" := JString(Marker), "detail-type" := JString(DetailType(d)), "detail" := detail])
  }

  // ---------------------------------------------------------------------------
  // Serialisation

  /** Whatever the detail, `error` is the marker and `detail-type` names the variant;
      a string detail is serialised as itself and any other value as its raw JSON. */
  lemma JsonFields(d: Detail)
    ensures ToJson(d).fields["error"] == JString("bad evidence")
    ensures ToJson(d).fields["detail-type"] == JString(
      if d.Text? then "string" else if d.Err? then "error" else "other")
    ensures d.Text? ==> ToJson(d).fields["detail"] == JString(d.text)
    ensures d.Other? ==> ToJson(d).fields["detail"] == d.value.json
  {
  }

  /** `Messages` lists the message of every layer of the chain, in chain order. */
  lemma {:induction false} MessagesFollowChain(e: Error)
    ensures |Messages(e)| == |Chain(e)|
    ensures forall k :: 0 <= k < |Chain(e)| ==> Messages(e)[k] == Message(Chain(e)[k])
    decreases Depth(e)
  {
    match Unwrap(e)
    case None =>
    case Some(next) =>
      MessagesFollowChain(next);
  }

  /** An error detail of depth n serialises as n messages, outermost (the detail's own
      message) first and the innermost, non-wrapping error's last. */
  lemma ErrorDetailIsMessageList(e: Error)
    ensures var detail := ToJson(Err(e)).fields["detail"];
      && detail.JArray?
      && |detail.items| == Depth(e)
      && (forall k :: 0 <= k < Depth(e) ==> detail.items[k] == JString(Message(Chain(e)[k])))
      && detail.items[0] == JString(Message(e))
      && Unwrap(Chain(e)[Depth(e) - 1]).None?
  {
    var ms := Messages(e);
    assert ToJson(Err(e)).fields["detail"] == Strings(ms);
    MessagesFollowChain(e);
    assert forall k :: 0 <= k < Depth(e) ==> ms[k] == Message(Chain(e)[k]);
    ChainEndsUnwrapped(e);
  }

  /** The last layer of a chain does not unwrap further. */
  lemma {:induction false} ChainEndsUnwrapped(e: Error)
    ensures Unwrap(Chain(e)[Depth(e) - 1]).None?
    decreases Depth(e)
  {
    match Unwrap(e)
    case None =>
    case Some(next) =>
      ChainEndsUnwrapped(next);
      assert Chain(e)[Depth(e) - 1] == Chain(next)[Depth(next) - 1];
  }

  // ---------------------------------------------------------------------------
  // Kind matching

  /** One layer of a chain matches a target under `errors.Is`. */
  predicate LayerMatches(layer: Error, target: Error)
  {
    layer == target || (layer.BadEvidence? && target.BadEvidence?)
  }

  /** `errors.Is` holds exactly when some layer of the chain is the target itself, or
      is a bad-evidence error while the target is one too. */
  lemma IsMeansSomeLayerMatches(err: Error, target: Error)
    ensures Is(err, target) <==> exists k :: 0 <= k < |Chain(err)| && LayerMatches(Chain(err)[k], target)
  {
    if Is(err, target) {
      var k := MatchingLayer(err, target);
      assert LayerMatches(Chain(err)[k], target);
    } else {
      NoLayerMatches(err, target);
    }
  }

  /** When `errors.Is` holds, a layer of the chain that matches. */
  lemma {:induction false} MatchingLayer(err: Error, target: Error) returns (k: nat)
    requires Is(err, target)
    ensures k < |Chain(err)| && LayerMatches(Chain(err)[k], target)
    decreases Depth(err)
  {
    if LayerMatches(err, target) {
      k := 0;
    } else {
      match Unwrap(err)
      case Some(next) =>
        var j := MatchingLayer(next, target);
        assert Chain(err) == [err] + Chain(next);
        k := j + 1;
    }
  }

  /** When `errors.Is` fails, no layer of the chain matches. */
  lemma {:induction false} NoLayerMatches(err: Error, target: Error)
    requires !Is(err, target)
    ensures forall k :: 0 <= k < |Chain(err)| ==> !LayerMatches(Chain(err)[k], target)
    decreases Depth(err)
  {
    assert !LayerMatches(Chain(err)[0], target);
    match Unwrap(err)
    case None =>
    case Some(next) =>
      NoLayerMatches(next, target);
      assert Chain(err) == [err] + Chain(next);
  }

  /** Any two bad-evidence errors are the same kind (`{"test"}` matches `{"other"}`). */
  lemma BadEvidenceMatchesAnyBadEvidence(x: Detail, y: Detail)
    ensures Is(BadEvidence(x), BadEvidence(y))
  {
  }

  /** Kind matching ignores the target's payload: whether an error is (or wraps) a
      bad-evidence error does not depend on the detail of the target compared with. */
  lemma {:induction false} IsIgnoresTargetDetail(err: Error, x: Detail, y: Detail)
    ensures Is(err, BadEvidence(x)) <==> Is(err, BadEvidence(y))
    ensures Is(err, BadEvidence(x)) <==> exists k :: 0 <= k < |Chain(err)| && Chain(err)[k].BadEvidence?
  {
    IsMeansSomeLayerMatches(err, BadEvidence(x));
    IsMeansSomeLayerMatches(err, BadEvidence(y));
    var c := Chain(err);
    if k :| 0 <= k < |c| && c[k].BadEvidence? {
      assert LayerMatches(c[k], BadEvidence(x)) && LayerMatches(c[k], BadEvidence(y));
    }
  }

  /** Wrapping with `%w` any number of times, outermost layer first. */
  function WrapAll(layers: seq<(nat, string)>, e: Error): (w: Error)
    ensures Depth(w) == |layers| + Depth(e)
  {
    if layers == [] then e else Wrap(layers[0].0, layers[0].1, WrapAll(layers[1..], e))
  }

  /** A match survives any number of `%w` wrapping layers. */
  lemma {:induction false} IsThroughWrapping(layers: seq<(nat, string)>, err: Error, target: Error)
    requires Is(err, target)
    ensures Is(WrapAll(layers, err), target)
    decreases |layers|
  {
    if layers != [] {
      IsThroughWrapping(layers[1..], err, target);
    }
  }

  /** The wrapped error of a bad-evidence error is searched too. */
  lemma IsThroughDetail(err: Error, target: Error)
    requires Is(err, target)
    ensures Is(BadEvidence(Err(err)), target)
  {
  }

  /** A target that is not a bad-evidence error matches only by identity: a plain error
      with the same text as a bad-evidence detail does not match it. */
  lemma {:induction false} PlainTargetMatchesOnlyItself(err: Error, target: Error)
    requires !target.BadEvidence?
    ensures Is(err, target) <==> target in Chain(err)
  {
    IsMeansSomeLayerMatches(err, target);
  }

  // ---------------------------------------------------------------------------
  // The cases the handler tests fix

  lemma StringDetailJson()
    ensures ToJson(Text("test error")) == JObject(map[
      "error" := JString("bad evidence"),
      "detail-type" := JString("string"),
      "detail" := JString("test error")])
  {
  }

  lemma WrappedDetailJson()
    ensures ToJson(Err(Wrap(11, "wrapped: ", Leaf(10, "inner")))) == JObject(map[
      "error" := JString("bad evidence"),
      "detail-type" := JString("error"),
      "detail" := JArray([JString("wrapped: inner"), JString("inner")])])
  {
    var inner := Leaf(10, "inner");
    var e := Wrap(11, "wrapped: ", inner);
    assert Message(e) == "wrapped: " + "inner" == "wrapped: inner";
    assert Messages(inner) == ["inner"];
    assert Messages(e) == [Message(e)] + Messages(inner);
    assert Messages(e) == ["wrapped: inner", "inner"];
    assert Strings(Messages(e)).items == [JString("wrapped: inner"), JString("inner")];
  }

  lemma OtherDetailJson()
    ensures ToJson(Other(Opaque(JNumber(42), "42"))) == JObject(map[
      "error" := JString("bad evidence"),
      "detail-type" := JString("other"),
      "detail" := JNumber(42)])
  {
  }

  lemma UnwrapCases()
    ensures UnwrapDetail(Err(Wrap(13, "wrapped: ", Leaf(12, "inner error")))).Some?
    ensures Message(UnwrapDetail(Err(Wrap(13, "wrapped: ", Leaf(12, "inner error")))).value)
      == "wrapped: inner error"
    ensures Message(UnwrapDetail(Err(Leaf(14, "simple"))).value) == "simple"
    ensures UnwrapDetail(Text("string")).None?
  {
  }

  lemma IsCases()
    ensures Is(BadEvidence(Text("test")), BadEvidence(Text("other")))
    ensures !Is(BadEvidence(Text("test")), Leaf(15, "test"))
    ensures Is(Wrap(16, "wrapped: ", BadEvidence(Text("test"))), BadEvidence(Text("other")))
  {
  }
}
