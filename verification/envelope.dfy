/** The array shapes `postOutgoingMessage` serializes, and how the calling
    side reads them back: it rejects when the second element is truthy and
    resolves with the third otherwise. JSON itself is not modelled. */
module Envelope {

  import opened Wrappers
  import opened JsValues
  import opened Dispatcher

  /** `[id, {message}]` for a failure, `[id, null, result]` for a success. */
  function Encode(r: Reply): (a: seq<Value>)
    ensures 2 <= |a| <= 3 && a[0] == r.id
    ensures r.Failure? <==> |a| == 2
    ensures r.Failure? ==> a[1].Obj? && a[1].props.Keys == {"message"} && MessageOf(a[1]) == r.message
    ensures r.Success? ==> a[1] == Null && a[2] == r.result
  {
    match r
    case Failure(id, m) => [id, Obj(map["message" := m])]
    case Success(id, v) => [id, Null, v]
  }

  /** The caller's reading of a reply array; `None` for an array too short to
      hold an id. A missing result element reads as `undefined`. */
  function Decode(a: seq<Value>): (r: Option<Reply>)
    ensures r.Some? <==> |a| >= 1
    ensures r.Some? ==> r.value.id == a[0]
    ensures r.Some? ==> (r.value.Failure? <==> |a| >= 2 && Truthy(a[1]))
  {
    if |a| == 0 then None
    else if |a| >= 2 && Truthy(a[1]) then Some(Failure(a[0], MessageOf(a[1])))
    else Some(Success(a[0], if |a| >= 3 then a[2] else Undefined))
  }

  /** Every reply the dispatcher can post reads back as itself. */
  lemma DecodeEncode(r: Reply)
    ensures Decode(Encode(r)) == Some(r)
  {
  }

  /** Distinct replies are posted as distinct arrays. */
  lemma EncodeInjective(r1: Reply, r2: Reply)
    requires Encode(r1) == Encode(r2)
    ensures r1 == r2
  {
    DecodeEncode(r1);
    DecodeEncode(r2);
  }
}
