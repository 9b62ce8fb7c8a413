/** The response side of a request: the calls made on the
    http.ResponseWriter, recorded in the order they happen. */
module Responses {
  import opened Wrappers
  import opened Capabilities

  newtype byte = x: int | 0 <= x < 256

  const StatusBadRequest: int := 400
  const StatusMethodNotAllowed: int := 405
  const StatusInternalServerError: int := 500

  /** One call on the response writer. */
  datatype Call = WriteHeader(code: int) | Write(content: seq<byte>)

  /** A response writer that records every call made on it. What net/http
      would make of the calls (a second WriteHeader, say) is not modelled;
      the recorder keeps them all. */
  class ResponseRecorder {
    var calls: seq<Call>

    constructor ()
      ensures calls == []
    {
      calls := [];
    }

    method WriteHeader(code: int)
      modifies this
      ensures calls == old(calls) + [Call.WriteHeader(code)]
    {
      calls := calls + [Call.WriteHeader(code)];
    }

    method Write(content: seq<byte>)
      modifies this
      ensures calls == old(calls) + [Call.Write(content)]
    {
      calls := calls + [Call.Write(content)];
    }
  }

  /** The status codes a trace writes, in order. */
  function Statuses(calls: seq<Call>): seq<int>
  {
    if calls == [] then []
    else (if calls[0].WriteHeader? then [calls[0].code] else []) + Statuses(calls[1..])
  }

  /** The bytes a trace writes as the response body. */
  function Body(calls: seq<Call>): seq<byte>
  {
    if calls == [] then []
    else (if calls[0].Write? then calls[0].content else []) + Body(calls[1..])
  }

  lemma {:induction false} StatusesAppend(a: seq<Call>, b: seq<Call>)
    ensures Statuses(a + b) == Statuses(a) + Statuses(b)
  {
    if a != [] {
      assert (a + b)[1..] == a[1..] + b;
      StatusesAppend(a[1..], b);
    } else {
      assert a + b == b;
    }
  }

  lemma {:induction false} BodyAppend(a: seq<Call>, b: seq<Call>)
    ensures Body(a + b) == Body(a) + Body(b)
  {
    if a != [] {
      assert (a + b)[1..] == a[1..] + b;
      BodyAppend(a[1..], b);
    } else {
      assert a + b == b;
    }
  }

  /** The bytes written for an encoding outcome: json.Marshal returns a nil
      slice together with its error, so a failed encoding writes nothing. */
  function Content(encoded: Option<seq<byte>>): seq<byte>
  {
    if encoded.Some? then encoded.value else []
  }

  /** The calls made after a handler has replied, given what the encoder
      made of its data: on failure a 500 header first, then always the
      handler's own code and the (possibly empty) content. */
  function ReplyWrites(reply: Reply, encoded: Option<seq<byte>>): (calls: seq<Call>)
    ensures Statuses(calls) ==
              (if encoded.None? then [StatusInternalServerError, reply.code] else [reply.code])
    ensures Body(calls) == Content(encoded)
    ensures |calls| > 0 && calls[|calls| - 1] == Write(Content(encoded))
  {
    var tail := [WriteHeader(reply.code), Write(Content(encoded))];
    assert tail[1..][1..] == [];
    assert Statuses(tail[1..]) == [] && Body(tail[1..]) == Content(encoded);
    if encoded.None? then
      StatusesAppend([WriteHeader(StatusInternalServerError)], tail);
      BodyAppend([WriteHeader(StatusInternalServerError)], tail);
      [WriteHeader(StatusInternalServerError)] + tail
    else
      tail
  }

  /** When encoding succeeds, exactly two calls: the handler's status, then
      the encoding of its data. */
  lemma ReplyWritesEncoded(reply: Reply, bytes: seq<byte>)
    ensures ReplyWrites(reply, Some(bytes)) == [WriteHeader(reply.code), Write(bytes)]
  {
  }

  /** When encoding fails, 500 is written before the handler's status, and
      the body written is empty. */
  lemma ReplyWritesUnencodable(reply: Reply)
    ensures ReplyWrites(reply, None) ==
              [WriteHeader(StatusInternalServerError), WriteHeader(reply.code), Write([])]
  {
  }
}
