/** The per-request handler built for one resource (requestHandler's closure). */
module Dispatcher {
  import opened Wrappers
  import opened Capabilities
  import opened Responses

  /** A request as the handler sees it. The outcome of request.ParseForm is
      an oracle: Some(form) when the form parsed, None when it returned an
      error. */
  datatype Request = Request(methodName: string, parsed: Option<Form>)

  /** The encoder is an oracle too: Some(bytes) for json.Marshal's output,
      None for its error. */
  type Encoder = Value -> Option<seq<byte>>

  /** Serves one request for a resource: parse the form, choose the handler
      from the method, call it once, encode its data and write the response. */
  method Handle(resource: Resource, rw: ResponseRecorder, request: Request, marshal: Encoder)
    modifies rw, resource
    ensures request.parsed.None? ==>
              rw.calls == old(rw.calls) + [WriteHeader(StatusBadRequest)]
              && resource.invocations == old(resource.invocations)
    ensures request.parsed.Some? && Select(request.methodName, resource.caps).None? ==>
              rw.calls == old(rw.calls) + [WriteHeader(StatusMethodNotAllowed)]
              && resource.invocations == old(resource.invocations)
    ensures request.parsed.Some? && Select(request.methodName, resource.caps).Some? ==>
              var v := Select(request.methodName, resource.caps).value;
              var reply := resource.respond(old(resource.invocations), v, request.parsed.value);
              resource.invocations == old(resource.invocations) + [Invocation(v, request.parsed.value)]
              && rw.calls == old(rw.calls) + ReplyWrites(reply, marshal(reply.data))
  {
    if request.parsed.None? {
      rw.WriteHeader(StatusBadRequest);
      return;
    }
    var form := request.parsed.value;

    var handler := Select(request.methodName, resource.caps);
    if handler.None? {
      rw.WriteHeader(StatusMethodNotAllowed);
      return;
    }

    var reply := resource.Invoke(handler.value, form);

    var encoded := marshal(reply.data);
    var content := Content(encoded);
    if encoded.None? {
      rw.WriteHeader(StatusInternalServerError);
    }
    rw.WriteHeader(reply.code);
    rw.Write(content);
  }
}
