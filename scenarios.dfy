/** Whole-program uses of the router: an API that is started without
    resources, and the lifecycle of requests to one registered resource. */
module Scenarios {
  import opened Wrappers
  import opened Capabilities
  import opened Responses
  import opened Dispatcher
  import opened Routing

  /** NewAPI followed directly by Start gives the configuration error. */
  method StartWithoutResources(port: int) returns (r: StartOutcome)
    ensures r == ConfigError(NoResourceMessage)
  {
    var api := new API();
    r := api.Start(port);
  }

  /** After registrations, Start reaches the listener with every path bound
      to the resource most recently added at it. */
  method StartAfterRegistrations(first: Resource, second: Resource, path: string, other: string, port: int)
    returns (r: StartOutcome)
    requires path != other
    ensures r.Listening? && r.port == port
    ensures r.routes.Keys == {path, other}
    ensures r.routes[path] == first && r.routes[other] == second
  {
    var api := new API();
    api.AddResource(first, path);
    api.AddResource(second, other);
    RoutesAfterBinding(api.registered, 0);
    RoutesAfterBinding(api.registered, 1);
    r := api.Start(port);
    assert Paths(api.registered) == {path, other} by {
      assert api.registered == [Registration(path, first), Registration(other, second)];
    }
  }

  /** The handler data {"ok": true}. */
  const OkData: Value := Record(map["ok" := Bool(true)])

  /** Its JSON text, {"ok":true}, as bytes. */
  const OkJson: seq<byte> := [123, 34, 111, 107, 34, 58, 116, 114, 117, 101, 125]

  /** A resource that implements only Get, answering (200, {"ok": true}):
      a GET is answered with 200 and the encoded data, a POST with 405 and
      no body, and the POST does not reach the resource. */
  method GetOnlyResource(form: Form, marshal: Encoder)
    returns (getCalls: seq<Call>, postCalls: seq<Call>, invoked: seq<Invocation>)
    requires marshal(OkData) == Some(OkJson)
    ensures getCalls == [WriteHeader(200), Write(OkJson)]
    ensures postCalls == [WriteHeader(StatusMethodNotAllowed)]
    ensures invoked == [Invocation(Get, form)]
  {
    var resource := new Resource({Get}, (h: seq<Invocation>, v: Verb, f: Form) => Reply(200, OkData));
    var rw := new ResponseRecorder();
    Handle(resource, rw, Request(GET, Some(form)), marshal);
    getCalls := rw.calls;
    ReplyWritesEncoded(Reply(200, OkData), OkJson);

    rw := new ResponseRecorder();
    Handle(resource, rw, Request(POST, Some(form)), marshal);
    postCalls := rw.calls;
    invoked := resource.invocations;
  }

  /** Malformed form data: 400 and nothing else, whatever the method and
      whatever the resource implements. */
  method MalformedForm(caps: set<Verb>, respond: (seq<Invocation>, Verb, Form) -> Reply, methodName: string, marshal: Encoder)
    returns (calls: seq<Call>, invoked: seq<Invocation>)
    ensures calls == [WriteHeader(StatusBadRequest)]
    ensures Statuses(calls) == [StatusBadRequest] && Body(calls) == []
    ensures invoked == []
  {
    var resource := new Resource(caps, respond);
    var rw := new ResponseRecorder();
    Handle(resource, rw, Request(methodName, None), marshal);
    calls, invoked := rw.calls, resource.invocations;
  }

  /** A handler whose data cannot be encoded: 500 is written, then the
      handler's own 200, then an empty body. */
  method UnencodableData(form: Form, marshal: Encoder) returns (calls: seq<Call>)
    requires marshal(Opaque(0)) == None
    ensures calls == [WriteHeader(StatusInternalServerError), WriteHeader(200), Write([])]
    ensures Statuses(calls) == [StatusInternalServerError, 200] && Body(calls) == []
  {
    var resource := new Resource({Get}, (h: seq<Invocation>, v: Verb, f: Form) => Reply(200, Opaque(0)));
    var rw := new ResponseRecorder();
    Handle(resource, rw, Request(GET, Some(form)), marshal);
    calls := rw.calls;
    ReplyWritesUnencodable(Reply(200, Opaque(0)));
  }

  /** Two identical GETs to a resource whose answer does not depend on its
      history produce identical responses, and each reaches it once. */
  method RepeatedGets(respond: (seq<Invocation>, Verb, Form) -> Reply, form: Form, marshal: Encoder)
    returns (first: seq<Call>, second: seq<Call>, invoked: seq<Invocation>)
    requires forall h :: respond(h, Get, form) == respond([], Get, form)
    ensures first == second
    ensures Body(first) == Content(marshal(respond([], Get, form).data))
    ensures invoked == [Invocation(Get, form), Invocation(Get, form)]
  {
    var resource := new Resource({Get}, respond);
    var rw := new ResponseRecorder();
    Handle(resource, rw, Request(GET, Some(form)), marshal);
    first := rw.calls;
    assert first == ReplyWrites(respond([], Get, form), marshal(respond([], Get, form).data));
    rw := new ResponseRecorder();
    Handle(resource, rw, Request(GET, Some(form)), marshal);
    second := rw.calls;
    invoked := resource.invocations;
  }
}
