# sleepy: a verified model of the request router core

sleepy is a small Go library that routes HTTP requests to resources. A
resource is any value; it handles a verb when its type implements the
matching interface (`GetSupported`, `PostSupported`, `PutSupported`,
`DeleteSupported`). An `API` registers resources at paths with
`AddResource` and serves them with `Start`. For each request the handler
built for a resource parses the form, chooses the handler from the HTTP
method, calls it, encodes its `(code, data)` answer as JSON and writes the
status and the body.

The model has six modules:

- `Wrappers` (wrappers.dfy): `Option`.
- `Capabilities` (capabilities.dfy): the verb names, the four capabilities
  as the datatype `Verb`, and a `Resource` class. The class holds the set of
  capabilities the resource implements, an oracle for what its methods
  answer, and the log of calls it has received. `Select` turns the method
  switch into a function from (method name, capabilities) to an optional
  verb.
- `Responses` (responses.dfy): a `ResponseRecorder` that stands in for
  `http.ResponseWriter` and records every `WriteHeader` and `Write` call in
  order. It also holds the views `Statuses` and `Body` of a recorded trace,
  and `ReplyWrites`, the calls made once a handler has answered.
- `Dispatcher` (dispatcher.dfy): `Handle`, the closure `requestHandler`
  returns, as an imperative method with the source's early returns. It is
  proved against the exact calls it makes on the recorder and on the
  resource.
- `Routing` (routing.dfy): the `API` class with its lazily created route
  table `mux`, `AddResource` and `Start`. A ghost history of registrations
  relates the table to the recursive specification `RoutesAfter`.
- `Scenarios` (scenarios.dfy): verified client methods that call the model end to end.
  They cover a fresh API that is started, two registrations, a GET-only
  resource, malformed forms, unencodable data and repeated GETs.

Three calls into other code are oracles. `request.ParseForm` becomes the
field `Request.parsed`: `Some(form)` or `None` for its error. `json.Marshal`
becomes a parameter `marshal: Value -> Option<seq<byte>>`. A failed
encoding yields an empty content, because Go returns a nil slice with the
error. The resource's own methods become `Resource.respond`, whose answer
may depend on every call the resource received before.

On an encoding failure the model does what core.go:94-98 does. It writes
`WriteHeader(500)`, then `WriteHeader(code)` with the handler's own code,
then `Write` of the empty content. A cleaner policy would be a single 500
with an empty body. The model follows the code, and it records both header
calls rather than deciding which one net/http keeps.

## Model

| member | source | states |
|---|---|---|
| Capabilities.VerbNameInjective | core.go:11-16 | the four method-name constants are distinct: two verbs have the same name exactly when they are the same verb |
| Capabilities.Resource.constructor | core.go:18-40 | a resource fixes once and for all which of the four capability interfaces it implements and how it answers; it has received no calls yet |
| Capabilities.Resource.Invoke | core.go:91 | calling capability v (only possible when the resource implements it) with a form returns the resource's answer to that call and appends exactly that one call to its log |
| Capabilities.Select | core.go:65-84 | the chosen handler is a capability the resource implements whose method name equals the request's method; nothing is chosen exactly when no implemented capability has that name |
| Capabilities.SelectByVerb | core.go:67-83 | GET, POST, PUT and DELETE select Get, Post, Put and Delete respectively, and only when the resource implements that capability |
| Capabilities.SelectUnknownMethod | core.go:67-84 | any method name other than the four selects no handler, whatever the resource implements |
| Capabilities.SelectNoCapabilities | core.go:65-84 | a resource implementing no capability has no handler for any method |
| Responses.ResponseRecorder.constructor | core.go:58 | a fresh response writer has recorded no calls |
| Responses.ResponseRecorder.WriteHeader | core.go:61 | a header write appends exactly one WriteHeader call with that code |
| Responses.ResponseRecorder.Write | core.go:98 | a body write appends exactly one Write call with that content |
| Responses.StatusesAppend | core.go:60-98 | the statuses written by two consecutive stretches of calls are those of the first followed by those of the second |
| Responses.BodyAppend | core.go:60-98 | the body written by two consecutive stretches of calls is that of the first followed by that of the second |
| Responses.ReplyWrites | core.go:93-98 | after a handler answers, the statuses written are [500, code] when encoding fails and [code] otherwise, the body is the encoded data (empty on failure), and the last call is the Write of that content |
| Responses.ReplyWritesEncoded | core.go:93-98 | on successful encoding the calls are exactly WriteHeader(code) with the handler's code, then Write of the encoding |
| Responses.ReplyWritesUnencodable | core.go:94-98 | on failed encoding WriteHeader(500) comes before WriteHeader(code), followed by Write of the empty content |
| Dispatcher.Handle | core.go:57-100 | a parse failure writes only a 400 header and calls no handler; no selected handler writes only a 405 header and calls none; otherwise the selected capability is called exactly once with the parsed form and the calls written are those of ReplyWrites for its answer and its encoding |
| Routing.Added | core.go:104-109 | one registration binds the path to the resource, keeps every other binding, and adds no path other than the new one |
| Routing.RoutesAfterDomain | core.go:104-115 | after a history of registrations the table exists exactly when the history is non-empty, and its paths are exactly the registered ones |
| Routing.RoutesAfterBinding | core.go:104-109 | a registered path stays bound to the resource of its latest registration, whatever other paths are registered afterwards |
| Routing.API.constructor | core.go:52-55 | a new API has no route table and no registrations |
| Routing.API.AddResource | core.go:104-109 | the table is created only when absent and then gains the binding of path to resource, with every earlier binding of another path kept; the history records the call |
| Routing.API.Start | core.go:111-118 | Start fails with the "add at least one resource" message exactly when no resource was ever added; otherwise it reaches the listener with the given port and the table of all registrations |
| Scenarios.StartWithoutResources | core.go:53-55 | Start on a fresh API returns the configuration error and never reaches the listener |
| Scenarios.StartAfterRegistrations | core.go:104-118 | after two registrations at distinct paths, Start reaches the listener with exactly those two paths, each bound to its resource |
| Scenarios.GetOnlyResource | core.go:65-98 | a resource implementing only Get and answering (200, {"ok": true}) gets [WriteHeader(200), Write of {"ok":true}] for a GET and only a 405 header for a POST; the resource's call log afterwards holds only the GET |
| Scenarios.MalformedForm | core.go:60-63 | a request whose form fails to parse gets a 400 header, no body and no handler call, for every method and every resource |
| Scenarios.UnencodableData | core.go:93-98 | a handler answering 200 with data that cannot be encoded gets WriteHeader(500), WriteHeader(200) and an empty body |
| Scenarios.RepeatedGets | core.go:91-98 | two identical GETs to a resource whose answer ignores its history get identical responses whose body is the encoding of the answer, and each GET calls the handler once |

## Left out

- `http.ListenAndServe` and the port string `fmt.Sprintf(":%d", port)` (core.go:116-117) are network I/O and a blocking loop. `Start` ends in the outcome `Listening(port, routes)`, and the transport error it may return is not modelled.
- Path matching in `http.ServeMux` is library behaviour, so the route table is only a map from path to resource. The real map binds the path to the handler closure built over the resource. That closure is fully determined by the resource and is modelled by `Dispatcher.Handle`.
- Registering the same path twice makes net/http's `ServeMux.HandleFunc` panic. The model overwrites the binding instead (the last registration wins), and the panic is not modelled.
- The internals of `request.ParseForm` and `json.Marshal` are not modelled. They are oracles. The merged query and body fields appear only as the parsed `Form`.
- What net/http does with a second `WriteHeader` call, and which status reaches the wire, is not modelled. The recorder keeps every call the code makes.
- The byte count and error that `rw.Write` returns are ignored by the source and are not modelled.
- `ListenAndServe` receives the live `*http.ServeMux` (core.go:117), so routes added by `AddResource` after `Start` are served too. The model's `Listening` outcome holds the table as it was when `Start` was called, and registrations after `Start` are not modelled.
- Concurrent requests and handler side effects beyond the call log are not modelled. Concurrency belongs to the transport, and handler code is user code outside this file. A stateful resource is covered only to the extent that `respond` may depend on the resource's prior calls.
- The `api` receiver of `requestHandler` (core.go:57) is unused by the closure, so `Handle` does not take it.
