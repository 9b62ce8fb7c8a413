/** The resource capability model: the four HTTP verbs the router knows,
    the capability (Go interface) that belongs to each of them, and the
    choice of handler for one request. */
module Capabilities {
  import opened Wrappers

  /** The four method names the router recognises (core.go, the const block). */
  const GET: string := "GET"
  const POST: string := "POST"
  const PUT: string := "PUT"
  const DELETE: string := "DELETE"

  /** One verb per capability interface: GetSupported, PostSupported,
      PutSupported and DeleteSupported. */
  datatype Verb = Get | Post | Put | Delete

  /** The method name a verb is dispatched on. */
  function VerbName(v: Verb): string
  {
    match v
    case Get => GET
    case Post => POST
    case Put => PUT
    case Delete => DELETE
  }

  lemma VerbNameInjective(v: Verb, w: Verb)
    ensures VerbName(v) == VerbName(w) <==> v == w
  {
  }

  /** Parsed form fields (url.Values): each field name maps to its values in order. */
  type Form = map<string, seq<string>>

  /** The data a handler returns (Go's interface{}). The JSON encoder is an
      oracle of the model, so these constructors only name the shapes a handler
      may return; Opaque stands for values such as channels and functions. */
  datatype Value =
    | Null
    | Bool(b: bool)
    | Number(n: int)
    | Text(s: string)
    | List(items: seq<Value>)
    | Record(fields: map<string, Value>)
    | Opaque(tag: nat)

  /** What a capability method returns: a status code of the handler's own
      choosing and the data to encode. */
  datatype Reply = Reply(code: int, data: Value)

  /** One call of a capability method: which one, and with which form. */
  datatype Invocation = Invocation(verb: Verb, form: Form)

  /** A resource registered with an API. Its type fixes once and for all
      which of the four interfaces it implements (caps). What its methods
      answer is user code, modelled as the oracle respond, which may depend on
      every call the resource has received before. */
  class Resource {
    const caps: set<Verb>
    const respond: (seq<Invocation>, Verb, Form) -> Reply
    var invocations: seq<Invocation>

    constructor (caps: set<Verb>, respond: (seq<Invocation>, Verb, Form) -> Reply)
      ensures this.caps == caps && this.respond == respond
      ensures invocations == []
    {
      this.caps := caps;
      this.respond := respond;
      invocations := [];
    }

    /** Calls the method of capability v, which the resource must implement
        (Go can only form the method value resource.Get when the type
        assertion to GetSupported succeeded). */
    method Invoke(v: Verb, form: Form) returns (reply: Reply)
      requires v in caps
      modifies this
      ensures reply == respond(old(invocations), v, form)
      ensures invocations == old(invocations) + [Invocation(v, form)]
    {
      reply := respond(invocations, v, form);
      invocations := invocations + [Invocation(v, form)];
    }
  }

  /** The switch on request.Method: the handler chosen for a request, given
      only its method name and the capabilities of the resource. None is the
      nil handler. */
  function Select(methodName: string, caps: set<Verb>): (r: Option<Verb>)
    ensures r.Some? ==> r.value in caps && VerbName(r.value) == methodName
    ensures r.None? <==> forall v: Verb :: v in caps ==> VerbName(v) != methodName
  {
    if methodName == GET then (if Get in caps then Some(Get) else None)
    else if methodName == POST then (if Post in caps then Some(Post) else None)
    else if methodName == PUT then (if Put in caps then Some(Put) else None)
    else if methodName == DELETE then (if Delete in caps then Some(Delete) else None)
    else None
  }

  /** Each verb's name selects that verb's capability exactly when the
      resource implements it. */
  lemma SelectByVerb(v: Verb, caps: set<Verb>)
    ensures Select(VerbName(v), caps) == (if v in caps then Some(v) else None)
  {
  }

  /** A method name other than the four selects nothing, whatever the resource. */
  lemma SelectUnknownMethod(methodName: string, caps: set<Verb>)
    requires methodName !in {GET, POST, PUT, DELETE}
    ensures Select(methodName, caps) == None
  {
  }

  /** A resource that implements no capability accepts no request. */
  lemma SelectNoCapabilities(methodName: string)
    ensures Select(methodName, {}) == None
  {
  }
}
