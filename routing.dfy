/** The API object: its route table, registration and start-up. */
module Routing {
  import opened Wrappers
  import opened Capabilities

  /** The route table (the http.ServeMux): each registered path is bound to
      the resource whose request handler serves it. */
  type Routes = map<string, Resource>

  /** One call of AddResource. */
  datatype Registration = Registration(path: string, resource: Resource)

  const NoResourceMessage: string := "You must add at least one resource to this API."

  /** What Start leads to: the configuration error, or the hand-over of the
      port and the route table to the HTTP listener. */
  datatype StartOutcome = ConfigError(message: string) | Listening(port: int, routes: Routes)

  /** The table a missing (nil) mux stands for. */
  function TableOf(mux: Option<Routes>): Routes
  {
    if mux.Some? then mux.value else map[]
  }

  /** The table after one registration: the new path is bound to the new
      resource and every other binding is kept. */
  function Added(mux: Option<Routes>, path: string, resource: Resource): (t: Routes)
    ensures t.Keys == TableOf(mux).Keys + {path}
    ensures t[path] == resource
    ensures forall p :: p in TableOf(mux) && p != path ==> t[p] == TableOf(mux)[p]
  {
    TableOf(mux)[path := resource]
  }

  /** The mux after a whole history of registrations on a new API. */
  ghost function RoutesAfter(regs: seq<Registration>): Option<Routes>
    decreases |regs|
  {
    if regs == [] then None
    else
      var last := regs[|regs| - 1];
      Some(Added(RoutesAfter(regs[..|regs| - 1]), last.path, last.resource))
  }

  /** The paths a history of registrations names. */
  ghost function Paths(regs: seq<Registration>): set<string>
  {
    set r | r in regs :: r.path
  }

  /** The table exists exactly after at least one registration, and then
      holds every registered path and no other. */
  lemma {:induction false} RoutesAfterDomain(regs: seq<Registration>)
    ensures RoutesAfter(regs).Some? <==> |regs| > 0
    ensures TableOf(RoutesAfter(regs)).Keys == Paths(regs)
  {
    if regs != [] {
      var init := regs[..|regs| - 1];
      RoutesAfterDomain(init);
      assert regs == init + [regs[|regs| - 1]];
      assert Paths(regs) == Paths(init) + {regs[|regs| - 1].path};
    }
  }

  /** A registered path is bound to the resource of its latest registration:
      a later registration of another path never discards it. */
  lemma {:induction false} RoutesAfterBinding(regs: seq<Registration>, i: nat)
    requires i < |regs|
    requires forall j :: i < j < |regs| ==> regs[j].path != regs[i].path
    ensures RoutesAfter(regs).Some?
    ensures regs[i].path in RoutesAfter(regs).value
    ensures RoutesAfter(regs).value[regs[i].path] == regs[i].resource
  {
    if i < |regs| - 1 {
      var init := regs[..|regs| - 1];
      RoutesAfterBinding(init, i);
    }
  }

  /** An API and the mux field it creates lazily. The ghost history
      registered is the sequence of AddResource calls made on it. */
  class API {
    var mux: Option<Routes>
    ghost var registered: seq<Registration>

    ghost predicate Valid()
      reads this
    {
      mux == RoutesAfter(registered)
    }

    /** NewAPI: a new API has no route table. */
    constructor ()
      ensures Valid()
      ensures mux == None && registered == []
    {
      mux := None;
      registered := [];
    }

    /** Creates the table if it is missing, then binds path to resource in it. */
    method AddResource(resource: Resource, path: string)
      requires Valid()
      modifies this
      ensures Valid()
      ensures registered == old(registered) + [Registration(path, resource)]
      ensures mux == Some(Added(old(mux), path, resource))
    {
      if mux.None? {
        mux := Some(map[]);
      }
      mux := Some(mux.value[path := resource]);
      registered := registered + [Registration(path, resource)];
      assert registered[..|registered| - 1] == old(registered);
    }

    /** Refuses to start while no resource was added; otherwise hands the
        port and the table to the listener. */
    method Start(port: int) returns (r: StartOutcome)
      requires Valid()
      ensures r.ConfigError? <==> registered == []
      ensures r.ConfigError? ==> r.message == NoResourceMessage
      ensures r.Listening? ==> r.port == port && Some(r.routes) == RoutesAfter(registered)
      ensures r.Listening? ==> r.routes.Keys == Paths(registered)
    {
      RoutesAfterDomain(registered);
      if mux.None? {
        return ConfigError(NoResourceMessage);
      }
      r := Listening(port, mux.value);
    }
  }
}
