/**
 * The manager's view models (manager/ceryx/manager/models.py): routes
 * decorated with their orphan status, and services. The route list from the
 * routes API and the service records from `DockerApi.services` are inputs.
 */
module Models {
  import opened Wrappers
  import opened Seqs
  import opened Swarm
  import Dock

  /** A route as the routes API reports it: `{'source': ..., 'target': ...}`. */
  datatype RouteRecord = RouteRecord(source: string, target: string)

  /** `Route(source, target, is_orphan=False)` */
  datatype Route = Route(source: string, target: string, isOrphan: bool := false)

  /** `Service(name, ports)` */
  datatype Service = Service(name: string, ports: seq<PortConfig>)

  /** What `Route.delete` accepts: a `Route`, or a source string. */
  datatype RouteRef = ByRoute(route: Route) | BySource(source: string)

  /** The `is_orphan` search of `Route.all`: no service is named exactly like the route's target. */
  function IsOrphan(services: seq<Dock.ParsedService>, route: RouteRecord): (r: bool)
    ensures r <==> forall s :: s in services ==> s.name != route.target
  {
    if |services| == 0 then true
    else if services[0].name == route.target then false
    else
      assert services == [services[0]] + services[1..];
      IsOrphan(services[1..], route)
  }

  /** `Route.all`: one `Route` per route record, in order, each marked with its orphan status. */
  function All(services: seq<Dock.ParsedService>, routes: seq<RouteRecord>): (r: seq<Route>)
    ensures |r| == |routes|
    ensures forall i :: 0 <= i < |routes| ==>
      && r[i].source == routes[i].source
      && r[i].target == routes[i].target
      && (r[i].isOrphan <==> forall s :: s in services ==> s.name != routes[i].target)
  {
    seq(|routes|, i requires 0 <= i < |routes| => Route(routes[i].source, routes[i].target, IsOrphan(services, routes[i])))
  }

  /** More services can only clear orphan marks: a route orphaned among more services is orphaned among fewer. */
  lemma OrphanMonotone(services: seq<Dock.ParsedService>, more: seq<Dock.ParsedService>, routes: seq<RouteRecord>, i: nat)
    requires forall s :: s in services ==> s in more
    requires i < |routes|
    ensures All(more, routes)[i].isOrphan ==> All(services, routes)[i].isOrphan
  {
  }

  /** With no services at all, every route is an orphan. */
  lemma AllOrphansWithoutServices(routes: seq<RouteRecord>)
    ensures forall r :: r in All([], routes) ==> r.isOrphan
  {
  }

  /** `Route.get`: the fetched route, never marked orphan; None when the fetch raised RouteNotFoundError. */
  function Get(fetched: Option<RouteRecord>): (r: Option<Route>)
    ensures r.Some? <==> fetched.Some?
    ensures r.Some? ==> r.value.source == fetched.value.source && r.value.target == fetched.value.target
    ensures r.Some? ==> !r.value.isOrphan
  {
    match fetched
    case None => None
    case Some(route) => Some(Route(route.source, route.target))
  }

  /** `Route.delete`: the source identity handed to `delete_route`. */
  function Delete(ref: RouteRef): (source: string)
    ensures ref.ByRoute? ==> source == ref.route.source
    ensures ref.BySource? ==> source == ref.source
  {
    match ref
    case ByRoute(route) => route.source
    case BySource(s) => s
  }

  /** Deleting a route and deleting its source string delete the same route. */
  lemma DeleteSameSource(route: Route)
    ensures Delete(ByRoute(route)) == Delete(BySource(route.source))
  {
  }

  /** `Service.all`: one `Service` per service record, in order, with name and ports copied. */
  function AllServices(services: seq<Dock.ParsedService>): (r: seq<Service>)
    ensures |r| == |services|
    ensures forall i :: 0 <= i < |services| ==> r[i].name == services[i].name && r[i].ports == services[i].ports
  {
    seq(|services|, i requires 0 <= i < |services| => Service(services[i].name, services[i].ports))
  }

  /** The orphaned-routes view: the orphan routes, in order, each as often as in the input. */
  function Orphaned(routes: seq<Route>): (r: seq<Route>)
    ensures IsSubsequence(r, routes)
    ensures forall x :: x in r <==> x in routes && x.isOrphan
    ensures forall x :: multiset(r)[x] == if x.isOrphan then multiset(routes)[x] else 0
    ensures |r| == CountWhere(routes, (x: Route) => x.isOrphan)
  {
    Filter(routes, (x: Route) => x.isOrphan)
  }

  /**
   * A route whose target names no published service is an orphan against
   * what `DockerApi.services` reports, and the orphaned view shows it.
   */
  lemma UnpublishedTargetIsOrphan(listed: seq<SwarmService>, routes: seq<RouteRecord>, i: nat)
    requires i < |routes|
    requires forall s :: s in listed && s.name == routes[i].target ==> !Dock.IsPublished(s)
    ensures All(Dock.Services(listed).value, routes)[i].isOrphan
    ensures All(Dock.Services(listed).value, routes)[i] in Orphaned(All(Dock.Services(listed).value, routes))
  {
    var services := Dock.Services(listed).value;
    forall p | p in services ensures p.name != routes[i].target {
      Dock.ServicesComeFromPublished(listed, p);
    }
    var all := All(services, routes);
    assert all[i] in all;
  }

  /** A route whose target names a published service is not an orphan. */
  lemma PublishedTargetIsNotOrphan(listed: seq<SwarmService>, routes: seq<RouteRecord>, i: nat)
    requires i < |routes|
    requires exists s :: s in listed && s.name == routes[i].target && Dock.IsPublished(s)
    ensures !All(Dock.Services(listed).value, routes)[i].isOrphan
  {
    var s :| s in listed && s.name == routes[i].target && Dock.IsPublished(s);
    var published := Filter(listed, Dock.IsPublished);
    assert s in published;
    var k :| 0 <= k < |published| && published[k] == s;
    var services := Dock.Services(listed).value;
    assert services[k] in services;
  }
}
