/**
 * `DockerApi` (manager/ceryx/dock.py): the swarm services that publish ports,
 * each reduced to its name and its published ports. The daemon's
 * `services.list()` result is a parameter.
 */
module Dock {
  import opened Wrappers
  import opened Seqs
  import opened Swarm

  /** The record `_parse_service` builds: `{'name': ..., 'ports': ...}`. */
  datatype ParsedService = ParsedService(name: string, ports: seq<PortConfig>)

  /** The exception `_parse_service` raises: the service is not published. */
  datatype DockError = NotPublished(service: string)

  /** `'Ports' in serv.attrs['Endpoint']` */
  predicate IsPublished(service: SwarmService)
  {
    service.ports.Some?
  }

  /** `_parse_service` */
  function ParseService(service: SwarmService): (r: Result<ParsedService, DockError>)
    ensures r.Err? <==> !IsPublished(service)
    ensures r.Err? ==> r.error == NotPublished(service.name)
    ensures r.Ok? ==> r.value.name == service.name && r.value.ports == service.ports.value
  {
    if service.ports.None? then Err(NotPublished(service.name))
    else Ok(ParsedService(service.name, service.ports.value))
  }

  /** `[_parse_service(s) for s in services]`: the first exception ends the comprehension. */
  function ParseEach(services: seq<SwarmService>): (r: Result<seq<ParsedService>, DockError>)
    ensures r.Ok? <==> forall s :: s in services ==> IsPublished(s)
    ensures r.Err? ==> exists s :: s in services && r.error == NotPublished(s.name)
    ensures r.Ok? ==> |r.value| == |services| && forall i :: 0 <= i < |services| ==>
      r.value[i].name == services[i].name && Some(r.value[i].ports) == services[i].ports
  {
    if |services| == 0 then Ok([])
    else
      match ParseService(services[0])
      case Err(e) => Err(e)
      case Ok(head) =>
        var rest := ParseEach(services[1..]);
        assert services == [services[0]] + services[1..];
        if rest.Err? then Err(rest.error) else Ok([head] + rest.value)
  }

  /**
   * `services`: one record per listed service that has `Ports`, in the
   * daemon's order. Since the filter runs first, `_parse_service` never raises.
   */
  function Services(listed: seq<SwarmService>): (r: Result<seq<ParsedService>, DockError>)
    ensures r.Ok?
    ensures |r.value| == CountWhere(listed, IsPublished)
    ensures var published := Filter(listed, IsPublished);
      |r.value| == |published| && forall i :: 0 <= i < |published| ==>
        r.value[i].name == published[i].name && Some(r.value[i].ports) == published[i].ports
  {
    var published := Filter(listed, IsPublished);
    assert forall s :: s in published ==> IsPublished(s);
    ParseEach(published)
  }

  /** Every output record comes from a listed service with that name that has `Ports`. */
  lemma ServicesComeFromPublished(listed: seq<SwarmService>, p: ParsedService)
    requires p in Services(listed).value
    ensures exists s :: s in listed && s.name == p.name && s.ports == Some(p.ports)
  {
    var out := Services(listed).value;
    var published := Filter(listed, IsPublished);
    var i :| 0 <= i < |out| && out[i] == p;
    assert published[i] in published;
  }
}
