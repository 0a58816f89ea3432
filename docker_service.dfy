/**
 * `DockerService` (manager/ceryx/docker_service.py): the swarm services that
 * are attached to the proxy network. The daemon's `services.list(filters=...)`
 * is a parameter.
 */
module DockerService {
  import opened Wrappers
  import opened Seqs
  import opened Swarm

  /** The search loop of `_is_in_proxy_network` over `Spec.Networks`. */
  function AttachedTo(nets: seq<NetworkAttachment>, proxyNetwork: string): (r: bool)
    ensures r <==> exists i :: 0 <= i < |nets| && nets[i].target == proxyNetwork
  {
    if |nets| == 0 then false
    else if nets[0].target == proxyNetwork then true
    else
      var rest := AttachedTo(nets[1..], proxyNetwork);
      assert rest <==> exists i :: 1 <= i < |nets| && nets[i].target == proxyNetwork by {
        forall i | 1 <= i < |nets| ensures nets[i] == nets[1..][i - 1] { }
        if rest {
          var k :| 0 <= k < |nets[1..]| && nets[1..][k].target == proxyNetwork;
          assert nets[k + 1] == nets[1..][k];
        }
      }
      rest
  }

  /** `_is_in_proxy_network`: some network entry's `Target` is the proxy network; false without `Networks`. */
  function IsInProxyNetwork(proxyNetwork: string, service: SwarmService): (r: bool)
    ensures service.networks.None? ==> !r
    ensures r <==> service.networks.Some? && exists net :: net in service.networks.value && net.target == proxyNetwork
  {
    service.networks.Some? && AttachedTo(service.networks.value, proxyNetwork)
  }

  /** `filters or dict()` */
  function FiltersOrEmpty(filters: Option<Filters>): (r: Filters)
    ensures filters.None? ==> r == map[]
    ensures filters.Some? ==> r == filters.value
  {
    if filters.None? then map[] else filters.value
  }

  /**
   * `services`: the listed services in the proxy network, in the daemon's
   * order, each as often as the daemon lists it; nothing outside the network.
   */
  function Services(list: Filters -> seq<SwarmService>, proxyNetwork: string, filters: Option<Filters>)
    : (r: seq<SwarmService>)
    ensures var listed := list(FiltersOrEmpty(filters));
      && IsSubsequence(r, listed)
      && (forall s :: s in r ==> IsInProxyNetwork(proxyNetwork, s))
      && (forall s :: s in listed && IsInProxyNetwork(proxyNetwork, s) ==> s in r)
      && (forall s :: multiset(r)[s] == if IsInProxyNetwork(proxyNetwork, s) then multiset(listed)[s] else 0)
  {
    Filter(list(FiltersOrEmpty(filters)), s => IsInProxyNetwork(proxyNetwork, s))
  }

  /** Listing without filters lists with an empty filter dict. */
  lemma NoFiltersIsEmptyFilters(list: Filters -> seq<SwarmService>, proxyNetwork: string)
    ensures Services(list, proxyNetwork, None) == Services(list, proxyNetwork, Some(map[]))
  {
  }

  /** `has_service`: some service listed under the name filter is in the proxy network. */
  function HasService(list: Filters -> seq<SwarmService>, proxyNetwork: string, name: string): (r: bool)
    ensures r <==> exists s :: s in list(map["name" := name]) && IsInProxyNetwork(proxyNetwork, s)
    ensures r <==> |Services(list, proxyNetwork, Some(map["name" := name]))| > 0
  {
    var found := Services(list, proxyNetwork, Some(map["name" := name]));
    assert |found| > 0 ==> found[0] in found;
    |found| > 0
  }
}
