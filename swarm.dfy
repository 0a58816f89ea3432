/**
 * The parts of a Docker swarm service, as the Docker SDK reports it, that the
 * manager reads: its name, `attrs['Spec']['Networks']` and
 * `attrs['Endpoint']['Ports']`, each of the last two possibly absent.
 */
module Swarm {
  import opened Wrappers

  /** One entry of `Spec.Networks`. */
  datatype NetworkAttachment = NetworkAttachment(target: string)

  /** One entry of `Endpoint.Ports`. */
  datatype PortConfig = PortConfig(protocol: string, targetPort: int, publishedPort: int)

  datatype SwarmService = SwarmService(
    name: string,
    networks: Option<seq<NetworkAttachment>>,  // None: `Spec` has no `Networks` key
    ports: Option<seq<PortConfig>>             // None: `Endpoint` has no `Ports` key
  )

  /** The `filters` argument of `services.list`. */
  type Filters = map<string, string>
}
