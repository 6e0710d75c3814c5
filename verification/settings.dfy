/** The parsed configuration as the servers component reads it (`config.servers`, `config.cluster`). */
module Settings {
  import opened Wrappers
  import opened JsValues

  datatype HttpSettings = HttpSettings(enabled: Value, webSockets: Value, port: Value, methods: Value)
  datatype TcpSettings = TcpSettings(enabled: Value, port: Value, allowHalfOpen: Value, pauseOnConnect: Value)
  datatype UdpSettings = UdpSettings(enabled: Value, port: Value, socketType: Value)

  /** `config.servers`; a missing protocol section is `None` (reading `.enabled` of it throws). */
  datatype ServerSettings = ServerSettings(http: Option<HttpSettings>, tcp: Option<TcpSettings>, udp: Option<UdpSettings>)

  datatype ClusterSettings = ClusterSettings(enabled: Value, cores: Value)

  datatype Config = Config(servers: Option<ServerSettings>, cluster: Option<ClusterSettings>)

  /** The sentinel that asks for one worker per CPU. */
  const AutoCores: Value := Str("auto")

  /**
   * The cluster section after start-up: with clustering on, the "auto" sentinel is replaced by
   * the host's CPU count; in every other case the section is left exactly as it was.
   */
  function ResolveCores(cluster: ClusterSettings, cpus: nat): (r: ClusterSettings)
    ensures r.enabled == cluster.enabled
    ensures Truthy(r.enabled) ==> r.cores != AutoCores
    ensures Truthy(cluster.enabled) && cluster.cores == AutoCores ==> r.cores == Num(cpus)
    ensures !Truthy(cluster.enabled) || cluster.cores != AutoCores ==> r == cluster
  {
    if Truthy(cluster.enabled) && cluster.cores == AutoCores then cluster.(cores := Num(cpus)) else cluster
  }
}
