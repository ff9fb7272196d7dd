/** The three roles of a cluster, with the tables that hang on them. */
module Roles {

  datatype Role = Master | RegionServer | RestServer

  datatype ContainerPort = ContainerPort(name: string, containerPort: int)

  function RoleName(r: Role): string {
    match r
    case Master => "master"
    case RegionServer => "regionserver"
    case RestServer => "restserver"
  }

  // The argument that bin/hbase takes for the role.
  function CommandArg(r: Role): string {
    match r
    case Master => "master"
    case RegionServer => "regionserver"
    case RestServer => "rest"
  }

  const UI_PORT := "ui-http"

  function Ports(r: Role): seq<ContainerPort> {
    match r
    case Master => [ContainerPort("master", 16000), ContainerPort(UI_PORT, 16010)]
    case RegionServer =>
      [ContainerPort("regionserver", 16020), ContainerPort(UI_PORT, 16030), ContainerPort("metrics", 9100)]
    case RestServer =>
      [ContainerPort("rest-http", 8080), ContainerPort(UI_PORT, 8085), ContainerPort("metrics", 9100)]
  }

  // The port that all probes connect to, by name.
  function ProbePort(r: Role): string {
    match r
    case Master => "master"
    case RegionServer => "regionserver"
    case RestServer => "rest-http"
  }

  // GetMetricsPort
  function MetricsPort(r: Role): int {
    match r
    case Master => 16010
    case RegionServer => 16030
    case RestServer => 8085
  }

  // The number of the first port with the given name, or 0.
  function PortNamed(ports: seq<ContainerPort>, name: string): int {
    if ports == [] then 0
    else if ports[0].name == name then ports[0].containerPort
    else PortNamed(ports[1..], name)
  }

  method FindPort(ports: seq<ContainerPort>, name: string) returns (number: int)
    ensures number == PortNamed(ports, name)
  {
    number := 0;
    for i := 0 to |ports|
      invariant PortNamed(ports, name) == PortNamed(ports[i..], name)
    {
      if ports[i].name == name {
        return ports[i].containerPort;
      }
      assert ports[i..][1..] == ports[i + 1..];
    }
  }

  /** The tables fit together: probes connect to a declared port, and the metrics Service targets the
      port that the OIDC proxy has as its upstream. */
  lemma TablesAgree(r: Role)
    ensures exists p :: p in Ports(r) && p.name == ProbePort(r)
    ensures PortNamed(Ports(r), UI_PORT) == MetricsPort(r)
  {
    assert Ports(r)[0].name == ProbePort(r);
    assert |"master"| == 6 && |"regionserver"| == 12 && |"rest-http"| == 9 && |UI_PORT| == 7;
    assert Ports(r)[1..][0] == Ports(r)[1];
  }
}
