/** The container-listing part of `DockerManager` (interface/src/utils/dockermanager.py):
    the Docker client is a given sequence of container records, and restarting a container
    is recorded in a log of restarted ids. */
module Docker {
  import opened Wrappers
  import opened PyText
  import opened Lists

  /** One entry of a port's host configuration (`{'HostIp': ..., 'HostPort': ...}`). */
  datatype HostBinding = HostBinding(hostIp: string, hostPort: string)

  /** One item of `NetworkSettings.Ports`: a container port such as "80/tcp" and its host
      configuration, which Docker reports as None for an unpublished port. */
  datatype PortEntry = PortEntry(containerPort: string, bindings: Option<seq<HostBinding>>)

  /** A container as the client reports it: the keys of `NetworkSettings.Networks` are its
      networks; `NetworkSettings.Ports` keeps Docker's order and may be None. */
  datatype Container = Container(
    id: string, name: string, status: string,
    networks: set<string>, ports: Option<seq<PortEntry>>)

  /** One record of `list_containers`' result. */
  datatype ContainerInfo = ContainerInfo(id: string, name: string, status: string, ports: seq<string>)

  datatype NotFound = ContainerNotFound(name: string)

  /** `client.containers.list(all=all)`: every container, or only the running ones, one
      record per running container in the client's order. */
  function ClientList(client: seq<Container>, all: bool): (r: seq<Container>)
    ensures all ==> r == client
    ensures IsSubsequence(r, client)
    ensures forall i :: 0 <= i < |r| ==> all || r[i].status == "running"
    ensures forall i :: 0 <= i < |client| && (all || client[i].status == "running") ==> client[i] in r
    ensures !all ==> |r| == |set i | 0 <= i < |client| && client[i].status == "running"|
  {
    SubsequenceOfItself(client);
    if all then client
    else
      var running := (c: Container) => c.status == "running";
      FilterProperties(client, running);
      FilterLength(client, running);
      assert KeptIndices(client, running) == set i | 0 <= i < |client| && client[i].status == "running";
      Filter(client, running)
  }

  /** `any(n in c.attrs['NetworkSettings']['Networks'] for n in networks)`. */
  predicate OnNetwork(c: Container, networks: seq<string>) {
    exists n :: n in networks && n in c.networks
  }

  /** The network filter of `list_containers`: with a non-empty list, exactly the
      containers on at least one listed network, one record per such container in their
      original order; with None or
      an empty list, nothing is filtered out. */
  function FilterByNetworks(cs: seq<Container>, networks: Option<seq<string>>): (r: seq<Container>)
    ensures networks.None? || networks == Some([]) ==> r == cs
    ensures IsSubsequence(r, cs)
    ensures networks.Some? && networks.value != [] ==>
              (forall i :: 0 <= i < |r| ==> r[i] in cs && OnNetwork(r[i], networks.value))
              && (forall i :: 0 <= i < |cs| && OnNetwork(cs[i], networks.value) ==> cs[i] in r)
              && |r| == |set i | 0 <= i < |cs| && OnNetwork(cs[i], networks.value)|
  {
    SubsequenceOfItself(cs);
    if networks.Some? && networks.value != [] then
      var on := (c: Container) => OnNetwork(c, networks.value);
      var f := Filter(cs, on);
      FilterProperties(cs, on);
      FilterLength(cs, on);
      assert KeptIndices(cs, on) == set i | 0 <= i < |cs| && OnNetwork(cs[i], networks.value);
      f
    else
      cs
  }

  /** `if host_config`: a port with a non-empty host configuration is published. */
  predicate IsBound(e: PortEntry) {
    e.bindings.Some? && e.bindings.value != []
  }

  /** `f"{host_config[0]['HostPort']}:{container_port.split('/')[0]}"`. */
  function PortString(e: PortEntry): string
    requires IsBound(e)
  {
    e.bindings.value[0].hostPort + ":" + BeforeFirst(e.containerPort, '/')
  }

  /** `get_ports`: one string per published port, in Docker's order, unpublished ports
      skipped; missing or empty port information gives no strings. */
  function GetPorts(ports: Option<seq<PortEntry>>): (r: seq<string>)
    ensures ports.None? || ports == Some([]) ==> r == []
    ensures ports.Some? ==>
              var bound := Filter(ports.value, IsBound);
              |r| == |bound| && forall j :: 0 <= j < |r| ==> IsBound(bound[j]) && r[j] == PortString(bound[j])
  {
    if ports.None? || ports.value == [] then []
    else
      var bound := Filter(ports.value, IsBound);
      FilterProperties(ports.value, IsBound);
      seq(|bound|, j requires 0 <= j < |bound| => PortString(bound[j]))
  }

  /** A port string splits back, at its colon, into the host port and the bare container
      port, when neither of them contains a colon. */
  lemma PortStringSplits(e: PortEntry)
    requires IsBound(e)
    requires ':' !in e.bindings.value[0].hostPort && ':' !in BeforeFirst(e.containerPort, '/')
    ensures Split(PortString(e), ':') == [e.bindings.value[0].hostPort, BeforeFirst(e.containerPort, '/')]
  {
    var parts := [e.bindings.value[0].hostPort, BeforeFirst(e.containerPort, '/')];
    assert Join(parts, ':') == PortString(e) by {
      assert parts[1..] == [parts[1]];
    }
    SplitJoin(parts, ':');
  }

  function Info(c: Container): ContainerInfo {
    ContainerInfo(c.id, c.name, c.status, GetPorts(c.ports))
  }

  /** `list_containers(all, networks)`: one record (id, name, status, ports) per container
      that survives the listing and the network filter, in the same order. */
  function ListContainers(client: seq<Container>, all: bool, networks: Option<seq<string>>): (r: seq<ContainerInfo>)
    ensures var f := FilterByNetworks(ClientList(client, all), networks);
            |r| == |f| && forall i :: 0 <= i < |r| ==>
              (r[i].id == f[i].id && r[i].name == f[i].name
               && r[i].status == f[i].status && r[i].ports == GetPorts(f[i].ports))
  {
    var f := FilterByNetworks(ClientList(client, all), networks);
    seq(|f|, i requires 0 <= i < |f| => Info(f[i]))
  }

  /** The position of the first record with this name, if any. */
  function FirstNamed(cs: seq<ContainerInfo>, name: string): (r: Option<nat>)
    ensures r.None? <==> forall j :: 0 <= j < |cs| ==> cs[j].name != name
    ensures r.Some? ==> r.value < |cs| && cs[r.value].name == name
                        && forall j :: 0 <= j < r.value ==> cs[j].name != name
  {
    if cs == [] then None
    else if cs[0].name == name then Some(0)
    else
      var rest := FirstNamed(cs[1..], name);
      if rest.None? then None else Some(rest.value + 1)
  }

  /** The id of the first record with this name, if any. */
  function FirstNamedId(cs: seq<ContainerInfo>, name: string): Option<string> {
    var k := FirstNamed(cs, name);
    if k.None? then None else Some(cs[k.value].id)
  }

  lemma FirstNamedAt(cs: seq<ContainerInfo>, name: string, i: nat)
    requires i < |cs| && cs[i].name == name
    requires forall j :: 0 <= j < i ==> cs[j].name != name
    ensures FirstNamed(cs, name) == Some(i)
  {
    var k := FirstNamed(cs, name);
    assert k.Some? by { assert cs[i].name == name; }
    assert !(k.value < i);
  }

  /** The scan of the `for container in containers` loops: the position of the first
      record with this name, or the length of the list when there is none. */
  method FindNamed(cs: seq<ContainerInfo>, name: string) returns (i: nat)
    ensures i <= |cs|
    ensures i == |cs| <==> FirstNamed(cs, name).None?
    ensures i < |cs| ==> FirstNamed(cs, name) == Some(i)
  {
    i := 0;
    while i < |cs| && cs[i].name != name
      invariant 0 <= i <= |cs|
      invariant forall j :: 0 <= j < i ==> cs[j].name != name
    {
      i := i + 1;
    }
    if i < |cs| {
      FirstNamedAt(cs, name, i);
    }
  }

  class DockerManager {
    /** What `client.containers.list(all=True)` reports. */
    const client: seq<Container>
    /** The ids passed to `restart_container`, in call order. */
    var restarted: seq<string>

    constructor(client: seq<Container>)
      ensures this.client == client && restarted == []
    {
      this.client := client;
      restarted := [];
    }

    /** `restart_container(id)`. */
    method RestartContainer(id: string)
      modifies this`restarted
      ensures restarted == old(restarted) + [id]
    {
      restarted := restarted + [id];
    }

    /** `restart_container_by_name`: restarts the first container listed with that name,
        exactly once, or raises ValueError and restarts nothing. */
    method RestartContainerByName(name: string) returns (r: Result<(), NotFound>)
      modifies this`restarted
      ensures var target := FirstNamedId(ListContainers(client, true, None), name);
              (target.None? ==> r == Err(ContainerNotFound(name)) && restarted == old(restarted))
              && (target.Some? ==> r == Ok(()) && restarted == old(restarted) + [target.value])
    {
      var containers := ListContainers(client, true, None);
      var i := FindNamed(containers, name);
      if i < |containers| {
        RestartContainer(containers[i].id);
        r := Ok(());
      } else {
        r := Err(ContainerNotFound(name));
      }
    }

    /** `get_container_id_by_name`: the id of the first container listed with that name,
        or None when there is none. */
    method GetContainerIdByName(name: string) returns (id: Option<string>)
      ensures var cs := ListContainers(client, true, None);
              (id.None? <==> forall j :: 0 <= j < |cs| ==> cs[j].name != name)
              && (id.Some? ==> exists i :: 0 <= i < |cs| && cs[i].name == name && id.value == cs[i].id
                                 && forall j :: 0 <= j < i ==> cs[j].name != name)
    {
      var containers := ListContainers(client, true, None);
      var i := 0;
      while i < |containers|
        invariant 0 <= i <= |containers|
        invariant forall j :: 0 <= j < i ==> containers[j].name != name
      {
        if containers[i].name == name {
          return Some(containers[i].id);
        }
        i := i + 1;
      }
      return None;
    }
  }
}
