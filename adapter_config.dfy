/**
 * The per-node Consul agent configuration the cluster harness writes
 * (configfile.go): each node owns a block of consecutive ports, six named
 * services sit at fixed offsets inside it, and every node is told to join
 * the serf_lan ports of all nodes of the cluster.
 */
module AdapterConfig {
  import opened Text

  const DefaultLogLevel: string := "info"
  const DefaultProtocolVersion: int := 2

  // Offsets of the services inside a node's port block, in declaration order;
  // PortOffsetLength is the number of offsets, hence the size of the block.
  const PortOffsetDNS: int := 0
  const PortOffsetHTTP: int := 1
  const PortOffsetClientRPC: int := 2
  const PortOffsetSerfLAN: int := 3
  const PortOffsetSerfWAN: int := 4
  const PortOffsetServerRPC: int := 5
  const PortOffsetLength: int := 6

  /** The JSON keys of the `ports` object, one per service. */
  const PortKeys: set<string> := {"dns", "http", "rpc", "serf_lan", "serf_wan", "server"}

  /** The fields of the JSON agent configuration, in declaration order. */
  datatype ConfigFile = ConfigFile(
    bootstrapExpect: int,
    datacenter: string,
    dataDir: string,
    logLevel: string,
    nodeName: string,
    server: bool,
    ports: map<string, int>,
    bindAddr: string,
    protocolVersion: int,
    startJoin: seq<string>,
    retryJoin: seq<string>,
    rejoinAfterLeave: bool,
    disableRemoteExec: bool,
    disableUpdateCheck: bool)

  /**
   * First port of node `index`'s block: a whole number of blocks past the
   * cluster's first port, and at or after it for every node index.
   */
  function NodeStartingPort(clusterStartingPort: int, index: int): (start: int)
    ensures (start - clusterStartingPort) % PortOffsetLength == 0
    ensures index >= 0 ==> start >= clusterStartingPort
  {
    clusterStartingPort + PortOffsetLength * index
  }

  /** The `ports` object of node `index`: its six services, each inside the node's own block. */
  function PortMap(clusterStartingPort: int, index: int): (ports: map<string, int>)
    ensures ports.Keys == PortKeys
    ensures ports["http"] == NodeStartingPort(clusterStartingPort, index) + PortOffsetHTTP
    ensures ports["serf_lan"] == NodeStartingPort(clusterStartingPort, index) + PortOffsetSerfLAN
    ensures forall k :: k in ports ==>
              NodeStartingPort(clusterStartingPort, index) <= ports[k]
              < NodeStartingPort(clusterStartingPort, index) + PortOffsetLength
  {
    var start := NodeStartingPort(clusterStartingPort, index);
    map[
      "dns" := start + PortOffsetDNS,
      "http" := start + PortOffsetHTTP,
      "rpc" := start + PortOffsetClientRPC,
      "serf_lan" := start + PortOffsetSerfLAN,
      "serf_wan" := start + PortOffsetSerfWAN,
      "server" := start + PortOffsetServerRPC]
  }

  /** No two services of one node share a port. */
  lemma PortsDistinctWithinNode(clusterStartingPort: int, index: int, k1: string, k2: string)
    requires k1 in PortMap(clusterStartingPort, index) && k2 in PortMap(clusterStartingPort, index)
    requires k1 != k2
    ensures PortMap(clusterStartingPort, index)[k1] != PortMap(clusterStartingPort, index)[k2]
  {
  }

  /** The six services use up the whole block: the offsets are exactly 0 .. PortOffsetLength - 1. */
  lemma PortMapFillsBlock(clusterStartingPort: int, index: int)
    ensures |PortMap(clusterStartingPort, index)| == PortOffsetLength
    ensures forall p :: p in PortMap(clusterStartingPort, index).Values <==>
              NodeStartingPort(clusterStartingPort, index) <= p
              < NodeStartingPort(clusterStartingPort, index) + PortOffsetLength
  {
    var ports := PortMap(clusterStartingPort, index);
    var start := NodeStartingPort(clusterStartingPort, index);
    forall p | start <= p < start + PortOffsetLength ensures p in ports.Values {
      var k := if p == start then "dns" else if p == start + 1 then "http"
               else if p == start + 2 then "rpc" else if p == start + 3 then "serf_lan"
               else if p == start + 4 then "serf_wan" else "server";
      assert ports[k] == p;
    }
  }

  /** Nodes with different indices never share a port. */
  lemma PortBlocksDisjoint(clusterStartingPort: int, i: int, j: int, k1: string, k2: string)
    requires i != j
    requires k1 in PortMap(clusterStartingPort, i) && k2 in PortMap(clusterStartingPort, j)
    ensures PortMap(clusterStartingPort, i)[k1] != PortMap(clusterStartingPort, j)[k2]
  {
  }

  /** Join entry `i`: node `i`'s serf_lan port on the loopback address. */
  function JoinAddress(clusterStartingPort: int, i: int): (address: string)
    ensures address == HostPort(Loopback, PortMap(clusterStartingPort, i)["serf_lan"])
  {
    HostPort(Loopback, clusterStartingPort + i * PortOffsetLength + PortOffsetSerfLAN)
  }

  /** The join list of a cluster of `numNodes` nodes: one entry per node, in index order. */
  function JoinAddresses(clusterStartingPort: int, numNodes: nat): (addresses: seq<string>)
    ensures |addresses| == numNodes
    ensures forall i :: 0 <= i < numNodes ==>
              addresses[i] == HostPort(Loopback, PortMap(clusterStartingPort, i)["serf_lan"])
  {
    seq(numNodes, i => JoinAddress(clusterStartingPort, i))
  }

  /** No two nodes are listed under the same address. */
  lemma JoinAddressesDistinct(clusterStartingPort: int, numNodes: nat, i: int, j: int)
    requires 0 <= i < numNodes && 0 <= j < numNodes && i != j
    ensures JoinAddresses(clusterStartingPort, numNodes)[i] != JoinAddresses(clusterStartingPort, numNodes)[j]
  {
    var addresses := JoinAddresses(clusterStartingPort, numNodes);
    PortBlocksDisjoint(clusterStartingPort, i, j, "serf_lan", "serf_lan");
    HostPortInjective(Loopback,
      PortMap(clusterStartingPort, i)["serf_lan"], PortMap(clusterStartingPort, j)["serf_lan"]);
  }

  /** The `joinAddresses` slice, filled entry by entry. */
  method MakeJoinAddresses(clusterStartingPort: int, numNodes: nat) returns (addresses: seq<string>)
    ensures addresses == JoinAddresses(clusterStartingPort, numNodes)
  {
    var joinAddresses := new string[numNodes];
    for i := 0 to numNodes
      invariant forall j :: 0 <= j < i ==> joinAddresses[j] == JoinAddress(clusterStartingPort, j)
    {
      joinAddresses[i] := HostPort(Loopback, clusterStartingPort + i * PortOffsetLength + PortOffsetSerfLAN);
    }
    addresses := joinAddresses[..];
  }

  /**
   * What every generated configuration holds whatever the node: a server
   * expecting all `numNodes` nodes, joining (and retrying to join) the same
   * list of one address per node, with the fixed agent settings.
   */
  ghost predicate ServerSettings(c: ConfigFile, numNodes: nat) {
    && c.bootstrapExpect == numNodes
    && |c.startJoin| == numNodes
    && c.retryJoin == c.startJoin
    && c.datacenter == ""
    && c.logLevel == "info"
    && c.server
    && c.bindAddr == Loopback
    && c.protocolVersion == 2
    && c.rejoinAfterLeave && c.disableRemoteExec && c.disableUpdateCheck
  }

  /** The configuration `newConfigFile` builds for node `index` of `numNodes`. */
  function ConfigFileFor(dataDir: string, nodeName: string, clusterStartingPort: int, index: int, numNodes: nat)
    : (c: ConfigFile)
    ensures ServerSettings(c, numNodes)
    ensures c.dataDir == dataDir && c.nodeName == nodeName
    ensures c.ports == PortMap(clusterStartingPort, index)
    ensures c.startJoin == JoinAddresses(clusterStartingPort, numNodes)
  {
    var joinAddresses := JoinAddresses(clusterStartingPort, numNodes);
    ConfigFile(
      bootstrapExpect := numNodes,
      datacenter := "",
      dataDir := dataDir,
      logLevel := DefaultLogLevel,
      nodeName := nodeName,
      server := true,
      ports := PortMap(clusterStartingPort, index),
      bindAddr := Loopback,
      protocolVersion := DefaultProtocolVersion,
      startJoin := joinAddresses,
      retryJoin := joinAddresses,
      rejoinAfterLeave := true,
      disableRemoteExec := true,
      disableUpdateCheck := true)
  }

  /**
   * Whatever node's configuration one reads, its join entry `i` names the
   * serf_lan port that node `i`'s own configuration assigns.
   */
  lemma JoinEntryIsSerfLanOfNode(
    dataDir: string, nodeName: string, clusterStartingPort: int, index: int, numNodes: nat,
    otherDataDir: string, otherName: string, i: int)
    requires 0 <= i < numNodes
    ensures ConfigFileFor(dataDir, nodeName, clusterStartingPort, index, numNodes).startJoin[i] ==
            HostPort(Loopback, ConfigFileFor(otherDataDir, otherName, clusterStartingPort, i, numNodes).ports["serf_lan"])
  {
  }

  /** `newConfigFile`: the port map, the join list filled in a loop, and the fixed fields. */
  method NewConfigFile(dataDir: string, nodeName: string, clusterStartingPort: int, index: int, numNodes: nat)
    returns (c: ConfigFile)
    ensures c == ConfigFileFor(dataDir, nodeName, clusterStartingPort, index, numNodes)
  {
    var ports := PortMap(clusterStartingPort, index);
    var joinAddresses := MakeJoinAddresses(clusterStartingPort, numNodes);
    c := ConfigFile(
      bootstrapExpect := numNodes,
      datacenter := "",
      dataDir := dataDir,
      logLevel := DefaultLogLevel,
      nodeName := nodeName,
      server := true,
      ports := ports,
      bindAddr := Loopback,
      protocolVersion := DefaultProtocolVersion,
      startJoin := joinAddresses,
      retryJoin := joinAddresses,
      rejoinAfterLeave := true,
      disableRemoteExec := true,
      disableUpdateCheck := true);
  }

  /** The file a node's configuration is written to: its name ends in `<nodeName>.json`. */
  function ConfigFilePath(configDir: string, nodeName: string): (path: string)
    ensures |path| >= |nodeName| + 5 && path[|path| - |nodeName| - 5..] == nodeName + ".json"
  {
    JoinPath(configDir, nodeName + ".json")
  }

  /** The file is `<nodeName>.json` inside `configDir`. */
  lemma ConfigFilePathInDir(configDir: string, nodeName: string)
    ensures var path := ConfigFilePath(configDir, nodeName);
      && |path| >= |nodeName| + 5 && path[|path| - |nodeName| - 5..] == nodeName + ".json"
      && (configDir != "" ==> |path| > |configDir| && path[..|configDir|] == configDir && path[|path| - |nodeName| - 6] == '/')
  {
  }

  /** Nodes with different slash-free names never write the same file. */
  lemma ConfigFilePathInjective(configDir: string, a: string, b: string)
    requires '/' !in a && '/' !in b
    ensures ConfigFilePath(configDir, a) == ConfigFilePath(configDir, b) <==> a == b
  {
    JoinPathInjective(configDir, a + ".json", b + ".json");
    if a + ".json" == b + ".json" {
      assert (a + ".json")[..|a|] == a;
      assert (b + ".json")[..|b|] == b;
    }
  }

  /**
   * `writeConfigFile`: returns the path of the file and the configuration
   * that is serialised into it (creating and writing the file is not modelled).
   */
  method WriteConfigFile(
    configDir: string, dataDir: string, nodeName: string, clusterStartingPort: int, index: int, numNodes: nat)
    returns (filePath: string, written: ConfigFile)
    ensures filePath == ConfigFilePath(configDir, nodeName)
    ensures written == ConfigFileFor(dataDir, nodeName, clusterStartingPort, index, numNodes)
  {
    filePath := JoinPath(configDir, nodeName + ".json");
    written := NewConfigFile(dataDir, nodeName, clusterStartingPort, index, numNodes);
  }
}
