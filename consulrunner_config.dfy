/**
 * The agent configuration of the `consulrunner` package
 * (consulrunner/configfile.go). Its port offsets, port map and join loop are
 * the same as those of configfile.go and are taken from `AdapterConfig`; the
 * record has one more field, the minimum session TTL, carried as the text
 * Go's `time.Duration.String` produces.
 */
module ConsulRunnerConfig {
  import opened Text
  import AdapterConfig

  datatype ConfigFile = ConfigFile(
    bootstrapExpect: int,
    datacenter: string,
    dataDir: string,
    logLevel: string,
    nodeName: string,
    server: bool,
    ports: map<string, int>,
    bindAddr: string,
    protocolVersion: int,
    startJoin: seq<string>,
    retryJoin: seq<string>,
    rejoinAfterLeave: bool,
    disableRemoteExec: bool,
    disableUpdateCheck: bool,
    sessionTTL: string)

  /** The record without its session TTL, in the shape configfile.go writes. */
  function WithoutSessionTTL(c: ConfigFile): AdapterConfig.ConfigFile {
    AdapterConfig.ConfigFile(
      c.bootstrapExpect, c.datacenter, c.dataDir, c.logLevel, c.nodeName, c.server, c.ports,
      c.bindAddr, c.protocolVersion, c.startJoin, c.retryJoin,
      c.rejoinAfterLeave, c.disableRemoteExec, c.disableUpdateCheck)
  }

  /**
   * The configuration this package's `newConfigFile` builds: every field but
   * the session TTL is what configfile.go builds for the same node, and the
   * session TTL is the given text.
   */
  function ConfigFileFor(
    dataDir: string, nodeName: string, clusterStartingPort: int, index: int, numNodes: nat, sessionTTL: string)
    : (c: ConfigFile)
    ensures WithoutSessionTTL(c) == AdapterConfig.ConfigFileFor(dataDir, nodeName, clusterStartingPort, index, numNodes)
    ensures c.sessionTTL == sessionTTL
  {
    var joinAddresses := AdapterConfig.JoinAddresses(clusterStartingPort, numNodes);
    ConfigFile(
      bootstrapExpect := numNodes,
      datacenter := "",
      dataDir := dataDir,
      logLevel := AdapterConfig.DefaultLogLevel,
      nodeName := nodeName,
      server := true,
      ports := AdapterConfig.PortMap(clusterStartingPort, index),
      bindAddr := Loopback,
      protocolVersion := AdapterConfig.DefaultProtocolVersion,
      startJoin := joinAddresses,
      retryJoin := joinAddresses,
      rejoinAfterLeave := true,
      disableRemoteExec := true,
      disableUpdateCheck := true,
      sessionTTL := sessionTTL)
  }

  /**
   * The layout guarantees of configfile.go carry over: node `index`'s ports
   * fill its own block with no clash, join entry `i` is node `i`'s serf_lan
   * port, and the fixed server settings hold.
   */
  lemma LayoutAsInAdapterConfig(
    dataDir: string, nodeName: string, clusterStartingPort: int, index: int, numNodes: nat, sessionTTL: string)
    ensures var c := ConfigFileFor(dataDir, nodeName, clusterStartingPort, index, numNodes, sessionTTL);
      && AdapterConfig.ServerSettings(WithoutSessionTTL(c), numNodes)
      && (forall k :: k in c.ports ==>
            AdapterConfig.NodeStartingPort(clusterStartingPort, index) <= c.ports[k]
            < AdapterConfig.NodeStartingPort(clusterStartingPort, index) + AdapterConfig.PortOffsetLength)
      && (forall k1, k2 :: k1 in c.ports && k2 in c.ports && k1 != k2 ==> c.ports[k1] != c.ports[k2])
      && (forall i :: 0 <= i < numNodes ==>
            c.startJoin[i] == HostPort(Loopback, ConfigFileFor("", "", clusterStartingPort, i, numNodes, sessionTTL).ports["serf_lan"]))
  {
  }

  /** The session TTL is the only field the `sessionTTL` argument reaches. */
  lemma OnlySessionTTLDependsOnTTL(
    dataDir: string, nodeName: string, clusterStartingPort: int, index: int, numNodes: nat, ttl1: string, ttl2: string)
    ensures ConfigFileFor(dataDir, nodeName, clusterStartingPort, index, numNodes, ttl1).(sessionTTL := ttl2)
         == ConfigFileFor(dataDir, nodeName, clusterStartingPort, index, numNodes, ttl2)
  {
  }

  /** This package's `newConfigFile`: the port map, the join list filled in a loop, and the fixed fields. */
  method NewConfigFile(
    dataDir: string, nodeName: string, clusterStartingPort: int, index: int, numNodes: nat, sessionTTL: string)
    returns (c: ConfigFile)
    ensures c == ConfigFileFor(dataDir, nodeName, clusterStartingPort, index, numNodes, sessionTTL)
  {
    var ports := AdapterConfig.PortMap(clusterStartingPort, index);
    var joinAddresses := AdapterConfig.MakeJoinAddresses(clusterStartingPort, numNodes);
    c := ConfigFile(
      bootstrapExpect := numNodes,
      datacenter := "",
      dataDir := dataDir,
      logLevel := AdapterConfig.DefaultLogLevel,
      nodeName := nodeName,
      server := true,
      ports := ports,
      bindAddr := Loopback,
      protocolVersion := AdapterConfig.DefaultProtocolVersion,
      startJoin := joinAddresses,
      retryJoin := joinAddresses,
      rejoinAfterLeave := true,
      disableRemoteExec := true,
      disableUpdateCheck := true,
      sessionTTL := sessionTTL);
  }

  /** This package's `writeConfigFile`: the file is `<nodeName>.json` inside `configDir`. */
  method WriteConfigFile(
    configDir: string, dataDir: string, nodeName: string, clusterStartingPort: int, index: int, numNodes: nat,
    sessionTTL: string)
    returns (filePath: string, written: ConfigFile)
    ensures filePath == AdapterConfig.ConfigFilePath(configDir, nodeName)
    ensures written == ConfigFileFor(dataDir, nodeName, clusterStartingPort, index, numNodes, sessionTTL)
  {
    filePath := JoinPath(configDir, nodeName + ".json");
    written := NewConfigFile(dataDir, nodeName, clusterStartingPort, index, numNodes, sessionTTL);
  }
}
