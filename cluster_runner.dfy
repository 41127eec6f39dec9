/**
 * The cluster runner (clusterrunner.go): starts `numNodes` Consul agents on
 * consecutive port blocks from `startingPort`, tells clients where to reach
 * them, stops them, and resets the cluster's sessions and keys.
 *
 * Spawning an agent, waiting for it to be ready, temporary directories and
 * the Consul API calls are outside the model: the directories `Start` gets
 * from the system are its parameters, an agent is represented by what it is
 * launched with, and the API calls of `Reset` by their outcomes.
 */
module Runner {
  import opened Wrappers
  import opened Text
  import AdapterConfig

  /** An error returned by the Consul API; only its identity matters here. */
  datatype Error = Error(message: string)

  /**
   * A `consul agent` process, known by its name, its command line, the
   * configuration file it reads and the configuration written to that file.
   * `Nil` is the empty slot of a freshly made process slice.
   */
  datatype Process =
    | Nil
    | Agent(name: string, command: seq<string>, configFilePath: string, config: AdapterConfig.ConfigFile)

  /**
   * What `Start` launches for node `i`: node name and data directory `i`,
   * index `i`, the runner's port and size. The agent is started on the file
   * its configuration is written to, and that configuration uses port block `i`.
   */
  function NodeProcess(startingPort: int, numNodes: nat, dataDir: string, configDir: string, i: nat): (p: Process)
    ensures p.Agent? && p.command == ["consul", "agent", "--config-file", p.configFilePath]
    ensures p.config.ports == AdapterConfig.PortMap(startingPort, i)
  {
    var iStr := Decimal(i);
    var configFilePath := AdapterConfig.ConfigFilePath(configDir, iStr);
    Agent(
      "consul_cluster[" + iStr + "]",
      ["consul", "agent", "--config-file", configFilePath],
      configFilePath,
      AdapterConfig.ConfigFileFor(JoinPath(dataDir, iStr), iStr, startingPort, i, numNodes))
  }

  /**
   * Node `i` is named by the decimal text of its index, uses port block `i`
   * of the runner's range in a cluster of the runner's size, keeps its data
   * in its own directory under `dataDir`, and its agent reads the file its
   * configuration was written to.
   */
  lemma NodeProcessArguments(startingPort: int, numNodes: nat, dataDir: string, configDir: string, i: nat)
    ensures var p := NodeProcess(startingPort, numNodes, dataDir, configDir, i);
      && p.Agent?
      && ParseDecimal(p.config.nodeName) == Some(i as int)
      && p.config.ports == AdapterConfig.PortMap(startingPort, i)
      && p.config.bootstrapExpect == numNodes
      && p.config.dataDir == JoinPath(dataDir, p.config.nodeName)
      && p.configFilePath == AdapterConfig.ConfigFilePath(configDir, p.config.nodeName)
      && p.command == ["consul", "agent", "--config-file", p.configFilePath]
  {
    DecimalRoundTrip(i);
  }

  /** The processes of a started cluster, in node order. */
  function ClusterProcesses(startingPort: int, numNodes: nat, dataDir: string, configDir: string): (ps: seq<Process>)
    ensures |ps| == numNodes
    ensures forall i :: 0 <= i < numNodes ==> ps[i] == NodeProcess(startingPort, numNodes, dataDir, configDir, i)
  {
    seq(numNodes, i requires 0 <= i => NodeProcess(startingPort, numNodes, dataDir, configDir, i))
  }

  /**
   * Two nodes of a started cluster never share a node name, a configuration
   * file, a data directory or a port.
   */
  lemma NodesDoNotClash(startingPort: int, numNodes: nat, dataDir: string, configDir: string, a: nat, b: nat)
    requires a < numNodes && b < numNodes && a != b
    ensures var pa, pb := NodeProcess(startingPort, numNodes, dataDir, configDir, a),
                          NodeProcess(startingPort, numNodes, dataDir, configDir, b);
      && pa.config.nodeName != pb.config.nodeName
      && pa.configFilePath != pb.configFilePath
      && pa.config.dataDir != pb.config.dataDir
      && forall k1, k2 :: k1 in pa.config.ports && k2 in pb.config.ports ==> pa.config.ports[k1] != pb.config.ports[k2]
  {
    DecimalInjective(a, b);
    DecimalIsPlainElement(a);
    DecimalIsPlainElement(b);
    AdapterConfig.ConfigFilePathInjective(configDir, Decimal(a), Decimal(b));
    JoinPathInjective(dataDir, Decimal(a), Decimal(b));
    forall k1, k2 | k1 in AdapterConfig.PortMap(startingPort, a) && k2 in AdapterConfig.PortMap(startingPort, b)
      ensures AdapterConfig.PortMap(startingPort, a)[k1] != AdapterConfig.PortMap(startingPort, b)[k2]
    {
      AdapterConfig.PortBlocksDisjoint(startingPort, a, b, k1, k2);
    }
  }

  /**
   * Every node of a started cluster joins the same list, whose entry `b` is
   * the serf_lan port node `b` listens on.
   */
  lemma JoinListsReachEveryNode(startingPort: int, numNodes: nat, dataDir: string, configDir: string, a: nat, b: nat)
    requires a < numNodes && b < numNodes
    ensures var pa, pb := NodeProcess(startingPort, numNodes, dataDir, configDir, a),
                          NodeProcess(startingPort, numNodes, dataDir, configDir, b);
      && pa.config.startJoin == pb.config.startJoin
      && pa.config.startJoin[b] == HostPort(Loopback, pb.config.ports["serf_lan"])
  {
  }

  /** How each call of `Session().List` and then `Session().Destroy` in `Reset` turned out. */
  datatype ListOutcome =
    | ListFailed(err: Error)
    | Listed(destroyOutcomes: seq<Option<Error>>)  // one per listed session, in list order

  /** The error of the last failed call, if any failed. */
  function LastFailure(outcomes: seq<Option<Error>>): (last: Option<Error>)
    ensures last.None? <==> forall j :: 0 <= j < |outcomes| ==> outcomes[j].None?
    ensures last.Some? ==>
              exists j :: 0 <= j < |outcomes| && outcomes[j] == last
                          && forall k :: j < k < |outcomes| ==> outcomes[k].None?
  {
    if |outcomes| == 0 then None
    else if outcomes[|outcomes| - 1].Some? then outcomes[|outcomes| - 1]
    else LastFailure(outcomes[..|outcomes| - 1])
  }

  class ClusterRunner {
    const startingPort: int
    const numNodes: nat
    const scheme: string
    var consulProcesses: seq<Process>
    var running: bool
    var dataDir: string
    var configDir: string

    /** The ports are in range, and the processes are those of the started cluster exactly while running. */
    ghost predicate Valid()
      reads this
    {
      && 0 < startingPort < 0x1_0000
      && numNodes > 0
      && (running ==> consulProcesses == ClusterProcesses(startingPort, numNodes, dataDir, configDir))
      && (!running ==> consulProcesses == [])
    }

    /**
     * The range check of `NewClusterRunner` bounds the first port only: the
     * largest starting port it admits already puts node 0's `http` port
     * outside the TCP port range.
     */
    static lemma StartingPortCheckLeavesLaterPortsUnbounded()
      ensures 0 < 0xFFFF < 0x1_0000
      ensures AdapterConfig.PortMap(0xFFFF, 0)["http"] == 0x1_0000
    {
    }

    /** `NewClusterRunner`: a stopped runner for `numNodes` nodes whose ports start at `startingPort`. */
    constructor (startingPort: int, numNodes: int, scheme: string)
      requires 0 < startingPort < 0x1_0000
      requires numNodes > 0
      ensures Valid()
      ensures this.startingPort == startingPort && this.numNodes == numNodes && this.scheme == scheme
      ensures !running && consulProcesses == [] && dataDir == "" && configDir == ""
    {
      this.startingPort := startingPort;
      this.numNodes := numNodes;
      this.scheme := scheme;
      consulProcesses := [];
      running := false;
      dataDir := "";
      configDir := "";
    }

    /**
     * Starts the cluster in the fresh directories `tmpDataDir` and
     * `tmpConfigDir`, one agent per node; does nothing when already running.
     */
    method Start(tmpDataDir: string, tmpConfigDir: string)
      requires Valid()
      modifies this
      ensures Valid()
      ensures old(running) ==> unchanged(this)
      ensures !old(running) ==>
                && dataDir == tmpDataDir && configDir == tmpConfigDir
                && consulProcesses == ClusterProcesses(startingPort, numNodes, tmpDataDir, tmpConfigDir)
      ensures running && |consulProcesses| == numNodes
    {
      if running {
        return;
      }
      dataDir := tmpDataDir;
      configDir := tmpConfigDir;
      consulProcesses := seq(numNodes, _ => Nil);
      for i := 0 to numNodes
        invariant dataDir == tmpDataDir && configDir == tmpConfigDir && !running
        invariant |consulProcesses| == numNodes
        invariant forall j :: 0 <= j < i ==> consulProcesses[j] == NodeProcess(startingPort, numNodes, dataDir, configDir, j)
      {
        var iStr := Decimal(i);
        var nodeDataDir := JoinPath(dataDir, iStr);
        var configFilePath, config := AdapterConfig.WriteConfigFile(configDir, nodeDataDir, iStr, startingPort, i, numNodes);
        var process := Agent("consul_cluster[" + iStr + "]", ["consul", "agent", "--config-file", configFilePath], configFilePath, config);
        assert process == NodeProcess(startingPort, numNodes, dataDir, configDir, i);
        consulProcesses := consulProcesses[i := process];
      }
      assert consulProcesses == ClusterProcesses(startingPort, numNodes, dataDir, configDir);
      running := true;
    }

    /** Stops every agent and forgets the processes; does nothing when not running. */
    method Stop()
      requires Valid()
      modifies this
      ensures Valid()
      ensures !old(running) ==> unchanged(this)
      ensures !running && consulProcesses == []
      ensures dataDir == old(dataDir) && configDir == old(configDir)
    {
      if !running {
        return;
      }
      consulProcesses := [];
      running := false;
    }

    /** The HTTP endpoint of node `i`: the `http` port its configuration assigns, on the loopback address. */
    function NodeURL(i: int): (url: string)
      ensures url == scheme + "://" + HostPort(Loopback, AdapterConfig.PortMap(startingPort, i)["http"])
    {
      scheme + "://" + HostPort(Loopback, startingPort + i * AdapterConfig.PortOffsetLength + AdapterConfig.PortOffsetHTTP)
    }

    /** The `urls` slice `ConsulCluster` fills: node `i`'s URL at index `i`. */
    function ClusterURLs(): (urls: seq<string>)
      ensures |urls| == numNodes
      ensures forall i :: 0 <= i < numNodes ==> urls[i] == NodeURL(i)
    {
      seq(numNodes, i => NodeURL(i))
    }

    /** Node `i`'s URL reaches the `http` port of the agent `Start` launches as node `i`. */
    lemma NodeURLReachesAgent(dataDir: string, configDir: string, i: nat)
      requires i < numNodes
      ensures NodeURL(i) ==
              scheme + "://" + HostPort(Loopback, ClusterProcesses(startingPort, numNodes, dataDir, configDir)[i].config.ports["http"])
    {
    }

    lemma NodeURLHasNoComma(i: int)
      requires ',' !in scheme
      ensures ',' !in NodeURL(i)
    {
    }

    /** For a scheme without a comma, the comma-joined URLs split back into one URL per node. */
    lemma ClusterURLsSplitBack()
      requires ',' !in scheme && numNodes > 0
      ensures Split(Join(ClusterURLs(), ','), ',') == ClusterURLs()
    {
      var urls := ClusterURLs();
      forall j | 0 <= j < numNodes
        ensures ',' !in urls[j]
      {
        NodeURLHasNoComma(j);
      }
      SplitJoin(urls, ',');
    }

    /**
     * `ConsulCluster`: the nodes' URLs joined by commas; for a scheme without
     * a comma the string splits back into exactly one URL per node, URL `i`
     * reaching node `i`'s `http` port.
     */
    method ConsulCluster() returns (cluster: string)
      ensures cluster == Join(ClusterURLs(), ',')
      ensures ',' !in scheme && numNodes > 0 ==>
                |Split(cluster, ',')| == numNodes
                && forall i :: 0 <= i < numNodes ==>
                     Split(cluster, ',')[i] ==
                     scheme + "://" + HostPort(Loopback, AdapterConfig.PortMap(startingPort, i)["http"])
    {
      var urls := new string[numNodes];
      for i := 0 to numNodes
        invariant forall j :: 0 <= j < i ==> urls[j] == NodeURL(j)
      {
        urls[i] := scheme + "://" + HostPort(Loopback, startingPort + i * AdapterConfig.PortOffsetLength + AdapterConfig.PortOffsetHTTP);
        assert urls[i] == NodeURL(i);
      }
      assert urls[..] == ClusterURLs();
      cluster := Join(urls[..], ',');
      if ',' !in scheme && numNodes > 0 {
        ClusterURLsSplitBack();
      }
    }

    /** `Address`: the loopback address of node 0's `http` port. */
    function Address(): (address: string)
      ensures address == HostPort(Loopback, AdapterConfig.PortMap(startingPort, 0)["http"])
    {
      HostPort(Loopback, startingPort + AdapterConfig.PortOffsetHTTP)
    }

    /** `URL`: the first of the cluster's URLs. */
    function URL(): (url: string)
      ensures numNodes > 0 ==> url == ClusterURLs()[0]
    {
      scheme + "://" + Address()
    }

    /**
     * `Reset`: destroys every listed session, then deletes every key. A
     * failure to list wins, else the last failed destroy, else the outcome
     * of deleting the keys; no error exactly when every call succeeded.
     */
    method Reset(listed: ListOutcome, deleteTreeErr: Option<Error>) returns (err: Option<Error>)
      ensures listed.ListFailed? ==> err == Some(listed.err)
      ensures listed.Listed? && LastFailure(listed.destroyOutcomes).Some? ==>
                err == LastFailure(listed.destroyOutcomes)
      ensures listed.Listed? && LastFailure(listed.destroyOutcomes).None? ==> err == deleteTreeErr
      ensures err.None? <==>
                && listed.Listed?
                && (forall j :: 0 <= j < |listed.destroyOutcomes| ==> listed.destroyOutcomes[j].None?)
                && deleteTreeErr.None?
    {
      var listErr: Option<Error>;
      match listed {
        case ListFailed(e) =>
          listErr := Some(e);
        case Listed(outcomes) =>
          listErr := None;
          for i := 0 to |outcomes|
            invariant listErr == LastFailure(outcomes[..i])
          {
            assert outcomes[..i + 1][..i] == outcomes[..i];
            if outcomes[i].Some? {
              listErr := outcomes[i];
            }
          }
          assert outcomes[..|outcomes|] == outcomes;
      }
      if listErr.Some? {
        return listErr;
      }
      return deleteTreeErr;
    }
  }
}
