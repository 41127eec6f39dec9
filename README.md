# Consul cluster harness: port layout, agent configuration and runner state

This project models the part of `consuladapter` that brings up a local,
multi-node Consul cluster. The model covers three things:

- **Agent configuration** (`configfile.go`, and its copy in
  `consulrunner/configfile.go`). Node `index` owns `PortOffsetLength` (6)
  consecutive ports, starting at `clusterStartingPort + 6*index`. Its six
  services sit at fixed offsets inside that block: dns 0, http 1, rpc 2,
  serf_lan 3, serf_wan 4, server 5. Every node joins the serf_lan ports of
  all nodes, and the remaining fields are fixed server settings. The
  `consulrunner` record adds a minimum session TTL.
- **The cluster runner** (`clusterrunner.go`). `ClusterRunner` is a class.
  Its `running` flag makes `Start` and `Stop` idempotent, and `Start` fills
  `consulProcesses` with one agent per node. `ConsulCluster`, `Address` and
  `URL` derive HTTP endpoints from the same offset arithmetic. `Reset`
  combines the results of its API calls by a fixed error precedence.
- **The Go library formatting the harness relies on** (module `Text`).
  - `fmt`'s `%d` verb is modelled as `Decimal`, with `ParseDecimal` as its
    inverse.
  - `"127.0.0.1:%d"` addresses are modelled as `HostPort`.
  - `strings.Join` is modelled as `Join`, with `Split` as its inverse.
  - `path.Join` is modelled as `JoinPath`.

The main results are these:

- No two ports clash, neither within one node nor across nodes.
- Join entry `i` is exactly the serf_lan port that node `i`'s own
  configuration assigns.
- Each cluster URL reaches the `http` port of the agent `Start` launched for
  that node.
- Nodes never share a name, a configuration file or a data directory.
- `Reset` returns no error exactly when every call succeeded.

Modules: `Wrappers` (Option), `Text`, `AdapterConfig` (configfile.go),
`ConsulRunnerConfig` (consulrunner/configfile.go) and `Runner`
(clusterrunner.go).

The two Go packages carry identical copies of the offset constants, the
`ports` map and the join-address loop. The model states these once, in
`AdapterConfig`, and `ConsulRunnerConfig` imports them.

The range check in `NewClusterRunner` bounds only the first port. The lemma
`Runner.ClusterRunner.StartingPortCheckLeavesLaterPortsUnbounded` records
that starting port 65535 passes the check, yet node 0's `http` port is then
65536.

## Model

| member | source | states |
|---|---|---|
| `AdapterConfig.NodeStartingPort` | configfile.go:49 | Node `index`'s block starts a whole number of 6-port blocks after the cluster's first port, and never before it for a node index of 0 or more. |
| `AdapterConfig.PortMap` | configfile.go:49-57 | The `ports` map has exactly the six service keys. Every port of node `index` lies in `[start + 6*index, start + 6*index + 6)`. `http` and `serf_lan` are at offsets 1 and 3. |
| `AdapterConfig.PortsDistinctWithinNode` | configfile.go:50-57 | No two services of one node share a port. |
| `AdapterConfig.PortMapFillsBlock` | configfile.go:15-23 | The map has `PortOffsetLength` entries, and its ports are exactly the block. So the offsets are 0..5, and `PortOffsetLength` is their count. |
| `AdapterConfig.PortBlocksDisjoint` | configfile.go:49 | Nodes with different indices never share a port. |
| `AdapterConfig.JoinAddress` | configfile.go:61 | Join entry `i` is `127.0.0.1:` followed by node `i`'s serf_lan port from its own port map. |
| `AdapterConfig.JoinAddresses` | configfile.go:59-62 | The join list has `numNodes` entries. Entry `i` names node `i`'s serf_lan port. |
| `AdapterConfig.JoinAddressesDistinct` | configfile.go:59-62 | No two join entries name the same address. |
| `AdapterConfig.MakeJoinAddresses` | configfile.go:59-62 | The loop that fills the slice index by index produces exactly the join list. |
| `AdapterConfig.ConfigFileFor` | configfile.go:64-78 | `BootstrapExpect == numNodes` and `RetryJoin == StartJoin`. The record has `numNodes` join entries. The fixed fields are server, 127.0.0.1, protocol 2, log level "info", an empty datacenter and the three true flags. Data dir and node name are passed through. The ports come from the port map. |
| `AdapterConfig.JoinEntryIsSerfLanOfNode` | configfile.go:54-61 | Whichever node's configuration is read, its join entry `i` is the serf_lan port that node `i`'s configuration assigns. The join list does not depend on the index, name or data dir. |
| `AdapterConfig.NewConfigFile` | configfile.go:42-79 | The record built with the loop is the configuration `ConfigFileFor` describes. |
| `AdapterConfig.ConfigFilePath` | configfile.go:89 | The configuration file's path ends in `<nodeName>.json`. |
| `AdapterConfig.ConfigFilePathInDir` | configfile.go:89 | The file path ends in `<nodeName>.json`. It starts with `configDir`, followed by a slash. |
| `AdapterConfig.ConfigFilePathInjective` | configfile.go:89 | Within one directory, distinct slash-free node names give distinct files. |
| `AdapterConfig.WriteConfigFile` | configfile.go:81-104 | Returns the path `<configDir>/<nodeName>.json` and the configuration serialised into it. |
| `ConsulRunnerConfig.ConfigFileFor` | consulrunner/configfile.go:67-82 | Every field except the session TTL equals the configfile.go record for the same node. The session TTL is the given text. |
| `ConsulRunnerConfig.LayoutAsInAdapterConfig` | consulrunner/configfile.go:52-65 | The ports fill the node's own block with no clash. Join entry `i` is node `i`'s serf_lan port. The fixed server settings hold. |
| `ConsulRunnerConfig.OnlySessionTTLDependsOnTTL` | consulrunner/configfile.go:81 | Changing `sessionTTL` changes only the `SessionTTL` field. |
| `ConsulRunnerConfig.NewConfigFile` | consulrunner/configfile.go:44-83 | The record built with the loop is the configuration `ConfigFileFor` describes. |
| `ConsulRunnerConfig.WriteConfigFile` | consulrunner/configfile.go:85-109 | Returns the path `<configDir>/<nodeName>.json` and the configuration serialised into it. |
| `Text.Decimal` | clusterrunner.go:70 | `%d` text is never empty. Every character is a digit, except that the first may be a minus sign. |
| `Text.DecimalRoundTrip` | clusterrunner.go:70 | `%d` text parses back to its number, so distinct numbers print differently. |
| `Text.DecimalInjective` | clusterrunner.go:70 | Two numbers print the same exactly when they are equal. |
| `Text.HostPort` | configfile.go:61 | `<host>:<port>` text begins with the host and a colon, and at least one character follows the colon. |
| `Text.HostPortRoundTrip` | configfile.go:61 | `127.0.0.1:<port>` text begins with the host and a colon, and the port parses back from the rest. |
| `Text.HostPortInjective` | configfile.go:61 | On one host, two addresses are equal exactly when their ports are. |
| `Text.Join` | clusterrunner.go:153 | The first part opens the joined text. |
| `Text.SplitJoin` | clusterrunner.go:153 | Splitting a comma-joined list gives the parts back when no part contains a comma. |
| `Text.JoinPath` | clusterrunner.go:71 | The joined path ends with the element. Under a non-empty directory, it starts with the directory and has a slash just before the element. |
| `Text.DecimalIsPlainElement` | clusterrunner.go:71 | `%d` text is a path element that `path.Join` keeps unchanged: not empty, not `.` or `..`, and without a slash. |
| `Text.JoinPathInjective` | clusterrunner.go:71 | Within one directory, distinct slash-free names other than the empty name, `.` and `..` give distinct paths. |
| `Runner.NodeProcess` | clusterrunner.go:69-94 | Node `i`'s process is an agent run as `consul agent --config-file <path>`, where `<path>` is the file its configuration is written to. That configuration uses port block `i`. |
| `Runner.NodeProcessArguments` | clusterrunner.go:69-81 | Node `i`'s name reads back as `i`. It uses port block `i` and expects `numNodes` servers. Its data dir is `<dataDir>/<i>`. Its agent runs `consul agent --config-file <configDir>/<i>.json`. |
| `Runner.ClusterProcesses` | clusterrunner.go:67-98 | A started cluster has `numNodes` processes, and process `i` is node `i`'s agent. |
| `Runner.NodesDoNotClash` | clusterrunner.go:69-81 | Two nodes never share a node name, a configuration file, a data directory or any port. |
| `Runner.JoinListsReachEveryNode` | clusterrunner.go:74-81 | All nodes join the same list. Its entry `b` is the serf_lan port that node `b` listens on. |
| `Runner.LastFailure` | clusterrunner.go:176-182 | Gives no error exactly when every destroy succeeded. Otherwise it gives the error of the last failed destroy. |
| `Runner.ClusterRunner.constructor` | clusterrunner.go:37-49 | Requires `0 < startingPort < 65536` and `numNodes > 0`. It stores the arguments and starts not running, with no processes. |
| `Runner.ClusterRunner.Start` | clusterrunner.go:51-101 | Does nothing when already running. Otherwise it records the two directories and launches exactly the cluster's `numNodes` agents in node order. It always ends running with `numNodes` processes. |
| `Runner.ClusterRunner.Stop` | clusterrunner.go:129-145 | Does nothing when not running. Otherwise it ends not running with no processes. The `dataDir` and `configDir` fields keep their values; deleting the directories is not modelled (see Left out). |
| `Runner.ClusterRunner.NodeURL` | clusterrunner.go:150 | URL `i` is `<scheme>://127.0.0.1:` followed by node `i`'s `http` port from its port map. |
| `Runner.ClusterRunner.ClusterURLs` | clusterrunner.go:148-151 | There is one URL per node, and URL `i` is node `i`'s URL. |
| `Runner.ClusterRunner.NodeURLReachesAgent` | clusterrunner.go:150 | URL `i` reaches the `http` port of the agent `Start` launches as node `i`. |
| `Runner.ClusterRunner.ClusterURLsSplitBack` | clusterrunner.go:147-154 | For a scheme without a comma, the joined URLs split back into one URL per node. |
| `Runner.ClusterRunner.ConsulCluster` | clusterrunner.go:147-154 | The result is the URLs joined by commas. For a scheme without a comma, it splits into `numNodes` URLs, and URL `i` names node `i`'s `http` port. |
| `Runner.ClusterRunner.Address` | clusterrunner.go:156-158 | The address is node 0's `http` port on 127.0.0.1. |
| `Runner.ClusterRunner.URL` | clusterrunner.go:160-162 | The URL is the first of the cluster's URLs. |
| `Runner.ClusterRunner.StartingPortCheckLeavesLaterPortsUnbounded` | clusterrunner.go:38-39 | Starting port 65535 passes the range check, yet node 0's `http` port is then 65536. |
| `Runner.ClusterRunner.Reset` | clusterrunner.go:172-192 | A list error wins. Otherwise the last failed destroy's error wins. Otherwise the result is the `DeleteTree` outcome. There is no error exactly when every call succeeded. |

## Left out

- The session state machine and the session manager are not part of this
  model. Their implementation is not among the modelled files, and
  `ClusterRunner.NewSession` (clusterrunner.go:164-170) only constructs one.
- The following operations are left out because they are I/O or depend on
  a live agent:
  - spawning agents and waiting for readiness (`ginkgomon.Invoke`,
    `Eventually`, `WaitUntilReady`);
  - `Interrupt` in `Stop`;
  - `NewClient`;
  - `os.MkdirAll`, `os.RemoveAll` and `os.Create`;
  - file writes and `json.Marshal`.

  An agent is represented by its name, its command line, its config file
  path and the configuration written there.
- Temporary directories are parameters of `Start`. They are not created from
  the `consul_data` / `consul_config` prefixes.
- `Reset` sees the Consul API only through call outcomes: the list result
  with one destroy outcome per listed session, and the `DeleteTree` outcome.
- Every gomega assertion is treated as succeeding, except the range checks
  of `NewClusterRunner`, which become preconditions of the constructor.
  A failed assertion aborts the test.
- The `sync.RWMutex` in `Start` and `Stop` is not modelled. It exists only
  for concurrent callers.
- `time.Duration.String()` is not modelled. The `consulrunner` session TTL is
  passed as already-formatted text.
- `Text.JoinPath`: models `path.Join` only for a clean directory and one
  clean element. Lexical cleaning (`..`, `.`, repeated or trailing slashes)
  is not modelled. The harness only ever joins temporary directories with
  decimal node names.
- `Text.JoinPathInjective` and `AdapterConfig.ConfigFilePathInjective`:
  promise distinct paths only for slash-free names (and, for `JoinPath`,
  names other than the empty name, `.` and `..`). Go's `path.Join` cleans other names,
  so distinct names such as `a` and `./a` give the same path there.
- `StartJoin` and `RetryJoin` share one backing slice in Go. The model gives
  both fields equal sequence values, so aliasing is not modelled. Nothing
  mutates them after construction.
- `numNodes` is a `nat` in both `newConfigFile` models. `make` in the source
  panics on a negative length.
- `startingPort`, `numNodes` and `scheme` are constant fields of
  `ClusterRunner`. The source never reassigns them after construction.
- Go's `int` is 64 bits wide, and the model uses unbounded integers. Port
  arithmetic in the harness stays far below that width.
