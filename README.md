# k8s-graph: the graph builder, modelled in Dafny

k8s-graph is a small Node.js server. It polls a Kubernetes API for the pods of one
namespace and for the cluster's nodes. It turns the two lists into a graph snapshot
`{nodes, links}` and broadcasts that snapshot to browser viewers over socket.io.

This project models the graph builder `extractInformation` (`server.js`), together
with the configuration lookup `getEnvVar` and the pods URL that `poll` requests.

The builder works as follows:

- Every cluster node becomes an entry of type `Node`, or of type `Master` when it
  carries taints. A node pulses when its `Ready` condition is not `"True"`. The
  builder remembers the name of the last tainted node as the master.
- The node entries are padded with `dummy0`, `dummy1`, … up to the configured
  `dummyNodes` count.
- Every pod becomes an entry with:
  - a status chosen by a fixed priority: `delete`, `start`, `notReady`, `ready`;
  - the sum of its containers' restart counts;
  - a colour taken from its `app` label, or else its `run` label.
- Every pod gets one dotted link to its node. When there is a master, every
  infrastructure entry (real or dummy) gets one solid link to the master.

Modules:

- `Wrappers` (`wrappers.dfy`): `Option` and `Result`. `Option` stands for a JavaScript
  value that may be `undefined`. `Result` stands for a value or the exception thrown
  instead.
- `Decimal` (`decimal.dfy`): how JavaScript renders the counter in `'dummy' + i`, and
  the fact that different counters give different texts.
- `Config` (`config.dfy`): `getEnvVar`, the configuration and its defaults, and the
  pods URL.
- `Resources` (`resources.dfy`): the node and pod items as parsed from the API's JSON
  (only the fields the builder reads), and `Array.prototype.find`.
- `Graph` (`graph.dfy`): the snapshot, stated as functions. This covers each
  per-node and per-pod callback, the throwing `map`, the padding, the links,
  `BuildGraph` for the whole of `extractInformation`, and what the nodes-response
  handler broadcasts.
- `Builder` (`builder.dfy`): `extractInformation` written imperatively, the way the
  source does it:
  - a loop over the nodes that assigns `master` as it goes;
  - the `while` loop that pushes dummy nodes with a running counter;
  - the `forEach` loop that pushes the master links.

  Each method's postcondition equates its result with the `Graph` function that
  specifies it.
- `GraphProperties` (`properties.dfy`): lemmas about the snapshot. They cover the
  layout, the link counts, the master's self-link, exactly when building fails, and
  a worked two-node scenario.

### Behaviours of the code worth knowing

The builder is not defensive. The model keeps these behaviours as the code has them:

- A node without a `Ready` condition makes `extractInformation` throw, because
  `find` returns `undefined` and its `.status` is read (`server.js:36,44`). Such a
  node is not treated as not-ready. `Graph.NodeEntry` and
  `GraphProperties.NodeEntriesFail` state this.
- A pod whose `containerStatuses` list is empty makes it throw, because `reduce` is
  called without an initial value (`server.js:83`). A pod with no such list at all
  throws one step earlier, when `.map` is called on `undefined` (`server.js:81-82`).
  `Resources.PodItem` keeps one possibly empty sequence, and the model treats both
  cases as the same throw. The restart count is never taken to be 0.
  `Graph.Reduce` and `Graph.PodEntry` state this.
- Every infrastructure entry gets a solid link to the master, the master's own entry
  included, so the master is linked to itself (`server.js:106-108`).
  `GraphProperties.MasterLinksToItself` and `GraphProperties.TwoNodeScenario` show
  the link.
- When building throws, the handler at `server.js:194` catches the exception. It
  broadcasts an `error` and no `update` (`Graph.NodesCallEvent`).

## Model

| member | source | states |
|---|---|---|
| `Config.GetEnvVar` | server.js:27-30 | the variable's value when it is set, the default when it is not |
| `Config.LoadConfig` | server.js:12-20 | with an empty environment every setting has its default (sizes 15, link lengths 150 and 250, no dummy nodes, 1-second polling, the two local API URLs); each of the nine settings takes its variable's value when that variable is set and its own default when it is not |
| `Config.PodsUrl` | server.js:160 | the pods URL is the namespaces base, then the namespace, then `/pods`, and the namespace can be read back from between the two fixed parts |
| `Config.PodsUrlInjective` | server.js:160 | different namespaces are polled at different URLs |
| `Config.DefaultPodsUrl` | server.js:160 | with no variables set, the first poll requests `http://127.0.0.1:8001/api/v1/namespaces/default/pods` |
| `Resources.FirstIndex` | server.js:36 | the index of the first element satisfying the predicate: every earlier element fails it, and the index is the length exactly when none satisfies it |
| `Resources.Find` | server.js:36 | `find` returns nothing exactly when no element matches, and otherwise returns the first match |
| `Decimal.NatToString` | server.js:65 | the rendering of the dummy counter is a non-empty string of decimal digits whose last digit is the counter modulo 10 and which is one digit long exactly for counters below 10 |
| `Decimal.NatToStringInjective` | server.js:65 | two different counters never render to the same text |
| `Graph.MapAll` | server.js:35-57 | a `map` whose callback may throw succeeds exactly when every callback succeeds, and then yields one result per element in order; otherwise it fails with the error of the FIRST element whose callback throws |
| `Graph.NodeEntry` | server.js:35-56 | a node without a `Ready` condition throws; otherwise its entry has id, text and colour equal to its name, type `Master` exactly when it has taints (with master size, else minion size), and status `pulse` exactly when its first `Ready` condition's status is not `"True"` (else `""`) |
| `Graph.NodeEntries` | server.js:35-57 | the node list maps to one entry per node in node order, or fails with the error of the first node without a `Ready` condition |
| `Graph.LastTainted` | server.js:47-54 | the position of the last node in list order that has taints: that node has taints and no later node does; -1 when none does |
| `Graph.MasterOf` | server.js:47-54 | there is no master exactly when no node has taints; otherwise the master is the name of the LAST node in list order that has taints |
| `Graph.Padded` | server.js:62-66 | padding yields max(real count, `dummyNodes`) entries, keeps the real entries unchanged and in order, and appends `dummy0`, `dummy1`, … after them, each built by `Graph.Dummy` (server.js:65) with minion size, colour `dummy` and type `Node` |
| `Graph.PodStatus` | server.js:70-79 | status by strict priority: `delete` exactly when deletion is pending; `start` exactly when not deleting and the phase is `Pending`; `notReady` exactly when neither holds and some `Ready` condition has status `False`; `ready` otherwise |
| `Graph.RestartCounts` | server.js:81-82 | the restart counts of the containers, one per container, in order |
| `Graph.Reduce` | server.js:83 | `reduce` without an initial value fails exactly on the empty list |
| `Graph.SumCons` | server.js:81-83 | the reference sum of a non-empty list is its first element plus the sum of the rest |
| `Graph.FoldSumIsSum` | server.js:83 | the left fold that `reduce` performs adds the whole list to its starting value |
| `Graph.ReduceIsSum` | server.js:81-83 | reducing a non-empty list of restart counts yields their sum |
| `Graph.PodColor` | server.js:89 | the colour is the `app` label when defined, else the `run` label, and it is undefined exactly when both labels are |
| `Graph.PodEntry` | server.js:69-95 | a pod throws exactly when it has no container statuses (checked first) or no labels object; otherwise its entry has id and text equal to its name, pod size, type `Pod`, its priority status, its colour, restarts equal to the sum of its containers' restart counts, and the raw container list |
| `Graph.PodEntries` | server.js:69-95 | the pod list maps to one entry per pod in pod order, or fails with the error of the first pod whose callback throws |
| `Graph.PodLinks` | server.js:101-103 | one dotted link per pod, in pod order, from the pod's name to its `spec.nodeName` with the pod-to-minion length (the object literal at server.js:102, `Graph.PodLink`) |
| `Graph.MasterLinks` | server.js:105-109 | with a (truthy) master, one solid link per infrastructure entry, in entry order, from the entry's id to the master with the minion-to-master length (the object literal at server.js:107, `Graph.MasterLink`); none without a master. `Graph.HasMaster` is the truthiness test `if (master)` of server.js:58,105: an unset or empty name means no master |
| `Graph.BuildGraph` | server.js:32-112 | `extractInformation` succeeds exactly when every node callback and every pod callback succeeds, and a failing node's error wins; a snapshot has max(real node count, `dummyNodes`) + pod count nodes, and pod count links plus one link per infrastructure entry when there is a master (`Graph.HasMaster`). The node loop's entries and master are `Graph.ClassifiedNodes` (server.js:34-57) |
| `Graph.NodesCallEvent` | server.js:190-200 | the nodes-response handler broadcasts an `update` carrying the snapshot exactly when building succeeds, and otherwise an `error` carrying the failure |
| `Builder.ClassifyNodes` | server.js:33-57 | the node loop, which assigns `master` from inside the callback, yields exactly the node entries and the master name (or the first node's error) that `Graph.ClassifiedNodes` specifies |
| `Builder.NodeCallback` | server.js:35-56 | the per-node callback returns exactly the specified node entry (or throws for a node without a `Ready` condition) and, when it succeeds, sets the captured `master` to the node's name if the node has taints and leaves it unchanged otherwise; when it throws (server.js:44, before the assignment at server.js:51) `master` is unchanged |
| `Builder.MasterOfExtend` | server.js:50-51 | scanning one more node makes it the master when it has taints and keeps the previous master otherwise |
| `Builder.NodeEntriesFirstError` | server.js:35-36 | when every node before position k has a `Ready` condition and node k has none, the whole node list fails with node k's error |
| `Builder.PadWithDummies` | server.js:62-66 | the `while` loop with its running counter yields exactly the padded list |
| `Builder.AppendMasterLinks` | server.js:105-109 | the `forEach` loop leaves the links it was given in front and appends exactly the master links of the infrastructure entries |
| `Builder.ExtractInformation` | server.js:32-112 | the imperative builder returns exactly the specified snapshot, or the specified error |
| `GraphProperties.DummyIdsDistinct` | server.js:65 | padding nodes with different counters have different ids |
| `GraphProperties.PaddingProperties` | server.js:62-66 | nothing is appended when there are already `dummyNodes` real entries; otherwise exactly `dummyNodes` minus the real count are appended; the appended ids are pairwise distinct; each appended entry has colour `dummy`, type `Node`, minion size, and no text or status |
| `GraphProperties.BuildGraphParts` | server.js:97-111 | a snapshot is the padded node entries followed by the pod entries, and the pod links followed by the master links |
| `GraphProperties.SnapshotNodes` | server.js:98 | the snapshot has max(real count, `dummyNodes`) + pod count nodes: the real entries in node order, then the padding, then the pod entries in pod order |
| `GraphProperties.SnapshotLinks` | server.js:101-111 | the snapshot has pod count + (infrastructure count if there is a master, else 0) links: the pod links first, made whether or not the target node exists, then the master links |
| `GraphProperties.MasterLinksToItself` | server.js:105-108 | when there is a master, some solid link has the master as both source and target |
| `GraphProperties.MasterEntry` | server.js:47-51 | the master's name is the id of one of the node entries |
| `GraphProperties.SelfLinkAmong` | server.js:106-108 | when an infrastructure entry's id is the master's name, the links include a solid link from the master to itself |
| `GraphProperties.NoMasterOnlyPodLinks` | server.js:105-109 | when no node has taints, there is exactly one link per pod and every link is dotted |
| `GraphProperties.NodeEntriesFail` | server.js:36-44 | mapping the nodes fails exactly when some node lacks a `Ready` condition, and then with that complaint |
| `GraphProperties.PodEntriesFail` | server.js:81-89 | mapping the pods fails exactly when some pod has no container statuses or no labels |
| `GraphProperties.BuildFailsExactly` | server.js:35-95 | building fails exactly when some node lacks a `Ready` condition or some pod's callback throws; a failing node wins over a failing pod |
| `GraphProperties.BroadcastIsUpdateOrError` | server.js:190-200 | an `update` is broadcast exactly when building succeeds, and an `error` exactly when some node or pod makes it throw |
| `GraphProperties.ScenarioNodes` | server.js:35-57 | for a not-ready untainted `n1` and a ready tainted `n2`: `n1` becomes a pulsing entry whose `type` is `"Node"`, `n2` one whose `type` is `"Master"` with status `""`, and `n2` is the master |
| `GraphProperties.ScenarioPod` | server.js:69-95 | a running, ready pod labelled `app: web` whose containers restarted 2 and 3 times becomes a `ready` entry of `type` `"Pod"` coloured `web` with 5 restarts |
| `GraphProperties.TwoNodeScenario` | server.js:32-112 | under the default configuration the two-node cluster with that pod yields nodes `n1`, `n2`, pod, and links pod→`n1` (dotted, 150), `n1`→`n2` and `n2`→`n2` (solid, 250) |

## Left out

- HTTP requests and response-body accumulation (`http.get`, `res.on('data'/'end')`, `server.js:122-202`): network I/O. The builder starts from node and pod lists that are already parsed.
- `JSON.parse` and any item whose JSON lacks a field the builder dereferences (`status`, `status.conditions`, `metadata`, `spec`): the items are typed, so those fields always exist. The throws that remain possible on typed input are modelled: no `Ready` condition, no container statuses, no labels object.
- The text of the broadcast error message (the JavaScript `TypeError` message and the raw response body): `Graph.BuildError` names only the node or pod that made the builder throw.
- socket.io: connection handling, `io.emit` fan-out, and the `changeNamespace` handler that reassigns the shared `namespace` global (`server.js:154-157,206`). This is concurrent event handling. Only the initial namespace (`Config.DefaultNamespace`) is modelled, in `Config.DefaultPodsUrl`.
- `setInterval` polling and possibly overlapping poll cycles (`server.js:209`): timer and concurrency behaviour.
- Fetching the namespace list for the page, the Express static server, the hbs render and `server.listen` (`server.js:114-152,211`): web framework wiring.
- The warning logged when no master is found (`server.js:58-60`) and all other `console` output. The snapshot is still built, and the model builds it.
- `Config.LoadConfig`: environment values are taken as already-converted naturals and strings. JavaScript would keep a set variable as a string, for example comparing a string `dummyNodes` with `<` at `server.js:64`. That coercion is not modelled.
- `Graph.PodEntry`: restart counts are naturals summed without bound. JavaScript numbers lose precision above 2^53, and a missing `restartCount` would give `NaN` (`undefined` for a single container, since `reduce` then returns the lone element without calling the callback).
- `Resources.NodeItem`: `hasTaints` records whether `spec.taints` is present. Any array counts, even an empty one, because it is truthy in JavaScript. The taint contents are not modelled.
- `Resources.PodItem`: `deletionPending` records whether `metadata.deletionTimestamp` is set. The timestamp's value is not modelled.
