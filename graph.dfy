/** The graph snapshot `extractInformation` builds from a node list and a pod
    list, stated as functions. The imperative version lives in `Builder`. */
module Graph {
  import opened Wrappers
  import opened Decimal
  import opened Config
  import opened Resources

  /** The `type` field of a graph node. */
  datatype EntityType = Minion | Master | Pod {
    function Name(): string {
      match this
      case Minion => "Node"
      case Master => "Master"
      case Pod => "Pod"
    }
  }

  /** A graph node as the viewer receives it; `None` is a field the source
      leaves out of the object (or sets to `undefined`). */
  datatype GraphNode = GraphNode(
    id: string,
    size: nat,
    text: Option<string>,
    color: Option<string>,
    entityType: EntityType,
    status: Option<string>,
    restarts: Option<nat>,
    containers: Option<seq<ContainerStatus>>)

  /** A link; `target` is `None` for a pod whose `spec.nodeName` is unset. */
  datatype Link = Link(source: string, target: Option<string>, length: nat, dotted: bool)

  datatype Snapshot = Snapshot(nodes: seq<GraphNode>, links: seq<Link>)

  /** What makes `extractInformation` throw, and so abort the snapshot. */
  datatype BuildError =
    | MissingReadyCondition(node: string)
    | MissingContainerStatuses(pod: string)
    | MissingLabels(pod: string)

  /** `Array.prototype.map` with a callback that may throw: the mapped list,
      or the error of the first element whose callback throws. */
  function MapAll<T, U, E>(s: seq<T>, f: T -> Result<U, E>): (r: Result<seq<U>, E>)
    ensures r.Ok? <==> forall i :: 0 <= i < |s| ==> f(s[i]).Ok?
    ensures r.Ok? ==> |r.value| == |s| && forall i :: 0 <= i < |s| ==> f(s[i]) == Ok(r.value[i])
    ensures r.Err? ==> exists k :: 0 <= k < |s| && f(s[k]) == Err(r.error) &&
                                   forall j :: 0 <= j < k ==> f(s[j]).Ok?
  {
    if |s| == 0 then Ok([])
    else match f(s[0])
      case Err(e) => Err(e)
      case Ok(u) =>
        match MapAll(s[1..], f)
        case Err(e) =>
          assert forall k :: 0 <= k < |s| - 1 ==> s[1..][k] == s[k + 1];
          Err(e)
        case Ok(us) => Ok([u] + us)
  }

  // ---------------------------------------------------------------- nodes

  /** The entry of one cluster node: a `Node` of minion size, or a `Master`
      of master size when it carries taints; pulsing unless its first
      `Ready` condition has status `"True"`. A node without a `Ready`
      condition throws. */
  function NodeEntry(cfg: Config, item: NodeItem): (r: Result<GraphNode, BuildError>)
    ensures r.Err? <==> forall j :: 0 <= j < |item.conditions| ==> item.conditions[j].condType != "Ready"
    ensures r.Err? ==> r.error == MissingReadyCondition(item.name)
    ensures r.Ok? ==>
      var ready := item.conditions[FirstIndex(item.conditions, IsReady)];
      && r.value.id == item.name
      && r.value.text == Some(item.name)
      && r.value.color == Some(item.name)
      && (r.value.entityType == Master <==> item.hasTaints)
      && r.value.entityType != Pod
      && r.value.size == (if item.hasTaints then cfg.masterSize else cfg.minionSize)
      && ready.condType == "Ready"
      && (r.value.status == Some("pulse") <==> ready.status != "True")
      && (r.value.status == Some("") <==> ready.status == "True")
      && r.value.restarts.None? && r.value.containers.None?
  {
    match Find(item.conditions, IsReady)
    case None => Err(MissingReadyCondition(item.name))
    case Some(ready) =>
      Ok(GraphNode(
        id := item.name,
        size := if item.hasTaints then cfg.masterSize else cfg.minionSize,
        text := Some(item.name),
        color := Some(item.name),
        entityType := if item.hasTaints then Master else Minion,
        status := Some(if ready.status != "True" then "pulse" else ""),
        restarts := None,
        containers := None))
  }

  /** The index of the last node that carries taints, or -1 if none does. */
  function LastTainted(items: seq<NodeItem>): (k: int)
    ensures -1 <= k < |items|
    ensures k >= 0 ==> items[k].hasTaints
    ensures forall j :: k < j < |items| ==> !items[j].hasTaints
  {
    if |items| == 0 then -1
    else if items[|items| - 1].hasTaints then |items| - 1
    else LastTainted(items[..|items| - 1])
  }

  /** The `master` local after the node loop: the name of the LAST node in
      list order that carries taints, `None` when no node does. */
  function MasterOf(items: seq<NodeItem>): (m: Option<string>)
    ensures m.None? <==> forall i :: 0 <= i < |items| ==> !items[i].hasTaints
    ensures m.Some? ==> 0 <= LastTainted(items) && m.value == items[LastTainted(items)].name
  {
    var k := LastTainted(items);
    if k < 0 then None else Some(items[k].name)
  }

  /** JavaScript's `if (master)`: an unset or empty master name is falsy. */
  predicate HasMaster(master: Option<string>) {
    master.Some? && master.value != ""
  }

  // ---------------------------------------------------------------- dummy padding

  /** The `i`-th padding node: id `dummy<i>`, minion size, colour `dummy`,
      type `Node`, no text and no status. */
  function Dummy(minionSize: nat, i: nat): (d: GraphNode) {
    GraphNode("dummy" + NatToString(i), minionSize, None, Some("dummy"), Minion, None, None, None)
  }

  /** The node entries padded with dummies up to `dummyNodes` entries. */
  function Padded(minions: seq<GraphNode>, dummyNodes: nat, minionSize: nat): (r: seq<GraphNode>)
    ensures |r| == if |minions| < dummyNodes then dummyNodes else |minions|
    ensures r[..|minions|] == minions
    ensures forall i :: |minions| <= i < |r| ==> r[i] == Dummy(minionSize, i - |minions|)
  {
    var missing := if |minions| < dummyNodes then dummyNodes - |minions| else 0;
    minions + seq(missing, i requires 0 <= i => Dummy(minionSize, i))
  }

  // ---------------------------------------------------------------- pods

  /** The status of a pod, by strict priority: deletion pending, then phase
      `Pending`, then some `Ready` condition with status `False`. */
  function PodStatus(item: PodItem): (s: string)
    ensures s == "delete" <==> item.deletionPending
    ensures s == "start" <==> !item.deletionPending && item.phase == "Pending"
    ensures s == "notReady" <==>
      && !item.deletionPending && item.phase != "Pending"
      && exists j :: 0 <= j < |item.conditions| &&
                     item.conditions[j].condType == "Ready" && item.conditions[j].status == "False"
    ensures s == "ready" <==>
      && !item.deletionPending && item.phase != "Pending"
      && forall j :: 0 <= j < |item.conditions| ==> !IsReadyFalse(item.conditions[j])
  {
    if item.deletionPending then "delete"
    else if item.phase == "Pending" then "start"
    else if Find(item.conditions, IsReadyFalse).Some? then "notReady"
    else "ready"
  }

  /** The restart counts of a pod's containers, in list order. */
  function RestartCounts(cs: seq<ContainerStatus>): (r: seq<nat>)
    ensures |r| == |cs| && forall i :: 0 <= i < |cs| ==> r[i] == cs[i].restartCount
  {
    seq(|cs|, i requires 0 <= i < |cs| => cs[i].restartCount)
  }

  /** Left fold of `+` starting from `acc`. */
  function FoldSum(acc: nat, s: seq<nat>): nat
    decreases |s|
  {
    if |s| == 0 then acc else FoldSum(acc + s[0], s[1..])
  }

  /** `reduce((sum, value) => sum + value)` without an initial value: the fold
      starts from the first element, and an empty list throws (`None`). */
  function Reduce(s: seq<nat>): (r: Option<nat>)
    ensures r.None? <==> s == []
  {
    if |s| == 0 then None else Some(FoldSum(s[0], s[1..]))
  }

  /** The sum of a list, defined from the back: the reference for `Reduce`. */
  function Sum(s: seq<nat>): nat {
    if |s| == 0 then 0 else Sum(s[..|s| - 1]) + s[|s| - 1]
  }

  /** Peeling the first element off a back-defined sum. */
  lemma {:induction false} SumCons(s: seq<nat>)
    requires |s| > 0
    ensures Sum(s) == s[0] + Sum(s[1..])
    decreases |s|
  {
    if |s| > 1 {
      var init := s[..|s| - 1];
      SumCons(init);
      assert init[1..] == s[1..][..|s[1..]| - 1];
    }
  }

  /** The left fold adds the whole list to its accumulator. */
  lemma {:induction false} FoldSumIsSum(acc: nat, s: seq<nat>)
    ensures FoldSum(acc, s) == acc + Sum(s)
    decreases |s|
  {
    if |s| > 0 {
      FoldSumIsSum(acc + s[0], s[1..]);
      SumCons(s);
    }
  }

  /** Reducing a non-empty list yields its sum. */
  lemma ReduceIsSum(s: seq<nat>)
    ensures s != [] ==> Reduce(s) == Some(Sum(s))
  {
    if s != [] {
      FoldSumIsSum(s[0], s[1..]);
      SumCons(s);
    }
  }

  /** A pod's colour: its `app` label if defined, else its `run` label. */
  function PodColor(labels: Labels): (c: Option<string>)
    ensures labels.app.Some? ==> c == labels.app
    ensures labels.app.None? ==> c == labels.run
    ensures c.None? <==> labels.app.None? && labels.run.None?
  {
    if labels.app.None? then labels.run else labels.app
  }

  /** The entry of one pod, or what makes its callback throw: an empty
      container list (checked first), then a missing labels object. */
  function PodEntry(cfg: Config, item: PodItem): (r: Result<GraphNode, BuildError>)
    ensures r.Err? <==> item.containerStatuses == [] || item.labels.None?
    ensures r.Err? ==> r.error == if item.containerStatuses == [] then MissingContainerStatuses(item.name)
                                  else MissingLabels(item.name)
    ensures r.Ok? ==>
      && r.value.id == item.name
      && r.value.text == Some(item.name)
      && r.value.size == cfg.podSize
      && r.value.entityType == Pod
      && r.value.status == Some(PodStatus(item))
      && r.value.color == PodColor(item.labels.value)
      && r.value.containers == Some(item.containerStatuses)
      && r.value.restarts == Some(Sum(RestartCounts(item.containerStatuses)))
  {
    ReduceIsSum(RestartCounts(item.containerStatuses));
    match Reduce(RestartCounts(item.containerStatuses))
    case None => Err(MissingContainerStatuses(item.name))
    case Some(total) =>
      match item.labels
      case None => Err(MissingLabels(item.name))
      case Some(labels) =>
        Ok(GraphNode(
          id := item.name,
          text := Some(item.name),
          size := cfg.podSize,
          color := PodColor(labels),
          status := Some(PodStatus(item)),
          entityType := Pod,
          restarts := Some(total),
          containers := Some(item.containerStatuses)))
  }

  // ---------------------------------------------------------------- links

  /** The dotted link from a pod to the node it is scheduled on. */
  function PodLink(cfg: Config, item: PodItem): Link {
    Link(item.name, item.nodeName, cfg.linkSizePodToMinion, true)
  }

  /** One dotted link per pod, in pod order. */
  function PodLinks(cfg: Config, pods: seq<PodItem>): (r: seq<Link>)
    ensures |r| == |pods| && forall i :: 0 <= i < |pods| ==> r[i] == PodLink(cfg, pods[i])
  {
    seq(|pods|, i requires 0 <= i < |pods| => PodLink(cfg, pods[i]))
  }

  /** The solid link from an infrastructure entry to the master. */
  function MasterLink(cfg: Config, entry: GraphNode, master: string): Link {
    Link(entry.id, Some(master), cfg.linkSizeMinionToMaster, false)
  }

  /** One solid link per infrastructure entry when there is a master. */
  function MasterLinks(cfg: Config, infra: seq<GraphNode>, master: Option<string>): (r: seq<Link>)
    ensures |r| == if HasMaster(master) then |infra| else 0
    ensures forall i :: 0 <= i < |r| ==> r[i] == MasterLink(cfg, infra[i], master.value)
  {
    if HasMaster(master) then seq(|infra|, i requires 0 <= i < |infra| => MasterLink(cfg, infra[i], master.value))
    else []
  }

  // ---------------------------------------------------------------- the snapshot

  /** The `nodesResult.items.map` result: every node's entry, or the error
      of the first node that throws. */
  function NodeEntries(cfg: Config, items: seq<NodeItem>): (r: Result<seq<GraphNode>, BuildError>)
    ensures r.Ok? <==> forall i :: 0 <= i < |items| ==> NodeEntry(cfg, items[i]).Ok?
    ensures r.Ok? ==> |r.value| == |items| && forall i :: 0 <= i < |items| ==> NodeEntry(cfg, items[i]) == Ok(r.value[i])
    ensures r.Err? ==> exists k :: 0 <= k < |items| && NodeEntry(cfg, items[k]) == Err(r.error) &&
                                   forall j :: 0 <= j < k ==> NodeEntry(cfg, items[j]).Ok?
  {
    MapAll(items, item => NodeEntry(cfg, item))
  }

  /** The `podsResult.items.map` result: every pod's entry, or the error of
      the first pod that throws. */
  function PodEntries(cfg: Config, pods: seq<PodItem>): (r: Result<seq<GraphNode>, BuildError>)
    ensures r.Ok? <==> forall i :: 0 <= i < |pods| ==> PodEntry(cfg, pods[i]).Ok?
    ensures r.Ok? ==> |r.value| == |pods| && forall i :: 0 <= i < |pods| ==> PodEntry(cfg, pods[i]) == Ok(r.value[i])
    ensures r.Err? ==> exists k :: 0 <= k < |pods| && PodEntry(cfg, pods[k]) == Err(r.error) &&
                                   forall j :: 0 <= j < k ==> PodEntry(cfg, pods[j]).Ok?
  {
    MapAll(pods, item => PodEntry(cfg, item))
  }

  /** The node entries and the master name the node loop produces. */
  function ClassifiedNodes(cfg: Config, items: seq<NodeItem>): (r: Result<(seq<GraphNode>, Option<string>), BuildError>)
  {
    match NodeEntries(cfg, items)
    case Err(e) => Err(e)
    case Ok(minions) => Ok((minions, MasterOf(items)))
  }

  /** `extractInformation`: the snapshot for a node list and a pod list. It
      throws exactly when a node or a pod callback throws, the node's error
      first; otherwise it holds the padded infrastructure and one entry per
      pod, one link per pod, and one more link per infrastructure entry when
      there is a master. */
  function BuildGraph(cfg: Config, items: seq<NodeItem>, pods: seq<PodItem>): (r: Result<Snapshot, BuildError>)
    ensures r.Ok? <==> NodeEntries(cfg, items).Ok? && PodEntries(cfg, pods).Ok?
    ensures NodeEntries(cfg, items).Err? ==> r == Err(NodeEntries(cfg, items).error)
    ensures r.Ok? ==>
      |r.value.nodes| == (if |items| < cfg.dummyNodes then cfg.dummyNodes else |items|) + |pods|
    ensures r.Ok? ==>
      |r.value.links| == |pods| + if HasMaster(MasterOf(items))
                                  then (if |items| < cfg.dummyNodes then cfg.dummyNodes else |items|)
                                  else 0
  {
    match ClassifiedNodes(cfg, items)
    case Err(e) => Err(e)
    case Ok((minions, master)) =>
      var infra := Padded(minions, cfg.dummyNodes, cfg.minionSize);
      match PodEntries(cfg, pods)
      case Err(e) => Err(e)
      case Ok(podEntries) =>
        Ok(Snapshot(infra + podEntries, PodLinks(cfg, pods) + MasterLinks(cfg, infra, master)))
  }

  /** What the nodes-response handler broadcasts: the snapshot as an
      `update`, or, when building it throws, an `error` and no `update`. */
  datatype Event = Update(snapshot: Snapshot) | Error(error: BuildError)

  function NodesCallEvent(cfg: Config, items: seq<NodeItem>, pods: seq<PodItem>): (e: Event)
    ensures e.Update? <==> BuildGraph(cfg, items, pods).Ok?
    ensures e.Update? ==> e.snapshot == BuildGraph(cfg, items, pods).value
    ensures e.Error? ==> e.error == BuildGraph(cfg, items, pods).error
  {
    match BuildGraph(cfg, items, pods)
    case Ok(s) => Update(s)
    case Err(err) => Error(err)
  }
}
