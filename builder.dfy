/** `extractInformation` as the source writes it: a loop over the nodes that
    records the master as it goes, a `while` loop that pushes dummy nodes,
    and a loop that pushes the node-to-master links. Each method is proved
    against the function of `Graph` that specifies it. */
module Builder {
  import opened Wrappers
  import opened Decimal
  import opened Config
  import opened Resources
  import opened Graph

  /** The `nodesResult.items.map` callback run over every node, with the
      `master` local it assigns; stops at the first node that throws. */
  method ClassifyNodes(cfg: Config, items: seq<NodeItem>) returns (r: Result<(seq<GraphNode>, Option<string>), BuildError>)
    ensures r == ClassifiedNodes(cfg, items)
  {
    var master: Option<string> := None;
    var minions: seq<GraphNode> := [];
    var k := 0;
    while k < |items|
      invariant 0 <= k <= |items|
      invariant NodeEntries(cfg, items[..k]) == Ok(minions)
      invariant master == MasterOf(items[..k])
    {
      var node;
      MasterOfExtend(items, k);
      node, master := NodeCallback(cfg, items[k], master);
      if node.Err? {
        NodeEntriesFirstError(cfg, items, k);
        return Err(node.error);
      }
      NodeEntriesExtend(cfg, items, k, node.value);
      minions := minions + [node.value];
      k := k + 1;
    }
    assert items[..k] == items;
    assert NodeEntries(cfg, items) == Ok(minions);
    assert MasterOf(items) == master;
    r := Ok((minions, master));
  }

  /** The callback of `nodesResult.items.map` for one node, with the
      `master` local it captures: it builds the node's entry (throwing when
      the node has no `Ready` condition) and makes the node the master when
      it carries taints. */
  method NodeCallback(cfg: Config, item: NodeItem, master: Option<string>) returns (r: Result<GraphNode, BuildError>, master': Option<string>)
    ensures r == NodeEntry(cfg, item)
    ensures r.Ok? ==> master' == if item.hasTaints then Some(item.name) else master
    ensures r.Err? ==> master' == master
  {
    master' := master;
    var ready := Find(item.conditions, IsReady);
    if ready.None? {
      return Err(MissingReadyCondition(item.name)), master';
    }
    var node := GraphNode(
      id := item.name,
      size := cfg.minionSize,
      text := Some(item.name),
      color := Some(item.name),
      entityType := Minion,
      status := Some(if ready.value.status != "True" then "pulse" else ""),
      restarts := None,
      containers := None);
    if item.hasTaints {
      master' := Some(item.name);
      node := node.(entityType := Master, size := cfg.masterSize);
    }
    r := Ok(node);
  }

  /** Scanning one more node updates the master exactly as the loop does. */
  lemma MasterOfExtend(items: seq<NodeItem>, k: nat)
    requires k < |items|
    ensures MasterOf(items[..k + 1]) == if items[k].hasTaints then Some(items[k].name) else MasterOf(items[..k])
  {
    assert items[..k + 1][..k] == items[..k];
  }

  /** Mapping one more node appends its entry. */
  lemma NodeEntriesExtend(cfg: Config, items: seq<NodeItem>, k: nat, node: GraphNode)
    requires k < |items|
    requires NodeEntries(cfg, items[..k]).Ok?
    requires NodeEntry(cfg, items[k]) == Ok(node)
    ensures NodeEntries(cfg, items[..k + 1]) == Ok(NodeEntries(cfg, items[..k]).value + [node])
  {
    var prefix := NodeEntries(cfg, items[..k]).value;
    var grown := items[..k + 1];
    forall j | 0 <= j < k + 1
      ensures NodeEntry(cfg, grown[j]) == Ok((prefix + [node])[j])
    {
      if j < k {
        assert grown[j] == items[..k][j];
      }
    }
    var r := NodeEntries(cfg, grown);
    assert r.Ok?;
    assert r.value == prefix + [node];
  }

  /** The node list fails with the error of the first node that fails
      after a prefix whose entries all succeed. */
  lemma NodeEntriesFirstError(cfg: Config, items: seq<NodeItem>, k: nat)
    requires k < |items| && NodeEntry(cfg, items[k]).Err?
    requires NodeEntries(cfg, items[..k]).Ok?
    ensures NodeEntries(cfg, items) == Err(NodeEntry(cfg, items[k]).error)
  {
    assert forall j :: 0 <= j < k ==> items[..k][j] == items[j];
    var r := NodeEntries(cfg, items);
    var k' :| 0 <= k' < |items| && NodeEntry(cfg, items[k']) == Err(r.error) &&
              forall j :: 0 <= j < k' ==> NodeEntry(cfg, items[j]).Ok?;
    assert k' == k;
  }

  /** The `while (minions.length < dummyNodes)` loop: pushes `dummy0`,
      `dummy1`, ... until the list is `dummyNodes` long. */
  method PadWithDummies(minions: seq<GraphNode>, dummyNodes: nat, minionSize: nat) returns (padded: seq<GraphNode>)
    ensures padded == Padded(minions, dummyNodes, minionSize)
  {
    padded := minions;
    var i := 0;
    while |padded| < dummyNodes
      invariant |padded| == |minions| + i
      invariant i == 0 || |padded| <= dummyNodes
      invariant padded[..|minions|] == minions
      invariant forall j :: |minions| <= j < |padded| ==> padded[j] == Dummy(minionSize, j - |minions|)
      decreases dummyNodes - |padded|
    {
      padded := padded + [GraphNode("dummy" + NatToString(i), minionSize, None, Some("dummy"), Minion, None, None, None)];
      i := i + 1;
    }
  }

  /** The `minions.forEach` loop: pushes one solid link per entry of `infra`
      onto `links`, each pointing at `master`. */
  method AppendMasterLinks(cfg: Config, links: seq<Link>, infra: seq<GraphNode>, master: string) returns (r: seq<Link>)
    requires master != ""
    ensures r == links + MasterLinks(cfg, infra, Some(master))
  {
    r := links;
    for k := 0 to |infra|
      invariant |r| == |links| + k
      invariant r[..|links|] == links
      invariant forall j :: 0 <= j < k ==> r[|links| + j] == MasterLink(cfg, infra[j], master)
    {
      r := r + [Link(infra[k].id, Some(master), cfg.linkSizeMinionToMaster, false)];
    }
  }

  /** `extractInformation`: the snapshot, or the error its callbacks throw. */
  method ExtractInformation(cfg: Config, nodesResult: seq<NodeItem>, podsResult: seq<PodItem>) returns (r: Result<Snapshot, BuildError>)
    ensures r == BuildGraph(cfg, nodesResult, podsResult)
  {
    var classified := ClassifyNodes(cfg, nodesResult);
    if classified.Err? {
      return Err(classified.error);
    }
    var (minions, master) := classified.value;
    minions := PadWithDummies(minions, cfg.dummyNodes, cfg.minionSize);
    var pods := PodEntries(cfg, podsResult);
    if pods.Err? {
      return Err(pods.error);
    }
    assert BuildGraph(cfg, nodesResult, podsResult).Ok?;
    var nodes := minions + pods.value;
    var links := PodLinks(cfg, podsResult);
    if HasMaster(master) {
      links := AppendMasterLinks(cfg, links, minions, master.value);
    }
    assert links == PodLinks(cfg, podsResult) + MasterLinks(cfg, minions, master);
    r := Ok(Snapshot(nodes, links));
  }
}
