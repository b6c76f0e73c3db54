/** What the snapshot built by `extractInformation` looks like, stated over
    the specification in `Graph` (and so, through `Builder`'s contracts,
    over the imperative code too). */
module GraphProperties {
  import opened Wrappers
  import opened Decimal
  import opened Config
  import opened Resources
  import opened Graph

  /** Padding nodes with different counters have different ids. */
  lemma DummyIdsDistinct(minionSize: nat, i: nat, j: nat)
    requires i != j
    ensures Dummy(minionSize, i).id != Dummy(minionSize, j).id
  {
    var a, b := NatToString(i), NatToString(j);
    if "dummy" + a == "dummy" + b {
      assert a == ("dummy" + a)[5..];
      assert b == ("dummy" + b)[5..];
      NatToStringInjective(i, j);
    }
  }

  /** Padding appends only when the real list is short, appends exactly
      enough entries, and gives every appended entry its own id. */
  lemma PaddingProperties(minions: seq<GraphNode>, dummyNodes: nat, minionSize: nat)
    ensures |minions| >= dummyNodes ==> Padded(minions, dummyNodes, minionSize) == minions
    ensures |minions| < dummyNodes ==> |Padded(minions, dummyNodes, minionSize)| - |minions| == dummyNodes - |minions|
    ensures var r := Padded(minions, dummyNodes, minionSize);
            forall i, j :: |minions| <= i < j < |r| ==> r[i].id != r[j].id
    ensures var r := Padded(minions, dummyNodes, minionSize);
            forall i :: |minions| <= i < |r| ==>
              r[i].color == Some("dummy") && r[i].entityType == Minion && r[i].size == minionSize &&
              r[i].text.None? && r[i].status.None?
  {
    var r := Padded(minions, dummyNodes, minionSize);
    if |minions| >= dummyNodes {
      assert r == r[..|minions|];
    }
    forall i, j | |minions| <= i < j < |r|
      ensures r[i].id != r[j].id
    {
      DummyIdsDistinct(minionSize, i - |minions|, j - |minions|);
    }
  }

  /** A successful build is the padded node entries followed by the pod
      entries, and the pod links followed by the master links. */
  lemma BuildGraphParts(cfg: Config, items: seq<NodeItem>, pods: seq<PodItem>)
    requires BuildGraph(cfg, items, pods).Ok?
    ensures NodeEntries(cfg, items).Ok? && PodEntries(cfg, pods).Ok?
    ensures var infra := Padded(NodeEntries(cfg, items).value, cfg.dummyNodes, cfg.minionSize);
            BuildGraph(cfg, items, pods).value ==
              Snapshot(infra + PodEntries(cfg, pods).value, PodLinks(cfg, pods) + MasterLinks(cfg, infra, MasterOf(items)))
  {
  }

  /** The nodes of a snapshot: the real node entries in node order, then
      the padding, then the pod entries in pod order. */
  lemma SnapshotNodes(cfg: Config, items: seq<NodeItem>, pods: seq<PodItem>)
    requires BuildGraph(cfg, items, pods).Ok?
    ensures var snap := BuildGraph(cfg, items, pods).value;
            var infra := if |items| < cfg.dummyNodes then cfg.dummyNodes else |items|;
            && |snap.nodes| == infra + |pods|
            && NodeEntries(cfg, items) == Ok(snap.nodes[..|items|])
            && snap.nodes[..infra] == Padded(snap.nodes[..|items|], cfg.dummyNodes, cfg.minionSize)
            && PodEntries(cfg, pods) == Ok(snap.nodes[infra..])
  {
    BuildGraphParts(cfg, items, pods);
    var minions := NodeEntries(cfg, items).value;
    var infra := Padded(minions, cfg.dummyNodes, cfg.minionSize);
    var snap := BuildGraph(cfg, items, pods).value;
    assert snap.nodes[..|infra|] == infra;
    assert snap.nodes[..|items|] == minions;
    assert snap.nodes[|infra|..] == PodEntries(cfg, pods).value;
  }

  /** The links of a snapshot: one dotted link per pod in pod order, made
      whether or not the pod's node is in the snapshot; then, when there is
      a master, one solid link per infrastructure entry (real or padding)
      in entry order, and none otherwise. */
  lemma SnapshotLinks(cfg: Config, items: seq<NodeItem>, pods: seq<PodItem>)
    requires BuildGraph(cfg, items, pods).Ok?
    ensures var snap := BuildGraph(cfg, items, pods).value;
            var infra := if |items| < cfg.dummyNodes then cfg.dummyNodes else |items|;
            var master := MasterOf(items);
            && |snap.links| == |pods| + (if HasMaster(master) then infra else 0)
            && snap.links[..|pods|] == PodLinks(cfg, pods)
            && snap.links[|pods|..] == MasterLinks(cfg, snap.nodes[..infra], master)
  {
    BuildGraphParts(cfg, items, pods);
    var infra := Padded(NodeEntries(cfg, items).value, cfg.dummyNodes, cfg.minionSize);
    var snap := BuildGraph(cfg, items, pods).value;
    assert snap.nodes[..|infra|] == infra;
  }

  /** When a master exists it is linked to itself: the solid link of its own
      entry has the master as both source and target. */
  lemma MasterLinksToItself(cfg: Config, items: seq<NodeItem>, pods: seq<PodItem>)
    requires BuildGraph(cfg, items, pods).Ok?
    requires HasMaster(MasterOf(items))
    ensures var snap := BuildGraph(cfg, items, pods).value;
            exists l :: l in snap.links && l.source == MasterOf(items).value && l.target == MasterOf(items) && !l.dotted
  {
    BuildGraphParts(cfg, items, pods);
    var minions := NodeEntries(cfg, items).value;
    var i := MasterEntry(cfg, items);
    var infra := Padded(minions, cfg.dummyNodes, cfg.minionSize);
    assert infra[i] == infra[..|minions|][i];
    SelfLinkAmong(cfg, pods, infra, MasterOf(items).value, i);
  }

  /** Appending the master links after the pod links includes the link of
      the master's own entry. */
  lemma SelfLinkAmong(cfg: Config, pods: seq<PodItem>, infra: seq<GraphNode>, m: string, i: nat)
    requires m != "" && i < |infra| && infra[i].id == m
    ensures Link(m, Some(m), cfg.linkSizeMinionToMaster, false) in PodLinks(cfg, pods) + MasterLinks(cfg, infra, Some(m))
  {
    var links := PodLinks(cfg, pods) + MasterLinks(cfg, infra, Some(m));
    assert links[|pods| + i] == MasterLinks(cfg, infra, Some(m))[i];
  }

  /** The master has an entry of its own among the node entries. */
  lemma MasterEntry(cfg: Config, items: seq<NodeItem>) returns (i: nat)
    requires NodeEntries(cfg, items).Ok?
    requires MasterOf(items).Some?
    ensures i < |items| && NodeEntries(cfg, items).value[i].id == MasterOf(items).value
  {
    i := LastTainted(items);
    assert NodeEntry(cfg, items[i]) == Ok(NodeEntries(cfg, items).value[i]);
  }

  /** Without a master no solid link is made: every link is a pod's. */
  lemma NoMasterOnlyPodLinks(cfg: Config, items: seq<NodeItem>, pods: seq<PodItem>)
    requires BuildGraph(cfg, items, pods).Ok?
    requires forall i :: 0 <= i < |items| ==> !items[i].hasTaints
    ensures var snap := BuildGraph(cfg, items, pods).value;
            |snap.links| == |pods| && forall l :: l in snap.links ==> l.dotted
  {
    SnapshotLinks(cfg, items, pods);
  }

  /** A node whose callback throws: it has no `Ready` condition. */
  predicate LacksReady(item: NodeItem) {
    forall j :: 0 <= j < |item.conditions| ==> !IsReady(item.conditions[j])
  }

  /** A pod whose callback throws: no container statuses, or no labels. */
  predicate PodThrows(item: PodItem) {
    item.containerStatuses == [] || item.labels.None?
  }

  /** The node list fails exactly when some node lacks a `Ready` condition,
      and then with that complaint. */
  lemma NodeEntriesFail(cfg: Config, items: seq<NodeItem>)
    ensures NodeEntries(cfg, items).Err? <==> exists i :: 0 <= i < |items| && LacksReady(items[i])
    ensures NodeEntries(cfg, items).Err? ==> NodeEntries(cfg, items).error.MissingReadyCondition?
  {
    var r := NodeEntries(cfg, items);
    if r.Err? {
      var k :| 0 <= k < |items| && NodeEntry(cfg, items[k]) == Err(r.error);
      assert LacksReady(items[k]);
    } else {
      forall i | 0 <= i < |items| ensures !LacksReady(items[i]) {
        assert NodeEntry(cfg, items[i]).Ok?;
      }
    }
  }

  /** The pod list fails exactly when some pod's callback throws. */
  lemma PodEntriesFail(cfg: Config, pods: seq<PodItem>)
    ensures PodEntries(cfg, pods).Err? <==> exists i :: 0 <= i < |pods| && PodThrows(pods[i])
  {
    var r := PodEntries(cfg, pods);
    if r.Err? {
      var k :| 0 <= k < |pods| && PodEntry(cfg, pods[k]) == Err(r.error);
      assert PodThrows(pods[k]);
    } else {
      forall i | 0 <= i < |pods| ensures !PodThrows(pods[i]) {
        assert PodEntry(cfg, pods[i]).Ok?;
      }
    }
  }

  /** Building fails exactly when some node lacks a `Ready` condition or some
      pod's callback throws; a failing node wins over a failing pod, since
      the nodes are mapped first. */
  lemma BuildFailsExactly(cfg: Config, items: seq<NodeItem>, pods: seq<PodItem>)
    ensures BuildGraph(cfg, items, pods).Err? <==>
      || (exists i :: 0 <= i < |items| && LacksReady(items[i]))
      || (exists i :: 0 <= i < |pods| && PodThrows(pods[i]))
    ensures (exists i :: 0 <= i < |items| && LacksReady(items[i])) ==>
      BuildGraph(cfg, items, pods).Err? && BuildGraph(cfg, items, pods).error.MissingReadyCondition?
  {
    NodeEntriesFail(cfg, items);
    PodEntriesFail(cfg, pods);
  }

  /** The nodes-response handler broadcasts an `update` exactly when
      building succeeds; otherwise only the `error`. */
  lemma BroadcastIsUpdateOrError(cfg: Config, items: seq<NodeItem>, pods: seq<PodItem>)
    ensures NodesCallEvent(cfg, items, pods).Update? <==> BuildGraph(cfg, items, pods).Ok?
    ensures NodesCallEvent(cfg, items, pods).Error? <==>
      || (exists i :: 0 <= i < |items| && LacksReady(items[i]))
      || (exists i :: 0 <= i < |pods| && PodThrows(pods[i]))
  {
    BuildFailsExactly(cfg, items, pods);
  }

  // A cluster of a not-ready worker `n1` and a tainted master `n2`, with one
  // running pod on `n1` whose two containers restarted 2 and 3 times, under
  // the default configuration.

  const WorkerN1 := NodeItem("n1", [Condition("Ready", "False")], false)
  const MasterN2 := NodeItem("n2", [Condition("Ready", "True")], true)
  const WebContainers := [ContainerStatus("web", 2), ContainerStatus("proxy", 3)]
  const WebPod := PodItem("web-1", false, "Running", [Condition("Ready", "True")],
                          WebContainers, Some(Labels(Some("web"), None)), Some("n1"))
  const EntryN1 := GraphNode("n1", 15, Some("n1"), Some("n1"), Minion, Some("pulse"), None, None)
  const EntryN2 := GraphNode("n2", 15, Some("n2"), Some("n2"), Master, Some(""), None, None)
  const EntryWeb := GraphNode("web-1", 15, Some("web-1"), Some("web"), Pod, Some("ready"), Some(5), Some(WebContainers))

  /** `n1` pulses as a plain node, `n2` is the master. */
  lemma ScenarioNodes()
    ensures NodeEntries(LoadConfig(map[], map[]), [WorkerN1, MasterN2]) == Ok([EntryN1, EntryN2])
    ensures MasterOf([WorkerN1, MasterN2]) == Some("n2")
    ensures EntryN1.entityType.Name() == "Node" && EntryN2.entityType.Name() == "Master"
  {
    var cfg := LoadConfig(map[], map[]);
    var items := [WorkerN1, MasterN2];
    assert items[0] == WorkerN1 && items[1] == MasterN2;
    assert FirstIndex(WorkerN1.conditions, IsReady) == 0;
    assert NodeEntry(cfg, WorkerN1) == Ok(EntryN1);
    assert FirstIndex(MasterN2.conditions, IsReady) == 0;
    assert NodeEntry(cfg, MasterN2) == Ok(EntryN2);
    assert NodeEntries(cfg, items).Ok?;
    assert NodeEntries(cfg, items).value == [EntryN1, EntryN2];
  }

  /** The pod is ready, coloured by its `app` label, with 2 + 3 restarts. */
  lemma ScenarioPod()
    ensures PodEntries(LoadConfig(map[], map[]), [WebPod]) == Ok([EntryWeb])
    ensures EntryWeb.entityType.Name() == "Pod"
  {
    var cfg := LoadConfig(map[], map[]);
    var pods := [WebPod];
    assert pods[0] == WebPod;
    assert PodStatus(WebPod) == "ready";
    assert RestartCounts(WebContainers) == [2, 3];
    assert Sum([2, 3]) == 5 by {
      assert [2, 3][..1] == [2];
    }
    assert PodEntry(cfg, WebPod) == Ok(EntryWeb);
    assert PodEntries(cfg, pods).Ok?;
    assert PodEntries(cfg, pods).value == [EntryWeb];
  }

  /** The whole snapshot of the scenario. Its last link is the master's link
      to itself. */
  lemma TwoNodeScenario()
    ensures BuildGraph(LoadConfig(map[], map[]), [WorkerN1, MasterN2], [WebPod]) == Ok(Snapshot(
              [EntryN1, EntryN2, EntryWeb],
              [ Link("web-1", Some("n1"), 150, true),
                Link("n1", Some("n2"), 250, false),
                Link("n2", Some("n2"), 250, false) ]))
  {
    var cfg := LoadConfig(map[], map[]);
    ScenarioNodes();
    ScenarioPod();
    assert Padded([EntryN1, EntryN2], cfg.dummyNodes, cfg.minionSize) == [EntryN1, EntryN2];
    assert PodLinks(cfg, [WebPod]) == [Link("web-1", Some("n1"), 150, true)];
    assert MasterLinks(cfg, [EntryN1, EntryN2], Some("n2")) ==
      [Link("n1", Some("n2"), 250, false), Link("n2", Some("n2"), 250, false)];
    assert [EntryN1, EntryN2] + [EntryWeb] == [EntryN1, EntryN2, EntryWeb];
    assert ClassifiedNodes(cfg, [WorkerN1, MasterN2]) == Ok(([EntryN1, EntryN2], Some("n2")));
    assert [Link("web-1", Some("n1"), 150, true)] +
           [Link("n1", Some("n2"), 250, false), Link("n2", Some("n2"), 250, false)] ==
           [Link("web-1", Some("n1"), 150, true), Link("n1", Some("n2"), 250, false), Link("n2", Some("n2"), 250, false)];
    assert BuildGraph(cfg, [WorkerN1, MasterN2], [WebPod]) == Ok(Snapshot([EntryN1, EntryN2] + [EntryWeb],
      PodLinks(cfg, [WebPod]) + MasterLinks(cfg, [EntryN1, EntryN2], Some("n2"))));
  }
}
