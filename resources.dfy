/** The parts of the cluster API's node and pod lists that the graph builder
    reads, already parsed from JSON. */
module Resources {
  import opened Wrappers

  /** One entry of a `status.conditions` list. */
  datatype Condition = Condition(condType: string, status: string)

  /** An item of the node list. `hasTaints` is true when `spec.taints` is
      present (any array, even an empty one, is truthy). */
  datatype NodeItem = NodeItem(name: string, conditions: seq<Condition>, hasTaints: bool)

  /** One entry of a pod's `status.containerStatuses`. */
  datatype ContainerStatus = ContainerStatus(name: string, restartCount: nat)

  /** The two labels the builder looks at; `None` is an undefined label. */
  datatype Labels = Labels(app: Option<string>, run: Option<string>)

  /** An item of the pod list. `deletionPending` is true when
      `metadata.deletionTimestamp` is set; `labels` is `None` when the pod has
      no `metadata.labels` object; an absent `containerStatuses` list is
      represented by the empty list; `nodeName` is `None` for a pod that is
      not scheduled yet. */
  datatype PodItem = PodItem(
    name: string,
    deletionPending: bool,
    phase: string,
    conditions: seq<Condition>,
    containerStatuses: seq<ContainerStatus>,
    labels: Option<Labels>,
    nodeName: Option<string>)

  /** The index of the first element of `s` that satisfies `p`, or `|s|`. */
  function FirstIndex<T>(s: seq<T>, p: T -> bool): (k: nat)
    ensures k <= |s|
    ensures forall j :: 0 <= j < k ==> !p(s[j])
    ensures k < |s| ==> p(s[k])
  {
    if |s| == 0 then 0 else if p(s[0]) then 0 else 1 + FirstIndex(s[1..], p)
  }

  /** `Array.prototype.find`: the first element satisfying `p`, if any. */
  function Find<T>(s: seq<T>, p: T -> bool): (r: Option<T>)
    ensures r.None? <==> forall j :: 0 <= j < |s| ==> !p(s[j])
    ensures r.Some? ==> FirstIndex(s, p) < |s| && r.value == s[FirstIndex(s, p)]
  {
    var k := FirstIndex(s, p);
    if k < |s| then Some(s[k]) else None
  }

  predicate IsReady(c: Condition) {
    c.condType == "Ready"
  }

  predicate IsReadyFalse(c: Condition) {
    c.condType == "Ready" && c.status == "False"
  }
}
