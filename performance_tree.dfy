/** The performance tree of a campaign: the node tree built from the
    campaign's publications (information, KPI and alert children under each
    publication) and the indented rendering of that tree, with the status a
    node is drawn with. */
module PerformanceTree {
  import opened Wrappers
  import opened Tables
  import Strings
  import PublicationFlow

  type Snapshot = PublicationFlow.Snapshot

  /** A publication as the tree reads it. `buyType` and `duration` are
      shown only when truthy: a present, non-empty type and a present,
      non-zero duration. */
  datatype TreePublication = TreePublication(
    id: nat,
    name: string,
    format: string,
    platform: string,
    buyType: Option<string>,
    duration: Option<int>,
    objective: string,
    metrics: seq<Snapshot>,
    recommendations: seq<Recommendation>)

  datatype TreeCampaign = TreeCampaign(name: string, publications: seq<TreePublication>)

  datatype NodeType = CampaignNode | PublicationNode | InfoNode | KpisNode | MetricNode | AlertsNode | AlertNode

  /** The `data` of a node. A metric's threshold is absent for CPA. */
  datatype Payload =
    | NoData
    | PublicationData(pub: TreePublication)
    | InfoData(caption: string, text: string)
    | SnapshotData(snapshot: Snapshot)
    | MetricData(title: string, value: real, unit: string, threshold: Option<real>)
    | AlertData(rec: Recommendation)

  datatype Node = Node(name: string, kind: NodeType, payload: Payload, children: seq<Node>)

  // ---------------------------------------------------------------------
  // transformData
  // ---------------------------------------------------------------------

  function Info(title: string, value: string): Node
  {
    Node(title + ": " + value, InfoNode, InfoData(title, value), [])
  }

  predicate HasBuyType(pub: TreePublication)
  {
    pub.buyType.Some? && pub.buyType.value != ""
  }

  predicate HasDuration(pub: TreePublication)
  {
    pub.duration.Some? && pub.duration.value != 0
  }

  /** The information children: format and platform, then the buy type and
      the duration when present, then the objective. */
  function InfoNodes(pub: TreePublication): seq<Node>
  {
    [Info("Formato", pub.format), Info("Plataforma", pub.platform)]
    + (if HasBuyType(pub) then [Info("Tipo de compra", pub.buyType.value)] else [])
    + (if HasDuration(pub) then [Info("Duración", Strings.IntToString(pub.duration.value) + "s")] else [])
    + [Info("Objetivo", pub.objective)]
  }

  function MetricLeaf(title: string, value: real, unit: string, threshold: Option<real>, name: string): Node
  {
    Node(name, MetricNode, MetricData(title, value, unit, threshold), [])
  }

  /** The KPIs node of the latest snapshot, with `toFixed(2)` a parameter:
      VTR with threshold 10, CTR with 1, CPA with none and ROAS with 2. */
  function KpisOf(s: Snapshot, fixed2: real -> string): Node
  {
    Node("KPIs", KpisNode, SnapshotData(s), [
      MetricLeaf("VTR", s.vtr, "%", Some(10.0), "VTR: " + fixed2(s.vtr) + "%"),
      MetricLeaf("CTR", s.ctr, "%", Some(1.0), "CTR: " + fixed2(s.ctr) + "%"),
      MetricLeaf("CPA", s.cpa, "$", None, "CPA: $" + fixed2(s.cpa)),
      MetricLeaf("ROAS", s.roas, "x", Some(2.0), "ROAS: " + fixed2(s.roas) + "x")])
  }

  function AlertOf(rec: Recommendation): Node
  {
    Node(rec.actionRequired, AlertNode, AlertData(rec), [])
  }

  /** `recommendations.map(rec => ...)`. */
  function AlertNodes(recs: seq<Recommendation>): (r: seq<Node>)
    ensures |r| == |recs|
    ensures forall i :: 0 <= i < |r| ==> r[i] == AlertOf(recs[i])
  {
    if recs == [] then [] else [AlertOf(recs[0])] + AlertNodes(recs[1..])
  }

  function AlertsOf(recs: seq<Recommendation>): Node
  {
    Node("Alertas (" + Strings.NatToString(|recs|) + ")", AlertsNode, NoData, AlertNodes(recs))
  }

  /** The node of one publication: its information children, then a KPIs
      node when it has metrics, then an alerts node when it has
      recommendations. */
  function PublicationNodeOf(pub: TreePublication, fixed2: real -> string): Node
  {
    Node(pub.name, PublicationNode, PublicationData(pub),
      InfoNodes(pub)
      + (if pub.metrics != [] then [KpisOf(pub.metrics[0], fixed2)] else [])
      + (if pub.recommendations != [] then [AlertsOf(pub.recommendations)] else []))
  }

  /** `transformData`: the campaign root, with one publication node per
      publication, pushed in order. */
  method TransformData(c: TreeCampaign, fixed2: real -> string) returns (root: Node)
    ensures root.kind == CampaignNode && root.name == c.name && root.payload == NoData
    ensures |root.children| == |c.publications|
    ensures forall i :: 0 <= i < |c.publications| ==> root.children[i] == PublicationNodeOf(c.publications[i], fixed2)
  {
    var children: seq<Node> := [];
    for i := 0 to |c.publications|
      invariant |children| == i
      invariant forall k :: 0 <= k < i ==> children[k] == PublicationNodeOf(c.publications[k], fixed2)
    {
      children := children + [PublicationNodeOf(c.publications[i], fixed2)];
    }
    root := Node(c.name, CampaignNode, NoData, children);
  }

  /** The information children carry their labels in the fixed order, with
      the two optional ones present exactly when their field is truthy. */
  lemma InfoOrder(pub: TreePublication)
    ensures var labels := Labels(InfoNodes(pub));
      labels == ["Formato", "Plataforma"]
        + (if HasBuyType(pub) then ["Tipo de compra"] else [])
        + (if HasDuration(pub) then ["Duración"] else [])
        + ["Objetivo"]
  {
    var xs := InfoNodes(pub);
    var a := [Info("Formato", pub.format), Info("Plataforma", pub.platform)];
    var b := if HasBuyType(pub) then [Info("Tipo de compra", pub.buyType.value)] else [];
    var d := if HasDuration(pub) then [Info("Duración", Strings.IntToString(pub.duration.value) + "s")] else [];
    var e := [Info("Objetivo", pub.objective)];
    LabelsAppend(a + b + d, e);
    LabelsAppend(a + b, d);
    LabelsAppend(a, b);
  }

  /** The labels of a list of information nodes. */
  function Labels(xs: seq<Node>): (r: seq<string>)
    ensures |r| == |xs|
  {
    if xs == [] then []
    else [if xs[0].payload.InfoData? then xs[0].payload.caption else ""] + Labels(xs[1..])
  }

  lemma {:induction false} LabelsAppend(a: seq<Node>, b: seq<Node>)
    ensures Labels(a + b) == Labels(a) + Labels(b)
  {
    if a != [] {
      assert (a + b)[1..] == a[1..] + b;
      LabelsAppend(a[1..], b);
    } else {
      assert a + b == b;
    }
  }

  /** A publication node has a KPIs child exactly when the publication has
      metrics, built from the latest snapshot, and an alerts child with one
      child per recommendation exactly when it has recommendations. */
  lemma PublicationChildren(pub: TreePublication, fixed2: real -> string)
    ensures var n := PublicationNodeOf(pub, fixed2);
      var info := |InfoNodes(pub)|;
      |n.children| == info + (if pub.metrics != [] then 1 else 0) + (if pub.recommendations != [] then 1 else 0)
      && (pub.metrics != [] ==> n.children[info] == KpisOf(pub.metrics[0], fixed2))
      && (pub.recommendations != [] ==>
            var alerts := n.children[|n.children| - 1];
            alerts.kind == AlertsNode && |alerts.children| == |pub.recommendations|)
      && (forall k :: 0 <= k < |n.children| ==> n.children[k].kind == KpisNode ==> pub.metrics != [])
  {
    var n := PublicationNodeOf(pub, fixed2);
    var info := InfoNodes(pub);
    assert forall k :: 0 <= k < |info| ==> info[k].kind == InfoNode;
  }

  // ---------------------------------------------------------------------
  // renderNode
  // ---------------------------------------------------------------------

  datatype Status = Plain | NodeCritical | NodeWarning | NodeSuccess | BelowThreshold | SeverityClass(severity: Severity)

  /** The publication's state from its latest VTR: critical below 10,
      warning below 25, success otherwise; no state without metrics. */
  function PublicationStatus(pub: TreePublication): (s: Status)
    ensures pub.metrics == [] ==> s == Plain
    ensures pub.metrics != [] ==>
      (s == NodeCritical <==> pub.metrics[0].vtr < 10.0)
      && (s == NodeWarning <==> 10.0 <= pub.metrics[0].vtr < 25.0)
      && (s == NodeSuccess <==> pub.metrics[0].vtr >= 25.0)
  {
    if pub.metrics == [] then Plain
    else if pub.metrics[0].vtr < 10.0 then NodeCritical
    else if pub.metrics[0].vtr < 25.0 then NodeWarning
    else NodeSuccess
  }

  /** A metric is flagged only when it has a truthy (present, non-zero)
      threshold and its value is below it. */
  predicate Flagged(threshold: Option<real>, value: real)
  {
    threshold.Some? && threshold.value != 0.0 && value < threshold.value
  }

  /** The status class a node is drawn with. */
  function StatusOf(n: Node): Status
  {
    match n.kind
    case PublicationNode =>
      if n.payload.PublicationData? then PublicationStatus(n.payload.pub) else Plain
    case MetricNode =>
      if n.payload.MetricData? && Flagged(n.payload.threshold, n.payload.value) then BelowThreshold else Plain
    case AlertNode =>
      if n.payload.AlertData? then SeverityClass(n.payload.rec.severity) else Plain
    case _ => Plain
  }

  /** Of the four KPI children, VTR is flagged below 10, CTR below 1 and ROAS
      below 2, and CPA is never flagged. */
  lemma KpiFlags(s: Snapshot, fixed2: real -> string)
    ensures var k := KpisOf(s, fixed2).children;
      |k| == 4
      && (StatusOf(k[0]) == BelowThreshold <==> s.vtr < 10.0)
      && (StatusOf(k[1]) == BelowThreshold <==> s.ctr < 1.0)
      && StatusOf(k[2]) == Plain
      && (StatusOf(k[3]) == BelowThreshold <==> s.roas < 2.0)
  {
  }

  /** The tree calls a publication critical for every VTR below 10, a VTR of
      0 or below included, where the flow view shows such a publication in
      no lane. */
  lemma CriticalIncludesNonPositive(pub: TreePublication, p: PublicationFlow.Publication)
    requires pub.metrics != [] && p.metrics == pub.metrics
    ensures PublicationStatus(pub) == NodeCritical <==> PublicationFlow.InBand(PublicationFlow.Low, p)
    ensures PublicationStatus(pub) == NodeCritical && !PublicationFlow.Passes(PublicationFlow.Critical, p)
        <==> pub.metrics[0].vtr <= 0.0
  {
  }

  /** A rendered line: the indentation in pixels, the node's type and status,
      and its name. */
  datatype Line = Line(indent: nat, kind: NodeType, status: Status, name: string)

  function LineOf(n: Node, level: nat): Line
  {
    Line(level * 30, n.kind, StatusOf(n), n.name)
  }

  /** The lines of a node rendered at `level`: its own line, then its
      children's lines at `level + 1`. */
  function Lines(n: Node, level: nat): seq<Line>
    decreases n
  {
    [LineOf(n, level)] + ChildLines(n.children, level + 1)
  }

  /** The lines of a list of sibling nodes, in order. */
  function ChildLines(cs: seq<Node>, level: nat): seq<Line>
    decreases cs
  {
    if cs == [] then []
    else ChildLines(cs[..|cs| - 1], level) + Lines(cs[|cs| - 1], level)
  }

  /** The number of nodes in a tree. */
  function Size(n: Node): nat
    decreases n
  {
    1 + ChildrenSize(n.children)
  }

  function ChildrenSize(cs: seq<Node>): nat
    decreases cs
  {
    if cs == [] then 0 else ChildrenSize(cs[..|cs| - 1]) + Size(cs[|cs| - 1])
  }

  /** Every node is drawn exactly once, its own line first at `level * 30`,
      and no line of its subtree is indented less. */
  lemma {:induction false} LinesShape(n: Node, level: nat)
    ensures |Lines(n, level)| == Size(n)
    ensures Lines(n, level)[0] == LineOf(n, level)
    ensures forall l :: l in Lines(n, level) ==> l.indent >= level * 30
    decreases n
  {
    ChildLinesShape(n.children, level + 1);
  }

  lemma {:induction false} ChildLinesShape(cs: seq<Node>, level: nat)
    ensures |ChildLines(cs, level)| == ChildrenSize(cs)
    ensures forall l :: l in ChildLines(cs, level) ==> l.indent >= level * 30
    decreases cs
  {
    if cs != [] {
      ChildLinesShape(cs[..|cs| - 1], level);
      LinesShape(cs[|cs| - 1], level);
    }
  }

  /** `renderNode`: the node's own line, then each child rendered one level
      deeper, appended in order. */
  method RenderNode(n: Node, level: nat) returns (lines: seq<Line>)
    ensures lines == Lines(n, level)
    decreases n
  {
    lines := [LineOf(n, level)];
    var rendered: seq<Line> := [];
    for i := 0 to |n.children|
      invariant rendered == ChildLines(n.children[..i], level + 1)
    {
      var sub := RenderNode(n.children[i], level + 1);
      assert n.children[..i + 1][..i] == n.children[..i];
      rendered := rendered + sub;
    }
    assert n.children[..|n.children|] == n.children;
    lines := lines + rendered;
  }

  /** The component keeps the tree of the last campaign it rendered. */
  class Tree {
    var data: Option<Node>

    constructor ()
      ensures data == None
    {
      data := None;
    }

    /** `render(campaignData)` and `update(campaignData)`: rebuild the tree,
        then draw it from the root at level 0. */
    method Render(c: TreeCampaign, fixed2: real -> string) returns (lines: seq<Line>)
      modifies this
      ensures data.Some? && data.value.kind == CampaignNode
      ensures data.value.name == c.name && data.value.payload == NoData
      ensures |data.value.children| == |c.publications|
      ensures forall i :: 0 <= i < |c.publications| ==> data.value.children[i] == PublicationNodeOf(c.publications[i], fixed2)
      ensures lines == Lines(data.value, 0)
    {
      var root := TransformData(c, fixed2);
      data := Some(root);
      lines := RenderNode(root, 0);
    }
  }
}
