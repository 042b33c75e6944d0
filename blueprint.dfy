/**
 * Geometry of the workflow blueprint diagram: the SVG viewBox around the node
 * rectangles, node lookup by id, the endpoints of each connection curve, and
 * the node-type caption.
 */
module Blueprint {
  import opened Wrappers
  import Text
  import Selection

  const Padding: int := 60
  const NodeWidth: int := 180
  const NodeHeight: int := 60

  datatype Position = Position(x: int, y: int)

  datatype NodeType = Input | Process | Output | AiAgent
  {
    /** The string literal the type is written as. */
    function Name(): string
    {
      match this
      case Input => "input"
      case Process => "process"
      case Output => "output"
      case AiAgent => "ai-agent"
    }
  }

  datatype Node = Node(id: string, text: string, kind: NodeType, position: Position)

  datatype Connection = Connection(from: string, to: string, animated: Option<bool>)

  /** The ids of the nodes, in order. */
  function NodeIds(nodes: seq<Node>): (ids: seq<string>)
    ensures |ids| == |nodes| && forall i :: 0 <= i < |nodes| ==> ids[i] == nodes[i].id
  {
    seq(|nodes|, i requires 0 <= i < |nodes| => nodes[i].id)
  }

  /** `Math.min(...xs)` for a non-empty list. */
  function MinOf(xs: seq<int>): (m: int)
    requires |xs| > 0
    ensures m in xs
    ensures forall i :: 0 <= i < |xs| ==> m <= xs[i]
  {
    if |xs| == 1 then xs[0]
    else
      var rest := MinOf(xs[1..]);
      if xs[0] <= rest then xs[0] else rest
  }

  /** `Math.max(...xs)` for a non-empty list. */
  function MaxOf(xs: seq<int>): (m: int)
    requires |xs| > 0
    ensures m in xs
    ensures forall i :: 0 <= i < |xs| ==> xs[i] <= m
  {
    if |xs| == 1 then xs[0]
    else
      var rest := MaxOf(xs[1..]);
      if xs[0] >= rest then xs[0] else rest
  }

  function Xs(nodes: seq<Node>): (xs: seq<int>)
    ensures |xs| == |nodes| && forall i :: 0 <= i < |nodes| ==> xs[i] == nodes[i].position.x
  {
    seq(|nodes|, i requires 0 <= i < |nodes| => nodes[i].position.x)
  }

  function Ys(nodes: seq<Node>): (ys: seq<int>)
    ensures |ys| == |nodes| && forall i :: 0 <= i < |nodes| ==> ys[i] == nodes[i].position.y
  {
    seq(|nodes|, i requires 0 <= i < |nodes| => nodes[i].position.y)
  }

  datatype ViewBox = ViewBox(minX: int, minY: int, width: int, height: int)

  /** Whether a point lies inside (or on the border of) a viewBox. */
  predicate Inside(v: ViewBox, x: int, y: int)
  {
    v.minX <= x <= v.minX + v.width && v.minY <= y <= v.minY + v.height
  }

  /**
   * The diagram's viewBox. With no nodes `Math.min()`/`Math.max()` are infinite
   * and the viewBox is not a finite rectangle: `None`.
   */
  function ComputeViewBox(nodes: seq<Node>): (v: Option<ViewBox>)
    ensures v.None? <==> nodes == []
    ensures v.Some? ==> v.value.width >= NodeWidth + 2 * Padding
    ensures v.Some? ==> v.value.height >= NodeHeight + 2 * Padding
    ensures v.Some? ==> forall i :: 0 <= i < |nodes| ==>
      var p := nodes[i].position;
      v.value.minX + Padding <= p.x && p.x + NodeWidth + Padding <= v.value.minX + v.value.width &&
      v.value.minY + Padding <= p.y && p.y + NodeHeight + Padding <= v.value.minY + v.value.height
  {
    if nodes == [] then None
    else
      var minX := MinOf(Xs(nodes)) - Padding;
      var minY := MinOf(Ys(nodes)) - Padding;
      var maxX := MaxOf(Xs(nodes)) + NodeWidth + Padding;
      var maxY := MaxOf(Ys(nodes)) + NodeHeight + Padding;
      Some(ViewBox(minX, minY, maxX - minX, maxY - minY))
  }

  /** The viewBox is the tightest one with a 60-unit margin: some node touches each margin. */
  lemma ViewBoxIsTight(nodes: seq<Node>)
    requires nodes != []
    ensures exists i :: 0 <= i < |nodes| && nodes[i].position.x == ComputeViewBox(nodes).value.minX + Padding
    ensures exists i :: 0 <= i < |nodes| && nodes[i].position.y == ComputeViewBox(nodes).value.minY + Padding
    ensures exists i :: 0 <= i < |nodes| &&
              nodes[i].position.x + NodeWidth + Padding == ComputeViewBox(nodes).value.minX + ComputeViewBox(nodes).value.width
    ensures exists i :: 0 <= i < |nodes| &&
              nodes[i].position.y + NodeHeight + Padding == ComputeViewBox(nodes).value.minY + ComputeViewBox(nodes).value.height
  {
  }

  /** `nodes.find(n => n.id === id)`: the first node with that id, if any. */
  function FindNode(nodes: seq<Node>, id: string): (r: Option<Node>)
    ensures r.None? <==> forall i :: 0 <= i < |nodes| ==> nodes[i].id != id
    ensures r.Some? ==> exists i :: 0 <= i < |nodes| && nodes[i] == r.value && r.value.id == id
                                    && forall j :: 0 <= j < i ==> nodes[j].id != id
  {
    if nodes == [] then None
    else if nodes[0].id == id then Some(nodes[0])
    else
      var r := FindNode(nodes[1..], id);
      assert r.Some? ==> exists i :: 0 <= i < |nodes[1..]| && nodes[1..][i] == r.value && r.value.id == id
                                    && forall j :: 0 <= j < i ==> nodes[1..][j].id != id;
      assert r.Some? ==> exists i :: 1 <= i < |nodes| && nodes[i] == r.value && r.value.id == id
                                    && forall j :: 0 <= j < i ==> nodes[j].id != id;
      r
  }

  /** With distinct ids the node found is the unique node with that id. */
  lemma FindNodeUnique(nodes: seq<Node>, k: nat)
    requires k < |nodes|
    requires Selection.Distinct(NodeIds(nodes))
    ensures FindNode(nodes, nodes[k].id) == Some(nodes[k])
  {
    var ids := NodeIds(nodes);
    var r := FindNode(nodes, nodes[k].id);
    var i :| 0 <= i < |nodes| && nodes[i] == r.value && r.value.id == nodes[k].id
             && forall j :: 0 <= j < i ==> nodes[j].id != nodes[k].id;
    assert ids[i] == nodes[i].id && ids[k] == nodes[k].id;
  }

  /**
   * The curve drawn for a connection: nothing when an endpoint is unknown, else a
   * cubic from the bottom centre of the source node to the top centre of the
   * target node with both control points at the middle height.
   */
  datatype Path = NoPath | Curve(fromX: int, fromY: int, midY: real, toX: int, toY: int)

  function ConnectionPath(nodes: seq<Node>, c: Connection): (p: Path)
    ensures p.NoPath? <==> FindNode(nodes, c.from).None? || FindNode(nodes, c.to).None?
  {
    match (FindNode(nodes, c.from), FindNode(nodes, c.to))
    case (Some(f), Some(t)) =>
      var fromX := f.position.x + NodeWidth / 2;
      var fromY := f.position.y + NodeHeight;
      var toX := t.position.x + NodeWidth / 2;
      var toY := t.position.y;
      Curve(fromX, fromY, (fromY + toY) as real / 2.0, toX, toY)
    case _ => NoPath
  }

  /**
   * A drawn curve leaves the bottom centre of the node `find` returns for `from`
   * and enters the top centre of the node it returns for `to`; both control points
   * sit at the mean height.
   */
  lemma PathEndpoints(nodes: seq<Node>, c: Connection)
    requires ConnectionPath(nodes, c).Curve?
    ensures FindNode(nodes, c.from).Some? && FindNode(nodes, c.to).Some?
    ensures ConnectionPath(nodes, c).fromX == FindNode(nodes, c.from).value.position.x + 90
    ensures ConnectionPath(nodes, c).fromY == FindNode(nodes, c.from).value.position.y + 60
    ensures ConnectionPath(nodes, c).toX == FindNode(nodes, c.to).value.position.x + 90
    ensures ConnectionPath(nodes, c).toY == FindNode(nodes, c.to).value.position.y
    ensures ConnectionPath(nodes, c).midY * 2.0
         == (ConnectionPath(nodes, c).fromY + ConnectionPath(nodes, c).toY) as real
  {
  }

  /** Both endpoints of every drawn curve lie inside the diagram's viewBox. */
  lemma PathInsideViewBox(nodes: seq<Node>, c: Connection)
    requires ConnectionPath(nodes, c).Curve?
    ensures nodes != []
    ensures Inside(ComputeViewBox(nodes).value, ConnectionPath(nodes, c).fromX, ConnectionPath(nodes, c).fromY)
    ensures Inside(ComputeViewBox(nodes).value, ConnectionPath(nodes, c).toX, ConnectionPath(nodes, c).toY)
  {
    PathEndpoints(nodes, c);
  }

  /**
   * `node.type.replace('-', ' ')`: the caption printed under a node's label. Only
   * "ai-agent" contains a dash, so its caption is "ai agent" and the others are
   * printed as written.
   */
  function TypeCaption(t: NodeType): (caption: string)
    ensures caption == if t == AiAgent then "ai agent" else t.Name()
  {
    if t == AiAgent then
      Text.ReplaceFirstAt("ai-agent", '-', ' ', 2);
      assert "ai-agent"[..2] + [' '] + "ai-agent"[3..] == "ai agent";
      Text.ReplaceFirst(t.Name(), '-', ' ')
    else
      assert '-' !in t.Name();
      Text.ReplaceFirst(t.Name(), '-', ' ')
  }

  /**
   * Which node is drawn highlighted: `activeNodeId === node.id`, the selection
   * flags over the node ids; with distinct ids at most one node is.
   */
  function ActiveFlags(nodes: seq<Node>, activeNodeId: Option<string>): (flags: seq<bool>)
    ensures |flags| == |nodes|
    ensures forall i :: 0 <= i < |nodes| ==> (flags[i] <==> activeNodeId == Some(nodes[i].id))
    ensures Selection.Distinct(NodeIds(nodes)) ==> Selection.CountTrue(flags) <= 1
  {
    var flags := Selection.SelectedFlags(NodeIds(nodes), activeNodeId);
    if Selection.Distinct(NodeIds(nodes)) then
      Selection.AtMostOneSelected(NodeIds(nodes), activeNodeId);
      flags
    else flags
  }

  /** With distinct node ids at most one node is highlighted, and none when nothing is active. */
  lemma AtMostOneActiveNode(nodes: seq<Node>, activeNodeId: Option<string>, i: nat, j: nat)
    requires Selection.Distinct(NodeIds(nodes))
    requires i < |nodes| && j < |nodes|
    requires ActiveFlags(nodes, activeNodeId)[i] && ActiveFlags(nodes, activeNodeId)[j]
    ensures i == j && activeNodeId == Some(nodes[i].id)
  {
  }

  /** The legend box under the diagram: not rendered, or rendered around a caption that may be missing. */
  datatype LegendBox = Hidden | Shown(caption: Option<string>)

  /**
   * `{activeNodeId && ...}`: the box is rendered exactly when the active id is
   * truthy, i.e. present and not the empty string; it holds the label of the first
   * node with that id, and nothing when no node has it.
   */
  function Legend(nodes: seq<Node>, activeNodeId: Option<string>): (legend: LegendBox)
    ensures legend.Hidden? <==> activeNodeId.None? || activeNodeId.value == ""
    ensures legend.Shown? ==>
              (legend.caption.Some? <==> exists i :: 0 <= i < |nodes| && nodes[i].id == activeNodeId.value)
    ensures legend.Shown? && legend.caption.Some? ==>
              FindNode(nodes, activeNodeId.value).Some? &&
              legend.caption.value == FindNode(nodes, activeNodeId.value).value.text
  {
    match activeNodeId
    case None => Hidden
    case Some(id) =>
      if id == "" then Hidden
      else
        match FindNode(nodes, id)
        case None => Shown(None)
        case Some(n) => Shown(Some(n.text))
  }
}
