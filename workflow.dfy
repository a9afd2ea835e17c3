/** The workflow record edited by the builder page and the pure transforms
    its node and connection handlers apply to it
    (src/components/pages/WorkflowBuilder.jsx, handleNodeAdd … handleConnectionDelete). */
module WorkflowGraph {
  import opened Wrappers
  import opened Values
  import opened Seqs

  /** A canvas position; its arithmetic is screen geometry and is not modelled. */
  datatype Position = Position(x: real, y: real)

  /** A placed node. `nodeType` is the JavaScript field `type`. */
  datatype Node = Node(id: string, nodeType: string, position: Position, config: Fields, status: string)

  datatype Connection = Connection(
    id: string,
    sourceNodeId: string,
    sourcePortId: string,
    targetNodeId: string,
    targetPortId: string)

  /** A workflow. `id` is the store's `Id`, absent until the workflow is first saved;
      `version` is absent until the store has created the record. */
  datatype Workflow = Workflow(
    id: Option<int>,
    name: string,
    description: string,
    nodes: seq<Node>,
    connections: seq<Connection>,
    status: string,
    version: Option<int>)

  /** The `updates` object of handleNodeUpdate: the fields it sets. */
  datatype NodePatch = NodePatch(
    id: Option<string>,
    nodeType: Option<string>,
    position: Option<Position>,
    config: Option<Fields>,
    status: Option<string>)

  /** `{ ...node, ...updates }`. */
  function MergeNode(n: Node, p: NodePatch): Node {
    Node(p.id.GetOr(n.id), p.nodeType.GetOr(n.nodeType), p.position.GetOr(n.position),
         p.config.GetOr(n.config), p.status.GetOr(n.status))
  }

  /** Some node in `nodes` has this id (`nodes.find(n => n.id === id)` succeeds). */
  predicate HasNode(nodes: seq<Node>, id: string) {
    exists n :: n in nodes && n.id == id
  }

  /** Every connection's two endpoints name nodes that exist. */
  predicate Connected(nodes: seq<Node>, connections: seq<Connection>) {
    forall c :: c in connections ==> HasNode(nodes, c.sourceNodeId) && HasNode(nodes, c.targetNodeId)
  }

  /** The workflow has no dangling connections. */
  predicate NoDangling(w: Workflow) {
    Connected(w.nodes, w.connections)
  }

  function NodeIds(nodes: seq<Node>): (ids: seq<string>)
    ensures |ids| == |nodes|
    ensures forall i :: 0 <= i < |nodes| ==> ids[i] == nodes[i].id
  {
    if nodes == [] then [] else [nodes[0].id] + NodeIds(nodes[1..])
  }

  /** A connection touches a node when it starts or ends there. */
  predicate Touches(c: Connection, nodeId: string) {
    c.sourceNodeId == nodeId || c.targetNodeId == nodeId
  }

  /** handleNodeAdd: append the node; everything else is kept. */
  function AddNode(w: Workflow, n: Node): (r: Workflow)
    ensures |r.nodes| == |w.nodes| + 1 && r.nodes[..|w.nodes|] == w.nodes && r.nodes[|w.nodes|] == n
    ensures r == w.(nodes := r.nodes)
  {
    w.(nodes := w.nodes + [n])
  }

  /** The `map` inside handleNodeUpdate. */
  function UpdateNodes(nodes: seq<Node>, nodeId: string, p: NodePatch): (r: seq<Node>)
    ensures |r| == |nodes|
    ensures forall i :: 0 <= i < |nodes| ==>
      r[i] == if nodes[i].id == nodeId then MergeNode(nodes[i], p) else nodes[i]
  {
    if nodes == [] then []
    else [if nodes[0].id == nodeId then MergeNode(nodes[0], p) else nodes[0]] + UpdateNodes(nodes[1..], nodeId, p)
  }

  /** handleNodeUpdate: merge `p` into every node whose id is `nodeId`. */
  function UpdateNode(w: Workflow, nodeId: string, p: NodePatch): (r: Workflow)
    ensures |r.nodes| == |w.nodes|
    ensures forall i :: 0 <= i < |w.nodes| && w.nodes[i].id != nodeId ==> r.nodes[i] == w.nodes[i]
    ensures forall i :: 0 <= i < |w.nodes| && w.nodes[i].id == nodeId ==>
      var n, m := w.nodes[i], r.nodes[i];
      && m.id == p.id.GetOr(n.id) && m.nodeType == p.nodeType.GetOr(n.nodeType)
      && m.position == p.position.GetOr(n.position) && m.config == p.config.GetOr(n.config)
      && m.status == p.status.GetOr(n.status)
    ensures r == w.(nodes := r.nodes)
  {
    w.(nodes := UpdateNodes(w.nodes, nodeId, p))
  }

  /** handleNodeDelete: drop the node and every connection touching it. */
  function DeleteNode(w: Workflow, nodeId: string): (r: Workflow)
    ensures forall n :: n in r.nodes <==> n in w.nodes && n.id != nodeId
    ensures forall c :: c in r.connections <==> c in w.connections && !Touches(c, nodeId)
    ensures IsSubseq(r.nodes, w.nodes) && IsSubseq(r.connections, w.connections)
    ensures r == w.(nodes := r.nodes, connections := r.connections)
  {
    var keepNode := (n: Node) => n.id != nodeId;
    var keepConn := (c: Connection) => !Touches(c, nodeId);
    FilterIsSubseq(w.nodes, keepNode);
    FilterIsSubseq(w.connections, keepConn);
    w.(nodes := Filter(w.nodes, keepNode), connections := Filter(w.connections, keepConn))
  }

  /** handleConnectionAdd: append the connection. */
  function AddConnection(w: Workflow, c: Connection): (r: Workflow)
    ensures |r.connections| == |w.connections| + 1
    ensures r.connections[..|w.connections|] == w.connections && r.connections[|w.connections|] == c
    ensures r == w.(connections := r.connections)
  {
    w.(connections := w.connections + [c])
  }

  /** handleConnectionDelete: drop every connection with this id. */
  function DeleteConnection(w: Workflow, connectionId: string): (r: Workflow)
    ensures forall c :: c in r.connections <==> c in w.connections && c.id != connectionId
    ensures IsSubseq(r.connections, w.connections)
    ensures r == w.(connections := r.connections)
  {
    var keep := (c: Connection) => c.id != connectionId;
    FilterIsSubseq(w.connections, keep);
    w.(connections := Filter(w.connections, keep))
  }

  // ---- Properties of the edits ----

  /** Deleting a node never leaves a dangling connection behind. */
  lemma DeleteNodeKeepsNoDangling(w: Workflow, nodeId: string)
    requires NoDangling(w)
    ensures NoDangling(DeleteNode(w, nodeId))
  {
    var r := DeleteNode(w, nodeId);
    forall c | c in r.connections
      ensures HasNode(r.nodes, c.sourceNodeId) && HasNode(r.nodes, c.targetNodeId)
    {
      var s :| s in w.nodes && s.id == c.sourceNodeId;
      var t :| t in w.nodes && t.id == c.targetNodeId;
      assert s in r.nodes && t in r.nodes;
    }
  }

  /** After deleting a node, no node has its id and no connection touches it. */
  lemma DeleteNodeRemovesAllTraces(w: Workflow, nodeId: string)
    ensures !HasNode(DeleteNode(w, nodeId).nodes, nodeId)
    ensures forall c :: c in DeleteNode(w, nodeId).connections ==> !Touches(c, nodeId)
  {
  }

  /** Adding a node keeps every existing connection attached. */
  lemma AddNodeKeepsNoDangling(w: Workflow, n: Node)
    requires NoDangling(w)
    ensures NoDangling(AddNode(w, n))
  {
    var r := AddNode(w, n);
    forall c | c in r.connections
      ensures HasNode(r.nodes, c.sourceNodeId) && HasNode(r.nodes, c.targetNodeId)
    {
      var s :| s in w.nodes && s.id == c.sourceNodeId;
      var t :| t in w.nodes && t.id == c.targetNodeId;
      assert s in r.nodes && t in r.nodes;
    }
  }

  /** Adding a connection between two existing nodes keeps the workflow free of dangling connections. */
  lemma AddConnectionKeepsNoDangling(w: Workflow, c: Connection)
    requires NoDangling(w)
    requires HasNode(w.nodes, c.sourceNodeId) && HasNode(w.nodes, c.targetNodeId)
    ensures NoDangling(AddConnection(w, c))
  {
  }

  /** Deleting connections never creates a dangling one. */
  lemma DeleteConnectionKeepsNoDangling(w: Workflow, connectionId: string)
    requires NoDangling(w)
    ensures NoDangling(DeleteConnection(w, connectionId))
  {
  }

  /** An update that does not rename nodes keeps every node id in place,
      and so keeps the workflow free of dangling connections. */
  lemma UpdateNodeKeepsIds(w: Workflow, nodeId: string, p: NodePatch)
    requires p.id.None? || p.id == Some(nodeId)
    ensures NodeIds(UpdateNode(w, nodeId, p).nodes) == NodeIds(w.nodes)
    ensures NoDangling(w) ==> NoDangling(UpdateNode(w, nodeId, p))
  {
    var r := UpdateNode(w, nodeId, p);
    assert forall i :: 0 <= i < |w.nodes| ==> r.nodes[i].id == w.nodes[i].id;
    if NoDangling(w) {
      forall c | c in r.connections
        ensures HasNode(r.nodes, c.sourceNodeId) && HasNode(r.nodes, c.targetNodeId)
      {
        var s :| s in w.nodes && s.id == c.sourceNodeId;
        var t :| t in w.nodes && t.id == c.targetNodeId;
        var i :| 0 <= i < |w.nodes| && w.nodes[i] == s;
        var j :| 0 <= j < |w.nodes| && w.nodes[j] == t;
        assert r.nodes[i] in r.nodes && r.nodes[j] in r.nodes;
      }
    }
  }

  /** Applying the same update twice is applying it once. */
  lemma UpdateNodeIdempotent(w: Workflow, nodeId: string, p: NodePatch)
    ensures UpdateNode(UpdateNode(w, nodeId, p), nodeId, p) == UpdateNode(w, nodeId, p)
  {
    var r1 := UpdateNode(w, nodeId, p);
    var r2 := UpdateNode(r1, nodeId, p);
    forall i | 0 <= i < |w.nodes| ensures r2.nodes[i] == r1.nodes[i] {
      if w.nodes[i].id == nodeId && r1.nodes[i].id == nodeId {
        assert MergeNode(MergeNode(w.nodes[i], p), p) == MergeNode(w.nodes[i], p);
      }
    }
    assert r2.nodes == r1.nodes;
  }

  /** Deleting a freshly added node that no connection touches undoes the add. */
  lemma DeleteUndoesAddNode(w: Workflow, n: Node)
    requires !HasNode(w.nodes, n.id)
    requires forall c :: c in w.connections ==> !Touches(c, n.id)
    ensures DeleteNode(AddNode(w, n), n.id) == w
  {
    var a := AddNode(w, n);
    FilterAll(w.nodes, (m: Node) => m.id != n.id);
    FilterAll(w.connections, (c: Connection) => !Touches(c, n.id));
    FilterAppendDrop(w.nodes, n, (m: Node) => m.id != n.id);
  }

  /** Deleting a freshly added connection by its id undoes the add. */
  lemma DeleteUndoesAddConnection(w: Workflow, c: Connection)
    requires forall d :: d in w.connections ==> d.id != c.id
    ensures DeleteConnection(AddConnection(w, c), c.id) == w
  {
    FilterAll(w.connections, (d: Connection) => d.id != c.id);
    FilterAppendDrop(w.connections, c, (d: Connection) => d.id != c.id);
  }
}
