/** The workflow canvas (src/components/organisms/WorkflowCanvas.jsx): the
    click-to-connect state machine on ports, the mouse-up reset, the node
    record built on a drop, and which connections are drawn. Pan, drag and
    zoom arithmetic is not modelled. */
module Canvas {
  import opened Wrappers
  import opened Seqs
  import opened WorkflowGraph
  import opened NodeService
  import opened Values

  /** The `type` argument of handlePortClick. */
  datatype PortKind = Input | Output

  /** The `connecting` slot when it is set. */
  datatype PendingPort = PendingPort(nodeId: string, portId: string, kind: PortKind)

  /** The next `connecting` slot, and the connection handed to onConnectionAdd, if any. */
  datatype PortStep = PortStep(next: Option<PendingPort>, emitted: Option<Connection>)

  /** The connection record built when a pending port and a clicked port pair
      up: the output end is the source, the input end the target. */
  function NewConnection(pending: PendingPort, nodeId: string, portId: string, kind: PortKind, connectionId: string): (c: Connection)
    ensures c.id == connectionId
    ensures {c.sourceNodeId, c.targetNodeId} == {nodeId, pending.nodeId}
    ensures kind == Input ==> c.sourceNodeId == pending.nodeId && c.targetNodeId == nodeId
  {
    Connection(
      connectionId,
      if kind == Output then nodeId else pending.nodeId,
      if kind == Output then portId else pending.portId,
      if kind == Input then nodeId else pending.nodeId,
      if kind == Input then portId else pending.portId)
  }

  /** handlePortClick as a transition on the `connecting` slot. */
  function PortClickStep(connecting: Option<PendingPort>, nodeId: string, portId: string, kind: PortKind, connectionId: string): PortStep {
    match connecting
    case Some(p) =>
      if p.nodeId != nodeId && p.kind != kind then
        PortStep(None, Some(NewConnection(p, nodeId, portId, kind, connectionId)))
      else
        PortStep(None, None)
    case None =>
      if kind == Output then PortStep(Some(PendingPort(nodeId, portId, kind)), None)
      else PortStep(None, None)
  }

  /** Only an output port is ever pending. */
  predicate PendingIsOutput(connecting: Option<PendingPort>) {
    connecting.Some? ==> connecting.value.kind == Output
  }

  // ---- Properties of the port state machine ----

  /** With nothing pending, an output click arms it and an input click does nothing. */
  lemma IdleClick(nodeId: string, portId: string, kind: PortKind, connectionId: string)
    ensures var s := PortClickStep(None, nodeId, portId, kind, connectionId);
      && s.emitted.None?
      && (kind == Output ==> s.next == Some(PendingPort(nodeId, portId, Output)))
      && (kind == Input ==> s.next.None?)
  {
  }

  /** With a port pending, every click clears it, connected or not. */
  lemma PendingClickClears(p: PendingPort, nodeId: string, portId: string, kind: PortKind, connectionId: string)
    ensures PortClickStep(Some(p), nodeId, portId, kind, connectionId).next.None?
  {
  }

  /** A connection is emitted exactly when a port was pending on another node
      and the clicked port is of the other kind. */
  lemma EmitIff(connecting: Option<PendingPort>, nodeId: string, portId: string, kind: PortKind, connectionId: string)
    ensures PortClickStep(connecting, nodeId, portId, kind, connectionId).emitted.Some? <==>
      connecting.Some? && connecting.value.nodeId != nodeId && connecting.value.kind != kind
  {
  }

  /** No emitted connection is a self-loop. */
  lemma NoSelfLoop(connecting: Option<PendingPort>, nodeId: string, portId: string, kind: PortKind, connectionId: string)
    ensures var s := PortClickStep(connecting, nodeId, portId, kind, connectionId);
      s.emitted.Some? ==> s.emitted.value.sourceNodeId != s.emitted.value.targetNodeId
  {
  }

  /** The step never leaves an input port pending. */
  lemma StepKeepsPendingOutput(connecting: Option<PendingPort>, nodeId: string, portId: string, kind: PortKind, connectionId: string)
    ensures PendingIsOutput(PortClickStep(connecting, nodeId, portId, kind, connectionId).next)
  {
  }

  /** Because the pending port is an output, an emitted connection runs from
      the pending port to the clicked input port. */
  lemma EmittedOrientation(connecting: Option<PendingPort>, nodeId: string, portId: string, kind: PortKind, connectionId: string)
    requires PendingIsOutput(connecting)
    ensures var s := PortClickStep(connecting, nodeId, portId, kind, connectionId);
      s.emitted.Some? ==>
        && kind == Input
        && s.emitted.value == Connection(connectionId, connecting.value.nodeId, connecting.value.portId, nodeId, portId)
  {
  }

  /** Ports are only clickable on rendered nodes, so an emitted connection
      between existing nodes keeps the workflow free of dangling connections. */
  lemma EmittedKeepsNoDangling(w: Workflow, connecting: Option<PendingPort>, nodeId: string, portId: string, kind: PortKind, connectionId: string)
    requires NoDangling(w)
    requires connecting.Some? ==> HasNode(w.nodes, connecting.value.nodeId)
    requires HasNode(w.nodes, nodeId)
    ensures var s := PortClickStep(connecting, nodeId, portId, kind, connectionId);
      s.emitted.Some? ==> NoDangling(AddConnection(w, s.emitted.value))
  {
    var s := PortClickStep(connecting, nodeId, portId, kind, connectionId);
    if s.emitted.Some? {
      AddConnectionKeepsNoDangling(w, s.emitted.value);
    }
  }

  // ---- Port clicks as the browser delivers them ----

  /** One click on a port: the handlePortClick arguments and the fresh
      connection id the click would use. */
  datatype Click = Click(nodeId: string, portId: string, kind: PortKind, connectionId: string)

  function ClickStep(connecting: Option<PendingPort>, c: Click): PortStep {
    PortClickStep(connecting, c.nodeId, c.portId, c.kind, c.connectionId)
  }

  /** The connection a step emits, as a list of zero or one. */
  function EmittedList(s: PortStep): seq<Connection> {
    if s.emitted.Some? then [s.emitted.value] else []
  }

  /** A run of port clicks as written. The ports sit inside the canvas, whose
      onMouseUp empties the slot; the mouse-up of each click reaches it before
      the click, so every handlePortClick runs on an empty slot. Gives the
      final slot and the connections emitted, in order. */
  function ClickRunAsWritten(connecting: Option<PendingPort>, clicks: seq<Click>): (Option<PendingPort>, seq<Connection>)
    decreases |clicks|
  {
    if clicks == [] then (connecting, [])
    else
      var s := ClickStep(None, clicks[0]);
      var rest := ClickRunAsWritten(s.next, clicks[1..]);
      (rest.0, EmittedList(s) + rest.1)
  }

  /** A run of port clicks where the mouse-up ending a click on a port leaves
      the slot alone, so each click sees the slot the previous one left. */
  function ClickRun(connecting: Option<PendingPort>, clicks: seq<Click>): (Option<PendingPort>, seq<Connection>)
    decreases |clicks|
  {
    if clicks == [] then (connecting, [])
    else
      var s := ClickStep(connecting, clicks[0]);
      var rest := ClickRun(s.next, clicks[1..]);
      (rest.0, EmittedList(s) + rest.1)
  }

  /** As written, no sequence of port clicks ever adds a connection. */
  lemma {:induction false} ClickRunAsWrittenNeverConnects(connecting: Option<PendingPort>, clicks: seq<Click>)
    ensures ClickRunAsWritten(connecting, clicks).1 == []
    decreases |clicks|
  {
    if clicks != [] {
      var c := clicks[0];
      IdleClick(c.nodeId, c.portId, c.kind, c.connectionId);
      ClickRunAsWrittenNeverConnects(ClickStep(None, c).next, clicks[1..]);
    }
  }

  /** With the slot kept across the mouse-up, clicking an output port and then
      an input port of another node adds the connection between them. */
  lemma ClickRunConnects(a: string, outPort: string, b: string, inPort: string, id1: string, id2: string)
    requires a != b
    ensures ClickRun(None, [Click(a, outPort, Output, id1), Click(b, inPort, Input, id2)])
      == (None, [Connection(id2, a, outPort, b, inPort)])
  {
    var clicks := [Click(a, outPort, Output, id1), Click(b, inPort, Input, id2)];
    var pending := Some(PendingPort(a, outPort, Output));
    assert ClickStep(None, clicks[0]) == PortStep(pending, None);
    assert clicks[1..] == [clicks[1]] && clicks[1..][1..] == [];
    var conn := Connection(id2, a, outPort, b, inPort);
    assert NewConnection(pending.value, b, inPort, Input, id2) == conn;
    assert ClickStep(pending, clicks[1]) == PortStep(None, Some(conn));
    assert ClickRun(None, clicks[1..][1..]) == (None, []);
    assert EmittedList(PortStep(None, Some(conn))) + [] == [conn];
    assert ClickRun(pending, clicks[1..]) == (None, [conn]);
    assert EmittedList(PortStep(pending, None)) + [conn] == [conn];
  }

  /** With the slot kept across the mouse-up, a run of clicks starting from a
      pending output (or none) only ever adds connections from an output port
      on one node to an input port on another, and leaves only an output pending. */
  lemma {:induction false} ClickRunSound(connecting: Option<PendingPort>, clicks: seq<Click>)
    requires PendingIsOutput(connecting)
    ensures PendingIsOutput(ClickRun(connecting, clicks).0)
    ensures forall c :: c in ClickRun(connecting, clicks).1 ==> c.sourceNodeId != c.targetNodeId
    decreases |clicks|
  {
    if clicks != [] {
      var k := clicks[0];
      var s := ClickStep(connecting, k);
      StepKeepsPendingOutput(connecting, k.nodeId, k.portId, k.kind, k.connectionId);
      NoSelfLoop(connecting, k.nodeId, k.portId, k.kind, k.connectionId);
      ClickRunSound(s.next, clicks[1..]);
    }
  }

  // ---- Drop and rendering ----

  /** handleDrop's new node: the palette entry's type and a copy of its
      config, status "idle", at the drop position. */
  function DroppedNode(id: string, palette: NodeTemplate, at: Position): Node {
    Node(id, palette.nodeType, at, palette.config, "idle")
  }

  /** handleDrop: nothing is added when the drag carried no node. */
  function Drop(id: string, dragged: Option<NodeTemplate>, at: Position): (r: Option<Node>)
    ensures r.Some? <==> dragged.Some?
    ensures r.Some? ==> r.value == Node(id, dragged.value.nodeType, at, dragged.value.config, "idle")
  {
    match dragged
    case None => None
    case Some(t) => Some(DroppedNode(id, t, at))
  }

  /** The connections the canvas draws: those whose two endpoints it finds. */
  function DrawnConnections(nodes: seq<Node>, connections: seq<Connection>): (r: seq<Connection>)
    ensures forall c :: c in r <==> c in connections && HasNode(nodes, c.sourceNodeId) && HasNode(nodes, c.targetNodeId)
    ensures IsSubseq(r, connections)
  {
    var drawn := (c: Connection) => HasNode(nodes, c.sourceNodeId) && HasNode(nodes, c.targetNodeId);
    FilterIsSubseq(connections, drawn);
    Filter(connections, drawn)
  }

  /** A workflow without dangling connections has every connection drawn. */
  lemma AllDrawnWhenConnected(w: Workflow)
    requires NoDangling(w)
    ensures DrawnConnections(w.nodes, w.connections) == w.connections
  {
    FilterAll(w.connections, (c: Connection) => HasNode(w.nodes, c.sourceNodeId) && HasNode(w.nodes, c.targetNodeId));
  }

  /** A dropped node carries its palette entry's defaults, so validating it
      reports exactly the fields whose default is null or the empty string. */
  lemma DroppedNodeValidation(id: string, palette: NodeTemplate, at: Position, f: string)
    requires UniqueKeys(palette.config)
    ensures var n := DroppedNode(id, palette, at);
      MissingMessage(f) in MissingFields(palette.config, n.config) <==>
        Get(palette.config, f) == Some(Null) || Get(palette.config, f) == Some(Str(""))
  {
    ErrorIffMissing(palette.config, palette.config, f);
    var g := Get(palette.config, f);
    if g.Some? {
      FalsyOtherThanFalseOrZero(g.value);
    }
  }

  /** The falsy values other than `false` and `0` are null and the empty string. */
  lemma FalsyOtherThanFalseOrZero(v: Value)
    ensures (!Truthy(v) && v != Bool(false) && v != Num(0.0)) <==> (v == Null || v == Str(""))
  {
  }

  /** The canvas's interaction state. */
  class CanvasState {
    var connecting: Option<PendingPort>
    var isPanning: bool
    var draggedNode: Option<Node>

    ghost predicate Valid()
      reads this
    {
      PendingIsOutput(connecting)
    }

    constructor ()
      ensures Valid() && connecting.None? && !isPanning && draggedNode.None?
    {
      connecting := None;
      isPanning := false;
      draggedNode := None;
    }

    /** handlePortClick: step the slot and return the connection to add. */
    method PortClick(nodeId: string, portId: string, kind: PortKind, connectionId: string) returns (emitted: Option<Connection>)
      requires Valid()
      modifies this
      ensures Valid()
      ensures var s := PortClickStep(old(connecting), nodeId, portId, kind, connectionId);
        connecting == s.next && emitted == s.emitted
      ensures isPanning == old(isPanning) && draggedNode == old(draggedNode)
    {
      if connecting.Some? {
        var p := connecting.value;
        emitted := None;
        if p.nodeId != nodeId && p.kind != kind {
          emitted := Some(NewConnection(p, nodeId, portId, kind, connectionId));
        }
        connecting := None;
      } else {
        emitted := None;
        if kind == Output {
          connecting := Some(PendingPort(nodeId, portId, kind));
        }
      }
    }

    /** handleMouseDown: a press on the canvas background starts panning. */
    method MouseDown(onBackground: bool)
      requires Valid()
      modifies this
      ensures Valid()
      ensures isPanning == (old(isPanning) || onBackground)
      ensures connecting == old(connecting) && draggedNode == old(draggedNode)
    {
      if onBackground {
        isPanning := true;
      }
    }

    /** handleNodeMouseDown: start dragging the node; it is also selected. */
    method NodeMouseDown(n: Node) returns (select: Node)
      requires Valid()
      modifies this
      ensures Valid()
      ensures draggedNode == Some(n) && select == n
      ensures connecting == old(connecting) && isPanning == old(isPanning)
    {
      draggedNode := Some(n);
      select := n;
    }

    /** handleMouseUp: panning, dragging and the pending connection all end. */
    method MouseUp()
      modifies this
      ensures Valid()
      ensures !isPanning && draggedNode.None? && connecting.None?
    {
      isPanning := false;
      draggedNode := None;
      connecting := None;
    }

    /** A click on a port as written: the canvas's mouse-up runs first and
        empties the slot, then handlePortClick. Nothing is ever emitted. */
    method PortClickGesture(nodeId: string, portId: string, kind: PortKind, connectionId: string) returns (emitted: Option<Connection>)
      modifies this
      ensures Valid()
      ensures connecting == PortClickStep(None, nodeId, portId, kind, connectionId).next
      ensures emitted.None?
      ensures !isPanning && draggedNode.None?
    {
      MouseUp();
      emitted := PortClick(nodeId, portId, kind, connectionId);
    }

    /** The mouse-up that ends a click on a port, corrected: panning and
        dragging end, the pending port stays. */
    method MouseUpOverPort()
      requires Valid()
      modifies this
      ensures Valid()
      ensures !isPanning && draggedNode.None? && connecting == old(connecting)
    {
      isPanning := false;
      draggedNode := None;
    }

    /** A click on a port with the corrected mouse-up: the click sees the
        slot the previous click left. */
    method PortClickGestureCorrected(nodeId: string, portId: string, kind: PortKind, connectionId: string) returns (emitted: Option<Connection>)
      requires Valid()
      modifies this
      ensures Valid()
      ensures var s := PortClickStep(old(connecting), nodeId, portId, kind, connectionId);
        connecting == s.next && emitted == s.emitted
      ensures !isPanning && draggedNode.None?
    {
      MouseUpOverPort();
      emitted := PortClick(nodeId, portId, kind, connectionId);
    }
  }
}
