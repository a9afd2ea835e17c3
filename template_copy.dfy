/** Turning a template into a new workflow's content, as both the template
    gallery's import (src/components/pages/TemplateGallery.jsx) and the
    builder's load-from-template (src/components/pages/WorkflowBuilder.jsx)
    do: every node and every connection gets a fresh id. The fresh ids are
    parameters, one per node and one per connection, standing for the
    timestamp-and-random strings the pages generate. */
module TemplateCopy {
  import opened Seqs
  import opened WorkflowGraph
  import opened TemplateService

  /** The copy's name. */
  function CopyName(t: Template): string {
    t.name + " (Copy)"
  }

  /** `nodes.map(node => ({ ...node, id: fresh }))`. */
  function RenameNodes(nodes: seq<Node>, freshIds: seq<string>): (r: seq<Node>)
    requires |freshIds| == |nodes|
    ensures |r| == |nodes|
    ensures forall i :: 0 <= i < |r| ==> r[i] == nodes[i].(id := freshIds[i])
  {
    seq(|nodes|, i requires 0 <= i < |nodes| => nodes[i].(id := freshIds[i]))
  }

  /** The connections as the pages write them: new ids, endpoints untouched. */
  function CopyConnectionsAsWritten(connections: seq<Connection>, freshIds: seq<string>): (r: seq<Connection>)
    requires |freshIds| == |connections|
    ensures |r| == |connections|
    ensures forall i :: 0 <= i < |r| ==> r[i] == connections[i].(id := freshIds[i])
  {
    seq(|connections|, i requires 0 <= i < |connections| => connections[i].(id := freshIds[i]))
  }

  /** The fresh id of the first template node whose old id is `id`, or `id`
      itself when no node has it (a connection that already dangled). */
  function RemapEndpoint(nodes: seq<Node>, freshNodeIds: seq<string>, id: string): (r: string)
    requires |freshNodeIds| == |nodes|
    ensures HasNode(nodes, id) ==> exists i :: 0 <= i < |nodes| && nodes[i].id == id && r == freshNodeIds[i]
  {
    var i := IndexOf(nodes, (n: Node) => n.id == id);
    if i == -1 then id else freshNodeIds[i]
  }

  /** The connections with new ids and with endpoints moved to the renamed nodes. */
  function CopyConnections(nodes: seq<Node>, freshNodeIds: seq<string>, connections: seq<Connection>, freshIds: seq<string>): (r: seq<Connection>)
    requires |freshNodeIds| == |nodes| && |freshIds| == |connections|
    ensures |r| == |connections|
    ensures forall i :: 0 <= i < |r| ==>
      r[i] == connections[i].(id := freshIds[i],
                              sourceNodeId := RemapEndpoint(nodes, freshNodeIds, connections[i].sourceNodeId),
                              targetNodeId := RemapEndpoint(nodes, freshNodeIds, connections[i].targetNodeId))
  {
    seq(|connections|, i requires 0 <= i < |connections| =>
      connections[i].(id := freshIds[i],
                      sourceNodeId := RemapEndpoint(nodes, freshNodeIds, connections[i].sourceNodeId),
                      targetNodeId := RemapEndpoint(nodes, freshNodeIds, connections[i].targetNodeId)))
  }

  /** A node that existed in the template exists under its fresh id in the copy. */
  lemma RemappedEndpointExists(nodes: seq<Node>, freshNodeIds: seq<string>, id: string)
    requires |freshNodeIds| == |nodes|
    requires HasNode(nodes, id)
    ensures HasNode(RenameNodes(nodes, freshNodeIds), RemapEndpoint(nodes, freshNodeIds, id))
  {
    var renamed := RenameNodes(nodes, freshNodeIds);
    var i :| 0 <= i < |nodes| && nodes[i].id == id && RemapEndpoint(nodes, freshNodeIds, id) == freshNodeIds[i];
    assert renamed[i] in renamed && renamed[i].id == freshNodeIds[i];
  }

  /** Copying with remapped endpoints keeps a connected template connected,
      whatever fresh ids are chosen. */
  lemma CopyKeepsConnected(nodes: seq<Node>, freshNodeIds: seq<string>, connections: seq<Connection>, freshIds: seq<string>)
    requires |freshNodeIds| == |nodes| && |freshIds| == |connections|
    requires Connected(nodes, connections)
    ensures Connected(RenameNodes(nodes, freshNodeIds), CopyConnections(nodes, freshNodeIds, connections, freshIds))
  {
    var renamed := RenameNodes(nodes, freshNodeIds);
    var copied := CopyConnections(nodes, freshNodeIds, connections, freshIds);
    forall c | c in copied
      ensures HasNode(renamed, c.sourceNodeId) && HasNode(renamed, c.targetNodeId)
    {
      var k :| 0 <= k < |copied| && copied[k] == c;
      assert connections[k] in connections;
      RemappedEndpointExists(nodes, freshNodeIds, connections[k].sourceNodeId);
      RemappedEndpointExists(nodes, freshNodeIds, connections[k].targetNodeId);
    }
  }

  /** A name is a node id of the renamed copy exactly when it is one of the fresh ids. */
  lemma RenamedHasNode(nodes: seq<Node>, freshNodeIds: seq<string>, id: string)
    requires |freshNodeIds| == |nodes|
    ensures HasNode(RenameNodes(nodes, freshNodeIds), id) <==> id in freshNodeIds
  {
    var renamed := RenameNodes(nodes, freshNodeIds);
    if HasNode(renamed, id) {
      var n :| n in renamed && n.id == id;
      var k :| 0 <= k < |renamed| && renamed[k] == n;
      assert freshNodeIds[k] == id;
    }
    if id in freshNodeIds {
      var k :| 0 <= k < |freshNodeIds| && freshNodeIds[k] == id;
      assert renamed[k] in renamed;
    }
  }

  /** As written, the copy is connected exactly when every endpoint of the
      template's connections happens to be one of the fresh node ids. */
  lemma AsWrittenConnectedIff(nodes: seq<Node>, freshNodeIds: seq<string>, connections: seq<Connection>, freshIds: seq<string>)
    requires |freshNodeIds| == |nodes| && |freshIds| == |connections|
    ensures Connected(RenameNodes(nodes, freshNodeIds), CopyConnectionsAsWritten(connections, freshIds)) <==>
      forall c :: c in connections ==> c.sourceNodeId in freshNodeIds && c.targetNodeId in freshNodeIds
  {
    var renamed := RenameNodes(nodes, freshNodeIds);
    var copied := CopyConnectionsAsWritten(connections, freshIds);
    if Connected(renamed, copied) {
      forall c | c in connections
        ensures c.sourceNodeId in freshNodeIds && c.targetNodeId in freshNodeIds
      {
        var k :| 0 <= k < |connections| && connections[k] == c;
        assert copied[k] in copied;
        RenamedHasNode(nodes, freshNodeIds, c.sourceNodeId);
        RenamedHasNode(nodes, freshNodeIds, c.targetNodeId);
      }
    }
    if forall c :: c in connections ==> c.sourceNodeId in freshNodeIds && c.targetNodeId in freshNodeIds {
      forall c | c in copied
        ensures HasNode(renamed, c.sourceNodeId) && HasNode(renamed, c.targetNodeId)
      {
        var k :| 0 <= k < |copied| && copied[k] == c;
        assert connections[k] in connections;
        RenamedHasNode(nodes, freshNodeIds, c.sourceNodeId);
        RenamedHasNode(nodes, freshNodeIds, c.targetNodeId);
      }
    }
  }

  /** As written, when no fresh id is an old node id, every connection that
      touches a template node dangles in the copy: the endpoint keeps the old
      id, which no renamed node has. */
  lemma AsWrittenDangles(nodes: seq<Node>, freshNodeIds: seq<string>, connections: seq<Connection>, freshIds: seq<string>, k: nat, endpoint: string)
    requires |freshNodeIds| == |nodes| && |freshIds| == |connections|
    requires forall i :: 0 <= i < |freshNodeIds| ==> !HasNode(nodes, freshNodeIds[i])
    requires k < |connections| && HasNode(nodes, endpoint)
    requires endpoint == connections[k].sourceNodeId || endpoint == connections[k].targetNodeId
    ensures !HasNode(RenameNodes(nodes, freshNodeIds), endpoint)
    ensures !Connected(RenameNodes(nodes, freshNodeIds), CopyConnectionsAsWritten(connections, freshIds))
  {
    var copied := CopyConnectionsAsWritten(connections, freshIds);
    RenamedHasNode(nodes, freshNodeIds, endpoint);
    assert copied[k] in copied;
  }

  /** With the endpoints untouched, a connected two-node template whose nodes
      get fresh ids yields a connection between two ids no node has. */
  lemma CopyAsWrittenDangles()
    ensures var pos := Position(0.0, 0.0);
      var nodes := [Node("node-1", "patient-intake", pos, [], "idle"), Node("node-2", "diagnosis", pos, [], "idle")];
      var connections := [Connection("conn-1", "node-1", "output", "node-2", "input")];
      var freshNodeIds := ["node-a", "node-b"];
      && Connected(nodes, connections)
      && !Connected(RenameNodes(nodes, freshNodeIds), CopyConnectionsAsWritten(connections, ["conn-a"]))
      && Connected(RenameNodes(nodes, freshNodeIds), CopyConnections(nodes, freshNodeIds, connections, ["conn-a"]))
  {
    var pos := Position(0.0, 0.0);
    var nodes := [Node("node-1", "patient-intake", pos, [], "idle"), Node("node-2", "diagnosis", pos, [], "idle")];
    var connections := [Connection("conn-1", "node-1", "output", "node-2", "input")];
    var freshNodeIds := ["node-a", "node-b"];
    assert nodes[0] in nodes && nodes[1] in nodes;
    var renamed := RenameNodes(nodes, freshNodeIds);
    var asWritten := CopyConnectionsAsWritten(connections, ["conn-a"]);
    assert asWritten[0] in asWritten;
    assert !HasNode(renamed, "node-1") by {
      forall n | n in renamed ensures n.id != "node-1" {
        var k :| 0 <= k < |renamed| && renamed[k] == n;
      }
    }
    CopyKeepsConnected(nodes, freshNodeIds, connections, ["conn-a"]);
  }
}
