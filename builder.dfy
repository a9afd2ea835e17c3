/** The workflow builder page (src/components/pages/WorkflowBuilder.jsx):
    its component state, the node and connection handlers, and the
    save / test / execute / deploy actions against the store. Toasts are
    returned as notices; navigation and the transient busy flags are not modelled. */
module Builder {
  import opened Wrappers
  import opened WorkflowGraph
  import opened WorkflowStore
  import opened TemplateService
  import opened TemplateCopy

  datatype Notice = Success(text: string) | Warning(text: string) | Failure(text: string)

  const SaveFirst := "Please save the workflow first"

  /** The workflow a new builder page starts with. */
  function NewWorkflow(): (w: Workflow)
    ensures w.nodes == [] && w.connections == [] && w.status == "draft"
    ensures w.id.None? && w.version.None?
    ensures w.name == "Untitled Workflow" && w.description == "New medical workflow"
  {
    Workflow(None, "Untitled Workflow", "New medical workflow", [], [], "draft", None)
  }

  /** loadFromTemplate: the template copied under fresh node and connection
      ids, as an unsaved draft; the connections keep their endpoints. */
  function TemplateWorkflow(t: Template, freshNodeIds: seq<string>, freshConnectionIds: seq<string>): (w: Workflow)
    requires |freshNodeIds| == |t.nodes| && |freshConnectionIds| == |t.connections|
    ensures |w.nodes| == |t.nodes| && |w.connections| == |t.connections|
  {
    Workflow(None, CopyName(t), t.description,
             RenameNodes(t.nodes, freshNodeIds),
             CopyConnectionsAsWritten(t.connections, freshConnectionIds),
             "draft", None)
  }

  /** The loaded workflow with each connection's endpoints moved to the renamed nodes. */
  function TemplateWorkflowCorrected(t: Template, freshNodeIds: seq<string>, freshConnectionIds: seq<string>): (w: Workflow)
    requires |freshNodeIds| == |t.nodes| && |freshConnectionIds| == |t.connections|
    ensures |w.nodes| == |t.nodes| && |w.connections| == |t.connections|
  {
    TemplateWorkflow(t, freshNodeIds, freshConnectionIds)
      .(connections := CopyConnections(t.nodes, freshNodeIds, t.connections, freshConnectionIds))
  }

  /** `workflow.Id` / `workflow?.Id` used as a condition: present and not 0. */
  predicate HasId(w: Workflow) {
    w.id.Some? && w.id.value != 0
  }

  /** A new workflow has no dangling connections and must be saved before it
      can be tested, executed or deployed. */
  lemma NewWorkflowNeedsSave()
    ensures NoDangling(NewWorkflow()) && !HasId(NewWorkflow())
  {
  }

  /** A workflow loaded from a template is an unsaved draft named after the
      template, of the same size, that must be saved before it can be
      tested, executed or deployed. */
  lemma TemplateWorkflowNeedsSave(t: Template, freshNodeIds: seq<string>, freshConnectionIds: seq<string>)
    requires |freshNodeIds| == |t.nodes| && |freshConnectionIds| == |t.connections|
    ensures var w := TemplateWorkflow(t, freshNodeIds, freshConnectionIds);
      && !HasId(w) && w.status == "draft"
      && w.name == t.name + " (Copy)" && w.description == t.description
      && |w.nodes| == |t.nodes| && |w.connections| == |t.connections|
  {
  }

  /** As written, when the fresh node ids are new, a template with a
      connection touching one of its nodes loads with a dangling connection. */
  lemma TemplateWorkflowDangles(t: Template, freshNodeIds: seq<string>, freshConnectionIds: seq<string>, k: nat, endpoint: string)
    requires |freshNodeIds| == |t.nodes| && |freshConnectionIds| == |t.connections|
    requires forall i :: 0 <= i < |freshNodeIds| ==> !HasNode(t.nodes, freshNodeIds[i])
    requires k < |t.connections| && HasNode(t.nodes, endpoint)
    requires endpoint == t.connections[k].sourceNodeId || endpoint == t.connections[k].targetNodeId
    ensures !NoDangling(TemplateWorkflow(t, freshNodeIds, freshConnectionIds))
  {
    AsWrittenDangles(t.nodes, freshNodeIds, t.connections, freshConnectionIds, k, endpoint);
  }

  /** With the corrected copy, a connected template loads as a connected,
      unsaved draft. */
  lemma TemplateWorkflowCorrectedConnected(t: Template, freshNodeIds: seq<string>, freshConnectionIds: seq<string>)
    requires |freshNodeIds| == |t.nodes| && |freshConnectionIds| == |t.connections|
    requires Connected(t.nodes, t.connections)
    ensures var w := TemplateWorkflowCorrected(t, freshNodeIds, freshConnectionIds);
      NoDangling(w) && !HasId(w) && w.status == "draft"
  {
    CopyKeepsConnected(t.nodes, freshNodeIds, t.connections, freshConnectionIds);
  }

  /** Saving a workflow that has no `Id` yet gives it one, so the test,
      execute and deploy guards let it through afterwards. */
  lemma SaveAssignsId(ws: seq<Workflow>, w: Workflow)
    requires AllHaveIds(ws) && w.id.None?
    ensures HasId(NewRecord(ws, AsData(w)))
  {
    CreateFreshId(ws, AsData(w));
  }

  /** Updating a record with a workflow's own data stores that workflow, with
      the stored version kept only where the workflow has none. */
  lemma UpdateWithOwnData(stored: Workflow, w: Workflow)
    requires w.id.Some?
    ensures Merge(stored, AsData(w)) == w.(version := if w.version.Some? then w.version else stored.version)
  {
  }

  /** Deploy stores the workflow with status "active". */
  lemma DeployActivates(ws: seq<Workflow>, w: Workflow)
    requires HasId(w) && FindIndex(ws, w.id.value) >= 0
    ensures ApplyUpdate(ws, w.id.value, AsData(w.(status := "active")))[FindIndex(ws, w.id.value)].status == "active"
  {
  }

  class BuilderPage {
    var workflow: Workflow
    var selected: Option<Node>
    var showExecutionPanel: bool

    constructor (w: Workflow)
      ensures workflow == w && selected == None && !showExecutionPanel
    {
      workflow := w;
      selected := None;
      showExecutionPanel := false;
    }

    /** onNodeSelect, and the configuration panel's close button with None. */
    method SelectNode(n: Option<Node>)
      modifies this
      ensures selected == n
      ensures workflow == old(workflow) && showExecutionPanel == old(showExecutionPanel)
    {
      selected := n;
    }

    method NodeAdd(n: Node)
      modifies this
      ensures workflow == AddNode(old(workflow), n)
      ensures selected == old(selected) && showExecutionPanel == old(showExecutionPanel)
    {
      workflow := AddNode(workflow, n);
    }

    method NodeUpdate(nodeId: string, p: NodePatch)
      modifies this
      ensures workflow == UpdateNode(old(workflow), nodeId, p)
      ensures selected == old(selected) && showExecutionPanel == old(showExecutionPanel)
    {
      workflow := UpdateNode(workflow, nodeId, p);
    }

    /** handleNodeDelete also clears the selection when it held the deleted node. */
    method NodeDelete(nodeId: string)
      modifies this
      ensures workflow == DeleteNode(old(workflow), nodeId)
      ensures selected == if old(selected).Some? && old(selected).value.id == nodeId then None else old(selected)
      ensures showExecutionPanel == old(showExecutionPanel)
    {
      workflow := DeleteNode(workflow, nodeId);
      if selected.Some? && selected.value.id == nodeId {
        selected := None;
      }
    }

    method ConnectionAdd(c: Connection)
      modifies this
      ensures workflow == AddConnection(old(workflow), c)
      ensures selected == old(selected) && showExecutionPanel == old(showExecutionPanel)
    {
      workflow := AddConnection(workflow, c);
    }

    method ConnectionDelete(connectionId: string)
      modifies this
      ensures workflow == DeleteConnection(old(workflow), connectionId)
      ensures selected == old(selected) && showExecutionPanel == old(showExecutionPanel)
    {
      workflow := DeleteConnection(workflow, connectionId);
    }

    /** handleSave: update when the workflow has an `Id`, create otherwise;
      the page then holds what the store returned. */
    method Save(store: Store) returns (notice: Notice)
      requires store.Valid()
      modifies this, store
      ensures store.Valid()
      ensures HasId(old(workflow)) ==>
        var id := old(workflow).id.value;
        var i := FindIndex(old(store.workflows), id);
        && store.workflows == ApplyUpdate(old(store.workflows), id, AsData(old(workflow)))
        && (i == -1 ==> workflow == old(workflow) && notice == Failure("Failed to save workflow"))
        && (i >= 0 ==> workflow == store.workflows[i] && notice == Success("Workflow saved successfully"))
      ensures !HasId(old(workflow)) ==>
        && workflow == NewRecord(old(store.workflows), AsData(old(workflow)))
        && store.workflows == old(store.workflows) + [workflow]
        && notice == Success("Workflow saved successfully")
      ensures selected == old(selected) && showExecutionPanel == old(showExecutionPanel)
    {
      if HasId(workflow) {
        var saved := store.Update(workflow.id.value, AsData(workflow));
        if saved.Err? {
          return Failure("Failed to save workflow");
        }
        workflow := saved.value;
      } else {
        workflow := store.Create(AsData(workflow));
      }
      notice := Success("Workflow saved successfully");
    }

    /** handleTest: warn when unsaved, otherwise run the store's test. */
    method Test(store: Store) returns (notice: Notice)
      ensures notice ==
        if !HasId(workflow) then Warning(SaveFirst)
        else if Lookup(store.workflows, workflow.id.value).Ok? then Success("Workflow test completed successfully")
        else Failure("Workflow test failed")
    {
      if !HasId(workflow) {
        return Warning(SaveFirst);
      }
      var result := store.TestWorkflow(workflow.id.value);
      notice := if result.Ok? then Success("Workflow test completed successfully") else Failure("Workflow test failed");
    }

    /** handleExecute: warn when unsaved, otherwise execute and open the execution panel. */
    method Execute(store: Store) returns (notice: Notice)
      modifies this
      ensures !HasId(old(workflow)) ==> notice == Warning(SaveFirst) && showExecutionPanel == old(showExecutionPanel)
      ensures HasId(old(workflow)) ==>
        if Lookup(store.workflows, old(workflow).id.value).Ok? then
          notice == Success("Workflow executed successfully") && showExecutionPanel
        else
          notice == Failure("Workflow execution failed") && showExecutionPanel == old(showExecutionPanel)
      ensures workflow == old(workflow) && selected == old(selected)
    {
      if !HasId(workflow) {
        return Warning(SaveFirst);
      }
      var result := store.ExecuteWorkflow(workflow.id.value);
      if result.Err? {
        return Failure("Workflow execution failed");
      }
      showExecutionPanel := true;
      notice := Success("Workflow executed successfully");
    }

    /** handleDeploy: warn when unsaved, otherwise store the workflow with status "active". */
    method Deploy(store: Store) returns (notice: Notice)
      requires store.Valid()
      modifies this, store
      ensures store.Valid()
      ensures !HasId(old(workflow)) ==>
        notice == Warning(SaveFirst) && workflow == old(workflow) && store.workflows == old(store.workflows)
      ensures HasId(old(workflow)) ==>
        var id := old(workflow).id.value;
        var i := FindIndex(old(store.workflows), id);
        && store.workflows == ApplyUpdate(old(store.workflows), id, AsData(old(workflow).(status := "active")))
        && (i == -1 ==> workflow == old(workflow) && notice == Failure("Failed to deploy workflow"))
        && (i >= 0 ==> workflow == store.workflows[i] && notice == Success("Workflow deployed successfully"))
      ensures selected == old(selected) && showExecutionPanel == old(showExecutionPanel)
    {
      if !HasId(workflow) {
        return Warning(SaveFirst);
      }
      var updated := store.Update(workflow.id.value, AsData(workflow.(status := "active")));
      if updated.Err? {
        return Failure("Failed to deploy workflow");
      }
      workflow := updated.value;
      notice := Success("Workflow deployed successfully");
    }
  }
}
