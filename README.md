# A verified model of the MediFlow workflow editor core

MediFlow is a React editor for medical workflows. A workflow is a record
holding a list of nodes (patient intake, diagnosis, notification, …) and a
list of connections. Each connection runs from an output port of one node to
an input port of another. This project models the logic behind the editor's
screens, together with its three in-memory services, and proves what that
logic promises:

- The builder page's graph edits (add, update and delete for nodes and
  connections). They keep every connection attached to existing nodes and
  keep untouched entries in order.
- The `Id` guards on save, test, execute and deploy. Without a stored `Id`
  the last three only warn.
- The canvas's click-to-connect state machine on ports, the mouse-up reset,
  the node record built when a palette entry is dropped, and which
  connections are drawn.
- The workflow store (`workflowService`): an array changed in place by
  `push`, index assignment and `splice`, with fresh ids computed as max + 1.
- The template catalog (`templateService`) and the node catalog
  (`nodeService`), including config validation.
- The template gallery's category and text filter, and the conversion of a
  template into a new workflow.
- The configuration panel: the edited config map, the value shown for each
  field, the widget chosen for it, its options and its label.

Modules, one per file:

| file | module | models |
|---|---|---|
| wrappers.dfy | `Wrappers` | `Option`, `Result` |
| seqs.dfy | `Seqs` | `filter`, `findIndex`, `find`, subsequences |
| text.dfy | `Text` | ASCII `toLowerCase`/`toUpperCase`, `includes`, `trim` |
| values.dfy | `Values` | JSON values, truthiness, objects as ordered key lists |
| workflow.dfy | `WorkflowGraph` | nodes, connections, workflows, the pure graph edits |
| workflow_store.dfy | `WorkflowStore` | the `workflows` array as class `Store` |
| builder.dfy | `Builder` | the builder page as class `BuilderPage` |
| canvas.dfy | `Canvas` | the port state machine and class `CanvasState` |
| templates.dfy | `TemplateService` | template lookup and search |
| template_copy.dfy | `TemplateCopy` | turning a template into workflow content |
| node_catalog.dfy | `NodeService` | node template lookup and `validateNodeConfig` |
| gallery.dfy | `Gallery` | `filterTemplates`, `handleImport` |
| config_panel.dfy | `ConfigPanel` | field logic and class `Panel` |

Modelling choices:

- Ids generated from `Date.now()` and `Math.random()` are parameters: one
  fresh id per node and one per connection.
- Service calls are synchronous methods. The JSON fixtures are the store's
  constructor argument, the template list, or a `Catalog` value.
- A workflow's `Id` is `Option<int>`. `if (workflow.Id)` is JavaScript
  truthiness, so it holds when the `Id` is present and not 0.
- Object spread is a patch record whose `Option` fields override the record
  being spread into (`NodePatch`, `WorkflowData`).
- A JavaScript object whose key order matters (a node's `config`) is a list
  of (key, value) pairs. `{ ...o, [k]: v }` replaces `k` in place or appends
  it.
- `create` spreads the caller's data after the fresh `Id`, so an `Id` in the
  data overrides it. The model keeps this as written. It matters when the
  builder saves a workflow whose `Id` is 0: that workflow fails the truthiness
  guard, so it is created again under `Id` 0. The freshness lemmas therefore
  assume data without an `Id`.
- The gallery tests the query with `trim()` but searches with the untrimmed,
  lower-cased query, exactly as written (`Gallery.MatchesQuery`).

## Model

| member | source | states |
|---|---|---|
| Seqs.Filter | src/components/pages/WorkflowBuilder.jsx:187-190 | `filter` keeps exactly the elements satisfying the predicate, never more of them than the input has |
| Seqs.FilterIsSubseq | src/components/pages/WorkflowBuilder.jsx:187-190 | a filtered list keeps the relative order of what it keeps |
| Seqs.FilterCount | src/components/pages/WorkflowBuilder.jsx:187-190 | `filter` keeps every copy of a kept element and drops every copy of a rejected one (multiset counts) |
| Seqs.FilterFuse | src/components/pages/TemplateGallery.jsx:60-70 | two filters in a row equal one filter by any predicate that is their conjunction |
| Seqs.FilterDropAt | src/services/api/workflowService.js:60 | removing one rejected element does not change the filter's result |
| Seqs.IndexOf | src/services/api/workflowService.js:40 | `findIndex`: -1 iff no element matches, otherwise the first matching index |
| Seqs.FindAppend | src/services/api/nodeService.js:13-20 | `find` on a concatenation returns the first list's match if it has one, otherwise the second list's |
| Seqs.SubseqTrans | src/components/pages/TemplateGallery.jsx:57-73 | a subsequence of a subsequence is a subsequence |
| Text.Lower | src/services/api/templateService.js:29 | `toLowerCase` maps each ASCII capital to its lower-case letter and keeps every other character |
| Text.Includes | src/services/api/templateService.js:31-33 | `includes` holds iff the needle occurs at some index of the haystack |
| Text.TrimStart | src/components/pages/TemplateGallery.jsx:64 | only whitespace is removed from the front, and the rest starts with a non-space |
| Text.TrimEnd | src/components/pages/TemplateGallery.jsx:64 | only whitespace is removed from the back, and the rest ends with a non-space |
| Text.Trim | src/components/pages/TemplateGallery.jsx:64 | `trim()` is never longer than its input and neither starts nor ends with whitespace |
| Text.IsBlank | src/components/pages/TemplateGallery.jsx:64 | `!s.trim()`; `BlankIffAllSpace` gives that it holds iff every character is whitespace |
| Text.BlankIffAllSpace | src/components/pages/TemplateGallery.jsx:64 | `trim()` is empty iff every character is ECMAScript whitespace |
| Values.Get | src/components/organisms/ConfigurationPanel.jsx:50 | a lookup is `undefined` iff the key is absent, otherwise it returns that key's entry |
| Values.Set | src/components/organisms/ConfigurationPanel.jsx:39 | `{ ...o, [k]: v }` on an ordered key list; `SetGet`, `SetKeys` and `SetKeepsUniqueKeys` give what it reads, its key order and its unique keys |
| Values.SetGet | src/components/organisms/ConfigurationPanel.jsx:39 | after `{ ...o, [k]: v }`, `k` reads `v` and every other key reads its old value |
| Values.SetKeys | src/components/organisms/ConfigurationPanel.jsx:39 | the spread update keeps the key order and appends `k` only when it is new |
| Values.SetKeepsUniqueKeys | src/components/organisms/ConfigurationPanel.jsx:39 | the spread update never duplicates a key |
| WorkflowGraph.AddNode | src/components/pages/WorkflowBuilder.jsx:168-173 | the node is appended, the old nodes stay in order, the connections and all other fields are unchanged |
| WorkflowGraph.MergeNode | src/components/pages/WorkflowBuilder.jsx:178 | `{ ...node, ...updates }`; `UpdateNode` states field by field that each set patch field overrides and every other field is kept |
| WorkflowGraph.UpdateNode | src/components/pages/WorkflowBuilder.jsx:175-182 | only nodes with the id change: each patch field overrides, every other field is kept, and count and order are kept |
| WorkflowGraph.DeleteNode | src/components/pages/WorkflowBuilder.jsx:184-191 | exactly the nodes with the id and the connections touching it are removed, the rest keep their order |
| WorkflowGraph.AddConnection | src/components/pages/WorkflowBuilder.jsx:198-203 | the connection is appended and the nodes are untouched |
| WorkflowGraph.DeleteConnection | src/components/pages/WorkflowBuilder.jsx:205-210 | exactly the connections with the id are removed, in order, and the nodes are untouched |
| WorkflowGraph.DeleteNodeKeepsNoDangling | src/components/pages/WorkflowBuilder.jsx:184-191 | a node delete keeps every connection attached to existing nodes |
| WorkflowGraph.DeleteNodeRemovesAllTraces | src/components/pages/WorkflowBuilder.jsx:184-191 | after the delete no node has the id and no connection touches it |
| WorkflowGraph.AddNodeKeepsNoDangling | src/components/pages/WorkflowBuilder.jsx:168-173 | adding a node keeps every connection attached |
| WorkflowGraph.AddConnectionKeepsNoDangling | src/components/pages/WorkflowBuilder.jsx:198-203 | adding a connection between existing nodes keeps every connection attached |
| WorkflowGraph.DeleteConnectionKeepsNoDangling | src/components/pages/WorkflowBuilder.jsx:205-210 | deleting connections keeps every connection attached |
| WorkflowGraph.UpdateNodeKeepsIds | src/components/pages/WorkflowBuilder.jsx:175-182 | a patch that does not change the id keeps the node id list, and so keeps connections attached |
| WorkflowGraph.UpdateNodeIdempotent | src/components/pages/WorkflowBuilder.jsx:175-182 | applying the same patch twice is applying it once |
| WorkflowGraph.DeleteUndoesAddNode | src/components/pages/WorkflowBuilder.jsx:168-191 | deleting a node just added under a new id restores the workflow |
| WorkflowGraph.DeleteUndoesAddConnection | src/components/pages/WorkflowBuilder.jsx:198-210 | deleting a connection just added under a new id restores the workflow |
| WorkflowStore.FindIndex | src/services/api/workflowService.js:40 | -1 iff no record has the `Id`, otherwise the first record that has it |
| WorkflowStore.MaxId | src/services/api/workflowService.js:25 | `Math.max(...ids, 0)` bounds every stored `Id` and is 0 or one of them |
| WorkflowStore.Lookup | src/services/api/workflowService.js:13-20 | the stored record with the `Id`, or "Workflow not found" exactly when none has it |
| WorkflowStore.NewRecord | src/services/api/workflowService.js:24-33 | the record `create` pushes; `CreateFreshId`, `CreateForcesDraft` and `CreateThenLookup` give its fresh `Id`, draft status, version 1 and list defaults |
| WorkflowStore.Merge | src/services/api/workflowService.js:45-49 | `{ ...workflows[index], ...workflowData }`; `UpdateWithOwnData` gives that merging a workflow's own data stores that workflow |
| WorkflowStore.ApplyUpdate | src/services/api/workflowService.js:40-50 | the store after `update`; `UpdateFrame` and `UpdateThenLookup` give that only the first match changes and is then found merged |
| WorkflowStore.ApplyDelete | src/services/api/workflowService.js:55-61 | the store after `delete`; `DeleteFrame`, `DeleteKeepsOthers` and `DeleteThenLookup` give the splice, what survives and that the `Id` is gone |
| WorkflowStore.Store.constructor | src/services/api/workflowService.js:3 | the store starts as a copy of the fixtures |
| WorkflowStore.Store.GetAll | src/services/api/workflowService.js:8-11 | returns the stored list and changes nothing |
| WorkflowStore.Store.GetById | src/services/api/workflowService.js:13-20 | returns `Lookup` of the stored list and changes nothing |
| WorkflowStore.Store.Create | src/services/api/workflowService.js:22-36 | appends exactly the new record and returns it |
| WorkflowStore.Store.Update | src/services/api/workflowService.js:38-51 | fails with "Workflow not found" and changes nothing when no record matches, otherwise replaces the first match by the merge and returns it |
| WorkflowStore.Store.Delete | src/services/api/workflowService.js:53-62 | fails and changes nothing when no record matches, otherwise splices out the first match and returns true |
| WorkflowStore.Store.ExecuteWorkflow | src/services/api/workflowService.js:64-80 | fails for an unknown `Id`, otherwise reports success with `nodesExecuted` equal to that workflow's node count, and changes nothing |
| WorkflowStore.Store.TestWorkflow | src/services/api/workflowService.js:82-99 | fails for an unknown `Id`, otherwise reports every check passed, and changes nothing |
| WorkflowStore.CreateFreshId | src/services/api/workflowService.js:25 | the new `Id` is at least 1, differs from every stored `Id` and keeps ids unique |
| WorkflowStore.CreateForcesDraft | src/services/api/workflowService.js:24-33 | the record has version 1 and status "draft" whatever the data says, and missing nodes or connections become empty lists |
| WorkflowStore.CreateThenLookup | src/services/api/workflowService.js:22-36 | looking up the new `Id` after a create returns the new record |
| WorkflowStore.UpdateFrame | src/services/api/workflowService.js:40-50 | an update keeps the length and every record except the first match |
| WorkflowStore.UpdateThenLookup | src/services/api/workflowService.js:38-51 | with unique ids, looking up the `Id` after an update returns the merged record, and ids stay unique |
| WorkflowStore.DeleteFrame | src/services/api/workflowService.js:55-61 | a delete of a stored `Id` shortens the list by one, keeping the records before and after the match |
| WorkflowStore.DeleteKeepsOthers | src/services/api/workflowService.js:55-61 | a delete keeps every record with another `Id`, in order |
| WorkflowStore.DeleteThenLookup | src/services/api/workflowService.js:53-62 | with unique ids, the deleted `Id` is then not found, and ids stay unique |
| Builder.NewWorkflow | src/components/pages/WorkflowBuilder.jsx:37-43 | a new workflow is "Untitled Workflow", status "draft", with no nodes, connections or `Id` |
| Builder.NewWorkflowNeedsSave | src/components/pages/WorkflowBuilder.jsx:37-43 | a new workflow has no dangling connections and fails the `Id` guard |
| Builder.HasId | src/components/pages/WorkflowBuilder.jsx:99 | `if (workflow.Id)`: an `Id` is present and not 0; `SaveAssignsId` gives that a create makes it hold |
| Builder.TemplateWorkflow | src/components/pages/WorkflowBuilder.jsx:69-81 | the workflow `loadFromTemplate` sets: as many nodes and connections as the template. The connections keep the template's endpoints, the as-written half of the first Findings row |
| Builder.TemplateWorkflowCorrected | src/components/pages/WorkflowBuilder.jsx:69-81 | the same workflow with each connection's endpoints moved to the renamed nodes, the corrected half of the first Findings row |
| Builder.TemplateWorkflowNeedsSave | src/components/pages/WorkflowBuilder.jsx:69-81 | a workflow loaded from a template is an unsaved draft named after the template, with its description and as many nodes and connections as the template |
| Builder.TemplateWorkflowDangles | src/components/pages/WorkflowBuilder.jsx:72-79 | as written, when no fresh node id is an old one, a template with a connection touching one of its nodes loads with a dangling connection |
| Builder.TemplateWorkflowCorrectedConnected | src/components/pages/WorkflowBuilder.jsx:69-81 | with the corrected copy, a connected template loads as a connected, unsaved draft |
| Builder.SaveAssignsId | src/components/pages/WorkflowBuilder.jsx:99-104 | creating a workflow that has no `Id` gives it one that passes the guard |
| Builder.UpdateWithOwnData | src/components/pages/WorkflowBuilder.jsx:100 | updating with the workflow's own data stores that workflow, keeping the stored version only when it has none |
| Builder.DeployActivates | src/components/pages/WorkflowBuilder.jsx:157-160 | deploy stores the workflow with status "active" |
| Builder.BuilderPage.constructor | src/components/pages/WorkflowBuilder.jsx:37-44 | the page holds the given workflow, with no selection and the execution panel hidden |
| Builder.BuilderPage.SelectNode | src/components/pages/WorkflowBuilder.jsx:19 | only the selection changes |
| Builder.BuilderPage.NodeAdd | src/components/pages/WorkflowBuilder.jsx:168-173 | the workflow becomes `AddNode` of it, nothing else changes |
| Builder.BuilderPage.NodeUpdate | src/components/pages/WorkflowBuilder.jsx:175-182 | the workflow becomes `UpdateNode` of it, nothing else changes |
| Builder.BuilderPage.NodeDelete | src/components/pages/WorkflowBuilder.jsx:184-196 | the workflow becomes `DeleteNode` of it. The selection is cleared iff the selected node has that id |
| Builder.BuilderPage.ConnectionAdd | src/components/pages/WorkflowBuilder.jsx:198-203 | the workflow becomes `AddConnection` of it, nothing else changes |
| Builder.BuilderPage.ConnectionDelete | src/components/pages/WorkflowBuilder.jsx:205-210 | the workflow becomes `DeleteConnection` of it, nothing else changes |
| Builder.BuilderPage.Save | src/components/pages/WorkflowBuilder.jsx:92-113 | with an `Id` the store is updated, otherwise a record is created. The page then holds the stored result and shows the success toast, or on failure keeps its workflow and shows the failure toast |
| Builder.BuilderPage.Test | src/components/pages/WorkflowBuilder.jsx:115-130 | without an `Id` only the save-first warning, otherwise success or failure as the store's test of that `Id` reports |
| Builder.BuilderPage.Execute | src/components/pages/WorkflowBuilder.jsx:132-148 | without an `Id` only the warning. Otherwise success opens the execution panel and failure leaves it as it was |
| Builder.BuilderPage.Deploy | src/components/pages/WorkflowBuilder.jsx:150-166 | without an `Id` only the warning and no store change. Otherwise the store is updated with status "active" and the page holds the result |
| Canvas.NewConnection | src/components/organisms/WorkflowCanvas.jsx:118-124 | the connection gets the given id and joins the pending node and the clicked node; when an input is clicked, the pending node is the source and the clicked node the target |
| Canvas.PortClickStep | src/components/organisms/WorkflowCanvas.jsx:114-131 | `handlePortClick` as a step on the `connecting` slot; `IdleClick`, `PendingClickClears`, `EmitIff`, `NoSelfLoop`, `StepKeepsPendingOutput` and `EmittedOrientation` give its behaviour |
| Canvas.IdleClick | src/components/organisms/WorkflowCanvas.jsx:128-130 | with nothing pending an output click becomes the pending port, an input click leaves the slot empty, and nothing is emitted |
| Canvas.PendingClickClears | src/components/organisms/WorkflowCanvas.jsx:115-127 | with a port pending, every click clears the slot |
| Canvas.EmitIff | src/components/organisms/WorkflowCanvas.jsx:115-126 | a connection is emitted iff a port is pending on another node and the clicked port has the other kind |
| Canvas.NoSelfLoop | src/components/organisms/WorkflowCanvas.jsx:116 | an emitted connection never joins a node to itself |
| Canvas.StepKeepsPendingOutput | src/components/organisms/WorkflowCanvas.jsx:127-130 | the slot never holds an input port |
| Canvas.EmittedOrientation | src/components/organisms/WorkflowCanvas.jsx:118-124 | the pending output port is the source and the clicked input port is the target |
| Canvas.EmittedKeepsNoDangling | src/components/organisms/WorkflowCanvas.jsx:114-131 | a connection emitted between rendered nodes keeps every connection attached |
| Canvas.ClickRunAsWritten | src/components/organisms/WorkflowCanvas.jsx:81-131 | a run of port clicks as the browser delivers them: the canvas's mouse-up empties the slot before each click, the as-written half of the second Findings row |
| Canvas.ClickRun | src/components/organisms/WorkflowCanvas.jsx:114-131 | a run of port clicks where each click sees the slot the previous one left, the corrected half of the second Findings row |
| Canvas.ClickRunAsWrittenNeverConnects | src/components/organisms/WorkflowCanvas.jsx:81-131 | as written, no sequence of port clicks, from any slot, ever adds a connection |
| Canvas.ClickRunConnects | src/components/organisms/WorkflowCanvas.jsx:114-131 | corrected, clicking an output port and then an input port of another node adds exactly the connection from the one to the other |
| Canvas.ClickRunSound | src/components/organisms/WorkflowCanvas.jsx:114-131 | corrected, any run of clicks leaves only an output pending and adds no self-loop |
| Canvas.DroppedNode | src/components/organisms/WorkflowCanvas.jsx:41-47 | the node `handleDrop` builds; `DroppedNodeValidation` gives what validating it reports |
| Canvas.Drop | src/components/organisms/WorkflowCanvas.jsx:31-49 | a node is added iff the drag carried one, and it has the new id, the palette entry's type and config, status "idle" and the drop position |
| Canvas.DrawnConnections | src/components/organisms/WorkflowCanvas.jsx:169-173 | exactly the connections whose two endpoint nodes exist are drawn, in order |
| Canvas.AllDrawnWhenConnected | src/components/organisms/WorkflowCanvas.jsx:169-173 | in a workflow without dangling connections every connection is drawn |
| Canvas.DroppedNodeValidation | src/components/organisms/WorkflowCanvas.jsx:41-47 | a freshly dropped node, carrying its palette entry's defaults, fails validation exactly on the fields whose default is null or "" |
| Canvas.CanvasState.constructor | src/components/organisms/WorkflowCanvas.jsx:19-25 | nothing is pending, panned or dragged |
| Canvas.CanvasState.PortClick | src/components/organisms/WorkflowCanvas.jsx:114-131 | steps the slot as `PortClickStep` says, returns its emitted connection, and keeps only outputs pending |
| Canvas.CanvasState.MouseDown | src/components/organisms/WorkflowCanvas.jsx:57-62 | a press on the background starts panning, anything else changes nothing |
| Canvas.CanvasState.NodeMouseDown | src/components/organisms/WorkflowCanvas.jsx:103-112 | the pressed node becomes the dragged node and is selected |
| Canvas.CanvasState.MouseUp | src/components/organisms/WorkflowCanvas.jsx:81-85 | panning, the dragged node and the pending port are all reset |
| Canvas.CanvasState.PortClickGesture | src/components/organisms/WorkflowCanvas.jsx:81-131 | a click on a port as written: mouse-up, then `handlePortClick` on the emptied slot, which never emits a connection |
| Canvas.CanvasState.MouseUpOverPort | src/components/organisms/WorkflowCanvas.jsx:81-85 | corrected mouse-up ending a port click: panning and dragging end, the pending port stays |
| Canvas.CanvasState.PortClickGestureCorrected | src/components/organisms/WorkflowCanvas.jsx:114-131 | a port click with the corrected mouse-up steps the slot exactly as `PortClickStep` says |
| TemplateService.GetAll | src/services/api/templateService.js:8-11 | a copy of the template list |
| TemplateService.GetById | src/services/api/templateService.js:13-20 | the first template with the `Id`, or "Template not found" exactly when none has it |
| TemplateService.GetByCategory | src/services/api/templateService.js:22-25 | exactly the templates of that category, in stored order |
| TemplateService.SearchTemplates | src/services/api/templateService.js:27-35 | a template is kept iff the lower-cased query occurs in its lower-cased name, description or some tag, in stored order |
| TemplateService.EmptyQueryMatchesAll | src/services/api/templateService.js:27-35 | the empty query returns every template |
| TemplateService.SearchIgnoresQueryCase | src/services/api/templateService.js:29 | lower-casing the query first does not change the result |
| TemplateCopy.RenameNodes | src/components/pages/TemplateGallery.jsx:88-91 | every node keeps all its fields except the id, which becomes its fresh id |
| TemplateCopy.RenamedHasNode | src/components/pages/TemplateGallery.jsx:88-91 | a name is a node id of the renamed copy iff it is one of the fresh ids |
| TemplateCopy.CopyConnectionsAsWritten | src/components/pages/TemplateGallery.jsx:92-95 | every connection keeps all its fields, endpoints included, except the id |
| TemplateCopy.RemapEndpoint | src/components/pages/TemplateGallery.jsx:88-95 | an endpoint naming a template node becomes the fresh id given to that node |
| TemplateCopy.CopyConnections | src/components/pages/TemplateGallery.jsx:92-95 | every connection gets its fresh id and has both endpoints moved to the renamed nodes |
| TemplateCopy.CopyKeepsConnected | src/components/pages/TemplateGallery.jsx:88-95 | copying a connected template keeps it connected, whatever fresh ids are chosen |
| TemplateCopy.CopyAsWrittenDangles | src/components/pages/TemplateGallery.jsx:88-95 | as written, a connected two-node template yields a connection to ids no node has, and the corrected copy does not |
| TemplateCopy.AsWrittenConnectedIff | src/components/pages/TemplateGallery.jsx:88-95 | as written, the copy is connected iff every endpoint of the template's connections is one of the fresh node ids |
| TemplateCopy.AsWrittenDangles | src/components/pages/TemplateGallery.jsx:88-95 | as written, when no fresh id is an old node id, a connection touching a template node dangles in the copy |
| NodeService.GetNodeTemplates | src/services/api/nodeService.js:6-9 | a copy of the catalog |
| NodeService.GetNodeTemplate | src/services/api/nodeService.js:11-25 | "Node template not found" exactly when no list has the type, otherwise a template of that type |
| NodeService.SearchOrder | src/services/api/nodeService.js:13-20 | the match comes from clinical, then administrative, then communication, then data |
| NodeService.ValidateNodeConfig | src/services/api/nodeService.js:27-45 | fails as the lookup does for an unknown type. Otherwise its errors are exactly the missing-field messages in key order, and it is valid iff they are empty |
| NodeService.MissingFields | src/services/api/nodeService.js:33-39 | the errors over the template entries in order; the `MissingFields…`, `ErrorIffMissing`, `AtMostOneErrorPerField` and `ErrorsInKeyOrder` lemmas give exactly which fields, once each, in key order |
| NodeService.MissingMessageInjective | src/services/api/nodeService.js:37 | distinct fields give distinct messages |
| NodeService.MissingFieldsComplete | src/services/api/nodeService.js:35-39 | every missing field is reported |
| NodeService.MissingFieldsSound | src/services/api/nodeService.js:35-39 | every reported message names a missing field |
| NodeService.MissingFieldsMembership | src/services/api/nodeService.js:35-39 | a field's message is reported iff some entry with that key is missing |
| NodeService.ErrorIffMissing | src/services/api/nodeService.js:36 | with unique keys, `f` is reported iff `config[f]` is falsy and the default of `f` is neither `false` nor `0` |
| NodeService.AtMostOneErrorPerField | src/services/api/nodeService.js:33-39 | no more errors than fields and no message twice |
| NodeService.ErrorsInKeyOrder | src/services/api/nodeService.js:33-39 | errors appear in the order of the template's keys |
| NodeService.ValidIffNothingMissing | src/services/api/nodeService.js:41-44 | the error list is empty iff no field is missing |
| Gallery.MatchesQuery | src/components/pages/TemplateGallery.jsx:64-71 | the text filter: off for a blank query, otherwise the untrimmed lower-cased query must occur in the name, description or a tag; `ByQuery` and `FilterTemplates` use it |
| Gallery.ByCategory | src/components/pages/TemplateGallery.jsx:60-62 | "all" keeps every template, any other category exactly those of that category, in order |
| Gallery.ByQuery | src/components/pages/TemplateGallery.jsx:64-71 | a blank query keeps every template, any other exactly those matching its lower-cased form, in order |
| Gallery.FilterTemplates | src/components/pages/TemplateGallery.jsx:57-74 | a template is shown iff it passes both filters, in loaded order |
| Gallery.DefaultShowsAll | src/components/pages/TemplateGallery.jsx:57-74 | "all" with a blank query shows every template |
| Gallery.BlankQueryIsCategory | src/components/pages/TemplateGallery.jsx:60-64 | with a blank query the gallery shows what `getByCategory` returns |
| Gallery.AllCategoryIsSearch | src/components/pages/TemplateGallery.jsx:64-70 | under "all", a non-blank query shows what `searchTemplates` returns |
| Gallery.FilterIsSearchWithinCategory | src/components/pages/TemplateGallery.jsx:57-74 | both filters on is `searchTemplates` over `getByCategory` |
| Gallery.FilterIsOnePass | src/components/pages/TemplateGallery.jsx:57-74 | both filters on is one filter with the two tests joined |
| Gallery.ImportData | src/components/pages/TemplateGallery.jsx:85-96 | the data passed to `create`: no `Id`, status or version, and one node and one connection per template entry. Connections keep their endpoints, the as-written half of the first Findings row |
| Gallery.ImportDataCorrected | src/components/pages/TemplateGallery.jsx:85-96 | the same data with each connection's endpoints moved to the renamed nodes, the corrected half of the first Findings row |
| Gallery.ImportCreatesDraft | src/components/pages/TemplateGallery.jsx:85-98 | the import is stored as a draft under a fresh `Id`, named `name + " (Copy)"`, with the description and the node and connection counts of the template |
| Gallery.ImportDangles | src/components/pages/TemplateGallery.jsx:85-98 | as written, when no fresh node id is an old one, a template with a connection touching one of its nodes is stored with a dangling connection |
| Gallery.ImportCorrectedIsConnected | src/components/pages/TemplateGallery.jsx:85-98 | with the corrected copy, a connected template is stored as a connected draft under a fresh `Id` |
| Gallery.ImportTemplate | src/components/pages/TemplateGallery.jsx:80-100 | appends exactly the record `create` builds from `ImportData` (the as-written copy) to the store, returns it and the success message |
| ConfigPanel.DisplayValue | src/components/organisms/ConfigurationPanel.jsx:50 | the config's value unless it is null or absent, the default otherwise |
| ConfigPanel.ChangeThenDisplay | src/components/organisms/ConfigurationPanel.jsx:38-50 | after a change the field shows the new value (its default when null) and every other field is unaffected |
| ConfigPanel.UntouchedConfigShowsDefaults | src/components/organisms/ConfigurationPanel.jsx:50 | a config equal to the template's defaults shows every default |
| ConfigPanel.KindOf | src/components/organisms/ConfigurationPanel.jsx:53-105 | the widget `renderConfigField` picks; the lemmas below give each branch |
| ConfigPanel.BooleanDefaultIsCheckbox | src/components/organisms/ConfigurationPanel.jsx:53 | a boolean default always gives a checkbox |
| ConfigPanel.OnlyFormatKeysGetChoices | src/components/organisms/ConfigurationPanel.jsx:70 | among the keys with options, only "inputFormat" and "outputFormat" reach the select (the name test is case-sensitive) |
| ConfigPanel.FormatNameIsChoice | src/components/organisms/ConfigurationPanel.jsx:70 | a non-boolean field whose name contains "Format" gets a select |
| ConfigPanel.NoSelectCapitals | src/components/organisms/ConfigurationPanel.jsx:70 | a name without 'T', 'M' or 'F' never gets a select |
| ConfigPanel.ChoiceWithoutEntry | src/components/organisms/ConfigurationPanel.jsx:70-71 | every non-boolean field whose name contains "Type" or "Method" and has no table entry gets a select offering the placeholder options |
| ConfigPanel.NotesNameIsTextArea | src/components/organisms/ConfigurationPanel.jsx:86-96 | a non-boolean field whose name contains "notes" and no 'T', 'M' or 'F' gets a text area |
| ConfigPanel.PlainNameIsTextInput | src/components/organisms/ConfigurationPanel.jsx:98-105 | a non-boolean field whose name has none of 'T', 'M', 'F', 'n' and 'm' gets the plain text input |
| ConfigPanel.FieldOptions | src/components/organisms/ConfigurationPanel.jsx:108-121 | the table's list for the eight known keys, the placeholder list iff the key is unknown |
| ConfigPanel.SpaceBeforeCaps | src/components/organisms/ConfigurationPanel.jsx:64 | `replace(/([A-Z])/g, " $1")`; `SpacedLength` and `UnspaceSpaced` give one added character per capital and that the name can be recovered |
| ConfigPanel.Label | src/components/organisms/ConfigurationPanel.jsx:64 | the label of every widget; `LabelLength` and `LabelOfLowerStart` give its length and its round trip |
| ConfigPanel.CapFirst | src/components/organisms/ConfigurationPanel.jsx:64 | only the first character changes, to its upper case |
| ConfigPanel.LabelLength | src/components/organisms/ConfigurationPanel.jsx:64 | the label is the field name's length plus its number of capitals |
| ConfigPanel.SpacedLength | src/components/organisms/ConfigurationPanel.jsx:64 | the spacing step adds one character per capital |
| ConfigPanel.UnspaceSpaced | src/components/organisms/ConfigurationPanel.jsx:64 | removing the inserted spaces gives back the field name |
| ConfigPanel.LabelOfLowerStart | src/components/organisms/ConfigurationPanel.jsx:64 | a camelCase name's label starts with a capital and lower-casing it back recovers the name |
| ConfigPanel.Panel.constructor | src/components/organisms/ConfigurationPanel.jsx:13-14 | the panel starts with an empty config and no template |
| ConfigPanel.Panel.Select | src/components/organisms/ConfigurationPanel.jsx:17-36 | a selected node's config replaces the edited one, and its template is loaded (kept as before when the lookup fails), while no selection resets nothing |
| ConfigPanel.Panel.ConfigChange | src/components/organisms/ConfigurationPanel.jsx:38-41 | the config becomes the spread update with the one field |
| ConfigPanel.Panel.Save | src/components/organisms/ConfigurationPanel.jsx:43-47 | with a node selected, its id and a patch carrying exactly the edited config, otherwise nothing |
| ConfigPanel.SavedPatchSetsConfig | src/components/organisms/ConfigurationPanel.jsx:45 | applying the saved patch replaces the config of the nodes with that id and nothing else, and keeps connections attached |

## Left out

- Network, timers and `async` sequencing: each service call is one synchronous step. The `delay` before it is not modelled.
- Timestamps (`createdAt`, `updatedAt`, `startTime`, `endTime`) and the `executionId`/`testId` strings: they come from the clock.
- Id generation from `Date.now()` and `Math.random()`: fresh ids are parameters.
- `parseInt` of route and query parameters: ids are integers.
- `JSON.parse` of drag data and the dynamic `import()` of the template service: the dropped palette entry is a parameter.
- The JSON fixture files are not part of this model. They are inputs (`Store` constructor, template list, `Catalog`).
- Pan, drag and zoom coordinate arithmetic and the zoom clamp: floating-point screen geometry over DOM rectangles. The drop position is a parameter.
- Rendering, CSS, animation and router navigation. The toast texts are kept as returned notices or messages.
- The transient `saving`, `testing`, `executing`, `importing` and `loading` flags: they only drive spinners.
- `loadWorkflow`, the page before its workflow has loaded (`workflow` null), and the gallery's `loadTemplates`: plain fetch-and-store steps with no logic of their own.
- The ExecutionPanel, its executions being hard-coded mock data, and the presentational components (NodePalette, WorkflowList, Dashboard, App, atoms, molecules).
- Unicode case mapping: `toLowerCase` and `toUpperCase` are modelled on ASCII letters only.
- Numbers are mathematical reals. NaN, which is falsy, is not a value of the model.
- Object key order for integer-like keys, which JavaScript lists first, is not modelled. Keys keep insertion order.
- `optionMap[field]` for inherited names such as `"constructor"`: the model treats the map as having only its eight keys.
- Nodes and templates whose `config` is absent (`template.config || {}`, `selectedNode.config || {}`): every record carries a config list.
- Records without `id`, `name` or `description` fields are not modelled.
- Gallery.ImportTemplate: the "Failed to import template" branch is not modelled, because the modelled `create` cannot fail.
- Canvas.CanvasState.NodeMouseDown: the drag offset taken from the DOM is not modelled.
- Canvas.ClickRunAsWritten: the mouse-down that starts a port click also reaches the node's `onMouseDown`, which starts a drag and selects the node. It does not touch `connecting`, so the click model leaves it out.
- Canvas.CanvasState.PortClick: on its own it is the handler called with the slot the last render saw. The order in which the browser delivers mouse-up and click is modelled only by `ClickRunAsWritten` and `CanvasState.PortClickGesture`.
- WorkflowStore.CreateFreshId: freshness is proved for data without an `Id` only, since an `Id` in the data overrides the fresh one.

## Findings

| source | as written | input that shows it | evidently intended | confidence | as-written member | corrected member |
|---|---|---|---|---|---|---|
| src/components/pages/TemplateGallery.jsx:88-95 (also src/components/pages/WorkflowBuilder.jsx:72-79) | the nodes get fresh ids, but each connection keeps the `sourceNodeId` and `targetNodeId` of the template's old node ids | a template with nodes "node-1" and "node-2" joined by one connection, imported with fresh ids "node-a" and "node-b": the copy's connection names "node-1" and "node-2", which no node has, so the canvas draws nothing | each connection's endpoints follow their nodes to the fresh ids, so a connected template stays connected | not executed | TemplateCopy.CopyConnectionsAsWritten, TemplateCopy.AsWrittenDangles, TemplateCopy.CopyAsWrittenDangles, Gallery.ImportData, Gallery.ImportDangles, Builder.TemplateWorkflow, Builder.TemplateWorkflowDangles | TemplateCopy.CopyConnections, TemplateCopy.CopyKeepsConnected, Gallery.ImportDataCorrected, Gallery.ImportCorrectedIsConnected, Builder.TemplateWorkflowCorrected, Builder.TemplateWorkflowCorrectedConnected |
| src/components/organisms/WorkflowCanvas.jsx:81-85 (with lines 114-131 and 158, and src/components/molecules/CanvasNode.jsx:105-120) | the ports have only `onClick` and sit inside the canvas, whose `onMouseUp` empties `connecting`. A click delivers its mouse-up first, so `handlePortClick` always finds the slot empty and none of its connection-making branch can run | click the output port of node "a", then the input port of node "b": the second click's mouse-up clears the pending output, the click sees an empty slot, and no connection is added | the mouse-up that ends a click on a port leaves `connecting` alone, so output-then-input adds the connection | not executed; rests on the browser delivering mouse-up before click and React re-rendering between the two | Canvas.ClickRunAsWritten, Canvas.ClickRunAsWrittenNeverConnects, Canvas.CanvasState.PortClickGesture | Canvas.ClickRun, Canvas.ClickRunConnects, Canvas.ClickRunSound, Canvas.CanvasState.MouseUpOverPort, Canvas.CanvasState.PortClickGestureCorrected |
