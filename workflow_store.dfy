/** The in-memory workflow store (src/services/api/workflowService.js): a
    module-level array changed in place by `push`, index assignment and
    `splice`. The fixture list is the constructor's argument; delays,
    timestamps and generated execution ids are not modelled. */
module WorkflowStore {
  import opened Wrappers
  import opened Seqs
  import opened WorkflowGraph

  /** The `workflowData` argument of create and update: the fields it carries.
      An absent `Id`, node list, connection list, status or version is None. */
  datatype WorkflowData = WorkflowData(
    id: Option<int>,
    name: string,
    description: string,
    nodes: Option<seq<Node>>,
    connections: Option<seq<Connection>>,
    status: Option<string>,
    version: Option<int>)

  datatype ExecutionReport = ExecutionReport(status: string, nodesExecuted: nat, errors: seq<string>)

  datatype TestReport = TestReport(
    status: string,
    syntax: string,
    connections: string,
    configuration: string,
    warnings: seq<string>)

  const WorkflowNotFound := "Workflow not found"

  /** Every own field of a workflow, as the builder passes it to the store. */
  function AsData(w: Workflow): WorkflowData {
    WorkflowData(w.id, w.name, w.description, Some(w.nodes), Some(w.connections), Some(w.status), w.version)
  }

  /** Every stored record has an `Id`. */
  predicate AllHaveIds(ws: seq<Workflow>) {
    forall i :: 0 <= i < |ws| ==> ws[i].id.Some?
  }

  /** No two stored records share an `Id`. */
  predicate UniqueIds(ws: seq<Workflow>) {
    forall i, j :: 0 <= i < j < |ws| ==> ws[i].id != ws[j].id
  }

  /** `workflows.findIndex(w => w.Id === id)`. */
  function FindIndex(ws: seq<Workflow>, id: int): (i: int)
    ensures -1 <= i < |ws|
    ensures 0 <= i ==> ws[i].id == Some(id) && forall j :: 0 <= j < i ==> ws[j].id != Some(id)
    ensures i == -1 <==> forall j :: 0 <= j < |ws| ==> ws[j].id != Some(id)
  {
    IndexOf(ws, (w: Workflow) => w.id == Some(id))
  }

  /** `Math.max(...workflows.map(w => w.Id), 0)`. */
  function MaxId(ws: seq<Workflow>): (m: int)
    requires AllHaveIds(ws)
    ensures 0 <= m
    ensures forall i :: 0 <= i < |ws| ==> ws[i].id.value <= m
    ensures m == 0 || exists i :: 0 <= i < |ws| && ws[i].id == Some(m)
  {
    if ws == [] then 0
    else
      var rest := MaxId(ws[1..]);
      assert forall i :: 1 <= i < |ws| ==> ws[i] == ws[1..][i - 1];
      if ws[0].id.value > rest then ws[0].id.value else rest
  }

  /** The record create builds: a fresh `Id` (which an `Id` in the data
      overrides, since the data is spread after it), version 1, status
      "draft", and empty node and connection lists when the data has none. */
  function NewRecord(ws: seq<Workflow>, data: WorkflowData): Workflow
    requires AllHaveIds(ws)
  {
    Workflow(
      if data.id.Some? then data.id else Some(MaxId(ws) + 1),
      data.name,
      data.description,
      data.nodes.GetOr([]),
      data.connections.GetOr([]),
      "draft",
      Some(1))
  }

  /** `{ ...old, ...data }`: every field the data carries overwrites the record's. */
  function Merge(w: Workflow, data: WorkflowData): Workflow {
    Workflow(
      if data.id.Some? then data.id else w.id,
      data.name,
      data.description,
      data.nodes.GetOr(w.nodes),
      data.connections.GetOr(w.connections),
      data.status.GetOr(w.status),
      if data.version.Some? then data.version else w.version)
  }

  /** The store after update(id, data). */
  function ApplyUpdate(ws: seq<Workflow>, id: int, data: WorkflowData): seq<Workflow> {
    var i := FindIndex(ws, id);
    if i == -1 then ws else ws[i := Merge(ws[i], data)]
  }

  /** The store after delete(id). */
  function ApplyDelete(ws: seq<Workflow>, id: int): seq<Workflow> {
    var i := FindIndex(ws, id);
    if i == -1 then ws else ws[..i] + ws[i + 1..]
  }

  /** The result of getById, also the lookup of executeWorkflow and testWorkflow. */
  function Lookup(ws: seq<Workflow>, id: int): (r: Result<Workflow>)
    ensures r.Err? <==> forall j :: 0 <= j < |ws| ==> ws[j].id != Some(id)
    ensures r.Err? ==> r.message == WorkflowNotFound
    ensures r.Ok? ==> r.value in ws && r.value.id == Some(id)
  {
    var i := FindIndex(ws, id);
    if i == -1 then Err(WorkflowNotFound) else Ok(ws[i])
  }

  class Store {
    var workflows: seq<Workflow>

    ghost predicate Valid()
      reads this
    {
      AllHaveIds(workflows)
    }

    constructor (fixtures: seq<Workflow>)
      requires AllHaveIds(fixtures)
      ensures Valid() && workflows == fixtures
    {
      workflows := fixtures;
    }

    /** getAll: a copy of the stored list. */
    method GetAll() returns (r: seq<Workflow>)
      ensures r == workflows
    {
      r := workflows;
    }

    /** getById. */
    method GetById(id: int) returns (r: Result<Workflow>)
      ensures r == Lookup(workflows, id)
    {
      var i := FindIndex(workflows, id);
      if i == -1 {
        return Err(WorkflowNotFound);
      }
      r := Ok(workflows[i]);
    }

    /** create: push the new record and return it. */
    method Create(data: WorkflowData) returns (r: Workflow)
      requires Valid()
      modifies this
      ensures Valid()
      ensures r == NewRecord(old(workflows), data)
      ensures workflows == old(workflows) + [r]
    {
      r := NewRecord(workflows, data);
      workflows := workflows + [r];
    }

    /** update: replace the first record with this `Id` by its merge with the data. */
    method Update(id: int, data: WorkflowData) returns (r: Result<Workflow>)
      requires Valid()
      modifies this
      ensures Valid()
      ensures workflows == ApplyUpdate(old(workflows), id, data)
      ensures r == if FindIndex(old(workflows), id) == -1 then Err(WorkflowNotFound)
                   else Ok(workflows[FindIndex(old(workflows), id)])
    {
      var index := FindIndex(workflows, id);
      if index == -1 {
        return Err(WorkflowNotFound);
      }
      workflows := workflows[index := Merge(workflows[index], data)];
      r := Ok(workflows[index]);
    }

    /** delete: splice out the first record with this `Id`. */
    method Delete(id: int) returns (r: Result<bool>)
      requires Valid()
      modifies this
      ensures Valid()
      ensures workflows == ApplyDelete(old(workflows), id)
      ensures r == if FindIndex(old(workflows), id) == -1 then Err(WorkflowNotFound) else Ok(true)
    {
      var index := FindIndex(workflows, id);
      if index == -1 {
        return Err(WorkflowNotFound);
      }
      workflows := workflows[..index] + workflows[index + 1..];
      r := Ok(true);
    }

    /** executeWorkflow: a success report counting the workflow's nodes. */
    method ExecuteWorkflow(id: int) returns (r: Result<ExecutionReport>)
      ensures r.Err? <==> Lookup(workflows, id).Err?
      ensures r.Err? ==> r.message == WorkflowNotFound
      ensures r.Ok? ==> r.value == ExecutionReport("success", |Lookup(workflows, id).value.nodes|, [])
    {
      var found := Lookup(workflows, id);
      if found.Err? {
        return Err(WorkflowNotFound);
      }
      r := Ok(ExecutionReport("success", |found.value.nodes|, []));
    }

    /** testWorkflow: a report in which every check passed. */
    method TestWorkflow(id: int) returns (r: Result<TestReport>)
      ensures r.Err? <==> Lookup(workflows, id).Err?
      ensures r.Err? ==> r.message == WorkflowNotFound
      ensures r.Ok? ==> r.value == TestReport("success", "passed", "passed", "passed", [])
    {
      var found := Lookup(workflows, id);
      if found.Err? {
        return Err(WorkflowNotFound);
      }
      r := Ok(TestReport("success", "passed", "passed", "passed", []));
    }
  }

  // ---- Properties of the store operations ----

  /** Without an `Id` in the data, create's `Id` is new, positive, and keeps the `Id`s unique. */
  lemma CreateFreshId(ws: seq<Workflow>, data: WorkflowData)
    requires AllHaveIds(ws) && data.id.None?
    ensures var r := NewRecord(ws, data);
      && r.id.Some? && r.id.value >= 1
      && (forall i :: 0 <= i < |ws| ==> ws[i].id != r.id)
      && (UniqueIds(ws) ==> UniqueIds(ws + [r]))
  {
    var r := NewRecord(ws, data);
    assert forall i :: 0 <= i < |ws| ==> (ws + [r])[i] == ws[i];
  }

  /** Whatever the data says, create stores version 1 in status "draft",
      with the data's node and connection lists or empty ones. */
  lemma CreateForcesDraft(ws: seq<Workflow>, data: WorkflowData)
    requires AllHaveIds(ws)
    ensures var r := NewRecord(ws, data);
      && r.version == Some(1) && r.status == "draft"
      && r.nodes == (if data.nodes.Some? then data.nodes.value else [])
      && r.connections == (if data.connections.Some? then data.connections.value else [])
      && r.name == data.name && r.description == data.description
  {
  }

  /** After create (without an `Id` in the data), getById of the new `Id` returns the new record. */
  lemma CreateThenLookup(ws: seq<Workflow>, data: WorkflowData)
    requires AllHaveIds(ws) && data.id.None?
    ensures var r := NewRecord(ws, data);
      Lookup(ws + [r], r.id.value) == Ok(r)
  {
    var r := NewRecord(ws, data);
    CreateFreshId(ws, data);
    var i := FindIndex(ws + [r], r.id.value);
    assert (ws + [r])[|ws|] == r;
    assert forall j :: 0 <= j < |ws| ==> (ws + [r])[j] == ws[j];
  }

  /** update keeps the length, replaces only the matched entry with its merge,
      and leaves every other entry as it was; with no match it changes nothing. */
  lemma UpdateFrame(ws: seq<Workflow>, id: int, data: WorkflowData)
    ensures var r := ApplyUpdate(ws, id, data);
      && |r| == |ws|
      && (FindIndex(ws, id) == -1 ==> r == ws)
      && (FindIndex(ws, id) >= 0 ==>
            r[FindIndex(ws, id)] == Merge(ws[FindIndex(ws, id)], data)
            && forall j :: 0 <= j < |ws| && j != FindIndex(ws, id) ==> r[j] == ws[j])
  {
  }

  /** An update whose data keeps the `Id` keeps the `Id`s unique, and a
      lookup of that `Id` then returns the merged record. */
  lemma UpdateThenLookup(ws: seq<Workflow>, id: int, data: WorkflowData)
    requires UniqueIds(ws) && FindIndex(ws, id) >= 0
    requires data.id.None? || data.id == Some(id)
    ensures UniqueIds(ApplyUpdate(ws, id, data))
    ensures Lookup(ApplyUpdate(ws, id, data), id) == Ok(Merge(ws[FindIndex(ws, id)], data))
  {
    var i := FindIndex(ws, id);
    var r := ApplyUpdate(ws, id, data);
    assert r[i].id == Some(id);
    assert FindIndex(r, id) == i by {
      assert forall j :: 0 <= j < i ==> r[j] == ws[j];
    }
  }

  /** delete removes exactly the first entry with that `Id`: the length drops by
      one, and the records before and after it keep their order. */
  lemma DeleteFrame(ws: seq<Workflow>, id: int)
    ensures var r := ApplyDelete(ws, id);
      && (FindIndex(ws, id) == -1 ==> r == ws)
      && (FindIndex(ws, id) >= 0 ==>
            && |r| == |ws| - 1
            && (forall j :: 0 <= j < FindIndex(ws, id) ==> r[j] == ws[j])
            && (forall j :: FindIndex(ws, id) < j < |ws| ==> r[j - 1] == ws[j]))
  {
  }

  /** delete keeps every record with another `Id`, in order. */
  lemma DeleteKeepsOthers(ws: seq<Workflow>, id: int)
    ensures var other := (w: Workflow) => w.id != Some(id);
      Filter(ApplyDelete(ws, id), other) == Filter(ws, other)
  {
    var i := FindIndex(ws, id);
    if i >= 0 {
      FilterDropAt(ws, i, (w: Workflow) => w.id != Some(id));
    }
  }

  /** With unique `Id`s, a deleted `Id` can no longer be found, and the store
      stays unique. */
  lemma DeleteThenLookup(ws: seq<Workflow>, id: int)
    requires UniqueIds(ws)
    ensures UniqueIds(ApplyDelete(ws, id))
    ensures Lookup(ApplyDelete(ws, id), id) == Err(WorkflowNotFound)
  {
    var i := FindIndex(ws, id);
    if i >= 0 {
      var r := ApplyDelete(ws, id);
      assert forall j :: 0 <= j < i ==> r[j] == ws[j];
      assert forall j :: i <= j < |r| ==> r[j] == ws[j + 1];
    }
  }
}
