/** The template gallery page (src/components/pages/TemplateGallery.jsx):
    the category and text filter over the loaded templates, and importing a
    template as a new stored workflow. Loading, the preview dialog and
    navigation are not modelled. */
module Gallery {
  import opened Wrappers
  import opened Seqs
  import opened Text
  import opened WorkflowGraph
  import opened WorkflowStore
  import opened TemplateService
  import opened TemplateCopy

  /** The category selector's "all" value switches the category filter off. */
  predicate InCategory(t: Template, category: string) {
    category == "all" || t.category == category
  }

  /** The text filter: off for a blank query, otherwise the lower-cased
      query (not trimmed) must occur in the name, description or a tag. */
  predicate MatchesQuery(t: Template, query: string) {
    IsBlank(query) || MatchesTerm(t, Lower(query))
  }

  /** The first step of filterTemplates: the category filter unless "all" is selected. */
  function ByCategory(templates: seq<Template>, category: string): (r: seq<Template>)
    ensures forall t :: t in r <==> t in templates && InCategory(t, category)
    ensures IsSubseq(r, templates)
  {
    if category != "all" then
      FilterIsSubseq(templates, (t: Template) => t.category == category);
      Filter(templates, (t: Template) => t.category == category)
    else
      SubseqRefl(templates);
      templates
  }

  /** The second step: the text filter unless the query is blank. */
  function ByQuery(templates: seq<Template>, query: string): (r: seq<Template>)
    ensures forall t :: t in r <==> t in templates && MatchesQuery(t, query)
    ensures IsSubseq(r, templates)
  {
    if !IsBlank(query) then
      FilterIsSubseq(templates, (t: Template) => MatchesTerm(t, Lower(query)));
      Filter(templates, (t: Template) => MatchesTerm(t, Lower(query)))
    else
      SubseqRefl(templates);
      templates
  }

  /** filterTemplates: the loaded templates that pass both filters, in loaded order. */
  function FilterTemplates(templates: seq<Template>, category: string, query: string): (r: seq<Template>)
    ensures forall t :: t in r <==> t in templates && InCategory(t, category) && MatchesQuery(t, query)
    ensures IsSubseq(r, templates)
  {
    var byCategory := ByCategory(templates, category);
    SubseqTrans(ByQuery(byCategory, query), byCategory, templates);
    ByQuery(byCategory, query)
  }

  /** "All Templates" with an empty search box shows every template. */
  lemma DefaultShowsAll(templates: seq<Template>, query: string)
    requires IsBlank(query)
    ensures FilterTemplates(templates, "all", query) == templates
  {
  }

  /** With a blank query the gallery shows what getByCategory returns. */
  lemma BlankQueryIsCategory(templates: seq<Template>, category: string, query: string)
    requires IsBlank(query) && category != "all"
    ensures FilterTemplates(templates, category, query) == GetByCategory(templates, category)
  {
    FilterExt(templates, (t: Template) => t.category == category, (t: Template) => t.category == category);
  }

  /** Under "all", a non-blank query shows what searchTemplates returns. */
  lemma AllCategoryIsSearch(templates: seq<Template>, query: string)
    requires !IsBlank(query)
    ensures FilterTemplates(templates, "all", query) == SearchTemplates(templates, query)
  {
    FilterExt(templates, (t: Template) => MatchesTerm(t, Lower(query)), (t: Template) => MatchesTerm(t, Lower(query)));
  }

  /** Both filters on: searching within the category's templates. */
  lemma FilterIsSearchWithinCategory(templates: seq<Template>, category: string, query: string)
    requires !IsBlank(query) && category != "all"
    ensures FilterTemplates(templates, category, query) == SearchTemplates(GetByCategory(templates, category), query)
  {
    var byCategory := GetByCategory(templates, category);
    FilterExt(templates, (t: Template) => t.category == category, (t: Template) => t.category == category);
    FilterExt(byCategory, (t: Template) => MatchesTerm(t, Lower(query)), (t: Template) => MatchesTerm(t, Lower(query)));
  }

  /** Both filters on is one pass over the loaded templates with the two tests joined. */
  lemma FilterIsOnePass(templates: seq<Template>, category: string, query: string)
    requires !IsBlank(query) && category != "all"
    ensures FilterTemplates(templates, category, query) ==
      Filter(templates, (t: Template) => t.category == category && MatchesTerm(t, Lower(query)))
  {
    var inCategory := (t: Template) => t.category == category;
    var matches := (t: Template) => MatchesTerm(t, Lower(query));
    FilterFuse(templates, inCategory, matches, (t: Template) => t.category == category && MatchesTerm(t, Lower(query)));
  }

  /** The workflow data handleImport passes to create: the nodes under fresh
      ids, and the connections under fresh ids with their endpoints untouched. */
  function ImportData(t: Template, freshNodeIds: seq<string>, freshConnectionIds: seq<string>): (d: WorkflowData)
    requires |freshNodeIds| == |t.nodes| && |freshConnectionIds| == |t.connections|
    ensures d.id.None? && d.status.None? && d.version.None?
    ensures d.nodes.Some? && d.connections.Some?
    ensures |d.nodes.value| == |t.nodes| && |d.connections.value| == |t.connections|
  {
    WorkflowData(
      None,
      CopyName(t),
      t.description,
      Some(RenameNodes(t.nodes, freshNodeIds)),
      Some(CopyConnectionsAsWritten(t.connections, freshConnectionIds)),
      None,
      None)
  }

  /** The import data with each connection's endpoints moved to the renamed nodes. */
  function ImportDataCorrected(t: Template, freshNodeIds: seq<string>, freshConnectionIds: seq<string>): (d: WorkflowData)
    requires |freshNodeIds| == |t.nodes| && |freshConnectionIds| == |t.connections|
    ensures d.id.None? && d.status.None? && d.version.None?
    ensures d.nodes.Some? && d.connections.Some?
    ensures |d.nodes.value| == |t.nodes| && |d.connections.value| == |t.connections|
  {
    ImportData(t, freshNodeIds, freshConnectionIds)
      .(connections := Some(CopyConnections(t.nodes, freshNodeIds, t.connections, freshConnectionIds)))
  }

  /** An imported template is stored as a draft under a fresh `Id`, with the
      copy's name and one node and one connection per template node and
      connection. */
  lemma ImportCreatesDraft(ws: seq<Workflow>, t: Template, freshNodeIds: seq<string>, freshConnectionIds: seq<string>)
    requires AllHaveIds(ws)
    requires |freshNodeIds| == |t.nodes| && |freshConnectionIds| == |t.connections|
    ensures var w := NewRecord(ws, ImportData(t, freshNodeIds, freshConnectionIds));
      && w.status == "draft" && w.version == Some(1)
      && w.name == t.name + " (Copy)" && w.description == t.description
      && |w.nodes| == |t.nodes| && |w.connections| == |t.connections|
      && w.id.Some? && (forall i :: 0 <= i < |ws| ==> ws[i].id != w.id)
  {
    CreateFreshId(ws, ImportData(t, freshNodeIds, freshConnectionIds));
  }

  /** As written, when the fresh node ids are new, an imported template with
      a connection touching one of its nodes is stored with a dangling
      connection. */
  lemma ImportDangles(ws: seq<Workflow>, t: Template, freshNodeIds: seq<string>, freshConnectionIds: seq<string>, k: nat, endpoint: string)
    requires AllHaveIds(ws)
    requires |freshNodeIds| == |t.nodes| && |freshConnectionIds| == |t.connections|
    requires forall i :: 0 <= i < |freshNodeIds| ==> !HasNode(t.nodes, freshNodeIds[i])
    requires k < |t.connections| && HasNode(t.nodes, endpoint)
    requires endpoint == t.connections[k].sourceNodeId || endpoint == t.connections[k].targetNodeId
    ensures !NoDangling(NewRecord(ws, ImportData(t, freshNodeIds, freshConnectionIds)))
  {
    AsWrittenDangles(t.nodes, freshNodeIds, t.connections, freshConnectionIds, k, endpoint);
  }

  /** With the corrected copy, a connected template is stored as a connected
      draft under a fresh `Id`. */
  lemma ImportCorrectedIsConnected(ws: seq<Workflow>, t: Template, freshNodeIds: seq<string>, freshConnectionIds: seq<string>)
    requires AllHaveIds(ws)
    requires |freshNodeIds| == |t.nodes| && |freshConnectionIds| == |t.connections|
    requires Connected(t.nodes, t.connections)
    ensures var w := NewRecord(ws, ImportDataCorrected(t, freshNodeIds, freshConnectionIds));
      && NoDangling(w) && w.status == "draft"
      && w.id.Some? && (forall i :: 0 <= i < |ws| ==> ws[i].id != w.id)
  {
    CopyKeepsConnected(t.nodes, freshNodeIds, t.connections, freshConnectionIds);
    CreateFreshId(ws, ImportDataCorrected(t, freshNodeIds, freshConnectionIds));
  }

  /** handleImport: create the copy and report it; the page then navigates
      to the new record's `Id`. */
  method ImportTemplate(store: Store, t: Template, freshNodeIds: seq<string>, freshConnectionIds: seq<string>)
    returns (created: Workflow, message: string)
    requires store.Valid()
    requires |freshNodeIds| == |t.nodes| && |freshConnectionIds| == |t.connections|
    modifies store
    ensures store.Valid()
    ensures created == NewRecord(old(store.workflows), ImportData(t, freshNodeIds, freshConnectionIds))
    ensures store.workflows == old(store.workflows) + [created]
    ensures message == "Template \"" + t.name + "\" imported successfully"
  {
    created := store.Create(ImportData(t, freshNodeIds, freshConnectionIds));
    message := "Template \"" + t.name + "\" imported successfully";
  }
}
