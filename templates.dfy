/** The workflow template catalog (src/services/api/templateService.js).
    The fixture list is a parameter; no operation changes it. */
module TemplateService {
  import opened Wrappers
  import opened Seqs
  import opened Text
  import opened WorkflowGraph

  datatype Template = Template(
    id: int,
    name: string,
    description: string,
    category: string,
    tags: seq<string>,
    nodes: seq<Node>,
    connections: seq<Connection>)

  const TemplateNotFound := "Template not found"

  /** getAll: a copy of the list. */
  function GetAll(templates: seq<Template>): (r: seq<Template>)
    ensures |r| == |templates| && forall i :: 0 <= i < |r| ==> r[i] == templates[i]
  {
    templates
  }

  /** getById: the first template with this `Id`, or the not-found error. */
  function GetById(templates: seq<Template>, id: int): (r: Result<Template>)
    ensures r.Err? <==> forall t :: t in templates ==> t.id != id
    ensures r.Err? ==> r.message == TemplateNotFound
    ensures r.Ok? ==> r.value in templates && r.value.id == id
    ensures r.Ok? ==> exists i :: (0 <= i < |templates| && templates[i] == r.value
                                   && forall j :: 0 <= j < i ==> templates[j].id != id)
  {
    var i := IndexOf(templates, (t: Template) => t.id == id);
    if i == -1 then Err(TemplateNotFound) else Ok(templates[i])
  }

  /** getByCategory: the templates of exactly that category, in stored order. */
  function GetByCategory(templates: seq<Template>, category: string): (r: seq<Template>)
    ensures forall t :: t in r <==> t in templates && t.category == category
    ensures IsSubseq(r, templates)
  {
    FilterIsSubseq(templates, (t: Template) => t.category == category);
    Filter(templates, (t: Template) => t.category == category)
  }

  /** The search test applied to one template, with an already lower-cased term. */
  predicate MatchesTerm(t: Template, term: string) {
    || Includes(Lower(t.name), term)
    || Includes(Lower(t.description), term)
    || exists tag :: tag in t.tags && Includes(Lower(tag), term)
  }

  /** searchTemplates: the templates whose lower-cased name, description or
      some tag contains the lower-cased query, in stored order. */
  function SearchTemplates(templates: seq<Template>, query: string): (r: seq<Template>)
    ensures forall t :: t in r <==> t in templates && MatchesTerm(t, Lower(query))
    ensures IsSubseq(r, templates)
  {
    var term := Lower(query);
    FilterIsSubseq(templates, (t: Template) => MatchesTerm(t, term));
    Filter(templates, (t: Template) => MatchesTerm(t, term))
  }

  /** The empty query occurs in every name, so it matches every template. */
  lemma EmptyQueryMatchesAll(templates: seq<Template>)
    ensures SearchTemplates(templates, "") == templates
  {
    forall t: Template ensures MatchesTerm(t, Lower("")) {
      assert OccursAt(Lower(t.name), "", 0);
    }
    FilterAll(templates, (t: Template) => MatchesTerm(t, Lower("")));
  }

  /** Searching ignores the case of ASCII letters in the query. */
  lemma SearchIgnoresQueryCase(templates: seq<Template>, query: string)
    ensures SearchTemplates(templates, Lower(query)) == SearchTemplates(templates, query)
  {
    LowerIdempotent(query);
  }
}
