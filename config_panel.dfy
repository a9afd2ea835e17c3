/** The node configuration panel (src/components/organisms/ConfigurationPanel.jsx):
    the edited config map, the value shown for each field, the widget chosen
    for it, its options and its label, and the patch handed back on save. */
module ConfigPanel {
  import opened Wrappers
  import opened Text
  import opened Values
  import opened WorkflowGraph
  import opened NodeService

  /** The widget renderConfigField chooses. */
  datatype FieldKind = Checkbox | Choice | TextArea | TextInput

  /** `config[field] ?? defaultValue`: a null or absent value shows the default. */
  function DisplayValue(config: Fields, field: string, default: Value): (v: Value)
    ensures Get(config, field).Some? && Get(config, field).value != Null ==> v == Get(config, field).value
    ensures Get(config, field).None? || Get(config, field).value == Null ==> v == default
  {
    match Get(config, field)
    case Some(x) => if x != Null then x else default
    case None => default
  }

  /** The widget, in priority order: a boolean default, then a name containing
      "Type", "Method" or "Format", then one containing "notes" or "message". */
  function KindOf(field: string, default: Value): FieldKind {
    if default.Bool? then Checkbox
    else if Includes(field, "Type") || Includes(field, "Method") || Includes(field, "Format") then Choice
    else if Includes(field, "notes") || Includes(field, "message") then TextArea
    else TextInput
  }

  const DefaultOptions: seq<string> := ["option1", "option2", "option3"]

  /** getFieldOptions's table. */
  const OptionMap: map<string, seq<string>> := map[
    "method" := ["email", "sms", "push"],
    "format" := ["pdf", "html", "csv"],
    "urgency" := ["low", "normal", "high", "urgent"],
    "codingSystem" := ["ICD-10", "ICD-11", "CPT"],
    "inputFormat" := ["HL7", "FHIR", "CSV", "JSON"],
    "outputFormat" := ["HL7", "FHIR", "CSV", "JSON"],
    "operator" := ["and", "or"],
    "specialty" := ["cardiology", "neurology", "oncology", "orthopedics", "dermatology"]]

  /** getFieldOptions: the table's list for a known key (every list is
      non-empty, hence truthy), the placeholder list for any other. */
  function FieldOptions(field: string): (r: seq<string>)
    ensures r == DefaultOptions <==> field !in OptionMap
    ensures field in OptionMap ==> r == OptionMap[field]
    ensures |r| >= 2
  {
    if field in OptionMap then OptionMap[field] else DefaultOptions
  }

  /** `field.replace(/([A-Z])/g, " $1")`: a space before every capital. */
  function SpaceBeforeCaps(s: string): string {
    if s == [] then [] else (if IsUpper(s[0]) then [' ', s[0]] else [s[0]]) + SpaceBeforeCaps(s[1..])
  }

  /** `.replace(/^./, str => str.toUpperCase())`: the first character upper-cased
      (a line terminator there is not matched by `.`, and is kept either way). */
  function CapFirst(s: string): (r: string)
    ensures |r| == |s|
    ensures s != [] ==> r[0] == UpperChar(s[0]) && r[1..] == s[1..]
  {
    if s == [] then [] else [UpperChar(s[0])] + s[1..]
  }

  /** The label shown beside every field. */
  function Label(field: string): string {
    CapFirst(SpaceBeforeCaps(field))
  }

  function CountUpper(s: string): nat {
    if s == [] then 0 else (if IsUpper(s[0]) then 1 else 0) + CountUpper(s[1..])
  }

  /** Takes out every space that stands right before a capital. */
  function Unspace(s: string): string {
    if s == [] then []
    else if |s| >= 2 && s[0] == ' ' && IsUpper(s[1]) then [s[1]] + Unspace(s[2..])
    else [s[0]] + Unspace(s[1..])
  }

  // ---- Properties of the field logic ----

  /** The label is one character longer per capital letter. */
  lemma {:induction false} LabelLength(field: string)
    ensures |Label(field)| == |field| + CountUpper(field)
  {
    SpacedLength(field);
  }

  lemma {:induction false} SpacedLength(s: string)
    ensures |SpaceBeforeCaps(s)| == |s| + CountUpper(s)
  {
    if s != [] {
      SpacedLength(s[1..]);
    }
  }

  /** The spaced form never starts with a capital: a capital is always preceded by its space. */
  lemma {:induction false} SpacedStartsWithoutCapital(s: string)
    ensures SpaceBeforeCaps(s) != [] ==> !IsUpper(SpaceBeforeCaps(s)[0])
  {
  }

  /** Inserting the spaces loses nothing: taking them out gives the field name back. */
  lemma {:induction false} UnspaceSpaced(s: string)
    ensures Unspace(SpaceBeforeCaps(s)) == s
  {
    if s != [] {
      var rest := SpaceBeforeCaps(s[1..]);
      UnspaceSpaced(s[1..]);
      SpacedStartsWithoutCapital(s[1..]);
      if IsUpper(s[0]) {
        var t := [' ', s[0]] + rest;
        assert t[2..] == rest;
      } else {
        var t := [s[0]] + rest;
        assert t[1..] == rest;
      }
    }
  }

  /** A field whose name starts with a lower-case letter gets a label that
      starts with its capital and otherwise reads as the spaced name. */
  lemma LabelOfLowerStart(field: string)
    requires field != [] && IsLower(field[0])
    ensures Label(field)[0] == UpperChar(field[0]) && IsUpper(Label(field)[0])
    ensures Label(field)[1..] == SpaceBeforeCaps(field)[1..]
    ensures Unspace([LowerChar(Label(field)[0])] + Label(field)[1..]) == field
  {
    var sp := SpaceBeforeCaps(field);
    assert sp == [field[0]] + SpaceBeforeCaps(field[1..]);
    var lbl := Label(field);
    assert [LowerChar(lbl[0])] + lbl[1..] == sp;
    UnspaceSpaced(field);
  }

  /** A boolean default always gets a checkbox, whatever the field's name. */
  lemma BooleanDefaultIsCheckbox(field: string, b: bool)
    ensures KindOf(field, Bool(b)) == Checkbox
  {
  }

  /** The name tests are case-sensitive, so of the keys that have options
      only "inputFormat" and "outputFormat" reach the select: "method",
      "format" and the others show a text input. */
  lemma {:induction false} OnlyFormatKeysGetChoices(field: string, default: Value)
    requires field in OptionMap && !default.Bool?
    ensures KindOf(field, default) == Choice <==> field == "inputFormat" || field == "outputFormat"
  {
    if field == "inputFormat" {
      assert OccursAt(field, "Format", 5);
      FormatNameIsChoice(field, default, 5);
    } else if field == "outputFormat" {
      assert OccursAt(field, "Format", 6);
      FormatNameIsChoice(field, default, 6);
    } else {
      assert field in {"method", "format", "urgency", "codingSystem", "operator", "specialty", "inputFormat", "outputFormat"};
      OtherOptionKeys(field, default);
    }
  }

  /** A non-boolean field whose name contains "Format" gets a select. */
  lemma FormatNameIsChoice(field: string, default: Value, i: nat)
    requires OccursAt(field, "Format", i) && !default.Bool?
    ensures KindOf(field, default) == Choice
  {
    IncludedAt(field, "Format", i);
  }

  /** The six other keys of the table never reach the select. */
  lemma OtherOptionKeys(field: string, default: Value)
    requires field in {"method", "format", "urgency", "codingSystem", "operator", "specialty"}
    ensures KindOf(field, default) != Choice
  {
    OtherKeysLackSelectCapitals(field);
    NoSelectCapitals(field);
  }

  /** None of those six keys has a 'T', 'M' or 'F'. */
  lemma OtherKeysLackSelectCapitals(field: string)
    requires field in {"method", "format", "urgency", "codingSystem", "operator", "specialty"}
    ensures 'T' !in field && 'M' !in field && 'F' !in field
  {
  }

  /** A name without 'T', 'M' or 'F' contains none of the select markers. */
  lemma NoSelectCapitals(field: string)
    requires 'T' !in field && 'M' !in field && 'F' !in field
    ensures !(Includes(field, "Type") || Includes(field, "Method") || Includes(field, "Format"))
  {
    NotIncludedByFirstChar(field, "Type");
    NotIncludedByFirstChar(field, "Method");
    NotIncludedByFirstChar(field, "Format");
  }

  /** Every non-boolean field whose name contains "Type" or "Method" gets a
      select, and one without a table entry offers the placeholder list
      ("patientType", say, offers "option1" to "option3"). */
  lemma ChoiceWithoutEntry(field: string, default: Value)
    requires !default.Bool? && (Includes(field, "Type") || Includes(field, "Method"))
    requires field !in OptionMap
    ensures KindOf(field, default) == Choice
    ensures FieldOptions(field) == DefaultOptions
  {
  }

  /** A non-boolean field whose name contains "notes" and none of the select
      markers' capitals gets a text area. */
  lemma NotesNameIsTextArea(field: string, default: Value, i: nat)
    requires OccursAt(field, "notes", i) && !default.Bool?
    requires 'T' !in field && 'M' !in field && 'F' !in field
    ensures KindOf(field, default) == TextArea
  {
    NoSelectCapitals(field);
    IncludedAt(field, "notes", i);
  }

  /** A non-boolean field whose name has none of 'T', 'M', 'F', 'n' and 'm'
      cannot match any name test, so it falls back to a text input. */
  lemma PlainNameIsTextInput(field: string, default: Value)
    requires !default.Bool?
    requires 'T' !in field && 'M' !in field && 'F' !in field && 'n' !in field && 'm' !in field
    ensures KindOf(field, default) == TextInput
  {
    NoSelectCapitals(field);
    NotIncludedByFirstChar(field, "notes");
    NotIncludedByFirstChar(field, "message");
  }

  /** A node whose config is still its template's defaults shows every default. */
  lemma {:induction false} UntouchedConfigShowsDefaults(defaults: Fields)
    requires UniqueKeys(defaults)
    ensures forall i :: 0 <= i < |defaults| ==> DisplayValue(defaults, defaults[i].0, defaults[i].1) == defaults[i].1
  {
    forall i | 0 <= i < |defaults|
      ensures DisplayValue(defaults, defaults[i].0, defaults[i].1) == defaults[i].1
    {
      GetEntry(defaults, i);
    }
  }

  /** After a change the field shows the new value (or its default, when the
      new value is null) and every other field shows what it did. */
  lemma ChangeThenDisplay(config: Fields, field: string, value: Value, other: string, default: Value)
    ensures DisplayValue(Set(config, field, value), field, default) == if value == Null then default else value
    ensures other != field ==> DisplayValue(Set(config, field, value), other, default) == DisplayValue(config, other, default)
  {
    SetGet(config, field, value, field);
    SetGet(config, field, value, other);
  }

  /** The panel's state: the config being edited, the selected node and the
      node template loaded for it. */
  class Panel {
    var config: Fields
    var selected: Option<Node>
    var template: Option<NodeTemplate>

    constructor ()
      ensures config == [] && selected.None? && template.None?
    {
      config := [];
      selected := None;
      template := None;
    }

    /** The effect run when the selection changes: a selected node's config
        replaces the edited one and its node template is looked up; a failed
        lookup is only logged, so the previous template stays. With no node
        selected nothing is reset. */
    method Select(catalog: Catalog, n: Option<Node>)
      modifies this
      ensures selected == n
      ensures n.Some? ==> config == n.value.config
      ensures n.None? ==> config == old(config) && template == old(template)
      ensures n.Some? ==>
        (var r := GetNodeTemplate(catalog, n.value.nodeType); template == if r.Ok? then Some(r.value) else old(template))
    {
      selected := n;
      if n.Some? {
        config := n.value.config;
        var r := GetNodeTemplate(catalog, n.value.nodeType);
        if r.Ok? {
          template := Some(r.value);
        }
      }
    }

    /** handleConfigChange: `{ ...config, [field]: value }`. */
    method ConfigChange(field: string, value: Value)
      modifies this
      ensures config == Set(old(config), field, value)
      ensures selected == old(selected) && template == old(template)
    {
      config := Set(config, field, value);
    }

    /** handleSave: the selected node's id and a patch carrying the edited
        config and nothing else; nothing when no node is selected. */
    method Save() returns (r: Option<(string, NodePatch)>)
      ensures r.Some? <==> selected.Some?
      ensures r.Some? ==> r.value.0 == selected.value.id
      ensures r.Some? ==> r.value.1 == NodePatch(None, None, None, Some(config), None)
    {
      if selected.Some? {
        r := Some((selected.value.id, NodePatch(None, None, None, Some(config), None)));
      } else {
        r := None;
      }
    }
  }

  /** Applying a saved patch replaces the config of the selected node, and
      only that, and keeps the node ids and the connections valid. */
  lemma SavedPatchSetsConfig(w: Workflow, nodeId: string, config: Fields)
    ensures var u := UpdateNode(w, nodeId, NodePatch(None, None, None, Some(config), None));
      && (forall i :: 0 <= i < |w.nodes| ==>
            u.nodes[i] == if w.nodes[i].id == nodeId then w.nodes[i].(config := config) else w.nodes[i])
      && NodeIds(u.nodes) == NodeIds(w.nodes)
      && (NoDangling(w) ==> NoDangling(u))
  {
    UpdateNodeKeepsIds(w, nodeId, NodePatch(None, None, None, Some(config), None));
  }
}
