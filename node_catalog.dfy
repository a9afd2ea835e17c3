/** The node template catalog and configuration validation
    (src/services/api/nodeService.js). The catalog fixture is a parameter. */
module NodeService {
  import opened Wrappers
  import opened Values
  import opened Seqs

  /** A palette entry. `nodeType` is the JavaScript field `type`; `config`
      holds the default value of each configurable field, in key order. */
  datatype NodeTemplate = NodeTemplate(
    id: int,
    nodeType: string,
    name: string,
    description: string,
    inputs: seq<string>,
    outputs: seq<string>,
    config: Fields)

  /** The catalog, one list per category. */
  datatype Catalog = Catalog(
    clinical: seq<NodeTemplate>,
    administrative: seq<NodeTemplate>,
    communication: seq<NodeTemplate>,
    data: seq<NodeTemplate>)

  datatype Validation = Validation(isValid: bool, errors: seq<string>)

  const TemplateNotFound := "Node template not found"

  /** getNodeTemplates: a shallow copy of the catalog, so the same four lists. */
  function GetNodeTemplates(c: Catalog): (r: Catalog)
    ensures r.clinical == c.clinical && r.administrative == c.administrative
    ensures r.communication == c.communication && r.data == c.data
  {
    c
  }

  /** The four categories concatenated in search order. */
  function AllNodes(c: Catalog): seq<NodeTemplate> {
    c.clinical + c.administrative + c.communication + c.data
  }

  predicate HasType(ts: seq<NodeTemplate>, nodeType: string) {
    exists t :: t in ts && t.nodeType == nodeType
  }

  /** getNodeTemplate: the first template of that type, or the not-found error. */
  function GetNodeTemplate(c: Catalog, nodeType: string): (r: Result<NodeTemplate>)
    ensures r.Err? <==> !HasType(AllNodes(c), nodeType)
    ensures r.Err? ==> r.message == TemplateNotFound
    ensures r.Ok? ==> r.value in AllNodes(c) && r.value.nodeType == nodeType
  {
    var all := AllNodes(c);
    match Find(all, (t: NodeTemplate) => t.nodeType == nodeType)
    case Some(t) => Ok(t)
    case None =>
      assert forall t :: t in all ==> t.nodeType != nodeType by {
        forall t | t in all ensures t.nodeType != nodeType {
          var j :| 0 <= j < |all| && all[j] == t;
        }
      }
      Err(TemplateNotFound)
  }

  /** The first template of a type within one category list. */
  function FirstOfType(ts: seq<NodeTemplate>, nodeType: string): Option<NodeTemplate> {
    Find(ts, (t: NodeTemplate) => t.nodeType == nodeType)
  }

  /** getNodeTemplate searches clinical, then administrative, then
      communication, then data, and takes the first match in the first
      category that has one. */
  lemma SearchOrder(c: Catalog, nodeType: string)
    ensures GetNodeTemplate(c, nodeType) ==
      if FirstOfType(c.clinical, nodeType).Some? then Ok(FirstOfType(c.clinical, nodeType).value)
      else if FirstOfType(c.administrative, nodeType).Some? then Ok(FirstOfType(c.administrative, nodeType).value)
      else if FirstOfType(c.communication, nodeType).Some? then Ok(FirstOfType(c.communication, nodeType).value)
      else if FirstOfType(c.data, nodeType).Some? then Ok(FirstOfType(c.data, nodeType).value)
      else Err(TemplateNotFound)
  {
    var p := (t: NodeTemplate) => t.nodeType == nodeType;
    FindAppend(c.clinical + c.administrative + c.communication, c.data, p);
    FindAppend(c.clinical + c.administrative, c.communication, p);
    FindAppend(c.clinical, c.administrative, p);
  }

  /** The message validateNodeConfig reports for a missing field. */
  function MissingMessage(field: string): string {
    "Missing required field: " + field
  }

  /** The validation test for one field: the configured value is falsy and
      the template default is neither `false` nor `0`. */
  predicate IsMissing(config: Fields, field: string, default: Value) {
    !TruthyOpt(Get(config, field)) && default != Bool(false) && default != Num(0.0)
  }

  /** The errors validateNodeConfig collects, defined over the template's
      entries from first to last. */
  function MissingFields(defaults: Fields, config: Fields): seq<string>
    decreases |defaults|
  {
    if defaults == [] then []
    else
      var last := defaults[|defaults| - 1];
      MissingFields(defaults[..|defaults| - 1], config)
        + (if IsMissing(config, last.0, last.1) then [MissingMessage(last.0)] else [])
  }

  /** validateNodeConfig: look the template up, then push one error per
      missing field in template key order. */
  method ValidateNodeConfig(c: Catalog, nodeType: string, config: Fields) returns (r: Result<Validation>)
    ensures GetNodeTemplate(c, nodeType).Err? ==> r == Err(TemplateNotFound)
    ensures GetNodeTemplate(c, nodeType).Ok? ==>
      var errors := MissingFields(GetNodeTemplate(c, nodeType).value.config, config);
      r == Ok(Validation(errors == [], errors))
  {
    var template := GetNodeTemplate(c, nodeType);
    if template.Err? {
      return Err(template.message);
    }
    var fields := template.value.config;
    var errors: seq<string> := [];
    var i := 0;
    while i < |fields|
      invariant 0 <= i <= |fields|
      invariant errors == MissingFields(fields[..i], config)
    {
      var (field, default) := fields[i];
      assert fields[..i + 1][..i] == fields[..i];
      if IsMissing(config, field, default) {
        errors := errors + [MissingMessage(field)];
      }
      i := i + 1;
    }
    assert fields[..|fields|] == fields;
    r := Ok(Validation(|errors| == 0, errors));
  }

  // ---- Properties of the validation ----

  lemma {:induction false} MissingMessageInjective(f: string, g: string)
    requires MissingMessage(f) == MissingMessage(g)
    ensures f == g
  {
    var prefix := "Missing required field: ";
    assert f == MissingMessage(f)[|prefix|..];
    assert g == MissingMessage(g)[|prefix|..];
  }

  /** A missing field is always reported. */
  lemma {:induction false} MissingFieldsComplete(defaults: Fields, config: Fields, i: nat)
    requires i < |defaults| && IsMissing(config, defaults[i].0, defaults[i].1)
    ensures MissingMessage(defaults[i].0) in MissingFields(defaults, config)
    decreases |defaults|
  {
    var n := |defaults| - 1;
    var init := defaults[..n];
    var last := defaults[n];
    var tail := if IsMissing(config, last.0, last.1) then [MissingMessage(last.0)] else [];
    assert MissingFields(defaults, config) == MissingFields(init, config) + tail;
    if i < n {
      assert init[i] == defaults[i];
      MissingFieldsComplete(init, config, i);
    } else {
      assert tail == [MissingMessage(defaults[i].0)];
    }
  }

  /** An error names a field of the template and is reported exactly when that field is missing. */
  lemma MissingFieldsMembership(defaults: Fields, config: Fields, f: string)
    ensures MissingMessage(f) in MissingFields(defaults, config) <==>
      exists i :: 0 <= i < |defaults| && defaults[i].0 == f && IsMissing(config, f, defaults[i].1)
  {
    if MissingMessage(f) in MissingFields(defaults, config) {
      MissingFieldsSound(defaults, config, MissingMessage(f));
      var i :| 0 <= i < |defaults| && MissingMessage(f) == MissingMessage(defaults[i].0)
        && IsMissing(config, defaults[i].0, defaults[i].1);
      MissingMessageInjective(f, defaults[i].0);
    }
    if exists i :: 0 <= i < |defaults| && defaults[i].0 == f && IsMissing(config, f, defaults[i].1) {
      var i :| 0 <= i < |defaults| && defaults[i].0 == f && IsMissing(config, f, defaults[i].1);
      MissingFieldsComplete(defaults, config, i);
    }
  }

  /** With unique keys (every JavaScript object), field `f` gets an error
      iff `config[f]` is falsy and its template default is neither `false` nor `0`. */
  lemma ErrorIffMissing(defaults: Fields, config: Fields, f: string)
    requires UniqueKeys(defaults)
    ensures MissingMessage(f) in MissingFields(defaults, config) <==>
      Get(defaults, f).Some? && IsMissing(config, f, Get(defaults, f).value)
  {
    MissingFieldsMembership(defaults, config, f);
    if exists i :: 0 <= i < |defaults| && defaults[i].0 == f && IsMissing(config, f, defaults[i].1) {
      var i :| 0 <= i < |defaults| && defaults[i].0 == f && IsMissing(config, f, defaults[i].1);
      GetEntry(defaults, i);
    }
    if Get(defaults, f).Some? {
      var e := (f, Get(defaults, f).value);
      var i :| 0 <= i < |defaults| && defaults[i] == e;
      GetEntry(defaults, i);
    }
  }

  /** No field is reported twice, and there are never more errors than fields. */
  lemma {:induction false} AtMostOneErrorPerField(defaults: Fields, config: Fields)
    requires UniqueKeys(defaults)
    ensures |MissingFields(defaults, config)| <= |defaults|
    ensures var e := MissingFields(defaults, config);
      forall i, j :: 0 <= i < j < |e| ==> e[i] != e[j]
    decreases |defaults|
  {
    if defaults != [] {
      var n := |defaults| - 1;
      var init := defaults[..n];
      assert UniqueKeys(init);
      AtMostOneErrorPerField(init, config);
      var f := defaults[n].0;
      if MissingMessage(f) in MissingFields(init, config) {
        MissingFieldsSound(init, config, MissingMessage(f));
        var i :| 0 <= i < |init| && MissingMessage(f) == MissingMessage(init[i].0)
          && IsMissing(config, init[i].0, init[i].1);
        MissingMessageInjective(f, init[i].0);
      }
    }
  }

  /** The errors come in template key order: they are the messages of the
      missing fields, a subsequence of the messages of all the keys. */
  lemma {:induction false} ErrorsInKeyOrder(defaults: Fields, config: Fields)
    ensures IsSubseq(MissingFields(defaults, config), Messages(Keys(defaults)))
    decreases |defaults|
  {
    if defaults != [] {
      var n := |defaults| - 1;
      var init, last := defaults[..n], defaults[n];
      ErrorsInKeyOrder(init, config);
      assert defaults == init + [last];
      KeysAppend(init, last);
      MessagesAppend(Keys(init), last.0);
      var tail := if IsMissing(config, last.0, last.1) then [MissingMessage(last.0)] else [];
      assert MissingFields(defaults, config) == MissingFields(init, config) + tail;
      assert IsSubseq(tail, [MissingMessage(last.0)]);
      SubseqAppend(MissingFields(init, config), Messages(Keys(init)), tail, [MissingMessage(last.0)]);
    }
  }

  /** Appending an entry appends its key. */
  lemma KeysAppend(o: Fields, e: (string, Value))
    ensures Keys(o + [e]) == Keys(o) + [e.0]
  {
    var ks, kr := Keys(o), Keys(o + [e]);
    assert forall i :: 0 <= i < |o| ==> kr[i] == ks[i];
  }

  function Messages(keys: seq<string>): (r: seq<string>)
    ensures |r| == |keys|
  {
    if keys == [] then [] else [MissingMessage(keys[0])] + Messages(keys[1..])
  }

  lemma {:induction false} MessagesAppend(keys: seq<string>, k: string)
    ensures Messages(keys + [k]) == Messages(keys) + [MissingMessage(k)]
  {
    if keys == [] {
      assert [k][1..] == [];
    } else {
      assert (keys + [k])[1..] == keys[1..] + [k];
      MessagesAppend(keys[1..], k);
    }
  }

  /** isValid is true exactly when no field of the template is missing. */
  lemma {:induction false} ValidIffNothingMissing(defaults: Fields, config: Fields)
    ensures MissingFields(defaults, config) == [] <==>
      forall i :: 0 <= i < |defaults| ==> !IsMissing(config, defaults[i].0, defaults[i].1)
  {
    if MissingFields(defaults, config) != [] {
      var m := MissingFields(defaults, config)[0];
      assert m in MissingFields(defaults, config);
      MissingFieldsSound(defaults, config, m);
    } else {
      forall i | 0 <= i < |defaults| ensures !IsMissing(config, defaults[i].0, defaults[i].1) {
        MissingFieldsMembership(defaults, config, defaults[i].0);
      }
    }
  }

  /** Every error is the message of a missing field. */
  lemma {:induction false} MissingFieldsSound(defaults: Fields, config: Fields, m: string)
    requires m in MissingFields(defaults, config)
    ensures exists i :: 0 <= i < |defaults| && m == MissingMessage(defaults[i].0) && IsMissing(config, defaults[i].0, defaults[i].1)
    decreases |defaults|
  {
    var n := |defaults| - 1;
    var init := defaults[..n];
    if m in MissingFields(init, config) {
      MissingFieldsSound(init, config, m);
      var i :| 0 <= i < |init| && m == MissingMessage(init[i].0) && IsMissing(config, init[i].0, init[i].1);
      assert init[i] == defaults[i];
    } else {
      assert m == MissingMessage(defaults[n].0);
    }
  }
}
