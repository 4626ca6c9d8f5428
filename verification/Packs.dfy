/** Pack content: YAML documents, and which dataset references and identities they hold. */
module PackContent {
  import opened Collections

  datatype Yaml =
    | Null
    | Str(s: string)
    | Num(n: int)
    | Bool(b: bool)
    | List(items: seq<Yaml>)
    | Mapping(fields: map<string, Yaml>)

  datatype Component = Component(kind: string, identity: string, doc: Option<Yaml>)

  /** A manifest's components in order; a document that is not YAML is None. */
  datatype Pack = Pack(components: seq<Component>)

  predicate Truthy(y: Yaml) {
    match y
    case Null => false
    case Str(s) => s != ""
    case Num(n) => n != 0
    case Bool(b) => b
    case List(items) => items != []
    case Mapping(fields) => |fields| != 0
  }

  /** What Python can hash: everything but lists and mappings. */
  predicate Hashable(y: Yaml) {
    !y.List? && !y.Mapping?
  }

  /** dict.get: a missing field reads as null. */
  function Get(entry: Yaml, field: string): Yaml {
    if entry.Mapping? && field in entry.fields then entry.fields[field] else Null
  }

  function ListItems(y: Yaml): seq<Yaml> {
    if y.List? then y.items else []
  }

  /** The entries of a component as the linter sees them: one document for the mapping kinds,
      else a list, or a single mapping taken as a list of one. None is the wrong shape. */
  function Entries(kind: string, doc: Yaml): Option<seq<Yaml>> {
    if doc.Null? then Some([])
    else if kind == "semantic_models" || kind == "cases" then
      if doc.Mapping? then Some([doc]) else None
    else if doc.Mapping? then Some([doc])
    else if doc.List? then Some(doc.items)
    else None
  }

  /** The entities of a semantic model; a falsy definition or list counts as empty. */
  function Entities(entry: Yaml): seq<Yaml> {
    ListItems(Get(Get(entry, "definition"), "entities"))
  }

  function HasDataset(e: Yaml): bool {
    e.Mapping? && Truthy(Get(e, "dataset"))
  }

  function DatasetOf(e: Yaml): Yaml {
    Get(e, "dataset")
  }

  /** The references the linter collects from one entry. */
  function LintRefs(kind: string, entry: Yaml): seq<Yaml> {
    if (kind == "pipelines" || kind == "cases") && HasDataset(entry) then [DatasetOf(entry)]
    else if kind == "semantic_models" then Map(DatasetOf, Filter(HasDataset, Entities(entry)))
    else []
  }

  /** The identities the linter collects from one entry. */
  function LintIds(kind: string, entry: Yaml): seq<Yaml> {
    if kind == "datasets" && Truthy(Get(entry, "identity")) then [Get(entry, "identity")] else []
  }

  function HasDatasetField(e: Yaml): bool {
    e.Mapping? && "dataset" in e.fields
  }

  /** The references the installer looks up for one component. */
  function InstallRefs(kind: string, doc: Yaml): seq<Yaml> {
    if kind == "cases" then if HasDatasetField(doc) then [DatasetOf(doc)] else []
    else if kind == "pipelines" then Map(DatasetOf, Filter(HasDatasetField, ListItems(doc)))
    else if kind == "semantic_models" then Map(DatasetOf, Filter(HasDataset, Entities(doc)))
    else []
  }

  function HasIdentity(e: Yaml): bool {
    e.Mapping? && "identity" in e.fields
  }

  function IdentityOf(e: Yaml): Yaml {
    Get(e, "identity")
  }

  function DatasetEntries(doc: Yaml): seq<Yaml> {
    if doc.List? then doc.items else [doc]
  }

  /** The identities the installer binds for one dataset component. */
  function InstallIds(doc: Yaml): seq<Yaml> {
    Map(IdentityOf, Filter(HasIdentity, DatasetEntries(doc)))
  }

  ghost predicate Declared(pack: Pack, id: Yaml) {
    exists c :: c in pack.components && c.kind == "datasets" && c.doc.Some? && id in InstallIds(c.doc.value)
  }

  /** Every reference the installer will look up is declared by some dataset entry, as the very
      same YAML value. */
  ghost predicate Resolves(pack: Pack) {
    forall c, r :: c in pack.components && c.doc.Some? && r in InstallRefs(c.kind, c.doc.value) ==> Declared(pack, r)
  }
}

/** Linting a pack. */
module PackLint {
  import opened Collections
  import opened PackContent

  function Required(kind: string): seq<string> {
    if kind == "dispositions" then ["code", "label", "category"]
    else if kind == "case_fields" then ["name", "data_type"]
    else if kind == "case_schemas" then ["schema_key", "name"]
    else if kind == "display_labels" then ["key", "value"]
    else if kind == "guardrails" || kind == "agent_configs" then ["agent_key"]
    else if kind == "eval_sets" then ["dataset_key", "agent_key"]
    else if kind == "model_archetypes" then ["archetype_key", "name", "task_type"]
    else if kind == "ontology" then ["entity_key", "name"]
    else if kind == "write_adapters" || kind == "connection_templates" then ["name", "connector_type"]
    else if kind == "roles" then ["name", "actions"]
    else if kind == "decision_models" then ["name", "rules"]
    else if kind == "saved_queries" then ["name", "sql"]
    else if kind == "datasets" then ["identity", "name"]
    else if kind == "pipelines" then ["name", "algorithm", "dataset"]
    else if kind == "verified_queries" then ["nl_text", "sql_text"]
    else []
  }

  function NameField(kind: string): Option<string> {
    if kind == "dispositions" then Some("code")
    else if kind == "case_schemas" then Some("schema_key")
    else if kind == "display_labels" then Some("key")
    else if kind == "guardrails" || kind == "agent_configs" then Some("agent_key")
    else if kind == "eval_sets" then Some("dataset_key")
    else if kind == "model_archetypes" then Some("archetype_key")
    else if kind == "ontology" then Some("entity_key")
    else if kind == "datasets" then Some("identity")
    else if kind in {"case_fields", "write_adapters", "connection_templates", "roles", "decision_models",
                     "saved_queries", "pipelines"} then Some("name")
    else None
  }

  /** None, the empty string, list and mapping count as missing; zero and false do not. */
  predicate MissingValue(y: Yaml) {
    y == Null || y == Str("") || y == List([]) || (y.Mapping? && |y.fields| == 0)
  }

  /** What Python would refuse with an exception instead of a finding: a definition or an
      entity list of an impossible type, or a name or category that cannot be hashed. */
  predicate EntryRaises(kind: string, entry: Yaml) {
    entry.Mapping? &&
    (var name := NameOf(kind, entry);
     var definition := Get(entry, "definition");
     var entities := Get(definition, "entities");
     var category := Get(entry, "category");
     || (Truthy(name) && !Hashable(name))
     || (kind == "dispositions" && Truthy(category) && !Hashable(category))
     || (kind == "semantic_models" && Truthy(definition) && !definition.Mapping?)
     || (kind == "semantic_models" && Truthy(entities) && (entities.Num? || entities.Bool?)))
  }

  function NameOf(kind: string, entry: Yaml): Yaml {
    match NameField(kind)
    case None => Null
    case Some(field) => Get(entry, field)
  }

  /** Kind-specific demands: case rows with keys, a dataset for cases, a name for a model. */
  predicate KindOk(kind: string, entry: Yaml) {
    && (kind == "cases" ==>
          && Truthy(Get(entry, "rows"))
          && (forall row :: row in ListItems(Get(entry, "rows")) ==> row.Mapping? && Truthy(Get(row, "row_pk")))
          && Truthy(Get(entry, "dataset")))
    && (kind == "semantic_models" ==> Truthy(Get(entry, "name")))
  }

  predicate FieldsOk(kind: string, entry: Yaml) {
    forall f :: f in Required(kind) ==> !MissingValue(Get(entry, f))
  }

  /** Entry i repeats the name of an earlier one. Earlier names are remembered as text, so only
      a textual name can be found among them. */
  predicate Duplicate(kind: string, entries: seq<Yaml>, i: nat, text: Yaml -> string)
    requires i < |entries|
  {
    var name := NameOf(kind, entries[i]);
    name.Str? && Truthy(name) &&
    exists j :: 0 <= j < i && entries[j].Mapping? && Truthy(NameOf(kind, entries[j])) &&
        text(NameOf(kind, entries[j])) == name.s
  }

  /** No error is reported for entry i. */
  predicate EntryOk(kind: string, entries: seq<Yaml>, i: nat, text: Yaml -> string)
    requires i < |entries|
  {
    if !entries[i].Mapping? then kind == "memories"
    else FieldsOk(kind, entries[i]) && KindOk(kind, entries[i]) && !Duplicate(kind, entries, i, text)
  }

  /** No error is reported for the first n entries. */
  predicate EntriesOk(kind: string, entries: seq<Yaml>, n: nat, text: Yaml -> string)
    requires n <= |entries|
  {
    n == 0 || (EntriesOk(kind, entries, n - 1, text) && EntryOk(kind, entries, n - 1, text))
  }

  predicate ComponentOk(c: Component, text: Yaml -> string) {
    && c.doc.Some? && Entries(c.kind, c.doc.value).Some?
    && var entries := Entries(c.kind, c.doc.value).value;
       EntriesOk(c.kind, entries, |entries|, text)
  }

  predicate ComponentsOk(components: seq<Component>, text: Yaml -> string) {
    components == [] ||
    (ComponentsOk(components[..|components| - 1], text) && ComponentOk(components[|components| - 1], text))
  }

  function Texts(values: seq<Yaml>, text: Yaml -> string): set<string> {
    set y | y in values :: text(y)
  }

  function EntryTexts(entries: seq<Yaml>, of: Yaml -> seq<Yaml>, text: Yaml -> string): set<string> {
    if entries == [] then {}
    else EntryTexts(entries[..|entries| - 1], of, text) + Texts(of(entries[|entries| - 1]), text)
  }

  function RefsIn(kind: string): Yaml -> seq<Yaml> {
    (e: Yaml) => LintRefs(kind, e)
  }

  function IdsIn(kind: string): Yaml -> seq<Yaml> {
    (e: Yaml) => LintIds(kind, e)
  }

  function ComponentTexts(c: Component, of: Yaml -> seq<Yaml>, text: Yaml -> string): set<string> {
    if c.doc.Some? && Entries(c.kind, c.doc.value).Some? then EntryTexts(Entries(c.kind, c.doc.value).value, of, text)
    else {}
  }

  function RefTexts(components: seq<Component>, text: Yaml -> string): set<string> {
    if components == [] then {}
    else
      var last := components[|components| - 1];
      RefTexts(components[..|components| - 1], text) + ComponentTexts(last, RefsIn(last.kind), text)
  }

  function IdTexts(components: seq<Component>, text: Yaml -> string): set<string> {
    if components == [] then {}
    else
      var last := components[|components| - 1];
      IdTexts(components[..|components| - 1], text) + ComponentTexts(last, IdsIn(last.kind), text)
  }

  /** The linter reports no error. text is Python's str(). */
  predicate LintOk(pack: Pack, text: Yaml -> string) {
    && ComponentsOk(pack.components, text)
    && RefTexts(pack.components, text) <= IdTexts(pack.components, text)
  }

  datatype Finding = Finding(code: string, kind: string)

  /** The per-entry checks that need no other entry. */
  method CheckEntry(kind: string, entry: Yaml) returns (errors: seq<Finding>)
    requires entry.Mapping?
    ensures errors == [] <==> FieldsOk(kind, entry) && KindOk(kind, entry)
  {
    errors := [];
    var required, i := Required(kind), 0;
    while i < |required|
      invariant i <= |required|
      invariant errors == [] <==> forall k :: 0 <= k < i ==> !MissingValue(Get(entry, required[k]))
    {
      if MissingValue(Get(entry, required[i])) {
        errors := errors + [Finding("MISSING_FIELD", kind)];
      }
      i := i + 1;
    }
    assert errors == [] <==> FieldsOk(kind, entry);
    if kind == "cases" {
      var more := CheckCases(entry);
      errors := errors + more;
    }
    if kind == "semantic_models" && !Truthy(Get(entry, "name")) {
      errors := errors + [Finding("MISSING_FIELD", kind)];
    }
  }

  method CheckCases(entry: Yaml) returns (errors: seq<Finding>)
    ensures errors == [] <==> KindOk("cases", entry)
  {
    errors := [];
    if !Truthy(Get(entry, "rows")) {
      errors := errors + [Finding("MISSING_FIELD", "cases")];
    } else {
      var rows, j := ListItems(Get(entry, "rows")), 0;
      while j < |rows|
        invariant j <= |rows|
        invariant errors == [] <==> forall k :: 0 <= k < j ==> rows[k].Mapping? && Truthy(Get(rows[k], "row_pk"))
      {
        if !rows[j].Mapping? || !Truthy(Get(rows[j], "row_pk")) {
          errors := errors + [Finding("MISSING_FIELD", "cases")];
        }
        j := j + 1;
      }
    }
    if !Truthy(Get(entry, "dataset")) {
      errors := errors + [Finding("MISSING_FIELD", "cases")];
    }
  }

  /** The names remembered after some entries, as text. */
  function Seen(kind: string, entries: seq<Yaml>, text: Yaml -> string): set<string> {
    set e | e in entries && e.Mapping? && Truthy(NameOf(kind, e)) :: text(NameOf(kind, e))
  }

  lemma SeenSnoc(kind: string, entries: seq<Yaml>, e: Yaml, text: Yaml -> string)
    ensures Seen(kind, entries + [e], text) ==
            Seen(kind, entries, text) + (if e.Mapping? && Truthy(NameOf(kind, e)) then {text(NameOf(kind, e))} else {})
  {
  }

  lemma SeenIsDuplicate(kind: string, entries: seq<Yaml>, i: nat, text: Yaml -> string)
    requires i < |entries|
    ensures Duplicate(kind, entries, i, text) <==>
            (var name := NameOf(kind, entries[i]);
             name.Str? && Truthy(name) && name.s in Seen(kind, entries[..i], text))
  {
    var name := NameOf(kind, entries[i]);
    if name.Str? && Truthy(name) && name.s in Seen(kind, entries[..i], text) {
      var e :| e in entries[..i] && e.Mapping? && Truthy(NameOf(kind, e)) && text(NameOf(kind, e)) == name.s;
      var j :| 0 <= j < i && entries[j] == e;
    }
    if Duplicate(kind, entries, i, text) {
      var j :| 0 <= j < i && entries[j].Mapping? && Truthy(NameOf(kind, entries[j])) &&
          text(NameOf(kind, entries[j])) == name.s;
      assert entries[j] in entries[..i];
    }
  }

  /** One entry, given the names seen before it: its errors, identities and references. */
  method LintEntry(kind: string, entries: seq<Yaml>, i: nat, text: Yaml -> string, before: set<string>)
    returns (errors: seq<Finding>, seen: set<string>, ids: set<string>, refs: set<string>, raised: bool)
    requires i < |entries| && before == Seen(kind, entries[..i], text)
    ensures raised <==> EntryRaises(kind, entries[i])
    ensures !raised ==>
              && (errors == [] <==> EntryOk(kind, entries, i, text))
              && seen == Seen(kind, entries[..i + 1], text)
              && ids == Texts(LintIds(kind, entries[i]), text)
              && refs == Texts(LintRefs(kind, entries[i]), text)
  {
    errors, seen, ids, refs, raised := [], before, {}, {}, false;
    var entry := entries[i];
    assert entries[..i + 1] == entries[..i] + [entry];
    SeenSnoc(kind, entries[..i], entry, text);
    SeenIsDuplicate(kind, entries, i, text);
    if !entry.Mapping? {
      NoTextsOutsideMappings(kind, entry, text);
      if kind != "memories" {
        errors := [Finding("ENTRY_NOT_MAPPING", kind)];
      }
      return;
    }
    errors := CheckEntry(kind, entry);
    var name := NameOf(kind, entry);
    if Truthy(name) {
      if !Hashable(name) {
        return errors, seen, ids, refs, true;
      }
      if name.Str? && name.s in seen {
        errors := errors + [Finding("DUPLICATE_NAME", kind)];
      }
      seen := seen + {text(name)};
    }
    if kind == "dispositions" && Truthy(Get(entry, "category")) && !Hashable(Get(entry, "category")) {
      return errors, seen, ids, refs, true;
    }
    ids, refs, raised := Collect(kind, entry, text);
  }

  lemma OneText(y: Yaml, text: Yaml -> string)
    ensures Texts([y], text) == {text(y)}
  {
  }

  lemma EntityTexts(entities: seq<Yaml>, i: nat, text: Yaml -> string)
    requires i < |entities|
    ensures Texts(Map(DatasetOf, Filter(HasDataset, entities[..i + 1])), text) ==
            Texts(Map(DatasetOf, Filter(HasDataset, entities[..i])), text) +
            (if HasDataset(entities[i]) then {text(DatasetOf(entities[i]))} else {})
  {
    assert entities[..i + 1] == entities[..i] + [entities[i]];
    FilterSnoc(HasDataset, entities[..i], entities[i]);
    if HasDataset(entities[i]) {
      MapSnoc(DatasetOf, Filter(HasDataset, entities[..i]), entities[i]);
    }
  }

  /** What an entry adds to the identities and references, as text. */
  method Collect(kind: string, entry: Yaml, text: Yaml -> string)
    returns (ids: set<string>, refs: set<string>, raised: bool)
    requires entry.Mapping?
    ensures raised <==>
            kind == "semantic_models" &&
            var definition := Get(entry, "definition");
            var entities := Get(definition, "entities");
            (Truthy(definition) && !definition.Mapping?) || (Truthy(entities) && (entities.Num? || entities.Bool?))
    ensures !raised ==> ids == Texts(LintIds(kind, entry), text) && refs == Texts(LintRefs(kind, entry), text)
  {
    ids, refs, raised := {}, {}, false;
    if kind == "datasets" && Truthy(Get(entry, "identity")) {
      OneText(Get(entry, "identity"), text);
      ids := {text(Get(entry, "identity"))};
    }
    if (kind == "pipelines" || kind == "cases") && Truthy(Get(entry, "dataset")) {
      OneText(Get(entry, "dataset"), text);
      refs := {text(Get(entry, "dataset"))};
    }
    if kind == "semantic_models" {
      var definition := Get(entry, "definition");
      if Truthy(definition) && !definition.Mapping? {
        return ids, refs, true;
      }
      var listed := Get(definition, "entities");
      if Truthy(listed) && (listed.Num? || listed.Bool?) {
        return ids, refs, true;
      }
      refs := CollectEntities(ListItems(listed), text);
    }
  }

  method CollectEntities(entities: seq<Yaml>, text: Yaml -> string) returns (refs: set<string>)
    ensures refs == Texts(Map(DatasetOf, Filter(HasDataset, entities)), text)
  {
    refs := {};
    var i := 0;
    while i < |entities|
      invariant i <= |entities|
      invariant refs == Texts(Map(DatasetOf, Filter(HasDataset, entities[..i])), text)
    {
      EntityTexts(entities, i, text);
      if entities[i].Mapping? && Truthy(Get(entities[i], "dataset")) {
        refs := refs + {text(Get(entities[i], "dataset"))};
      }
      i := i + 1;
    }
    assert entities[..|entities|] == entities;
  }

  predicate SomeRaises(kind: string, entries: seq<Yaml>) {
    exists e :: e in entries && EntryRaises(kind, e)
  }

  lemma SomeRaisesSnoc(kind: string, entries: seq<Yaml>, i: nat)
    requires i < |entries|
    ensures SomeRaises(kind, entries[..i + 1]) <==> SomeRaises(kind, entries[..i]) || EntryRaises(kind, entries[i])
    ensures EntryRaises(kind, entries[i]) ==> SomeRaises(kind, entries)
  {
    assert entries[..i + 1] == entries[..i] + [entries[i]];
  }

  /** One component's entries: their errors, and the identities and references they add. */
  method LintEntries(kind: string, entries: seq<Yaml>, text: Yaml -> string)
    returns (errors: seq<Finding>, ids: set<string>, refs: set<string>, raised: bool)
    ensures !raised ==>
              && (errors == [] <==> EntriesOk(kind, entries, |entries|, text))
              && ids == EntryTexts(entries, IdsIn(kind), text)
              && refs == EntryTexts(entries, RefsIn(kind), text)
    ensures raised <==> SomeRaises(kind, entries)
  {
    errors, ids, refs, raised := [], {}, {}, false;
    var seen: set<string> := {};
    var i := 0;
    while i < |entries|
      invariant i <= |entries| && !raised
      invariant !SomeRaises(kind, entries[..i])
      invariant errors == [] <==> EntriesOk(kind, entries, i, text)
      invariant seen == Seen(kind, entries[..i], text)
      invariant ids == EntryTexts(entries[..i], IdsIn(kind), text)
      invariant refs == EntryTexts(entries[..i], RefsIn(kind), text)
    {
      EntryTextsSnoc(entries, i, IdsIn(kind), text);
      EntryTextsSnoc(entries, i, RefsIn(kind), text);
      SomeRaisesSnoc(kind, entries, i);
      var more, moreIds, moreRefs;
      more, seen, moreIds, moreRefs, raised := LintEntry(kind, entries, i, text, seen);
      if raised {
        return;
      }
      errors, ids, refs := errors + more, ids + moreIds, refs + moreRefs;
      i := i + 1;
    }
    assert entries[..|entries|] == entries;
  }

  lemma EntryTextsSnoc(entries: seq<Yaml>, i: nat, of: Yaml -> seq<Yaml>, text: Yaml -> string)
    requires i < |entries|
    ensures EntryTexts(entries[..i + 1], of, text) == EntryTexts(entries[..i], of, text) + Texts(of(entries[i]), text)
  {
    assert entries[..i + 1][..i] == entries[..i];
  }

  lemma NoTextsOutsideMappings(kind: string, entry: Yaml, text: Yaml -> string)
    requires !entry.Mapping?
    ensures Texts(LintIds(kind, entry), text) == {} && Texts(LintRefs(kind, entry), text) == {}
  {
    assert Get(entry, "definition") == Null;
  }

  lemma TextsSnoc(components: seq<Component>, i: nat, text: Yaml -> string)
    requires i < |components|
    ensures var c := components[i];
            && IdTexts(components[..i + 1], text) ==
                IdTexts(components[..i], text) + ComponentTexts(c, IdsIn(c.kind), text)
            && RefTexts(components[..i + 1], text) ==
                RefTexts(components[..i], text) + ComponentTexts(c, RefsIn(c.kind), text)
            && (ComponentsOk(components[..i + 1], text) <==>
                ComponentsOk(components[..i], text) && ComponentOk(c, text))
            && (SomeComponentRaises(components[..i + 1]) <==>
                SomeComponentRaises(components[..i]) || ComponentRaises(c))
  {
    assert components[..i + 1][..i] == components[..i];
  }

  /** One component file: parsed, of the right shape, then entry by entry. */
  method LintComponent(c: Component, text: Yaml -> string)
    returns (errors: seq<Finding>, ids: set<string>, refs: set<string>, raised: bool)
    ensures raised <==> ComponentRaises(c)
    ensures !raised ==>
              && (errors == [] <==> ComponentOk(c, text))
              && ids == ComponentTexts(c, IdsIn(c.kind), text)
              && refs == ComponentTexts(c, RefsIn(c.kind), text)
  {
    if c.doc.None? {
      return [Finding("COMPONENT_UNPARSEABLE", c.kind)], {}, {}, false;
    }
    var entries := Entries(c.kind, c.doc.value);
    if entries.None? {
      return [Finding("WRONG_SHAPE", c.kind)], {}, {}, false;
    }
    errors, ids, refs, raised := LintEntries(c.kind, entries.value, text);
  }

  predicate ComponentRaises(c: Component) {
    && c.doc.Some? && Entries(c.kind, c.doc.value).Some?
    && SomeRaises(c.kind, Entries(c.kind, c.doc.value).value)
  }

  predicate SomeComponentRaises(components: seq<Component>) {
    components != [] &&
    (SomeComponentRaises(components[..|components| - 1]) || ComponentRaises(components[|components| - 1]))
  }

  lemma {:induction false} RaisesByPrefix(components: seq<Component>, i: nat)
    requires i <= |components| && SomeComponentRaises(components[..i])
    ensures SomeComponentRaises(components)
  {
    if i == |components| {
      assert components[..i] == components;
    } else {
      assert components[..|components| - 1][..i] == components[..i];
      RaisesByPrefix(components[..|components| - 1], i);
    }
  }

  /** What loading a pack directory gives. */
  datatype Manifest = Loaded(pack: Pack) | Malformed(code: string)

  /** The linter. A malformed manifest is one error. Otherwise, unless it raises, its report is
      free of errors exactly when a pack is in order entry by entry and every dataset reference
      is, as text, a declared identity. */
  method LintPack(manifest: Manifest, text: Yaml -> string) returns (errors: seq<Finding>, raised: bool)
    ensures manifest.Malformed? ==> !raised && errors == [Finding(manifest.code, "")]
    ensures manifest.Loaded? ==> (raised <==> SomeComponentRaises(manifest.pack.components))
    ensures manifest.Loaded? && !raised ==> (errors == [] <==> LintOk(manifest.pack, text))
  {
    if manifest.Malformed? {
      return [Finding(manifest.code, "")], false;
    }
    var ids, refs;
    errors, ids, refs, raised := LintComponents(manifest.pack.components, text);
    if !raised && !(refs <= ids) {
      errors := errors + [Finding("DATASET_REF_UNRESOLVED", "")];
    }
  }

  /** The first pass: every component, and all identities and references. */
  method LintComponents(components: seq<Component>, text: Yaml -> string)
    returns (errors: seq<Finding>, ids: set<string>, refs: set<string>, raised: bool)
    ensures raised <==> SomeComponentRaises(components)
    ensures !raised ==>
              && (errors == [] <==> ComponentsOk(components, text))
              && ids == IdTexts(components, text)
              && refs == RefTexts(components, text)
  {
    errors, ids, refs, raised := [], {}, {}, false;
    var i := 0;
    while i < |components|
      invariant i <= |components| && !raised
      invariant !SomeComponentRaises(components[..i])
      invariant errors == [] <==> ComponentsOk(components[..i], text)
      invariant ids == IdTexts(components[..i], text)
      invariant refs == RefTexts(components[..i], text)
    {
      TextsSnoc(components, i, text);
      var more, moreIds, moreRefs;
      more, moreIds, moreRefs, raised := LintComponent(components[i], text);
      if raised {
        RaisesByPrefix(components, i + 1);
        return;
      }
      errors, ids, refs := errors + more, ids + moreIds, refs + moreRefs;
      i := i + 1;
    }
    assert components[..|components|] == components;
  }

  lemma {:induction false} EntriesOkAt(kind: string, entries: seq<Yaml>, n: nat, i: nat, text: Yaml -> string)
    requires i < n <= |entries| && EntriesOk(kind, entries, n, text)
    ensures EntryOk(kind, entries, i, text)
  {
    if i < n - 1 {
      EntriesOkAt(kind, entries, n - 1, i, text);
    }
  }

  lemma {:induction false} ComponentOkIn(components: seq<Component>, c: Component, text: Yaml -> string)
    requires c in components && ComponentsOk(components, text)
    ensures ComponentOk(c, text)
  {
    var n := |components| - 1;
    if c != components[n] {
      assert c in components[..n];
      ComponentOkIn(components[..n], c, text);
    }
  }

  lemma {:induction false} EntryTextOf(entries: seq<Yaml>, of: Yaml -> seq<Yaml>, text: Yaml -> string, e: Yaml,
      y: Yaml)
    requires e in entries && y in of(e)
    ensures text(y) in EntryTexts(entries, of, text)
  {
    var n := |entries| - 1;
    if e != entries[n] {
      assert e in entries[..n];
      EntryTextOf(entries[..n], of, text, e, y);
    }
  }

  lemma {:induction false} EntryTextFrom(entries: seq<Yaml>, of: Yaml -> seq<Yaml>, text: Yaml -> string,
      t: string) returns (e: Yaml, y: Yaml)
    requires t in EntryTexts(entries, of, text)
    ensures e in entries && y in of(e) && text(y) == t
  {
    var n := |entries| - 1;
    if t in Texts(of(entries[n]), text) {
      e := entries[n];
      y :| y in of(e) && text(y) == t;
    } else {
      e, y := EntryTextFrom(entries[..n], of, text, t);
    }
  }

  lemma {:induction false} RefTextOf(components: seq<Component>, text: Yaml -> string, c: Component, t: string)
    requires c in components && t in ComponentTexts(c, RefsIn(c.kind), text)
    ensures t in RefTexts(components, text)
  {
    var n := |components| - 1;
    if c != components[n] {
      assert c in components[..n];
      RefTextOf(components[..n], text, c, t);
    }
  }

  lemma {:induction false} IdTextFrom(components: seq<Component>, text: Yaml -> string, t: string)
      returns (c: Component)
    requires t in IdTexts(components, text)
    ensures c in components && t in ComponentTexts(c, IdsIn(c.kind), text)
  {
    var n := |components| - 1;
    if t in ComponentTexts(components[n], IdsIn(components[n].kind), text) {
      c := components[n];
    } else {
      c := IdTextFrom(components[..n], text, t);
    }
  }

  /** Every dataset field and dataset identity of a pack is a string. */
  ghost predicate StringRefs(pack: Pack) {
    forall c :: c in pack.components && c.doc.Some? ==>
      && (forall r :: r in InstallRefs(c.kind, c.doc.value) ==> r.Str?)
      && (c.kind == "datasets" ==> forall r :: r in InstallIds(c.doc.value) ==> r.Str?)
  }

  /** A reference the installer will look up is one the linter has collected, when the
      component is free of errors. */
  lemma InstallRefIsLintRef(c: Component, text: Yaml -> string, r: Yaml)
    requires ComponentOk(c, text) && r in InstallRefs(c.kind, c.doc.value) && r.Str?
    ensures text(r) in ComponentTexts(c, RefsIn(c.kind), text)
  {
    var doc := c.doc.value;
    var entries := Entries(c.kind, doc).value;
    if c.kind == "pipelines" {
      var ps := Filter(HasDatasetField, ListItems(doc));
      var k :| 0 <= k < |ps| && DatasetOf(ps[k]) == r;
      var p := ps[k];
      assert p in ps && p in entries;
      var i :| 0 <= i < |entries| && entries[i] == p;
      EntriesOkAt(c.kind, entries, |entries|, i, text);
      assert "dataset" in Required("pipelines");
      assert !MissingValue(Get(p, "dataset"));
      EntryTextOf(entries, RefsIn(c.kind), text, p, r);
    } else {
      assert entries == [doc];
      EntriesOkAt(c.kind, entries, |entries|, 0, text);
      EntryTextOf(entries, RefsIn(c.kind), text, doc, r);
    }
  }

  /** An identity the linter has collected is one the installer will bind. */
  lemma LintIdIsInstallId(c: Component, text: Yaml -> string, t: string) returns (id: Yaml)
    requires t in ComponentTexts(c, IdsIn(c.kind), text)
    ensures c.kind == "datasets" && c.doc.Some? && id in InstallIds(c.doc.value) && text(id) == t
  {
    var doc := c.doc.value;
    var entries := Entries(c.kind, doc).value;
    var e;
    e, id := EntryTextFrom(entries, IdsIn(c.kind), text, t);
    assert HasIdentity(e) && e in DatasetEntries(doc);
    var es := Filter(HasIdentity, DatasetEntries(doc));
    assert e in es;
    var k :| 0 <= k < |es| && es[k] == e;
    assert InstallIds(doc)[k] == id;
  }

  /** Linter soundness: a pack without lint errors whose references and identities are strings
      has every reference the installer will look up among the identities it will bind. */
  lemma LintIsSound(pack: Pack, text: Yaml -> string)
    requires LintOk(pack, text) && StringRefs(pack) && forall s :: text(Str(s)) == s
    ensures Resolves(pack)
  {
    forall c, r | c in pack.components && c.doc.Some? && r in InstallRefs(c.kind, c.doc.value)
      ensures Declared(pack, r)
    {
      ComponentOkIn(pack.components, c, text);
      InstallRefIsLintRef(c, text, r);
      RefTextOf(pack.components, text, c, text(r));
      var d := IdTextFrom(pack.components, text, text(r));
      var id := LintIdIsInstallId(d, text, text(r));
      assert id == r;
    }
  }

  lemma OneEntry(c: Component, e: Yaml, text: Yaml -> string)
    requires (c.doc == Some(List([e])) || c.doc == Some(e)) && e.Mapping? && c.kind in {"datasets", "pipelines"}
    requires FieldsOk(c.kind, e)
    ensures ComponentOk(c, text)
    ensures ComponentTexts(c, IdsIn(c.kind), text) == Texts(LintIds(c.kind, e), text)
    ensures ComponentTexts(c, RefsIn(c.kind), text) == Texts(LintRefs(c.kind, e), text)
  {
    var entries := [e];
    assert Entries(c.kind, c.doc.value) == Some(entries);
    assert entries[..1] == entries && entries[..0] == [];
    EntryTextsSnoc(entries, 0, IdsIn(c.kind), text);
    EntryTextsSnoc(entries, 0, RefsIn(c.kind), text);
    assert EntryOk(c.kind, entries, 0, text);
    assert EntriesOk(c.kind, entries, 0, text);
  }

  lemma TwoComponents(c0: Component, c1: Component, text: Yaml -> string)
    ensures IdTexts([c0, c1], text) ==
        ComponentTexts(c0, IdsIn(c0.kind), text) + ComponentTexts(c1, IdsIn(c1.kind), text)
    ensures RefTexts([c0, c1], text) ==
        ComponentTexts(c0, RefsIn(c0.kind), text) + ComponentTexts(c1, RefsIn(c1.kind), text)
    ensures ComponentsOk([c0, c1], text) <==> ComponentOk(c0, text) && ComponentOk(c1, text)
  {
    var cs := [c0, c1];
    assert cs[..2] == cs && cs[..1] == [c0] && cs[..0] == [];
    TextsSnoc(cs, 0, text);
    TextsSnoc(cs, 1, text);
  }

  /** A dataset entry with a numeric identity, and a pipeline referring to its text. */
  ghost predicate TextualMatch(text: Yaml -> string, ds: Yaml, p: Yaml, n: int) {
    && ds.Mapping? && FieldsOk("datasets", ds) && HasIdentity(ds) && IdentityOf(ds) == Num(n) && n != 0
    && p.Mapping? && FieldsOk("pipelines", p) && HasDatasetField(p)
    && DatasetOf(p) == Str(text(Num(n))) && text(DatasetOf(p)) == text(Num(n)) != ""
  }

  /** One dataset and one pipeline that refers to it by text, each a list of one or a bare
      mapping, lint without errors. */
  lemma PairLints(text: Yaml -> string, ds: Yaml, p: Yaml, c0: Component, c1: Component)
    requires c0.kind == "datasets" && (c0.doc == Some(List([ds])) || c0.doc == Some(ds))
    requires c1.kind == "pipelines" && (c1.doc == Some(List([p])) || c1.doc == Some(p))
    requires ds.Mapping? && FieldsOk("datasets", ds) && Truthy(IdentityOf(ds))
    requires p.Mapping? && FieldsOk("pipelines", p) && Truthy(DatasetOf(p))
    requires text(DatasetOf(p)) == text(IdentityOf(ds))
    ensures LintOk(Pack([c0, c1]), text)
  {
    OneEntry(c0, ds, text);
    OneEntry(c1, p, text);
    TwoComponents(c0, c1, text);
    var id, r := IdentityOf(ds), DatasetOf(p);
    assert LintIds(c0.kind, ds) == [id] && LintRefs(c1.kind, p) == [r] && LintRefs(c0.kind, ds) == [];
    OneText(id, text);
    OneText(r, text);
  }

  /** Strings are needed: the linter compares references as text, the installer as values. A
      dataset entry whose identity is a number satisfies the linter for a pipeline that refers
      to the number's text, but not the installer. */
  lemma NumberIsNotItsText(text: Yaml -> string, ds: Yaml, p: Yaml, n: int, c0: Component, c1: Component)
    requires TextualMatch(text, ds, p, n)
    requires c0 == Component("datasets", "d", Some(List([ds]))) && c1 == Component("pipelines", "p", Some(List([p])))
    ensures LintOk(Pack([c0, c1]), text) && !Resolves(Pack([c0, c1]))
  {
    PairLints(text, ds, p, c0, c1);
    OneInstalled(c0, ds, n, c1, p);
    var r := DatasetOf(p);
    assert c1 in [c0, c1];
    forall c | c in [c0, c1] && c.kind == "datasets" ensures c == c0 {
    }
    assert !Declared(Pack([c0, c1]), r);
  }

  lemma OneInstalled(c0: Component, ds: Yaml, n: int, c1: Component, p: Yaml)
    requires c0 == Component("datasets", "d", Some(List([ds]))) && HasIdentity(ds) && IdentityOf(ds) == Num(n)
    requires c1 == Component("pipelines", "p", Some(List([p]))) && HasDatasetField(p)
    ensures InstallIds(c0.doc.value) == [Num(n)] && InstallRefs(c1.kind, c1.doc.value) == [DatasetOf(p)]
  {
    Single(HasDatasetField, DatasetOf, p);
    Single(HasIdentity, IdentityOf, ds);
  }

  lemma Single(has: Yaml -> bool, field: Yaml -> Yaml, y: Yaml)
    requires has(y)
    ensures Map(field, Filter(has, [y])) == [field(y)]
  {
    FilterAll(has, [y]);
  }

  lemma DatasetFieldsOk(ds: Yaml)
    requires !MissingValue(Get(ds, "identity")) && !MissingValue(Get(ds, "name"))
    ensures FieldsOk("datasets", ds)
  {
  }

  lemma PipelineFieldsOk(p: Yaml)
    requires !MissingValue(Get(p, "name")) && !MissingValue(Get(p, "algorithm")) && !MissingValue(Get(p, "dataset"))
    ensures FieldsOk("pipelines", p)
  {
  }

  /** Such a pack exists: identity 5, reference "5". */
  lemma FiveIsAMatch(text: Yaml -> string) returns (ds: Yaml, p: Yaml)
    requires text(Num(5)) == "5" && text(Str("5")) == "5"
    ensures TextualMatch(text, ds, p, 5)
  {
    ds := Mapping(map["identity" := Num(5), "name" := Str("d")]);
    p := Mapping(map["name" := Str("p"), "algorithm" := Str("a"), "dataset" := Str("5")]);
    DatasetFieldsOk(ds);
    PipelineFieldsOk(p);
  }
}
