/** Installing a pack: components in install order, dataset references bound to live URNs,
    the first failure stopping the run unless it is told to keep going. */
module PackInstall {
  import opened Collections
  import opened PackContent
  import PackLint

  const INSTALL_ORDER: seq<string> := [
    "datasets", "semantic_models", "verified_queries", "saved_queries",
    "dashboards", "dispositions", "case_fields", "case_schemas", "ontology",
    "decision_models", "cases", "roles", "agent_configs", "guardrails",
    "memories", "pipelines", "display_labels", "eval_sets", "model_archetypes",
    "write_adapters", "connection_templates"]

  /** Kinds whose file must be a list of entries, and kinds whose file may also be one entry. */
  const LIST_KINDS: set<string> := {
    "verified_queries", "dispositions", "roles", "agent_configs", "ontology", "write_adapters", "connection_templates"}
  const EITHER_KINDS: set<string> := {"saved_queries", "decision_models"}

  /** The fields the installer takes from an entry of these kinds. */
  function Taken(kind: string, listed: bool): seq<string> {
    if kind == "verified_queries" then ["nl_text", "sql_text"]
    else if kind == "dispositions" then ["code", "label", "category"]
    else if kind == "roles" then ["name", "actions"]
    else if kind == "agent_configs" then ["agent_key"]
    else if kind == "ontology" then ["entity_key", "name"]
    else if kind == "write_adapters" || kind == "connection_templates" then ["name", "connector_type"]
    else if kind == "saved_queries" then ["identity", "name", "sql"]
    else if kind == "decision_models" then if listed then ["identity", "name", "rules"] else ["name", "rules"]
    else []
  }

  /** Kinds in the order for which nothing is done. */
  const NO_BRANCH: set<string> := {
    "case_fields", "case_schemas", "guardrails", "display_labels", "eval_sets", "model_archetypes"}

  /** One ledger action; unknownRef marks the failure "unknown dataset ref". */
  datatype Action = Action(kind: string, failed: bool, unknownRef: bool)

  type Urns = map<Yaml, string>

  predicate SomeFailed(actions: seq<Action>) {
    exists a :: a in actions && a.failed
  }

  ghost predicate SomeUnknown(actions: seq<Action>) {
    exists a :: a in actions && a.unknownRef
  }

  ghost predicate DatasetFailed(actions: seq<Action>) {
    exists a :: a in actions && a.kind == "datasets" && a.failed
  }

  /** The identities a list of dataset entries binds. */
  function Ids(entries: seq<Yaml>): set<Yaml> {
    set e | e in entries && HasIdentity(e) :: IdentityOf(e)
  }

  lemma IdsSnoc(entries: seq<Yaml>, i: nat)
    requires i < |entries|
    ensures Ids(entries[..i + 1]) == Ids(entries[..i]) + Ids([entries[i]])
    ensures Ids(entries[..i + 1]) <= Ids(entries)
  {
    assert entries[..i + 1] == entries[..i] + [entries[i]];
  }

  /** Some entry with a reference, as told by has, refers to nothing bound. */
  ghost predicate Missing(entries: seq<Yaml>, has: Yaml -> bool, urns: Urns) {
    exists e :: e in entries && has(e) && DatasetOf(e) !in urns
  }

  /** Some reference the installer looks up in this component is not bound. */
  ghost predicate Dangles(c: Component, urns: Urns) {
    c.doc.Some? && exists r :: r in InstallRefs(c.kind, c.doc.value) && r !in urns
  }

  ghost predicate DanglesIn(components: seq<Component>, urns: Urns) {
    exists c :: c in components && Dangles(c, urns)
  }

  ghost predicate Binds(c: Component, urns: Urns) {
    c.kind == "datasets" && c.doc.Some? ==> forall id :: id in InstallIds(c.doc.value) ==> id in urns
  }

  ghost predicate AllBound(components: seq<Component>, urns: Urns) {
    forall c :: c in components ==> Binds(c, urns)
  }

  lemma MissingSnoc(entries: seq<Yaml>, i: nat, has: Yaml -> bool, urns: Urns)
    requires i < |entries|
    ensures Missing(entries[..i + 1], has, urns) <==>
            Missing(entries[..i], has, urns) || (has(entries[i]) && DatasetOf(entries[i]) !in urns)
    ensures Missing(entries[..i + 1], has, urns) ==> Missing(entries, has, urns)
  {
    assert entries[..i + 1] == entries[..i] + [entries[i]];
  }

  lemma MissingIsDangling(entries: seq<Yaml>, has: Yaml -> bool, urns: Urns)
    ensures Missing(entries, has, urns) <==> exists r :: r in Map(DatasetOf, Filter(has, entries)) && r !in urns
  {
    var es := Filter(has, entries);
    var rs := Map(DatasetOf, es);
    if Missing(entries, has, urns) {
      var e :| e in entries && has(e) && DatasetOf(e) !in urns;
      var k :| 0 <= k < |es| && es[k] == e;
      assert rs[k] == DatasetOf(e);
    }
    if r :| r in rs && r !in urns {
      var k :| 0 <= k < |rs| && rs[k] == r;
      assert es[k] in es && DatasetOf(es[k]) == r;
    }
  }

  lemma IdsAreInstallIds(doc: Yaml)
    ensures forall id :: id in Ids(DatasetEntries(doc)) <==> id in InstallIds(doc)
  {
    var es := Filter(HasIdentity, DatasetEntries(doc));
    forall id ensures id in Ids(DatasetEntries(doc)) <==> id in InstallIds(doc) {
      if id in Ids(DatasetEntries(doc)) {
        var e :| e in DatasetEntries(doc) && HasIdentity(e) && IdentityOf(e) == id;
        var k :| 0 <= k < |es| && es[k] == e;
        assert InstallIds(doc)[k] == id;
      }
      if id in InstallIds(doc) {
        var k :| 0 <= k < |es| && InstallIds(doc)[k] == id;
        assert es[k] in es;
      }
    }
  }

  predicate HasField(y: Yaml, field: string) {
    y.Mapping? && field in y.fields
  }

  /** What a Python for loop over a document visits: None when it raises before or at the
      first element that cannot be an entry. */
  function Iterated(doc: Yaml): Option<seq<Yaml>> {
    if doc.List? then Some(doc.items)
    else if doc == Str("") || (doc.Mapping? && |doc.fields| == 0) then Some([])
    else None
  }

  /** len() of a document; only lists and mappings reach it. */
  function Length(doc: Yaml): nat {
    match doc
    case List(items) => |items|
    case Mapping(fields) => |fields|
    case _ => 0
  }

  /** The dataset entries an install can get past, and those that give it no reason to raise. */
  predicate TakesDataset(ds: Yaml) {
    HasField(ds, "name") && if Truthy(Get(ds, "file")) then Get(ds, "file").Str? else HasIdentity(ds)
  }

  predicate GoodDataset(ds: Yaml) {
    TakesDataset(ds) && HasIdentity(ds) && Hashable(IdentityOf(ds))
  }

  predicate GoodModel(doc: Yaml) {
    && HasField(doc, "definition") && HasField(doc, "name")
    && var definition := Get(doc, "definition");
       && (definition.Mapping? || definition == List([]) || definition == Str(""))
       && (HasField(definition, "entities") ==> Iterated(Get(definition, "entities")).Some?)
       && forall e :: e in Entities(doc) ==> GoodEntity(e)
  }

  predicate GoodEntity(e: Yaml) {
    e.Mapping? && (Truthy(DatasetOf(e)) ==> Hashable(DatasetOf(e)))
  }

  /** A dataset reference that can be looked up. */
  predicate CanLookUp(e: Yaml) {
    HasDatasetField(e) && Hashable(DatasetOf(e))
  }

  predicate GoodPipeline(p: Yaml) {
    CanLookUp(p) && HasField(p, "algorithm") && HasField(p, "name")
  }

  predicate GoodCases(doc: Yaml) {
    CanLookUp(doc) && HasField(doc, "rows")
  }

  predicate GoodSource(s: Yaml) {
    s.Mapping? && (!HasField(s, "measure") && HasField(s, "saved_query") ==> Hashable(Get(s, "saved_query")))
  }

  /** A chart whose sources can be expanded; false sources count as none. */
  predicate GoodChart(chart: Yaml) {
    && chart.Mapping?
    && (Truthy(Get(chart, "sources")) ==> Get(chart, "sources").List?)
    && forall s :: s in ListItems(Get(chart, "sources")) ==> GoodSource(s)
  }

  predicate GoodCharts(doc: Yaml) {
    && (HasField(doc, "charts") ==> Iterated(Get(doc, "charts")).Some?)
    && forall chart :: chart in ListItems(Get(doc, "charts")) ==> GoodChart(chart)
  }

  /** What dict() takes as a pair inside a list: anything with two elements, even a mapping with
      two fields. */
  predicate IsPair(p: Yaml) {
    match p
    case Str(s) => |s| == 2
    case List(items) => |items| == 2 && Hashable(items[0])
    case Mapping(fields) => |fields| == 2
    case _ => false
  }

  /** The pair may have charts for its key. */
  predicate MayNameCharts(p: Yaml) {
    HasField(p, "charts") || (p.List? && p.items != [] && p.items[0] == Str("charts"))
  }

  predicate TakesDashboard(doc: Yaml) {
    match doc
    case Mapping(_) => GoodCharts(doc)
    case List(items) => forall p :: p in items ==> IsPair(p)
    case Str(s) => s == ""
    case _ => false
  }

  predicate GoodDashboard(doc: Yaml) {
    TakesDashboard(doc) && (doc.List? ==> forall p :: p in doc.items ==> !MayNameCharts(p))
  }

  predicate HasFields(e: Yaml, fields: seq<string>) {
    e.Mapping? && forall f :: f in fields ==> HasField(e, f)
  }

  predicate TakesEntries(kind: string) {
    kind in LIST_KINDS || kind in EITHER_KINDS
  }

  /** The entries the installer visits. */
  function Visits(kind: string, doc: Yaml): Option<seq<Yaml>> {
    if kind in LIST_KINDS then Iterated(doc) else Some(DatasetEntries(doc))
  }

  /** Every entry it visits has the fields it takes. */
  predicate TakesFields(kind: string, doc: Yaml) {
    Visits(kind, doc).Some? && var fields := Taken(kind, doc.List?);
    forall e :: e in Visits(kind, doc).value ==> HasFields(e, fields)
  }

  predicate GoodEntries(kind: string, doc: Yaml) {
    TakesFields(kind, doc) &&
    (kind == "saved_queries" ==> forall e :: e in DatasetEntries(doc) ==> Hashable(IdentityOf(e)))
  }

  /** A component whose shape gives the installer itself no reason to raise. */
  predicate WellShaped(c: Component) {
    c.doc.Some? && GoodDoc(c.kind, c.doc.value)
  }

  predicate GoodDoc(kind: string, doc: Yaml) {
    if kind == "datasets" then forall ds :: ds in DatasetEntries(doc) ==> GoodDataset(ds)
    else if kind == "semantic_models" then GoodModel(doc)
    else if kind == "cases" then GoodCases(doc)
    else if kind == "pipelines" then Iterated(doc).Some? && forall p :: p in ListItems(doc) ==> GoodPipeline(p)
    else if kind == "dashboards" then GoodDashboard(doc)
    else TakesEntries(kind) ==> GoodEntries(kind, doc)
  }

  /** A component the installer can get past without raising. It may yet raise on one that is
      not well shaped: when a reference or a new saved query makes it look further, or for one
      order of a pair's fields. */
  predicate Takes(c: Component) {
    c.doc.Some? && TakesDoc(c.kind, c.doc.value)
  }

  predicate TakesDoc(kind: string, doc: Yaml) {
    if kind == "datasets" then forall ds :: ds in DatasetEntries(doc) ==> TakesDataset(ds)
    else if kind == "semantic_models" then GoodModel(doc)
    else if kind == "cases" then CanLookUp(doc)
    else if kind == "pipelines" then Iterated(doc).Some? && forall p :: p in ListItems(doc) ==> CanLookUp(p)
    else if kind == "dashboards" then TakesDashboard(doc)
    else TakesEntries(kind) ==> TakesFields(kind, doc)
  }

  predicate TakesAll(components: seq<Component>) {
    forall c :: c in components ==> Takes(c)
  }

  predicate WellShapedIn(components: seq<Component>) {
    forall c :: c in components ==> WellShaped(c)
  }

  lemma TakenSoFar(before: seq<Component>, after: seq<Component>)
    requires before <= after && TakesAll(before)
    ensures TakesAll(after[|before|..]) ==> TakesAll(after)
  {
    assert after == before + after[|before|..];
  }

  /** The components in the order an install visits them, for the first k kinds. */
  function InOrder(pack: Pack, order: seq<string>, k: nat): seq<Component>
    requires k <= |order|
  {
    if k == 0 then [] else InOrder(pack, order, k - 1) + ComponentsOf(pack, order[k - 1])
  }

  function IsKind(kind: string): Component -> bool {
    (c: Component) => c.kind == kind
  }

  function ComponentsOf(pack: Pack, kind: string): (r: seq<Component>)
    ensures forall c :: c in r <==> c in pack.components && c.kind == kind
  {
    Filter(IsKind(kind), pack.components)
  }

  function NewActions(kind: string, answers: seq<bool>): (r: seq<Action>)
    ensures forall a :: a in r ==> a.kind == kind && !a.unknownRef
  {
    Map((failed: bool) => Action(kind, failed, false), answers)
  }

  /** One install: the client's actions and the URNs bound so far. A method that raises stands
      for a Python exception that ends the install. Any demand the client itself makes on the
      values it is handed counts as the platform's. */
  class Installer {
    var actions: seq<Action>
    var datasetUrns: Urns
    var crashed: bool  // some call to the platform, or the reading of a seed file, has raised
    ghost var visited: seq<Component>

    constructor ()
      ensures actions == [] && datasetUrns == map[] && !crashed && visited == []
    {
      actions, datasetUrns, crashed, visited := [], map[], false, [];
    }

    /** Any ensure_* call: it records what the platform answered, and may raise. */
    method PlatformCall(kind: string) returns (raised: bool)
      modifies this`actions, this`crashed
      ensures old(actions) <= actions && crashed == (old(crashed) || raised)
      ensures SomeUnknown(actions) <==> old(SomeUnknown(actions))
      ensures kind != "datasets" ==> (DatasetFailed(actions) <==> old(DatasetFailed(actions)))
    {
      var answers: seq<bool>;
      answers, raised := *, *;
      actions, crashed := actions + NewActions(kind, answers), crashed || raised;
    }

    /** Uploads or binds one dataset: a URN, or nothing and a recorded failure. */
    method DatasetCall() returns (urn: Option<string>, raised: bool)
      modifies this`actions, this`crashed
      ensures old(actions) <= actions && crashed == (old(crashed) || raised)
      ensures SomeUnknown(actions) <==> old(SomeUnknown(actions))
      ensures !raised && urn.None? ==> DatasetFailed(actions)
    {
      raised := PlatformCall("datasets");
      urn := *;
      if urn.None? {
        actions := actions + [Action("datasets", true, false)];
      }
    }

    method RecordUnknown(kind: string)
      modifies this`actions
      ensures old(actions) <= actions && SomeUnknown(actions)
      ensures kind != "datasets" ==> (DatasetFailed(actions) <==> old(DatasetFailed(actions)))
      ensures SomeFailed(actions)
    {
      var a := Action(kind, true, true);
      actions := actions + [a];
      assert a in actions;
    }

    method DatasetEntry(ds: Yaml, len: nat) returns (raised: bool)
      modifies this`actions, this`crashed, this`datasetUrns
      ensures raised ==> crashed || !GoodDataset(ds)
      ensures !raised ==> TakesDataset(ds)
      ensures old(actions) <= actions
      ensures SomeUnknown(actions) <==> old(SomeUnknown(actions))
      ensures old(datasetUrns).Keys <= datasetUrns.Keys <= old(datasetUrns).Keys + Ids([ds])
      ensures !raised && !DatasetFailed(actions) ==> Ids([ds]) <= datasetUrns.Keys
    {
      if !ds.Mapping? || !HasField(ds, "name") {
        return true;
      }
      if Truthy(Get(ds, "file")) {
        if !Get(ds, "file").Str? || (len != 1 && !HasIdentity(ds)) {
          return true;
        }
      } else if !HasIdentity(ds) {
        return true;
      }
      var urn;
      urn, raised := DatasetCall();
      if raised {
        return;
      }
      if urn.Some? {
        if !HasIdentity(ds) || !Hashable(IdentityOf(ds)) {
          return true;
        }
        assert IdentityOf(ds) in Ids([ds]);
        datasetUrns := datasetUrns[IdentityOf(ds) := urn.value];
      }
    }

    method InstallDatasets(doc: Yaml) returns (raised: bool)
      modifies this`actions, this`crashed, this`datasetUrns
      ensures raised ==> crashed || !(forall ds :: ds in DatasetEntries(doc) ==> GoodDataset(ds))
      ensures old(actions) <= actions
      ensures SomeUnknown(actions) <==> old(SomeUnknown(actions))
      ensures !raised ==> forall ds :: ds in DatasetEntries(doc) ==> TakesDataset(ds)
      ensures old(datasetUrns).Keys <= datasetUrns.Keys <= old(datasetUrns).Keys + Ids(DatasetEntries(doc))
      ensures !raised && !DatasetFailed(actions) ==> Ids(DatasetEntries(doc)) <= datasetUrns.Keys
    {
      raised := false;
      var entries, i := DatasetEntries(doc), 0;
      while i < |entries|
        invariant i <= |entries| && old(actions) <= actions
        invariant SomeUnknown(actions) <==> old(SomeUnknown(actions))
        invariant forall j :: 0 <= j < i ==> TakesDataset(entries[j])
        invariant old(datasetUrns).Keys <= datasetUrns.Keys <= old(datasetUrns).Keys + Ids(entries[..i])
        invariant !DatasetFailed(actions) ==> Ids(entries[..i]) <= datasetUrns.Keys
      {
        IdsSnoc(entries, i);
        raised := DatasetEntry(entries[i], Length(doc));
        if raised {
          return;
        }
        i := i + 1;
      }
      assert entries[..|entries|] == entries;
    }

    /** Looks one reference up; an unknown one is recorded as a failure. */
    method LookUp(kind: string, ref: Yaml) returns (found: bool, raised: bool)
      requires kind != "datasets"
      modifies this`actions
      ensures old(actions) <= actions
      ensures raised <==> !Hashable(ref)
      ensures !raised ==> found == (ref in datasetUrns)
      ensures !raised && !found ==> SomeUnknown(actions) && SomeFailed(actions)
      ensures raised || found ==> actions == old(actions)
      ensures DatasetFailed(actions) <==> old(DatasetFailed(actions))
    {
      found, raised := false, !Hashable(ref);
      if raised {
        return;
      }
      found := ref in datasetUrns;
      if !found {
        RecordUnknown(kind);
      }
    }

    method InstallSemanticModel(doc: Yaml) returns (raised: bool)
      modifies this`actions, this`crashed
      ensures raised ==> crashed || !GoodModel(doc)
      ensures !raised ==> GoodModel(doc)
      ensures old(actions) <= actions
      ensures SomeUnknown(actions) ==> old(SomeUnknown(actions)) || Missing(Entities(doc), HasDataset, datasetUrns)
      ensures !raised && Missing(Entities(doc), HasDataset, datasetUrns) ==> SomeUnknown(actions) && SomeFailed(actions)
      ensures DatasetFailed(actions) <==> old(DatasetFailed(actions))
    {
      if !HasField(doc, "definition") {
        return true;
      }
      var definition := Get(doc, "definition");
      if !definition.Mapping? && definition != List([]) && definition != Str("") {
        return true;
      }
      var listed := if HasField(definition, "entities") then Iterated(Get(definition, "entities")) else Some([]);
      if listed.None? {
        return true;
      }
      var entities, i := listed.value, 0;
      assert entities == Entities(doc);
      while i < |entities|
        invariant i <= |entities| && old(actions) <= actions
        invariant forall j :: 0 <= j < i ==> GoodEntity(entities[j])
        invariant SomeUnknown(actions) ==> old(SomeUnknown(actions)) || Missing(entities[..i], HasDataset, datasetUrns)
        invariant Missing(entities[..i], HasDataset, datasetUrns) ==> SomeUnknown(actions) && SomeFailed(actions)
        invariant DatasetFailed(actions) <==> old(DatasetFailed(actions))
      {
        MissingSnoc(entities, i, HasDataset, datasetUrns);
        var entity := entities[i];
        assert entity in Entities(doc);
        if !entity.Mapping? {
          return true;
        }
        if Truthy(DatasetOf(entity)) {
          var found;
          found, raised := LookUp("semantic_models", DatasetOf(entity));
          if raised {
            return;
          }
        }
        i := i + 1;
      }
      assert entities[..|entities|] == entities;
      if !HasField(doc, "name") {
        return true;
      }
      raised := PlatformCall("semantic_models");
    }

    method PipelineEntry(p: Yaml) returns (raised: bool)
      modifies this`actions, this`crashed
      ensures raised ==> crashed || !GoodPipeline(p)
      ensures !raised ==> CanLookUp(p)
      ensures old(actions) <= actions
      ensures SomeUnknown(actions) ==>
          old(SomeUnknown(actions)) || (HasDatasetField(p) && DatasetOf(p) !in datasetUrns)
      ensures !raised && HasDatasetField(p) && DatasetOf(p) !in datasetUrns ==>
          SomeUnknown(actions) && SomeFailed(actions)
      ensures DatasetFailed(actions) <==> old(DatasetFailed(actions))
    {
      if !HasDatasetField(p) {
        return true;
      }
      var found;
      found, raised := LookUp("pipelines", DatasetOf(p));
      if raised || !found {
        return;
      }
      if !HasField(p, "algorithm") || !HasField(p, "name") {
        return true;
      }
      raised := PlatformCall("pipelines");
    }

    method InstallPipelines(doc: Yaml) returns (raised: bool)
      modifies this`actions, this`crashed
      ensures raised ==> crashed || !(Iterated(doc).Some? && forall p :: p in ListItems(doc) ==> GoodPipeline(p))
      ensures !raised ==> Iterated(doc).Some? && forall p :: p in ListItems(doc) ==> CanLookUp(p)
      ensures old(actions) <= actions
      ensures SomeUnknown(actions) ==>
          old(SomeUnknown(actions)) || Missing(ListItems(doc), HasDatasetField, datasetUrns)
      ensures !raised && Missing(ListItems(doc), HasDatasetField, datasetUrns) ==>
          SomeUnknown(actions) && SomeFailed(actions)
      ensures DatasetFailed(actions) <==> old(DatasetFailed(actions))
    {
      raised := false;
      if Iterated(doc).None? {
        return true;
      }
      var entries, i := Iterated(doc).value, 0;
      assert entries == ListItems(doc);
      while i < |entries|
        invariant i <= |entries| && old(actions) <= actions && !raised
        invariant forall j :: 0 <= j < i ==> CanLookUp(entries[j])
        invariant SomeUnknown(actions) ==>
            old(SomeUnknown(actions)) || Missing(entries[..i], HasDatasetField, datasetUrns)
        invariant Missing(entries[..i], HasDatasetField, datasetUrns) ==> SomeUnknown(actions) && SomeFailed(actions)
        invariant DatasetFailed(actions) <==> old(DatasetFailed(actions))
      {
        MissingSnoc(entries, i, HasDatasetField, datasetUrns);
        assert entries[i] in ListItems(doc);
        raised := PipelineEntry(entries[i]);
        if raised {
          return;
        }
        i := i + 1;
      }
      assert entries[..|entries|] == entries;
    }

    method InstallCases(doc: Yaml) returns (raised: bool)
      modifies this`actions, this`crashed
      ensures raised ==> crashed || !GoodCases(doc)
      ensures !raised ==> CanLookUp(doc)
      ensures old(actions) <= actions
      ensures SomeUnknown(actions) ==>
          old(SomeUnknown(actions)) || (HasDatasetField(doc) && DatasetOf(doc) !in datasetUrns)
      ensures !raised && HasDatasetField(doc) && DatasetOf(doc) !in datasetUrns ==>
          SomeUnknown(actions) && SomeFailed(actions)
      ensures DatasetFailed(actions) <==> old(DatasetFailed(actions))
    {
      if !HasDatasetField(doc) {
        return true;
      }
      var found;
      found, raised := LookUp("cases", DatasetOf(doc));
      if raised || !found {
        return;
      }
      if !HasField(doc, "rows") {
        return true;
      }
      raised := PlatformCall("cases");
    }

    /** A chart's sources, each a measure, a saved query or given as it is. */
    method ExpandSources(chart: Yaml) returns (raised: bool)
      ensures raised <==> !GoodChart(chart)
    {
      if !chart.Mapping? || (Truthy(Get(chart, "sources")) && !Get(chart, "sources").List?) {
        return true;
      }
      var sources, i := ListItems(Get(chart, "sources")), 0;
      while i < |sources|
        invariant i <= |sources| && forall j :: 0 <= j < i ==> GoodSource(sources[j])
      {
        var s := sources[i];
        assert s in ListItems(Get(chart, "sources"));
        if !s.Mapping? {
          return true;
        }
        if !HasField(s, "measure") && HasField(s, "saved_query") && !Hashable(Get(s, "saved_query")) {
          return true;
        }
        i := i + 1;
      }
      raised := false;
    }

    /** A dashboard: dict() of the document, its charts' sources expanded, then one call. */
    method InstallDashboard(doc: Yaml) returns (raised: bool)
      modifies this`actions, this`crashed
      ensures raised ==> crashed || !GoodDashboard(doc)
      ensures !raised ==> TakesDashboard(doc)
      ensures old(actions) <= actions
      ensures SomeUnknown(actions) <==> old(SomeUnknown(actions))
      ensures DatasetFailed(actions) <==> old(DatasetFailed(actions))
    {
      if !doc.Mapping? && !doc.List? && doc != Str("") {
        return true;
      }
      if doc.List? {
        raised := PairsRaise(doc.items);
      } else {
        raised := ExpandCharts(doc);
      }
      if !raised {
        raised := PlatformCall("dashboards");
      }
    }

    /** dict() of a list of pairs. Which field of a two-field mapping is the pair's key depends on
        an order that documents do not have here, so one that may name charts may raise or not. */
    method PairsRaise(items: seq<Yaml>) returns (raised: bool)
      ensures !raised ==> forall p :: p in items ==> IsPair(p)
      ensures raised ==> exists p :: p in items && (!IsPair(p) || MayNameCharts(p))
    {
      raised := *;
      if forall p :: p in items ==> IsPair(p) && !MayNameCharts(p) {
        raised := false;
      }
      if exists p :: p in items && !IsPair(p) {
        raised := true;
      }
    }

    method ExpandCharts(doc: Yaml) returns (raised: bool)
      ensures raised <==> !GoodCharts(doc)
    {
      var charts := if HasField(doc, "charts") then Iterated(Get(doc, "charts")) else Some([]);
      if charts.None? {
        return true;
      }
      assert charts.value == ListItems(Get(doc, "charts"));
      var i := 0;
      while i < |charts.value|
        invariant i <= |charts.value| && forall j :: 0 <= j < i ==> GoodChart(charts.value[j])
      {
        raised := ExpandSources(charts.value[i]);
        if raised {
          return;
        }
        i := i + 1;
      }
      raised := false;
    }

    /** The components that are entries with fields to take, one platform call each. */
    method InstallEntries(kind: string, doc: Yaml) returns (raised: bool)
      requires kind != "datasets"
      modifies this`actions, this`crashed
      ensures raised ==> crashed || !GoodEntries(kind, doc)
      ensures !raised ==> TakesFields(kind, doc)
      ensures old(actions) <= actions
      ensures SomeUnknown(actions) <==> old(SomeUnknown(actions))
      ensures DatasetFailed(actions) <==> old(DatasetFailed(actions))
    {
      raised := false;
      var visits, fields := Visits(kind, doc), Taken(kind, doc.List?);
      if visits.None? {
        return true;
      }
      var entries, i := visits.value, 0;
      while i < |entries|
        invariant i <= |entries| && old(actions) <= actions && !raised
        invariant forall j :: 0 <= j < i ==> HasFields(entries[j], fields)
        invariant SomeUnknown(actions) <==> old(SomeUnknown(actions))
        invariant DatasetFailed(actions) <==> old(DatasetFailed(actions))
      {
        var e := entries[i];
        assert e in visits.value;
        if !HasFields(e, fields) {
          return true;
        }
        raised := PlatformCall(kind);
        if raised {
          return;
        }
        var created: bool := *;
        if kind == "saved_queries" && created && !Hashable(IdentityOf(e)) {
          return true;
        }
        i := i + 1;
      }
    }

    /** A component of a kind without dataset references. */
    method InstallOther(c: Component) returns (raised: bool)
      requires c.doc.Some? && c.kind !in {"datasets", "semantic_models", "cases", "pipelines"}
      modifies this`actions, this`crashed
      ensures raised ==> crashed || !WellShaped(c)
      ensures !raised ==> Takes(c)
      ensures old(actions) <= actions
      ensures SomeUnknown(actions) <==> old(SomeUnknown(actions))
      ensures DatasetFailed(actions) <==> old(DatasetFailed(actions))
    {
      if c.kind == "dashboards" {
        raised := InstallDashboard(c.doc.value);
      } else if TakesEntries(c.kind) {
        raised := InstallEntries(c.kind, c.doc.value);
      } else if c.kind in NO_BRANCH {
        raised := false;
      } else {
        raised := PlatformCall(c.kind);
      }
    }

    /** One component file. It records an unknown reference exactly when it looks up one that
        is not bound, unless it raises; only dataset components bind anything. */
    method InstallComponent(c: Component) returns (raised: bool)
      modifies this
      ensures visited == old(visited) + [c]
      ensures raised ==> crashed || !WellShaped(c)
      ensures !raised ==> Takes(c)
      ensures ComponentStep(c, raised, old(actions), old(datasetUrns), actions, datasetUrns)
    {
      visited := visited + [c];
      if c.doc.None? {
        return true;
      }
      var doc := c.doc.value;
      if c.kind == "datasets" {
        IdsAreInstallIds(doc);
        raised := InstallDatasets(doc);
      } else if c.kind == "semantic_models" {
        MissingIsDangling(Entities(doc), HasDataset, datasetUrns);
        raised := InstallSemanticModel(doc);
      } else if c.kind == "cases" {
        raised := InstallCases(doc);
      } else if c.kind == "pipelines" {
        MissingIsDangling(ListItems(doc), HasDatasetField, datasetUrns);
        raised := InstallPipelines(doc);
      } else {
        raised := InstallOther(c);
      }
    }

    /** All the components of one kind, up to the first failure unless told to keep going. */
    method InstallKind(kind: string, components: seq<Component>, keepGoing: bool) returns (raised: bool)
      requires forall c :: c in components ==> c.kind == kind
      modifies this
      ensures raised ==> crashed || !WellShapedIn(components)
      ensures old(visited) <= visited <= old(visited) + components
      ensures !raised ==> TakesAll(visited[|old(visited)|..])
      ensures !raised && (keepGoing || !SomeFailed(actions)) ==> visited == old(visited) + components
      ensures KindStep(kind, components, keepGoing, raised, old(actions), old(datasetUrns), actions, datasetUrns)
    {
      raised := false;
      var i := 0;
      while i < |components|
        invariant i <= |components| && !raised && visited == old(visited) + components[..i]
        invariant TakesAll(components[..i])
        invariant KindProgress(kind, components, i, old(actions), old(datasetUrns), actions, datasetUrns)
      {
        ghost var now, bound := actions, datasetUrns;
        assert components[..i + 1] == components[..i] + [components[i]];
        raised := InstallComponent(components[i]);
        OneComponent(kind, components, i, raised, old(actions), old(datasetUrns), now, bound, actions, datasetUrns);
        if raised || (SomeFailed(actions) && !keepGoing) {
          return;
        }
        i := i + 1;
      }
      assert components[..|components|] == components;
    }

    /** The next kind in the order. */
    method InstallNext(pack: Pack, order: seq<string>, keepGoing: bool, k: nat) returns (raised: bool)
      requires DatasetsLead(order) && k < |order|
      requires visited == InOrder(pack, order, k) && TakesAll(visited)
      requires Progress(pack, order, keepGoing, k, actions, datasetUrns)
      modifies this
      ensures raised && WellShapedIn(pack.components) ==> crashed
      ensures visited <= InOrder(pack, order, k + 1)
      ensures !raised ==> TakesAll(visited)
      ensures raised || (SomeFailed(actions) && !keepGoing) || k + 1 == |order| ==>
          Result(pack, order, keepGoing, raised, actions, datasetUrns)
      ensures !raised && (SomeFailed(actions) ==> keepGoing) ==>
          visited == InOrder(pack, order, k + 1) && Progress(pack, order, keepGoing, k + 1, actions, datasetUrns)
    {
      ghost var was, urns := actions, datasetUrns;
      ShapesOf(pack, order[k]);
      raised := InstallKind(order[k], ComponentsOf(pack, order[k]), keepGoing);
      OneKind(pack, order, keepGoing, k, raised, was, urns, actions, datasetUrns);
      TakenSoFar(old(visited), visited);
    }

    /** The kinds in install order, up to the first failure unless told to keep going. */
    method InstallKinds(pack: Pack, order: seq<string>, keepGoing: bool) returns (raised: bool)
      requires DatasetsLead(order)
      requires actions == [] && datasetUrns == map[] && visited == []
      modifies this
      ensures Result(pack, order, keepGoing, raised, actions, datasetUrns)
      ensures raised && WellShapedIn(pack.components) ==> crashed
      ensures !raised ==> TakesAll(visited)
      ensures visited <= InOrder(pack, order, |order|)
      ensures !raised && (keepGoing || !SomeFailed(actions)) ==> visited == InOrder(pack, order, |order|)
    {
      raised := false;
      var k := 0;
      while k < |order|
        invariant k <= |order| && !raised
        invariant visited == InOrder(pack, order, k) && TakesAll(visited)
        invariant Progress(pack, order, keepGoing, k, actions, datasetUrns)
        invariant k == |order| ==> Result(pack, order, keepGoing, raised, actions, datasetUrns)
      {
        InOrderPrefix(pack, order, k + 1, |order|);
        raised := InstallNext(pack, order, keepGoing, k);
        var failed := SomeFailed(actions);
        if raised || (failed && !keepGoing) {
          return;
        }
        k := k + 1;
      }
    }

    /** The install. With every reference declared, a run that stops at the first failure never
        records an unknown dataset reference, whatever the platform answers; one that keeps
        going records it only after a dataset step has failed. An install without any failure
        has found every reference declared. So for a pack the linter accepts, whose references
        and identities are strings, the first failure is never an unknown reference. Only a
        malformed component or the platform makes it raise, and it visits the components kind
        by kind in install order. */
    method Install(pack: Pack, keepGoing: bool, ghost text: Yaml -> string) returns (raised: bool)
      requires actions == [] && datasetUrns == map[] && visited == [] && !crashed
      requires forall s :: text(Str(s)) == s
      modifies this
      ensures PackLint.LintOk(pack, text) && PackLint.StringRefs(pack) && SomeUnknown(actions) ==> keepGoing
      ensures Resolves(pack) && SomeUnknown(actions) ==> keepGoing && DatasetFailed(actions)
      ensures !raised && !SomeFailed(actions) ==> Resolves(pack)
      ensures forall id :: id in datasetUrns ==> Declared(pack, id)
      ensures raised && WellShapedIn(pack.components) ==> crashed
      ensures !raised ==> TakesAll(visited)
      ensures visited <= InOrder(pack, INSTALL_ORDER, |INSTALL_ORDER|)
      ensures !raised && (keepGoing || !SomeFailed(actions)) ==>
          visited == InOrder(pack, INSTALL_ORDER, |INSTALL_ORDER|)
    {
      raised := InstallKinds(pack, INSTALL_ORDER, keepGoing);
      Outcome(pack, keepGoing, raised, actions, datasetUrns);
      if PackLint.LintOk(pack, text) && PackLint.StringRefs(pack) {
        PackLint.LintIsSound(pack, text);
      }
    }
  }

  /** An unknown reference has been recorded: some reference dangles, and either everything
      that could be bound was, or a dataset step failed and the run kept going. */
  ghost predicate Unknown(pack: Pack, keepGoing: bool, actions: seq<Action>, urns: Urns) {
    DanglesIn(pack.components, urns) && (AllBound(pack.components, urns) || (keepGoing && DatasetFailed(actions)))
  }

  /** No component of the first k kinds refers to anything unbound. */
  ghost predicate Done(pack: Pack, order: seq<string>, k: nat, urns: Urns) {
    forall c, j :: c in pack.components && 0 <= j < k && j < |order| && c.kind == order[j] ==> !Dangles(c, urns)
  }

  /** Datasets come first, and only once. */
  ghost predicate DatasetsLead(order: seq<string>) {
    order != [] && order[0] == "datasets" && forall k :: 0 < k < |order| ==> order[k] != "datasets"
  }

  /** How far an install has come after k kinds. */
  ghost predicate Progress(pack: Pack, order: seq<string>, keepGoing: bool, k: nat, actions: seq<Action>, urns: Urns) {
    && (forall id :: id in urns ==> Declared(pack, id))
    && (SomeUnknown(actions) ==> k > 0 && Unknown(pack, keepGoing, actions, urns))
    && (k > 0 && (!SomeFailed(actions) || (keepGoing && !DatasetFailed(actions))) ==> AllBound(pack.components, urns))
    && (!SomeFailed(actions) ==> Done(pack, order, k, urns))
    && (SomeFailed(actions) ==> keepGoing)
  }

  /** What installing one component does: it records an unknown reference exactly when it looks
      up one that is not bound, unless it raises; only dataset components bind anything. */
  ghost predicate ComponentStep(c: Component, raised: bool, was: seq<Action>, urns: Urns, now: seq<Action>,
      bound: Urns) {
    && was <= now && urns.Keys <= bound.Keys
    && (c.kind != "datasets" ==> bound == urns && (DatasetFailed(now) <==> DatasetFailed(was)))
    && (SomeUnknown(now) ==> SomeUnknown(was) || Dangles(c, bound))
    && (!raised && Dangles(c, bound) ==> SomeUnknown(now) && SomeFailed(now))
    && (forall id :: id in bound && id !in urns ==>
        c.kind == "datasets" && c.doc.Some? && id in InstallIds(c.doc.value))
    && (!raised && !DatasetFailed(now) ==> Binds(c, bound))
  }

  /** What installing the first i components of a kind has done. */
  ghost predicate KindProgress(kind: string, components: seq<Component>, i: nat,
      was: seq<Action>, urns: Urns, now: seq<Action>, bound: Urns)
    requires i <= |components|
  {
    && was <= now && urns.Keys <= bound.Keys
    && (kind != "datasets" ==> bound == urns && (DatasetFailed(now) <==> DatasetFailed(was)))
    && (SomeUnknown(now) ==> SomeUnknown(was) || DanglesIn(components[..i], bound))
    && (!SomeFailed(now) ==> !DanglesIn(components[..i], bound))
    && (forall id :: id in bound && id !in urns ==> BoundBy(components[..i], id))
    && (!DatasetFailed(now) ==> AllBound(components[..i], bound))
  }

  ghost predicate BoundBy(components: seq<Component>, id: Yaml) {
    exists c :: c in components && c.kind == "datasets" && c.doc.Some? && id in InstallIds(c.doc.value)
  }

  lemma Extended(components: seq<Component>, i: nat, urns: Urns, id: Yaml)
    requires i < |components|
    ensures DanglesIn(components[..i + 1], urns) <==> DanglesIn(components[..i], urns) || Dangles(components[i], urns)
    ensures DanglesIn(components[..i + 1], urns) ==> DanglesIn(components, urns)
    ensures AllBound(components[..i + 1], urns) <==> AllBound(components[..i], urns) && Binds(components[i], urns)
    ensures BoundBy(components[..i], id) ==> BoundBy(components[..i + 1], id)
    ensures BoundBy(components[..i + 1], id) ==> BoundBy(components, id)
  {
    assert components[..i + 1] == components[..i] + [components[i]];
  }

  lemma DatasetsNeverDangle(components: seq<Component>, urns: Urns)
    requires forall c :: c in components ==> c.kind == "datasets"
    ensures !DanglesIn(components, urns)
  {
  }

  lemma OneComponent(kind: string, components: seq<Component>, i: nat, raised: bool,
      was: seq<Action>, urns: Urns, now: seq<Action>, bound: Urns, after: seq<Action>, more: Urns)
    requires i < |components| && forall c :: c in components ==> c.kind == kind
    requires KindProgress(kind, components, i, was, urns, now, bound)
    requires ComponentStep(components[i], raised, now, bound, after, more)
    ensures !raised ==> KindProgress(kind, components, i + 1, was, urns, after, more)
    ensures raised ==> KindStep(kind, components, false, true, was, urns, after, more)
  {
    NewlyDangling(kind, components, i, raised, was, urns, now, bound, after, more);
    NewlyBound(kind, components, i, raised, was, urns, now, bound, after, more);
    Extended(components, i, more, Null);
  }

  lemma NewlyDangling(kind: string, components: seq<Component>, i: nat, raised: bool,
      was: seq<Action>, urns: Urns, now: seq<Action>, bound: Urns, after: seq<Action>, more: Urns)
    requires i < |components| && forall c :: c in components ==> c.kind == kind
    requires KindProgress(kind, components, i, was, urns, now, bound)
    requires ComponentStep(components[i], raised, now, bound, after, more)
    ensures SomeUnknown(after) ==> SomeUnknown(was) || DanglesIn(components[..i + 1], more)
    ensures !raised && !SomeFailed(after) ==> !DanglesIn(components[..i + 1], more)
  {
    Extended(components, i, more, Null);
    if kind == "datasets" {
      DatasetsNeverDangle(components, more);
      DatasetsNeverDangle(components[..i], bound);
    }
    assert SomeFailed(now) ==> SomeFailed(after);
  }

  lemma NewlyBound(kind: string, components: seq<Component>, i: nat, raised: bool,
      was: seq<Action>, urns: Urns, now: seq<Action>, bound: Urns, after: seq<Action>, more: Urns)
    requires i < |components|
    requires KindProgress(kind, components, i, was, urns, now, bound)
    requires ComponentStep(components[i], raised, now, bound, after, more)
    ensures forall id :: id in more && id !in urns ==> BoundBy(components[..i + 1], id) && BoundBy(components, id)
  {
    forall id | id in more && id !in urns ensures BoundBy(components[..i + 1], id) && BoundBy(components, id) {
      Extended(components, i, more, id);
      if id !in bound {
        assert components[i] in components[..i + 1];
      }
    }
  }

  /** What installing one kind's components does. */
  ghost predicate KindStep(kind: string, components: seq<Component>, keepGoing: bool, raised: bool,
      was: seq<Action>, urns: Urns, now: seq<Action>, bound: Urns)
  {
    && was <= now
    && (kind != "datasets" ==> bound == urns && (DatasetFailed(now) <==> DatasetFailed(was)))
    && (SomeUnknown(now) ==> SomeUnknown(was) || DanglesIn(components, bound))
    && (!raised && !SomeFailed(now) ==> !DanglesIn(components, bound))
    && (forall id :: id in bound && id !in urns ==> BoundBy(components, id))
    && (!raised && (!SomeFailed(now) || (keepGoing && !DatasetFailed(now))) ==> AllBound(components, bound))
  }

  lemma ShapesOf(pack: Pack, kind: string)
    ensures WellShapedIn(pack.components) ==> WellShapedIn(ComponentsOf(pack, kind))
  {
  }

  /** What an install has shown when it ends. */
  ghost predicate Result(pack: Pack, order: seq<string>, keepGoing: bool, raised: bool, actions: seq<Action>,
      urns: Urns) {
    && (forall id :: id in urns ==> Declared(pack, id))
    && (SomeUnknown(actions) ==> Unknown(pack, keepGoing, actions, urns))
    && (!raised && !SomeFailed(actions) ==> Done(pack, order, |order|, urns))
  }

  lemma OneKind(pack: Pack, order: seq<string>, keepGoing: bool, k: nat, raised: bool,
      was: seq<Action>, urns: Urns, now: seq<Action>, bound: Urns)
    requires DatasetsLead(order) && k < |order| && Progress(pack, order, keepGoing, k, was, urns)
    requires KindStep(order[k], ComponentsOf(pack, order[k]), keepGoing, raised, was, urns, now, bound)
    ensures raised || (SomeFailed(now) && !keepGoing) ==> Result(pack, order, keepGoing, raised, now, bound)
    ensures !raised && (SomeFailed(now) ==> keepGoing) ==> Progress(pack, order, keepGoing, k + 1, now, bound)
    ensures !raised && (SomeFailed(now) ==> keepGoing) && k + 1 == |order| ==>
        Result(pack, order, keepGoing, raised, now, bound)
  {
    UnknownKept(pack, order, keepGoing, k, raised, was, urns, now, bound);
    BoundKept(pack, order, keepGoing, k, raised, was, urns, now, bound);
    if !raised && !SomeFailed(now) {
      DoneKept(pack, order, k, urns, bound);
    }
  }

  lemma UnknownKept(pack: Pack, order: seq<string>, keepGoing: bool, k: nat, raised: bool,
      was: seq<Action>, urns: Urns, now: seq<Action>, bound: Urns)
    requires DatasetsLead(order) && k < |order| && Progress(pack, order, keepGoing, k, was, urns)
    requires KindStep(order[k], ComponentsOf(pack, order[k]), keepGoing, raised, was, urns, now, bound)
    ensures SomeUnknown(now) ==> k > 0 && Unknown(pack, keepGoing, now, bound)
  {
    if SomeUnknown(was) {
      assert Unknown(pack, keepGoing, was, urns) && bound == urns;
    } else if SomeUnknown(now) {
      if k == 0 {
        DatasetsNeverDangle(ComponentsOf(pack, "datasets"), bound);
      }
      assert k > 0 && bound == urns;
      DanglesInPack(pack, order[k], bound);
      assert SomeFailed(was) ==> keepGoing;
    }
  }

  lemma DanglesInPack(pack: Pack, kind: string, urns: Urns)
    ensures DanglesIn(ComponentsOf(pack, kind), urns) ==> DanglesIn(pack.components, urns)
  {
  }

  lemma BoundKept(pack: Pack, order: seq<string>, keepGoing: bool, k: nat, raised: bool,
      was: seq<Action>, urns: Urns, now: seq<Action>, bound: Urns)
    requires DatasetsLead(order) && k < |order| && Progress(pack, order, keepGoing, k, was, urns)
    requires KindStep(order[k], ComponentsOf(pack, order[k]), keepGoing, raised, was, urns, now, bound)
    ensures forall id :: id in bound ==> Declared(pack, id)
    ensures !raised && (!SomeFailed(now) || (keepGoing && !DatasetFailed(now))) ==> AllBound(pack.components, bound)
  {
    assert SomeFailed(was) ==> SomeFailed(now);
    if k == 0 && AllBound(ComponentsOf(pack, "datasets"), bound) {
      forall c | c in pack.components ensures Binds(c, bound) {
      }
    }
  }

  lemma DoneKept(pack: Pack, order: seq<string>, k: nat, urns: Urns, bound: Urns)
    requires k < |order| && Done(pack, order, k, urns) && (k > 0 ==> bound == urns)
    requires !DanglesIn(ComponentsOf(pack, order[k]), bound)
    ensures Done(pack, order, k + 1, bound)
  {
  }

  /** What the progress made shows at the end. */
  lemma Outcome(pack: Pack, keepGoing: bool, raised: bool, actions: seq<Action>, urns: Urns)
    requires Result(pack, INSTALL_ORDER, keepGoing, raised, actions, urns)
    ensures Resolves(pack) && SomeUnknown(actions) ==> keepGoing && DatasetFailed(actions)
    ensures !raised && !SomeFailed(actions) ==> Resolves(pack)
  {
    if Resolves(pack) && AllBound(pack.components, urns) {
      BoundNeverDangles(pack, urns);
    }
    if !raised && !SomeFailed(actions) {
      AllDone(pack, urns);
    }
  }

  lemma {:induction false} InOrderPrefix(pack: Pack, order: seq<string>, j: nat, k: nat)
    requires j <= k <= |order|
    ensures InOrder(pack, order, j) <= InOrder(pack, order, k)
  {
    if j < k {
      InOrderPrefix(pack, order, j, k - 1);
    }
  }

  lemma BoundNeverDangles(pack: Pack, urns: Urns)
    requires Resolves(pack) && AllBound(pack.components, urns)
    ensures !DanglesIn(pack.components, urns)
  {
    forall c, r | c in pack.components && c.doc.Some? && r in InstallRefs(c.kind, c.doc.value) ensures r in urns {
      assert Declared(pack, r);
      var d :| d in pack.components && d.kind == "datasets" && d.doc.Some? && r in InstallIds(d.doc.value);
      assert Binds(d, urns);
    }
  }

  /** When no component of any kind dangles and only declared identities are bound, every
      reference is declared. */
  lemma AllDone(pack: Pack, urns: Urns)
    requires Done(pack, INSTALL_ORDER, |INSTALL_ORDER|, urns) && forall id :: id in urns ==> Declared(pack, id)
    ensures Resolves(pack)
  {
    forall c, r | c in pack.components && c.doc.Some? && r in InstallRefs(c.kind, c.doc.value)
      ensures Declared(pack, r)
    {
      var j := if c.kind == "semantic_models" then 1 else if c.kind == "cases" then 10 else 15;
      assert c.kind == INSTALL_ORDER[j];
      assert !Dangles(c, urns);
    }
  }
}
