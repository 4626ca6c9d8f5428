/** Which components that pass the linter the installer cannot take. */
module PackShapes {
  import opened Collections
  import opened PackContent
  import opened PackInstall
  import PackLint

  /** What the linter leaves unchecked about the shapes the installer needs. */
  predicate FitsInstaller(kind: string, doc: Yaml) {
    if kind == "datasets" then
      !doc.Null? && forall ds :: ds in DatasetEntries(doc) ==> (Truthy(Get(ds, "file")) ==> Get(ds, "file").Str?)
    else if kind == "semantic_models" then doc.Mapping? && FitsModel(doc)
    else if kind == "cases" then doc.Mapping? && Hashable(DatasetOf(doc))
    else if kind == "pipelines" then doc.List? && forall p :: p in doc.items ==> Hashable(DatasetOf(p))
    else if kind == "dashboards" then
      if doc.Mapping? then GoodCharts(doc) else PairList(doc) && forall p :: p in doc.items ==> !HasField(p, "charts")
    else if kind == "saved_queries" then
      Identified(doc) && forall e :: e in DatasetEntries(doc) ==> Hashable(IdentityOf(e))
    else if kind == "decision_models" then !doc.Null? && (doc.List? ==> Identified(doc))
    else kind in LIST_KINDS ==> doc.List?
  }

  predicate FitsModel(doc: Yaml) {
    var definition := Get(doc, "definition");
    && HasField(doc, "definition")
    && (definition.Mapping? || definition == List([]) || definition == Str(""))
    && (HasField(definition, "entities") ==> Iterated(Get(definition, "entities")).Some?)
    && forall e :: e in Entities(doc) ==> GoodEntity(e)
  }

  predicate Identified(doc: Yaml) {
    !doc.Null? && forall e :: e in DatasetEntries(doc) ==> HasField(e, "identity")
  }

  /** A list of mappings with two fields each, which dict() takes as pairs. */
  predicate PairList(doc: Yaml) {
    doc.List? && forall p :: p in doc.items ==> p.Mapping? && |p.fields| == 2
  }

  /** The two ways not to fit that do not always make the installer raise: a saved query whose
      identity cannot be hashed, which takes the platform to know the query's id, and a field
      called charts in a pair, which takes the wrong order of the pair's fields. */
  predicate MayPass(kind: string, doc: Yaml) {
    (kind == "saved_queries" && Identified(doc)) || (kind == "dashboards" && PairList(doc))
  }

  /** What linting establishes of an entry of a component free of errors that did not raise. */
  lemma CleanEntry(c: Component, text: Yaml -> string, e: Yaml)
    requires PackLint.ComponentOk(c, text) && !PackLint.ComponentRaises(c) && c.kind != "memories"
    requires e in Entries(c.kind, c.doc.value).value
    ensures e.Mapping? && PackLint.FieldsOk(c.kind, e) && PackLint.KindOk(c.kind, e) && !PackLint.EntryRaises(c.kind, e)
  {
    var entries := Entries(c.kind, c.doc.value).value;
    var i :| 0 <= i < |entries| && entries[i] == e;
    PackLint.EntriesOkAt(c.kind, entries, |entries|, i, text);
  }

  /** Exactly which components that lint without errors the installer cannot take: those that
      do not fit, in ways the linter does not look at. One that fits gives the installer no
      reason to raise, and one that does not makes it raise unless it may pass. */
  lemma LintCleanShapes(c: Component, text: Yaml -> string)
    requires PackLint.ComponentOk(c, text) && !PackLint.ComponentRaises(c)
    ensures WellShaped(c) <==> FitsInstaller(c.kind, c.doc.value)
    ensures Takes(c) <==> FitsInstaller(c.kind, c.doc.value) || MayPass(c.kind, c.doc.value)
  {
    if c.kind == "datasets" {
      CleanDatasets(c, text);
    } else if c.kind == "semantic_models" || c.kind == "cases" {
      CleanMappings(c, text);
    } else if c.kind == "pipelines" {
      CleanPipelines(c, text);
    } else if c.kind == "dashboards" {
      CleanDashboards(c, text);
    } else if c.kind in LIST_KINDS {
      CleanLists(c, text);
    } else if c.kind in EITHER_KINDS {
      CleanEither(c, text);
    }
  }

  lemma TakenFields(kind: string, e: Yaml, f: string)
    requires e.Mapping? && PackLint.FieldsOk(kind, e) && f in PackLint.Required(kind)
    ensures HasField(e, f)
  {
    assert !PackLint.MissingValue(Get(e, f));
  }

  lemma CleanDatasets(c: Component, text: Yaml -> string)
    requires PackLint.ComponentOk(c, text) && !PackLint.ComponentRaises(c) && c.kind == "datasets"
    ensures WellShaped(c) <==> FitsInstaller(c.kind, c.doc.value)
    ensures Takes(c) <==> FitsInstaller(c.kind, c.doc.value)
  {
    var doc := c.doc.value;
    if doc.Null? {
      assert DatasetEntries(doc)[0] == Null && Null in DatasetEntries(doc);
    } else {
      forall ds | ds in DatasetEntries(doc)
        ensures GoodDataset(ds) <==> (Truthy(Get(ds, "file")) ==> Get(ds, "file").Str?)
        ensures TakesDataset(ds) <==> GoodDataset(ds)
      {
        CleanEntry(c, text, ds);
        TakenFields(c.kind, ds, "identity");
        TakenFields(c.kind, ds, "name");
      }
    }
  }

  lemma CleanMappings(c: Component, text: Yaml -> string)
    requires PackLint.ComponentOk(c, text) && !PackLint.ComponentRaises(c)
    requires c.kind == "semantic_models" || c.kind == "cases"
    ensures WellShaped(c) <==> FitsInstaller(c.kind, c.doc.value)
    ensures Takes(c) <==> FitsInstaller(c.kind, c.doc.value)
  {
    if c.doc.value.Mapping? {
      CleanEntry(c, text, c.doc.value);
    }
  }

  lemma CleanPipelines(c: Component, text: Yaml -> string)
    requires PackLint.ComponentOk(c, text) && !PackLint.ComponentRaises(c) && c.kind == "pipelines"
    ensures WellShaped(c) <==> FitsInstaller(c.kind, c.doc.value)
    ensures Takes(c) <==> FitsInstaller(c.kind, c.doc.value)
  {
    var doc := c.doc.value;
    if doc.Mapping? {
      CleanEntry(c, text, doc);
      TakenFields(c.kind, doc, "name");
    } else if doc.List? {
      forall p | p in doc.items
        ensures GoodPipeline(p) <==> Hashable(DatasetOf(p))
        ensures CanLookUp(p) <==> Hashable(DatasetOf(p))
      {
        CleanEntry(c, text, p);
        TakenFields(c.kind, p, "name");
        TakenFields(c.kind, p, "algorithm");
        TakenFields(c.kind, p, "dataset");
      }
    }
  }

  lemma CleanDashboards(c: Component, text: Yaml -> string)
    requires PackLint.ComponentOk(c, text) && !PackLint.ComponentRaises(c) && c.kind == "dashboards"
    ensures WellShaped(c) <==> FitsInstaller(c.kind, c.doc.value)
    ensures Takes(c) <==> FitsInstaller(c.kind, c.doc.value) || MayPass(c.kind, c.doc.value)
  {
    var doc := c.doc.value;
    if doc.List? {
      forall p | p in doc.items ensures p.Mapping? {
        CleanEntry(c, text, p);
      }
    }
  }

  /** The fields the installer takes from these entries are fields the linter requires. */
  lemma TakenAreRequired(kind: string, listed: bool, f: string)
    requires TakesEntries(kind) && f in Taken(kind, listed)
    ensures f in PackLint.Required(kind) || (f == "identity" && Identifies(kind, listed))
  {
  }

  /** Kinds whose entries the installer, but not the linter, asks for an identity. */
  predicate Identifies(kind: string, listed: bool) {
    kind == "saved_queries" || (kind == "decision_models" && listed)
  }

  lemma CleanFields(c: Component, text: Yaml -> string, e: Yaml, listed: bool)
    requires PackLint.ComponentOk(c, text) && !PackLint.ComponentRaises(c) && TakesEntries(c.kind)
    requires e in Entries(c.kind, c.doc.value).value
    ensures HasFields(e, Taken(c.kind, listed)) <==> (Identifies(c.kind, listed) ==> HasField(e, "identity"))
  {
    CleanEntry(c, text, e);
    forall f | f in Taken(c.kind, listed) ensures HasField(e, f) || (f == "identity" && Identifies(c.kind, listed)) {
      TakenAreRequired(c.kind, listed, f);
      if f in PackLint.Required(c.kind) {
        TakenFields(c.kind, e, f);
      }
    }
  }

  lemma CleanLists(c: Component, text: Yaml -> string)
    requires PackLint.ComponentOk(c, text) && !PackLint.ComponentRaises(c) && c.kind in LIST_KINDS
    ensures WellShaped(c) <==> FitsInstaller(c.kind, c.doc.value)
    ensures Takes(c) <==> FitsInstaller(c.kind, c.doc.value)
  {
    var doc := c.doc.value;
    if doc.List? {
      forall e | e in doc.items ensures HasFields(e, Taken(c.kind, true)) {
        CleanFields(c, text, e, true);
      }
    } else if doc.Mapping? {
      CleanEntry(c, text, doc);
      TakenFields(c.kind, doc, PackLint.Required(c.kind)[0]);
    }
  }

  lemma CleanEither(c: Component, text: Yaml -> string)
    requires PackLint.ComponentOk(c, text) && !PackLint.ComponentRaises(c) && c.kind in EITHER_KINDS
    ensures WellShaped(c) <==> FitsInstaller(c.kind, c.doc.value)
    ensures Takes(c) <==> FitsInstaller(c.kind, c.doc.value) || MayPass(c.kind, c.doc.value)
  {
    var doc := c.doc.value;
    if doc.Null? {
      assert DatasetEntries(doc)[0] == Null && Null in DatasetEntries(doc);
    } else {
      forall e | e in DatasetEntries(doc)
        ensures HasFields(e, Taken(c.kind, doc.List?)) <==>
                (Identifies(c.kind, doc.List?) ==> HasField(e, "identity"))
      {
        CleanFields(c, text, e, doc.List?);
      }
    }
  }

  /** Such a pack: its one pipeline is a bare mapping. It lints without errors, and the
      installer, looping over the mapping's keys, raises on the pipeline. */
  lemma LintCleanPackCrashes(text: Yaml -> string) returns (pack: Pack, c: Component)
    requires forall s :: text(Str(s)) == s
    ensures PackLint.LintOk(pack, text) && !PackLint.SomeComponentRaises(pack.components)
    ensures c in pack.components && c.kind == "pipelines" && c.doc.Some?
    ensures Iterated(c.doc.value).None? && !Takes(c)
  {
    var ds := SampleDataset();
    var p := SamplePipeline();
    var c0 := Component("datasets", "d", Some(List([ds])));
    c := Component("pipelines", "p", Some(p));
    pack := Pack([c0, c]);
    PackLint.PairLints(text, ds, p, c0, c);
    OneRaisesNot(c0, ds);
    OneRaisesNot(c, p);
    TwoRaiseNot(c0, c);
  }

  lemma SampleDataset() returns (ds: Yaml)
    ensures ds.Mapping? && IdentityOf(ds) == Str("d")
    ensures PackLint.FieldsOk("datasets", ds) && !PackLint.EntryRaises("datasets", ds)
  {
    ds := Mapping(map["identity" := Str("d"), "name" := Str("d")]);
    PackLint.DatasetFieldsOk(ds);
  }

  lemma SamplePipeline() returns (p: Yaml)
    ensures p.Mapping? && DatasetOf(p) == Str("d") && HasField(p, "name")
    ensures PackLint.FieldsOk("pipelines", p) && !PackLint.EntryRaises("pipelines", p)
  {
    p := Mapping(map["name" := Str("p"), "algorithm" := Str("a"), "dataset" := Str("d")]);
    PackLint.PipelineFieldsOk(p);
  }

  lemma OneRaisesNot(c: Component, e: Yaml)
    requires (c.doc == Some(List([e])) || c.doc == Some(e)) && e.Mapping? && c.kind in {"datasets", "pipelines"}
    requires !PackLint.EntryRaises(c.kind, e)
    ensures !PackLint.ComponentRaises(c)
  {
    assert Entries(c.kind, c.doc.value) == Some([e]);
  }

  lemma TwoRaiseNot(c0: Component, c1: Component)
    requires !PackLint.ComponentRaises(c0) && !PackLint.ComponentRaises(c1)
    ensures !PackLint.SomeComponentRaises([c0, c1])
  {
    var cs := [c0, c1];
    assert cs[..1] == [c0] && [c0][..0] == [];
    assert !PackLint.SomeComponentRaises([c0][..0]);
    assert !PackLint.SomeComponentRaises(cs[..1]);
  }
}
