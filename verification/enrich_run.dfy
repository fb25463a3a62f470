/**
 * `enrich_rules(config)` as the step runs it: read the rules file, run the
 * nested loop, write the enriched rules.
 */
module EnrichRun {
  import opened Wrappers
  import opened JsonValues
  import opened ConstraintNormaliser
  import opened Files
  import opened Enrichment

  /**
   * The inner loop over one parent's `fields`: the dict it builds, the
   * extraction calls it makes, and the exception that ends it, if any.
   */
  method EnrichFieldsLoop(fields: seq<(string, Json)>, extract: Extractor)
    returns (built: seq<(string, Json)>, calls: seq<Call>, fault: Option<Fault>)
    ensures fault == EnrichFields(fields, extract).fault
    ensures calls == EnrichFields(fields, extract).calls
    ensures fault.None? ==> built == Assign(EnrichFields(fields, extract).assignments)
  {
    ghost var steps := FieldSteps(fields, extract);
    built, calls, fault := [], [], None;
    var j := 0;
    while j < |fields|
      invariant 0 <= j <= |fields|
      invariant Fold(steps, j).fault == None
      invariant calls == Fold(steps, j).calls
      invariant built == Assign(Fold(steps, j).assignments)
    {
      var (name, details) := fields[j];
      var field := EnrichField(name, details, extract);
      FieldStepAt(fields, extract, j);
      calls := calls + CallList(field.call);
      if field.result.Err? {
        FoldErr(steps, j);
        return built, calls, Some(field.result.error);
      }
      FoldOk(steps, j);
      AssignSnoc(Fold(steps, j).assignments, name, field.result.value);
      built := Put(built, name, field.result.value);
      j := j + 1;
    }
  }

  /**
   * One iteration of the outer loop after the parent's entry has been reset:
   * `details["fields"].items()` and the inner loop over them, giving the
   * parent's new value or the exception that escaped.
   */
  method EnrichParent(name: string, details: Json, extract: Extractor)
    returns (value: Json, calls: seq<Call>, fault: Option<Fault>)
    ensures ParentStepOf(name, details, extract)
         == Step(name, calls, if fault.Some? then Err(fault.value) else Ok(value))
  {
    var fields := Index(details, "fields");
    if fields.Err? {
      return Null, [], Some(fields.error);
    }
    if !fields.value.Obj? {
      return Null, [], Some(WrongType);
    }
    var built;
    built, calls, fault := EnrichFieldsLoop(fields.value.fields, extract);
    value := Obj([("fields", Obj(built))]);
  }

  /**
   * The outer loop over the parents: each parent is first set to an empty
   * `fields` object, then to the object the inner loop builds.
   */
  method EnrichParentsLoop(parents: seq<(string, Json)>, extract: Extractor)
    returns (enriched: seq<(string, Json)>, calls: seq<Call>, fault: Option<Fault>)
    ensures fault == Fold(ParentSteps(parents, extract), |parents|).fault
    ensures calls == Fold(ParentSteps(parents, extract), |parents|).calls
    ensures fault.None? ==> enriched == Assign(Fold(ParentSteps(parents, extract), |parents|).assignments)
  {
    ghost var steps := ParentSteps(parents, extract);
    enriched, calls, fault := [], [], None;
    var i := 0;
    while i < |parents|
      invariant 0 <= i <= |parents|
      invariant Fold(steps, i).fault == None
      invariant calls == Fold(steps, i).calls
      invariant enriched == Assign(Fold(steps, i).assignments)
    {
      var (parent, details) := parents[i];
      ParentStepAt(parents, extract, i);
      ghost var before := enriched;
      enriched := Put(enriched, parent, Obj([("fields", Obj([]))]));
      var value, parentCalls, parentFault := EnrichParent(parent, details, extract);
      calls := calls + parentCalls;
      if parentFault.Some? {
        FoldErr(steps, i);
        return enriched, calls, parentFault;
      }
      enriched := Put(enriched, parent, value);
      PutPut(before, parent, Obj([("fields", Obj([]))]), value);
      FoldOk(steps, i);
      AssignSnoc(Fold(steps, i).assignments, parent, value);
      i := i + 1;
    }
  }

  /**
   * `enrich_rules(config)`: the two configuration checks, loading the rules
   * file, the nested loop, and the save, in which a failed `open` is
   * reported and swallowed.
   */
  method EnrichRules(config: Config, fs: FileSystem, extract: Extractor) returns (status: Status, calls: seq<Call>)
    requires fs.Valid()
    modifies fs
    ensures fs.Valid() && fs.unwritable == old(fs.unwritable)
    ensures Run(status, calls, fs.files) == EnrichSpec(config, old(fs.files), old(fs.unwritable), extract)
  {
    if !Given(config.geminiApiKey) {
      return MissingApiKey, [];
    }
    if !Given(config.processedRulesFile) {
      return MissingRulesPath, [];
    }
    var path := config.processedRulesFile.value;
    if !fs.Exists(path) {
      return RulesFileMissing, [];
    }
    if fs.files[path].NotJson? {
      return RulesFileMalformed, [];
    }
    var rules := fs.files[path].value;
    if !rules.Obj? {
      return Raised(WrongType), [];
    }
    var enriched, fault;
    enriched, calls, fault := EnrichParentsLoop(rules.fields, extract);
    if fault.Some? {
      return Raised(fault.value), calls;
    }
    var output := config.constrainsProcessedRulesFile;
    if output.None? {
      return Raised(WrongType), calls;
    }
    var ok := fs.Write(output.value, Obj(enriched));
    status := if ok then Saved else SaveFailed;
  }
}
