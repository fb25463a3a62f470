/**
 * `enrich_rules`: rebuild the rule store so that each parent keeps only its
 * `fields`, and each field keeps its seven attributes and gains
 * `constraints`, the normalised list extracted from its business rules.
 *
 * The language-model call (`enrich_constraints`) is an `Extractor`: a
 * function from the call's arguments to the reply text, `None` when the
 * call failed.  A field whose extraction fails gets an empty list.
 *
 * The functions below describe the nested loop by its iterations: `Fold`
 * runs the first `n` iterations of either loop, `EnrichFields` the inner
 * loop over one parent's fields and `EnrichAll` the outer loop over the
 * parents.  `EnrichRun.EnrichRules` runs the loop on the file system and is
 * proved to end as `EnrichSpec` describes.
 */
module Enrichment {
  import opened Wrappers
  import opened JsonValues
  import opened ConstraintNormaliser
  import opened Files
  import RuleShape

  /** The configuration entries `enrich_rules` reads; `None` is an absent entry. */
  datatype Config = Config(
    geminiApiKey: Option<string>,
    processedRulesFile: Option<string>,
    constrainsProcessedRulesFile: Option<string>)

  /** The arguments of one `enrich_constraints` call. */
  datatype Call = Call(field: string, dataType: Json, businessRules: Json)

  type Extractor = Call -> Option<string>

  /** The exceptions the loop lets escape: `KeyError`, or `TypeError`/`AttributeError`. */
  datatype Fault = MissingKey(key: string) | WrongType

  /** How a run ends: the four early returns, an escaped exception, or the save. */
  datatype Status =
    | MissingApiKey
    | MissingRulesPath
    | RulesFileMissing
    | RulesFileMalformed
    | Raised(fault: Fault)
    | SaveFailed
    | Saved

  /** A configuration entry that passes `if config.get(name):`. */
  predicate Given(entry: Option<string>) {
    entry.Some? && entry.value != ""
  }

  /** `j[key]`. */
  function Index(j: Json, key: string): (r: Result<Json, Fault>)
    ensures r.Ok? <==> j.Obj? && key in Keys(j.fields)
    ensures r.Ok? ==> Lookup(j.fields, key) == Some(r.value)
    ensures r.Err? ==> r.error == if j.Obj? then MissingKey(key) else WrongType
  {
    if !j.Obj? then Err(WrongType)
    else match Lookup(j.fields, key)
      case None => Err(MissingKey(key))
      case Some(v) => Ok(v)
  }

  /** `[j[k] for k in keys]`, raising at the first key that fails. */
  function IndexAll(j: Json, keys: seq<string>): (r: Result<seq<Json>, Fault>)
    ensures r.Ok? <==> forall k :: k in keys ==> Index(j, k).Ok?
    ensures r.Ok? ==> |r.value| == |keys| && forall i :: 0 <= i < |keys| ==> Index(j, keys[i]) == Ok(r.value[i])
  {
    if keys == [] then Ok([])
    else
      match Index(j, keys[0])
      case Err(f) => Err(f)
      case Ok(v) =>
        match IndexAll(j, keys[1..])
        case Err(f) => Err(f)
        case Ok(vs) =>
          assert forall k :: k in keys ==> k == keys[0] || k in keys[1..];
          Ok([v] + vs)
  }

  /**
   * The attributes the dict literal reads after the extraction: the seven
   * attributes of a field (which it lists in the order the validator checks
   * them) without `data_type` and `business_rules`.
   */
  const CopiedKeys: seq<string> := RuleShape.RequiredKeys[1..6]

  /** The keys of an enriched field, in order: the seven attributes, then `constraints`. */
  const OutputKeys: seq<string> := RuleShape.RequiredKeys + ["constraints"]

  /** No key occurs twice in an enriched field. */
  lemma OutputKeysDistinct()
    ensures forall i, j :: 0 <= i < j < |OutputKeys| ==> OutputKeys[i] != OutputKeys[j]
  {
  }

  /** A list of constraint phrases as a JSON list of strings. */
  function ConstraintsJson(cs: seq<string>): (j: Json)
    ensures j.Arr? && |j.items| == |cs|
    ensures forall i :: 0 <= i < |cs| ==> j.items[i] == Str(cs[i])
  {
    if cs == [] then Arr([])
    else Arr([Str(cs[0])] + ConstraintsJson(cs[1..]).items)
  }

  /** The dict literal of an enriched field: its values under `OutputKeys`, in order. */
  function FieldRecord(dataType: Json, copied: seq<Json>, businessRules: Json, constraints: seq<string>): (r: Json)
    requires |copied| == 5
    ensures r.Obj? && Keys(r.fields) == OutputKeys
  {
    Obj(Entries(OutputKeys, [dataType] + copied + [businessRules, ConstraintsJson(constraints)]))
  }

  /** One pass of the inner loop: the extraction call it made, if any, and the record or the exception. */
  datatype FieldStep = FieldStep(call: Option<Call>, result: Result<Json, Fault>)

  /** One iteration of the inner loop for field `name` with details `details`. */
  function EnrichField(name: string, details: Json, extract: Extractor): (r: FieldStep)
    ensures r.call.Some? ==> r.call.value.field == name
    ensures r.result.Ok? ==> r.call.Some? && r.result.value.Obj? && Keys(r.result.value.fields) == OutputKeys
  {
    match Index(details, "data_type")
    case Err(f) => FieldStep(None, Err(f))
    case Ok(dataType) =>
      match Index(details, "business_rules")
      case Err(f) => FieldStep(None, Err(f))
      case Ok(businessRules) =>
        var call := Call(name, dataType, businessRules);
        var constraints := CleanAndSplit(extract(call));
        match IndexAll(details, CopiedKeys)
        case Err(f) => FieldStep(Some(call), Err(f))
        case Ok(copied) => FieldStep(Some(call), Ok(FieldRecord(dataType, copied, businessRules, constraints)))
  }

  /**
   * The state of a loop after some iterations: the assignments `d[key] = value`
   * it has made, in order, the extraction calls it made, and the exception,
   * if one escaped.
   */
  datatype Progress = Progress(assignments: seq<(string, Json)>, calls: seq<Call>, fault: Option<Fault>)

  /** One iteration of either loop: the key it assigns, the extraction calls it makes, and the value or the exception. */
  datatype Step = Step(key: string, calls: seq<Call>, result: Result<Json, Fault>)

  /**
   * Either loop after its first `n` iterations: each iteration that succeeds
   * makes its assignment, and the first exception ends the loop.
   */
  function Fold(steps: seq<Step>, n: nat): (r: Progress)
    requires n <= |steps|
    ensures r.fault.None? ==> |r.assignments| == n && forall k :: 0 <= k < n ==> r.assignments[k].0 == steps[k].key
  {
    if n == 0 then Progress([], [], None)
    else
      var p := Fold(steps, n - 1);
      if p.fault.Some? then p
      else
        var s := steps[n - 1];
        match s.result
        case Err(f) => Progress(p.assignments, p.calls + s.calls, Some(f))
        case Ok(v) => Progress(p.assignments + [(s.key, v)], p.calls + s.calls, None)
  }

  /** The dict that starts empty and receives `assignments` in order. */
  function Assign(assignments: seq<(string, Json)>): seq<(string, Json)> {
    if assignments == [] then []
    else
      var last := assignments[|assignments| - 1];
      Put(Assign(assignments[..|assignments| - 1]), last.0, last.1)
  }

  function CallList(call: Option<Call>): seq<Call> {
    if call.Some? then [call.value] else []
  }

  /** One iteration of the inner loop. */
  function FieldStepOf(name: string, details: Json, extract: Extractor): Step {
    var st := EnrichField(name, details, extract);
    Step(name, CallList(st.call), st.result)
  }

  /** The iterations of the inner loop over `fields`, one per field. */
  function FieldSteps(fields: seq<(string, Json)>, extract: Extractor): (steps: seq<Step>)
    ensures |steps| == |fields|
  {
    seq(|fields|, j requires 0 <= j < |fields| => FieldStepOf(fields[j].0, fields[j].1, extract))
  }

  /** The `j`-th iteration of the inner loop handles the `j`-th field. */
  lemma {:induction false} FieldStepAt(fields: seq<(string, Json)>, extract: Extractor, j: nat)
    requires j < |fields|
    ensures FieldSteps(fields, extract)[j] == FieldStepOf(fields[j].0, fields[j].1, extract)
  {
  }

  /** The inner loop over a whole `fields` object. */
  function EnrichFields(fields: seq<(string, Json)>, extract: Extractor): (r: Progress)
    ensures r.fault.None? ==> Keys(r.assignments) == Keys(fields)
  {
    Fold(FieldSteps(fields, extract), |fields|)
  }

  /** One iteration of the outer loop: `details["fields"].items()`, then the inner loop. */
  function ParentStepOf(name: string, details: Json, extract: Extractor): (r: Step)
    ensures r.key == name
    ensures Index(details, "fields").Err? ==> r.calls == [] && r.result.Err?
    ensures r.result.Ok? ==> r.result.value.Obj? && Keys(r.result.value.fields) == ["fields"]
  {
    match Index(details, "fields")
    case Err(f) => Step(name, [], Err(f))
    case Ok(fields) =>
      if !fields.Obj? then Step(name, [], Err(WrongType))
      else
        var inner := EnrichFields(fields.fields, extract);
        if inner.fault.Some? then Step(name, inner.calls, Err(inner.fault.value))
        else Step(name, inner.calls, Ok(Obj([("fields", Obj(Assign(inner.assignments)))])))
  }

  /** The iterations of the outer loop, one per parent. */
  function ParentSteps(parents: seq<(string, Json)>, extract: Extractor): (steps: seq<Step>)
    ensures |steps| == |parents|
  {
    seq(|parents|, i requires 0 <= i < |parents| => ParentStepOf(parents[i].0, parents[i].1, extract))
  }

  /** The `i`-th iteration of the outer loop handles the `i`-th parent. */
  lemma {:induction false} ParentStepAt(parents: seq<(string, Json)>, extract: Extractor, i: nat)
    requires i < |parents|
    ensures ParentSteps(parents, extract)[i] == ParentStepOf(parents[i].0, parents[i].1, extract)
  {
  }

  /** The whole transformation of a decoded rules document. */
  function EnrichAll(rules: Json, extract: Extractor): (r: Progress)
    ensures r.fault.None? ==> rules.Obj? && Keys(r.assignments) == Keys(rules.fields)
  {
    if !rules.Obj? then Progress([], [], Some(WrongType))
    else Fold(ParentSteps(rules.fields, extract), |rules.fields|)
  }

  /** How a run ends: its status, the extraction calls it made, and the files afterwards. */
  datatype Run = Run(status: Status, calls: seq<Call>, files: map<string, Doc>)

  /** `enrich_rules(config)` against files `files`, of which `unwritable` cannot be opened for writing. */
  function EnrichSpec(config: Config, files: map<string, Doc>, unwritable: set<string>, extract: Extractor): (r: Run)
    // The two configuration checks run first and in this order.
    ensures r.status == MissingApiKey <==> !Given(config.geminiApiKey)
    ensures r.status == MissingRulesPath <==> Given(config.geminiApiKey) && !Given(config.processedRulesFile)
    // Nothing is extracted before the rules have been read.
    ensures r.status.MissingApiKey? || r.status.MissingRulesPath? || r.status.RulesFileMissing? || r.status.RulesFileMalformed?
            ==> r.calls == []
    // Only a successful save touches the file system, and it touches only the output path.
    ensures r.status != Saved ==> r.files == files
    ensures r.status == Saved ==>
              config.constrainsProcessedRulesFile.Some? && config.constrainsProcessedRulesFile.value != ""
              && config.constrainsProcessedRulesFile.value !in unwritable
              && r.files.Keys == files.Keys + {config.constrainsProcessedRulesFile.value}
              && r.files[config.constrainsProcessedRulesFile.value].Json?
              && forall p :: p in files && p != config.constrainsProcessedRulesFile.value ==> r.files[p] == files[p]
    // A failed write is swallowed only for a path that cannot be opened for writing.
    ensures r.status == SaveFailed ==>
              config.constrainsProcessedRulesFile.Some?
              && (config.constrainsProcessedRulesFile.value == "" || config.constrainsProcessedRulesFile.value in unwritable)
  {
    if !Given(config.geminiApiKey) then Run(MissingApiKey, [], files)
    else if !Given(config.processedRulesFile) then Run(MissingRulesPath, [], files)
    else
      var path := config.processedRulesFile.value;
      if path !in files then Run(RulesFileMissing, [], files)
      else if files[path].NotJson? then Run(RulesFileMalformed, [], files)
      else
        var p := EnrichAll(files[path].value, extract);
        if p.fault.Some? then Run(Raised(p.fault.value), p.calls, files)
        else if config.constrainsProcessedRulesFile.None? then Run(Raised(WrongType), p.calls, files)
        else
          var output := config.constrainsProcessedRulesFile.value;
          if output == "" || output in unwritable then Run(SaveFailed, p.calls, files)
          else Run(Saved, p.calls, files[output := Json(Obj(Assign(p.assignments)))])
  }

  /** Once an exception has escaped, later iterations change nothing. */
  lemma {:induction false} FaultSticks(steps: seq<Step>, i: nat, n: nat)
    requires i <= n <= |steps|
    requires Fold(steps, i).fault.Some?
    ensures Fold(steps, n) == Fold(steps, i)
    decreases n
  {
    if n > i {
      FaultSticks(steps, i, n - 1);
      FaultStep(steps, n);
    }
  }

  /** An iteration that succeeds makes its assignment and adds its calls. */
  lemma FoldOk(steps: seq<Step>, j: nat)
    requires j < |steps| && Fold(steps, j).fault.None? && steps[j].result.Ok?
    ensures Fold(steps, j + 1)
         == Progress(Fold(steps, j).assignments + [(steps[j].key, steps[j].result.value)], Fold(steps, j).calls + steps[j].calls, None)
  {
  }

  /** An iteration that raises ends the loop with its exception. */
  lemma FoldErr(steps: seq<Step>, j: nat)
    requires j < |steps| && Fold(steps, j).fault.None? && steps[j].result.Err?
    ensures Fold(steps, |steps|)
         == Progress(Fold(steps, j).assignments, Fold(steps, j).calls + steps[j].calls, Some(steps[j].result.error))
  {
    FaultSticks(steps, j + 1, |steps|);
  }

  /** Assigning one more entry is one more `Put`. */
  lemma AssignSnoc(assignments: seq<(string, Json)>, key: string, value: Json)
    ensures Assign(assignments + [(key, value)]) == Put(Assign(assignments), key, value)
  {
    assert (assignments + [(key, value)])[..|assignments|] == assignments;
  }

  lemma FaultStep(steps: seq<Step>, n: nat)
    requires 0 < n <= |steps|
    requires Fold(steps, n - 1).fault.Some?
    ensures Fold(steps, n) == Fold(steps, n - 1)
  {
  }
}
