/**
 * What `enrich_rules` produces, stated without its loops: a reference
 * description of the enriched document (`EnrichedRules`) and of the
 * extraction calls (`AllCalls`), built directly from the decoded rules by
 * `Lookup`, and lemmas that the nested loop (`EnrichAll`) raises exactly on
 * malformed rules and otherwise produces that document and those calls.
 */
module EnrichmentProperties {
  import opened Wrappers
  import opened JsonValues
  import opened ConstraintNormaliser
  import opened Files
  import opened RuleShape
  import opened Enrichment

  /** `field_details[key]` for one of the seven attributes of a well-formed field. */
  function Attr(details: Json, key: string): Json
    requires FieldOk(details) && key in RequiredKeys
  {
    Lookup(details.fields, key).value
  }

  /** The extraction call made for a well-formed field. */
  function FieldCall(name: string, details: Json): Call
    requires FieldOk(details)
  {
    Call(name, Attr(details, "data_type"), Attr(details, "business_rules"))
  }

  /** The seven attributes of a well-formed field, in the order the validator checks them. */
  function Attrs(details: Json): (vs: seq<Json>)
    requires FieldOk(details)
    ensures |vs| == |RequiredKeys|
  {
    seq(|RequiredKeys|, i requires 0 <= i < |RequiredKeys| => Attr(details, RequiredKeys[i]))
  }

  /** The enriched record of a well-formed field: its seven attributes, then the normalised reply. */
  function EnrichedField(name: string, details: Json, extract: Extractor): (r: Json)
    requires FieldOk(details)
    ensures r.Obj? && Keys(r.fields) == OutputKeys
  {
    Obj(Entries(OutputKeys, Attrs(details) + [ConstraintsJson(CleanAndSplit(extract(FieldCall(name, details))))]))
  }

  /** The record keeps each of the seven attributes unchanged. */
  lemma EnrichedFieldCopies(name: string, details: Json, extract: Extractor, i: nat)
    requires FieldOk(details) && i < |RequiredKeys|
    ensures Lookup(EnrichedField(name, details, extract).fields, RequiredKeys[i]) == Lookup(details.fields, RequiredKeys[i])
  {
    RecordEntry(details, ConstraintsJson(CleanAndSplit(extract(FieldCall(name, details)))), i);
  }

  /** Under `constraints` the record holds the normalised reply to the field's extraction call. */
  lemma EnrichedFieldConstraints(name: string, details: Json, extract: Extractor)
    requires FieldOk(details)
    ensures Lookup(EnrichedField(name, details, extract).fields, "constraints")
         == Some(ConstraintsJson(CleanAndSplit(extract(FieldCall(name, details)))))
  {
    var reply := ConstraintsJson(CleanAndSplit(extract(FieldCall(name, details))));
    RecordEntry(details, reply, 7);
    assert OutputKeys[7] == "constraints";
  }

  /** A failed extraction leaves the field with an empty `constraints` list. */
  lemma FailedExtractionEmpty(name: string, details: Json, extract: Extractor)
    requires FieldOk(details) && extract(FieldCall(name, details)).None?
    ensures Lookup(EnrichedField(name, details, extract).fields, "constraints") == Some(Arr([]))
  {
    EnrichedFieldConstraints(name, details, extract);
  }

  /**
   * Each field's record depends on its own extraction reply only: two
   * extractors that give field `j` the same reply (one may fail on every
   * other field) give it the same record.
   */
  lemma ExtractionIsLocal(fields: seq<(string, Json)>, extract: Extractor, extract': Extractor, j: nat)
    requires forall k :: 0 <= k < |fields| ==> FieldOk(fields[k].1)
    requires j < |fields|
    requires extract(FieldCall(fields[j].0, fields[j].1)) == extract'(FieldCall(fields[j].0, fields[j].1))
    ensures EnrichedFields(fields, extract)[j] == EnrichedFields(fields, extract')[j]
  {
  }

  /** Entry `i` of the reference record is found under its key. */
  lemma RecordEntry(details: Json, reply: Json, i: nat)
    requires FieldOk(details) && i < |OutputKeys|
    ensures Lookup(Entries(OutputKeys, Attrs(details) + [reply]), OutputKeys[i]) == Some((Attrs(details) + [reply])[i])
  {
    OutputKeysDistinct();
    LookupEntries(OutputKeys, Attrs(details) + [reply], i);
  }

  /** The seven attributes are `data_type`, the five copied ones and `business_rules`. */
  lemma RequiredKeysSplit()
    ensures RequiredKeys == ["data_type"] + CopiedKeys + ["business_rules"]
  {
  }

  /** A field carries the seven attributes exactly when the two read first and the five copied ones are there. */
  lemma FieldOkIff(details: Json)
    ensures FieldOk(details)
        <==> details.Obj? && "data_type" in Keys(details.fields) && "business_rules" in Keys(details.fields)
             && forall k :: k in CopiedKeys ==> k in Keys(details.fields)
  {
    RequiredKeysSplit();
  }

  /** On a well-formed field the two first reads succeed with its attributes. */
  lemma FirstReads(details: Json)
    requires FieldOk(details)
    ensures Index(details, "data_type") == Ok(Attrs(details)[0])
    ensures Index(details, "business_rules") == Ok(Attrs(details)[6])
  {
    RequiredKeysSplit();
  }

  /** On a well-formed field the five copied reads succeed with its attributes. */
  lemma CopiedReads(details: Json)
    requires FieldOk(details)
    ensures IndexAll(details, CopiedKeys) == Ok(Attrs(details)[1..6])
  {
    RequiredKeysSplit();
    var r := IndexAll(details, CopiedKeys);
    assert r.Ok? && |r.value| == |CopiedKeys| == 5;
    forall i | 0 <= i < 5
      ensures r.value[i] == Attrs(details)[1..6][i]
    {
      assert Index(details, CopiedKeys[i]) == Ok(r.value[i]);
      assert CopiedKeys[i] == RequiredKeys[i + 1];
    }
    assert r.value == Attrs(details)[1..6];
  }

  /** Seven values regrouped as the dict literal lists them: the first, the five copied, the last. */
  lemma SevenValues(vs: seq<Json>, reply: Json)
    requires |vs| == 7
    ensures [vs[0]] + vs[1..6] + [vs[6], reply] == vs + [reply]
  {
  }

  /**
   * One pass of the inner loop: the extraction call is made once
   * `data_type` and `business_rules` have been read, the record is stored
   * exactly when the field carries all seven attributes, and then it is the
   * reference record.
   */
  lemma EnrichFieldIsReference(name: string, details: Json, extract: Extractor)
    ensures EnrichField(name, details, extract).call.Some?
        <==> details.Obj? && "data_type" in Keys(details.fields) && "business_rules" in Keys(details.fields)
    ensures EnrichField(name, details, extract).result.Ok? <==> FieldOk(details)
    ensures FieldOk(details) ==>
      EnrichField(name, details, extract) == FieldStep(Some(FieldCall(name, details)), Ok(EnrichedField(name, details, extract)))
  {
    FieldOkIff(details);
    if FieldOk(details) {
      FirstReads(details);
      CopiedReads(details);
      SevenValues(Attrs(details), ConstraintsJson(CleanAndSplit(extract(FieldCall(name, details)))));
    }
  }

  /** A loop ends without an exception exactly when every iteration succeeds. */
  lemma {:induction false} FoldSucceedsIff(steps: seq<Step>, n: nat)
    requires n <= |steps|
    ensures Fold(steps, n).fault.None? <==> forall j :: 0 <= j < n ==> steps[j].result.Ok?
    decreases n
  {
    if n > 0 {
      FoldSucceedsIff(steps, n - 1);
    }
  }

  lemma PrefixSnoc<T>(s: seq<T>, n: nat)
    requires 0 < n <= |s|
    ensures s[..n] == s[..n - 1] + [s[n - 1]]
  {
  }

  /** The concatenation of a list of lists, in order. */
  function Flatten<T>(xss: seq<seq<T>>): seq<T> {
    if xss == [] then [] else Flatten(xss[..|xss| - 1]) + xss[|xss| - 1]
  }

  /** Each element as a one-element list. */
  function Singletons<T>(xs: seq<T>): (xss: seq<seq<T>>)
    ensures |xss| == |xs|
    ensures forall j :: 0 <= j < |xs| ==> xss[j] == [xs[j]]
  {
    seq(|xs|, j requires 0 <= j < |xs| => [xs[j]])
  }

  /** Flattening one-element lists gives back their elements. */
  lemma {:induction false} FlattenSingletons<T>(xs: seq<T>)
    ensures Flatten(Singletons(xs)) == xs
    decreases |xs|
  {
    if xs != [] {
      var pre := xs[..|xs| - 1];
      assert Singletons(xs)[..|xs| - 1] == Singletons(pre);
      FlattenSingletons(pre);
      assert xs == pre + [xs[|xs| - 1]];
    }
  }

  /**
   * A loop whose every iteration succeeds, iteration `j` assigning `out[j]`
   * and making the calls `calls[j]`: after `n` iterations it has made the
   * first `n` assignments and the calls of the first `n` iterations.
   */
  lemma {:induction false} FoldAllOk(steps: seq<Step>, out: seq<(string, Json)>, calls: seq<seq<Call>>, n: nat)
    requires n <= |steps| && |out| == |steps| && |calls| == |steps|
    requires forall j :: 0 <= j < |steps| ==> steps[j] == Step(out[j].0, calls[j], Ok(out[j].1))
    ensures Fold(steps, n) == Progress(out[..n], Flatten(calls[..n]), None)
    decreases n
  {
    if n > 0 {
      FoldAllOk(steps, out, calls, n - 1);
      FoldOk(steps, n - 1);
      PrefixSnoc(out, n);
      PrefixSnoc(calls, n);
      assert calls[..n][..n - 1] == calls[..n - 1];
    }
  }

  /** The whole loop of `FoldAllOk`: every assignment and every call, in order. */
  lemma FoldAllOkWhole(steps: seq<Step>, out: seq<(string, Json)>, calls: seq<seq<Call>>)
    requires |out| == |steps| && |calls| == |steps|
    requires forall j :: 0 <= j < |steps| ==> steps[j] == Step(out[j].0, calls[j], Ok(out[j].1))
    ensures Fold(steps, |steps|) == Progress(out, Flatten(calls), None)
  {
    FoldAllOk(steps, out, calls, |steps|);
    assert out[..|steps|] == out && calls[..|steps|] == calls;
  }

  /** The calls the inner loop makes over well-formed fields: one per field, in order. */
  function FieldCalls(fields: seq<(string, Json)>): (calls: seq<Call>)
    requires forall j :: 0 <= j < |fields| ==> FieldOk(fields[j].1)
    ensures |calls| == |fields|
  {
    seq(|fields|, j requires 0 <= j < |fields| => FieldCall(fields[j].0, fields[j].1))
  }

  /** The enriched `fields` object of well-formed fields: each name with its reference record, in order. */
  function EnrichedFields(fields: seq<(string, Json)>, extract: Extractor): (r: seq<(string, Json)>)
    requires forall j :: 0 <= j < |fields| ==> FieldOk(fields[j].1)
    ensures Keys(r) == Keys(fields)
  {
    seq(|fields|, j requires 0 <= j < |fields| => (fields[j].0, EnrichedField(fields[j].0, fields[j].1, extract)))
  }

  /** The inner loop raises exactly when some field lacks one of the seven attributes. */
  lemma EnrichFieldsRaisesIff(fields: seq<(string, Json)>, extract: Extractor)
    ensures EnrichFields(fields, extract).fault.None? <==> forall j :: 0 <= j < |fields| ==> FieldOk(fields[j].1)
  {
    var steps := FieldSteps(fields, extract);
    FoldSucceedsIff(steps, |fields|);
    forall j | 0 <= j < |fields|
      ensures steps[j].result.Ok? <==> FieldOk(fields[j].1)
    {
      FieldStepAt(fields, extract, j);
      EnrichFieldIsReference(fields[j].0, fields[j].1, extract);
    }
  }

  /** Pass `j` of the inner loop over a well-formed field stores its reference record after one call. */
  lemma FieldStepIsReference(fields: seq<(string, Json)>, extract: Extractor, j: nat)
    requires j < |fields| && FieldOk(fields[j].1)
    ensures FieldSteps(fields, extract)[j]
         == Step(fields[j].0, [FieldCall(fields[j].0, fields[j].1)], Ok(EnrichedField(fields[j].0, fields[j].1, extract)))
  {
    FieldStepAt(fields, extract, j);
    EnrichFieldIsReference(fields[j].0, fields[j].1, extract);
  }

  /** Over well-formed fields the inner loop stores every reference record and makes every call, in order. */
  lemma EnrichFieldsOutput(fields: seq<(string, Json)>, extract: Extractor)
    requires forall j :: 0 <= j < |fields| ==> FieldOk(fields[j].1)
    ensures EnrichFields(fields, extract) == Progress(EnrichedFields(fields, extract), FieldCalls(fields), None)
  {
    var steps := FieldSteps(fields, extract);
    var out := EnrichedFields(fields, extract);
    var calls := Singletons(FieldCalls(fields));
    forall j | 0 <= j < |fields|
      ensures steps[j] == Step(out[j].0, calls[j], Ok(out[j].1))
    {
      FieldStepIsReference(fields, extract, j);
    }
    FoldAllOkWhole(steps, out, calls);
    FlattenSingletons(FieldCalls(fields));
  }

  /** Dropping the last entry of a dict leaves a dict without the last key. */
  lemma DistinctSnoc(a: seq<(string, Json)>)
    requires a != [] && DistinctKeys(a)
    ensures DistinctKeys(a[..|a| - 1])
    ensures a[|a| - 1].0 !in Keys(a[..|a| - 1])
  {
    var pre := a[..|a| - 1];
    forall i | 0 <= i < |pre|
      ensures Keys(pre)[i] != a[|a| - 1].0
    {
    }
  }

  lemma PutFresh(o: seq<(string, Json)>, k: string, v: Json)
    requires k !in Keys(o)
    ensures Put(o, k, v) == o + [(k, v)]
  {
  }

  /** Each key is new when it is assigned: no earlier assignment used it. */
  predicate FreshKeys(a: seq<(string, Json)>) {
    a == [] || (FreshKeys(a[..|a| - 1]) && a[|a| - 1].0 !in Keys(a[..|a| - 1]))
  }

  /** In a dict every key is new when it is assigned. */
  lemma {:induction false} DistinctFresh(a: seq<(string, Json)>)
    requires DistinctKeys(a)
    ensures FreshKeys(a)
    decreases |a|
  {
    if a != [] {
      DistinctSnoc(a);
      DistinctFresh(a[..|a| - 1]);
    }
  }

  /** One more new key appended to a list that assigns as itself. */
  lemma AssignFreshSnoc(pre: seq<(string, Json)>, k: string, v: Json)
    requires Assign(pre) == pre && k !in Keys(pre)
    ensures Assign(pre + [(k, v)]) == pre + [(k, v)]
  {
    AssignSnoc(pre, k, v);
    PutFresh(pre, k, v);
  }

  /** Assigning new keys one by one into an empty dict builds exactly the list of assignments. */
  lemma {:induction false} AssignFresh(a: seq<(string, Json)>)
    requires FreshKeys(a)
    ensures Assign(a) == a
    decreases |a|
  {
    if a != [] {
      var pre := a[..|a| - 1];
      var last := a[|a| - 1];
      assert a == pre + [(last.0, last.1)];
      AssignFresh(pre);
      AssignFreshSnoc(pre, last.0, last.1);
    }
  }

  /** Two lists with the same keys: if one is a dict, so is the other. */
  lemma SameKeysDistinct(a: seq<(string, Json)>, b: seq<(string, Json)>)
    requires Keys(a) == Keys(b) && DistinctKeys(a)
    ensures DistinctKeys(b)
  {
    forall i, j | 0 <= i < j < |b|
      ensures b[i].0 != b[j].0
    {
      assert Keys(a)[i] == a[i].0 && Keys(a)[j] == a[j].0;
    }
  }

  /** `details["fields"]` of a parent whose `fields` entry is an object. */
  function FieldsOf(details: Json): seq<(string, Json)>
    requires HasFieldsObject(details)
  {
    Lookup(details.fields, "fields").value.fields
  }

  /** The enriched parent: nothing but its `fields`, each field replaced by its reference record. */
  function EnrichedParent(details: Json, extract: Extractor): Json
    requires ParentWellShaped(details)
  {
    Obj([("fields", Obj(EnrichedFields(FieldsOf(details), extract)))])
  }

  /** One pass of the outer loop raises exactly when the parent has no `fields` object or a field lacks an attribute. */
  lemma ParentStepRaisesIff(name: string, details: Json, extract: Extractor)
    ensures ParentStepOf(name, details, extract).result.Ok? <==> ParentWellShaped(details)
  {
    if HasFieldsObject(details) {
      EnrichFieldsRaisesIff(FieldsOf(details), extract);
    }
  }

  /** One pass of the outer loop over a well-shaped parent stores the reference parent after its fields' calls. */
  lemma ParentStepIsReference(name: string, details: Json, extract: Extractor)
    requires ParentWellShaped(details) && DistinctKeys(FieldsOf(details))
    ensures ParentStepOf(name, details, extract)
         == Step(name, FieldCalls(FieldsOf(details)), Ok(EnrichedParent(details, extract)))
  {
    var fields := FieldsOf(details);
    EnrichFieldsOutput(fields, extract);
    SameKeysDistinct(fields, EnrichedFields(fields, extract));
    DistinctFresh(EnrichedFields(fields, extract));
    AssignFresh(EnrichedFields(fields, extract));
  }

  /** What `json.load` guarantees on the two levels the loops walk: no parent name and no field name repeats. */
  predicate NoRepeatedNames(parents: seq<(string, Json)>) {
    DistinctKeys(parents)
    && forall i :: 0 <= i < |parents| && HasFieldsObject(parents[i].1) ==> DistinctKeys(FieldsOf(parents[i].1))
  }

  /** Rules the loops run through without an exception: an object of well-shaped parents. */
  predicate Enrichable(rules: Json) {
    rules.Obj? && forall i :: 0 <= i < |rules.fields| ==> ParentWellShaped(rules.fields[i].1)
  }

  /** The enriched document: each parent name with its enriched parent, in order. */
  function EnrichedRules(parents: seq<(string, Json)>, extract: Extractor): (r: seq<(string, Json)>)
    requires forall i :: 0 <= i < |parents| ==> ParentWellShaped(parents[i].1)
    ensures Keys(r) == Keys(parents)
  {
    seq(|parents|, i requires 0 <= i < |parents| => (parents[i].0, EnrichedParent(parents[i].1, extract)))
  }

  /** The calls of each parent's fields. */
  function ParentCalls(parents: seq<(string, Json)>): (calls: seq<seq<Call>>)
    requires forall i :: 0 <= i < |parents| ==> ParentWellShaped(parents[i].1)
    ensures |calls| == |parents|
  {
    seq(|parents|, i requires 0 <= i < |parents| => ParentFieldCalls(parents[i].1))
  }

  /** The calls one well-shaped parent makes. */
  function ParentFieldCalls(details: Json): seq<Call>
    requires ParentWellShaped(details)
  {
    FieldCalls(FieldsOf(details))
  }

  /** Every extraction call of a run over well-shaped rules: one per field, parent by parent, in document order. */
  function AllCalls(parents: seq<(string, Json)>): seq<Call>
    requires forall i :: 0 <= i < |parents| ==> ParentWellShaped(parents[i].1)
  {
    Flatten(ParentCalls(parents))
  }

  /** Pass `i` of the outer loop over a well-shaped parent. */
  lemma ParentStepIsReferenceAt(parents: seq<(string, Json)>, extract: Extractor, i: nat)
    requires i < |parents| && ParentWellShaped(parents[i].1) && DistinctKeys(FieldsOf(parents[i].1))
    ensures ParentSteps(parents, extract)[i]
         == Step(parents[i].0, ParentFieldCalls(parents[i].1), Ok(EnrichedParent(parents[i].1, extract)))
  {
    ParentStepAt(parents, extract, i);
    ParentStepIsReference(parents[i].0, parents[i].1, extract);
  }

  /**
   * The enrichment raises (`KeyError`, `TypeError` or `AttributeError`)
   * exactly when the rules are not an object of parents with a `fields`
   * object whose fields all carry the seven attributes.
   */
  lemma EnrichAllRaisesIff(rules: Json, extract: Extractor)
    ensures EnrichAll(rules, extract).fault.None? <==> Enrichable(rules)
  {
    if rules.Obj? {
      var steps := ParentSteps(rules.fields, extract);
      FoldSucceedsIff(steps, |rules.fields|);
      forall i | 0 <= i < |rules.fields|
        ensures steps[i].result.Ok? <==> ParentWellShaped(rules.fields[i].1)
      {
        ParentStepAt(rules.fields, extract, i);
        ParentStepRaisesIff(rules.fields[i].0, rules.fields[i].1, extract);
      }
    }
  }

  /**
   * Over enrichable rules the loops build the reference document and make
   * one extraction call per field, parent by parent, in document order.
   */
  lemma EnrichAllOutput(rules: Json, extract: Extractor)
    requires Enrichable(rules) && NoRepeatedNames(rules.fields)
    ensures EnrichAll(rules, extract) == Progress(EnrichedRules(rules.fields, extract), AllCalls(rules.fields), None)
  {
    var parents := rules.fields;
    var steps := ParentSteps(parents, extract);
    var out := EnrichedRules(parents, extract);
    var calls := ParentCalls(parents);
    forall i | 0 <= i < |parents|
      ensures steps[i] == Step(out[i].0, calls[i], Ok(out[i].1))
    {
      ParentStepIsReferenceAt(parents, extract, i);
    }
    FoldAllOkWhole(steps, out, calls);
  }

  /** The saved object is the list of assignments itself: each parent appears once, in document order. */
  lemma EnrichedRulesAssigned(parents: seq<(string, Json)>, extract: Extractor)
    requires forall i :: 0 <= i < |parents| ==> ParentWellShaped(parents[i].1)
    requires DistinctKeys(parents)
    ensures Assign(EnrichedRules(parents, extract)) == EnrichedRules(parents, extract)
  {
    SameKeysDistinct(parents, EnrichedRules(parents, extract));
    DistinctFresh(EnrichedRules(parents, extract));
    AssignFresh(EnrichedRules(parents, extract));
  }

  /** Rules the corrected validator accepts never make the enrichment raise. */
  lemma ValidatedRulesEnrich(rules: Json, extract: Extractor)
    requires Validate(rules) == Pass
    ensures EnrichAll(rules, extract).fault.None?
  {
    ValidateIff(rules);
    EnrichAllRaisesIff(rules, extract);
  }

  /**
   * A full run over rules the loops get through: one extraction call per
   * field in document order, then the reference document is written to the
   * output path; a path that cannot be opened for writing is swallowed, a
   * missing output setting raises `TypeError`.
   */
  lemma EnrichRunReference(config: Config, files: map<string, Doc>, unwritable: set<string>, extract: Extractor, rules: Json)
    requires Given(config.geminiApiKey) && Given(config.processedRulesFile)
    requires config.processedRulesFile.value in files && files[config.processedRulesFile.value] == Json(rules)
    requires Enrichable(rules) && NoRepeatedNames(rules.fields)
    ensures EnrichSpec(config, files, unwritable, extract)
         == if config.constrainsProcessedRulesFile.None? then
              Run(Raised(Fault.WrongType), AllCalls(rules.fields), files)
            else if config.constrainsProcessedRulesFile.value == "" || config.constrainsProcessedRulesFile.value in unwritable then
              Run(SaveFailed, AllCalls(rules.fields), files)
            else
              Run(Saved, AllCalls(rules.fields),
                  files[config.constrainsProcessedRulesFile.value := Json(Obj(EnrichedRules(rules.fields, extract)))])
  {
    EnrichAllOutput(rules, extract);
    EnrichedRulesAssigned(rules.fields, extract);
  }

  /** The same run over rules the corrected validator accepts: validated rules are enrichable. */
  lemma ValidatedRunReference(config: Config, files: map<string, Doc>, unwritable: set<string>, extract: Extractor, rules: Json)
    requires Given(config.geminiApiKey) && Given(config.processedRulesFile)
    requires config.processedRulesFile.value in files && files[config.processedRulesFile.value] == Json(rules)
    requires Validate(rules) == Pass && rules.Obj? && NoRepeatedNames(rules.fields)
    ensures Enrichable(rules)
    ensures config.constrainsProcessedRulesFile.Some? && config.constrainsProcessedRulesFile.value != ""
            && config.constrainsProcessedRulesFile.value !in unwritable
        ==> EnrichSpec(config, files, unwritable, extract)
            == Run(Saved, AllCalls(rules.fields),
                   files[config.constrainsProcessedRulesFile.value := Json(Obj(EnrichedRules(rules.fields, extract)))])
  {
    ValidateIff(rules);
    EnrichRunReference(config, files, unwritable, extract, rules);
  }

  /**
   * An empty rules object, which `validate_data` rejects as falsy, runs
   * through the loops without a call and is saved as `{}`.
   */
  lemma EmptyRulesSaved(config: Config, files: map<string, Doc>, unwritable: set<string>, extract: Extractor)
    requires Given(config.geminiApiKey) && Given(config.processedRulesFile)
    requires config.processedRulesFile.value in files && files[config.processedRulesFile.value] == Json(Obj([]))
    requires config.constrainsProcessedRulesFile.Some? && config.constrainsProcessedRulesFile.value != ""
    requires config.constrainsProcessedRulesFile.value !in unwritable
    ensures Validate(Obj([])) == Fail(NoRules)
    ensures EnrichSpec(config, files, unwritable, extract)
         == Run(Saved, [], files[config.constrainsProcessedRulesFile.value := Json(Obj([]))])
  {
    EnrichRunReference(config, files, unwritable, extract, Obj([]));
    assert EnrichedRules([], extract) == [];
    assert ParentCalls([]) == [];
  }

  /** A JSON list of strings. */
  function StrItems(keys: seq<string>): (items: seq<Json>)
    ensures |items| == |keys| && forall i :: 0 <= i < |keys| ==> items[i] == Str(keys[i])
  {
    seq(|keys|, i requires 0 <= i < |keys| => Str(keys[i]))
  }

  /** Python `in` on a list finds every name the list holds as a string. */
  lemma {:induction false} AllInItems(items: seq<Json>, keys: seq<string>)
    requires forall k :: k in keys ==> Str(k) in items
    ensures AllIn(Arr(items), keys) == Some(true)
    decreases |keys|
  {
    if keys != [] {
      assert keys[0] in keys;
      AllInItems(items, keys[1..]);
    }
  }

  /** Field details that are a list of the seven attribute names, rather than an object. */
  function ListDetails(): Json {
    Arr(StrItems(RequiredKeys))
  }

  /** A rules document with one parent holding one field. */
  function OneFieldRules(parent: string, field: string, details: Json): Json {
    Obj([(parent, Obj([("fields", Obj([(field, details)]))]))])
  }

  /** The validator as written lets through any field details its `in` test accepts. */
  lemma OneFieldAsWritten(parent: string, field: string, details: Json)
    requires HasAllKeysAsWritten(details) == Some(true)
    ensures ValidateAsWritten(OneFieldRules(parent, field, details)) == Pass
  {
    ValidateWithIff(OneFieldRules(parent, field, details), HasAllKeysAsWritten);
  }

  /** The corrected validator names the field whose details are not an object. */
  lemma OneFieldCorrected(parent: string, field: string, details: Json)
    requires !details.Obj?
    ensures Validate(OneFieldRules(parent, field, details)) == Fail(MissingKeys(field, parent))
  {
  }

  /** The enrichment raises `TypeError` on field details that are not an object. */
  lemma OneFieldRaises(parent: string, field: string, details: Json, extract: Extractor)
    requires !details.Obj?
    ensures EnrichAll(OneFieldRules(parent, field, details), extract).fault == Some(Fault.WrongType)
  {
    var parents := OneFieldRules(parent, field, details).fields;
    ParentStepAt(parents, extract, 0);
    var fields := [(field, details)];
    FieldStepAt(fields, extract, 0);
    FoldErr(FieldSteps(fields, extract), 0);
    FoldErr(ParentSteps(parents, extract), 0);
  }

  /** The list of the seven names passes the `in` test as written. */
  lemma ListDetailsPassesIn()
    ensures HasAllKeysAsWritten(ListDetails()) == Some(true)
  {
    forall k | k in RequiredKeys
      ensures Str(k) in StrItems(RequiredKeys)
    {
      var i :| 0 <= i < |RequiredKeys| && RequiredKeys[i] == k;
      assert StrItems(RequiredKeys)[i] == Str(k);
    }
    AllInItems(StrItems(RequiredKeys), RequiredKeys);
  }

  /**
   * The validator as written accepts a field whose details are a list of
   * the seven names, since Python's `in` tests list items; the enrichment
   * then raises `TypeError` on the first `field_details["data_type"]`.
   * The corrected validator rejects the same document.
   */
  lemma AsWrittenAcceptsListDetails(extract: Extractor)
    ensures ValidateAsWritten(OneFieldRules("p", "f", ListDetails())) == Pass
    ensures Validate(OneFieldRules("p", "f", ListDetails())) == Fail(MissingKeys("f", "p"))
    ensures EnrichAll(OneFieldRules("p", "f", ListDetails()), extract).fault == Some(Fault.WrongType)
  {
    ListDetailsPassesIn();
    OneFieldAsWritten("p", "f", ListDetails());
    OneFieldCorrected("p", "f", ListDetails());
    OneFieldRaises("p", "f", ListDetails(), extract);
  }
}
