# Rule enrichment and test-case keys, modelled in Dafny

This project models the data-shaping core of a test-generation pipeline.
The pipeline turns a store of validation rules into test cases. The model
covers four parts:

- **Constraint normaliser** (`clean_and_split_constraints`). It turns a
  language model's free-text reply into a list of constraint phrases:
  strip, remove every "```", strip again, split on ",", trim each piece,
  drop the empty ones.
- **Rule-shape validator** (`validate_data`). It checks that the rule
  store is non-empty, that every parent entry has `fields`, and that every
  field carries the seven required attributes.
- **Rule enricher** (`enrich_rules`). It runs two configuration guards,
  then loads the rules. It rebuilds every parent as `{"fields": ...}` and
  every field as its seven attributes plus `constraints`, the normalised
  reply of one extraction call. It then saves the result.
- **Key assigner** (`add_unique_keys`). It stamps `case["key"] =
  str(uuid4())` on every case of every group. An existing output file is
  renamed to `<output>.<hex>.bak` before the new document is written.

How the model is laid out:

- JSON values are a datatype. Objects are sequences of (key, value) pairs
  in insertion order, like Python dicts. `Lookup` is `d.get(k)` and `Put`
  is `d[k] = v`.
- The file system is a class with a map of documents and a set of
  unwritable paths.
- The UUID generator is a class whose `n`-th `uuid4()` call returns
  `value(n)`.
- The language-model extraction is a function parameter that returns
  `Option<string>`. `None` is the `None` that `enrich_constraints` returns
  when the call fails.

Each loop is a method. It is proved against a specification function:
`EnrichSpec` for the enricher and `AddKeysSpec` for the key assigner. The
properties are proved about those functions.

Modules:

- `JsonValues`, `Files`, `Uuids` and `PyText`: the library behaviour the
  core relies on (`str.strip`, `str.split`, `str.join`, `uuid`).
- `ConstraintNormaliser` and `ConstraintNormaliserProperties`: the
  normaliser and its properties.
- `RuleShape`: the validator.
- `Enrichment`, `EnrichRun` and `EnrichmentProperties`: the enricher's
  specification, its loops and its properties.
- `TestCaseKeys` and `TestCaseKeysProperties`: the key assigner and its
  properties.

## Model

| member | source | states |
|---|---|---|
| ConstraintNormaliser.CleanAndSplit | src/enrich_rules.py:47-59 | A missing reply (`None`) or an empty one gives `[]`; every item of the result is a constraint phrase: non-empty, stripped, comma-free and "```"-free |
| ConstraintNormaliser.Cleaned | src/enrich_rules.py:53 | The cleaned text is stripped and contains no "```" |
| ConstraintNormaliser.ReplaceFence | src/enrich_rules.py:53 | `replace('```', '')`, left to right and non-overlapping: never longer than its input; its lemmas below show no "```" remains and only backticks go |
| ConstraintNormaliser.Items | src/enrich_rules.py:54-57 | The stripped non-empty pieces of splitting at ","; no item is empty, and `ItemsAreConstraints` makes each a constraint phrase |
| ConstraintNormaliser.ReplaceFenceLeavesNoFence | src/enrich_rules.py:53 | `replace('```', '')` leaves no "```" in its result |
| ConstraintNormaliser.ReplaceFenceFixed | src/enrich_rules.py:53 | Replacing fences in text without any "```" changes nothing |
| ConstraintNormaliser.ReplaceFenceKeepsText | src/enrich_rules.py:53 | The replacement removes only backticks: apart from backticks the text is unchanged |
| ConstraintNormaliser.ReplaceFenceAfterPlain | src/enrich_rules.py:53 | A backtick-free prefix passes through the replacement unchanged |
| ConstraintNormaliser.LeadingTicksFacts | src/enrich_rules.py:53 | A fence at the front means at least three leading backticks; a lone backtick leaves at most one more after it |
| ConstraintNormaliser.DropTicks | src/enrich_rules.py:53 | The text without backticks has no backtick |
| ConstraintNormaliser.NoFenceInfix | src/enrich_rules.py:53-54 | Any slice of a "```"-free text is "```"-free |
| ConstraintNormaliser.NoFenceCons | src/enrich_rules.py:53 | Prepending a character keeps a text "```"-free unless it completes a run of three backticks |
| ConstraintNormaliser.NoFenceAround | src/enrich_rules.py:53-54 | Joining two "```"-free texts with a non-backtick character keeps the result "```"-free |
| ConstraintNormaliser.NoFenceSplit | src/enrich_rules.py:54 | Every piece of splitting a "```"-free text is "```"-free |
| ConstraintNormaliser.NoFenceStrip | src/enrich_rules.py:53 | Stripping a "```"-free text leaves it "```"-free |
| ConstraintNormaliser.StripEach | src/enrich_rules.py:54 | `[c.strip() for c in pieces]`: same length, item `k` is piece `k` stripped |
| ConstraintNormaliser.NonEmpty | src/enrich_rules.py:57 | `[c for c in pieces if c]`: an item is in the result exactly when it is a non-empty piece |
| ConstraintNormaliser.PieceIsConstraint | src/enrich_rules.py:54-57 | A comma-free, "```"-free piece that does not strip to empty strips to a constraint phrase |
| ConstraintNormaliser.NotInInfix | src/enrich_rules.py:54 | A character missing from a text is missing from each of its slices |
| ConstraintNormaliser.ItemsAreConstraints | src/enrich_rules.py:54-57 | Every kept item of a "```"-free text is a constraint phrase |
| ConstraintNormaliser.StripEachConcat | src/enrich_rules.py:54 | Stripping pieces commutes with concatenating the piece lists |
| ConstraintNormaliser.NonEmptyConcat | src/enrich_rules.py:57 | Filtering out empty pieces commutes with concatenation, so the order is kept |
| ConstraintNormaliser.ItemsConcat | src/enrich_rules.py:54-57 | The items of `a + "," + b` are the items of `a` followed by those of `b` |
| ConstraintNormaliserProperties.CleanAndSplitIdempotent | src/enrich_rules.py:47-59 | Normalising the ","-join of a normalised list returns the same list |
| ConstraintNormaliserProperties.ItemsOfJoin | src/enrich_rules.py:54-57 | Splitting the ","-join of constraint phrases gives back exactly those phrases, in order |
| ConstraintNormaliserProperties.JoinOfConstraints | src/enrich_rules.py:53 | The ","-join of a non-empty list of constraint phrases is non-empty, stripped and "```"-free |
| ConstraintNormaliserProperties.JoinOfStripped | src/enrich_rules.py:53 | The ","-join of non-empty, stripped, "```"-free items is itself stripped and "```"-free |
| ConstraintNormaliserProperties.NonEmptyKeepsAll | src/enrich_rules.py:57 | The filter keeps a list with no empty item unchanged |
| ConstraintNormaliserProperties.StripEachKeepsAll | src/enrich_rules.py:54 | Stripping already stripped items changes nothing |
| ConstraintNormaliserProperties.CleanedFixed | src/enrich_rules.py:53 | Cleaning a stripped, "```"-free text changes nothing |
| ConstraintNormaliserProperties.FencedText | src/enrich_rules.py:53 | Cleaning "```" + body + "```" gives the body when the body is stripped and backtick-free |
| ConstraintNormaliserProperties.FencedListReply | src/enrich_rules.py:53-57 | A fenced ","-join of comma- and backtick-free pieces normalises to those pieces stripped, empty ones dropped, in order |
| ConstraintNormaliserProperties.NoTickJoin | src/enrich_rules.py:53 | Joining backtick-free pieces gives a backtick-free text |
| ConstraintNormaliserProperties.StripPadded | src/enrich_rules.py:54 | Stripping " " + w gives back a stripped, non-empty w |
| ConstraintNormaliserProperties.Spaced | src/enrich_rules.py:54 | The pieces of `", ".join(words)` split at the commas: the first word, then each later word after a space |
| ConstraintNormaliserProperties.SpacedPieces | src/enrich_rules.py:54 | Those pieces are comma- and backtick-free, and stripping them gives back the words |
| ConstraintNormaliserProperties.SpacedJoinEnds | src/enrich_rules.py:53 | `", ".join(words)` starts with the first word's first character and ends with the last word's last character |
| ConstraintNormaliserProperties.SpacedJoinStripped | src/enrich_rules.py:53 | `", ".join(words)` of plain words is stripped and non-empty |
| ConstraintNormaliserProperties.JoinLast | src/enrich_rules.py:54 | A join ends with the last character of its last part |
| ConstraintNormaliserProperties.FencedListRoundTrip | src/enrich_rules.py:47-59 | A reply "```w1, w2, ...```" made of plain words normalises to exactly `[w1, w2, ...]` |
| ConstraintNormaliserProperties.ThreeWords | src/enrich_rules.py:47-59 | Three plain words in a fenced ", " list normalise to those three words |
| ConstraintNormaliserProperties.FencedReplyExample | src/enrich_rules.py:24-26 | The reply format the prompt asks for, "```Mandatory, No Special Characters, Only Alphabets```", normalises to ["Mandatory", "No Special Characters", "Only Alphabets"] |
| PyText.Strip | src/enrich_rules.py:53-54 | `str.strip()` never lengthens a string |
| PyText.TrimLeft | src/enrich_rules.py:53-54 | `lstrip()`: a suffix of its input; `TrimLeftStops` and `TrimLeftRemovesSpace` complete it |
| PyText.TrimRight | src/enrich_rules.py:53-54 | `rstrip()`: a prefix of its input; `TrimRightStops` and `TrimRightRemovesSpace` complete it |
| PyText.StripStripped | src/enrich_rules.py:53-54 | `str.strip()` returns a string with no whitespace at either end |
| PyText.StripInfix | src/enrich_rules.py:53-54 | `str.strip()` returns a contiguous slice of its input |
| PyText.StripRemovesSpace | src/enrich_rules.py:53-54 | Only whitespace is removed from either end |
| PyText.StripFixed | src/enrich_rules.py:53-54 | Stripping a stripped string changes nothing |
| PyText.TrimLeftStops | src/enrich_rules.py:53-54 | `lstrip()` stops at the first non-whitespace character |
| PyText.TrimRightStops | src/enrich_rules.py:53-54 | `rstrip()` stops at the last non-whitespace character |
| PyText.TrimLeftRemovesSpace | src/enrich_rules.py:53-54 | `lstrip()` removes only whitespace |
| PyText.TrimRightRemovesSpace | src/enrich_rules.py:53-54 | `rstrip()` removes only whitespace |
| PyText.Split | src/enrich_rules.py:54 | `str.split(sep)` always yields at least one piece |
| PyText.SplitPiecesFree | src/enrich_rules.py:54 | No piece of `split(sep)` contains the separator |
| PyText.SplitAt | src/enrich_rules.py:54 | `split` cuts at the first separator and continues on the rest |
| PyText.JoinSplit | src/enrich_rules.py:54 | `sep.join(s.split(sep)) == s` |
| PyText.SplitJoin | src/enrich_rules.py:54 | Splitting the join of separator-free parts gives back the parts |
| PyText.SplitConcat | src/enrich_rules.py:54 | `(a + sep + b).split(sep)` is `a.split(sep) + b.split(sep)` |
| PyText.SplitAfterSeparatorFree | src/enrich_rules.py:54 | A separator-free head becomes the first piece |
| PyText.IndexOf | src/enrich_rules.py:54 | The first position of a character, or the length when it is absent |
| PyText.IndexOfFirst | src/enrich_rules.py:54 | No earlier position holds the character |
| PyText.Join | src/enrich_rules.py:54 | Joining a single part gives that part |
| PyText.JoinCons | src/enrich_rules.py:54 | Joining x before non-empty parts puts the separator between them |
| RuleShape.ValidateWith | perfect_flow.py:37-38 | `validate_data` raises "No rules to validate" exactly when the rules are falsy |
| RuleShape.ValidateAsWritten | perfect_flow.py:32-45 | `validate_data` as written: "No rules" exactly on falsy rules, a type error on truthy non-dict rules, and acceptance exactly when every parent passes the Python-`in` field check |
| RuleShape.Validate | perfect_flow.py:32-45 | The intended validator: the same, with the field check demanding a dict holding the seven keys |
| RuleShape.HasSubstring | perfect_flow.py:44 | `needle in hay` on strings; `HasSubstringIff` shows it is exactly "occurs at some position" |
| RuleShape.HasSubstringIff | perfect_flow.py:44 | `needle in hay` holds exactly when `needle` occurs at some position of `hay` |
| JsonValues.Truthy | perfect_flow.py:37 | Python truthiness of a decoded JSON value; `ValidateWith` raises "No rules" exactly on its negation |
| RuleShape.ValidateWithIff | perfect_flow.py:32-45 | Acceptance is exactly: truthy, a mapping, and every parent passes (has a `fields` mapping whose every field passes the check) |
| RuleShape.ValidateIff | perfect_flow.py:32-45 | The intended validator `Validate` accepts exactly the well-shaped rules the enricher relies on; the validator as written accepts more (see Findings) |
| RuleShape.CheckParents | perfect_flow.py:40-45 | The outer loop passes exactly when every parent passes, and never reports "No rules" |
| RuleShape.CheckParent | perfect_flow.py:41-45 | A parent passes exactly when its `fields` is a mapping of passing fields; a mapping without `fields` fails with "Missing 'fields' in parent" |
| RuleShape.CheckFields | perfect_flow.py:43-45 | The inner loop passes exactly when every field passes; a failure names a field of that parent, or is a type error |
| RuleShape.PyContains | perfect_flow.py:44 | Python's `in`: a type error except on a dict, list or string; on a dict it is key membership |
| RuleShape.AllIn | perfect_flow.py:44 | `all(key in d for key in keys)`: on a dict, exactly "every key present" |
| RuleShape.ParentOkIff | perfect_flow.py:41-45 | With the intended field check, a parent passes exactly when it is well shaped |
| RuleShape.ChecksAgreeOnObjects | perfect_flow.py:44 | On dict field details the as-written check and the intended check agree |
| RuleShape.ValidateAcceptsLess | perfect_flow.py:32-45 | Whatever the intended validator accepts, the as-written one accepts too |
| RuleShape.EmptyFieldsAccepted | perfect_flow.py:40-45 | A parent with an empty `fields` mapping is accepted |
| Enrichment.Index | src/enrich_rules.py:92-106 | `j[key]` succeeds exactly on a dict holding `key`, returning its value; otherwise a `KeyError`, or a `TypeError` on a non-dict |
| Enrichment.IndexAll | src/enrich_rules.py:101-105 | Reading several keys succeeds exactly when each single read does, with the values in order |
| Enrichment.EnrichField | src/enrich_rules.py:93-108 | One field: the extraction call is for that field, and a record is stored only after its call, with exactly the eight output keys |
| Enrichment.Fold | src/enrich_rules.py:89-108 | Either loop: without an exception, one assignment per iteration, under that iteration's key, in order |
| Enrichment.EnrichFields | src/enrich_rules.py:92-108 | The inner loop: without an exception it assigns every field name once, in order |
| Enrichment.ParentStepOf | src/enrich_rules.py:90-108 | One parent: a missing `fields` raises before any call; a success stores an object whose only key is `fields` |
| Enrichment.EnrichAll | src/enrich_rules.py:89-108 | Both loops: without an exception the rules are a dict and every parent name is assigned once, in order |
| Enrichment.ConstraintsJson | src/enrich_rules.py:107 | The constraint list as JSON: one string per phrase, in order |
| Enrichment.FieldRecord | src/enrich_rules.py:99-108 | The dict literal has exactly the eight output keys, in the literal's order |
| Enrichment.OutputKeysDistinct | src/enrich_rules.py:99-108 | The eight output keys are pairwise different |
| Enrichment.EnrichSpec | src/enrich_rules.py:61-117 | A missing API key stops first and a missing rules path second; nothing is extracted before the rules are read; only a successful save changes files, and only the output path; a swallowed save failure happens only for an unopenable path |
| Enrichment.FaultSticks | src/enrich_rules.py:90-108 | Once an exception escapes, later iterations change nothing |
| Enrichment.FaultStep | src/enrich_rules.py:90-108 | An iteration after an escaped exception changes nothing |
| Enrichment.FoldOk | src/enrich_rules.py:90-108 | A successful iteration appends its assignment and its calls |
| Enrichment.FoldErr | src/enrich_rules.py:90-108 | A failing iteration ends the loop with its exception, after its own calls |
| Enrichment.AssignSnoc | src/enrich_rules.py:91-99 | The assignments made so far are applied in order, each as `d[k] = v` |
| Enrichment.FieldSteps | src/enrich_rules.py:92 | One inner iteration per field |
| Enrichment.ParentSteps | src/enrich_rules.py:90 | One outer iteration per parent |
| EnrichRun.EnrichFieldsLoop | src/enrich_rules.py:92-108 | The inner loop's fault and calls are those of the specification; without a fault its dict is the specification's assignments applied in order |
| EnrichRun.EnrichParent | src/enrich_rules.py:90-108 | One outer iteration yields exactly the specification's step: the new parent value, or the escaping exception, and its calls |
| EnrichRun.EnrichParentsLoop | src/enrich_rules.py:89-108 | The outer loop's fault, calls and rebuilt dict are those of the specification |
| EnrichRun.EnrichRules | src/enrich_rules.py:61-117 | The whole run (status, extraction calls and files afterwards) is `EnrichSpec` of the initial files |
| EnrichmentProperties.EnrichedField | src/enrich_rules.py:99-108 | The reference record of a well-formed field has exactly the eight output keys |
| EnrichmentProperties.EnrichedFieldCopies | src/enrich_rules.py:100-106 | Each of the seven attributes is copied unchanged |
| EnrichmentProperties.EnrichedFieldConstraints | src/enrich_rules.py:96-107 | `constraints` holds the normalised reply to the field's own call `(name, data_type, business_rules)` |
| EnrichmentProperties.FailedExtractionEmpty | src/enrich_rules.py:96-97 | A failed extraction gives that field `constraints = []` |
| EnrichmentProperties.ExtractionIsLocal | src/enrich_rules.py:92-108 | A field's record depends only on its own reply, so another field's failed extraction does not affect it |
| EnrichmentProperties.EnrichFieldIsReference | src/enrich_rules.py:93-108 | The call is made exactly when `data_type` and `business_rules` can be read; the field succeeds exactly when all seven attributes are present; it then equals the reference record |
| EnrichmentProperties.FieldOkIff | src/enrich_rules.py:93-106 | The seven attributes are `data_type`, `business_rules` and the five copied ones |
| EnrichmentProperties.FirstReads | src/enrich_rules.py:93-94 | On a well-formed field, the reads of `data_type` and `business_rules` succeed |
| EnrichmentProperties.CopiedReads | src/enrich_rules.py:101-105 | On a well-formed field, the five copied reads succeed, in order |
| EnrichmentProperties.FoldSucceedsIff | src/enrich_rules.py:90-108 | A loop runs without exception exactly when every iteration succeeds |
| EnrichmentProperties.FoldAllOkWhole | src/enrich_rules.py:90-108 | A loop whose every iteration succeeds makes all the assignments and calls, in order |
| EnrichmentProperties.EnrichFieldsRaisesIff | src/enrich_rules.py:92-108 | The inner loop raises exactly when some field lacks one of the seven attributes |
| EnrichmentProperties.FieldStepIsReference | src/enrich_rules.py:92-108 | An inner iteration over a well-formed field makes one call and stores the reference record |
| EnrichmentProperties.EnrichFieldsOutput | src/enrich_rules.py:92-108 | Over well-formed fields the inner loop stores every reference record under the same names, in order, and makes one call per field |
| EnrichmentProperties.EnrichedFields | src/enrich_rules.py:92-108 | The rebuilt `fields` object keeps the field names, in order |
| EnrichmentProperties.FieldCalls | src/enrich_rules.py:96 | One extraction call per field |
| EnrichmentProperties.PutFresh | src/enrich_rules.py:91-99 | Assigning a new key appends it |
| EnrichmentProperties.AssignFresh | src/enrich_rules.py:91-99 | Assignments to distinct keys build the dict in assignment order |
| EnrichmentProperties.DistinctFresh | src/enrich_rules.py:90-92 | In a dict every key is new when it is assigned |
| EnrichmentProperties.SameKeysDistinct | src/enrich_rules.py:90-92 | A dict with the same keys as a dict has distinct keys |
| EnrichmentProperties.ParentStepRaisesIff | src/enrich_rules.py:90-108 | An outer iteration raises exactly when the parent is not well shaped |
| EnrichmentProperties.ParentStepIsReference | src/enrich_rules.py:90-108 | An outer iteration over a well-shaped parent stores `{"fields": <rebuilt fields>}` after its fields' calls |
| EnrichmentProperties.ParentStepIsReferenceAt | src/enrich_rules.py:90-108 | The same, for the `i`-th parent of the loop |
| EnrichmentProperties.EnrichedRules | src/enrich_rules.py:89-108 | The enriched store keeps the parent names, in order |
| EnrichmentProperties.ParentCalls | src/enrich_rules.py:96 | One list of calls per parent |
| EnrichmentProperties.EnrichAllRaisesIff | src/enrich_rules.py:89-108 | The loops raise exactly when the rules are not a dict of well-shaped parents |
| EnrichmentProperties.EnrichAllOutput | src/enrich_rules.py:89-108 | Without repeated names, the loops build the enriched store and make every field's call, parent by parent |
| EnrichmentProperties.EnrichedRulesAssigned | src/enrich_rules.py:89-92 | Assigning the enriched parents one by one rebuilds the enriched store exactly |
| EnrichmentProperties.ValidatedRulesEnrich | perfect_flow.py:40-45 | Rules the intended validator `Validate` accepts never make the enrichment loops raise; the as-written check does not give this (`AsWrittenAcceptsListDetails`) |
| EnrichmentProperties.EnrichRunReference | src/enrich_rules.py:61-117 | For rules the loops get through (an object of well-shaped parents, `{}` included), the run is fixed: no output setting raises `TypeError`; an unopenable path is reported and swallowed; otherwise exactly the output path is set to the enriched store, after one call per field in document order |
| EnrichmentProperties.ValidatedRunReference | src/enrich_rules.py:61-117 | Rules the intended validator `Validate` accepts are enrichable, so with a writable output path the run saves the enriched store |
| EnrichmentProperties.EmptyRulesSaved | src/enrich_rules.py:89-117 | `{}`, which `validate_data` rejects as falsy, goes through the enricher without a call and is saved as `{}` |
| EnrichmentProperties.StrItems | perfect_flow.py:44 | A list of JSON strings, one per key |
| EnrichmentProperties.AllInItems | perfect_flow.py:44 | On a list holding every key as a string, the `in` test succeeds for every key |
| EnrichmentProperties.OneFieldAsWritten | perfect_flow.py:40-45 | The as-written validator accepts a one-field store whenever the field's details pass its `in` test |
| EnrichmentProperties.OneFieldCorrected | perfect_flow.py:43-45 | The intended validator rejects non-dict field details with "Missing required keys" |
| EnrichmentProperties.OneFieldRaises | src/enrich_rules.py:93 | The enricher raises a `TypeError` on non-dict field details |
| EnrichmentProperties.ListDetailsPassesIn | perfect_flow.py:44 | A list of the seven names passes the as-written `in` test |
| EnrichmentProperties.AsWrittenAcceptsListDetails | perfect_flow.py:44 | The store `{"p": {"fields": {"f": [the seven names]}}}` is accepted as written and rejected as intended, and the enricher raises on it |
| JsonValues.Keys | src/add_keys.py:39 | A dict's keys, in insertion order |
| JsonValues.Lookup | src/enrich_rules.py:92-106 | `d.get(k)` is absent exactly when `k` is not a key |
| JsonValues.Put | src/add_keys.py:41 | `d[k] = v` keeps the key order for an existing key and appends a new one |
| JsonValues.PutLookup | src/add_keys.py:41 | After `d[k] = v`, reading `k` gives `v` and every other key reads as before |
| JsonValues.PutPut | src/add_keys.py:41 | A second assignment to the same key overrides the first |
| JsonValues.PutDistinct | src/add_keys.py:41 | Assignment keeps keys distinct |
| JsonValues.Entries | src/enrich_rules.py:99-108 | A dict literal has the literal's keys, in order |
| JsonValues.LookupEntries | src/enrich_rules.py:99-108 | Each key of a literal with distinct keys reads its own value |
| JsonValues.LookupAt | src/add_keys.py:39 | In a dict with distinct keys, the `i`-th key reads the `i`-th value |
| Files.FileSystem.Write | src/add_keys.py:49-50 | On success the path holds the document and nothing else changes; on failure nothing changes; it fails exactly on an unopenable path |
| Files.FileSystem.Rename | src/add_keys.py:46 | On success the source disappears and the destination holds its content; on failure nothing changes |
| Uuids.UuidSource.Uuid4 | src/add_keys.py:41 | Each call returns the next value of the supply and advances it by one |
| Uuids.Hex | src/add_keys.py:45 | `format(v, "0{width}x")`: exactly `width` lower-case hex digits; `ParseHexOfHex` reads it back |
| Uuids.UuidHex | src/add_keys.py:45 | `u.hex`: exactly 32 digits; `UuidHexInjective` makes it injective |
| Uuids.ParseHexOfHex | src/add_keys.py:45 | Reading a fixed-width hex rendering back gives the number |
| Uuids.HexInjective | src/add_keys.py:45 | Distinct numbers have distinct fixed-width renderings |
| Uuids.UndashDashed | src/add_keys.py:41 | Removing the dashes from `str(u)` gives back `u.hex` |
| Uuids.UuidHexInjective | src/add_keys.py:45 | Distinct UUIDs have distinct `hex` |
| Uuids.UuidStringInjective | src/add_keys.py:41 | Distinct UUIDs have distinct `str` |
| Uuids.UuidString | src/add_keys.py:41 | `str(u)` has 36 characters, with dashes at positions 8, 13, 18 and 23 |
| TestCaseKeys.Iterated | src/add_keys.py:40 | `for case in cases` visits a list's items, a dict's keys as strings, a string's characters, and raises on anything else |
| TestCaseKeys.GroupError | src/add_keys.py:39-41 | A group raises exactly when it is not keyable, with "not iterable" or "case is not a dict" |
| TestCaseKeys.FirstError | src/add_keys.py:39-41 | The loop raises exactly when some group is not keyable |
| TestCaseKeys.FirstErrorSticks | src/add_keys.py:39-41 | The first failing group is the one reported |
| TestCaseKeys.Stamp | src/add_keys.py:41 | Stamping keeps a case a dict |
| TestCaseKeys.StampAll | src/add_keys.py:40-41 | One stamped case per case |
| TestCaseKeys.Stamped | src/add_keys.py:40-41 | One group after the inner loop: a list stays a list of the same length; `CaseKeyed` gives each case its key |
| TestCaseKeys.StampedEntry | src/add_keys.py:39-41 | Group `i` after the nested loop keeps its name and is stamped from the draws after the earlier groups |
| TestCaseKeys.Size | src/add_keys.py:40 | The `uuid4()` draws of one group: one per item of a list, none for a value that cannot be iterated |
| TestCaseKeys.Offset | src/add_keys.py:39-41 | The draws of the first `n` groups; `OffsetAfter` puts every later group's draws after an earlier one's |
| TestCaseKeys.Total | src/add_keys.py:39-41 | The draws of the whole nested loop; `DrawInRange` puts every case's draw below it |
| TestCaseKeys.StampedGroups | src/add_keys.py:39-41 | The stamped document keeps the group names, in order |
| TestCaseKeys.StampedGroupsPointwise | src/add_keys.py:39-41 | A document that agrees with the stamped groups everywhere is the stamped document |
| TestCaseKeys.StampAllSnoc | src/add_keys.py:40-41 | Stamping one more case extends the stamped prefix by one |
| TestCaseKeys.BackupPath | src/add_keys.py:45 | The backup name is longer than the output name, so it is a different path |
| TestCaseKeys.AddKeysSpec | src/add_keys.py:31-55 | Nothing is written unless every key was assigned; a failed rename writes nothing; a failed write leaves no output file; success leaves a JSON object at the output |
| TestCaseKeys.StampCases | src/add_keys.py:40-41 | The inner loop raises exactly when some visited case is not a dict; otherwise it returns every case stamped with successive draws and draws once per case. As in the source, the failing case still draws its uuid before the assignment raises; the number of draws after an error is left unconstrained |
| TestCaseKeys.StampGroup | src/add_keys.py:39-41 | One group raises exactly as `GroupError` says; otherwise it becomes the stamped group, after `Size` draws |
| TestCaseKeys.StampGroups | src/add_keys.py:39-41 | The nested loop raises the first group's error; otherwise it returns the stamped document, after `Total` draws |
| TestCaseKeys.AddUniqueKeys | src/add_keys.py:31-55 | The outcome and the files afterwards are `AddKeysSpec` of the initial files; a success draws once per case plus once for a backup |
| TestCaseKeysProperties.KeyableIff | src/add_keys.py:39-41 | The loop gets through a group exactly when it is a list of dicts, an empty dict or an empty string |
| TestCaseKeysProperties.StampedShape | src/add_keys.py:39-41 | A group keeps its kind and size; a group that is not a list is unchanged |
| TestCaseKeysProperties.StampKey | src/add_keys.py:41 | A stamped case holds `str(u)` under `key` |
| TestCaseKeysProperties.StampAllAt | src/add_keys.py:40-41 | Case `k` is stamped with draw `first + k` |
| TestCaseKeysProperties.CaseKeyed | src/add_keys.py:40-41 | Case `j` of a list group holds the key of its group's `j`-th draw |
| TestCaseKeysProperties.StampKeepsAttributes | src/add_keys.py:41 | Every attribute other than `key` reads the same; an existing `key` is overwritten in place and a missing one is appended |
| TestCaseKeysProperties.KeysSnoc | src/add_keys.py:41 | Appending an entry appends its key |
| TestCaseKeysProperties.StampTwice | src/add_keys.py:41 | Re-stamping a case replaces its key and nothing else |
| TestCaseKeysProperties.OffsetAfter | src/add_keys.py:39-41 | Every case of a later group draws after every case of an earlier one |
| TestCaseKeysProperties.StampedGroupAt | src/add_keys.py:39-41 | Group `i` of the document is group `i` stamped with the draws after the earlier groups' draws |
| TestCaseKeysProperties.DocumentCaseKeyed | src/add_keys.py:39-41 | Every case of every list group carries a key, namely that of its own draw |
| TestCaseKeysProperties.KeyAt | src/add_keys.py:39-41 | The same, with the draw position named |
| TestCaseKeysProperties.DrawInRange | src/add_keys.py:39-41 | Each case's draw is one of the loop's draws |
| TestCaseKeysProperties.DistinctPositions | src/add_keys.py:39-41 | Two different cases get different draw positions |
| TestCaseKeysProperties.DrawsDistinct | src/add_keys.py:41 | Distinct positions within fresh draws give distinct UUIDs |
| TestCaseKeysProperties.KeysDiffer | src/add_keys.py:41 | Cases holding the keys of distinct UUIDs hold distinct keys |
| TestCaseKeysProperties.KeysAtDiffer | src/add_keys.py:39-41 | Two cases whose draws differ hold different keys |
| TestCaseKeysProperties.KeysDistinct | src/add_keys.py:39-41 | With non-repeating `uuid4()` values, no two cases across all groups share a key |
| TestCaseKeysProperties.DocumentShape | src/add_keys.py:39-41 | Group names, order and case counts are unchanged; non-list groups are untouched |
| TestCaseKeysProperties.AddKeysSucceedsIff | src/add_keys.py:31-55 | The run succeeds exactly when the input is a JSON object of keyable groups, the output is writable and, if the output exists, its backup name is writable |
| TestCaseKeysProperties.SavedWithBackup | src/add_keys.py:44-50 | With an existing output, the backup holds the exact prior content, the output holds the keyed document, and no other path changes |
| TestCaseKeysProperties.SavedWithoutBackup | src/add_keys.py:44-50 | With no prior output, no backup is made and only the output path is added |
| TestCaseKeysProperties.WriteFailureAfterBackup | src/add_keys.py:44-55 | A write that fails after the backup leaves the old output only under the backup name |

## Left out

- Enrichment.EnrichSpec: the save's `IOError` is caught and only printed,
  so the run ends with `SaveFailed` and the files unchanged.
- Enrichment.EnrichSpec: a missing `constrains_processed_rules_file`
  makes `open(None, "w")` raise `TypeError`, which escapes. This is
  `Raised(WrongType)`.
- Enrichment.EnrichSpec: `enrich_rules` does not check the rules' shape
  itself. A shape error shows up as a `KeyError` or `TypeError` in the
  middle of the loop, after the calls already made. The workflow
  validates the parsed rules (perfect_flow.py:191) before it submits the
  enrichment (perfect_flow.py:205), but that does not guard the enricher:
  the enrichment task points `processed_rules_file` at
  `data/temp_rules.json` and dumps the validated rules into the output
  path instead (perfect_flow.py:97-100), so `enrich_rules` reads a store
  the check never saw. Even on the same store, the check as written
  accepts field details that are lists or strings (see Findings). Only
  the intended validator `Validate` rules the error out, as a property of
  the two functions (`EnrichmentProperties.ValidatedRulesEnrich`).
  The workflow wiring itself is not part of this model.
- The Gemini client (configuring, prompting, reading the reply) is left
  out: it is a foreign library and network I/O. `enrich_constraints` is a
  function parameter, so in the model the same call always gets the same
  reply. The model name and the prompt text are not modelled.
- `json.load` and `json.dump` are not modelled byte for byte. A file
  either holds a JSON value or does not parse. Numbers are integers, so
  floats are not modelled. Writes are whole-file: a write that fails
  half-way, or a value `json.dump` cannot serialise, is not modelled.
- Enrichment.EnrichSpec: a rules file that exists but cannot be opened or
  decoded is not modelled. `enrich_rules` catches only
  `FileNotFoundError` and `json.JSONDecodeError`
  (src/enrich_rules.py:78-87), so `PermissionError`, `IsADirectoryError`
  and `UnicodeDecodeError` escape the function. The model's files are
  only missing, `NotJson` (the swallowed `RulesFileMalformed`) or JSON.
- JSON objects with repeated keys are not modelled. `json.load` never
  yields them, so the enrichment reference lemmas take distinct names as a
  hypothesis (`NoRepeatedNames`).
- TestCaseKeys.StampGroups: the cases are stamped on values rather than in
  place. `json.load` builds a tree with no shared objects, so every
  in-place update is visible at exactly one position. The cases an
  aborted run had already stamped are never written, so the difference
  cannot be observed.
- Enrichment.EnrichSpec: the inner loop writes through the alias
  `enriched_rules[parent]["fields"]`. It is modelled as storing the empty
  record first and the finished record afterwards, under the same key.
- Uuids.UuidSource: `uuid4()` is a supply of values handed in from
  outside. Its randomness is not modelled. Key uniqueness is proved under
  the hypothesis that the values used do not repeat (`FreshDraws`).
- Config loading (`load_config`), logging setup, `logging` and `print`
  messages are left out: they have no effect on the data.
- `parse_excel`, `generate_test_cases`, the workflow tasks and the
  top-level script are not part of this model.
- `os.rename` over an existing backup name replaces it, as on POSIX. A
  failed rename is modelled only as an unwritable destination.

## Findings

| source | as written | input that shows it | evidently intended | confidence | as-written member | corrected member |
|---|---|---|---|---|---|---|
| perfect_flow.py:44 | `key in field_details` is Python's `in`, which on a list tests membership and on a string tests for a substring, so field details that are a list or string holding the seven names pass | `{"p": {"fields": {"f": ["data_type", "mandatory_field", "from_source", "primary_key", "required_for_deployment", "deployment_validation", "business_rules"]}}}` passes validation, then `field_details["data_type"]` in src/enrich_rules.py:93 raises `TypeError` | only a dict carrying the seven keys passes, so validated rules cannot make the enricher raise | not executed | EnrichmentProperties.AsWrittenAcceptsListDetails | EnrichmentProperties.ValidatedRulesEnrich |
