/**
 * `validate_data`: the shape check run on the parsed rules before they are
 * saved and enriched.  The rules are a JSON object from parent names to
 * details; each details object holds `fields`, an object from field names
 * to field details, and each field must carry seven named attributes.
 *
 * The check is written with Python's `in`, which tests keys of a dict,
 * items of a list and substrings of a str.  `ValidateAsWritten` models it
 * with that meaning; `Validate` is the check as its messages describe it,
 * where field details must be an object holding the seven keys.
 */
module RuleShape {
  import opened Wrappers
  import opened JsonValues

  /** The attributes every field must carry, in the order they are checked. */
  const RequiredKeys: seq<string> := [
    "data_type", "mandatory_field", "from_source", "primary_key",
    "required_for_deployment", "deployment_validation", "business_rules"
  ]

  /**
   * Why validation stops: the three `ValueError`s, or `WrongType` for the
   * `TypeError`/`AttributeError` Python raises on a value of the wrong type.
   */
  datatype ShapeError =
    | NoRules
    | MissingFields(parent: string)
    | MissingKeys(field: string, parent: string)
    | WrongType

  predicate StartsWith(s: string, prefix: string) {
    |prefix| <= |s| && s[..|prefix|] == prefix
  }

  /** `needle in hay` for two strings. */
  predicate HasSubstring(hay: string, needle: string)
    decreases |hay|
  {
    StartsWith(hay, needle) || (hay != [] && HasSubstring(hay[1..], needle))
  }

  /** `needle` occurs in `hay` starting at position `i`. */
  predicate OccursAt(hay: string, needle: string, i: int) {
    0 <= i && i + |needle| <= |hay| && hay[i..i + |needle|] == needle
  }

  /** `needle in hay` holds exactly when `needle` occurs at some position of `hay`. */
  lemma {:induction false} HasSubstringIff(hay: string, needle: string)
    ensures HasSubstring(hay, needle) <==> exists i :: OccursAt(hay, needle, i)
    decreases |hay|
  {
    if hay == [] {
      if exists i :: OccursAt(hay, needle, i) {
        var i :| OccursAt(hay, needle, i);
        assert i == 0 && needle == [];
        assert StartsWith(hay, needle);
      }
      if HasSubstring(hay, needle) {
        assert needle == [];
        assert OccursAt(hay, needle, 0);
      }
    } else {
      HasSubstringIff(hay[1..], needle);
      if StartsWith(hay, needle) {
        assert OccursAt(hay, needle, 0);
      }
      if HasSubstring(hay[1..], needle) {
        var i :| OccursAt(hay[1..], needle, i);
        assert hay[1..][i..i + |needle|] == hay[i + 1..i + 1 + |needle|];
        assert OccursAt(hay, needle, i + 1);
      }
      if exists i :: OccursAt(hay, needle, i) {
        var i :| OccursAt(hay, needle, i);
        if i > 0 {
          assert hay[1..][i - 1..i - 1 + |needle|] == hay[i..i + |needle|];
          assert OccursAt(hay[1..], needle, i - 1);
        } else {
          assert StartsWith(hay, needle);
        }
      }
    }
  }

  /**
   * `key in container` for a decoded JSON value: a key of an object, an
   * item of a list, a substring of a string; `None` for the `TypeError`
   * that `in` raises on null, booleans and numbers.
   */
  function PyContains(container: Json, key: string): (r: Option<bool>)
    ensures r.None? <==> !(container.Obj? || container.Arr? || container.Str?)
    ensures container.Obj? ==> r == Some(key in Keys(container.fields))
  {
    match container
    case Obj(fields) => Some(key in Keys(fields))
    case Arr(items) => Some(Str(key) in items)
    case Str(s) => Some(HasSubstring(s, key))
    case _ => None
  }

  /** `all(key in details for key in keys)`, stopping at the first `False` or exception. */
  function AllIn(details: Json, keys: seq<string>): (r: Option<bool>)
    ensures details.Obj? ==> r == Some(forall k :: k in keys ==> k in Keys(details.fields))
    ensures keys != [] ==> (r.None? <==> !(details.Obj? || details.Arr? || details.Str?))
  {
    if keys == [] then Some(true)
    else
      match PyContains(details, keys[0])
      case None => None
      case Some(false) => Some(false)
      case Some(true) => AllIn(details, keys[1..])
  }

  /** The field check as written: Python `in` against the seven names. */
  function HasAllKeysAsWritten(details: Json): Option<bool> {
    AllIn(details, RequiredKeys)
  }

  /** A field's details as the enrichment step reads them: an object holding the seven keys. */
  predicate FieldOk(details: Json) {
    details.Obj? && forall k :: k in RequiredKeys ==> k in Keys(details.fields)
  }

  /** The field check as intended. */
  function HasAllKeys(details: Json): Option<bool> {
    Some(FieldOk(details))
  }

  /** The inner loop: the first field whose check fails or raises. */
  function CheckFields(parent: string, fields: seq<(string, Json)>, check: Json -> Option<bool>): (r: Outcome<ShapeError>)
    ensures r == Pass <==> forall j :: 0 <= j < |fields| ==> check(fields[j].1) == Some(true)
    ensures r.Fail? ==> r.error == WrongType || (r.error.MissingKeys? && r.error.parent == parent && r.error.field in Keys(fields))
  {
    if fields == [] then Pass
    else
      match check(fields[0].1)
      case None => Fail(WrongType)
      case Some(false) => Fail(MissingKeys(fields[0].0, parent))
      case Some(true) =>
        var rest := CheckFields(parent, fields[1..], check);
        assert forall j :: 1 <= j < |fields| ==> fields[j] == fields[1..][j - 1];
        rest
  }

  /** What the outer loop demands of one parent's details before it looks at fields. */
  predicate HasFieldsObject(details: Json) {
    details.Obj? && Lookup(details.fields, "fields").Some? && Lookup(details.fields, "fields").value.Obj?
  }

  /** One parent passes: its `fields` object exists and every field passes the check. */
  predicate ParentOk(details: Json, check: Json -> Option<bool>) {
    HasFieldsObject(details)
    && var fields := Lookup(details.fields, "fields").value.fields;
       forall j :: 0 <= j < |fields| ==> check(fields[j].1) == Some(true)
  }

  /** One iteration of the outer loop. */
  function CheckParent(name: string, details: Json, check: Json -> Option<bool>): (r: Outcome<ShapeError>)
    ensures r == Pass <==> ParentOk(details, check)
    ensures r != Fail(NoRules)
    ensures r == Fail(MissingFields(name)) <== details.Obj? && "fields" !in Keys(details.fields)
  {
    match PyContains(details, "fields")
    case None => Fail(WrongType)
    case Some(false) => Fail(MissingFields(name))
    case Some(true) =>
      if !details.Obj? then Fail(WrongType)
      else
        var fields := Lookup(details.fields, "fields").value;
        if !fields.Obj? then Fail(WrongType) else CheckFields(name, fields.fields, check)
  }

  /** The outer loop: the first parent that fails. */
  function CheckParents(parents: seq<(string, Json)>, check: Json -> Option<bool>): (r: Outcome<ShapeError>)
    ensures r == Pass <==> forall i :: 0 <= i < |parents| ==> ParentOk(parents[i].1, check)
    ensures r != Fail(NoRules)
  {
    if parents == [] then Pass
    else
      var first := CheckParent(parents[0].0, parents[0].1, check);
      if first.Fail? then first
      else
        assert forall i :: 1 <= i < |parents| ==> parents[i] == parents[1..][i - 1];
        CheckParents(parents[1..], check)
  }

  /** `validate_data(rules)` with a given field check. */
  function ValidateWith(rules: Json, check: Json -> Option<bool>): (r: Outcome<ShapeError>)
    ensures r == Fail(NoRules) <==> !Truthy(rules)
  {
    if !Truthy(rules) then Fail(NoRules)
    else if !rules.Obj? then Fail(WrongType)
    else CheckParents(rules.fields, check)
  }

  /** `validate_data` as written. */
  function ValidateAsWritten(rules: Json): (r: Outcome<ShapeError>)
    ensures r == Fail(NoRules) <==> !Truthy(rules)
    ensures Truthy(rules) && !rules.Obj? ==> r == Fail(WrongType)
    ensures r == Pass <==> Truthy(rules) && rules.Obj?
                           && forall i :: 0 <= i < |rules.fields| ==> ParentOk(rules.fields[i].1, HasAllKeysAsWritten)
  {
    ValidateWithIff(rules, HasAllKeysAsWritten);
    ValidateWith(rules, HasAllKeysAsWritten)
  }

  /** `validate_data` as its error messages describe it. */
  function Validate(rules: Json): (r: Outcome<ShapeError>)
    ensures r == Fail(NoRules) <==> !Truthy(rules)
    ensures Truthy(rules) && !rules.Obj? ==> r == Fail(WrongType)
    ensures r == Pass <==> Truthy(rules) && rules.Obj?
                           && forall i :: 0 <= i < |rules.fields| ==> ParentOk(rules.fields[i].1, HasAllKeys)
  {
    ValidateWithIff(rules, HasAllKeys);
    ValidateWith(rules, HasAllKeys)
  }

  /** The rules shape the enrichment step relies on. */
  predicate WellShaped(rules: Json) {
    Truthy(rules) && rules.Obj?
    && forall i :: 0 <= i < |rules.fields| ==> ParentWellShaped(rules.fields[i].1)
  }

  /** Acceptance is exactly the conjunction of the per-parent and per-field conditions. */
  lemma ValidateWithIff(rules: Json, check: Json -> Option<bool>)
    ensures ValidateWith(rules, check) == Pass
        <==> Truthy(rules) && rules.Obj? && forall i :: 0 <= i < |rules.fields| ==> ParentOk(rules.fields[i].1, check)
  {
  }

  /** The corrected validator accepts exactly the well-shaped rules. */
  lemma ValidateIff(rules: Json)
    ensures Validate(rules) == Pass <==> WellShaped(rules)
  {
    ValidateWithIff(rules, HasAllKeys);
    if rules.Obj? {
      forall i | 0 <= i < |rules.fields|
        ensures ParentOk(rules.fields[i].1, HasAllKeys) <==> ParentWellShaped(rules.fields[i].1)
      {
        ParentOkIff(rules.fields[i].1);
      }
    }
  }

  /** One parent of well-shaped rules. */
  predicate ParentWellShaped(details: Json) {
    HasFieldsObject(details)
    && var fields := Lookup(details.fields, "fields").value.fields;
       forall j :: 0 <= j < |fields| ==> FieldOk(fields[j].1)
  }

  lemma ParentOkIff(details: Json)
    ensures ParentOk(details, HasAllKeys) <==> ParentWellShaped(details)
  {
    if HasFieldsObject(details) {
      var fields := Lookup(details.fields, "fields").value.fields;
      if ParentWellShaped(details) {
        forall j | 0 <= j < |fields|
          ensures HasAllKeys(fields[j].1) == Some(true)
        {
          assert FieldOk(fields[j].1);
        }
      }
      if ParentOk(details, HasAllKeys) {
        forall j | 0 <= j < |fields|
          ensures FieldOk(fields[j].1)
        {
          assert HasAllKeys(fields[j].1) == Some(true);
        }
      }
    }
  }

  /** On objects the two field checks agree: the validators differ only on non-object field details. */
  lemma ChecksAgreeOnObjects(details: Json)
    requires details.Obj?
    ensures HasAllKeysAsWritten(details) == HasAllKeys(details)
  {
  }

  /** Whatever the corrected validator accepts, the validator as written accepts too. */
  lemma ValidateAcceptsLess(rules: Json)
    ensures Validate(rules) == Pass ==> ValidateAsWritten(rules) == Pass
  {
    ValidateWithIff(rules, HasAllKeys);
    ValidateWithIff(rules, HasAllKeysAsWritten);
    if Validate(rules) == Pass {
      forall i | 0 <= i < |rules.fields|
        ensures ParentOk(rules.fields[i].1, HasAllKeysAsWritten)
      {
        assert ParentOk(rules.fields[i].1, HasAllKeys);
        var fields := Lookup(rules.fields[i].1.fields, "fields").value.fields;
        forall j | 0 <= j < |fields|
          ensures HasAllKeysAsWritten(fields[j].1) == Some(true)
        {
          assert HasAllKeys(fields[j].1) == Some(true);
          ChecksAgreeOnObjects(fields[j].1);
        }
      }
    }
  }

  /** A parent whose `fields` object is empty passes: no field means nothing to check. */
  lemma EmptyFieldsAccepted(name: string)
    ensures Validate(Obj([(name, Obj([("fields", Obj([]))]))])) == Pass
    ensures ValidateAsWritten(Obj([(name, Obj([("fields", Obj([]))]))])) == Pass
  {
  }
}
