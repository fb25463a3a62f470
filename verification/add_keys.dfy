/**
 * `add_unique_keys`: every test case of every field group gets a `key`,
 * the string form of a fresh `uuid4()`, and the document is written to the
 * output path; an output file already there is first renamed to a backup
 * named after one more `uuid4().hex`.  Any exception is logged and
 * re-raised.
 *
 * The document is `{group name: cases}`.  `for case in cases` walks
 * whatever the group holds: the items of a list, the keys of an object,
 * the characters of a string.  Each case it visits must be an object,
 * since `case["key"] = ...` raises `TypeError` on anything else.
 *
 * The nested loop is `StampGroups`, proved against `StampedGroups`; the
 * whole operation is `AddUniqueKeys`, proved against `AddKeysSpec`.
 */
module TestCaseKeys {
  import opened Wrappers
  import opened JsonValues
  import opened Files
  import opened Uuids

  /** The exception `add_unique_keys` logs and re-raises. */
  datatype KeysError =
    | InputMissing                 // `FileNotFoundError` from `open(input_file)`
    | InputMalformed               // `json.JSONDecodeError`
    | NotAMapping                  // `AttributeError`: the document has no `.items()`
    | NotIterable(group: string)   // `TypeError`: `for case in cases` over a number, boolean or null
    | CaseNotObject(group: string) // `TypeError`: `case["key"] = ...` on a value that is not an object
    | RenameFailed                 // `OSError` from `os.rename`
    | WriteFailed                  // `OSError` from `open(output_file, "w")`

  /** The values `for case in cases` visits; `None` when iteration raises `TypeError`. */
  function Iterated(cases: Json): (r: Option<seq<Json>>)
    ensures r.None? <==> !(cases.Arr? || cases.Obj? || cases.Str?)
    ensures cases.Arr? ==> r == Some(cases.items)
    ensures cases.Obj? ==> r.Some? && |r.value| == |cases.fields|
    ensures cases.Str? ==> r.Some? && |r.value| == |cases.s|
    ensures !cases.Arr? && r.Some? ==> forall j :: 0 <= j < |r.value| ==> r.value[j].Str?
  {
    match cases
    case Arr(items) => Some(items)
    case Obj(fields) => Some(seq(|fields|, j requires 0 <= j < |fields| => Str(fields[j].0)))
    case Str(s) => Some(seq(|s|, j requires 0 <= j < |s| => Str([s[j]])))
    case _ => None
  }

  /** A group the inner loop gets through: iterable, and every case it visits is an object. */
  predicate Keyable(cases: Json) {
    Iterated(cases).Some? && forall j :: 0 <= j < |Iterated(cases).value| ==> Iterated(cases).value[j].Obj?
  }

  /** The exception one group raises, if any. */
  function GroupError(name: string, cases: Json): (e: Option<KeysError>)
    ensures e.None? <==> Keyable(cases)
    ensures e.Some? ==> e.value == NotIterable(name) || e.value == CaseNotObject(name)
  {
    if Iterated(cases).None? then Some(NotIterable(name))
    else if !Keyable(cases) then Some(CaseNotObject(name))
    else None
  }

  /** The exception raised by the first failing group among the first `n`. */
  function FirstError(groups: seq<(string, Json)>, n: nat): (e: Option<KeysError>)
    requires n <= |groups|
    ensures e.None? <==> forall i :: 0 <= i < n ==> Keyable(groups[i].1)
    ensures e.Some? ==> e.value.NotIterable? || e.value.CaseNotObject?
  {
    if n == 0 then None
    else
      match FirstError(groups, n - 1)
      case Some(e) => Some(e)
      case None => GroupError(groups[n - 1].0, groups[n - 1].1)
  }

  /** Once a group has raised, later groups are never reached. */
  lemma {:induction false} FirstErrorSticks(groups: seq<(string, Json)>, i: nat, n: nat)
    requires i <= n <= |groups|
    requires FirstError(groups, i).Some?
    ensures FirstError(groups, n) == FirstError(groups, i)
    decreases n
  {
    if n > i {
      FirstErrorSticks(groups, i, n - 1);
    }
  }

  /** How many cases the inner loop visits in one group. */
  function Size(cases: Json): (n: nat)
    ensures cases.Arr? ==> n == |cases.items|
    ensures !(cases.Arr? || cases.Obj? || cases.Str?) ==> n == 0
  {
    if Iterated(cases).Some? then |Iterated(cases).value| else 0
  }

  /** How many `uuid4()` calls the first `n` groups make. */
  function Offset(groups: seq<(string, Json)>, n: nat): nat
    requires n <= |groups|
  {
    if n == 0 then 0 else Offset(groups, n - 1) + Size(groups[n - 1].1)
  }

  /** How many `uuid4()` calls the whole nested loop makes. */
  function Total(groups: seq<(string, Json)>): nat {
    Offset(groups, |groups|)
  }

  /** `str(u)` as a JSON string. */
  function KeyOf(u: Uuid): Json {
    Str(UuidString(u))
  }

  /**
   * `case["key"] = str(u)` on one case.  The loop only gets here with an
   * object (anything else has raised), so other values are left alone.
   */
  function Stamp(testCase: Json, u: Uuid): (r: Json)
    ensures r.Obj? <==> testCase.Obj?
  {
    if testCase.Obj? then Obj(Put(testCase.fields, "key", KeyOf(u))) else testCase
  }

  /** Cases stamped in order, the `k`-th with `value(first + k)`. */
  function StampAll(items: seq<Json>, value: nat -> Uuid, first: nat): (r: seq<Json>)
    ensures |r| == |items|
  {
    seq(|items|, k requires 0 <= k < |items| => Stamp(items[k], value(first + k)))
  }

  /**
   * A group after the inner loop, whose calls to `uuid4()` return
   * `value(first)`, `value(first + 1)`, ...: each case of a list stamped in
   * order; the empty object or string the loop also gets through unchanged.
   */
  function Stamped(cases: Json, value: nat -> Uuid, first: nat): (r: Json)
    ensures r.Arr? <==> cases.Arr?
    ensures cases.Arr? ==> |r.items| == |cases.items|
  {
    if cases.Arr? then Arr(StampAll(cases.items, value, first)) else cases
  }

  /** The document after the nested loop: group `i` draws its keys after the cases of the groups before it. */
  function StampedGroups(groups: seq<(string, Json)>, value: nat -> Uuid, first: nat): (r: seq<(string, Json)>)
    ensures Keys(r) == Keys(groups)
  {
    seq(|groups|, i requires 0 <= i < |groups| => StampedEntry(groups, i, value, first))
  }

  /** Group `i` of the document after the nested loop. */
  function StampedEntry(groups: seq<(string, Json)>, i: nat, value: nat -> Uuid, first: nat): (r: (string, Json))
    requires i < |groups|
    ensures r.0 == groups[i].0
  {
    (groups[i].0, Stamped(groups[i].1, value, first + Offset(groups, i)))
  }

  /** A list of groups that agrees with `StampedEntry` everywhere is the stamped document. */
  lemma StampedGroupsPointwise(groups: seq<(string, Json)>, value: nat -> Uuid, first: nat, out: seq<(string, Json)>)
    requires |out| == |groups|
    requires forall i :: 0 <= i < |groups| ==> out[i] == StampedEntry(groups, i, value, first)
    ensures out == StampedGroups(groups, value, first)
  {
  }

  /** Stamping one more case extends the stamped prefix by one. */
  lemma StampAllSnoc(items: seq<Json>, value: nat -> Uuid, first: nat, j: nat)
    requires j < |items|
    ensures StampAll(items[..j + 1], value, first) == StampAll(items[..j], value, first) + [Stamp(items[j], value(first + j))]
  {
  }

  /** `f"{output_file}.{u.hex}.bak"`. */
  function BackupPath(output: string, u: Uuid): (p: string)
    ensures |p| > |output|
  {
    output + "." + UuidHex(u) + ".bak"
  }

  /** What a call of `add_unique_keys` leaves behind: its outcome and the files. */
  datatype KeysRun = KeysRun(outcome: Outcome<KeysError>, files: map<string, Doc>)

  /**
   * `add_unique_keys(input, output)` on the files `files`, with the paths in
   * `unwritable` refusing to be created and `uuid4()` returning
   * `value(first)`, `value(first + 1)`, ...
   */
  function AddKeysSpec(input: string, output: string, files: map<string, Doc>, unwritable: set<string>,
                       value: nat -> Uuid, first: nat): (r: KeysRun)
    // Nothing is written before the keys have all been assigned, and a failed rename writes nothing.
    ensures r.outcome.Fail? && r.outcome.error != WriteFailed ==> r.files == files
    // A failed write leaves no output file behind.
    ensures r.outcome == Fail(WriteFailed) ==> output !in r.files
    // On success the output path holds a JSON object.
    ensures r.outcome == Pass ==> output in r.files && r.files[output].Json? && r.files[output].value.Obj?
  {
    if input !in files then KeysRun(Fail(InputMissing), files)
    else if files[input].NotJson? then KeysRun(Fail(InputMalformed), files)
    else if !files[input].value.Obj? then KeysRun(Fail(NotAMapping), files)
    else
      var groups := files[input].value.fields;
      match FirstError(groups, |groups|)
      case Some(e) => KeysRun(Fail(e), files)
      case None =>
        var doc := Json(Obj(StampedGroups(groups, value, first)));
        if output in files then
          var backup := BackupPath(output, value(first + Total(groups)));
          if backup == "" || backup in unwritable then KeysRun(Fail(RenameFailed), files)
          else
            var moved := (files - {output})[backup := files[output]];
            if output == "" || output in unwritable then KeysRun(Fail(WriteFailed), moved)
            else KeysRun(Pass, moved[output := doc])
        else if output == "" || output in unwritable then KeysRun(Fail(WriteFailed), files)
        else KeysRun(Pass, files[output := doc])
  }

  /** The inner loop over the cases one group visits, drawing one `uuid4()` per case. */
  method StampCases(name: string, items: seq<Json>, ids: UuidSource) returns (r: Result<seq<Json>, KeysError>)
    modifies ids
    ensures r.Err? <==> exists k :: 0 <= k < |items| && !items[k].Obj?
    ensures r.Err? ==> r.error == CaseNotObject(name)
    ensures r.Ok? ==> (forall k :: 0 <= k < |items| ==> items[k].Obj?) && r.value == StampAll(items, ids.value, old(ids.drawn))
    ensures r.Ok? ==> ids.drawn == old(ids.drawn) + |items|
  {
    var value, first := ids.value, ids.drawn;
    var stamped: seq<Json> := [];
    var j := 0;
    while j < |items| && items[j].Obj?
      invariant j <= |items|
      invariant ids.drawn == first + j
      invariant forall k :: 0 <= k < j ==> items[k].Obj?
      invariant stamped == StampAll(items[..j], value, first)
    {
      var u := ids.Uuid4();
      StampAllSnoc(items, value, first, j);
      stamped := stamped + [Stamp(items[j], u)];
      j := j + 1;
    }
    if j < |items| {
      // The uuid is drawn before the assignment into the non-dict case raises.
      var _ := ids.Uuid4();
      r := Err(CaseNotObject(name));
    } else {
      assert items[..j] == items;
      r := Ok(stamped);
    }
  }

  /** One group: raise if it cannot be iterated, otherwise run the inner loop over what it visits. */
  method StampGroup(name: string, cases: Json, ids: UuidSource) returns (r: Result<Json, KeysError>)
    modifies ids
    ensures r.Err? <==> GroupError(name, cases).Some?
    ensures r.Err? ==> r.error == GroupError(name, cases).value
    ensures r.Ok? ==> r.value == Stamped(cases, ids.value, old(ids.drawn))
    ensures r.Ok? ==> ids.drawn == old(ids.drawn) + Size(cases)
  {
    if Iterated(cases).None? {
      return Err(NotIterable(name));
    }
    var stamped := StampCases(name, Iterated(cases).value, ids);
    if stamped.Err? {
      return Err(stamped.error);
    }
    if cases.Arr? {
      return Ok(Arr(stamped.value));
    }
    return Ok(cases);
  }

  /**
   * The nested loop over `test_cases.items()` and each group's cases.  The
   * document is a value here, so the stamped groups are returned rather
   * than updated in place.
   */
  method StampGroups(groups: seq<(string, Json)>, ids: UuidSource) returns (r: Result<seq<(string, Json)>, KeysError>)
    modifies ids
    ensures r.Err? <==> FirstError(groups, |groups|).Some?
    ensures r.Err? ==> r.error == FirstError(groups, |groups|).value
    ensures r.Ok? ==> r.value == StampedGroups(groups, ids.value, old(ids.drawn))
    ensures r.Ok? ==> ids.drawn == old(ids.drawn) + Total(groups)
  {
    var value, first := ids.value, ids.drawn;
    var out: seq<(string, Json)> := [];
    var i := 0;
    while i < |groups|
      invariant i <= |groups|
      invariant FirstError(groups, i).None?
      invariant ids.drawn == first + Offset(groups, i)
      invariant |out| == i
      invariant forall k :: 0 <= k < i ==> out[k] == StampedEntry(groups, k, value, first)
    {
      var group := StampGroup(groups[i].0, groups[i].1, ids);
      if group.Err? {
        FirstErrorSticks(groups, i + 1, |groups|);
        return Err(group.error);
      }
      out := out + [(groups[i].0, group.value)];
      i := i + 1;
    }
    StampedGroupsPointwise(groups, value, first, out);
    return Ok(out);
  }

  /**
   * `add_unique_keys(input_file, output_file)`: read, stamp, back up an
   * existing output, write; every exception propagates.
   */
  method AddUniqueKeys(input: string, output: string, fs: FileSystem, ids: UuidSource) returns (r: Outcome<KeysError>)
    requires fs.Valid()
    modifies fs, ids
    ensures fs.Valid() && fs.unwritable == old(fs.unwritable)
    ensures KeysRun(r, fs.files) == AddKeysSpec(input, output, old(fs.files), old(fs.unwritable), ids.value, old(ids.drawn))
    ensures r == Pass ==> ids.drawn == old(ids.drawn) + Total(old(fs.files)[input].value.fields)
                                       + (if output in old(fs.files) then 1 else 0)
  {
    if !fs.Exists(input) {
      return Fail(InputMissing);
    }
    var doc := fs.files[input];
    if doc.NotJson? {
      return Fail(InputMalformed);
    }
    if !doc.value.Obj? {
      return Fail(NotAMapping);
    }
    var stamped := StampGroups(doc.value.fields, ids);
    if stamped.Err? {
      return Fail(stamped.error);
    }
    if fs.Exists(output) {
      var u := ids.Uuid4();
      var renamed := fs.Rename(output, BackupPath(output, u));
      if !renamed {
        return Fail(RenameFailed);
      }
    }
    var written := fs.Write(output, Obj(stamped.value));
    if !written {
      return Fail(WriteFailed);
    }
    return Pass;
  }
}
