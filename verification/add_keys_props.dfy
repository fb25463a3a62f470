/**
 * What `add_unique_keys` promises about the document it writes: every case
 * of every list group carries a key drawn for it, distinct draws give
 * distinct keys, group names, order and sizes are kept, the other
 * attributes of a case are untouched, and the previous output survives as
 * the backup.
 */
module TestCaseKeysProperties {
  import opened Wrappers
  import opened JsonValues
  import opened Files
  import opened Uuids
  import opened TestCaseKeys

  /**
   * The groups the inner loop gets through are the lists of objects, and
   * also the empty object and the empty string (iterating them visits
   * nothing); a non-empty object or string visits its keys or characters,
   * which are strings, and raises.
   */
  lemma KeyableIff(cases: Json)
    ensures Keyable(cases)
        <==> (cases.Arr? && forall j :: 0 <= j < |cases.items| ==> cases.items[j].Obj?)
             || cases == Obj([]) || cases == Str([])
  {
    if !cases.Arr? && Iterated(cases).Some? && |Iterated(cases).value| > 0 {
      assert Iterated(cases).value[0].Str?;
    }
  }

  /** A group keeps its kind and its size; a group that is not a list is left as it is. */
  lemma {:induction false} StampedShape(cases: Json, value: nat -> Uuid, first: nat)
    ensures Stamped(cases, value, first).Arr? <==> cases.Arr?
    ensures cases.Arr? ==> |Stamped(cases, value, first).items| == |cases.items|
    ensures !cases.Arr? ==> Stamped(cases, value, first) == cases
  {
  }

  /** The `key` of case `j` of a group, when the group is a list and that case an object. */
  function GroupCaseKey(cases: Json, j: nat): Option<Json> {
    if cases.Arr? && j < |cases.items| && cases.items[j].Obj? then Lookup(cases.items[j].fields, "key") else None
  }

  /** A stamped case holds the drawn key under `key`. */
  lemma StampKey(testCase: Json, u: Uuid)
    requires testCase.Obj?
    ensures Lookup(Stamp(testCase, u).fields, "key") == Some(KeyOf(u))
  {
    PutLookup(testCase.fields, "key", KeyOf(u), "key");
  }

  /** Case `k` of a stamped list is case `k` stamped with draw `first + k`. */
  lemma StampAllAt(items: seq<Json>, value: nat -> Uuid, first: nat, k: nat)
    requires k < |items|
    ensures StampAll(items, value, first)[k] == Stamp(items[k], value(first + k))
  {
  }

  /** Case `j` of a list group holds the key of the `j`-th draw. */
  lemma {:induction false} CaseKeyed(cases: Json, value: nat -> Uuid, first: nat, j: nat)
    requires cases.Arr? && j < |cases.items| && cases.items[j].Obj?
    ensures GroupCaseKey(Stamped(cases, value, first), j) == Some(KeyOf(value(first + j)))
  {
    StampAllAt(cases.items, value, first, j);
    StampKey(cases.items[j], value(first + j));
  }

  /** Keys of an object extended by one entry. */
  lemma KeysSnoc(o: seq<(string, Json)>, k: string, v: Json)
    ensures Keys(o + [(k, v)]) == Keys(o) + [k]
  {
  }

  /**
   * Stamping changes nothing in a case but its `key`: every other
   * attribute reads the same, an existing `key` is overwritten where it
   * stands, and a missing one is added at the end.
   */
  lemma StampKeepsAttributes(testCase: Json, u: Uuid)
    requires testCase.Obj?
    ensures forall k :: k != "key" ==> Lookup(Stamp(testCase, u).fields, k) == Lookup(testCase.fields, k)
    ensures "key" in Keys(testCase.fields) ==> Keys(Stamp(testCase, u).fields) == Keys(testCase.fields)
    ensures "key" !in Keys(testCase.fields) ==> Keys(Stamp(testCase, u).fields) == Keys(testCase.fields) + ["key"]
  {
    forall k | k != "key"
      ensures Lookup(Stamp(testCase, u).fields, k) == Lookup(testCase.fields, k)
    {
      PutLookup(testCase.fields, "key", KeyOf(u), k);
    }
    if "key" !in Keys(testCase.fields) {
      KeysSnoc(testCase.fields, "key", KeyOf(u));
    }
  }

  /** A case stamped twice holds only the second key: re-keying replaces keys and nothing else. */
  lemma StampTwice(testCase: Json, u: Uuid, u': Uuid)
    requires testCase.Obj?
    ensures Stamp(Stamp(testCase, u), u') == Stamp(testCase, u')
  {
    PutPut(testCase.fields, "key", KeyOf(u), KeyOf(u'));
  }

  /** The `uuid4()` values drawn from `first` on, `n` of them, are pairwise different. */
  predicate FreshDraws(value: nat -> Uuid, first: nat, n: nat) {
    forall a, b :: first <= a < b < first + n ==> value(a) != value(b)
  }

  /** Every case of a later group draws after every case of an earlier one. */
  lemma {:induction false} OffsetAfter(groups: seq<(string, Json)>, i: nat, n: nat)
    requires i < n <= |groups|
    ensures Offset(groups, i) + Size(groups[i].1) <= Offset(groups, n)
    decreases n
  {
    if n > i + 1 {
      OffsetAfter(groups, i, n - 1);
    }
  }

  /** The `key` of case `j` of group `i` of a document. */
  function CaseKey(doc: seq<(string, Json)>, i: nat, j: nat): Option<Json> {
    if i < |doc| then GroupCaseKey(doc[i].1, j) else None
  }

  /** Group `i` of the written document is group `i` stamped with the draws after the earlier groups'. */
  lemma {:induction false} StampedGroupAt(groups: seq<(string, Json)>, value: nat -> Uuid, first: nat, i: nat)
    requires i < |groups|
    ensures |StampedGroups(groups, value, first)| == |groups|
    ensures StampedGroups(groups, value, first)[i] == (groups[i].0, Stamped(groups[i].1, value, first + Offset(groups, i)))
  {
  }

  /** Case `j` of list group `i` in the written document holds the key of draw `Offset(groups, i) + j`. */
  lemma {:induction false} DocumentCaseKeyed(groups: seq<(string, Json)>, value: nat -> Uuid, first: nat, i: nat, j: nat)
    requires i < |groups| && groups[i].1.Arr? && j < |groups[i].1.items| && groups[i].1.items[j].Obj?
    ensures CaseKey(StampedGroups(groups, value, first), i, j) == Some(KeyOf(value(first + Offset(groups, i) + j)))
  {
    StampedGroupAt(groups, value, first, i);
    CaseKeyed(groups[i].1, value, first + Offset(groups, i), j);
  }

  /** The inner loop visits every case of a list. */
  lemma ListSize(cases: Json)
    requires cases.Arr?
    ensures Size(cases) == |cases.items|
  {
  }

  /** The draw of case `j` of a list group `i` is one of the `Total(groups)` draws of the nested loop. */
  lemma {:induction false} DrawInRange(groups: seq<(string, Json)>, i: nat, j: nat)
    requires i < |groups| && groups[i].1.Arr? && j < |groups[i].1.items|
    ensures Offset(groups, i) + j < Total(groups)
  {
    OffsetAfter(groups, i, |groups|);
  }

  /** Two different cases of list groups are given different draws, both among the loop's draws. */
  lemma {:induction false} DistinctPositions(groups: seq<(string, Json)>, i: nat, j: nat, i': nat, j': nat)
    requires i < |groups| && groups[i].1.Arr? && j < |groups[i].1.items|
    requires i' < |groups| && groups[i'].1.Arr? && j' < |groups[i'].1.items|
    requires (i, j) != (i', j')
    ensures Offset(groups, i) + j != Offset(groups, i') + j'
    ensures Offset(groups, i) + j < Total(groups) && Offset(groups, i') + j' < Total(groups)
  {
    DrawInRange(groups, i, j);
    DrawInRange(groups, i', j');
    if i < i' {
      OffsetAfter(groups, i, i');
      ListSize(groups[i].1);
    } else if i' < i {
      OffsetAfter(groups, i', i);
      ListSize(groups[i'].1);
    }
  }

  /** Distinct draw positions within a run of fresh draws give distinct UUIDs. */
  lemma {:induction false} DrawsDistinct(value: nat -> Uuid, first: nat, n: nat, a: nat, b: nat)
    requires FreshDraws(value, first, n)
    requires first <= a < first + n && first <= b < first + n && a != b
    ensures value(a) != value(b)
  {
    if a < b {
      assert value(a) != value(b);
    } else {
      assert value(b) != value(a);
    }
  }

  /** Two cases that hold the keys of distinct UUIDs hold distinct keys. */
  lemma {:induction false} KeysDiffer(k: Option<Json>, k': Option<Json>, u: Uuid, u': Uuid)
    requires k == Some(KeyOf(u)) && k' == Some(KeyOf(u')) && u != u'
    ensures k.Some? && k != k'
  {
    UuidStringInjective(u, u');
  }

  /** `DocumentCaseKeyed` with the draw position named. */
  lemma {:induction false} KeyAt(groups: seq<(string, Json)>, value: nat -> Uuid, first: nat, i: nat, j: nat, a: nat)
    requires i < |groups| && groups[i].1.Arr? && j < |groups[i].1.items| && groups[i].1.items[j].Obj?
    requires a == first + Offset(groups, i) + j
    ensures CaseKey(StampedGroups(groups, value, first), i, j) == Some(KeyOf(value(a)))
  {
    DocumentCaseKeyed(groups, value, first, i, j);
  }

  /** Two cases whose draws gave different UUIDs hold different keys. */
  lemma {:induction false} KeysAtDiffer(groups: seq<(string, Json)>, value: nat -> Uuid, first: nat,
                                        i: nat, j: nat, i': nat, j': nat, a: nat, b: nat)
    requires i < |groups| && groups[i].1.Arr? && j < |groups[i].1.items| && groups[i].1.items[j].Obj?
    requires i' < |groups| && groups[i'].1.Arr? && j' < |groups[i'].1.items| && groups[i'].1.items[j'].Obj?
    requires a == first + Offset(groups, i) + j && b == first + Offset(groups, i') + j'
    requires value(a) != value(b)
    ensures CaseKey(StampedGroups(groups, value, first), i, j).Some?
    ensures CaseKey(StampedGroups(groups, value, first), i, j) != CaseKey(StampedGroups(groups, value, first), i', j')
  {
    KeyAt(groups, value, first, i, j, a);
    KeyAt(groups, value, first, i', j', b);
    KeysDiffer(CaseKey(StampedGroups(groups, value, first), i, j), CaseKey(StampedGroups(groups, value, first), i', j'), value(a), value(b));
  }

  /**
   * Given `uuid4()` values that do not repeat, no two cases of the written
   * document share a key.
   */
  lemma {:induction false} KeysDistinct(groups: seq<(string, Json)>, value: nat -> Uuid, first: nat, i: nat, j: nat, i': nat, j': nat)
    requires forall g :: 0 <= g < |groups| ==> Keyable(groups[g].1)
    requires FreshDraws(value, first, Total(groups))
    requires i < |groups| && groups[i].1.Arr? && j < |groups[i].1.items|
    requires i' < |groups| && groups[i'].1.Arr? && j' < |groups[i'].1.items|
    requires (i, j) != (i', j')
    ensures CaseKey(StampedGroups(groups, value, first), i, j).Some?
    ensures CaseKey(StampedGroups(groups, value, first), i, j) != CaseKey(StampedGroups(groups, value, first), i', j')
  {
    DistinctPositions(groups, i, j, i', j');
    DrawsDistinct(value, first, Total(groups), first + Offset(groups, i) + j, first + Offset(groups, i') + j');
    assert Keyable(groups[i].1) && Keyable(groups[i'].1);
    KeysAtDiffer(groups, value, first, i, j, i', j', first + Offset(groups, i) + j, first + Offset(groups, i') + j');
  }

  /** Every group of the written document sits where it was, under the same name, with the same number of cases. */
  lemma {:induction false} DocumentShape(groups: seq<(string, Json)>, value: nat -> Uuid, first: nat, i: nat)
    requires i < |groups|
    ensures |StampedGroups(groups, value, first)| == |groups|
    ensures StampedGroups(groups, value, first)[i].0 == groups[i].0
    ensures StampedGroups(groups, value, first)[i].1.Arr? <==> groups[i].1.Arr?
    ensures groups[i].1.Arr? ==> |StampedGroups(groups, value, first)[i].1.items| == |groups[i].1.items|
    ensures !groups[i].1.Arr? ==> StampedGroups(groups, value, first)[i].1 == groups[i].1
  {
    StampedShape(groups[i].1, value, first + Offset(groups, i));
  }

  /** The run succeeds exactly when the input is an object of keyable groups and both renaming and writing can go ahead. */
  lemma AddKeysSucceedsIff(input: string, output: string, files: map<string, Doc>, unwritable: set<string>,
                           value: nat -> Uuid, first: nat)
    ensures AddKeysSpec(input, output, files, unwritable, value, first).outcome == Pass
        <==> input in files && files[input].Json? && files[input].value.Obj?
             && (forall g :: 0 <= g < |files[input].value.fields| ==> Keyable(files[input].value.fields[g].1))
             && output != "" && output !in unwritable
             && (output in files ==>
                   BackupPath(output, value(first + Total(files[input].value.fields))) !in unwritable)
  {
  }

  /**
   * A successful run over an existing output: the backup holds the old
   * output, the output holds the keyed document, and no other path changes.
   */
  lemma SavedWithBackup(input: string, output: string, files: map<string, Doc>, unwritable: set<string>,
                        value: nat -> Uuid, first: nat, groups: seq<(string, Json)>)
    requires input in files && files[input] == Json(Obj(groups))
    requires AddKeysSpec(input, output, files, unwritable, value, first).outcome == Pass
    requires output in files
    ensures forall g :: 0 <= g < |groups| ==> Keyable(groups[g].1)
    ensures var r := AddKeysSpec(input, output, files, unwritable, value, first);
            var backup := BackupPath(output, value(first + Total(groups)));
            && backup in r.files && r.files[backup] == files[output]
            && output in r.files && r.files[output] == Json(Obj(StampedGroups(groups, value, first)))
            && forall p :: p != output && p != backup ==> (p in r.files <==> p in files) && (p in files ==> r.files[p] == files[p])
  {
    AddKeysSucceedsIff(input, output, files, unwritable, value, first);
  }

  /** A successful run with no output yet makes no backup: only the output path is added. */
  lemma SavedWithoutBackup(input: string, output: string, files: map<string, Doc>, unwritable: set<string>,
                           value: nat -> Uuid, first: nat, groups: seq<(string, Json)>)
    requires input in files && files[input] == Json(Obj(groups))
    requires AddKeysSpec(input, output, files, unwritable, value, first).outcome == Pass
    requires output !in files
    ensures forall g :: 0 <= g < |groups| ==> Keyable(groups[g].1)
    ensures var r := AddKeysSpec(input, output, files, unwritable, value, first);
            && r.files.Keys == files.Keys + {output}
            && r.files[output] == Json(Obj(StampedGroups(groups, value, first)))
            && forall p :: p in files ==> r.files[p] == files[p]
  {
    AddKeysSucceedsIff(input, output, files, unwritable, value, first);
  }

  /**
   * A write that fails after the backup was made leaves the old output
   * only under the backup name: the exception propagates with the output
   * path gone.
   */
  lemma WriteFailureAfterBackup(input: string, output: string, files: map<string, Doc>, unwritable: set<string>,
                                value: nat -> Uuid, first: nat, groups: seq<(string, Json)>)
    requires input in files && files[input] == Json(Obj(groups))
    requires AddKeysSpec(input, output, files, unwritable, value, first).outcome == Fail(WriteFailed)
    requires output in files
    ensures var r := AddKeysSpec(input, output, files, unwritable, value, first);
            var backup := BackupPath(output, value(first + Total(groups)));
            && output !in r.files && backup in r.files && r.files[backup] == files[output]
  {
  }
}
