/**
 * JSON documents as Python's `json` module hands them to the program.
 * A Python `dict` keeps insertion order, so an object is a sequence of
 * (key, value) pairs; `json.load` never produces two equal keys in one
 * object, which the lemmas below take as the hypothesis `DistinctKeys`.
 * JSON numbers are integers here (floating point is not part of this model).
 */
module JsonValues {
  import opened Wrappers

  datatype Json =
    | Null
    | Bool(b: bool)
    | Num(n: int)
    | Str(s: string)
    | Arr(items: seq<Json>)
    | Obj(fields: seq<(string, Json)>)

  /** Python truthiness (`if not x:`) of a decoded JSON value. */
  predicate Truthy(j: Json) {
    match j
    case Null => false
    case Bool(b) => b
    case Num(n) => n != 0
    case Str(s) => s != ""
    case Arr(items) => items != []
    case Obj(fields) => fields != []
  }

  /** The keys of an object, in insertion order. */
  function Keys(o: seq<(string, Json)>): (ks: seq<string>)
    ensures |ks| == |o|
    ensures forall i :: 0 <= i < |o| ==> ks[i] == o[i].0
  {
    if o == [] then [] else [o[0].0] + Keys(o[1..])
  }

  /** No key occurs twice: what every Python `dict` guarantees. */
  predicate DistinctKeys(o: seq<(string, Json)>) {
    forall i, j :: 0 <= i < j < |o| ==> o[i].0 != o[j].0
  }

  /** `d.get(k)`: the value stored under `k`, if any. */
  function Lookup(o: seq<(string, Json)>, k: string): (r: Option<Json>)
    ensures r.None? <==> k !in Keys(o)
  {
    if o == [] then None
    else if o[0].0 == k then Some(o[0].1)
    else Lookup(o[1..], k)
  }

  /**
   * `d[k] = v`: an existing key keeps its position and gets the new value,
   * a new key is appended at the end.
   */
  function Put(o: seq<(string, Json)>, k: string, v: Json): (r: seq<(string, Json)>)
    ensures k in Keys(o) ==> Keys(r) == Keys(o)
    ensures k !in Keys(o) ==> r == o + [(k, v)]
  {
    if o == [] then
      [(k, v)]
    else if o[0].0 == k then
      var r := [(k, v)] + o[1..];
      assert r[0] == (k, v) && r[1..] == o[1..];
      assert Keys(o) == [k] + Keys(o[1..]) && Keys(r) == [k] + Keys(o[1..]);
      r
    else
      var rest := Put(o[1..], k, v);
      var r := [o[0]] + rest;
      assert r[0] == o[0] && r[1..] == rest;
      assert Keys(o) == [o[0].0] + Keys(o[1..]) && Keys(r) == [o[0].0] + Keys(rest);
      assert k !in Keys(o) ==> r == [o[0]] + (o[1..] + [(k, v)]) == o + [(k, v)];
      r
  }


  /** After `d[k] = v`, `d.get(k)` is `v` and every other key reads as before. */
  lemma {:induction false} PutLookup(o: seq<(string, Json)>, k: string, v: Json, k': string)
    ensures Lookup(Put(o, k, v), k') == if k' == k then Some(v) else Lookup(o, k')
  {
    var r := Put(o, k, v);
    if o != [] && o[0].0 != k {
      assert r[0] == o[0] && r[1..] == Put(o[1..], k, v);
      PutLookup(o[1..], k, v, k');
    } else if o != [] {
      assert r[0] == (k, v) && r[1..] == o[1..];
    }
  }

  /** Assigning a key twice keeps only the second value. */
  lemma {:induction false} PutPut(o: seq<(string, Json)>, k: string, a: Json, b: Json)
    ensures Put(Put(o, k, a), k, b) == Put(o, k, b)
  {
    if o != [] && o[0].0 != k {
      var r := Put(o, k, a);
      assert r[0] == o[0] && r[1..] == Put(o[1..], k, a);
      PutPut(o[1..], k, a, b);
    }
  }

  /** Putting into a dict keeps it a dict. */
  lemma PutDistinct(o: seq<(string, Json)>, k: string, v: Json)
    requires DistinctKeys(o)
    ensures DistinctKeys(Put(o, k, v))
  {
    var r := Put(o, k, v);
    forall i, j | 0 <= i < j < |r|
      ensures r[i].0 != r[j].0
    {
      assert Keys(r)[i] == r[i].0 && Keys(r)[j] == r[j].0;
      if k !in Keys(o) && j == |o| {
        assert r[i] == o[i];
        assert Keys(o)[i] == o[i].0;
      } else {
        assert Keys(r) == Keys(o) || (r[i] == o[i] && r[j] == o[j]);
        assert Keys(o)[i] == o[i].0 && Keys(o)[j] == o[j].0;
      }
    }
  }

  /** The dict literal `{keys[0]: values[0], keys[1]: values[1], ...}`. */
  function Entries(keys: seq<string>, values: seq<Json>): (o: seq<(string, Json)>)
    requires |keys| == |values|
    ensures Keys(o) == keys
  {
    seq(|keys|, i requires 0 <= i < |keys| => (keys[i], values[i]))
  }

  /** With distinct keys, the dict literal holds `values[i]` under `keys[i]`. */
  lemma LookupEntries(keys: seq<string>, values: seq<Json>, i: nat)
    requires |keys| == |values| && i < |keys|
    requires forall a, b :: 0 <= a < b < |keys| ==> keys[a] != keys[b]
    ensures Lookup(Entries(keys, values), keys[i]) == Some(values[i])
  {
    LookupAt(Entries(keys, values), i);
  }

  /** In a dict, the value found under the key of entry `i` is that entry's value. */
  lemma {:induction false} LookupAt(o: seq<(string, Json)>, i: nat)
    requires DistinctKeys(o)
    requires i < |o|
    ensures Lookup(o, o[i].0) == Some(o[i].1)
  {
    if i > 0 {
      assert o[0].0 != o[i].0;
      assert o[1..][i - 1] == o[i];
      LookupAt(o[1..], i - 1);
    }
  }
}
