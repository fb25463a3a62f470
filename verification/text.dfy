/**
 * The three Python `str` operations the constraint normaliser is built from:
 * `strip()`, `split(sep)` and `sep.join(parts)`.
 */
module PyText {

  /** `c.isspace()`: the characters Python's argument-less `strip()` removes. */
  predicate IsSpace(c: char) {
    var n := c as int;
    if n <= 0x20 then
      0x09 <= n <= 0x0D || 0x1C <= n
    else if n < 0x85 then
      false
    else
      (n == 0x85 || n == 0xA0 || n == 0x1680 || (0x2000 <= n <= 0x200A)
       || n == 0x2028 || n == 0x2029 || n == 0x202F || n == 0x205F || n == 0x3000)
  }

  /** A string that `strip()` leaves as it is: empty, or no whitespace at either end. */
  predicate IsStripped(s: string) {
    s == [] || (!IsSpace(s[0]) && !IsSpace(s[|s| - 1]))
  }

  /** `s.lstrip()`: the suffix of `s` left after its leading whitespace. */
  function TrimLeft(s: string): (r: string)
    ensures |r| <= |s| && r == s[|s| - |r|..]
  {
    if s != [] && IsSpace(s[0]) then TrimLeft(s[1..]) else s
  }

  /** `lstrip()` stops at the first character that is not whitespace. */
  lemma {:induction false} TrimLeftStops(s: string)
    ensures TrimLeft(s) == [] || !IsSpace(TrimLeft(s)[0])
  {
    if s != [] && IsSpace(s[0]) {
      TrimLeftStops(s[1..]);
    }
  }

  /** `s.rstrip()`: the prefix of `s` left before its trailing whitespace. */
  function TrimRight(s: string): (r: string)
    ensures |r| <= |s| && r == s[..|r|]
  {
    if s != [] && IsSpace(s[|s| - 1]) then TrimRight(s[..|s| - 1]) else s
  }

  /** `rstrip()` stops at the last character that is not whitespace. */
  lemma {:induction false} TrimRightStops(s: string)
    ensures TrimRight(s) == [] || !IsSpace(TrimRight(s)[|TrimRight(s)| - 1])
  {
    if s != [] && IsSpace(s[|s| - 1]) {
      TrimRightStops(s[..|s| - 1]);
    }
  }

  /** How many characters `lstrip()` removes from the front of `s`. */
  function LeadingSpace(s: string): (n: nat)
    ensures n <= |s|
  {
    |s| - |TrimLeft(s)|
  }

  /** `s.strip()`: both `lstrip()` and `rstrip()`. */
  function Strip(s: string): (r: string)
    ensures |r| <= |s|
  {
    TrimRight(TrimLeft(s))
  }

  /** `strip()` leaves neither leading nor trailing whitespace. */
  lemma StripStripped(s: string)
    ensures IsStripped(Strip(s))
  {
    var l := TrimLeft(s);
    var r := TrimRight(l);
    TrimLeftStops(s);
    TrimRightStops(l);
    assert r != [] ==> r[0] == l[0];
  }

  /** `s.strip()` is the infix of `s` that starts after its leading whitespace. */
  lemma StripInfix(s: string)
    ensures LeadingSpace(s) + |Strip(s)| <= |s|
    ensures Strip(s) == s[LeadingSpace(s)..LeadingSpace(s) + |Strip(s)|]
  {
    InfixOfSuffix(s, TrimLeft(s), TrimRight(TrimLeft(s)), LeadingSpace(s));
  }

  /** A prefix of a suffix is an infix. */
  lemma InfixOfSuffix(s: string, l: string, r: string, lo: nat)
    requires lo <= |s| && l == s[lo..]
    requires |r| <= |l| && r == l[..|r|]
    ensures lo + |r| <= |s| && r == s[lo..lo + |r|]
  {
  }

  /** `strip()` leaves an already stripped string as it is. */
  lemma StripFixed(s: string)
    requires IsStripped(s)
    ensures Strip(s) == s
  {
    if s != [] {
      assert TrimLeft(s) == s;
    }
  }

  /** `lstrip()` removes whitespace only. */
  lemma {:induction false} TrimLeftRemovesSpace(s: string)
    ensures forall i :: 0 <= i < |s| - |TrimLeft(s)| ==> IsSpace(s[i])
  {
    if s != [] && IsSpace(s[0]) {
      var t := s[1..];
      TrimLeftRemovesSpace(t);
      forall i | 1 <= i < |s| - |TrimLeft(s)|
        ensures IsSpace(s[i])
      {
        assert s[i] == t[i - 1];
      }
    }
  }

  /** `rstrip()` removes whitespace only. */
  lemma {:induction false} TrimRightRemovesSpace(s: string)
    ensures forall i :: |TrimRight(s)| <= i < |s| ==> IsSpace(s[i])
  {
    if s != [] && IsSpace(s[|s| - 1]) {
      var t := s[..|s| - 1];
      TrimRightRemovesSpace(t);
      forall i | |TrimRight(s)| <= i < |s| - 1
        ensures IsSpace(s[i])
      {
        assert s[i] == t[i];
      }
    }
  }

  /** `strip()` removes whitespace only: everything outside the result is whitespace. */
  lemma StripRemovesSpace(s: string)
    ensures forall i :: 0 <= i < LeadingSpace(s) ==> IsSpace(s[i])
    ensures forall i :: LeadingSpace(s) + |Strip(s)| <= i < |s| ==> IsSpace(s[i])
  {
    var l := TrimLeft(s);
    var r := TrimRight(l);
    var lo := LeadingSpace(s);
    TrimLeftRemovesSpace(s);
    TrimRightRemovesSpace(l);
    forall i | lo + |r| <= i < |s|
      ensures IsSpace(s[i])
    {
      assert s[i] == l[i - lo];
    }
  }

  /** The first position of `c` in `s`, or `|s|` when `c` does not occur. */
  function IndexOf(s: string, c: char): (i: nat)
    ensures i <= |s|
    ensures i < |s| ==> s[i] == c
    ensures c !in s ==> i == |s|
  {
    if s == [] then 0
    else if s[0] == c then 0
    else 1 + IndexOf(s[1..], c)
  }

  /** No occurrence of `c` comes before the one `IndexOf` finds. */
  lemma {:induction false} IndexOfFirst(s: string, c: char)
    ensures c !in s[..IndexOf(s, c)]
  {
    if s != [] && s[0] != c {
      var t := s[1..];
      IndexOfFirst(t, c);
      assert s[..IndexOf(s, c)] == [s[0]] + t[..IndexOf(t, c)];
    }
  }

  /** Text without `c` in front of the rest shifts the first occurrence by its length. */
  lemma {:induction false} IndexOfAfterFree(head: string, rest: string, c: char)
    requires c !in head
    ensures IndexOf(head + rest, c) == |head| + IndexOf(rest, c)
  {
    if head == [] {
      assert head + rest == rest;
    } else {
      assert head[0] in head;
      SuffixOfConcat(head, rest, 1);
      assert c !in head[1..] by {
        forall x | x in head[1..]
          ensures x in head
        {
        }
      }
      IndexOfAfterFree(head[1..], rest, c);
    }
  }

  /** Appending text after an occurrence of `c` does not move the first occurrence. */
  lemma {:induction false} IndexOfPrefix(a: string, t: string, c: char)
    requires IndexOf(a, c) < |a|
    ensures IndexOf(a + t, c) == IndexOf(a, c)
  {
    if a[0] != c {
      SuffixOfConcat(a, t, 1);
      IndexOfPrefix(a[1..], t, c);
    }
  }

  /** Cutting a prefix of `a + t` inside `a`. */
  lemma PrefixOfConcat(a: string, t: string, i: nat)
    requires i <= |a|
    ensures (a + t)[..i] == a[..i]
  {
  }

  /** Cutting a suffix of `a + t` inside `a`. */
  lemma SuffixOfConcat(a: string, t: string, i: nat)
    requires i <= |a|
    ensures (a + t)[i..] == a[i..] + t
  {
  }

  /** A string is its part before position `i`, the character there, and the part after. */
  lemma CutAt(s: string, i: nat)
    requires i < |s|
    ensures s == s[..i] + [s[i]] + s[i + 1..]
  {
  }

  /**
   * `s.split(sep)` for a one-character separator: the maximal runs between
   * separators, so there is always one more piece than separators.
   */
  function Split(s: string, sep: char): (pieces: seq<string>)
    ensures |pieces| >= 1
    decreases |s|
  {
    var i := IndexOf(s, sep);
    if i == |s| then [s] else [s[..i]] + Split(s[i + 1..], sep)
  }

  /** A string with a separator splits into the run before it and the pieces after it. */
  lemma {:induction false} SplitAt(s: string, sep: char)
    requires IndexOf(s, sep) < |s|
    ensures Split(s, sep) == [s[..IndexOf(s, sep)]] + Split(s[IndexOf(s, sep) + 1..], sep)
  {
  }

  /** No piece of a split holds the separator. */
  lemma {:induction false} SplitPiecesFree(s: string, sep: char)
    ensures forall p :: p in Split(s, sep) ==> sep !in p
    decreases |s|
  {
    var i := IndexOf(s, sep);
    IndexOfFirst(s, sep);
    if i < |s| {
      var rest := s[i + 1..];
      SplitPiecesFree(rest, sep);
      SplitAt(s, sep);
      FreeInCons(s[..i], Split(rest, sep), sep);
    } else {
      assert s[..i] == s;
    }
  }

  lemma FreeInCons(x: string, ys: seq<string>, sep: char)
    requires sep !in x
    requires forall p :: p in ys ==> sep !in p
    ensures forall p :: p in [x] + ys ==> sep !in p
  {
  }

  /** `sep.join(parts)` for a one-character separator. */
  function Join(parts: seq<string>, sep: char): (s: string)
    ensures |parts| == 1 ==> s == parts[0]
  {
    if parts == [] then ""
    else if |parts| == 1 then parts[0]
    else parts[0] + [sep] + Join(parts[1..], sep)
  }

  /** Joining a part in front of non-empty parts puts one separator between. */
  lemma JoinCons(x: string, parts: seq<string>, sep: char)
    requires parts != []
    ensures Join([x] + parts, sep) == x + [sep] + Join(parts, sep)
  {
    assert ([x] + parts)[1..] == parts;
  }

  /** Joining the pieces of a split gives back the original string. */
  lemma {:induction false} JoinSplit(s: string, sep: char)
    ensures Join(Split(s, sep), sep) == s
    decreases |s|
  {
    var i := IndexOf(s, sep);
    if i < |s| {
      var rest := s[i + 1..];
      SplitAt(s, sep);
      JoinSplit(rest, sep);
      JoinCons(s[..i], Split(rest, sep), sep);
      CutAt(s, i);
    }
  }

  /** Splitting a join of separator-free parts gives back the parts. */
  lemma {:induction false} SplitJoin(parts: seq<string>, sep: char)
    requires parts != []
    requires forall p :: p in parts ==> sep !in p
    ensures Split(Join(parts, sep), sep) == parts
  {
    assert parts[0] in parts;
    if |parts| > 1 {
      var tail := parts[1..];
      assert forall p :: p in tail ==> p in parts;
      SplitJoin(tail, sep);
      JoinCons(parts[0], tail, sep);
      assert [parts[0]] + tail == parts;
      SplitAfterSeparatorFree(parts[0], Join(tail, sep), sep);
    }
  }

  /** A separator-free head followed by a separator becomes its own piece. */
  lemma SplitAfterSeparatorFree(head: string, tail: string, sep: char)
    requires sep !in head
    ensures Split(head + [sep] + tail, sep) == [head] + Split(tail, sep)
  {
    var s := head + [sep] + tail;
    ConcatAssoc(head, [sep], tail);
    assert ([sep] + tail)[0] == sep;
    IndexOfAfterFree(head, [sep] + tail, sep);
    SplitAt(s, sep);
    PrefixOfConcat(head, [sep] + tail, |head|);
    SuffixOfConcat(head + [sep], tail, |head| + 1);
    assert (head + [sep])[|head| + 1..] == [] && head[..|head|] == head;
  }

  /** One cut of `a + sep + b` inside `a`. */
  lemma SplitConcatStep(a: string, b: string, sep: char)
    requires IndexOf(a, sep) < |a|
    ensures Split(a + [sep] + b, sep)
         == [a[..IndexOf(a, sep)]] + Split(a[IndexOf(a, sep) + 1..] + [sep] + b, sep)
  {
    var i := IndexOf(a, sep);
    var s := a + [sep] + b;
    ConcatAssoc(a, [sep], b);
    IndexOfPrefix(a, [sep] + b, sep);
    SplitAt(s, sep);
    PrefixOfConcat(a, [sep] + b, i);
    SuffixOfConcat(a, [sep] + b, i + 1);
    ConcatAssoc(a[i + 1..], [sep], b);
  }

  /** `[f(x) for x in xs]`. */
  function MapEach<A, B>(f: A -> B, xs: seq<A>): (r: seq<B>)
    ensures |r| == |xs|
    ensures forall k :: 0 <= k < |xs| ==> r[k] == f(xs[k])
  {
    seq(|xs|, k requires 0 <= k < |xs| => f(xs[k]))
  }

  /** Mapping over a concatenation maps each part. */
  lemma MapEachConcat<A, B>(f: A -> B, xs: seq<A>, ys: seq<A>)
    ensures MapEach(f, xs + ys) == MapEach(f, xs) + MapEach(f, ys)
  {
    forall k | 0 <= k < |xs| + |ys|
      ensures MapEach(f, xs + ys)[k] == (MapEach(f, xs) + MapEach(f, ys))[k]
    {
      if k < |xs| {
        assert (xs + ys)[k] == xs[k];
      } else {
        assert (xs + ys)[k] == ys[k - |xs|];
      }
    }
  }

  lemma ConcatAssoc<T>(u: seq<T>, v: seq<T>, w: seq<T>)
    ensures u + (v + w) == u + v + w
  {
  }

  lemma ConsAssoc<T>(x: T, u: seq<T>, v: seq<T>)
    ensures [x] + (u + v) == ([x] + u) + v
  {
  }

  /**
   * Splitting distributes over a separator: the pieces of `a + sep + b` are
   * the pieces of `a` followed by the pieces of `b`, in order.
   */
  lemma {:induction false} SplitConcat(a: string, b: string, sep: char)
    ensures Split(a + [sep] + b, sep) == Split(a, sep) + Split(b, sep)
    decreases |a|
  {
    var i := IndexOf(a, sep);
    if i == |a| {
      IndexOfFirst(a, sep);
      assert a[..i] == a;
      SplitAfterSeparatorFree(a, b, sep);
    } else {
      var tail := a[i + 1..];
      SplitConcatStep(a, b, sep);
      SplitAt(a, sep);
      SplitConcat(tail, b, sep);
      ConsAssoc(a[..i], Split(tail, sep), Split(b, sep));
    }
  }
}
