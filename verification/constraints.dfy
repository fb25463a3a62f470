/**
 * The constraint normaliser of the rule enricher (`clean_and_split_constraints`):
 * it turns the raw text reply of the language model into a list of short
 * constraint phrases. The reply is stripped, every "```" is deleted, the
 * result is stripped again, split on ",", each piece is stripped and empty
 * pieces are dropped.
 */
module ConstraintNormaliser {
  import opened Wrappers
  import opened PyText

  /** Three backticks start at position `i` of `s`. */
  predicate FenceAt(s: string, i: int) {
    0 <= i && i + 3 <= |s| && s[i] == '`' && s[i + 1] == '`' && s[i + 2] == '`'
  }

  /** `"```" not in s`: no run of three backticks anywhere in `s`. */
  predicate NoFence(s: string) {
    forall i | 0 <= i < |s| :: !FenceAt(s, i)
  }

  /** The number of backticks `s` starts with. */
  function LeadingTicks(s: string): nat {
    if s != [] && s[0] == '`' then 1 + LeadingTicks(s[1..]) else 0
  }

  /** `s` without any of its backticks. */
  function DropTicks(s: string): (r: string)
    ensures '`' !in r
  {
    if s == [] then [] else (if s[0] == '`' then [] else [s[0]]) + DropTicks(s[1..])
  }

  /** Facts about the first three characters that ReplaceFence relies on. */
  lemma LeadingTicksFacts(s: string)
    ensures FenceAt(s, 0) ==> LeadingTicks(s) >= 3
    ensures s != [] && s[0] == '`' && !FenceAt(s, 0) ==> LeadingTicks(s[1..]) <= 1
    ensures LeadingTicks(s) >= 2 ==> |s| >= 2 && s[0] == '`' && s[1] == '`'
  {
    if s != [] && s[0] == '`' {
      var t := s[1..];
      if t != [] && t[0] == '`' {
        var u := t[1..];
        assert u != [] && u[0] == '`' ==> FenceAt(s, 0);
      }
    }
  }

  /**
   * `s.replace("```", "")`: Python scans left to right and deletes each
   * non-overlapping "```". A run of n backticks keeps n % 3 of them, so no
   * "```" is left afterwards, and a string without "```" is returned as it is.
   */
  function ReplaceFence(s: string): (r: string)
    ensures |r| <= |s|
    decreases |s|
  {
    if FenceAt(s, 0) then ReplaceFence(s[3..])
    else if s == [] then []
    else [s[0]] + ReplaceFence(s[1..])
  }

  /** No "```" survives the replacement, and a run of fewer than three leading backticks is kept. */
  lemma {:induction false} ReplaceFenceLeavesNoFence(s: string)
    ensures NoFence(ReplaceFence(s))
    ensures LeadingTicks(s) < 3 ==> LeadingTicks(ReplaceFence(s)) == LeadingTicks(s)
    decreases |s|
  {
    LeadingTicksFacts(s);
    if FenceAt(s, 0) {
      ReplaceFenceLeavesNoFence(s[3..]);
    } else if s != [] {
      var rest := ReplaceFence(s[1..]);
      var r := [s[0]] + rest;
      ReplaceFenceLeavesNoFence(s[1..]);
      NoFenceCons(s[0], rest);
      assert r[1..] == rest;
    }
  }

  /** A string without "```" is returned as it is. */
  lemma {:induction false} ReplaceFenceFixed(s: string)
    requires NoFence(s)
    ensures ReplaceFence(s) == s
    decreases |s|
  {
    if s != [] {
      assert !FenceAt(s, 0);
      NoFenceInfix(s, 1, |s|);
      assert s[1..|s|] == s[1..];
      ReplaceFenceFixed(s[1..]);
    }
  }

  /** Deleting "```" removes backticks only: every other character survives, in order. */
  lemma {:induction false} ReplaceFenceKeepsText(s: string)
    ensures DropTicks(ReplaceFence(s)) == DropTicks(s)
    decreases |s|
  {
    if FenceAt(s, 0) {
      ReplaceFenceKeepsText(s[3..]);
      assert DropTicks(s) == DropTicks(s[1..]) == DropTicks(s[2..]) == DropTicks(s[3..]);
    } else if s != [] {
      var rest := ReplaceFence(s[1..]);
      ReplaceFenceKeepsText(s[1..]);
      assert ([s[0]] + rest)[1..] == rest;
    }
  }

  /** Backtick-free text in front of the rest passes through the replacement untouched. */
  lemma {:induction false} ReplaceFenceAfterPlain(a: string, b: string)
    requires '`' !in a
    ensures ReplaceFence(a + b) == a + ReplaceFence(b)
    decreases |a|
  {
    if a != [] {
      assert (a + b)[1..] == a[1..] + b;
      assert !FenceAt(a + b, 0);
      ReplaceFenceAfterPlain(a[1..], b);
    } else {
      assert a + b == b;
    }
  }

  /** A substring of a string without "```" has no "```" either. */
  lemma NoFenceInfix(s: string, lo: nat, hi: nat)
    requires lo <= hi <= |s|
    ensures NoFence(s) ==> NoFence(s[lo..hi])
  {
    forall i | 0 <= i < hi - lo
      ensures NoFence(s) ==> !FenceAt(s[lo..hi], i)
    {
      assert FenceAt(s[lo..hi], i) ==> FenceAt(s, lo + i);
    }
  }

  /**
   * Putting one character in front of a "```"-free string creates no "```"
   * unless the character is a backtick and the string starts with two.
   */
  lemma NoFenceCons(c: char, rest: string)
    requires NoFence(rest)
    requires c == '`' ==> LeadingTicks(rest) <= 1
    ensures NoFence([c] + rest)
  {
    var s := [c] + rest;
    LeadingTicksFacts(rest);
    forall i | 0 <= i < |s|
      ensures !FenceAt(s, i)
    {
      if i > 0 {
        assert FenceAt(s, i) ==> FenceAt(rest, i - 1);
      } else if c == '`' && |rest| >= 2 {
        assert rest[1..][0] == rest[1];
      }
    }
  }

  /** Every piece of a split of a "```"-free string is "```"-free. */
  lemma {:induction false} NoFenceSplit(s: string, sep: char)
    requires NoFence(s)
    ensures forall p :: p in Split(s, sep) ==> NoFence(p)
    decreases |s|
  {
    var i := IndexOf(s, sep);
    if i < |s| {
      NoFenceInfix(s, 0, i);
      NoFenceInfix(s, i + 1, |s|);
      assert s[i + 1..|s|] == s[i + 1..];
      NoFenceSplit(s[i + 1..], sep);
    }
  }

  /** A string without "```" and a separator glued around a non-backtick stay "```"-free. */
  lemma NoFenceAround(a: string, c: char, b: string)
    requires NoFence(a) && NoFence(b) && c != '`'
    ensures NoFence(a + [c] + b)
  {
    var s := a + [c] + b;
    forall i | 0 <= i < |s|
      ensures !FenceAt(s, i)
    {
      if i + 3 <= |a| {
        assert FenceAt(s, i) ==> FenceAt(a, i);
      } else if i > |a| {
        assert FenceAt(s, i) ==> FenceAt(b, i - |a| - 1);
      } else {
        assert s[|a|] == c;
      }
    }
  }

  /** A constraint phrase as the normaliser emits it. */
  predicate IsConstraint(c: string) {
    c != [] && IsStripped(c) && ',' !in c && NoFence(c)
  }

  /** The text left once the fences and the surrounding whitespace are gone. */
  function Cleaned(raw: string): (t: string)
    ensures IsStripped(t) && NoFence(t)
  {
    var u := ReplaceFence(Strip(raw));
    ReplaceFenceLeavesNoFence(Strip(raw));
    NoFenceStrip(u);
    StripStripped(u);
    Strip(u)
  }

  /** Stripping a "```"-free string leaves it "```"-free. */
  lemma NoFenceStrip(s: string)
    requires NoFence(s)
    ensures NoFence(Strip(s))
  {
    var t := Strip(s);
    var lo := LeadingSpace(s);
    StripInfix(s);
    NoFenceInfix(s, lo, lo + |t|);
  }

  /** `[c.strip() for c in pieces]`. */
  function StripEach(pieces: seq<string>): (r: seq<string>)
    ensures |r| == |pieces|
    ensures forall k :: 0 <= k < |r| ==> r[k] == Strip(pieces[k])
  {
    MapEach(Strip, pieces)
  }

  /** `[c for c in pieces if c]`: the non-empty pieces, in their order. */
  function NonEmpty(pieces: seq<string>): (r: seq<string>)
    ensures forall x :: x in r <==> x in pieces && x != []
  {
    if pieces == [] then []
    else (if pieces[0] == [] then [] else [pieces[0]]) + NonEmpty(pieces[1..])
  }

  /** The trimmed non-empty comma-separated items of an already cleaned text. */
  function Items(text: string): (r: seq<string>)
    ensures forall c :: c in r ==> c != []
  {
    NonEmpty(StripEach(Split(text, ',')))
  }

  /** A comma-free, "```"-free piece that is not blank strips to a constraint phrase. */
  lemma PieceIsConstraint(p: string)
    requires NoFence(p) && ',' !in p
    ensures Strip(p) != [] ==> IsConstraint(Strip(p))
  {
    var c := Strip(p);
    var lo := LeadingSpace(p);
    StripInfix(p);
    StripStripped(p);
    NoFenceInfix(p, lo, lo + |c|);
    NotInInfix(p, lo, lo + |c|, ',');
  }

  /** A character missing from a string is missing from each of its infixes. */
  lemma NotInInfix(s: string, lo: nat, hi: nat, x: char)
    requires lo <= hi <= |s| && x !in s
    ensures x !in s[lo..hi]
  {
    forall i | lo <= i < hi
      ensures s[i] != x
    {
      assert s[i] in s;
    }
  }

  /** Each item of a "```"-free text is a constraint phrase. */
  lemma ItemsAreConstraints(text: string)
    requires NoFence(text)
    ensures forall c :: c in Items(text) ==> IsConstraint(c)
  {
    var pieces := Split(text, ',');
    var stripped := StripEach(pieces);
    NoFenceSplit(text, ',');
    SplitPiecesFree(text, ',');
    forall k | 0 <= k < |pieces|
      ensures stripped[k] != [] ==> IsConstraint(stripped[k])
    {
      assert pieces[k] in pieces;
      PieceIsConstraint(pieces[k]);
    }
  }

  /** `clean_and_split_constraints(constraints_string)`; `None` is a failed extraction. */
  function CleanAndSplit(raw: Option<string>): (r: seq<string>)
    ensures raw == None || raw == Some("") ==> r == []
    ensures forall c :: c in r ==> IsConstraint(c)
  {
    if raw.None? || raw.value == "" then []
    else
      ItemsAreConstraints(Cleaned(raw.value));
      Items(Cleaned(raw.value))
  }

  lemma StripEachConcat(a: seq<string>, b: seq<string>)
    ensures StripEach(a + b) == StripEach(a) + StripEach(b)
  {
    MapEachConcat(Strip, a, b);
  }

  lemma {:induction false} NonEmptyConcat(a: seq<string>, b: seq<string>)
    ensures NonEmpty(a + b) == NonEmpty(a) + NonEmpty(b)
  {
    if a != [] {
      assert (a + b)[1..] == a[1..] + b;
      NonEmptyConcat(a[1..], b);
    } else {
      assert a + b == b;
    }
  }

  /**
   * Order preservation: the items of `a + "," + b` are the items of `a`
   * followed by the items of `b`.
   */
  lemma ItemsConcat(a: string, b: string)
    ensures Items(a + [','] + b) == Items(a) + Items(b)
  {
    SplitConcat(a, b, ',');
    StripEachConcat(Split(a, ','), Split(b, ','));
    NonEmptyConcat(StripEach(Split(a, ',')), StripEach(Split(b, ',')));
  }
}

/**
 * Proof scaffolding for `ConstraintNormaliserProperties.FencedReplyExample`
 * alone: facts about how the sample reply of the extraction prompt cuts at
 * its commas and fences. Nothing here models the program.
 */
module SampleReply {

  /** The sample reply, cut in two. */
  lemma Halves(reply: string)
    requires reply == "```Mandatory, No Special Characters, Only Alphabets```"
    ensures reply == "```Mandatory, No Special" + " Characters, Only Alphabets```"
  {
  }

  lemma FirstHalf(a: string)
    requires a == "```Mandatory, No Special"
    ensures a == "```" + "Mandatory" + [','] + [' '] + "No Special"
  {
  }

  lemma SecondHalf(b: string)
    requires b == " Characters, Only Alphabets```"
    ensures b == " Characters" + [','] + ([' '] + "Only Alphabets") + "```"
  {
  }

  lemma MiddleWord(w: string)
    requires w == "No Special Characters"
    ensures w == "No Special" + " Characters"
  {
  }

  /** Regrouping the pieces of a fenced three-item reply. */
  lemma Regroup(fence: string, m: string, x: string, y: string, o: string)
    ensures (fence + m + [','] + [' '] + x) + (y + [','] + ([' '] + o) + fence)
         == fence + (m + [','] + ([' '] + (x + y)) + [','] + ([' '] + o)) + fence
  {
  }

  /** The literal reply is a fenced join of its three words, each after the first preceded by a space. */
  lemma FencedReplyText(reply: string)
    requires reply == "```Mandatory, No Special Characters, Only Alphabets```"
    ensures reply == "```" + ("Mandatory" + [','] + ([' '] + "No Special Characters") + [','] + ([' '] + "Only Alphabets")) + "```"
  {
    Halves(reply);
    FirstHalf("```Mandatory, No Special");
    SecondHalf(" Characters, Only Alphabets```");
    MiddleWord("No Special Characters");
    Regroup("```", "Mandatory", "No Special", " Characters", "Only Alphabets");
  }

  /** The ends and the absence of "," and backticks, for each sample word. */
  lemma FirstWordShape(a: string)
    requires a == "Mandatory"
    ensures a != [] && a[0] == 'M' && a[|a| - 1] == 'y' && ',' !in a && '`' !in a
  {
  }

  lemma SecondWordShape(b: string)
    requires b == "No Special Characters"
    ensures b != [] && b[0] == 'N' && b[|b| - 1] == 's' && ',' !in b && '`' !in b
  {
    MiddleWord(b);
  }

  lemma ThirdWordShape(c: string)
    requires c == "Only Alphabets"
    ensures c != [] && c[0] == 'O' && c[|c| - 1] == 's' && ',' !in c && '`' !in c
  {
    assert c == "Only" + " Alphabets";
  }
}

module ConstraintNormaliserProperties {
  import opened Wrappers
  import opened SampleReply
  import opened PyText
  import opened ConstraintNormaliser

  /** A list whose every item is non-empty is left alone by the filter. */
  lemma {:induction false} NonEmptyKeepsAll(xs: seq<string>)
    requires forall x :: x in xs ==> x != []
    ensures NonEmpty(xs) == xs
  {
    if xs != [] {
      assert xs[0] in xs;
      assert forall x :: x in xs[1..] ==> x in xs;
      NonEmptyKeepsAll(xs[1..]);
      assert xs == [xs[0]] + xs[1..];
    }
  }

  /** A list of already stripped items is left alone by stripping each item. */
  lemma StripEachKeepsAll(xs: seq<string>)
    requires forall x :: x in xs ==> IsStripped(x)
    ensures StripEach(xs) == xs
  {
    forall k | 0 <= k < |xs|
      ensures StripEach(xs)[k] == xs[k]
    {
      assert xs[k] in xs;
      StripFixed(xs[k]);
    }
  }

  /**
   * The ","-join of constraint phrases is a non-empty text that `strip()`
   * leaves alone and that holds no "```".
   */
  lemma JoinOfConstraints(xs: seq<string>)
    requires xs != []
    requires forall x :: x in xs ==> IsConstraint(x)
    ensures Join(xs, ',') != [] && IsStripped(Join(xs, ',')) && NoFence(Join(xs, ','))
  {
    JoinOfStripped(xs);
  }

  /** The ","-join of non-empty stripped "```"-free texts is non-empty, stripped and "```"-free. */
  lemma {:induction false} JoinOfStripped(xs: seq<string>)
    requires xs != []
    requires forall x :: x in xs ==> x != [] && IsStripped(x) && NoFence(x)
    ensures Join(xs, ',') != [] && IsStripped(Join(xs, ',')) && NoFence(Join(xs, ','))
  {
    var x := xs[0];
    assert x in xs;
    if |xs| > 1 {
      assert forall y :: y in xs[1..] ==> y in xs;
      JoinOfStripped(xs[1..]);
      var rest := Join(xs[1..], ',');
      var j := x + [','] + rest;
      assert Join(xs, ',') == j;
      assert j[0] == x[0];
      assert j[|j| - 1] == rest[|rest| - 1];
      NoFenceAround(x, ',', rest);
    }
  }


  /**
   * Idempotence: normalising the ","-join of a normalised list gives back
   * the same list.
   */
  lemma CleanAndSplitIdempotent(raw: Option<string>)
    ensures CleanAndSplit(Some(Join(CleanAndSplit(raw), ','))) == CleanAndSplit(raw)
  {
    var xs := CleanAndSplit(raw);
    if xs != [] {
      var j := Join(xs, ',');
      JoinOfConstraints(xs);
      CleanedFixed(j);
      CleanAndSplitText(j);
      ItemsOfJoin(xs);
    }
  }

  /** Cleaning a stripped "```"-free text changes nothing. */
  lemma CleanedFixed(t: string)
    requires IsStripped(t) && NoFence(t)
    ensures Cleaned(t) == t
  {
    StripFixed(t);
    ReplaceFenceFixed(t);
  }

  /**
   * Proof step, not a property: unfolds `CleanAndSplit` on a non-empty reply
   * so the proofs above and below can name the cleaning path.
   */
  lemma CleanAndSplitText(t: string)
    requires t != []
    ensures CleanAndSplit(Some(t)) == Items(Cleaned(t))
  {
  }

  /** The items of the ","-join of constraint phrases are those phrases. */
  lemma ItemsOfJoin(xs: seq<string>)
    requires xs != []
    requires forall x :: x in xs ==> IsConstraint(x)
    ensures Items(Join(xs, ',')) == xs
  {
    SplitJoin(xs, ',');
    StripEachKeepsAll(xs);
    NonEmptyKeepsAll(xs);
  }

  /**
   * A reply fenced by "```" around a comma-separated list of backtick-free
   * pieces normalises to the non-blank stripped pieces.
   */
  lemma {:induction false} FencedListReply(pieces: seq<string>)
    requires pieces != []
    requires forall p :: p in pieces ==> ',' !in p && '`' !in p
    requires IsStripped(Join(pieces, ',')) && Join(pieces, ',') != []
    ensures CleanAndSplit(Some("```" + Join(pieces, ',') + "```")) == NonEmpty(StripEach(pieces))
  {
    var j := Join(pieces, ',');
    var raw := "```" + j + "```";
    NoTickJoin(pieces);
    FencedText(j);
    CleanAndSplitText(raw);
    SplitJoin(pieces, ',');
  }

  /** Removing the fences around a stripped backtick-free text gives back the text. */
  lemma FencedText(body: string)
    requires '`' !in body && IsStripped(body) && body != []
    ensures Cleaned("```" + body + "```") == body
  {
    var fence := "```";
    var raw := fence + body + fence;
    assert IsStripped(raw);
    assert FenceAt(raw, 0);
    assert raw[3..] == body + fence;
    ReplaceFenceAfterPlain(body, fence);
    assert FenceAt(fence, 0) && fence[3..] == [];
    assert ReplaceFence(raw) == body;
    StripFixed(raw);
    StripFixed(body);
  }


  /** A join of backtick-free pieces with "," holds no backtick. */
  lemma {:induction false} NoTickJoin(pieces: seq<string>)
    requires forall p :: p in pieces ==> '`' !in p
    ensures '`' !in Join(pieces, ',')
  {
    if |pieces| > 1 {
      assert pieces[0] in pieces;
      assert forall p :: p in pieces[1..] ==> p in pieces;
      NoTickJoin(pieces[1..]);
    } else if |pieces| == 1 {
      assert pieces[0] in pieces;
    }
  }

  /** `strip()` removes exactly the one space put in front of a stripped word. */
  lemma StripPadded(w: string)
    requires w != [] && IsStripped(w)
    ensures Strip([' '] + w) == w
  {
    var s := [' '] + w;
    assert IsSpace(' ') && s[1..] == w;
    assert TrimLeft(w) == w;
    assert TrimLeft(s) == w;
    assert TrimRight(w) == w;
  }

  /** Each word with one space put in front. */
  function PadEach(words: seq<string>): (padded: seq<string>)
    ensures |padded| == |words|
    ensures forall k :: 0 <= k < |words| ==> padded[k] == [' '] + words[k]
  {
    if words == [] then [] else [[' '] + words[0]] + PadEach(words[1..])
  }

  /** The pieces between the commas of `", ".join(words)`. */
  function Spaced(words: seq<string>): (pieces: seq<string>)
    ensures |pieces| == |words|
    ensures words != [] ==> pieces[0] == words[0]
    ensures forall k :: 0 < k < |words| ==> pieces[k] == [' '] + words[k]
  {
    if words == [] then [] else [words[0]] + PadEach(words[1..])
  }

  /** A word the prompt's output format can carry: non-empty, stripped, no "," and no backtick. */
  predicate IsPlainWord(w: string) {
    w != [] && IsStripped(w) && ',' !in w && '`' !in w
  }

  /** The pieces of `", ".join(words)` stay comma- and backtick-free and strip back to the words. */
  lemma SpacedPieces(words: seq<string>)
    requires forall w :: w in words ==> IsPlainWord(w)
    ensures forall p :: p in Spaced(words) ==> ',' !in p && '`' !in p
    ensures StripEach(Spaced(words)) == words
  {
    var pieces := Spaced(words);
    forall k | 0 <= k < |pieces|
      ensures ',' !in pieces[k] && '`' !in pieces[k]
      ensures Strip(pieces[k]) == words[k]
    {
      assert words[k] in words;
      if k > 0 {
        StripPadded(words[k]);
      } else {
        StripFixed(words[k]);
      }
    }
  }

  /** `", ".join(words)` starts with the first word's first character and ends with the last word's last. */
  lemma SpacedJoinEnds(words: seq<string>)
    requires words != [] && words[0] != [] && words[|words| - 1] != []
    ensures Join(Spaced(words), ',') != []
    ensures Join(Spaced(words), ',')[0] == words[0][0]
    ensures Join(Spaced(words), ',')[|Join(Spaced(words), ',')| - 1] == words[|words| - 1][|words[|words| - 1]| - 1]
  {
    var pieces := Spaced(words);
    var last := words[|words| - 1];
    var lastPiece := pieces[|pieces| - 1];
    assert lastPiece[|lastPiece| - 1] == last[|last| - 1];
    JoinLast(pieces, ',');
    if |pieces| > 1 {
      assert Join(pieces, ',') == pieces[0] + [','] + Join(pieces[1..], ',');
    }
  }

  /**
   * The output format the extraction prompt asks for round-trips: a reply
   * that fences `", ".join(words)` in "```" normalises back to `words`, for
   * any list of plain words.
   */
  lemma FencedListRoundTrip(words: seq<string>)
    requires words != []
    requires forall w :: w in words ==> IsPlainWord(w)
    ensures CleanAndSplit(Some("```" + Join(Spaced(words), ',') + "```")) == words
  {
    SpacedPieces(words);
    SpacedJoinStripped(words);
    FencedListReply(Spaced(words));
    PlainWordsNonEmpty(words);
    NonEmptyKeepsAll(words);
  }

  /** `", ".join(words)` of plain words is a non-empty stripped text. */
  lemma SpacedJoinStripped(words: seq<string>)
    requires words != []
    requires forall w :: w in words ==> IsPlainWord(w)
    ensures IsStripped(Join(Spaced(words), ',')) && Join(Spaced(words), ',') != []
  {
    var first, last := words[0], words[|words| - 1];
    assert first in words && last in words;
    SpacedJoinEnds(words);
  }

  lemma PlainWordsNonEmpty(words: seq<string>)
    requires forall w :: w in words ==> IsPlainWord(w)
    ensures forall w :: w in words ==> w != []
  {
  }

  /** The last character of a join is the last character of the last part. */
  lemma {:induction false} JoinLast(parts: seq<string>, sep: char)
    requires parts != [] && parts[|parts| - 1] != []
    ensures Join(parts, sep) != []
    ensures Join(parts, sep)[|Join(parts, sep)| - 1] == parts[|parts| - 1][|parts[|parts| - 1]| - 1]
  {
    if |parts| > 1 {
      var rest := Join(parts[1..], sep);
      JoinLast(parts[1..], sep);
      assert Join(parts, sep) == parts[0] + [sep] + rest;
    }
  }

  /**
   * The reply format the extraction prompt asks for: a fenced, comma-separated
   * list comes back as its three phrases.
   */
  lemma FencedReplyExample(reply: string)
    requires reply == "```Mandatory, No Special Characters, Only Alphabets```"
    ensures CleanAndSplit(Some(reply)) == ["Mandatory", "No Special Characters", "Only Alphabets"]
  {
    var a, b, c := "Mandatory", "No Special Characters", "Only Alphabets";
    FencedReplyText(reply);
    FirstWordShape(a);
    SecondWordShape(b);
    ThirdWordShape(c);
    ThreeWords(a, b, c);
  }

  /** `", ".join` of three plain words, fenced, normalises back to the three words. */
  lemma ThreeWords(a: string, b: string, c: string)
    requires IsPlainWord(a) && IsPlainWord(b) && IsPlainWord(c)
    ensures CleanAndSplit(Some("```" + (a + [','] + ([' '] + b) + [','] + ([' '] + c)) + "```")) == [a, b, c]
  {
    var words := [a, b, c];
    assert Spaced(words) == [a, [' '] + b, [' '] + c];
    assert Join(Spaced(words), ',') == a + [','] + ([' '] + b) + [','] + ([' '] + c);
    FencedListRoundTrip(words);
  }
}
