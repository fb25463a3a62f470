/**
 * UUIDs as the key assigner renders them: a 128-bit number, written as 32
 * lower-case hex digits (`u.hex`) or as those digits in groups of
 * 8-4-4-4-12 joined by "-" (`str(u)`).  The random source behind
 * `uuid.uuid4()` is a supply of numbers handed in from outside.
 */
module Uuids {

  function Pow16(n: nat): (p: nat)
    ensures p >= 1
  {
    if n == 0 then 1 else 16 * Pow16(n - 1)
  }

  /** 2^128, the number of distinct UUID values. */
  const UuidLimit: nat := 0x1_0000_0000_0000_0000_0000_0000_0000_0000

  lemma {:induction false} Pow16Add(m: nat, n: nat)
    ensures Pow16(m + n) == Pow16(m) * Pow16(n)
    decreases m
  {
    if m > 0 {
      Pow16Add(m - 1, n);
    }
  }

  /** 32 hex digits are exactly 128 bits. */
  lemma UuidLimitDigits()
    ensures Pow16(32) == UuidLimit
  {
    assert Pow16(4) == 0x1_0000;
    Pow16Add(4, 4);
    Pow16Add(8, 8);
    Pow16Add(16, 16);
  }

  /** A 128-bit UUID value: 32 hex digits. */
  type Uuid = v: nat | v < UuidLimit witness 0

  /** The lower-case hex digit of `d`, as `format(d, "x")` writes it. */
  function HexDigit(d: nat): (c: char)
    requires d < 16
    ensures DigitValue(c) == d
  {
    if d < 10 then ('0' as int + d) as char else ('a' as int + (d - 10)) as char
  }

  /** The value of a lower-case hex digit. */
  function DigitValue(c: char): nat {
    if '0' <= c <= '9' then c as int - '0' as int
    else if 'a' <= c <= 'f' then c as int - 'a' as int + 10
    else 0
  }

  /** `format(v, "0{width}x")` for `v < 16^width`: exactly `width` hex digits. */
  function Hex(v: nat, width: nat): (h: string)
    ensures |h| == width
  {
    if width == 0 then [] else Hex(v / 16, width - 1) + [HexDigit(v % 16)]
  }

  /** `int(h, 16)`. */
  function ParseHex(h: string): nat {
    if h == [] then 0 else ParseHex(h[..|h| - 1]) * 16 + DigitValue(h[|h| - 1])
  }

  /** Reading back a fixed-width hex rendering gives the number. */
  lemma {:induction false} ParseHexOfHex(v: nat, width: nat)
    requires v < Pow16(width)
    ensures ParseHex(Hex(v, width)) == v
  {
    if width > 0 {
      var h := Hex(v, width);
      assert h[..|h| - 1] == Hex(v / 16, width - 1);
      ParseHexOfHex(v / 16, width - 1);
    }
  }

  /** Distinct numbers below `16^width` have distinct renderings. */
  lemma HexInjective(a: nat, b: nat, width: nat)
    requires a < Pow16(width) && b < Pow16(width)
    ensures Hex(a, width) == Hex(b, width) ==> a == b
  {
    ParseHexOfHex(a, width);
    ParseHexOfHex(b, width);
  }

  /** `u.hex`. */
  function UuidHex(u: Uuid): (h: string)
    ensures |h| == 32
  {
    Hex(u, 32)
  }

  /** `str(u)`: the hex digits in groups of 8-4-4-4-12 joined by "-". */
  function UuidString(u: Uuid): (s: string)
    ensures |s| == 36
    ensures s[8] == '-' && s[13] == '-' && s[18] == '-' && s[23] == '-'
  {
    Dashed(UuidHex(u))
  }

  function Dashed(h: string): (s: string)
    requires |h| == 32
    ensures |s| == 36
    ensures s[8] == '-' && s[13] == '-' && s[18] == '-' && s[23] == '-'
  {
    h[..8] + "-" + h[8..12] + "-" + h[12..16] + "-" + h[16..20] + "-" + h[20..]
  }

  /** The hex digits of a dashed UUID string, dashes removed. */
  function Undash(s: string): (h: string)
    requires |s| == 36
    ensures |h| == 32
  {
    s[..8] + s[9..13] + s[14..18] + s[19..23] + s[24..]
  }

  lemma UndashDashed(h: string)
    requires |h| == 32
    ensures Undash(Dashed(h)) == h
  {
    var s := Dashed(h);
    assert s[..8] == h[..8];
    assert s[9..13] == h[8..12];
    assert s[14..18] == h[12..16];
    assert s[19..23] == h[16..20];
    assert s[24..] == h[20..];
    assert h == h[..8] + h[8..12] + h[12..16] + h[16..20] + h[20..];
  }

  /** Distinct UUIDs have distinct hex renderings. */
  lemma UuidHexInjective(a: Uuid, b: Uuid)
    ensures UuidHex(a) == UuidHex(b) ==> a == b
  {
    UuidLimitDigits();
    HexInjective(a, b, 32);
  }

  /** Distinct UUIDs have distinct string renderings. */
  lemma UuidStringInjective(a: Uuid, b: Uuid)
    ensures UuidString(a) == UuidString(b) ==> a == b
  {
    UndashDashed(UuidHex(a));
    UndashDashed(UuidHex(b));
    UuidHexInjective(a, b);
  }

  /**
   * The generator behind `uuid.uuid4()`: the `n`-th call returns `value(n)`.
   * Which numbers it yields is outside this model; the lemmas that need
   * fresh values take injectivity of `value` as a hypothesis.
   */
  class UuidSource {
    const value: nat -> Uuid
    var drawn: nat

    constructor(value: nat -> Uuid)
      ensures this.value == value && drawn == 0
    {
      this.value := value;
      drawn := 0;
    }

    /** `uuid.uuid4()`. */
    method Uuid4() returns (u: Uuid)
      modifies this
      ensures u == value(old(drawn))
      ensures drawn == old(drawn) + 1
    {
      u := value(drawn);
      drawn := drawn + 1;
    }
  }
}
