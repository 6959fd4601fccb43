/**
 UUIDs as 128-bit numbers: the text that `str` gives (8-4-4-4-12 lower-case hexadecimal digits) and the parser
 of Python's `uuid.UUID`.
 */
module Uuid {
  import opened Wrappers

  type Id = n: nat | n < 0x1_0000_0000_0000_0000_0000_0000_0000_0000

  function Pow16(k: nat): (r: nat)
    ensures r > 0
  {
    if k == 0 then 1 else 16 * Pow16(k - 1)
  }

  function HexDigit(d: nat): char
    requires d < 16
  {
    if d < 10 then ('0' as int + d) as char else ('a' as int + (d - 10)) as char
  }

  function HexValue(c: char): Option<nat> {
    if '0' <= c <= '9' then Some(c as int - '0' as int)
    else if 'a' <= c <= 'f' then Some(c as int - 'a' as int + 10)
    else if 'A' <= c <= 'F' then Some(c as int - 'A' as int + 10)
    else None
  }

  function Hex(n: nat, digits: nat): (s: string)
    ensures |s| == digits
  {
    if digits == 0 then "" else Hex(n / 16, digits - 1) + [HexDigit(n % 16)]
  }

  function ParseHex(s: string): Option<nat> {
    if s == "" then Some(0)
    else match (ParseHex(s[..|s| - 1]), HexValue(s[|s| - 1]))
      case (Some(high), Some(d)) => Some(high * 16 + d)
      case _ => None
  }

  predicate IsLowerHex(c: char) {
    '0' <= c <= '9' || 'a' <= c <= 'f'
  }

  lemma {:induction false} ParseHexText(n: nat, digits: nat)
    requires n < Pow16(digits)
    ensures ParseHex(Hex(n, digits)) == Some(n)
    ensures forall i | 0 <= i < digits :: IsLowerHex(Hex(n, digits)[i])
  {
    if digits > 0 {
      ParseHexText(n / 16, digits - 1);
      assert Hex(n, digits)[..digits - 1] == Hex(n / 16, digits - 1);
    }
  }

  lemma {:induction false} Times(a: nat, b: nat, p: nat)
    requires a < b
    ensures a * p + p <= b * p
    decreases b
  {
    assert b * p == (b - 1) * p + p;
    if a < b - 1 { Times(a, b - 1, p); }
  }

  lemma Quotient(n: nat, p: nat, q: nat)
    requires p > 0 && q * p <= n < q * p + p
    ensures n / p == q
  {
    var x := n / p;
    assert x * p <= n < x * p + p;
    if x < q { Times(x, q, p); }
    if q < x { Times(q, x, p); }
  }

  lemma DivTwice(n: nat, p: nat)
    requires p > 0
    ensures n / 16 / p == n / (16 * p)
  {
    var q := n / 16 / p;
    assert q * p <= n / 16 < q * p + p;
    assert q * (16 * p) == 16 * (q * p);
    Quotient(n, 16 * p, q);
  }

  /** The digits stand for the number, the highest first. */
  lemma {:induction false} HexDigitAt(n: nat, digits: nat, k: nat)
    requires k < digits
    ensures Hex(n, digits)[k] == "0123456789abcdef"[n / Pow16(digits - 1 - k) % 16]
  {
    if k == digits - 1 {
      DigitIs(n % 16);
      assert n / 1 == n;
    } else {
      HexDigitAt(n / 16, digits - 1, k);
      DivTwice(n, Pow16(digits - 2 - k));
      assert Pow16(digits - 1 - k) == 16 * Pow16(digits - 2 - k);
    }
  }

  lemma DigitIs(d: nat)
    requires d < 16
    ensures HexDigit(d) == "0123456789abcdef"[d]
  {
  }

  function Print(id: Id): string {
    var h := Hex(id, 32);
    h[..8] + "-" + h[8..12] + "-" + h[12..16] + "-" + h[16..20] + "-" + h[20..]
  }

  /** `str.replace(pattern, '')` */
  function Remove(s: string, pattern: string): string
    requires pattern != ""
    decreases |s|
  {
    if |s| < |pattern| then s
    else if s[..|pattern|] == pattern then Remove(s[|pattern|..], pattern)
    else [s[0]] + Remove(s[1..], pattern)
  }

  /** `str.strip('{}')` */
  function StripBraces(s: string): string
    decreases |s|
  {
    if s != "" && (s[0] == '{' || s[0] == '}') then StripBraces(s[1..])
    else if s != "" && (s[|s| - 1] == '{' || s[|s| - 1] == '}') then StripBraces(s[..|s| - 1])
    else s
  }

  function Parse(s: string): Option<Id> {
    var hex := Remove(StripBraces(Remove(Remove(s, "urn:"), "uuid:")), "-");
    if |hex| != 32 then None
    else match ParseHex(hex)
      case None => None
      case Some(n) => if n < 0x1_0000_0000_0000_0000_0000_0000_0000_0000 then Some(n) else None
  }

  // ---- the round trip ----

  lemma {:induction false} NothingToRemove(s: string, pattern: string)
    requires pattern != "" && pattern[0] !in s
    ensures Remove(s, pattern) == s
    decreases |s|
  {
    if |s| >= |pattern| {
      assert s[..|pattern|][0] == s[0];
      NothingToRemove(s[1..], pattern);
    }
  }

  lemma {:induction false} RemoveHyphenAt(a: string, b: string)
    requires '-' !in a
    ensures Remove(a + "-" + b, "-") == a + Remove(b, "-")
    decreases |a|
  {
    var s := a + "-" + b;
    if a == "" {
      assert s[1..] == b && s[..1] == "-";
    } else {
      RemoveHyphenAt(a[1..], b);
      assert s[1..] == a[1..] + "-" + b && s[..1][0] == a[0];
      assert a == [a[0]] + a[1..];
    }
  }

  lemma WithoutHyphens(h: string)
    requires |h| == 32 && '-' !in h
    ensures Remove(h[..8] + "-" + h[8..12] + "-" + h[12..16] + "-" + h[16..20] + "-" + h[20..], "-") == h
  {
    hide Remove;
    var t4 := h[20..];
    var t3 := h[16..20] + "-" + t4;
    var t2 := h[12..16] + "-" + t3;
    var t1 := h[8..12] + "-" + t2;
    assert h[..8] + "-" + h[8..12] + "-" + h[12..16] + "-" + h[16..20] + "-" + h[20..] == h[..8] + "-" + t1;
    RemoveHyphenAt(h[..8], t1);
    RemoveHyphenAt(h[8..12], t2);
    RemoveHyphenAt(h[12..16], t3);
    RemoveHyphenAt(h[16..20], t4);
    NothingToRemove(t4, "-");
    assert h == h[..8] + (h[8..12] + (h[12..16] + (h[16..20] + h[20..])));
  }

  lemma PrintedForm(id: Id)
    ensures |Print(id)| == 36
    ensures forall i | 0 <= i < 36 ::
              if i == 8 || i == 13 || i == 18 || i == 23 then Print(id)[i] == '-' else IsLowerHex(Print(id)[i])
  {
    Pow16Of32();
    ParseHexText(id, 32);
    hide Hex;
  }

  lemma Pow16Of32()
    ensures Pow16(32) == 0x1_0000_0000_0000_0000_0000_0000_0000_0000
  {
    assert Pow16(8) == 0x1_0000_0000;
    assert Pow16(16) == 0x1_0000_0000_0000_0000;
    assert Pow16(24) == 0x1_0000_0000_0000_0000_0000_0000;
  }

  /** A printed identifier has no prefix and no braces to lose. */
  lemma PrintedIsPlain(id: Id)
    ensures StripBraces(Remove(Remove(Print(id), "urn:"), "uuid:")) == Print(id)
  {
    var s := Print(id);
    PrintedForm(id);
    hide Print, Remove;
    NothingToRemove(s, "urn:");
    NothingToRemove(s, "uuid:");
  }

  /** Digit k of the text, hyphens aside, is digit k of the number to base 16, the highest first. */
  lemma PrintedDigit(id: Id, k: nat)
    requires k < 32
    ensures |Print(id)| == 36
    ensures var at := if k < 8 then k else if k < 12 then k + 1 else if k < 16 then k + 2
                      else if k < 20 then k + 3 else k + 4;
            Print(id)[at] == "0123456789abcdef"[id / Pow16(31 - k) % 16]
  {
    HexDigitAt(id, 32, k);
    hide Hex, Pow16;
  }

  lemma ParsePrinted(id: Id)
    ensures Parse(Print(id)) == Some(id)
  {
    var h := Hex(id, 32);
    Pow16Of32();
    ParseHexText(id, 32);
    PrintedIsPlain(id);
    hide Hex, ParseHex, Pow16, StripBraces, Remove;
    assert '-' !in h;
    WithoutHyphens(h);
  }
}
