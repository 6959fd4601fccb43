/**
 Base64 with the URL-safe alphabet (section 5 of RFC 4648), and the lenient decoder of Python's
 `base64.urlsafe_b64decode`: it skips characters outside the alphabet and reads '+' and '/' as '-' and '_'.
 */
module Base64 {
  import opened Bytes
  import opened Wrappers

  type Digit = n: nat | n < 64

  function Symbol(d: Digit): char {
    if d < 26 then ('A' as int + d) as char
    else if d < 52 then ('a' as int + (d - 26)) as char
    else if d < 62 then ('0' as int + (d - 52)) as char
    else if d == 62 then '-'
    else '_'
  }

  const UPPER := "ABCDEFGHIJKLMNOPQRSTUVWXYZ"
  const LOWER := "abcdefghijklmnopqrstuvwxyz"
  const DIGITS := "0123456789"

  lemma UpperIs(d: nat)
    requires d < 26
    ensures ('A' as int + d) as char == UPPER[d]
  {
  }

  lemma LowerIs(d: nat)
    requires d < 26
    ensures ('a' as int + d) as char == LOWER[d]
  {
  }

  lemma NumeralIs(d: nat)
    requires d < 10
    ensures ('0' as int + d) as char == DIGITS[d]
  {
  }

  /** The alphabet of table 2 of RFC 4648. */
  const ALPHABET := UPPER + LOWER + DIGITS + "-_"

  lemma SymbolIs(d: Digit)
    ensures |ALPHABET| == 64 && Symbol(d) == ALPHABET[d]
  {
    if d < 26 { UpperIs(d); } else if d < 52 { LowerIs(d - 26); } else if d < 62 { NumeralIs(d - 52); }
  }

  function DigitOf(c: char): Option<Digit> {
    if 'A' <= c <= 'Z' then Some(c as int - 'A' as int)
    else if 'a' <= c <= 'z' then Some(c as int - 'a' as int + 26)
    else if '0' <= c <= '9' then Some(c as int - '0' as int + 52)
    else if c == '-' || c == '+' then Some(62)
    else if c == '_' || c == '/' then Some(63)
    else None
  }

  lemma DigitOfSymbol(d: Digit)
    ensures DigitOf(Symbol(d)) == Some(d) && Symbol(d) != '='
  {
  }

  /** The symbols of the bytes, without padding. */
  function Symbols(b: seq<Byte>): string {
    if |b| == 0 then ""
    else if |b| == 1 then [Symbol(b[0] / 4), Symbol(b[0] % 4 * 16)]
    else if |b| == 2 then [Symbol(b[0] / 4), Symbol(b[0] % 4 * 16 + b[1] / 16), Symbol(b[1] % 16 * 4)]
    else
      [Symbol(b[0] / 4), Symbol(b[0] % 4 * 16 + b[1] / 16), Symbol(b[1] % 16 * 4 + b[2] / 64), Symbol(b[2] % 64)]
      + Symbols(b[3..])
  }

  function Padding(n: nat): string {
    if n % 3 == 1 then "==" else if n % 3 == 2 then "=" else ""
  }

  function Encode(b: seq<Byte>): string {
    Symbols(b) + Padding(|b|)
  }

  /** The decoder's registers: place in the quad, bits left over, '=' seen in a row, bytes put out. */
  datatype Quad = Quad(pos: nat, left: nat, pads: nat, out: seq<Byte>) {
    predicate Ok() {
      pos < 4 && left < (if pos == 0 then 1 else if pos == 1 then 64 else if pos == 2 then 16 else 4)
    }
  }

  const START := Quad(0, 0, 0, [])

  function Accept(q: Quad, d: Digit): (r: Quad)
    requires q.Ok()
    ensures r.Ok() && r.pos == (q.pos + 1) % 4
  {
    match q.pos
    case 0 => Quad(1, d, 0, q.out)
    case 1 => Quad(2, d % 16, 0, q.out + [q.left * 4 + d / 16])
    case 2 => Quad(3, d % 4, 0, q.out + [q.left * 16 + d / 4])
    case 3 => Quad(0, 0, 0, q.out + [q.left * 64 + d])
  }

  function DecodeFrom(s: string, q: Quad): Option<seq<Byte>>
    requires q.Ok()
    decreases |s|
  {
    if s == "" then
      if q.pos == 0 then Some(q.out) else None
    else if s[0] == '=' then
      if q.pos >= 2 && q.pos + q.pads + 1 >= 4 then Some(q.out)
      else DecodeFrom(s[1..], if q.pos >= 2 then q.(pads := q.pads + 1) else q)
    else match DigitOf(s[0])
      case None => DecodeFrom(s[1..], q)
      case Some(d) => DecodeFrom(s[1..], Accept(q, d))
  }

  function Decode(s: string): Option<seq<Byte>> {
    DecodeFrom(s, START)
  }

  // ---- decoding what was encoded ----

  lemma OneSymbol(d: Digit, rest: string, q: Quad)
    requires q.Ok()
    ensures DecodeFrom([Symbol(d)] + rest, q) == DecodeFrom(rest, Accept(q, d))
  {
    DigitOfSymbol(d);
    assert ([Symbol(d)] + rest)[1..] == rest;
  }

  lemma FourSymbols(a: Digit, b: Digit, c: Digit, d: Digit, rest: string, q: Quad)
    requires q.Ok() && q.pos == 0
    ensures DecodeFrom([Symbol(a), Symbol(b), Symbol(c), Symbol(d)] + rest, q)
         == DecodeFrom(rest, Quad(0, 0, 0, q.out + [a * 4 + b / 16, b % 16 * 16 + c / 4, c % 4 * 64 + d]))
  {
    hide DecodeFrom, Symbol;
    var q1 := Accept(q, a);
    var q2 := Accept(q1, b);
    var q3 := Accept(q2, c);
    OneSymbol(a, [Symbol(b), Symbol(c), Symbol(d)] + rest, q);
    OneSymbol(b, [Symbol(c), Symbol(d)] + rest, q1);
    OneSymbol(c, [Symbol(d)] + rest, q2);
    OneSymbol(d, rest, q3);
    assert [Symbol(a), Symbol(b), Symbol(c), Symbol(d)] + rest == [Symbol(a)] + ([Symbol(b), Symbol(c), Symbol(d)] + rest);
    assert [Symbol(b), Symbol(c), Symbol(d)] + rest == [Symbol(b)] + ([Symbol(c), Symbol(d)] + rest);
    assert [Symbol(c), Symbol(d)] + rest == [Symbol(c)] + ([Symbol(d)] + rest);
    assert q.out + [a * 4 + b / 16] + [b % 16 * 16 + c / 4] + [c % 4 * 64 + d]
        == q.out + [a * 4 + b / 16, b % 16 * 16 + c / 4, c % 4 * 64 + d];
  }

  lemma LastSymbols(b: seq<Byte>, tail: string, q: Quad)
    requires 0 < |b| < 3 && q.Ok() && q.pos == 0
    ensures exists r: Quad :: r.Ok() && r.pos == |b| + 1 && r.pads == 0 && r.out == q.out + b
              && DecodeFrom(Symbols(b) + tail, q) == DecodeFrom(tail, r)
  {
    hide DecodeFrom, Symbol;
    var d0 := b[0] / 4;
    var q1 := Accept(q, d0);
    if |b| == 1 {
      var d1 := b[0] % 4 * 16;
      OneSymbol(d0, [Symbol(d1)] + tail, q);
      OneSymbol(d1, tail, q1);
      assert Symbols(b) + tail == [Symbol(d0)] + ([Symbol(d1)] + tail);
      assert Accept(q1, d1).out == q.out + b;
    } else {
      var d1, d2 := b[0] % 4 * 16 + b[1] / 16, b[1] % 16 * 4;
      var q2 := Accept(q1, d1);
      OneSymbol(d0, [Symbol(d1), Symbol(d2)] + tail, q);
      OneSymbol(d1, [Symbol(d2)] + tail, q1);
      OneSymbol(d2, tail, q2);
      assert Symbols(b) + tail == [Symbol(d0)] + ([Symbol(d1), Symbol(d2)] + tail);
      assert [Symbol(d1), Symbol(d2)] + tail == [Symbol(d1)] + ([Symbol(d2)] + tail);
      assert Accept(q2, d2).out == q.out + b;
    }
  }

  /** After the symbols of b the decoder has put out b, and stands |b| % 3 symbols into a quad. */
  lemma {:induction false} ReadSymbols(b: seq<Byte>, tail: string, q: Quad)
    requires q.Ok() && q.pos == 0 && q.pads == 0
    ensures exists r: Quad :: r.Ok() && r.pos == (if |b| % 3 == 0 then 0 else |b| % 3 + 1) && r.pads == 0
              && r.out == q.out + b && DecodeFrom(Symbols(b) + tail, q) == DecodeFrom(tail, r)
    decreases |b|
  {
    hide DecodeFrom, Symbol;
    if |b| == 0 {
      assert Symbols(b) + tail == tail;
      assert q.out + b == q.out;
    } else if |b| < 3 {
      LastSymbols(b, tail, q);
    } else {
      var d0, d1 := b[0] / 4, b[0] % 4 * 16 + b[1] / 16;
      var d2, d3 := b[1] % 16 * 4 + b[2] / 64, b[2] % 64;
      FourSymbols(d0, d1, d2, d3, Symbols(b[3..]) + tail, q);
      assert Symbols(b) + tail == [Symbol(d0), Symbol(d1), Symbol(d2), Symbol(d3)] + (Symbols(b[3..]) + tail);
      assert [d0 * 4 + d1 / 16, d1 % 16 * 16 + d2 / 4, d2 % 4 * 64 + d3] == b[..3];
      ReadSymbols(b[3..], tail, Quad(0, 0, 0, q.out + b[..3]));
      assert q.out + b[..3] + b[3..] == q.out + b;
    }
  }

  lemma ReadPadding(n: nat, q: Quad)
    requires q.Ok() && q.pos == (if n % 3 == 0 then 0 else n % 3 + 1) && q.pads == 0
    ensures DecodeFrom(Padding(n), q) == Some(q.out)
    ensures DecodeFrom("", q) == if n % 3 == 0 then Some(q.out) else None
  {
    if n % 3 == 1 {
      assert "=="[1..] == "=";
      assert DecodeFrom("==", q) == DecodeFrom("=", q.(pads := 1));
    }
  }

  lemma DecodeEncoded(b: seq<Byte>)
    ensures Decode(Encode(b)) == Some(b)
  {
    hide DecodeFrom;
    ReadSymbols(b, Padding(|b|), START);
    var r: Quad :| r.Ok() && r.pos == (if |b| % 3 == 0 then 0 else |b| % 3 + 1) && r.pads == 0
      && r.out == [] + b && DecodeFrom(Symbols(b) + Padding(|b|), START) == DecodeFrom(Padding(|b|), r);
    ReadPadding(|b|, r);
    assert [] + b == b;
  }

  /** The padding is needed: without it the text decodes if and only if it had none to lose. */
  lemma DecodeUnpadded(b: seq<Byte>)
    ensures Decode(Symbols(b)) == if |b| % 3 == 0 then Some(b) else None
  {
    hide DecodeFrom;
    ReadSymbols(b, "", START);
    var r: Quad :| r.Ok() && r.pos == (if |b| % 3 == 0 then 0 else |b| % 3 + 1) && r.pads == 0
      && r.out == [] + b && DecodeFrom(Symbols(b) + "", START) == DecodeFrom("", r);
    ReadPadding(|b|, r);
    assert [] + b == b && Symbols(b) + "" == Symbols(b);
  }

  predicate UrlSafe(c: char) {
    'A' <= c <= 'Z' || 'a' <= c <= 'z' || '0' <= c <= '9' || c == '-' || c == '_'
  }

  lemma SymbolSafe(d: Digit)
    ensures UrlSafe(Symbol(d))
  {
  }

  predicate AllUrlSafe(s: string) {
    forall i | 0 <= i < |s| :: UrlSafe(s[i])
  }

  lemma SafeAppend(a: string, b: string)
    requires AllUrlSafe(a) && AllUrlSafe(b)
    ensures AllUrlSafe(a + b)
  {
  }

  lemma {:induction false} SymbolsLength(b: seq<Byte>)
    ensures |Symbols(b)| == |b| / 3 * 4 + (if |b| % 3 == 0 then 0 else |b| % 3 + 1)
    decreases |b|
  {
    hide Symbol;
    if |b| >= 3 { SymbolsLength(b[3..]); }
  }

  lemma TwoSafe(a: Digit, b: Digit)
    ensures AllUrlSafe([Symbol(a), Symbol(b)])
  {
    hide Symbol, UrlSafe;
    SymbolSafe(a);
    SymbolSafe(b);
  }

  lemma {:induction false} SymbolsSafe(b: seq<Byte>)
    ensures AllUrlSafe(Symbols(b))
    decreases |b|
  {
    hide AllUrlSafe, Symbol;
    if |b| == 0 {
      NoneSafe();
    } else if |b| == 1 {
      TwoSafe(b[0] / 4, b[0] % 4 * 16);
    } else {
      var x, y := [Symbol(b[0] / 4), Symbol(b[0] % 4 * 16 + b[1] / 16)], Symbol(b[1] % 16 * 4);
      TwoSafe(b[0] / 4, b[0] % 4 * 16 + b[1] / 16);
      if |b| == 2 {
        OneSafe(b[1] % 16 * 4);
        SafeAppend(x, [y]);
        assert Symbols(b) == x + [y];
      } else {
        var z := [Symbol(b[1] % 16 * 4 + b[2] / 64), Symbol(b[2] % 64)];
        TwoSafe(b[1] % 16 * 4 + b[2] / 64, b[2] % 64);
        SymbolsSafe(b[3..]);
        SafeAppend(x, z);
        SafeAppend(x + z, Symbols(b[3..]));
        assert Symbols(b) == x + z + Symbols(b[3..]);
      }
    }
  }

  lemma NoneSafe()
    ensures AllUrlSafe("")
  {
  }

  lemma OneSafe(a: Digit)
    ensures AllUrlSafe([Symbol(a)])
  {
    SymbolSafe(a);
  }

  /** Section 5 of RFC 4648: quads of URL-safe symbols, ceil(n / 3) of them, the last one padded. */
  lemma EncodedForm(b: seq<Byte>)
    ensures |Encode(b)| == (|b| + 2) / 3 * 4
    ensures AllUrlSafe(Symbols(b))
    ensures |Padding(|b|)| == (if |b| % 3 == 0 then 0 else 3 - |b| % 3)
  {
    hide Symbols, AllUrlSafe;
    SymbolsLength(b);
    SymbolsSafe(b);
  }

  function Known(s: string): string {
    if s == "" then "" else (if s[0] == '=' || DigitOf(s[0]).Some? then [s[0]] else []) + Known(s[1..])
  }

  /** Characters that are neither symbols nor '=' make no difference to what is decoded, or whether. */
  lemma {:induction false} UnknownSkipped(s: string, q: Quad)
    requires q.Ok()
    ensures DecodeFrom(s, q) == DecodeFrom(Known(s), q)
    decreases |s|
  {
    if s != "" {
      var known, rest := Known(s), Known(s[1..]);
      if s[0] == '=' {
        var q1 := if q.pos >= 2 then q.(pads := q.pads + 1) else q;
        assert known[0] == '=' && known[1..] == rest;
        UnknownSkipped(s[1..], q1);
        assert DecodeFrom(known, q) == if q.pos >= 2 && q1.pos + q1.pads >= 4 then Some(q.out) else DecodeFrom(rest, q1);
      } else if DigitOf(s[0]).Some? {
        var q1 := Accept(q, DigitOf(s[0]).value);
        assert known[0] == s[0] && known[1..] == rest;
        UnknownSkipped(s[1..], q1);
        assert DecodeFrom(known, q) == DecodeFrom(rest, q1);
      } else {
        assert known == rest;
        UnknownSkipped(s[1..], q);
      }
    }
  }

  // ---- which text it is ----

  function Bits24(x: nat, y: nat, z: nat): nat {
    (x * 256 + y) * 256 + z
  }

  /** The four digits of a number to base 64, the highest first, as symbols of the alphabet. */
  function FourDigits(n: nat): string {
    AlphabetSize();
    [ALPHABET[n / 64 / 64 / 64 % 64], ALPHABET[n / 64 / 64 % 64], ALPHABET[n / 64 % 64], ALPHABET[n % 64]]
  }

  lemma AlphabetSize()
    ensures |ALPHABET| == 64
  {
  }

  /** Three bytes are read as one number of 24 bits, the first byte highest, and written as its four digits to base 64. */
  lemma {:induction false} EncodedGroup(b: seq<Byte>, i: nat)
    requires 3 * i + 3 <= |b|
    ensures |Encode(b)| >= 4 * i + 4
    ensures Encode(b)[4 * i..4 * i + 4] == FourDigits(Bits24(b[3 * i], b[3 * i + 1], b[3 * i + 2]))
    decreases i
  {
    hide Encode, FourDigits, Bits24;
    FirstGroup(b);
    var head, rest := FourDigits(Bits24(b[0], b[1], b[2])), b[3..];
    if i == 0 {
      assert (head + Encode(rest))[0..4] == head;
    } else {
      EncodedGroup(rest, i - 1);
      assert rest[3 * (i - 1)] == b[3 * i] && rest[3 * (i - 1) + 1] == b[3 * i + 1] && rest[3 * (i - 1) + 2] == b[3 * i + 2];
      Later(head, Encode(rest), 4 * (i - 1));
    }
  }

  lemma Later(head: string, rest: string, at: nat)
    requires |head| == 4 && at + 4 <= |rest|
    ensures (head + rest)[at + 4..at + 8] == rest[at..at + 4]
  {
  }

  function FourSymbolsOf(x: Byte, y: Byte, z: Byte): string {
    [Symbol(x / 4), Symbol(x % 4 * 16 + y / 16), Symbol(y % 16 * 4 + z / 64), Symbol(z % 64)]
  }

  lemma GroupSymbols(x: Byte, y: Byte, z: Byte)
    ensures FourSymbolsOf(x, y, z) == FourDigits(Bits24(x, y, z))
  {
    GroupDigits(x, y, z);
    SymbolIs(x / 4);
    SymbolIs(x % 4 * 16 + y / 16);
    SymbolIs(y % 16 * 4 + z / 64);
    SymbolIs(z % 64);
    hide Symbol, Bits24;
  }

  lemma FirstGroup(b: seq<Byte>)
    requires |b| >= 3
    ensures |FourDigits(Bits24(b[0], b[1], b[2]))| == 4
    ensures Encode(b) == FourDigits(Bits24(b[0], b[1], b[2])) + Encode(b[3..])
  {
    hide Symbol, Bits24;
    FirstSymbols(b);
    GroupSymbols(b[0], b[1], b[2]);
    hide Symbols, FourDigits;
    var head := FourSymbolsOf(b[0], b[1], b[2]);
    assert Padding(|b|) == Padding(|b[3..]|);
    assert (head + Symbols(b[3..])) + Padding(|b|) == head + (Symbols(b[3..]) + Padding(|b|));
  }

  lemma FirstSymbols(b: seq<Byte>)
    requires |b| >= 3
    ensures Symbols(b) == [Symbol(b[0] / 4), Symbol(b[0] % 4 * 16 + b[1] / 16), Symbol(b[1] % 16 * 4 + b[2] / 64),
                           Symbol(b[2] % 64)] + Symbols(b[3..])
  {
    hide Symbol;
    if |b| == 3 { assert b[3..] == []; }
  }

  lemma GroupDigits(x: Byte, y: Byte, z: Byte)
    ensures var n := Bits24(x, y, z);
            && n / 64 / 64 / 64 % 64 == x / 4 && n / 64 / 64 % 64 == x % 4 * 16 + y / 16
            && n / 64 % 64 == y % 16 * 4 + z / 64 && n % 64 == z % 64
  {
    var n := Bits24(x, y, z);
    assert n == 64 * (x as int * 1024 + y as int * 4 + z / 64) + z % 64;
    assert n / 64 == x as int * 1024 + y as int * 4 + z / 64;
    assert n / 64 == 64 * (x as int * 16 + y / 16) + (y % 16 * 4 + z / 64);
    assert n / 64 / 64 == x as int * 16 + y / 16;
    assert n / 64 / 64 == 64 * (x / 4) as int + (x % 4 * 16 + y / 16);
  }

  /** Test vectors of section 10 of RFC 4648 for one and two bytes at the end. */
  lemma TailVectors()
    ensures Encode([102]) == "Zg==" && Encode([102, 111]) == "Zm8="
  {
  }
}
