/** Percent-encoding of UTF-8 (section 2.1 of RFC 3986) and decimal numbers, as both the plugins
    and the client print and read them.  Strings are sequences of Unicode scalar values. */
module Percent {
  import opened Wrappers

  /** Which characters an encoder leaves alone: the plugins' `urlencode`, or the client's
      `encodeURIComponent`. */
  datatype Style = Plugin | Component

  predicate Unreserved(c: char) {
    'A' <= c <= 'Z' || 'a' <= c <= 'z' || '0' <= c <= '9' || c == '-' || c == '_' || c == '.' || c == '~'
  }

  predicate Plain(style: Style, c: char) {
    Unreserved(c) || (style.Component? && c in {'!', '*', '\'', '(', ')'})
  }

  type Byte = b: nat | b < 256

  function Utf8(c: char): seq<Byte> {
    var n := c as int;
    if n < 0x80 then [n]
    else if n < 0x800 then [0xC0 + n / 64, 0x80 + n % 64]
    else if n < 0x1_0000 then [0xE0 + n / 4096, 0x80 + n / 64 % 64, 0x80 + n % 64]
    else [0xF0 + n / 262144, 0x80 + n / 4096 % 64, 0x80 + n / 64 % 64, 0x80 + n % 64]
  }

  function HexDigit(v: nat): char
    requires v < 16
  {
    if v < 10 then ('0' as int + v) as char else ('A' as int + v - 10) as char
  }

  function PercentByte(b: Byte): string {
    ['%', HexDigit(b / 16), HexDigit(b % 16)]
  }

  function PercentBytes(bs: seq<Byte>): string {
    if bs == [] then [] else PercentByte(bs[0]) + PercentBytes(bs[1..])
  }

  function EscapeChar(style: Style, c: char): string {
    if Plain(style, c) then [c] else PercentBytes(Utf8(c))
  }

  function Escape(style: Style, s: string): string {
    if s == [] then [] else EscapeChar(style, s[0]) + Escape(style, s[1..])
  }

  /** `urlencode`, a loop that pushes characters. */
  method UrlEncode(s: string) returns (out: string)
    ensures out == Escape(Plugin, s) && Unescape(out) == Some(s)
  {
    UnescapeEscape(Plugin, s);
    out := "";
    var i := 0;
    assert s[0..] == s;
    while i < |s|
      invariant 0 <= i <= |s|
      invariant out + Escape(Plugin, s[i..]) == Escape(Plugin, s)
    {
      EscapeFrom(s, i, out);
      out := PushChar(out, s[i]);
      i := i + 1;
    }
  }

  lemma EscapeFrom(s: string, i: nat, out: string)
    requires i < |s|
    ensures out + Escape(Plugin, s[i..]) == out + EscapeChar(Plugin, s[i]) + Escape(Plugin, s[i + 1..])
  {
    assert s[i..][1..] == s[i + 1..];
  }

  /** The match on one character. */
  method PushChar(s: string, c: char) returns (out: string)
    ensures out == s + EscapeChar(Plugin, c)
  {
    if Unreserved(c) {
      out := s + [c];
    } else {
      out := PushBytes(s, Utf8(c));
    }
  }

  method PushBytes(s: string, bytes: seq<Byte>) returns (out: string)
    ensures out == s + PercentBytes(bytes)
  {
    out := s;
    var k := 0;
    assert bytes[0..] == bytes;
    while k < |bytes|
      invariant 0 <= k <= |bytes|
      invariant out + PercentBytes(bytes[k..]) == s + PercentBytes(bytes)
    {
      out := out + PercentByte(bytes[k]);
      assert bytes[k..][1..] == bytes[k + 1..];
      k := k + 1;
    }
  }

  // ---------------------------------------------------------------- reading it back

  function HexValue(c: char): Option<nat> {
    if '0' <= c <= '9' then Some(c as int - '0' as int)
    else if 'A' <= c <= 'F' then Some(c as int - 'A' as int + 10)
    else if 'a' <= c <= 'f' then Some(c as int - 'a' as int + 10)
    else None
  }

  /** The byte of a "%XX" at the front. */
  function FrontByte(s: string): Option<nat> {
    if |s| < 3 || s[0] != '%' || HexValue(s[1]).None? || HexValue(s[2]).None? then None
    else Some(HexValue(s[1]).value * 16 + HexValue(s[2]).value)
  }

  /** `n` continuation bytes at the front, folded into `acc`. */
  function Continue(s: string, n: nat, acc: nat): Option<nat> {
    if n == 0 then Some(acc)
    else
      var b := FrontByte(s);
      if b.None? || b.value < 0x80 || b.value >= 0xC0 then None
      else Continue(s[3..], n - 1, acc * 64 + (b.value - 0x80))
  }

  /** How many continuation bytes a first byte announces, and its own bits. */
  function Lead(b: nat): Option<(nat, nat)> {
    if b < 0x80 then Some((0, b))
    else if 0xC0 <= b < 0xE0 then Some((1, b - 0xC0))
    else if 0xE0 <= b < 0xF0 then Some((2, b - 0xE0))
    else if 0xF0 <= b < 0xF8 then Some((3, b - 0xF0))
    else None
  }

  /** The first character of an encoded text, and how much of the text it takes. */
  function FrontChar(s: string): (r: Option<(char, nat)>)
    requires s != []
    ensures r.Some? ==> 1 <= r.value.1
  {
    if s[0] != '%' then Some((s[0], 1))
    else
      var b := FrontByte(s);
      if b.None? then None
      else
        var lead := Lead(b.value);
        if lead.None? then None
        else
          var n := Continue(s[3..], lead.value.0, lead.value.1);
          if n.None? || !(n.value < 0xD800 || 0xE000 <= n.value < 0x11_0000) then None
          else if |Utf8(n.value as char)| != 1 + lead.value.0 then None
          else Some((n.value as char, 3 + 3 * lead.value.0))
  }

  /** `decodeURIComponent`; None where it throws.  Overlong forms are refused like any other
      byte sequence that is not UTF-8. */
  function Unescape(s: string): Option<string> {
    if s == [] then Some([])
    else
      var front := FrontChar(s);
      if front.None? || |s| < front.value.1 then None
      else
        var rest := Unescape(s[front.value.1..]);
        if rest.None? then None else Some([front.value.0] + rest.value)
  }

  lemma FrontByteBack(b: Byte, rest: string)
    ensures FrontByte(PercentByte(b) + rest) == Some(b)
    ensures (PercentByte(b) + rest)[3..] == rest
  {
  }

  lemma {:induction false} ContinueBack(bs: seq<Byte>, rest: string, acc: nat, n: nat)
    requires n == |bs| && forall k :: 0 <= k < n ==> 0x80 <= bs[k] < 0xC0
    ensures Continue(PercentBytes(bs) + rest, n, acc) == Some(Fold(bs, acc))
  {
    if bs != [] {
      assert PercentBytes(bs) + rest == PercentByte(bs[0]) + (PercentBytes(bs[1..]) + rest);
      FrontByteBack(bs[0], PercentBytes(bs[1..]) + rest);
      ContinueBack(bs[1..], rest, acc * 64 + (bs[0] - 0x80), n - 1);
    }
  }

  function Fold(bs: seq<Byte>, acc: nat): nat
    requires forall k :: 0 <= k < |bs| ==> 0x80 <= bs[k] < 0xC0
  {
    if bs == [] then acc else Fold(bs[1..], acc * 64 + (bs[0] - 0x80))
  }

  lemma {:induction false} PercentLength(bs: seq<Byte>)
    ensures |PercentBytes(bs)| == 3 * |bs|
  {
    if bs != [] {
      PercentLength(bs[1..]);
    }
  }

  lemma FoldOne(a: Byte, acc: nat)
    requires 0x80 <= a < 0xC0
    ensures Fold([a], acc) == acc * 64 + (a - 0x80)
  {
    assert [a][1..] == [];
  }

  lemma FoldTwo(a: Byte, b: Byte, acc: nat)
    requires 0x80 <= a < 0xC0 && 0x80 <= b < 0xC0
    ensures Fold([a, b], acc) == (acc * 64 + (a - 0x80)) * 64 + (b - 0x80)
  {
    assert [a, b][1..] == [b];
    FoldOne(b, acc * 64 + (a - 0x80));
  }

  lemma FoldThree(a: Byte, b: Byte, c: Byte, acc: nat)
    requires 0x80 <= a < 0xC0 && 0x80 <= b < 0xC0 && 0x80 <= c < 0xC0
    ensures Fold([a, b, c], acc) == ((acc * 64 + (a - 0x80)) * 64 + (b - 0x80)) * 64 + (c - 0x80)
  {
    assert [a, b, c][1..] == [b, c];
    FoldTwo(b, c, acc * 64 + (a - 0x80));
  }

  lemma Utf8Lead(c: char)
    ensures |Utf8(c)| >= 1
    ensures Lead(Utf8(c)[0]).Some? && Lead(Utf8(c)[0]).value.0 == |Utf8(c)| - 1
    ensures forall k :: 1 <= k < |Utf8(c)| ==> 0x80 <= Utf8(c)[k] < 0xC0
  {
  }

  lemma DivTwice(n: nat)
    ensures n / 4096 == n / 64 / 64
  {
    var q, r := n / 64, n % 64;
    var q', r' := q / 64, q % 64;
    assert n == 4096 * q' + (64 * r' + r);
  }

  lemma DivThrice(n: nat)
    ensures n / 262144 == n / 4096 / 64
  {
    var q, r := n / 4096, n % 4096;
    var q', r' := q / 64, q % 64;
    assert n == 262144 * q' + (4096 * r' + r);
  }

  lemma Sextets(n: nat)
    ensures n / 64 * 64 + n % 64 == n
    ensures (n / 4096 * 64 + n / 64 % 64) * 64 + n % 64 == n
    ensures ((n / 262144 * 64 + n / 4096 % 64) * 64 + n / 64 % 64) * 64 + n % 64 == n
  {
    DivTwice(n);
    DivThrice(n);
    var a, b := n / 64, n / 4096;
    assert b * 64 + a % 64 == a;
    assert b / 64 * 64 + b % 64 == b;
  }

  function Tail(n: nat, len: nat): seq<Byte>
    requires len <= 3
  {
    if len == 0 then []
    else if len == 1 then [0x80 + n % 64]
    else if len == 2 then [0x80 + n / 64 % 64, 0x80 + n % 64]
    else [0x80 + n / 4096 % 64, 0x80 + n / 64 % 64, 0x80 + n % 64]
  }

  lemma FoldTail(n: nat)
    ensures Fold(Tail(n, 0), n) == n
    ensures Fold(Tail(n, 1), n / 64) == n
    ensures Fold(Tail(n, 2), n / 4096) == n
    ensures Fold(Tail(n, 3), n / 262144) == n
  {
    Sextets(n);
    FoldOne(0x80 + n % 64, n / 64);
    FoldTwo(0x80 + n / 64 % 64, 0x80 + n % 64, n / 4096);
    FoldThree(0x80 + n / 4096 % 64, 0x80 + n / 64 % 64, 0x80 + n % 64, n / 262144);
  }

  /** UTF-8 is prefix-free: the first byte tells the length, and the bits come back. */
  lemma Utf8Back(c: char)
    ensures |Utf8(c)| >= 1
    ensures Lead(Utf8(c)[0]).Some? && Lead(Utf8(c)[0]).value.0 == |Utf8(c)| - 1
    ensures forall k :: 1 <= k < |Utf8(c)| ==> 0x80 <= Utf8(c)[k] < 0xC0
    ensures Fold(Utf8(c)[1..], Lead(Utf8(c)[0]).value.1) == c as int
  {
    Utf8Lead(c);
    FoldTail(c as int);
    assert Utf8(c)[1..] == Tail(c as int, |Utf8(c)| - 1);
  }

  lemma FrontCharBack(style: Style, c: char, rest: string)
    ensures |EscapeChar(style, c)| >= 1
    ensures FrontChar(EscapeChar(style, c) + rest) == Some((c, |EscapeChar(style, c)|))
  {
    if !Plain(style, c) {
      var bs := Utf8(c);
      Utf8Back(c);
      PercentLength(bs);
      assert PercentBytes(bs) + rest == PercentByte(bs[0]) + (PercentBytes(bs[1..]) + rest);
      FrontByteBack(bs[0], PercentBytes(bs[1..]) + rest);
      ContinueBack(bs[1..], rest, Lead(bs[0]).value.1, |bs| - 1);
    }
  }

  /** Escaping loses nothing. */
  lemma {:induction false} UnescapeEscape(style: Style, s: string)
    ensures Unescape(Escape(style, s)) == Some(s)
  {
    if s != [] {
      var head, tail := EscapeChar(style, s[0]), Escape(style, s[1..]);
      FrontCharBack(style, s[0], tail);
      UnescapeEscape(style, s[1..]);
      assert Escape(style, s) == head + tail;
      assert (head + tail)[|head|..] == tail;
      assert [s[0]] + s[1..] == s;
    }
  }

  /** What escaped text is made of. */
  predicate Encoded(style: Style, c: char) {
    Plain(style, c) || c == '%'
  }

  lemma {:induction false} PercentEncoded(style: Style, bs: seq<Byte>)
    ensures forall c :: c in PercentBytes(bs) ==> Encoded(style, c)
  {
    if bs != [] {
      PercentEncoded(style, bs[1..]);
    }
  }

  lemma {:induction false} EscapeEncoded(style: Style, s: string)
    ensures forall c :: c in Escape(style, s) ==> Encoded(style, c)
    ensures Escape(style, s) == [] <==> s == []
  {
    if s != [] {
      EscapeEncoded(style, s[1..]);
      PercentEncoded(style, Utf8(s[0]));
      FrontCharBack(style, s[0], []);
    }
  }

  predicate UpperHex(c: char) {
    '0' <= c <= '9' || 'A' <= c <= 'F'
  }

  /** Characters left alone, and triplets of '%' and two hexadecimal digits in capitals. */
  predicate Triplets(style: Style, s: string) {
    || s == ""
    || (Plain(style, s[0]) && Triplets(style, s[1..]))
    || (|s| >= 3 && s[0] == '%' && UpperHex(s[1]) && UpperHex(s[2]) && Triplets(style, s[3..]))
  }

  lemma {:induction false} PercentTriplets(style: Style, bs: seq<Byte>, rest: string)
    requires Triplets(style, rest)
    ensures Triplets(style, PercentBytes(bs) + rest)
  {
    if bs == [] {
      assert PercentBytes(bs) + rest == rest;
    } else {
      PercentTriplets(style, bs[1..], rest);
      FrontByteBack(bs[0], PercentBytes(bs[1..]) + rest);
      var s := PercentByte(bs[0]) + (PercentBytes(bs[1..]) + rest);
      assert s[3..] == PercentBytes(bs[1..]) + rest;
      assert PercentBytes(bs) + rest == s;
    }
  }

  /** Escaped text has no other '%'. */
  lemma {:induction false} EscapeTriplets(style: Style, s: string)
    ensures Triplets(style, Escape(style, s))
  {
    if s != [] {
      var tail := Escape(style, s[1..]);
      EscapeTriplets(style, s[1..]);
      if Plain(style, s[0]) {
        assert ([s[0]] + tail)[1..] == tail;
      } else {
        PercentTriplets(style, Utf8(s[0]), tail);
      }
    }
  }

  /** Escaped text reads back and contains nothing that separates the parts of a URI. */
  lemma EscapeIsBare(style: Style, s: string)
    ensures forall c :: c in Escape(style, s) ==> c !in {'@', ':', '/', '?', '#'}
    ensures Unescape(Escape(style, s)) == Some(s)
    ensures Escape(style, s) == "" <==> s == ""
  {
    EscapeEncoded(style, s);
    UnescapeEscape(style, s);
  }

  lemma {:induction false} EscapePlain(style: Style, s: string)
    requires forall c :: c in s ==> Plain(style, c)
    ensures Escape(style, s) == s
  {
    if s != [] {
      EscapePlain(style, s[1..]);
      assert s[0] in s;
      assert [s[0]] + s[1..] == s;
    }
  }

  /** Text without '%' is decoded as it stands. */
  lemma {:induction false} UnescapePlain(s: string)
    requires '%' !in s
    ensures Unescape(s) == Some(s)
  {
    if s != [] {
      UnescapePlain(s[1..]);
      assert [s[0]] + s[1..] == s;
    }
  }

  /** A hexadecimal digit can be read in capitals or not, and nothing else is one. */
  lemma HexValueIff(c: char, v: nat)
    ensures HexValue(c) == Some(v)
      <==> || (v < 10 && c as int == '0' as int + v)
           || (10 <= v < 16 && (c as int == 'A' as int + v - 10 || c as int == 'a' as int + v - 10))
  {
  }

  // ---------------------------------------------------------------- decimal numbers

  predicate IsDigit(c: char) {
    '0' <= c <= '9'
  }

  function Digits(n: nat): (s: string)
    ensures s != [] && forall c :: c in s ==> IsDigit(c)
  {
    (if n < 10 then [] else Digits(n / 10)) + [('0' as int + n % 10) as char]
  }

  function Decimal(n: int): string {
    if n < 0 then ['-'] + Digits(-n) else Digits(n)
  }

  function Number(s: string): nat
    requires forall c :: c in s ==> IsDigit(c)
  {
    if s == [] then 0
    else
      var c := s[|s| - 1];
      assert c in s && IsDigit(c);
      Number(s[..|s| - 1]) * 10 + (c as int - '0' as int)
  }

  predicate AllDigits(s: string) {
    s != [] && forall c :: c in s ==> IsDigit(c)
  }

  /** `str::parse::<i64>`: an optional sign and digits, in range. */
  function ParseI64(s: string): Option<int> {
    var negative := s != [] && s[0] == '-';
    var body := if s != [] && (s[0] == '-' || s[0] == '+') then s[1..] else s;
    if !AllDigits(body) then None
    else
      var n: int := if negative then 0 - Number(body) else Number(body);
      if -0x8000_0000_0000_0000 <= n < 0x8000_0000_0000_0000 then Some(n) else None
  }

  lemma {:induction false} NumberBack(n: nat)
    ensures Number(Digits(n)) == n
  {
    var s := Digits(n);
    if n >= 10 {
      NumberBack(n / 10);
      assert s[..|s| - 1] == Digits(n / 10);
    } else {
      assert s[..|s| - 1] == [];
    }
  }

  lemma PositiveBack(n: nat)
    requires n < 0x8000_0000_0000_0000
    ensures ParseI64(Digits(n)) == Some(n)
  {
    NumberBack(n);
    assert Digits(n)[0] in Digits(n) && IsDigit(Digits(n)[0]);
  }

  lemma NegativeBack(n: nat, s: string)
    requires n <= 0x8000_0000_0000_0000 && s == ['-'] + Digits(n)
    ensures ParseI64(s) == Some(0 - n)
  {
    NumberBack(n);
    assert s[1..] == Digits(n) && s[0] == '-';
  }

  lemma DecimalBack(n: int)
    requires -0x8000_0000_0000_0000 <= n < 0x8000_0000_0000_0000
    ensures ParseI64(Decimal(n)) == Some(n)
    ensures forall c :: c in Decimal(n) ==> IsDigit(c) || c == '-'
  {
    if n < 0 {
      NegativeBack(-n, Decimal(n));
    } else {
      PositiveBack(n);
    }
  }

  /** A sign '+' and zeros in front make no difference. */
  lemma {:induction false} ZeroInFront(s: string)
    requires AllDigits(s)
    ensures AllDigits(['0'] + s) && Number(['0'] + s) == Number(s)
  {
    var z := ['0'] + s;
    assert z[..|z| - 1] == ['0'] + s[..|s| - 1] && z[|z| - 1] == s[|s| - 1];
    if |s| > 1 {
      assert forall c :: c in s[..|s| - 1] ==> c in s;
      ZeroInFront(s[..|s| - 1]);
    } else {
      assert Number(['0'][..0]) == 0 && z[..1] == ['0'];
    }
  }

  lemma SignInFront(s: string)
    requires AllDigits(s)
    ensures ParseI64("+" + s) == ParseI64(s)
  {
    assert ("+" + s)[1..] == s && IsDigit(s[0]);
  }

  /** A number has no zeros in front of it in print. */
  lemma {:induction false} DigitsCanonical(n: nat)
    ensures n > 0 ==> Digits(n)[0] != '0'
    ensures n < 10 <==> |Digits(n)| == 1
  {
    if n >= 10 {
      DigitsCanonical(n / 10);
    }
  }

  /** Text with anything else in it is no number, and neither is empty text. */
  lemma NoNumber(s: string, k: nat)
    requires s == "" || (k < |s| && !IsDigit(s[k]) && (k > 0 || s[k] !in {'+', '-'}))
    ensures ParseI64(s).None?
  {
    if s != "" {
      var body := if s[0] == '-' || s[0] == '+' then s[1..] else s;
      assert s[k] == body[if s[0] == '-' || s[0] == '+' then k - 1 else k];
    }
  }
}
