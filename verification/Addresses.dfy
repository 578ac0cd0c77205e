/** IPv6 addresses in the host of a URL (section 3.5 of the WHATWG URL Standard): the parser, and
    the serializer, which prints the first longest run of zeros as "::". */
module Addresses {
  import opened Wrappers
  import opened Percent
  import opened Scan

  // ---------------------------------------------------------------- parsing

  function HexNumber(s: string): Option<nat> {
    if s == [] then Some(0)
    else
      var high, low := HexNumber(s[..|s| - 1]), HexValue(s[|s| - 1]);
      if high.None? || low.None? then None else Some(high.value * 16 + low.value)
  }

  function HexPiece(s: string): Option<nat> {
    if 1 <= |s| <= 4 then HexNumber(s) else None
  }

  function Octet(s: string): Option<nat> {
    if !AllDigits(s) || (|s| > 1 && s[0] == '0') || Number(s) > 255 then None else Some(Number(s))
  }

  /** An IPv4 address stands for two pieces. */
  function DottedPieces(s: string): Option<seq<nat>> {
    var f := Fields(s, '.');
    if |f| != 4 then None
    else
      var a, b, c, d := Octet(f[0]), Octet(f[1]), Octet(f[2]), Octet(f[3]);
      if a.None? || b.None? || c.None? || d.None? then None
      else Some([a.value * 256 + b.value, c.value * 256 + d.value])
  }

  /** `dotted` allows an IPv4 address as the last field. */
  function Pieces(fields: seq<string>, dotted: bool): Option<seq<nat>> {
    if fields == [] then Some([])
    else if dotted && |fields| == 1 && '.' in fields[0] then DottedPieces(fields[0])
    else
      var head, tail := HexPiece(fields[0]), Pieces(fields[1..], dotted);
      if head.None? || tail.None? then None else Some([head.value] + tail.value)
  }

  /** The pieces of one side of a "::". */
  function Side(s: string, dotted: bool): Option<seq<nat>> {
    if s == "" then Some([]) else Pieces(Fields(s, ':'), dotted)
  }

  function DoubleColon(s: string): Option<nat> {
    if |s| < 2 then None
    else if s[0] == ':' && s[1] == ':' then Some(0)
    else
      var k := DoubleColon(s[1..]);
      if k.None? then None else Some(k.value + 1)
  }

  lemma {:induction false} DoubleColonFits(s: string)
    ensures DoubleColon(s).Some? ==> DoubleColon(s).value + 2 <= |s|
  {
    if |s| >= 2 {
      DoubleColonFits(s[1..]);
    }
  }

  /** Both sides of a "::", which stands for one zero at least. */
  function BothSides(x: string, y: string): Option<seq<nat>> {
    var left, right := Side(x, false), Side(y, true);
    if left.None? || right.None? || |left.value| + |right.value| > 7 then None
    else Some(left.value + Nils(8 - |left.value| - |right.value|) + right.value)
  }

  function Whole(s: string): Option<seq<nat>> {
    var v := Pieces(Fields(s, ':'), true);
    if v.None? || |v.value| != 8 then None else v
  }

  function ParseAddress(s: string): Option<seq<nat>> {
    var k := DoubleColon(s);
    if k.None? then Whole(s)
    else
      DoubleColonFits(s);
      BothSides(s[..k.value], s[k.value + 2..])
  }

  function Nils(n: nat): seq<nat> {
    seq(n, k => 0)
  }

  // ---------------------------------------------------------------- printing

  function LowHex(v: nat): char
    requires v < 16
  {
    if v < 10 then ('0' as int + v) as char else ('a' as int + v - 10) as char
  }

  function Hex(n: nat): (s: string)
    ensures s != []
  {
    (if n < 16 then [] else Hex(n / 16)) + [LowHex(n % 16)]
  }

  function Groups(v: seq<nat>): seq<string> {
    if v == [] then [] else [Hex(v[0])] + Groups(v[1..])
  }

  function Join(groups: seq<string>): string {
    if groups == [] then "" else if |groups| == 1 then groups[0] else groups[0] + (":" + Join(groups[1..]))
  }

  function LeadingZeros(v: seq<nat>): (n: nat)
    ensures n <= |v| && v[..n] == Nils(n)
  {
    if v == [] || v[0] != 0 then 0 else 1 + LeadingZeros(v[1..])
  }

  /** Where the first longest run of zeros begins, and its length. */
  function Longest(v: seq<nat>): (r: (nat, nat))
    ensures r.0 + r.1 <= |v| && v[r.0..r.0 + r.1] == Nils(r.1)
  {
    if v == [] then (0, 0)
    else
      var here, later := LeadingZeros(v), Longest(v[1..]);
      if here >= later.1 then (0, here) else (later.0 + 1, later.1)
  }

  function Shortened(left: seq<nat>, right: seq<nat>): string {
    Join(Groups(left)) + ("::" + Join(Groups(right)))
  }

  function PrintAddress(v: seq<nat>): string {
    var run := Longest(v);
    if run.1 < 2 then Join(Groups(v)) else Shortened(v[..run.0], v[run.0 + run.1..])
  }

  // ---------------------------------------------------------------- what is printed

  predicate InAddress(c: char) {
    '0' <= c <= '9' || 'a' <= c <= 'f' || c == ':'
  }

  predicate AllInAddress(s: string) {
    forall c :: c in s ==> InAddress(c)
  }

  lemma {:induction false} HexChars(n: nat)
    ensures forall c :: c in Hex(n) ==> InAddress(c) && c != ':'
  {
    if n >= 16 {
      HexChars(n / 16);
    }
  }

  lemma {:induction false} JoinChars(v: seq<nat>)
    ensures AllInAddress(Join(Groups(v)))
  {
    if v != [] {
      HexChars(v[0]);
      JoinChars(v[1..]);
      assert Groups(v)[1..] == Groups(v[1..]);
    }
  }

  lemma BothChars(x: string, y: string)
    requires AllInAddress(x) && AllInAddress(y)
    ensures AllInAddress(x + ("::" + y))
  {
  }

  lemma PrintChars(v: seq<nat>)
    ensures AllInAddress(PrintAddress(v))
  {
    var run := Longest(v);
    if run.1 < 2 {
      JoinChars(v);
    } else {
      PrintShortened(v, run);
      ShortChars(v[..run.0], v[run.0 + run.1..]);
    }
  }

  lemma PrintShortened(v: seq<nat>, run: (nat, nat))
    requires run == Longest(v) && run.1 >= 2
    ensures PrintAddress(v) == Shortened(v[..run.0], v[run.0 + run.1..])
  {
  }

  lemma ShortChars(left: seq<nat>, right: seq<nat>)
    ensures AllInAddress(Shortened(left, right))
  {
    JoinChars(left);
    JoinChars(right);
    BothChars(Join(Groups(left)), Join(Groups(right)));
  }

  // ---------------------------------------------------------------- the round trip

  lemma {:induction false} HexNumberBack(n: nat)
    ensures HexNumber(Hex(n)) == Some(n)
  {
    var s := Hex(n);
    if n >= 16 {
      HexNumberBack(n / 16);
      assert s[..|s| - 1] == Hex(n / 16);
    } else {
      assert s[..|s| - 1] == [];
    }
  }

  lemma HexLength(n: nat)
    requires n < 65536
    ensures |Hex(n)| <= 4
  {
    assert |Hex(n / 4096)| == 1;
    assert n >= 16 ==> |Hex(n)| == |Hex(n / 16)| + 1;
    assert n >= 256 ==> |Hex(n / 16)| == |Hex(n / 16 / 16)| + 1;
    assert n >= 4096 ==> |Hex(n / 16 / 16)| == |Hex(n / 16 / 16 / 16)| + 1;
  }

  predicate AllPieces(v: seq<nat>) {
    forall k :: 0 <= k < |v| ==> v[k] < 65536
  }

  lemma PieceBack(n: nat)
    requires n < 65536
    ensures HexPiece(Hex(n)) == Some(n) && '.' !in Hex(n)
  {
    HexNumberBack(n);
    HexLength(n);
    HexChars(n);
  }

  lemma OnePiece(fields: seq<string>, dotted: bool, n: nat, tail: seq<nat>)
    requires fields != [] && HexPiece(fields[0]) == Some(n) && '.' !in fields[0]
    requires Pieces(fields[1..], dotted) == Some(tail)
    ensures Pieces(fields, dotted) == Some([n] + tail)
  {
  }

  lemma {:induction false} PiecesBack(v: seq<nat>, dotted: bool)
    requires AllPieces(v)
    ensures Pieces(Groups(v), dotted) == Some(v)
  {
    if v != [] {
      PieceBack(v[0]);
      PiecesBack(v[1..], dotted);
      assert Groups(v)[1..] == Groups(v[1..]);
      OnePiece(Groups(v), dotted, v[0], v[1..]);
      assert [v[0]] + v[1..] == v;
    }
  }

  lemma HeadOfFields(head: string, rest: string)
    requires ':' !in head
    ensures Fields(head + (":" + rest), ':') == [head] + Fields(rest, ':')
  {
    var s := head + (":" + rest);
    FirstAt(head, ':', rest);
    assert s == head + [':'] + rest;
    assert s[..|head|] == head && s[|head| + 1..] == rest;
  }

  lemma {:induction false} FieldsOfJoin(v: seq<nat>)
    requires v != []
    ensures Fields(Join(Groups(v)), ':') == Groups(v)
  {
    HexChars(v[0]);
    assert Groups(v)[1..] == Groups(v[1..]);
    if |v| == 1 {
      FirstNone(Hex(v[0]), ':');
    } else {
      FieldsOfJoin(v[1..]);
      HeadOfFields(Hex(v[0]), Join(Groups(v[1..])));
    }
  }

  lemma SideBack(v: seq<nat>, dotted: bool)
    requires AllPieces(v)
    ensures Side(Join(Groups(v)), dotted) == Some(v)
    ensures Join(Groups(v)) == "" <==> v == []
  {
    PiecesBack(v, dotted);
    if v != [] {
      FieldsOfJoin(v);
      assert Groups(v) != [] && Groups(v)[0] == Hex(v[0]);
    }
  }

  /** No "::" in the text, and no ':' at either end. */
  predicate Tight(s: string) {
    DoubleColon(s).None? && (s != "" ==> s[0] != ':' && s[|s| - 1] != ':')
  }

  lemma {:induction false} NoColon(s: string)
    requires ':' !in s
    ensures Tight(s)
  {
    if |s| >= 2 {
      NoColon(s[1..]);
    }
  }

  lemma {:induction false} TightJoins(x: string, y: string)
    requires Tight(x) && Tight(y) && x != "" && y != ""
    ensures Tight(x + (":" + y))
    decreases |x|
  {
    var s := x + (":" + y);
    assert s[|s| - 1] == y[|y| - 1];
    if |x| == 1 {
      assert s[1..] == ":" + y && s[2..] == y;
      assert (":" + y)[1..] == y;
    } else if |x| >= 2 {
      assert s[1..] == x[1..] + (":" + y);
      if x[1] == ':' {
        assert |x| > 2;
      }
      DoubleShift(x, y);
    }
  }

  /** A "::" in the joined text would be in one of its parts. */
  lemma {:induction false} DoubleShift(x: string, y: string)
    requires DoubleColon(x).None? && DoubleColon(y).None? && x != "" && x[|x| - 1] != ':' && (y != "" ==> y[0] != ':')
    ensures DoubleColon(x + (":" + y)).None?
    decreases |x|
  {
    var s := x + (":" + y);
    if |x| == 1 {
      assert s[1..] == ":" + y && (":" + y)[1..] == y;
    } else {
      assert s[1..] == x[1..] + (":" + y);
      DoubleShift(x[1..], y);
    }
  }

  lemma {:induction false} JoinTight(v: seq<nat>)
    ensures Tight(Join(Groups(v)))
  {
    if v != [] {
      HexChars(v[0]);
      NoColon(Hex(v[0]));
      JoinTight(v[1..]);
      assert Groups(v)[1..] == Groups(v[1..]);
      if |v| > 1 {
        assert Groups(v[1..])[0] == Hex(v[1]);
        TightJoins(Hex(v[0]), Join(Groups(v[1..])));
      }
    }
  }

  lemma {:induction false} DoubleColonAt(x: string, y: string)
    requires DoubleColon(x).None? && (x != "" ==> x[|x| - 1] != ':')
    ensures DoubleColon(x + ("::" + y)) == Some(|x|)
  {
    var s := x + ("::" + y);
    if x == "" {
      assert s[0] == ':' && s[1] == ':';
    } else {
      assert s[1..] == x[1..] + ("::" + y);
      DoubleColonAt(x[1..], y);
    }
  }

  lemma PlainBack(v: seq<nat>)
    requires |v| == 8 && AllPieces(v)
    ensures ParseAddress(Join(Groups(v))) == Some(v)
  {
    JoinTight(v);
    FieldsOfJoin(v);
    PiecesBack(v, true);
  }

  lemma SidesAre(x: string, y: string, left: seq<nat>, right: seq<nat>)
    requires Side(x, false) == Some(left) && Side(y, true) == Some(right) && |left| + |right| <= 7
    ensures BothSides(x, y) == Some(left + Nils(8 - |left| - |right|) + right)
  {
  }

  lemma Regrouped(v: seq<nat>, at: nat, n: nat)
    requires |v| == 8 && at + n <= 8 && v[at..at + n] == Nils(n)
    ensures v[..at] + Nils(8 - |v[..at]| - |v[at + n..]|) + v[at + n..] == v
  {
    assert v == v[..at] + v[at..at + n] + v[at + n..];
  }

  lemma CutsAtDouble(x: string, y: string)
    requires Tight(x)
    ensures ParseAddress(x + ("::" + y)) == BothSides(x, y)
  {
    var s := x + ("::" + y);
    DoubleColonAt(x, y);
    assert s[..|x|] == x && s[|x| + 2..] == y;
  }

  lemma ShortBack(v: seq<nat>, at: nat, n: nat)
    requires |v| == 8 && AllPieces(v) && n > 0 && at + n <= 8 && v[at..at + n] == Nils(n)
    ensures ParseAddress(Shortened(v[..at], v[at + n..])) == Some(v)
  {
    var left, right := v[..at], v[at + n..];
    JoinTight(left);
    SideBack(left, false);
    SideBack(right, true);
    TextsBack(Join(Groups(left)), Join(Groups(right)), v, at, n);
  }

  lemma TextsBack(x: string, y: string, v: seq<nat>, at: nat, n: nat)
    requires |v| == 8 && n > 0 && at + n <= 8 && v[at..at + n] == Nils(n)
    requires Tight(x) && Side(x, false) == Some(v[..at]) && Side(y, true) == Some(v[at + n..])
    ensures ParseAddress(x + ("::" + y)) == Some(v)
  {
    CutsAtDouble(x, y);
    SidesAre(x, y, v[..at], v[at + n..]);
    Regrouped(v, at, n);
  }

  lemma RunBack(v: seq<nat>, run: (nat, nat))
    requires |v| == 8 && AllPieces(v) && run == Longest(v) && run.1 >= 2
    ensures ParseAddress(PrintAddress(v)) == Some(v)
  {
    ShortBack(v, run.0, run.1);
  }

  /** Every address reads back from its print. */
  lemma AddressBack(v: seq<nat>)
    requires |v| == 8 && AllPieces(v)
    ensures ParseAddress(PrintAddress(v)) == Some(v)
  {
    var run := Longest(v);
    if run.1 < 2 {
      PlainBack(v);
    } else {
      RunBack(v, run);
    }
  }

  // ---------------------------------------------------------------- what is shortened, what is read

  lemma {:induction false} LeadingZerosMost(v: seq<nat>, n: nat)
    requires n <= |v| && forall k :: 0 <= k < n ==> v[k] == 0
    ensures n <= LeadingZeros(v)
  {
    if n > 0 {
      assert forall k :: 0 <= k < n - 1 ==> v[1..][k] == v[k + 1];
      LeadingZerosMost(v[1..], n - 1);
    }
  }

  /** The run that "::" stands for is the longest, and the first of those. */
  lemma {:induction false} LongestIsFirst(v: seq<nat>, at: nat, n: nat)
    requires at + n <= |v| && forall k :: at <= k < at + n ==> v[k] == 0
    ensures n <= Longest(v).1
    ensures n == Longest(v).1 && at < |v| ==> Longest(v).0 <= at
  {
    if v != [] {
      if at == 0 {
        LeadingZerosMost(v, n);
      } else {
        assert forall k :: at - 1 <= k < at - 1 + n ==> v[1..][k] == v[k + 1];
        LongestIsFirst(v[1..], at - 1, n);
      }
    }
  }

  /** Pieces are printed without zeros in front. */
  lemma {:induction false} HexCanonical(n: nat)
    ensures n > 0 ==> Hex(n)[0] != '0'
    ensures n < 16 <==> |Hex(n)| == 1
  {
    if n >= 16 {
      HexCanonical(n / 16);
    }
  }

  function Power16(k: nat): nat {
    if k == 0 then 1 else 16 * Power16(k - 1)
  }

  lemma {:induction false} HexNumberBounded(s: string)
    ensures HexNumber(s).Some? ==> HexNumber(s).value < Power16(|s|)
  {
    if s != [] {
      HexNumberBounded(s[..|s| - 1]);
    }
  }

  lemma HexPieceBounded(s: string)
    ensures HexPiece(s).Some? ==> HexPiece(s).value < 65536
  {
    HexNumberBounded(s);
    assert Power16(2) == 256 && Power16(3) == 4096 && Power16(4) == 65536;
  }

  lemma {:induction false} PiecesBounded(fields: seq<string>, dotted: bool)
    ensures Pieces(fields, dotted).Some? ==> AllPieces(Pieces(fields, dotted).value)
  {
    if fields != [] && !(dotted && |fields| == 1 && '.' in fields[0]) {
      HexPieceBounded(fields[0]);
      PiecesBounded(fields[1..], dotted);
    }
  }

  lemma SidesBounded(x: string, y: string)
    ensures BothSides(x, y).Some? ==> |BothSides(x, y).value| == 8 && AllPieces(BothSides(x, y).value)
  {
    PiecesBounded(Fields(x, ':'), false);
    PiecesBounded(Fields(y, ':'), true);
  }

  /** Whatever the text, an address that is read is eight pieces of 16 bits, and its print is read as
      the same one. */
  lemma ParsedAddress(s: string)
    requires ParseAddress(s).Some?
    ensures
      var v := ParseAddress(s).value;
      |v| == 8 && AllPieces(v) && ParseAddress(PrintAddress(v)) == Some(v)
  {
    var k := DoubleColon(s);
    if k.None? {
      PiecesBounded(Fields(s, ':'), true);
    } else {
      DoubleColonFits(s);
      SidesBounded(s[..k.value], s[k.value + 2..]);
    }
    AddressBack(ParseAddress(s).value);
  }

  lemma SidesHaveZero(x: string, y: string)
    requires BothSides(x, y).Some?
    ensures exists k :: 0 <= k < |BothSides(x, y).value| && BothSides(x, y).value[k] == 0
  {
    var left := Side(x, false).value;
    assert BothSides(x, y).value[|left|] == 0;
  }

  /** A "::" stands for one zero at least. */
  lemma CompressedHasZero(s: string)
    requires ParseAddress(s).Some? && DoubleColon(s).Some?
    ensures exists k :: 0 <= k < 8 && ParseAddress(s).value[k] == 0
  {
    var k := DoubleColon(s).value;
    DoubleColonFits(s);
    ParsedAddress(s);
    SidesHaveZero(s[..k], s[k + 2..]);
  }
}
