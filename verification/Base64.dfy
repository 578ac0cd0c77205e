/** `encode_simple`: base64 with the standard alphabet and padding (section 4 of RFC 4648). */
module Base64 {
  import opened Wrappers

  // ---------------------------------------------------------------- the alphabet

  // In pieces short enough for the verifier to count through.
  const TABLE0 := "ABCDEFGHIJKLM"
  const TABLE1 := "NOPQRSTUVWXYZ"
  const TABLE2 := "abcdefghijklm"
  const TABLE3 := "nopqrstuvwxyz"
  const TABLE4 := "0123456789+/"
  const TABLE: string := TABLE0 + TABLE1 + TABLE2 + TABLE3 + TABLE4

  /** The place of a character in the alphabet. */
  function Place(ch: char): Option<nat> {
    if 'A' <= ch <= 'Z' then Some(ch as int - 'A' as int)
    else if 'a' <= ch <= 'z' then Some(ch as int - 'a' as int + 26)
    else if '0' <= ch <= '9' then Some(ch as int - '0' as int + 52)
    else if ch == '+' then Some(62)
    else if ch == '/' then Some(63)
    else None
  }

  lemma FirstPlaces()
    ensures |TABLE0| == 13 && forall i :: 0 <= i < 13 ==> Place(TABLE0[i]) == Some(i)
  {
  }

  lemma SecondPlaces()
    ensures |TABLE1| == 13 && forall i :: 0 <= i < 13 ==> Place(TABLE1[i]) == Some(13 + i)
  {
  }

  lemma ThirdPlaces()
    ensures |TABLE2| == 13 && forall i :: 0 <= i < 13 ==> Place(TABLE2[i]) == Some(26 + i)
  {
  }

  lemma FourthPlaces()
    ensures |TABLE3| == 13 && forall i :: 0 <= i < 13 ==> Place(TABLE3[i]) == Some(39 + i)
  {
  }

  lemma OtherPlaces()
    ensures |TABLE4| == 12 && forall i :: 0 <= i < 12 ==> Place(TABLE4[i]) == Some(52 + i)
  {
  }

  lemma PlaceOfIndex(i: nat)
    requires i < 64
    ensures i < |TABLE| && Place(TABLE[i]) == Some(i)
  {
    FirstPlaces();
    SecondPlaces();
    ThirdPlaces();
    FourthPlaces();
    OtherPlaces();
  }

  lemma AsIndex(v: bv8)
    requires v < 64
    ensures v as int < 64 && (v as int) as bv8 == v
  {
  }

  /** The digit of a 6-bit group. */
  function Digit(v: bv8): char
    requires v < 64
  {
    AsIndex(v);
    PlaceOfIndex(v as int);
    TABLE[v as int]
  }

  /** The 6-bit group of a digit. */
  function Value(ch: char): Option<bv8> {
    var i := Place(ch);
    if i.None? then None else Some(i.value as bv8)
  }

  lemma ValueOfDigit(v: bv8)
    requires v < 64
    ensures Digit(v) != '=' && Value(Digit(v)) == Some(v)
  {
    AsIndex(v);
    PlaceOfIndex(v as int);
  }

  /** The digits are those of the standard alphabet, in its order. */
  lemma DigitSpelled(v: bv8)
    requires v < 64
    ensures
      var i := v as int;
      Digit(v) as int
      == if i < 26 then 'A' as int + i else if i < 52 then 'a' as int + i - 26
         else if i < 62 then '0' as int + i - 52 else if i == 62 then '+' as int else '/' as int
  {
    AsIndex(v);
    PlaceOfIndex(v as int);
  }

  // ---------------------------------------------------------------- groups

  /** A 6-bit group, or padding. */
  type Group = Option<bv8>

  ghost predicate Small(gs: seq<Group>) {
    forall k :: 0 <= k < |gs| && gs[k].Some? ==> gs[k].value < 64
  }

  /** The four groups of three octets, most significant first. */
  function Split(a: bv8, b: bv8, c: bv8): (bv8, bv8, bv8, bv8) {
    (a >> 2, ((a & 3) << 4) | (b >> 4), ((b & 15) << 2) | (c >> 6), c & 63)
  }

  lemma SplitSmall(a: bv8, b: bv8, c: bv8)
    ensures Split(a, b, c).0 < 64 && Split(a, b, c).1 < 64 && Split(a, b, c).2 < 64 && Split(a, b, c).3 < 64
  {
  }

  function Three(a: bv8, b: bv8, c: bv8): seq<Group> {
    var g := Split(a, b, c);
    [Some(g.0), Some(g.1), Some(g.2), Some(g.3)]
  }

  /** Missing octets count as zero bits, and groups without data are padding. */
  function Two(a: bv8, b: bv8): seq<Group> {
    var g := Split(a, b, 0);
    [Some(g.0), Some(g.1), Some(g.2), None]
  }

  function One(a: bv8): seq<Group> {
    var g := Split(a, 0, 0);
    [Some(g.0), Some(g.1), None, None]
  }

  function Groups(bs: seq<bv8>): seq<Group> {
    if |bs| == 0 then []
    else if |bs| == 1 then One(bs[0])
    else if |bs| == 2 then Two(bs[0], bs[1])
    else Three(bs[0], bs[1], bs[2]) + Groups(bs[3..])
  }

  /** Octets of four groups: one less for each padding. */
  function Octets(g: seq<Group>): Option<seq<bv8>>
    requires |g| == 4
  {
    if g[0].None? || g[1].None? then None
    else if g[2].None? then
      if g[3].None? then Some([(g[0].value << 2) | (g[1].value >> 4)]) else None
    else if g[3].None? then Some([(g[0].value << 2) | (g[1].value >> 4), (g[1].value << 4) | (g[2].value >> 2)])
    else
      Some([(g[0].value << 2) | (g[1].value >> 4), (g[1].value << 4) | (g[2].value >> 2),
        (g[2].value << 6) | g[3].value])
  }

  function AllOctets(gs: seq<Group>): Option<seq<bv8>> {
    if gs == [] then Some([])
    else if |gs| < 4 then None
    else
      var head, tail := Octets(gs[..4]), AllOctets(gs[4..]);
      if head.None? || tail.None? then None else Some(head.value + tail.value)
  }

  lemma SplitBack(a: bv8, b: bv8, c: bv8)
    ensures
      var g := Split(a, b, c);
      && (g.0 << 2) | (g.1 >> 4) == a
      && (g.1 << 4) | (g.2 >> 2) == b
      && (g.2 << 6) | g.3 == c
  {
  }

  lemma OctetsOfThree(a: bv8, b: bv8, c: bv8)
    ensures Octets(Three(a, b, c)) == Some([a, b, c])
  {
    SplitBack(a, b, c);
  }

  lemma OctetsOfTwo(a: bv8, b: bv8)
    ensures Octets(Two(a, b)) == Some([a, b])
  {
    SplitBack(a, b, 0);
  }

  lemma OctetsOfOne(a: bv8)
    ensures Octets(One(a)) == Some([a])
  {
    SplitBack(a, 0, 0);
  }

  lemma OctetsAppend(q: seq<Group>, gs: seq<Group>, head: seq<bv8>, tail: seq<bv8>)
    requires |q| == 4 && Octets(q) == Some(head) && AllOctets(gs) == Some(tail)
    ensures AllOctets(q + gs) == Some(head + tail)
  {
    assert (q + gs)[..4] == q && (q + gs)[4..] == gs;
  }

  lemma {:induction false} OctetsOfGroups(bs: seq<bv8>)
    ensures AllOctets(Groups(bs)) == Some(bs)
  {
    if |bs| == 1 {
      OctetsOfOne(bs[0]);
      OctetsAppend(One(bs[0]), [], [bs[0]], []);
      assert One(bs[0]) + [] == One(bs[0]) && [bs[0]] + [] == bs;
    } else if |bs| == 2 {
      OctetsOfTwo(bs[0], bs[1]);
      OctetsAppend(Two(bs[0], bs[1]), [], [bs[0], bs[1]], []);
      assert Two(bs[0], bs[1]) + [] == Two(bs[0], bs[1]) && [bs[0], bs[1]] + [] == bs;
    } else if |bs| >= 3 {
      OctetsOfGroups(bs[3..]);
      OctetsOfThree(bs[0], bs[1], bs[2]);
      OctetsAppend(Three(bs[0], bs[1], bs[2]), Groups(bs[3..]), [bs[0], bs[1], bs[2]], bs[3..]);
      assert bs == [bs[0], bs[1], bs[2]] + bs[3..];
    }
  }

  /** Padding is at the end, as much as there are octets missing. */
  ghost predicate Padded(gs: seq<Group>, octets: nat) {
    && |gs| == (octets + 2) / 3 * 4
    && forall k :: 0 <= k < |gs| ==>
         (gs[k].None? <==> (octets % 3 == 1 && k >= |gs| - 2) || (octets % 3 == 2 && k == |gs| - 1))
  }

  lemma PaddedMore(front: seq<Group>, gs: seq<Group>, octets: nat)
    requires |front| == 4 && (forall k :: 0 <= k < 4 ==> front[k].Some?) && Padded(gs, octets)
    ensures Padded(front + gs, octets + 3)
  {
    assert (octets + 3 + 2) / 3 == (octets + 2) / 3 + 1 && (octets + 3) % 3 == octets % 3;
  }

  lemma {:induction false} GroupsPadded(bs: seq<bv8>)
    ensures Padded(Groups(bs), |bs|)
  {
    if |bs| >= 3 {
      GroupsPadded(bs[3..]);
      PaddedMore(Three(bs[0], bs[1], bs[2]), Groups(bs[3..]), |bs[3..]|);
    }
  }

  lemma SmallMore(front: seq<Group>, gs: seq<Group>)
    requires Small(front) && Small(gs)
    ensures Small(front + gs)
  {
  }

  lemma {:induction false} GroupsSmall(bs: seq<bv8>)
    ensures Small(Groups(bs))
  {
    if |bs| == 1 {
      SplitSmall(bs[0], 0, 0);
    } else if |bs| == 2 {
      SplitSmall(bs[0], bs[1], 0);
    } else if |bs| >= 3 {
      SplitSmall(bs[0], bs[1], bs[2]);
      GroupsSmall(bs[3..]);
      SmallMore(Three(bs[0], bs[1], bs[2]), Groups(bs[3..]));
    }
  }

  lemma GroupsShape(bs: seq<bv8>)
    ensures Small(Groups(bs)) && Padded(Groups(bs), |bs|)
  {
    GroupsSmall(bs);
    GroupsPadded(bs);
  }

  // ---------------------------------------------------------------- text

  function Letter(g: Group): char
    requires g.Some? ==> g.value < 64
  {
    if g.None? then '=' else Digit(g.value)
  }

  ghost function Spell(gs: seq<Group>): string
    requires Small(gs)
  {
    seq(|gs|, k requires 0 <= k < |gs| => Letter(gs[k]))
  }

  /** The base64 text of an octet string. */
  ghost function Encode(bs: seq<bv8>): string {
    GroupsShape(bs);
    Spell(Groups(bs))
  }

  function Understand(s: string): seq<Group> {
    seq(|s|, k requires 0 <= k < |s| => Value(s[k]))
  }

  /** A decoder that takes every character outside the alphabet for padding. */
  function Decode(s: string): Option<seq<bv8>> {
    AllOctets(Understand(s))
  }

  /** Decoding gives back the input, whatever its length modulo three. */
  lemma DecodeEncode(bs: seq<bv8>)
    ensures Decode(Encode(bs)) == Some(bs)
  {
    var gs := Groups(bs);
    GroupsShape(bs);
    forall k | 0 <= k < |gs| ensures Value(Letter(gs[k])) == gs[k] {
      if gs[k].Some? {
        ValueOfDigit(gs[k].value);
      }
    }
    assert Understand(Spell(gs)) == gs;
    OctetsOfGroups(bs);
  }

  /** Four characters for every three octets begun; one '=' at the end when two octets remain,
      two when one does, and none elsewhere. */
  lemma EncodeShape(bs: seq<bv8>)
    ensures |Encode(bs)| == (|bs| + 2) / 3 * 4
    ensures forall k :: 0 <= k < |Encode(bs)| ==>
      (Encode(bs)[k] == '=' <==> (|bs| % 3 == 1 && k >= |Encode(bs)| - 2) || (|bs| % 3 == 2 && k == |Encode(bs)| - 1))
  {
    var gs := Groups(bs);
    GroupsShape(bs);
    forall k | 0 <= k < |gs| ensures Letter(gs[k]) == '=' <==> gs[k].None? {
      if gs[k].Some? {
        ValueOfDigit(gs[k].value);
      }
    }
  }

  // ---------------------------------------------------------------- the loop

  /** Shifting and masking the 24-bit number takes the same groups. */
  lemma Shifts(a: bv8, b: bv8, c: bv8)
    ensures
      var n := ((a as bv32) << 16) | ((b as bv32) << 8) | (c as bv32);
      var g := Split(a, b, c);
      && (n >> 18) & 0x3f == g.0 as bv32
      && (n >> 12) & 0x3f == g.1 as bv32
      && (n >> 6) & 0x3f == g.2 as bv32
      && n & 0x3f == g.3 as bv32
  {
  }

  lemma WidenIndex(v: bv8, w: bv32)
    requires w == v as bv32 && v < 64
    ensures w as int == v as int && w as int < 64
  {
  }

  /** `s.push(T[w as usize] as char)`. */
  method Push(s: string, w: bv32, ghost v: bv8, ghost gs: seq<Group>) returns (r: string)
    requires w == v as bv32 && v < 64
    requires Small(gs) && s == Spell(gs)
    ensures Small(gs + [Some(v)]) && r == Spell(gs + [Some(v)])
  {
    WidenIndex(v, w);
    PlaceOfIndex(w as int);
    r := s + [TABLE[w as int]];
  }

  method Pad(s: string, ghost gs: seq<Group>) returns (r: string)
    requires Small(gs) && s == Spell(gs)
    ensures Small(gs + [None]) && r == Spell(gs + [None])
  {
    r := s + "=";
  }

  /** Two pushes, of which every quantum has two. */
  method PushPair(s: string, w0: bv32, w1: bv32, ghost v0: bv8, ghost v1: bv8, ghost gs: seq<Group>) returns (r: string)
    requires w0 == v0 as bv32 && v0 < 64 && w1 == v1 as bv32 && v1 < 64
    requires Small(gs) && s == Spell(gs)
    ensures Small(gs + [Some(v0), Some(v1)]) && r == Spell(gs + [Some(v0), Some(v1)])
  {
    r := Push(s, w0, v0, gs);
    r := Push(r, w1, v1, gs + [Some(v0)]);
    assert gs + [Some(v0)] + [Some(v1)] == gs + [Some(v0), Some(v1)];
  }

  /** The loop body. */
  method PushThree(s: string, a: bv8, b: bv8, c: bv8, ghost gs: seq<Group>) returns (r: string)
    requires Small(gs) && s == Spell(gs)
    ensures Small(gs + Three(a, b, c)) && r == Spell(gs + Three(a, b, c))
  {
    var n := ((a as bv32) << 16) | ((b as bv32) << 8) | (c as bv32);
    ghost var g := Split(a, b, c);
    Shifts(a, b, c);
    SplitSmall(a, b, c);
    r := PushPair(s, (n >> 18) & 0x3f, (n >> 12) & 0x3f, g.0, g.1, gs);
    ghost var half := gs + [Some(g.0), Some(g.1)];
    r := PushPair(r, (n >> 6) & 0x3f, n & 0x3f, g.2, g.3, half);
    assert half + [Some(g.2), Some(g.3)] == gs + Three(a, b, c);
  }

  method PushTwo(s: string, a: bv8, b: bv8, ghost gs: seq<Group>) returns (r: string)
    requires Small(gs) && s == Spell(gs)
    ensures Small(gs + Two(a, b)) && r == Spell(gs + Two(a, b))
  {
    var n := ((a as bv32) << 16) | ((b as bv32) << 8);
    ghost var g := Split(a, b, 0);
    Shifts(a, b, 0);
    SplitSmall(a, b, 0);
    r := PushPair(s, (n >> 18) & 0x3f, (n >> 12) & 0x3f, g.0, g.1, gs);
    ghost var half := gs + [Some(g.0), Some(g.1)];
    r := Push(r, (n >> 6) & 0x3f, g.2, half);
    r := Pad(r, half + [Some(g.2)]);
    assert half + [Some(g.2)] + [None] == gs + Two(a, b);
  }

  method PushOne(s: string, a: bv8, ghost gs: seq<Group>) returns (r: string)
    requires Small(gs) && s == Spell(gs)
    ensures Small(gs + One(a)) && r == Spell(gs + One(a))
  {
    var n := (a as bv32) << 16;
    ghost var g := Split(a, 0, 0);
    Shifts(a, 0, 0);
    SplitSmall(a, 0, 0);
    r := PushPair(s, (n >> 18) & 0x3f, (n >> 12) & 0x3f, g.0, g.1, gs);
    ghost var half := gs + [Some(g.0), Some(g.1)];
    r := Pad(r, half);
    r := Pad(r, half + [None]);
    assert half + [None] + [None] == gs + One(a);
  }

  /** The last one or two bytes. */
  method PushRest(s: string, bytes: seq<bv8>, i: nat, ghost gs: seq<Group>) returns (r: string, ghost more: seq<Group>)
    requires i <= |bytes| < i + 3 && Small(gs) && s == Spell(gs)
    ensures Small(more) && r == Spell(more) && more == gs + Groups(bytes[i..])
  {
    r, more := s, gs;
    var rem := |bytes| - i;
    if rem == 1 {
      r := PushOne(s, bytes[i], gs);
      more := gs + One(bytes[i]);
    } else if rem == 2 {
      r := PushTwo(s, bytes[i], bytes[i + 1], gs);
      more := gs + Two(bytes[i], bytes[i + 1]);
    }
  }

  method EncodeSimple(bytes: seq<bv8>) returns (s: string)
    ensures s == Encode(bytes) && Decode(s) == Some(bytes)
  {
    s := "";
    ghost var gs: seq<Group> := [];
    var i := 0;
    assert bytes[0..] == bytes;
    while i + 3 <= |bytes|
      invariant 0 <= i <= |bytes|
      invariant gs + Groups(bytes[i..]) == Groups(bytes)
      invariant Small(gs) && s == Spell(gs)
    {
      s := PushThree(s, bytes[i], bytes[i + 1], bytes[i + 2], gs);
      assert bytes[i..][3..] == bytes[i + 3..];
      gs := gs + Three(bytes[i], bytes[i + 1], bytes[i + 2]);
      i := i + 3;
    }
    s, gs := PushRest(s, bytes, i, gs);
    DecodeEncode(bytes);
  }
}
