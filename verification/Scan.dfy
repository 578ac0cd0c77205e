/** Finding a character in a string from either end. */
module Scan {
  import opened Wrappers

  function First(s: string, c: char): (r: Option<nat>)
    ensures r.Some? ==> r.value < |s| && s[r.value] == c
  {
    if s == [] then None
    else if s[0] == c then Some(0)
    else
      var k := First(s[1..], c);
      if k.None? then None else Some(k.value + 1)
  }

  function Last(s: string, c: char): (r: Option<nat>)
    ensures r.Some? ==> r.value < |s| && s[r.value] == c
  {
    if s == [] then None
    else if s[|s| - 1] == c then Some(|s| - 1)
    else Last(s[..|s| - 1], c)
  }

  lemma SameTail(prefix: string, a: string, b: string)
    requires prefix + a == prefix + b
    ensures a == b
  {
    assert (prefix + a)[|prefix|..] == a && (prefix + b)[|prefix|..] == b;
  }

  lemma {:induction false} FirstAt(pre: string, c: char, post: string)
    requires c !in pre
    ensures First(pre + [c] + post, c) == Some(|pre|)
  {
    if pre == [] {
      assert ([c] + post)[0] == c;
      assert pre + [c] + post == [c] + post;
    } else {
      FirstAt(pre[1..], c, post);
      assert (pre + [c] + post)[1..] == pre[1..] + [c] + post;
    }
  }

  lemma {:induction false} FirstNone(s: string, c: char)
    requires c !in s
    ensures First(s, c) == None
  {
    if s != [] {
      FirstNone(s[1..], c);
    }
  }

  lemma {:induction false} FirstEarly(s: string, c: char, post: string)
    requires c in s
    ensures First(s + post, c).Some? && First(s + post, c).value < |s|
  {
    if s[0] != c {
      FirstEarly(s[1..], c, post);
      assert (s + post)[1..] == s[1..] + post;
    }
  }

  lemma {:induction false} LastAt(pre: string, c: char, post: string)
    requires c !in post
    ensures Last(pre + [c] + post, c) == Some(|pre|)
  {
    var s := pre + [c] + post;
    if post == [] {
      assert s == pre + [c];
    } else {
      LastAt(pre, c, post[..|post| - 1]);
      assert s[..|s| - 1] == pre + [c] + post[..|post| - 1];
    }
  }

  lemma {:induction false} LastNone(s: string, c: char)
    requires c !in s
    ensures Last(s, c) == None
  {
    if s != [] {
      LastNone(s[..|s| - 1], c);
    }
  }

  /** The text between the separators. */
  function Fields(s: string, c: char): seq<string> {
    var k := First(s, c);
    if k.None? then [s] else [s[..k.value]] + Fields(s[k.value + 1..], c)
  }

  lemma {:induction false} FirstClear(s: string, c: char)
    ensures First(s, c).Some? ==> c !in s[..First(s, c).value]
    ensures First(s, c).None? ==> c !in s
  {
    if s != [] && s[0] != c {
      FirstClear(s[1..], c);
      var k := First(s[1..], c);
      if k.Some? {
        assert s[..k.value + 1] == [s[0]] + s[1..][..k.value];
      } else {
        assert s == [s[0]] + s[1..];
      }
    }
  }

  lemma {:induction false} LastClear(s: string, c: char)
    ensures Last(s, c).Some? ==> c !in s[Last(s, c).value + 1..]
    ensures Last(s, c).None? ==> c !in s
  {
    if s != [] && s[|s| - 1] != c {
      var init := s[..|s| - 1];
      LastClear(init, c);
      assert s == init + [s[|s| - 1]];
      var k := Last(init, c);
      if k.Some? {
        assert s[k.value + 1..] == init[k.value + 1..] + [s[|s| - 1]];
      }
    }
  }

  /** A field has no separator, and only characters of the text. */
  lemma {:induction false} FieldsClear(s: string, c: char, f: string)
    requires f in Fields(s, c)
    ensures c !in f && forall x :: x in f ==> x in s
  {
    var k := First(s, c);
    FirstClear(s, c);
    if k.Some? && f != s[..k.value] {
      FieldsClear(s[k.value + 1..], c, f);
    }
  }
}
