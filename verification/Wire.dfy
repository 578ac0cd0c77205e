/** Byte framing of both pipes: one message per line.

    A writer holds the mutex from its first byte to its flush, but the pipe takes its bytes in
    pieces of any size, and a write can fail half way, which releases the mutex and leaves the
    piece behind.  The reader on the other end cuts the stream at newlines. */
module Wire {
  import opened Wrappers

  newtype byte = x: int | 0 <= x < 256

  const NEWLINE: byte := 10

  // ---------------------------------------------------------------- reading

  /** Complete lines, and the bytes after the last newline. */
  datatype Frames = Frames(lines: seq<seq<byte>>, rest: seq<byte>)

  function Feed(f: Frames, b: byte): Frames {
    if b == NEWLINE then Frames(f.lines + [f.rest], []) else f.(rest := f.rest + [b])
  }

  function Split(bs: seq<byte>): Frames {
    if bs == [] then Frames([], []) else Feed(Split(bs[..|bs| - 1]), bs[|bs| - 1])
  }

  function Join(lines: seq<seq<byte>>): seq<byte> {
    if lines == [] then [] else Join(lines[..|lines| - 1]) + lines[|lines| - 1] + [NEWLINE]
  }

  ghost predicate Unbroken(f: Frames) {
    NEWLINE !in f.rest && forall k :: 0 <= k < |f.lines| ==> NEWLINE !in f.lines[k]
  }

  lemma FeedIsExact(f: Frames, b: byte)
    requires Unbroken(f)
    ensures Unbroken(Feed(f, b))
    ensures Join(Feed(f, b).lines) + Feed(f, b).rest == Join(f.lines) + f.rest + [b]
  {
    if b == NEWLINE {
      assert (f.lines + [f.rest])[..|f.lines|] == f.lines;
    }
  }

  /** `Split` only cuts: no byte is lost, and no line contains a newline. */
  lemma {:induction false} SplitIsExact(bs: seq<byte>)
    ensures bs == Join(Split(bs).lines) + Split(bs).rest
    ensures Unbroken(Split(bs))
  {
    if bs == [] {
      assert Join([]) + [] == [];
    } else {
      SplitIsExact(bs[..|bs| - 1]);
      FedIsExact(Split(bs[..|bs| - 1]), bs[..|bs| - 1], bs[|bs| - 1], bs);
    }
  }

  lemma FedIsExact(f: Frames, init: seq<byte>, b: byte, bs: seq<byte>)
    requires Unbroken(f) && init == Join(f.lines) + f.rest && bs == init + [b]
    ensures bs == Join(Feed(f, b).lines) + Feed(f, b).rest && Unbroken(Feed(f, b))
  {
    FeedIsExact(f, b);
  }

  lemma {:induction false} SplitAppend(bs: seq<byte>, m: seq<byte>)
    requires NEWLINE !in m
    ensures Split(bs + m) == Frames(Split(bs).lines, Split(bs).rest + m)
  {
    if m == [] {
      assert bs + m == bs && Split(bs).rest + m == Split(bs).rest;
    } else {
      var init := m[..|m| - 1];
      SplitAppend(bs, init);
      assert (bs + m)[..|bs + m| - 1] == bs + init;
      assert Split(bs).rest + init + [m[|m| - 1]] == Split(bs).rest + m;
    }
  }

  lemma SplitLine(bs: seq<byte>, m: seq<byte>)
    requires NEWLINE !in m
    ensures Split(bs + m + [NEWLINE]) == Frames(Split(bs).lines + [Split(bs).rest + m], [])
  {
    SplitAppend(bs, m);
    assert (bs + m + [NEWLINE])[..|bs + m|] == bs + m;
  }

  /** The reader: takes the stream byte by byte and gives out each line at its newline. */
  method ReadLines(stream: seq<byte>) returns (lines: seq<seq<byte>>, rest: seq<byte>)
    ensures Frames(lines, rest) == Split(stream)
    ensures stream == Join(lines) + rest && NEWLINE !in rest
  {
    lines, rest := [], [];
    var i := 0;
    while i < |stream|
      invariant 0 <= i <= |stream|
      invariant Frames(lines, rest) == Split(stream[..i])
    {
      assert stream[..i + 1][..i] == stream[..i];
      if stream[i] == NEWLINE {
        lines := lines + [rest];
        rest := [];
      } else {
        rest := rest + [stream[i]];
      }
      i := i + 1;
    }
    assert stream[..i] == stream;
    SplitIsExact(stream);
  }

  // ---------------------------------------------------------------- writing

  /** The pipe takes some of the bytes offered, at least one, as the operating system likes;
      `accepts` is its choice for each call. */
  class Pipe {
    var stream: seq<byte>

    constructor ()
      ensures stream == []
    {
      stream := [];
    }

    /** `write_all` of a message and its newline. */
    method WriteLine(text: seq<byte>, accepts: nat -> nat)
      modifies this
      ensures stream == old(stream) + text + [NEWLINE]
      ensures NEWLINE !in text ==>
        Split(stream) == Frames(Split(old(stream)).lines + [Split(old(stream)).rest + text], [])
    {
      var buf := text + [NEWLINE];
      var sent := 0;
      while sent < |buf|
        invariant 0 <= sent <= |buf|
        invariant stream == old(stream) + buf[..sent]
      {
        var n := if 1 <= accepts(sent) <= |buf| - sent then accepts(sent) else 1;
        stream := stream + buf[sent..sent + n];
        assert buf[..sent] + buf[sent..sent + n] == buf[..sent + n];
        sent := sent + n;
      }
      assert stream == old(stream) + text + [NEWLINE];
      if NEWLINE !in text {
        SplitLine(old(stream), text);
      }
    }
  }

  // ---------------------------------------------------------------- many writers, one mutex

  /** A message that went out whole, and the remains of failed writes in front of it. */
  datatype Delivery = Delivery(debris: seq<byte>, text: seq<byte>)

  datatype Holder = Holder(text: seq<byte>, sent: nat)

  /** `done` lists the messages written whole in the order of their locks, `debris` what failed
      writes have left since. */
  datatype State = State(stream: seq<byte>, holder: Option<Holder>, done: seq<Delivery>, debris: seq<byte>)

  function Init(): State {
    State([], None, [], [])
  }

  datatype Event = Lock(text: seq<byte>) | Push(n: nat) | Unlock | Fail

  predicate Enabled(s: State, e: Event) {
    match e
    case Lock(text) => s.holder.None? && NEWLINE !in text
    case Push(n) => s.holder.Some? && s.holder.value.sent + n <= |s.holder.value.text| + 1
    case Unlock => s.holder.Some? && s.holder.value.sent == |s.holder.value.text| + 1
    case Fail => s.holder.Some? && s.holder.value.sent <= |s.holder.value.text|
  }

  function Apply(s: State, e: Event): State
    requires Enabled(s, e)
  {
    match e
    case Lock(text) => s.(holder := Some(Holder(text, 0)))
    case Push(n) =>
      var h := s.holder.value;
      s.(stream := s.stream + (h.text + [NEWLINE])[h.sent..h.sent + n], holder := Some(h.(sent := h.sent + n)))
    case Unlock => s.(holder := None, done := s.done + [Delivery(s.debris, s.holder.value.text)], debris := [])
    case Fail => s.(holder := None, debris := s.debris + s.holder.value.text[..s.holder.value.sent])
  }

  predicate Legal(es: seq<Event>)
    decreases |es|, 0
  {
    es == [] || (Legal(es[..|es| - 1]) && Enabled(After(es[..|es| - 1]), es[|es| - 1]))
  }

  function After(es: seq<Event>): State
    requires Legal(es)
    decreases |es|, 1
  {
    if es == [] then Init() else Apply(After(es[..|es| - 1]), es[|es| - 1])
  }

  /** The lines the deliveries make. */
  function Received(done: seq<Delivery>): seq<seq<byte>> {
    seq(|done|, k requires 0 <= k < |done| => done[k].debris + done[k].text)
  }

  function InFlight(s: State): seq<byte>
    requires s.holder.Some? ==> s.holder.value.sent <= |s.holder.value.text| + 1
  {
    if s.holder.Some? then (s.holder.value.text + [NEWLINE])[..s.holder.value.sent] else []
  }

  ghost predicate Inv(s: State) {
    && (s.holder.Some? ==> s.holder.value.sent <= |s.holder.value.text| + 1 && NEWLINE !in s.holder.value.text)
    && NEWLINE !in s.debris
    && exists base :: Base(s, base)
  }

  /** `base` is the stream as the current mutex holder, if any, found it. */
  ghost predicate Base(s: State, base: seq<byte>)
    requires s.holder.Some? ==> s.holder.value.sent <= |s.holder.value.text| + 1
  {
    s.stream == base + InFlight(s) && Split(base) == Frames(Received(s.done), s.debris)
  }

  lemma PushKeeps(s: State, n: nat, base: seq<byte>)
    requires Enabled(s, Push(n)) && Base(s, base)
    ensures Base(Apply(s, Push(n)), base)
  {
    var h := s.holder.value;
    var buf := h.text + [NEWLINE];
    assert buf[..h.sent] + buf[h.sent..h.sent + n] == buf[..h.sent + n];
    assert base + buf[..h.sent] + buf[h.sent..h.sent + n] == base + buf[..h.sent + n];
  }

  lemma ReceivedMore(done: seq<Delivery>, d: Delivery)
    ensures Received(done + [d]) == Received(done) + [d.debris + d.text]
  {
  }

  lemma UnlockKeeps(s: State, base: seq<byte>)
    requires Enabled(s, Unlock) && Base(s, base) && NEWLINE !in s.holder.value.text
    ensures Base(Apply(s, Unlock), s.stream)
  {
    var text := s.holder.value.text;
    assert (text + [NEWLINE])[..|text| + 1] == text + [NEWLINE];
    assert base + (text + [NEWLINE]) == base + text + [NEWLINE];
    SplitLine(base, text);
    ReceivedMore(s.done, Delivery(s.debris, text));
    assert s.stream + [] == s.stream;
  }

  /** What has been sent of a message when no newline is out yet. */
  lemma Incomplete(s: State)
    requires s.holder.Some? && s.holder.value.sent <= |s.holder.value.text|
    ensures InFlight(s) == s.holder.value.text[..s.holder.value.sent]
  {
  }

  lemma FailKeeps(s: State, base: seq<byte>)
    requires Enabled(s, Fail) && Base(s, base) && NEWLINE !in s.holder.value.text
    ensures Base(Apply(s, Fail), s.stream)
  {
    var piece := s.holder.value.text[..s.holder.value.sent];
    Incomplete(s);
    SplitAppend(base, piece);
    assert s.stream + [] == s.stream;
  }

  lemma StepKeeps(s: State, e: Event)
    requires Inv(s) && Enabled(s, e)
    ensures Inv(Apply(s, e))
  {
    var base :| Base(s, base);
    match e
    case Lock(_) =>
      assert base + [] == base;
      assert Base(Apply(s, e), base);
    case Push(n) => PushKeeps(s, n, base);
    case Unlock => UnlockKeeps(s, base);
    case Fail => FailKeeps(s, base);
  }

  lemma {:induction false} RunKeeps(es: seq<Event>)
    requires Legal(es)
    ensures Inv(After(es))
  {
    if es == [] {
      assert Base(Init(), []);
    } else {
      RunKeeps(es[..|es| - 1]);
      StepKeeps(After(es[..|es| - 1]), es[|es| - 1]);
    }
  }

  /** In every run, between critical sections, the reader gets one line for each message
      written whole, in lock order, and the line is the message with the debris of the failed
      writes since the message before in front of it. */
  lemma LinesOfRun(es: seq<Event>)
    requires Legal(es) && After(es).holder.None?
    ensures Split(After(es).stream) == Frames(Received(After(es).done), After(es).debris)
  {
    RunKeeps(es);
    var base :| Base(After(es), base);
    assert After(es).stream == base;
  }

  /** While a writer is at work the lines already given out are the same, and what it has sent
      is still incomplete until its newline is out. */
  lemma LinesMidWrite(es: seq<Event>)
    requires Legal(es) && After(es).holder.Some? && After(es).holder.value.sent <= |After(es).holder.value.text|
    ensures
      var s := After(es);
      Split(s.stream) == Frames(Received(s.done), s.debris + s.holder.value.text[..s.holder.value.sent])
  {
    RunKeeps(es);
    var s := After(es);
    var base :| Base(s, base);
    Incomplete(s);
    SplitAppend(base, InFlight(s));
  }

  // ---------------------------------------------------------------- whole or not, from the events

  /** The writer at work has got bytes out. */
  predicate Started(es: seq<Event>) {
    es != [] && es[|es| - 1].Push? && (es[|es| - 1].n > 0 || Started(es[..|es| - 1]))
  }

  /** A write has failed after getting bytes out, and no message has gone out whole since. */
  predicate Dirty(es: seq<Event>) {
    es != []
    && (var init, e := es[..|es| - 1], es[|es| - 1];
        if e.Fail? then Started(init) || Dirty(init) else !e.Unlock? && Dirty(init))
  }

  /** A message has gone out whole behind such a failed write. */
  predicate Spoiled(es: seq<Event>) {
    es != []
    && (var init, e := es[..|es| - 1], es[|es| - 1];
        Spoiled(init) || (e.Unlock? && Dirty(init)))
  }

  predicate AnyDebris(done: seq<Delivery>) {
    exists k :: 0 <= k < |done| && done[k].debris != []
  }

  lemma AnyDebrisMore(done: seq<Delivery>, d: Delivery)
    ensures AnyDebris(done + [d]) <==> AnyDebris(done) || d.debris != []
  {
    if k :| 0 <= k < |done| && done[k].debris != [] {
      assert (done + [d])[k].debris != [];
    }
    assert (done + [d])[|done|] == d;
  }

  /** The history fields say what the events say. */
  lemma {:induction false} DebrisFromEvents(es: seq<Event>)
    requires Legal(es)
    ensures
      var s := After(es);
      && (s.holder.Some? ==> (s.holder.value.sent > 0 <==> Started(es)))
      && (s.debris != [] <==> Dirty(es))
      && (AnyDebris(s.done) <==> Spoiled(es))
  {
    if es != [] {
      var init, e := es[..|es| - 1], es[|es| - 1];
      DebrisFromEvents(init);
      if e.Unlock? {
        AnyDebrisMore(After(init).done, Delivery(After(init).debris, After(init).holder.value.text));
      }
    }
  }

  function Texts(done: seq<Delivery>): seq<seq<byte>> {
    seq(|done|, k requires 0 <= k < |done| => done[k].text)
  }

  lemma ReceivedWholeIff(done: seq<Delivery>)
    ensures Received(done) == Texts(done) <==> !AnyDebris(done)
  {
    if k :| 0 <= k < |done| && done[k].debris != [] {
      assert |Received(done)[k]| > |Texts(done)[k]|;
    } else {
      assert forall k :: 0 <= k < |done| ==> Received(done)[k] == Texts(done)[k];
    }
  }

  /** Messages arrive whole exactly when none has gone out behind a write that had failed after
      getting bytes out. */
  lemma WholeIff(es: seq<Event>)
    requires Legal(es) && After(es).holder.None?
    ensures Split(After(es).stream).lines == Texts(After(es).done) <==> !Spoiled(es)
  {
    LinesOfRun(es);
    DebrisFromEvents(es);
    ReceivedWholeIff(After(es).done);
  }

  /** Without failed writes there is no debris, so every run delivers exactly its messages. */
  lemma {:induction false} NoFailureNoDebris(es: seq<Event>)
    requires Legal(es) && Fail !in es
    ensures After(es).debris == [] && forall k :: 0 <= k < |After(es).done| ==> After(es).done[k].debris == []
  {
    if es != [] {
      assert forall e :: e in es[..|es| - 1] ==> e in es;
      NoFailureNoDebris(es[..|es| - 1]);
    }
  }

  // ---------------------------------------------------------------- what was delivered, from the events

  /** The text of the last lock. */
  function LastText(es: seq<Event>): seq<byte> {
    if es == [] then [] else if es[|es| - 1].Lock? then es[|es| - 1].text else LastText(es[..|es| - 1])
  }

  /** The messages whose writers got to the end, in the order of their locks. */
  function Completed(es: seq<Event>): seq<seq<byte>> {
    if es == [] then []
    else Completed(es[..|es| - 1]) + if es[|es| - 1].Unlock? then [LastText(es[..|es| - 1])] else []
  }

  lemma TextsMore(done: seq<Delivery>, d: Delivery)
    ensures Texts(done + [d]) == Texts(done) + [d.text]
  {
  }

  lemma {:induction false} DoneFromEvents(es: seq<Event>)
    requires Legal(es)
    ensures Texts(After(es).done) == Completed(es)
    ensures After(es).holder.Some? ==> After(es).holder.value.text == LastText(es)
  {
    if es != [] {
      var init, e := es[..|es| - 1], es[|es| - 1];
      DoneFromEvents(init);
      if e.Unlock? {
        TextsMore(After(init).done, Delivery(After(init).debris, After(init).holder.value.text));
      }
    }
  }

  /** Without failed writes the reader gets exactly the messages that were written to their end. */
  lemma MessagesArrive(es: seq<Event>)
    requires Legal(es) && After(es).holder.None? && Fail !in es
    ensures Split(After(es).stream) == Frames(Completed(es), [])
  {
    LinesOfRun(es);
    NoFailureNoDebris(es);
    DoneFromEvents(es);
    assert !AnyDebris(After(es).done);
    ReceivedWholeIff(After(es).done);
  }

  lemma Extend(es: seq<Event>, e: Event)
    requires Legal(es) && Enabled(After(es), e)
    ensures Legal(es + [e]) && After(es + [e]) == Apply(After(es), e)
  {
    assert (es + [e])[..|es|] == es;
  }

  lemma Locks(es: seq<Event>, text: seq<byte>) returns (fs: seq<Event>)
    requires Legal(es) && After(es).holder.None? && NEWLINE !in text
    ensures fs == es + [Lock(text)] && Legal(fs)
    ensures After(fs).holder == Some(Holder(text, 0)) && After(fs).stream == After(es).stream
  {
    Extend(es, Lock(text));
    fs := es + [Lock(text)];
  }

  lemma Pushes(es: seq<Event>, buf: seq<byte>, n: nat) returns (fs: seq<Event>)
    requires Legal(es) && After(es).holder.Some? && buf == After(es).holder.value.text + [NEWLINE]
    requires After(es).holder.value.sent + n <= |buf|
    ensures fs == es + [Push(n)] && Legal(fs)
    ensures
      var h := After(es).holder.value;
      && After(fs).holder == Some(Holder(h.text, h.sent + n))
      && After(fs).stream == After(es).stream + buf[h.sent..h.sent + n]
  {
    Extend(es, Push(n));
    fs := es + [Push(n)];
  }

  lemma Unlocks(es: seq<Event>) returns (fs: seq<Event>)
    requires Legal(es) && After(es).holder.Some?
    requires After(es).holder.value.sent == |After(es).holder.value.text| + 1
    ensures fs == es + [Unlock] && Legal(fs)
    ensures After(fs).holder.None? && After(fs).stream == After(es).stream
  {
    Extend(es, Unlock);
    fs := es + [Unlock];
  }

  lemma TwoPieces(base: seq<byte>, text: seq<byte>, buf: seq<byte>, n: nat)
    requires buf == text + [NEWLINE] && n <= |buf|
    ensures base + buf[0..n] + buf[n..|buf|] == base + text + [NEWLINE]
  {
    assert buf[0..n] + buf[n..|buf|] == buf;
  }

  lemma PushesTwice(es: seq<Event>, text: seq<byte>, n: nat) returns (fs: seq<Event>)
    requires Legal(es) && After(es).holder == Some(Holder(text, 0)) && n <= |text| + 1
    ensures fs == es + [Push(n)] + [Push(|text| + 1 - n)] && Legal(fs)
    ensures After(fs).holder == Some(Holder(text, |text| + 1))
    ensures After(fs).stream == After(es).stream + text + [NEWLINE]
  {
    var buf := text + [NEWLINE];
    var half := Pushes(es, buf, n);
    fs := Pushes(half, buf, |text| + 1 - n);
    TwoPieces(After(es).stream, text, buf, n);
  }

  /** Whenever the mutex is free, any message can be written to its end, in any two pieces. */
  lemma MessageGetsOut(es: seq<Event>, text: seq<byte>, n: nat) returns (fs: seq<Event>)
    requires Legal(es) && After(es).holder.None? && NEWLINE !in text && n <= |text| + 1
    ensures fs == es + [Lock(text)] + [Push(n)] + [Push(|text| + 1 - n)] + [Unlock] && Legal(fs)
    ensures After(fs).holder.None? && After(fs).stream == After(es).stream + text + [NEWLINE]
  {
    var locked := Locks(es, text);
    var pushed := PushesTwice(locked, text, n);
    fs := Unlocks(pushed);
  }

  /** A writer can always go on with any part of what is left of its message and newline, and a write
      can fail as long as the newline is not out; then only the unlock is left. */
  lemma WriterNext(es: seq<Event>, e: Event)
    requires Legal(es) && After(es).holder.Some?
    ensures
      var h := After(es).holder.value;
      var left := |h.text + [NEWLINE]| - h.sent;
      && left >= 0
      && (Legal(es + [e]) <==>
            if e.Push? then e.n <= left else if e.Fail? then left > 0 else e.Unlock? && left == 0)
  {
    assert (es + [e])[..|es|] == es;
    SentFits(es);
  }

  lemma {:induction false} SentFits(es: seq<Event>)
    requires Legal(es)
    ensures After(es).holder.Some? ==> After(es).holder.value.sent <= |After(es).holder.value.text| + 1
  {
    if es != [] {
      SentFits(es[..|es| - 1]);
    }
  }
}
