/** The byte framing under the multiplexer: what its whole-line events amount to on the pipe.

    The multiplexer puts a line on the pipe in one event, and lets a write that breaks off leave
    the pipe torn.  Here a run of byte writes is read line by line, and gives those lines. */
module Framing {
  import opened Wrappers
  import Wire
  import M = Multiplexer

  /** How the host writes a request as text, and what the plugin makes of a line. */
  datatype Codec = Codec(encode: (nat, M.Request) -> seq<Wire.byte>, decode: seq<Wire.byte> -> Option<(nat, M.Request)>)

  /** The text is one that the host writes, and reads as what it was written for. */
  predicate Encoded(c: Codec, text: seq<Wire.byte>) {
    var r := c.decode(text);
    r.Some? && c.encode(r.value.0, r.value.1) == text
  }

  function LineOf(c: Codec, bytes: seq<Wire.byte>): M.Line {
    var r := c.decode(bytes);
    if r.Some? then M.Call(r.value.0, r.value.1) else M.Torn
  }

  function LinesOf(c: Codec, lines: seq<seq<Wire.byte>>): seq<M.Line> {
    seq(|lines|, k requires 0 <= k < |lines| => LineOf(c, lines[k]))
  }

  /** The host's view of the same run: a message that went out whole is `WriteWhole`, and a write
      that failed after getting bytes out leaves the pipe torn. */
  function HostAfter(c: Codec, es: seq<Wire.Event>): M.Host
    requires Wire.Legal(es)
  {
    if es == [] then M.Init().host
    else
      var init, e := es[..|es| - 1], es[|es| - 1];
      var h := HostAfter(c, init);
      match e
      case Unlock =>
        var r := c.decode(Wire.After(init).holder.value.text);
        if r.Some? then M.WriteWhole(h, r.value.0, r.value.1) else h
      case Fail => h.(torn := h.torn || Wire.Started(init))
      case _ => h
  }

  /** Only requests are written. */
  predicate AllRequests(c: Codec, es: seq<Wire.Event>) {
    forall k :: 0 <= k < |es| && es[k].Lock? ==> Encoded(c, es[k].text)
  }

  function Glued(pieces: seq<seq<Wire.byte>>): seq<Wire.byte> {
    if pieces == [] then [] else Glued(pieces[..|pieces| - 1]) + pieces[|pieces| - 1]
  }

  ghost predicate BrokenOff(c: Codec, piece: seq<Wire.byte>) {
    exists text :: Encoded(c, text) && piece <= text
  }

  ghost predicate AllBrokenOff(c: Codec, pieces: seq<seq<Wire.byte>>) {
    forall k :: 0 <= k < |pieces| ==> BrokenOff(c, pieces[k])
  }

  /** A request behind the beginnings of others is no request. */
  ghost predicate GlueIsGarbage(c: Codec) {
    forall pieces, text :: AllBrokenOff(c, pieces) && Glued(pieces) != [] && Encoded(c, text) ==>
      c.decode(Glued(pieces) + text) == None
  }

  lemma {:induction false} HolderWritesRequest(c: Codec, es: seq<Wire.Event>)
    requires Wire.Legal(es) && AllRequests(c, es)
    ensures Wire.After(es).holder.Some? ==> Encoded(c, Wire.After(es).holder.value.text)
  {
    if es != [] {
      HolderWritesRequest(c, es[..|es| - 1]);
    }
  }

  /** What failed writes leave are beginnings of requests. */
  lemma {:induction false} DebrisPieces(c: Codec, es: seq<Wire.Event>) returns (pieces: seq<seq<Wire.byte>>)
    requires Wire.Legal(es) && AllRequests(c, es)
    ensures AllBrokenOff(c, pieces) && Wire.After(es).debris == Glued(pieces)
  {
    pieces := [];
    if es != [] {
      var init, e := es[..|es| - 1], es[|es| - 1];
      var before := DebrisPieces(c, init);
      if e.Fail? {
        HolderWritesRequest(c, init);
        var holder := Wire.After(init).holder.value;
        assert BrokenOff(c, holder.text[..holder.sent]);
        pieces := before + [holder.text[..holder.sent]];
        assert pieces[..|pieces| - 1] == before;
      } else if !e.Unlock? {
        pieces := before;
      }
    }
  }

  lemma LinesMore(c: Codec, lines: seq<seq<Wire.byte>>, line: seq<Wire.byte>)
    ensures LinesOf(c, lines + [line]) == LinesOf(c, lines) + [LineOf(c, line)]
  {
  }

  /** A message goes out whole: one more line, garbled behind debris. */
  lemma UnlockAgrees(c: Codec, h: M.Host, lines: seq<seq<Wire.byte>>, pieces: seq<seq<Wire.byte>>, text: seq<Wire.byte>)
    requires GlueIsGarbage(c) && AllBrokenOff(c, pieces) && Encoded(c, text)
    requires h.stdin == LinesOf(c, lines) && (h.torn <==> Glued(pieces) != [])
    ensures
      var h' := M.WriteWhole(h, c.decode(text).value.0, c.decode(text).value.1);
      h'.stdin == LinesOf(c, lines + [Glued(pieces) + text]) && !h'.torn
  {
    LinesMore(c, lines, Glued(pieces) + text);
    if Glued(pieces) == [] {
      assert Glued(pieces) + text == text;
    }
  }

  lemma {:induction false} HistoryAgrees(c: Codec, es: seq<Wire.Event>)
    requires Wire.Legal(es) && AllRequests(c, es) && GlueIsGarbage(c)
    ensures HostAfter(c, es).stdin == LinesOf(c, Wire.Received(Wire.After(es).done))
    ensures HostAfter(c, es).torn <==> Wire.After(es).debris != []
  {
    if es != [] {
      var init, e := es[..|es| - 1], es[|es| - 1];
      var s := Wire.After(init);
      HistoryAgrees(c, init);
      Wire.DebrisFromEvents(init);
      Wire.DebrisFromEvents(es);
      if e.Unlock? {
        HolderWritesRequest(c, init);
        var pieces := DebrisPieces(c, init);
        UnlockAgrees(c, HostAfter(c, init), Wire.Received(s.done), pieces, s.holder.value.text);
        Wire.ReceivedMore(s.done, Wire.Delivery(s.debris, s.holder.value.text));
      }
    }
  }

  /** However the bytes are taken and whichever writes fail, between lock sections the plugin
      reads exactly the lines of the multiplexer's pipe, and the pipe is torn exactly when bytes
      are left behind the last newline. */
  lemma PipeIsLines(c: Codec, es: seq<Wire.Event>)
    requires Wire.Legal(es) && AllRequests(c, es) && GlueIsGarbage(c) && Wire.After(es).holder.None?
    ensures LinesOf(c, Wire.Split(Wire.After(es).stream).lines) == HostAfter(c, es).stdin
    ensures Wire.Split(Wire.After(es).stream).rest != [] <==> HostAfter(c, es).torn
  {
    HistoryAgrees(c, es);
    Wire.LinesOfRun(es);
  }
}
