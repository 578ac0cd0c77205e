/** The plugin JSON-RPC multiplexer.

    Many callers share one stdin/stdout pair with a plugin process.  The plugin runs every
    request in its own task, so replies return in any order, and a caller may give up after a
    timeout.  `PluginProcess` is the host object; the rest of the module runs it against a
    plugin, one event per critical section, under every interleaving.

    A line is put on a pipe by one event.  `Framing.PipeIsLines` proves that this is what the byte
    writes made under the writer mutex amount to. */
module Multiplexer {
  import opened Wrappers

  datatype Json = Null | Doc(text: string)

  datatype Request = Request(name: string, params: Json)

  /** What `Handler::dispatch` answers: `ok`, or `fail`/`method_not_found` with a code. */
  datatype Outcome = Done(value: Json) | Failed(code: int, message: string)

  /** What a caller gets to see of an outcome. */
  type Reply = Result<Json, string>

  function Seen(o: Outcome): Reply {
    match o
    case Done(v) => Success(v)
    case Failed(_, m) => Failure(m)
  }

  /** A line on the plugin's stdin; `Torn` is a request glued to the remains of a failed write. */
  datatype Line = Call(id: nat, req: Request) | Torn

  /** A line on the plugin's stdout, as the host's reader decodes it. */
  datatype RpcMessage = RpcMessage(
    id: Option<nat>, result: Option<Json>, error: Option<string>, name: Option<string>, params: Option<Json>)

  /** The response line for an outcome.  A null result is decoded as an absent one. */
  function Respond(id: Option<nat>, o: Outcome): RpcMessage {
    match o
    case Done(v) => RpcMessage(id, if v.Null? then None else Some(v), None, None, None)
    case Failed(_, m) => RpcMessage(id, None, Some(m), None, None)
  }

  function Notification(name: string, params: Json): RpcMessage {
    RpcMessage(None, None, None, Some(name), if params.Null? then None else Some(params))
  }

  /** How the reader turns a message into the answer it sends. */
  function ReplyOf(msg: RpcMessage): Reply {
    if msg.error.Some? then Failure(msg.error.value)
    else Success(if msg.result.Some? then msg.result.value else Null)
  }

  lemma ReplyRoundTrip(id: Option<nat>, o: Outcome)
    ensures ReplyOf(Respond(id, o)) == Seen(o)
  {
  }

  // ---------------------------------------------------------------- the host object

  /** The host's shared state.  A oneshot channel is named by the call that made it: `pending`
      holds sender ends, `mail` the values sent, `stdin` the pipe's unread lines, `torn` that
      the pipe ends in the middle of a line. */
  datatype Host = Host(nextId: nat, pending: map<nat, nat>, mail: map<nat, Reply>, stdin: seq<Line>, torn: bool)

  /** The reader's treatment of one decoded line. */
  function Deliver(h: Host, msg: RpcMessage): Host {
    if msg.id.Some? && msg.id.value in h.pending then
      var i := msg.id.value;
      h.(pending := h.pending - {i}, mail := h.mail[h.pending[i] := ReplyOf(msg)])
    else h
  }

  function DeliverAll(h: Host, msgs: seq<RpcMessage>): Host {
    if msgs == [] then h else Deliver(DeliverAll(h, msgs[..|msgs| - 1]), msgs[|msgs| - 1])
  }

  /** A whole payload reaches the pipe; after a torn write it completes a garbled line. */
  function WriteWhole(h: Host, id: nat, req: Request): Host {
    h.(stdin := h.stdin + [if h.torn then Torn else Call(id, req)], torn := false)
  }

  class PluginProcess {
    var nextId: nat
    var pending: map<nat, nat>
    var mail: map<nat, Reply>
    var stdin: seq<Line>
    var torn: bool

    ghost function View(): Host
      reads this
    {
      Host(nextId, pending, mail, stdin, torn)
    }

    constructor ()
      ensures View() == Host(1, map[], map[], [], false)
    {
      nextId, pending, mail, stdin, torn := 1, map[], map[], [], false;
    }

    /** First critical section of `call`. */
    method AllocId() returns (id: nat)
      modifies this`nextId
      ensures id == old(nextId)
      ensures View() == old(View()).(nextId := old(nextId) + 1)
    {
      id := nextId;
      nextId := nextId + 1;
    }

    /** Second critical section: the sender goes into the map before anything is written. */
    method InsertPending(id: nat, call: nat)
      modifies this`pending
      ensures View() == old(View()).(pending := old(pending)[id := call])
    {
      pending := pending[id := call];
    }

    /** Third critical section, when `write_all` gets the payload out. */
    method WriteLine(id: nat, req: Request)
      modifies this`stdin, this`torn
      ensures View() == WriteWhole(old(View()), id, req)
    {
      if torn {
        stdin := stdin + [Torn];
        torn := false;
      } else {
        stdin := stdin + [Call(id, req)];
      }
    }

    /** The timeout arm. */
    method RemovePending(id: nat)
      modifies this`pending
      ensures View() == old(View()).(pending := old(pending) - {id})
    {
      pending := pending - {id};
    }

    /** One round of the reader loop. */
    method DeliverOne(msg: RpcMessage)
      modifies this`pending, this`mail
      ensures View() == Deliver(old(View()), msg)
    {
      if msg.id.Some? {
        if msg.id.value in pending {
          var sender := pending[msg.id.value];
          pending := pending - {msg.id.value};
          var result: Reply;
          if msg.error.Some? {
            result := Failure(msg.error.value);
          } else if msg.result.Some? {
            result := Success(msg.result.value);
          } else {
            result := Success(Null);
          }
          mail := mail[sender := result];
        }
      }
    }

    /** The reader task on all the lines that come before end of file. */
    method ReadLoop(lines: seq<RpcMessage>)
      modifies this`pending, this`mail
      ensures View() == DeliverAll(old(View()), lines)
    {
      var k := 0;
      while k < |lines|
        invariant 0 <= k <= |lines|
        invariant View() == DeliverAll(old(View()), lines[..k])
      {
        DeliverOne(lines[k]);
        assert lines[..k + 1][..k] == lines[..k];
        k := k + 1;
      }
      assert lines[..k] == lines;
    }
  }

  // ---------------------------------------------------------------- host and plugin together

  datatype Answer = FromPlugin(reply: Reply) | IoError | TimeoutError | Dropped

  /** Where a `call` invocation stands, one phase between each two critical sections. */
  datatype Phase = Entered | Allocated | Registered | Flushing | Waiting | Expired | Returned(answer: Answer)

  datatype Invocation = Invocation(req: Request, id: Option<nat>, phase: Phase)

  datatype Progress = Running | Answering(o: Outcome) | Sent(o: Outcome) | Lost(o: Outcome)

  /** A task of the plugin's `serve`; `id` is absent when the line did not parse. */
  datatype Task = Task(id: Option<nat>, req: Request, progress: Progress)

  /** `owner`, `reqs`, `written`, `garbled` and `consumed` record history and steer nothing: who
      got an id and for which request, which ids went out on a line of their own, which were
      glued to a torn write, and which replies the reader has taken. */
  datatype State = State(
    host: Host, calls: seq<Invocation>, tasks: seq<Task>, stdout: seq<RpcMessage>,
    pluginUp: bool, readerUp: bool,
    owner: map<nat, nat>, reqs: map<nat, Request>, written: set<nat>, garbled: set<nat>, consumed: set<nat>)

  function Init(): State {
    State(Host(1, map[], map[], [], false), [], [], [], true, true, map[], map[], {}, {}, {})
  }

  datatype Event =
    | Enter(req: Request)
    | Alloc(c: nat)
    | Register(c: nat)
    | Write(c: nat)
    | WriteFails(c: nat, partial: bool)
    | FlushOk(c: nat)
    | FlushFails(c: nat)
    | TimerFires(c: nat)
    | TimeoutRemoves(c: nat)
    | Return(c: nat)
    | ReturnDropped(c: nat)
    | PluginReads
    | DispatchEnds(t: nat, o: Outcome)
    | PluginWrites(t: nat)
    | PluginLoses(t: nat)
    | Notify(name: string, params: Json)
    | ReaderTakes
    | ReaderStops
    | Shutdown

  predicate At(s: State, c: nat, p: Phase) {
    c < |s.calls| && s.calls[c].phase == p && (p.Entered? || s.calls[c].id.Some?)
  }

  /** The sender of call `c` has not been used and is in nobody's hands. */
  predicate SenderGone(h: Host, c: nat) {
    c !in h.mail && forall i :: i in h.pending ==> h.pending[i] != c
  }

  predicate Enabled(s: State, e: Event) {
    match e
    case Enter(_) => true
    case Alloc(c) => At(s, c, Entered)
    case Register(c) => At(s, c, Allocated)
    case Write(c) => At(s, c, Registered)
    case WriteFails(c, _) => At(s, c, Registered)
    case FlushOk(c) => At(s, c, Flushing)
    case FlushFails(c) => At(s, c, Flushing)
    case TimerFires(c) => At(s, c, Waiting) && c !in s.host.mail
    case TimeoutRemoves(c) => At(s, c, Expired)
    case Return(c) => At(s, c, Waiting) && c in s.host.mail
    case ReturnDropped(c) => At(s, c, Waiting) && SenderGone(s.host, c)
    case PluginReads => s.pluginUp && s.host.stdin != []
    case DispatchEnds(t, _) => s.pluginUp && t < |s.tasks| && s.tasks[t].progress.Running?
    case PluginWrites(t) => s.pluginUp && t < |s.tasks| && s.tasks[t].progress.Answering?
    case PluginLoses(t) => t < |s.tasks| && s.tasks[t].progress.Answering?
    case Notify(_, _) => s.pluginUp
    case ReaderTakes => s.readerUp && s.stdout != []
    case ReaderStops => true
    case Shutdown => true
  }

  function Move(s: State, c: nat, p: Phase): State
    requires c < |s.calls|
  {
    s.(calls := s.calls[c := s.calls[c].(phase := p)])
  }

  function Progressed(s: State, t: nat, p: Progress): State
    requires t < |s.tasks|
  {
    s.(tasks := s.tasks[t := s.tasks[t].(progress := p)])
  }

  function Apply(s: State, e: Event): State
    requires Enabled(s, e)
  {
    match e
    case Enter(req) => s.(calls := s.calls + [Invocation(req, None, Entered)])
    case Alloc(c) =>
      var i := s.host.nextId;
      s.(host := s.host.(nextId := i + 1),
         calls := s.calls[c := Invocation(s.calls[c].req, Some(i), Allocated)],
         owner := s.owner[i := c],
         reqs := s.reqs[i := s.calls[c].req])
    case Register(c) =>
      Move(s.(host := s.host.(pending := s.host.pending[s.calls[c].id.value := c])), c, Registered)
    case Write(c) =>
      var i := s.calls[c].id.value;
      Move(s.(host := WriteWhole(s.host, i, s.calls[c].req),
              written := if s.host.torn then s.written else s.written + {i},
              garbled := if s.host.torn then s.garbled + {i} else s.garbled), c, Flushing)
    case WriteFails(c, partial) =>
      Move(s.(host := s.host.(torn := s.host.torn || partial)), c, Returned(IoError))
    case FlushOk(c) => Move(s, c, Waiting)
    case FlushFails(c) => Move(s, c, Returned(IoError))
    case TimerFires(c) => Move(s, c, Expired)
    case TimeoutRemoves(c) =>
      Move(s.(host := s.host.(pending := s.host.pending - {s.calls[c].id.value})), c, Returned(TimeoutError))
    case Return(c) => Move(s, c, Returned(FromPlugin(s.host.mail[c])))
    case ReturnDropped(c) => Move(s, c, Returned(Dropped))
    case PluginReads =>
      var task :=
        match s.host.stdin[0]
        case Call(i, req) => Task(Some(i), req, Running)
        case Torn => Task(None, Request("", Null), Answering(Failed(-32603, "invalid json")));
      s.(host := s.host.(stdin := s.host.stdin[1..]), tasks := s.tasks + [task])
    case DispatchEnds(t, o) => Progressed(s, t, Answering(o))
    case PluginWrites(t) =>
      Progressed(s.(stdout := s.stdout + [Respond(s.tasks[t].id, s.tasks[t].progress.o)]), t,
        Sent(s.tasks[t].progress.o))
    case PluginLoses(t) => Progressed(s, t, Lost(s.tasks[t].progress.o))
    case Notify(name, params) => s.(stdout := s.stdout + [Notification(name, params)])
    case ReaderTakes =>
      var msg := s.stdout[0];
      s.(host := Deliver(s.host, msg), stdout := s.stdout[1..],
         consumed := if msg.id.Some? then s.consumed + {msg.id.value} else s.consumed)
    case ReaderStops => s.(readerUp := false)
    case Shutdown => s.(pluginUp := false)
  }

  /** Runs: every finite sequence of events, each enabled where it happens. */
  predicate Legal(es: seq<Event>)
    decreases |es|, 0
  {
    es == [] || (Legal(es[..|es| - 1]) && Enabled(After(es[..|es| - 1]), es[|es| - 1]))
  }

  function After(es: seq<Event>): State
    requires Legal(es)
    decreases |es|, 1
  {
    if es == [] then Init() else Apply(After(es[..|es| - 1]), es[|es| - 1])
  }

  // ---------------------------------------------------------------- the invariant

  ghost predicate HasTask(tasks: seq<Task>, i: nat) {
    exists t :: 0 <= t < |tasks| && tasks[t].id == Some(i)
  }

  ghost predicate HasSent(tasks: seq<Task>, i: nat) {
    exists t :: 0 <= t < |tasks| && tasks[t].id == Some(i) && tasks[t].progress.Sent?
  }

  ghost predicate InStdin(lines: seq<Line>, i: nat) {
    exists k :: 0 <= k < |lines| && lines[k].Call? && lines[k].id == i
  }

  ghost predicate InStdout(msgs: seq<RpcMessage>, i: nat) {
    exists k :: 0 <= k < |msgs| && msgs[k].id == Some(i)
  }

  /** Task `t` ran dispatch on `req` for id `i`, ended with an outcome, and sent it. */
  ghost predicate Ran(tasks: seq<Task>, t: nat, i: nat, req: Request, r: Reply) {
    && t < |tasks|
    && tasks[t].id == Some(i)
    && tasks[t].req == req
    && tasks[t].progress.Sent?
    && Seen(tasks[t].progress.o) == r
  }

  ghost predicate Answered(tasks: seq<Task>, i: nat, req: Request, r: Reply) {
    exists t: nat :: Ran(tasks, t, i, req, r)
  }

  /** Phases in which a call's sender sits in the map unless it has been used. */
  ghost predicate Pends(p: Phase) {
    p.Registered? || p.Flushing? || p.Waiting? || p.Expired? || p == Returned(IoError)
  }

  ghost predicate MustHaveWritten(p: Phase) {
    p.Flushing? || p.Waiting? || p.Expired? || (p.Returned? && p.answer != IoError)
  }

  ghost predicate CallsOk(calls: seq<Invocation>, owner: map<nat, nat>, reqs: map<nat, Request>, nextId: nat) {
    && 1 <= nextId
    && owner.Keys == reqs.Keys
    && (forall i :: i in owner ==>
      1 <= i < nextId && owner[i] < |calls| && calls[owner[i]].id == Some(i) && calls[owner[i]].req == reqs[i])
    && (forall c :: 0 <= c < |calls| && calls[c].id.Some? ==>
      calls[c].id.value in owner && owner[calls[c].id.value] == c)
    && (forall c :: 0 <= c < |calls| ==> (calls[c].id.None? <==> calls[c].phase.Entered?))
    && (forall c :: 0 <= c < |calls| ==> calls[c].phase != Returned(Dropped))
  }

  ghost predicate WrittenOk(calls: seq<Invocation>, owner: map<nat, nat>, written: set<nat>, garbled: set<nat>) {
    && written !! garbled
    && written + garbled <= owner.Keys
    && (forall c :: 0 <= c < |calls| && calls[c].id.Some?
                    && (calls[c].phase.Allocated? || calls[c].phase.Registered?) ==>
          calls[c].id.value !in written + garbled)
    && (forall c :: 0 <= c < |calls| && calls[c].id.Some? && MustHaveWritten(calls[c].phase) ==>
          calls[c].id.value in written + garbled)
  }

  ghost predicate StdinOk(lines: seq<Line>, tasks: seq<Task>, written: set<nat>, reqs: map<nat, Request>) {
    && (forall k :: 0 <= k < |lines| && lines[k].Call? ==>
          && lines[k].id in written && lines[k].id in reqs && reqs[lines[k].id] == lines[k].req
          && !HasTask(tasks, lines[k].id))
    && (forall k, l :: 0 <= k < l < |lines| && lines[k].Call? && lines[l].Call? ==> lines[k].id != lines[l].id)
  }

  ghost predicate TasksOk(tasks: seq<Task>, written: set<nat>, reqs: map<nat, Request>) {
    && (forall t :: 0 <= t < |tasks| && tasks[t].id.Some? ==>
          tasks[t].id.value in written && tasks[t].id.value in reqs && reqs[tasks[t].id.value] == tasks[t].req)
    && (forall t, u :: 0 <= t < u < |tasks| && tasks[t].id.Some? ==> tasks[t].id != tasks[u].id)
  }

  ghost predicate NothingVanishes(written: set<nat>, lines: seq<Line>, tasks: seq<Task>) {
    forall i :: i in written ==> InStdin(lines, i) || HasTask(tasks, i)
  }

  ghost predicate StdoutOk(msgs: seq<RpcMessage>, tasks: seq<Task>, consumed: set<nat>, reqs: map<nat, Request>) {
    && (forall k :: 0 <= k < |msgs| && msgs[k].id.Some? ==>
          && msgs[k].id.value !in consumed && msgs[k].id.value in reqs
          && Answered(tasks, msgs[k].id.value, reqs[msgs[k].id.value], ReplyOf(msgs[k])))
    && (forall k, l :: 0 <= k < l < |msgs| && msgs[k].id.Some? ==> msgs[k].id != msgs[l].id)
  }

  ghost predicate SentOk(msgs: seq<RpcMessage>, tasks: seq<Task>, consumed: set<nat>) {
    && (forall t :: 0 <= t < |tasks| && tasks[t].id.Some? && tasks[t].progress.Sent? ==>
          tasks[t].id.value in consumed || InStdout(msgs, tasks[t].id.value))
    && (forall i :: i in consumed ==> HasSent(tasks, i))
  }

  ghost predicate MailOk(
    mail: map<nat, Reply>, tasks: seq<Task>, consumed: set<nat>, owner: map<nat, nat>, reqs: map<nat, Request>) {
    forall i :: i in owner && owner[i] in mail ==>
      i in consumed && i in reqs && Answered(tasks, i, reqs[i], mail[owner[i]])
  }

  ghost predicate OutcomesOk(mail: map<nat, Reply>, calls: seq<Invocation>, consumed: set<nat>, owner: map<nat, nat>) {
    && (forall c :: c in mail ==> c < |calls| && calls[c].id.Some?)
    && (forall c :: 0 <= c < |calls| && calls[c].phase.Returned? && calls[c].phase.answer.FromPlugin? ==>
          c in mail && mail[c] == calls[c].phase.answer.reply)
    && (forall i :: i in consumed ==> i in owner && owner[i] < |calls|)
    && (forall i :: i in consumed ==> owner[i] in mail || calls[owner[i]].phase == Returned(TimeoutError))
  }

  ghost predicate PendingOk(
    pending: map<nat, nat>, mail: map<nat, Reply>, calls: seq<Invocation>, owner: map<nat, nat>) {
    && (forall i :: i in pending ==> i in owner && pending[i] == owner[i])
    && (forall i :: i in owner ==> owner[i] < |calls|)
    && (forall i :: i in owner ==> (i in pending <==> Pends(calls[owner[i]].phase) && owner[i] !in mail))
  }

  ghost predicate Inv(s: State) {
    && CallsOk(s.calls, s.owner, s.reqs, s.host.nextId)
    && WrittenOk(s.calls, s.owner, s.written, s.garbled)
    && StdinOk(s.host.stdin, s.tasks, s.written, s.reqs)
    && TasksOk(s.tasks, s.written, s.reqs)
    && NothingVanishes(s.written, s.host.stdin, s.tasks)
    && StdoutOk(s.stdout, s.tasks, s.consumed, s.reqs)
    && SentOk(s.stdout, s.tasks, s.consumed)
    && MailOk(s.host.mail, s.tasks, s.consumed, s.owner, s.reqs)
    && OutcomesOk(s.host.mail, s.calls, s.consumed, s.owner)
    && PendingOk(s.host.pending, s.host.mail, s.calls, s.owner)
  }

  // ---------------------------------------------------------------- every event keeps it

  /** Tasks are only added and only progress, and a sent task stays as it is. */
  lemma TasksGrow(a: seq<Task>, b: seq<Task>)
    requires |a| <= |b|
    requires forall t :: 0 <= t < |a| ==>
      b[t].id == a[t].id && b[t].req == a[t].req && (a[t].progress.Sent? ==> b[t] == a[t])
    ensures forall i :: HasTask(a, i) ==> HasTask(b, i)
    ensures forall i :: HasSent(a, i) ==> HasSent(b, i)
    ensures forall i, req, r :: Answered(a, i, req, r) ==> Answered(b, i, req, r)
  {
    forall i: nat | HasTask(a, i) ensures HasTask(b, i) {
      var t :| 0 <= t < |a| && a[t].id == Some(i);
      assert b[t].id == Some(i);
    }
    forall i: nat | HasSent(a, i) ensures HasSent(b, i) {
      var t :| 0 <= t < |a| && a[t].id == Some(i) && a[t].progress.Sent?;
      assert b[t].id == Some(i);
    }
    forall i: nat, req, r | Answered(a, i, req, r) ensures Answered(b, i, req, r) {
      var t: nat :| Ran(a, t, i, req, r);
      assert Ran(b, t, i, req, r);
    }
  }

  /** Lines are only appended, or the first one leaves. */
  lemma LinesMove(a: seq<Line>, line: Line)
    ensures forall i :: InStdin(a, i) ==> InStdin(a + [line], i)
    ensures line.Call? ==> InStdin(a + [line], line.id)
    ensures a != [] ==> forall i: nat :: InStdin(a, i) ==> InStdin(a[1..], i) || (a[0].Call? && a[0].id == i)
  {
    forall i: nat | InStdin(a, i) ensures InStdin(a + [line], i) {
      var k :| 0 <= k < |a| && a[k].Call? && a[k].id == i;
      assert (a + [line])[k] == a[k];
    }
    assert (a + [line])[|a|] == line;
    if a != [] {
      forall i: nat | InStdin(a, i) && !(a[0].Call? && a[0].id == i) ensures InStdin(a[1..], i) {
        var k :| 0 <= k < |a| && a[k].Call? && a[k].id == i;
        assert a[1..][k - 1] == a[k];
      }
    }
  }

  lemma MessagesMove(a: seq<RpcMessage>, msg: RpcMessage)
    ensures forall i :: InStdout(a, i) ==> InStdout(a + [msg], i)
    ensures msg.id.Some? ==> InStdout(a + [msg], msg.id.value)
    ensures a != [] ==> forall i: nat :: InStdout(a, i) ==> InStdout(a[1..], i) || a[0].id == Some(i)
  {
    forall i: nat | InStdout(a, i) ensures InStdout(a + [msg], i) {
      var k :| 0 <= k < |a| && a[k].id == Some(i);
      assert (a + [msg])[k] == a[k];
    }
    assert (a + [msg])[|a|] == msg;
    if a != [] {
      forall i: nat | InStdout(a, i) && a[0].id != Some(i) ensures InStdout(a[1..], i) {
        var k :| 0 <= k < |a| && a[k].id == Some(i);
        assert a[1..][k - 1] == a[k];
      }
    }
  }

  // A call enters: one lemma per part of the invariant that looks at the calls.

  ghost function Entering(calls: seq<Invocation>, req: Request): seq<Invocation> {
    calls + [Invocation(req, None, Entered)]
  }

  lemma EnterCalls(calls: seq<Invocation>, owner: map<nat, nat>, reqs: map<nat, Request>, nextId: nat, req: Request)
    requires CallsOk(calls, owner, reqs, nextId)
    ensures CallsOk(Entering(calls, req), owner, reqs, nextId)
  {
  }

  lemma EnterWritten(calls: seq<Invocation>, owner: map<nat, nat>, written: set<nat>, garbled: set<nat>, req: Request)
    requires WrittenOk(calls, owner, written, garbled)
    ensures WrittenOk(Entering(calls, req), owner, written, garbled)
  {
  }

  lemma EnterOutcomes(
    mail: map<nat, Reply>, calls: seq<Invocation>, consumed: set<nat>, owner: map<nat, nat>, req: Request)
    requires OutcomesOk(mail, calls, consumed, owner)
    ensures OutcomesOk(mail, Entering(calls, req), consumed, owner)
  {
  }

  lemma EnterPending(
    pending: map<nat, nat>, mail: map<nat, Reply>, calls: seq<Invocation>, owner: map<nat, nat>, req: Request)
    requires PendingOk(pending, mail, calls, owner)
    ensures PendingOk(pending, mail, Entering(calls, req), owner)
  {
  }

  lemma EnterKeeps(s: State, req: Request)
    requires Inv(s)
    ensures Inv(Apply(s, Enter(req)))
  {
    EnterCalls(s.calls, s.owner, s.reqs, s.host.nextId, req);
    EnterWritten(s.calls, s.owner, s.written, s.garbled, req);
    EnterOutcomes(s.host.mail, s.calls, s.consumed, s.owner, req);
    EnterPending(s.host.pending, s.host.mail, s.calls, s.owner, req);
  }

  // A call moves on: one lemma per part of the invariant that looks at the calls.

  ghost function Moved(calls: seq<Invocation>, c: nat, p: Phase): seq<Invocation>
    requires c < |calls|
  {
    calls[c := calls[c].(phase := p)]
  }

  lemma MovedCalls(calls: seq<Invocation>, owner: map<nat, nat>, reqs: map<nat, Request>, nextId: nat, c: nat, p: Phase)
    requires CallsOk(calls, owner, reqs, nextId)
    requires c < |calls| && calls[c].id.Some? && !p.Entered? && p != Returned(Dropped)
    ensures CallsOk(Moved(calls, c, p), owner, reqs, nextId)
  {
  }

  lemma MovedWritten(
    calls: seq<Invocation>, owner: map<nat, nat>, written: set<nat>, garbled: set<nat>, c: nat, p: Phase)
    requires WrittenOk(calls, owner, written, garbled)
    requires c < |calls| && calls[c].id.Some?
    requires p.Registered? ==> calls[c].id.value !in written + garbled
    requires !p.Allocated?
    requires MustHaveWritten(p) ==> calls[c].id.value in written + garbled
    ensures WrittenOk(Moved(calls, c, p), owner, written, garbled)
  {
  }

  lemma MovedOutcomes(
    mail: map<nat, Reply>, calls: seq<Invocation>, consumed: set<nat>, owner: map<nat, nat>, c: nat, p: Phase)
    requires OutcomesOk(mail, calls, consumed, owner)
    requires c < |calls| && calls[c].phase != Returned(TimeoutError)
    requires p.Returned? && p.answer.FromPlugin? ==> c in mail && mail[c] == p.answer.reply
    ensures OutcomesOk(mail, Moved(calls, c, p), consumed, owner)
  {
  }

  lemma MovedPending(
    pending: map<nat, nat>, pending': map<nat, nat>, mail: map<nat, Reply>, calls: seq<Invocation>,
    owner: map<nat, nat>, c: nat, i: nat, p: Phase)
    requires PendingOk(pending, mail, calls, owner)
    requires i in owner && owner[i] == c && forall j :: j in owner && owner[j] == c ==> j == i
    requires forall j :: j != i ==> (j in pending <==> j in pending') && (j in pending ==> pending'[j] == pending[j])
    requires i in pending' <==> Pends(p) && c !in mail
    requires i in pending' ==> pending'[i] == c
    ensures PendingOk(pending', mail, Moved(calls, c, p), owner)
  {
  }

  /** The id of a call that has one, and that no other call has it. */
  lemma OwnId(s: State, c: nat)
    requires Inv(s) && c < |s.calls| && s.calls[c].id.Some?
    ensures s.calls[c].id.value in s.owner && s.owner[s.calls[c].id.value] == c
    ensures forall j :: j in s.owner && s.owner[j] == c ==> j == s.calls[c].id.value
  {
  }

  lemma AllocCalls(calls: seq<Invocation>, owner: map<nat, nat>, reqs: map<nat, Request>, i: nat, c: nat)
    requires CallsOk(calls, owner, reqs, i)
    requires c < |calls| && calls[c].phase.Entered?
    ensures i !in owner && forall j :: j in owner ==> owner[j] != c
    ensures CallsOk(calls[c := Invocation(calls[c].req, Some(i), Allocated)], owner[i := c], reqs[i := calls[c].req],
      i + 1)
  {
  }

  lemma AllocWritten(calls: seq<Invocation>, owner: map<nat, nat>, written: set<nat>, garbled: set<nat>, i: nat, c: nat)
    requires WrittenOk(calls, owner, written, garbled)
    requires c < |calls| && i !in owner
    ensures WrittenOk(calls[c := Invocation(calls[c].req, Some(i), Allocated)], owner[i := c], written, garbled)
  {
  }

  lemma AllocOutcomes(
    mail: map<nat, Reply>, calls: seq<Invocation>, consumed: set<nat>, owner: map<nat, nat>, i: nat, c: nat)
    requires OutcomesOk(mail, calls, consumed, owner)
    requires c < |calls| && i !in owner && calls[c].phase.Entered?
    ensures OutcomesOk(mail, calls[c := Invocation(calls[c].req, Some(i), Allocated)], consumed, owner[i := c])
  {
  }

  lemma AllocPending(
    pending: map<nat, nat>, mail: map<nat, Reply>, calls: seq<Invocation>, owner: map<nat, nat>, i: nat, c: nat)
    requires PendingOk(pending, mail, calls, owner)
    requires c < |calls| && i !in owner && forall j :: j in owner ==> owner[j] != c
    ensures PendingOk(pending, mail, calls[c := Invocation(calls[c].req, Some(i), Allocated)], owner[i := c])
  {
  }

  /** The parts that look up requests by id do not see a new id. */
  lemma AllocReqs(s: State, i: nat, c: nat, req: Request)
    requires StdinOk(s.host.stdin, s.tasks, s.written, s.reqs)
    requires TasksOk(s.tasks, s.written, s.reqs)
    requires StdoutOk(s.stdout, s.tasks, s.consumed, s.reqs)
    requires MailOk(s.host.mail, s.tasks, s.consumed, s.owner, s.reqs)
    requires i !in s.reqs && c !in s.host.mail
    ensures StdinOk(s.host.stdin, s.tasks, s.written, s.reqs[i := req])
    ensures TasksOk(s.tasks, s.written, s.reqs[i := req])
    ensures StdoutOk(s.stdout, s.tasks, s.consumed, s.reqs[i := req])
    ensures MailOk(s.host.mail, s.tasks, s.consumed, s.owner[i := c], s.reqs[i := req])
  {
  }

  lemma AllocKeeps(s: State, c: nat)
    requires Inv(s) && Enabled(s, Alloc(c))
    ensures Inv(Apply(s, Alloc(c)))
  {
    var i := s.host.nextId;
    AllocCalls(s.calls, s.owner, s.reqs, i, c);
    AllocWritten(s.calls, s.owner, s.written, s.garbled, i, c);
    AllocOutcomes(s.host.mail, s.calls, s.consumed, s.owner, i, c);
    AllocPending(s.host.pending, s.host.mail, s.calls, s.owner, i, c);
    AllocReqs(s, i, c, s.calls[c].req);
  }

  lemma RegisterKeeps(s: State, c: nat)
    requires Inv(s) && Enabled(s, Register(c))
    ensures Inv(Apply(s, Register(c)))
  {
    var s' := Apply(s, Register(c));
    var i := s.calls[c].id.value;
    OwnId(s, c);
    assert i !in s.consumed;
    MovedCalls(s.calls, s.owner, s.reqs, s.host.nextId, c, Registered);
    MovedWritten(s.calls, s.owner, s.written, s.garbled, c, Registered);
    MovedOutcomes(s.host.mail, s.calls, s.consumed, s.owner, c, Registered);
    MovedPending(s.host.pending, s'.host.pending, s.host.mail, s.calls, s.owner, c, i, Registered);
  }

  lemma GoesOut(calls: seq<Invocation>, owner: map<nat, nat>, written: set<nat>, garbled: set<nat>, c: nat, torn: bool)
    requires WrittenOk(calls, owner, written, garbled)
    requires c < |calls| && calls[c].id.Some? && calls[c].phase.Registered? && calls[c].id.value in owner
    requires forall d :: 0 <= d < |calls| && calls[d].id == calls[c].id ==> d == c
    ensures
      var i := calls[c].id.value;
      WrittenOk(Moved(calls, c, Flushing), owner,
                if torn then written else written + {i}, if torn then garbled + {i} else garbled)
  {
  }

  lemma GoesToStdin(lines: seq<Line>, tasks: seq<Task>, written: set<nat>, reqs: map<nat, Request>, i: nat)
    requires StdinOk(lines, tasks, written, reqs) && TasksOk(tasks, written, reqs)
      && NothingVanishes(written, lines, tasks)
    requires i !in written && i in reqs
    ensures StdinOk(lines + [Call(i, reqs[i])], tasks, written + {i}, reqs)
    ensures TasksOk(tasks, written + {i}, reqs)
    ensures NothingVanishes(written + {i}, lines + [Call(i, reqs[i])], tasks)
  {
    LinesMove(lines, Call(i, reqs[i]));
  }

  lemma TornToStdin(lines: seq<Line>, tasks: seq<Task>, written: set<nat>, reqs: map<nat, Request>)
    requires StdinOk(lines, tasks, written, reqs) && NothingVanishes(written, lines, tasks)
    ensures StdinOk(lines + [Torn], tasks, written, reqs)
    ensures NothingVanishes(written, lines + [Torn], tasks)
  {
    LinesMove(lines, Torn);
  }

  lemma WriteKeeps(s: State, c: nat)
    requires Inv(s) && Enabled(s, Write(c))
    ensures Inv(Apply(s, Write(c)))
  {
    var i := s.calls[c].id.value;
    OwnId(s, c);
    GoesOut(s.calls, s.owner, s.written, s.garbled, c, s.host.torn);
    MovedCalls(s.calls, s.owner, s.reqs, s.host.nextId, c, Flushing);
    MovedOutcomes(s.host.mail, s.calls, s.consumed, s.owner, c, Flushing);
    MovedPending(s.host.pending, s.host.pending, s.host.mail, s.calls, s.owner, c, i, Flushing);
    if s.host.torn {
      TornToStdin(s.host.stdin, s.tasks, s.written, s.reqs);
    } else {
      GoesToStdin(s.host.stdin, s.tasks, s.written, s.reqs, i);
    }
  }

  /** What an event does that moves one call to its next phase and touches neither pipe nor task. */
  ghost function OnlyPhase(s: State, torn: bool, c: nat, p: Phase): State
    requires c < |s.calls|
  {
    s.(host := s.host.(torn := torn), calls := Moved(s.calls, c, p))
  }

  lemma PhaseKeeps(s: State, torn: bool, c: nat, p: Phase)
    requires Inv(s) && c < |s.calls| && s.calls[c].id.Some?
    requires c in s.host.mail || (Pends(s.calls[c].phase) && Pends(p))
    requires s.calls[c].phase != Returned(TimeoutError)
    requires !p.Entered? && !p.Allocated? && !p.Registered? && p != Returned(Dropped)
    requires MustHaveWritten(p) ==> MustHaveWritten(s.calls[c].phase)
    requires p.Returned? && p.answer.FromPlugin? ==> c in s.host.mail && s.host.mail[c] == p.answer.reply
    ensures Inv(OnlyPhase(s, torn, c, p))
  {
    OwnId(s, c);
    MovedCalls(s.calls, s.owner, s.reqs, s.host.nextId, c, p);
    MovedWritten(s.calls, s.owner, s.written, s.garbled, c, p);
    MovedOutcomes(s.host.mail, s.calls, s.consumed, s.owner, c, p);
    MovedPending(s.host.pending, s.host.pending, s.host.mail, s.calls, s.owner, c, s.calls[c].id.value, p);
  }

  lemma TimeoutRemovesKeeps(s: State, c: nat)
    requires Inv(s) && Enabled(s, TimeoutRemoves(c))
    ensures Inv(Apply(s, TimeoutRemoves(c)))
  {
    var s' := Apply(s, TimeoutRemoves(c));
    var p := Returned(TimeoutError);
    OwnId(s, c);
    MovedCalls(s.calls, s.owner, s.reqs, s.host.nextId, c, p);
    MovedWritten(s.calls, s.owner, s.written, s.garbled, c, p);
    MovedOutcomes(s.host.mail, s.calls, s.consumed, s.owner, c, p);
    MovedPending(s.host.pending, s'.host.pending, s.host.mail, s.calls, s.owner, c, s.calls[c].id.value, p);
  }

  /** A waiting call's sender is in the map or has been used: it is never dropped. */
  lemma SenderStays(s: State, c: nat)
    requires Inv(s)
    ensures !Enabled(s, ReturnDropped(c))
  {
    if At(s, c, Waiting) && c !in s.host.mail {
      OwnId(s, c);
      assert s.calls[c].id.value in s.host.pending;
    }
  }

  /** The head of stdin becomes a task, which has the id if the line has one. */
  lemma TakenLine(lines: seq<Line>, tasks: seq<Task>, written: set<nat>, reqs: map<nat, Request>, task: Task)
    requires StdinOk(lines, tasks, written, reqs) && TasksOk(tasks, written, reqs)
      && NothingVanishes(written, lines, tasks)
    requires lines != []
    requires lines[0].Call? ==> task.id == Some(lines[0].id) && task.req == lines[0].req
    requires lines[0].Torn? ==> task.id.None?
    ensures StdinOk(lines[1..], tasks + [task], written, reqs)
    ensures TasksOk(tasks + [task], written, reqs)
    ensures NothingVanishes(written, lines[1..], tasks + [task])
  {
    TasksGrow(tasks, tasks + [task]);
    LinesMove(lines, lines[0]);
    assert (tasks + [task])[|tasks|] == task;
  }

  /** A task that is not yet sent is added: the parts that look up answers do not see it. */
  lemma AddedTask(s: State, task: Task)
    requires StdoutOk(s.stdout, s.tasks, s.consumed, s.reqs) && SentOk(s.stdout, s.tasks, s.consumed)
    requires MailOk(s.host.mail, s.tasks, s.consumed, s.owner, s.reqs)
    requires !task.progress.Sent?
    ensures StdoutOk(s.stdout, s.tasks + [task], s.consumed, s.reqs) && SentOk(s.stdout, s.tasks + [task], s.consumed)
    ensures MailOk(s.host.mail, s.tasks + [task], s.consumed, s.owner, s.reqs)
  {
    TasksGrow(s.tasks, s.tasks + [task]);
  }

  lemma PluginReadsKeeps(s: State)
    requires Inv(s) && Enabled(s, PluginReads)
    ensures Inv(Apply(s, PluginReads))
  {
    var task := Apply(s, PluginReads).tasks[|s.tasks|];
    TakenLine(s.host.stdin, s.tasks, s.written, s.reqs, task);
    AddedTask(s, task);
  }

  ghost function Progressing(tasks: seq<Task>, t: nat, p: Progress): seq<Task>
    requires t < |tasks|
  {
    tasks[t := tasks[t].(progress := p)]
  }

  lemma ProgressTasks(
    lines: seq<Line>, tasks: seq<Task>, written: set<nat>, reqs: map<nat, Request>, t: nat, p: Progress)
    requires StdinOk(lines, tasks, written, reqs) && TasksOk(tasks, written, reqs)
      && NothingVanishes(written, lines, tasks)
    requires t < |tasks| && !tasks[t].progress.Sent?
    ensures StdinOk(lines, Progressing(tasks, t, p), written, reqs) && TasksOk(Progressing(tasks, t, p), written, reqs)
    ensures NothingVanishes(written, lines, Progressing(tasks, t, p))
  {
    TasksGrow(tasks, Progressing(tasks, t, p));
  }

  lemma ProgressStdout(
    msgs: seq<RpcMessage>, tasks: seq<Task>, consumed: set<nat>, reqs: map<nat, Request>, t: nat, p: Progress)
    requires StdoutOk(msgs, tasks, consumed, reqs) && SentOk(msgs, tasks, consumed)
    requires t < |tasks| && !tasks[t].progress.Sent? && !p.Sent?
    ensures StdoutOk(msgs, Progressing(tasks, t, p), consumed, reqs) && SentOk(msgs, Progressing(tasks, t, p), consumed)
  {
    TasksGrow(tasks, Progressing(tasks, t, p));
  }

  lemma ProgressMail(
    mail: map<nat, Reply>, tasks: seq<Task>, consumed: set<nat>, owner: map<nat, nat>, reqs: map<nat, Request>,
    t: nat, p: Progress)
    requires MailOk(mail, tasks, consumed, owner, reqs)
    requires t < |tasks| && !tasks[t].progress.Sent?
    ensures MailOk(mail, Progressing(tasks, t, p), consumed, owner, reqs)
  {
    TasksGrow(tasks, Progressing(tasks, t, p));
  }

  lemma ProgressKeeps(s: State, t: nat, p: Progress)
    requires Inv(s) && t < |s.tasks| && !s.tasks[t].progress.Sent? && !p.Sent?
    ensures Inv(s.(tasks := Progressing(s.tasks, t, p)))
  {
    ProgressTasks(s.host.stdin, s.tasks, s.written, s.reqs, t, p);
    ProgressStdout(s.stdout, s.tasks, s.consumed, s.reqs, t, p);
    ProgressMail(s.host.mail, s.tasks, s.consumed, s.owner, s.reqs, t, p);
  }

  ghost function SentNow(tasks: seq<Task>, t: nat): seq<Task>
    requires t < |tasks| && tasks[t].progress.Answering?
  {
    tasks[t := tasks[t].(progress := Sent(tasks[t].progress.o))]
  }

  lemma SentTasks(lines: seq<Line>, tasks: seq<Task>, written: set<nat>, reqs: map<nat, Request>, t: nat)
    requires StdinOk(lines, tasks, written, reqs) && TasksOk(tasks, written, reqs)
      && NothingVanishes(written, lines, tasks)
    requires t < |tasks| && tasks[t].progress.Answering?
    ensures StdinOk(lines, SentNow(tasks, t), written, reqs) && TasksOk(SentNow(tasks, t), written, reqs)
    ensures NothingVanishes(written, lines, SentNow(tasks, t))
  {
    TasksGrow(tasks, SentNow(tasks, t));
  }

  lemma SentStdout(
    msgs: seq<RpcMessage>, tasks: seq<Task>, consumed: set<nat>, written: set<nat>, reqs: map<nat, Request>, t: nat)
    requires StdoutOk(msgs, tasks, consumed, reqs) && SentOk(msgs, tasks, consumed) && TasksOk(tasks, written, reqs)
    requires t < |tasks| && tasks[t].progress.Answering?
    ensures StdoutOk(msgs + [Respond(tasks[t].id, tasks[t].progress.o)], SentNow(tasks, t), consumed, reqs)
  {
    TasksGrow(tasks, SentNow(tasks, t));
    if tasks[t].id.Some? {
      var i := tasks[t].id.value;
      assert Ran(SentNow(tasks, t), t, i, tasks[t].req, Seen(tasks[t].progress.o));
      NotYetOut(msgs, tasks, consumed, reqs, t, i);
    }
  }

  /** A task that has not written its reply has none in stdout or taken from it. */
  lemma NotYetOut(msgs: seq<RpcMessage>, tasks: seq<Task>, consumed: set<nat>, reqs: map<nat, Request>, t: nat, i: nat)
    requires StdoutOk(msgs, tasks, consumed, reqs) && SentOk(msgs, tasks, consumed)
    requires t < |tasks| && tasks[t].id == Some(i) && !tasks[t].progress.Sent?
    requires forall u :: 0 <= u < |tasks| && tasks[u].id == Some(i) ==> u == t
    ensures i !in consumed && !InStdout(msgs, i)
  {
  }

  lemma SentSent(msgs: seq<RpcMessage>, tasks: seq<Task>, consumed: set<nat>, t: nat)
    requires SentOk(msgs, tasks, consumed)
    requires t < |tasks| && tasks[t].progress.Answering?
    ensures SentOk(msgs + [Respond(tasks[t].id, tasks[t].progress.o)], SentNow(tasks, t), consumed)
  {
    TasksGrow(tasks, SentNow(tasks, t));
    MessagesMove(msgs, Respond(tasks[t].id, tasks[t].progress.o));
  }

  lemma SentMail(
    mail: map<nat, Reply>, tasks: seq<Task>, consumed: set<nat>, owner: map<nat, nat>, reqs: map<nat, Request>, t: nat)
    requires MailOk(mail, tasks, consumed, owner, reqs)
    requires t < |tasks| && tasks[t].progress.Answering?
    ensures MailOk(mail, SentNow(tasks, t), consumed, owner, reqs)
  {
    TasksGrow(tasks, SentNow(tasks, t));
  }

  lemma PluginWritesKeeps(s: State, t: nat)
    requires Inv(s) && Enabled(s, PluginWrites(t))
    ensures Inv(Apply(s, PluginWrites(t)))
  {
    SentTasks(s.host.stdin, s.tasks, s.written, s.reqs, t);
    SentStdout(s.stdout, s.tasks, s.consumed, s.written, s.reqs, t);
    SentSent(s.stdout, s.tasks, s.consumed, t);
    SentMail(s.host.mail, s.tasks, s.consumed, s.owner, s.reqs, t);
  }

  lemma NotifiedStdout(
    msgs: seq<RpcMessage>, tasks: seq<Task>, consumed: set<nat>, reqs: map<nat, Request>, msg: RpcMessage)
    requires StdoutOk(msgs, tasks, consumed, reqs) && SentOk(msgs, tasks, consumed) && msg.id.None?
    ensures StdoutOk(msgs + [msg], tasks, consumed, reqs) && SentOk(msgs + [msg], tasks, consumed)
  {
    MessagesMove(msgs, msg);
  }

  lemma NotifyKeeps(s: State, msg: RpcMessage)
    requires Inv(s) && msg.id.None?
    ensures Inv(s.(stdout := s.stdout + [msg]))
  {
    NotifiedStdout(s.stdout, s.tasks, s.consumed, s.reqs, msg);
  }

  lemma TakenStdout(msgs: seq<RpcMessage>, tasks: seq<Task>, consumed: set<nat>, reqs: map<nat, Request>, i: nat)
    requires StdoutOk(msgs, tasks, consumed, reqs) && msgs != []
    requires msgs[0].id == Some(i)
    ensures StdoutOk(msgs[1..], tasks, consumed + {i}, reqs)
  {
  }

  lemma TakenSent(msgs: seq<RpcMessage>, tasks: seq<Task>, consumed: set<nat>, reqs: map<nat, Request>, i: nat)
    requires StdoutOk(msgs, tasks, consumed, reqs) && SentOk(msgs, tasks, consumed) && msgs != []
    requires msgs[0].id == Some(i)
    ensures SentOk(msgs[1..], tasks, consumed + {i})
  {
    MessagesMove(msgs, msgs[0]);
    var t: nat :| Ran(tasks, t, i, reqs[i], ReplyOf(msgs[0]));
    assert HasSent(tasks, i);
  }

  /** A used sender: the mail it left is the answer to its own id. */
  lemma DeliveredMail(
    mail: map<nat, Reply>, tasks: seq<Task>, consumed: set<nat>, owner: map<nat, nat>, reqs: map<nat, Request>,
    i: nat, r: Reply)
    requires MailOk(mail, tasks, consumed, owner, reqs)
    requires i in owner && forall j :: j in owner && owner[j] == owner[i] ==> j == i
    requires i in reqs && Answered(tasks, i, reqs[i], r)
    ensures MailOk(mail[owner[i] := r], tasks, consumed + {i}, owner, reqs)
  {
  }

  lemma DeliveredOutcomes(
    mail: map<nat, Reply>, calls: seq<Invocation>, consumed: set<nat>, owner: map<nat, nat>, i: nat, r: Reply)
    requires OutcomesOk(mail, calls, consumed, owner)
    requires i in owner && owner[i] < |calls| && calls[owner[i]].id.Some? && owner[i] !in mail
    ensures OutcomesOk(mail[owner[i] := r], calls, consumed + {i}, owner)
  {
  }

  lemma DeliveredPending(
    pending: map<nat, nat>, mail: map<nat, Reply>, calls: seq<Invocation>, owner: map<nat, nat>, i: nat, r: Reply)
    requires PendingOk(pending, mail, calls, owner)
    requires i in pending && forall j :: j in owner && owner[j] == owner[i] ==> j == i
    ensures PendingOk(pending - {i}, mail[owner[i] := r], calls, owner)
  {
  }

  /** A reply nobody waits for belongs to a call that has timed out. */
  lemma LateReply(s: State, i: nat)
    requires Inv(s) && InStdout(s.stdout, i) && i !in s.host.pending
    ensures i in s.owner && s.calls[s.owner[i]].phase == Returned(TimeoutError)
  {
    var k :| 0 <= k < |s.stdout| && s.stdout[k].id == Some(i);
    var t: nat :| Ran(s.tasks, t, i, s.reqs[i], ReplyOf(s.stdout[k]));
    assert i in s.written;
  }

  /** A line without an id leaves. */
  lemma DroppedStdout(msgs: seq<RpcMessage>, tasks: seq<Task>, consumed: set<nat>, reqs: map<nat, Request>)
    requires StdoutOk(msgs, tasks, consumed, reqs) && SentOk(msgs, tasks, consumed)
    requires msgs != [] && msgs[0].id.None?
    ensures StdoutOk(msgs[1..], tasks, consumed, reqs) && SentOk(msgs[1..], tasks, consumed)
  {
    MessagesMove(msgs, msgs[0]);
  }

  lemma DropKeeps(s: State)
    requires Inv(s) && s.stdout != [] && s.stdout[0].id.None?
    ensures Inv(s.(stdout := s.stdout[1..]))
  {
    DroppedStdout(s.stdout, s.tasks, s.consumed, s.reqs);
  }

  lemma LateMail(
    mail: map<nat, Reply>, tasks: seq<Task>, consumed: set<nat>, owner: map<nat, nat>, reqs: map<nat, Request>, i: nat)
    requires MailOk(mail, tasks, consumed, owner, reqs)
    ensures MailOk(mail, tasks, consumed + {i}, owner, reqs)
  {
  }

  lemma LateOutcomes(mail: map<nat, Reply>, calls: seq<Invocation>, consumed: set<nat>, owner: map<nat, nat>, i: nat)
    requires OutcomesOk(mail, calls, consumed, owner)
    requires i in owner && owner[i] < |calls| && calls[owner[i]].phase == Returned(TimeoutError)
    ensures OutcomesOk(mail, calls, consumed + {i}, owner)
  {
  }

  lemma LateKeeps(s: State, i: nat)
    requires Inv(s) && s.stdout != [] && s.stdout[0].id == Some(i) && i !in s.host.pending
    ensures Inv(s.(stdout := s.stdout[1..], consumed := s.consumed + {i}))
  {
    TakenStdout(s.stdout, s.tasks, s.consumed, s.reqs, i);
    TakenSent(s.stdout, s.tasks, s.consumed, s.reqs, i);
    assert s.stdout[0].id == Some(i);
    LateReply(s, i);
    LateMail(s.host.mail, s.tasks, s.consumed, s.owner, s.reqs, i);
    LateOutcomes(s.host.mail, s.calls, s.consumed, s.owner, i);
  }

  lemma DeliverKeeps(s: State, i: nat, r: Reply)
    requires Inv(s) && s.stdout != [] && s.stdout[0].id == Some(i) && i in s.host.pending && r == ReplyOf(s.stdout[0])
    ensures
      var h := s.host.(pending := s.host.pending - {i}, mail := s.host.mail[s.owner[i] := r]);
      Inv(s.(host := h, stdout := s.stdout[1..], consumed := s.consumed + {i}))
  {
    TakenStdout(s.stdout, s.tasks, s.consumed, s.reqs, i);
    TakenSent(s.stdout, s.tasks, s.consumed, s.reqs, i);
    OwnId(s, s.owner[i]);
    DeliveredMail(s.host.mail, s.tasks, s.consumed, s.owner, s.reqs, i, r);
    DeliveredOutcomes(s.host.mail, s.calls, s.consumed, s.owner, i, r);
    DeliveredPending(s.host.pending, s.host.mail, s.calls, s.owner, i, r);
  }

  lemma ReaderTakesKeeps(s: State)
    requires Inv(s) && Enabled(s, ReaderTakes)
    ensures Inv(Apply(s, ReaderTakes))
  {
    var msg := s.stdout[0];
    if msg.id.None? {
      DropKeeps(s);
    } else if msg.id.value in s.host.pending {
      assert s.host.pending[msg.id.value] == s.owner[msg.id.value];
      DeliverKeeps(s, msg.id.value, ReplyOf(msg));
    } else {
      LateKeeps(s, msg.id.value);
    }
  }

  // ---------------------------------------------------------------- what holds of every run

  lemma FailureKeeps(s: State, e: Event)
    requires Inv(s) && Enabled(s, e) && (e.WriteFails? || e.FlushFails?)
    ensures Inv(Apply(s, e))
  {
    match e
    case WriteFails(c, partial) => PhaseKeeps(s, s.host.torn || partial, c, Returned(IoError));
    case FlushFails(c) => PhaseKeeps(s, s.host.torn, c, Returned(IoError));
  }

  lemma WaitKeeps(s: State, e: Event)
    requires Inv(s) && Enabled(s, e) && (e.FlushOk? || e.TimerFires? || e.Return?)
    ensures Inv(Apply(s, e))
  {
    match e
    case FlushOk(c) => PhaseKeeps(s, s.host.torn, c, Waiting);
    case TimerFires(c) => PhaseKeeps(s, s.host.torn, c, Expired);
    case Return(c) => PhaseKeeps(s, s.host.torn, c, Returned(FromPlugin(s.host.mail[c])));
  }

  lemma PluginEventKeeps(s: State, e: Event)
    requires Inv(s) && Enabled(s, e)
    requires e.PluginReads? || e.DispatchEnds? || e.PluginWrites? || e.PluginLoses? || e.Notify?
    ensures Inv(Apply(s, e))
  {
    match e
    case PluginReads => PluginReadsKeeps(s);
    case DispatchEnds(t, o) => ProgressKeeps(s, t, Answering(o));
    case PluginWrites(t) => PluginWritesKeeps(s, t);
    case PluginLoses(t) => ProgressKeeps(s, t, Lost(s.tasks[t].progress.o));
    case Notify(name, params) => NotifyKeeps(s, Notification(name, params));
  }

  lemma CallEventKeeps(s: State, e: Event)
    requires Inv(s) && Enabled(s, e)
    requires e.Enter? || e.Alloc? || e.Register? || e.Write? || e.TimeoutRemoves? || e.ReturnDropped?
    ensures Inv(Apply(s, e))
  {
    match e
    case Enter(req) => EnterKeeps(s, req);
    case Alloc(c) => AllocKeeps(s, c);
    case Register(c) => RegisterKeeps(s, c);
    case Write(c) => WriteKeeps(s, c);
    case TimeoutRemoves(c) => TimeoutRemovesKeeps(s, c);
    case ReturnDropped(c) => SenderStays(s, c);
  }

  lemma StopKeeps(s: State, e: Event)
    requires Inv(s) && (e.ReaderStops? || e.Shutdown?)
    ensures Inv(Apply(s, e))
  {
  }

  lemma StepKeeps(s: State, e: Event)
    requires Inv(s) && Enabled(s, e)
    ensures Inv(Apply(s, e))
  {
    if e.ReaderTakes? {
      ReaderTakesKeeps(s);
    } else if e.ReaderStops? || e.Shutdown? {
      StopKeeps(s, e);
    } else if e.PluginReads? || e.DispatchEnds? || e.PluginWrites? || e.PluginLoses? || e.Notify? {
      PluginEventKeeps(s, e);
    } else if e.WriteFails? || e.FlushFails? {
      FailureKeeps(s, e);
    } else if e.FlushOk? || e.TimerFires? || e.Return? {
      WaitKeeps(s, e);
    } else {
      CallEventKeeps(s, e);
    }
  }

  lemma {:induction false} RunKeeps(es: seq<Event>)
    requires Legal(es)
    ensures Inv(After(es))
  {
    if es != [] {
      RunKeeps(es[..|es| - 1]);
      StepKeeps(After(es[..|es| - 1]), es[|es| - 1]);
    }
  }

  lemma Extend(es: seq<Event>, e: Event)
    requires Legal(es) && Enabled(After(es), e)
    ensures Legal(es + [e]) && After(es + [e]) == Apply(After(es), e)
  {
    assert (es + [e])[..|es|] == es;
  }

  lemma LastOf(es: seq<Event>)
    requires es != []
    ensures forall e :: e in es <==> e in es[..|es| - 1] || e == es[|es| - 1]
  {
    assert es == es[..|es| - 1] + [es[|es| - 1]];
  }

  predicate AboutTask(e: Event, t: nat) {
    (e.DispatchEnds? && e.t == t) || (e.PluginWrites? && e.t == t) || (e.PluginLoses? && e.t == t)
  }

  lemma TaskStepped(s: State, e: Event, t: nat)
    requires Enabled(s, e)
    ensures |s.tasks| <= |Apply(s, e).tasks| <= |s.tasks| + 1
    ensures AboutTask(e, t) ==> t < |s.tasks|
    ensures t < |s.tasks| ==> Apply(s, e).tasks[t].id == s.tasks[t].id
    ensures t == |s.tasks| < |Apply(s, e).tasks| && Apply(s, e).tasks[t].id.Some? ==>
      Apply(s, e).tasks[t].progress.Running?
    ensures t < |s.tasks| ==> ProgressStep(s.tasks[t].progress, t, e, Apply(s, e).tasks[t].progress)
  {
  }

  /** What an event makes of the progress of a task. */
  ghost predicate ProgressStep(p: Progress, t: nat, e: Event, p': Progress) {
    if !AboutTask(e, t) then p' == p
    else if e.DispatchEnds? then p.Running? && p' == Answering(e.o)
    else p.Answering? && p' == if e.PluginWrites? then Sent(p.o) else Lost(p.o)
  }

  lemma {:induction false} NoTaskNoEvents(es: seq<Event>, t: nat)
    requires Legal(es) && t >= |After(es).tasks|
    ensures forall e :: e in es ==> !AboutTask(e, t)
  {
    if es != [] {
      TaskStepped(After(es[..|es| - 1]), es[|es| - 1], t);
      NoTaskNoEvents(es[..|es| - 1], t);
      LastOf(es);
    }
  }

  /** A task's progress is what the events say: it carries the outcome that its dispatch ended
      with, and has been sent or lost exactly when the plugin has written or lost its reply. */
  ghost predicate ProgressIs(es: seq<Event>, t: nat, p: Progress) {
    && (forall o :: DispatchEnds(t, o) in es <==> !p.Running? && p.o == o)
    && (PluginWrites(t) in es <==> p.Sent?)
    && (PluginLoses(t) in es <==> p.Lost?)
  }

  lemma NewTask(es: seq<Event>, t: nat)
    requires forall e :: e in es ==> !AboutTask(e, t)
    ensures ProgressIs(es, t, Running)
  {
  }

  lemma ProgressMoves(es: seq<Event>, t: nat, p: Progress, e: Event, p': Progress)
    requires ProgressIs(es, t, p) && ProgressStep(p, t, e, p')
    ensures ProgressIs(es + [e], t, p')
  {
    LastOf(es + [e]);
  }

  lemma {:induction false} TaskFromEvents(es: seq<Event>, t: nat)
    requires Legal(es) && t < |After(es).tasks| && After(es).tasks[t].id.Some?
    ensures ProgressIs(es, t, After(es).tasks[t].progress)
  {
    var init, e := es[..|es| - 1], es[|es| - 1];
    assert es == init + [e];
    TaskStepped(After(init), e, t);
    if t < |After(init).tasks| {
      TaskFromEvents(init, t);
      ProgressMoves(init, t, After(init).tasks[t].progress, e, After(es).tasks[t].progress);
    } else {
      NoTaskNoEvents(init, t);
      NewTask(init, t);
      ProgressMoves(init, t, Running, e, Running);
    }
  }

  lemma AnsweredBy(es: seq<Event>, i: nat, req: Request, r: Reply) returns (t: nat, o: Outcome)
    requires Legal(es) && Answered(After(es).tasks, i, req, r)
    ensures t < |After(es).tasks| && After(es).tasks[t].id == Some(i) && After(es).tasks[t].req == req
    ensures DispatchEnds(t, o) in es && r == Seen(o)
  {
    t :| Ran(After(es).tasks, t, i, req, r);
    o := After(es).tasks[t].progress.o;
    TaskFromEvents(es, t);
  }

  /** A call that returns a plugin answer returns the outcome of the one dispatch that was run
      on its own method and params, as that dispatch answered, whatever the interleaving. */
  lemma OwnOutcome(es: seq<Event>, c: nat, r: Reply)
    requires Legal(es)
    requires c < |After(es).calls| && After(es).calls[c].phase == Returned(FromPlugin(r))
    ensures
      var s := After(es);
      && s.calls[c].id.Some?
      && (exists t: nat, o :: t < |s.tasks| && s.tasks[t].id == s.calls[c].id && s.tasks[t].req == s.calls[c].req
                              && DispatchEnds(t, o) in es && r == Seen(o))
      && forall t, u ::
           0 <= t < |s.tasks| && 0 <= u < |s.tasks| && s.tasks[t].id == s.calls[c].id == s.tasks[u].id ==> t == u
  {
    RunKeeps(es);
    var s := After(es);
    assert c in s.host.mail && s.host.mail[c] == r;
    OwnId(s, c);
    var t, o := AnsweredBy(es, s.calls[c].id.value, s.calls[c].req, r);
  }

  /** No two calls ever have the same id. */
  lemma IdsAreFresh(es: seq<Event>, c: nat, d: nat)
    requires Legal(es)
    requires c < d < |After(es).calls| && After(es).calls[c].id.Some?
    ensures After(es).calls[c].id != After(es).calls[d].id
  {
    RunKeeps(es);
    OwnId(After(es), c);
    if After(es).calls[d].id.Some? {
      OwnId(After(es), d);
    }
  }

  /** The pending map is exactly the registered calls that are neither answered nor removed by
      their timeout, those whose write failed included. */
  lemma PendingIsExact(es: seq<Event>, i: nat)
    requires Legal(es)
    ensures
      var s := After(es);
      && (i in s.host.pending <==>
            exists c :: 0 <= c < |s.calls| && s.calls[c].id == Some(i) && Pends(s.calls[c].phase) && c !in s.host.mail)
      && (i in s.host.pending ==> s.host.pending[i] < |s.calls| && s.calls[s.host.pending[i]].id == Some(i))
  {
    RunKeeps(es);
    var s := After(es);
    if c :| 0 <= c < |s.calls| && s.calls[c].id == Some(i) && Pends(s.calls[c].phase) && c !in s.host.mail {
      OwnId(s, c);
    }
    if i in s.host.pending {
      var c := s.host.pending[i];
      assert 0 <= c < |s.calls| && s.calls[c].id == Some(i) && Pends(s.calls[c].phase) && c !in s.host.mail;
    }
  }

  /** When a reply can be read, its sender is in the map unless the call has timed out. */
  lemma EntryBeforeReply(es: seq<Event>, i: nat)
    requires Legal(es) && InStdout(After(es).stdout, i)
    ensures
      var s := After(es);
      && i in s.owner && s.owner[i] < |s.calls| && s.calls[s.owner[i]].id == Some(i)
      && (i in s.host.pending <==> s.calls[s.owner[i]].phase != Returned(TimeoutError))
  {
    RunKeeps(es);
    var s := After(es);
    var k :| 0 <= k < |s.stdout| && s.stdout[k].id == Some(i);
    assert i in s.owner;
    if i !in s.host.pending {
      LateReply(s, i);
    }
  }

  /** A call whose payload never reached the pipe leaves its entry behind for good. */
  lemma FailedWriteLeaks(es: seq<Event>, c: nat)
    requires Legal(es)
    requires c < |After(es).calls| && After(es).calls[c].phase == Returned(IoError)
    requires After(es).calls[c].id.Some? ==> After(es).calls[c].id.value !in After(es).written
    ensures
      var s := After(es);
      s.calls[c].id.Some? && s.calls[c].id.value in s.host.pending && s.host.pending[s.calls[c].id.value] == c
  {
    RunKeeps(es);
    var s := After(es);
    OwnId(s, c);
    TaskPlace(s, s.calls[c].id.value);
  }

  /** No caller is ever told that its request was dropped. */
  lemma NeverDropped(es: seq<Event>, c: nat)
    requires Legal(es)
    ensures !Enabled(After(es), ReturnDropped(c))
    ensures c < |After(es).calls| ==> After(es).calls[c].phase != Returned(Dropped)
  {
    RunKeeps(es);
    SenderStays(After(es), c);
  }

  lemma {:induction false} LegalPrefix(es: seq<Event>, k: nat)
    requires Legal(es) && k <= |es|
    ensures Legal(es[..k])
  {
    if k < |es| {
      assert es[..|es| - 1][..k] == es[..k];
      LegalPrefix(es[..|es| - 1], k);
    } else {
      assert es[..k] == es;
    }
  }

  /** A oneshot carries one value: what is in a mailbox at some point of a run is still there,
      unchanged, at the end. */
  lemma {:induction false} OneshotOnce(es: seq<Event>, k: nat, c: nat)
    requires Legal(es) && k <= |es|
    requires Legal(es[..k]) && c in After(es[..k]).host.mail
    ensures c in After(es).host.mail && After(es).host.mail[c] == After(es[..k]).host.mail[c]
  {
    if k < |es| {
      assert es[..|es| - 1][..k] == es[..k];
      OneshotOnce(es[..|es| - 1], k, c);
      RunKeeps(es[..|es| - 1]);
      MailStays(After(es[..|es| - 1]), es[|es| - 1], c);
    } else {
      assert es[..k] == es;
    }
  }

  lemma MailStays(s: State, e: Event, c: nat)
    requires PendingOk(s.host.pending, s.host.mail, s.calls, s.owner) && Enabled(s, e) && c in s.host.mail
    ensures c in Apply(s, e).host.mail && Apply(s, e).host.mail[c] == s.host.mail[c]
  {
    match e
    case ReaderTakes => DeliverKeepsMail(s.host, s.stdout[0], s.calls, s.owner, c);
    case _ =>
  }

  lemma DeliverKeepsMail(h: Host, msg: RpcMessage, calls: seq<Invocation>, owner: map<nat, nat>, c: nat)
    requires PendingOk(h.pending, h.mail, calls, owner) && c in h.mail
    ensures c in Deliver(h, msg).mail && Deliver(h, msg).mail[c] == h.mail[c]
  {
  }

  /** Taking a line from the plugin changes nothing for any call but the one with its id. */
  lemma DeliveryIsPrivate(es: seq<Event>, c: nat)
    requires Legal(es) && Enabled(After(es), ReaderTakes)
    requires c < |After(es).calls| && (After(es).calls[c].id.None? || After(es).calls[c].id != After(es).stdout[0].id)
    ensures
      var s := After(es);
      var s' := Apply(s, ReaderTakes);
      && s'.calls == s.calls
      && (c in s.host.mail <==> c in s'.host.mail) && (c in s.host.mail ==> s'.host.mail[c] == s.host.mail[c])
      && forall i :: s.calls[c].id == Some(i) ==>
           (i in s.host.pending <==> i in s'.host.pending)
             && (i in s.host.pending ==> s'.host.pending[i] == s.host.pending[i])
  {
    RunKeeps(es);
    DeliverElsewhere(After(es), c);
  }

  lemma DeliverElsewhere(s: State, c: nat)
    requires CallsOk(s.calls, s.owner, s.reqs, s.host.nextId)
      && PendingOk(s.host.pending, s.host.mail, s.calls, s.owner)
    requires s.stdout != [] && c < |s.calls| && (s.calls[c].id.None? || s.calls[c].id != s.stdout[0].id)
    ensures
      var h := Deliver(s.host, s.stdout[0]);
      && (c in s.host.mail <==> c in h.mail) && (c in s.host.mail ==> h.mail[c] == s.host.mail[c])
  {
  }

  /** A reply that comes after its call's timeout is read and changes nothing at all. */
  lemma LateReplyIsDropped(es: seq<Event>, c: nat)
    requires Legal(es) && Enabled(After(es), ReaderTakes) && After(es).stdout[0].id.Some?
    requires c < |After(es).calls| && After(es).calls[c].id == After(es).stdout[0].id
    requires After(es).calls[c].phase == Returned(TimeoutError)
    ensures Apply(After(es), ReaderTakes).host == After(es).host
  {
    RunKeeps(es);
    OwnId(After(es), c);
  }

  lemma GarbledHasNoMail(s: State, c: nat)
    requires Inv(s) && c < |s.calls| && s.calls[c].id.Some? && s.calls[c].id.value in s.garbled
    ensures c !in s.host.mail
  {
    OwnId(s, c);
    TaskPlace(s, s.calls[c].id.value);
  }

  lemma NoMailNoAnswer(s: State, c: nat)
    requires CallsOk(s.calls, s.owner, s.reqs, s.host.nextId) && OutcomesOk(s.host.mail, s.calls, s.consumed, s.owner)
    requires c < |s.calls| && s.calls[c].phase.Returned? && c !in s.host.mail
    ensures s.calls[c].phase.answer.IoError? || s.calls[c].phase.answer.TimeoutError?
  {
  }

  /** A call whose request was glued to the remains of another never gets an answer: it can only
      return an I/O error of its flush or its timeout. */
  lemma GarbledOnlyTimesOut(es: seq<Event>, c: nat)
    requires Legal(es) && c < |After(es).calls| && After(es).calls[c].id.Some?
    requires After(es).calls[c].id.value in After(es).garbled
    ensures
      var s := After(es);
      && c !in s.host.mail
      && (s.calls[c].phase.Returned? ==> s.calls[c].phase.answer.IoError? || s.calls[c].phase.answer.TimeoutError?)
  {
    RunKeeps(es);
    GarbledHasNoMail(After(es), c);
    if After(es).calls[c].phase.Returned? {
      NoMailNoAnswer(After(es), c);
    }
  }

  // ---------------------------------------------------------------- where a request is

  ghost predicate Working(tasks: seq<Task>, i: nat) {
    exists t :: 0 <= t < |tasks| && tasks[t].id == Some(i)
      && (tasks[t].progress.Running? || tasks[t].progress.Answering?)
  }

  ghost predicate ReplyLost(tasks: seq<Task>, i: nat) {
    exists t :: 0 <= t < |tasks| && tasks[t].id == Some(i) && tasks[t].progress.Lost?
  }

  function One(b: bool): nat {
    if b then 1 else 0
  }

  /** In how many of the seven places id `i` is. */
  ghost function Places(s: State, i: nat): nat {
    One(i !in s.written && i !in s.garbled) + One(i in s.garbled)
    + One(InStdin(s.host.stdin, i)) + One(Working(s.tasks, i)) + One(ReplyLost(s.tasks, i))
    + One(InStdout(s.stdout, i)) + One(i in s.consumed)
  }

  /** Conservation: every id is in exactly one place, at every point of every run: not yet
      written, glued to a torn write, a line in stdin, a plugin task, lost by the plugin, a line
      in stdout, or taken by the reader. */
  lemma OnePlace(es: seq<Event>, i: nat)
    requires Legal(es)
    ensures Places(After(es), i) == 1
  {
    RunKeeps(es);
    TaskPlace(After(es), i);
    StdinPlace(After(es), i);
  }

  lemma StdinPlace(s: State, i: nat)
    requires StdinOk(s.host.stdin, s.tasks, s.written, s.reqs)
    ensures InStdin(s.host.stdin, i) ==> i in s.written && !HasTask(s.tasks, i)
  {
  }

  /** The four things that can have become of a task exclude each other. */
  lemma TaskPlace(s: State, i: nat)
    requires TasksOk(s.tasks, s.written, s.reqs) && SentOk(s.stdout, s.tasks, s.consumed)
    requires StdoutOk(s.stdout, s.tasks, s.consumed, s.reqs)
    ensures HasTask(s.tasks, i) ==> i in s.written
    ensures HasTask(s.tasks, i) <==> Working(s.tasks, i) || ReplyLost(s.tasks, i) || HasSent(s.tasks, i)
    ensures !(Working(s.tasks, i) && ReplyLost(s.tasks, i)) && !(Working(s.tasks, i) && HasSent(s.tasks, i))
      && !(ReplyLost(s.tasks, i) && HasSent(s.tasks, i))
    ensures HasSent(s.tasks, i) <==> InStdout(s.stdout, i) || i in s.consumed
    ensures i in s.consumed ==> !InStdout(s.stdout, i)
  {
  }

  /** No event of the run broke off a write or lost a reply. */
  predicate Clean(es: seq<Event>) {
    forall k :: 0 <= k < |es| ==> !es[k].PluginLoses? && !(es[k].WriteFails? && es[k].partial)
  }

  ghost predicate Undamaged(s: State) {
    !s.host.torn && s.garbled == {} && forall t :: 0 <= t < |s.tasks| ==> !s.tasks[t].progress.Lost?
  }

  lemma CleanStep(s: State, e: Event)
    requires Undamaged(s) && Enabled(s, e) && !e.PluginLoses? && !(e.WriteFails? && e.partial)
    ensures Undamaged(Apply(s, e))
  {
  }

  lemma {:induction false} CleanRun(es: seq<Event>)
    requires Legal(es) && Clean(es)
    ensures Undamaged(After(es))
  {
    if es != [] {
      CleanRun(es[..|es| - 1]);
      CleanStep(After(es[..|es| - 1]), es[|es| - 1]);
    }
  }

  /** Once the pipes and the plugin's tasks are empty, no written call is still without an
      answer: those that wait have it in their mailbox, the others have returned. */
  lemma NobodyLeftWaiting(es: seq<Event>, c: nat)
    requires Legal(es) && Clean(es)
    requires After(es).host.stdin == [] && After(es).stdout == []
    requires forall t :: 0 <= t < |After(es).tasks| ==> After(es).tasks[t].progress.Sent?
    requires c < |After(es).calls| && MustHaveWritten(After(es).calls[c].phase)
    ensures c in After(es).host.mail || After(es).calls[c].phase == Returned(TimeoutError)
  {
    RunKeeps(es);
    CleanRun(es);
    var s := After(es);
    OwnId(s, c);
    var i := s.calls[c].id.value;
    assert HasTask(s.tasks, i);
    var t :| 0 <= t < |s.tasks| && s.tasks[t].id == Some(i);
    assert i in s.consumed;
  }
}
