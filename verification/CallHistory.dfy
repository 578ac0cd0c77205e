/** What the events of a multiplexer run say about its state: who asked what, who got which kind of
    answer and why, and that both pipes are queues.  And that a call does get its answer. */
module CallHistory {
  import opened Wrappers
  import opened Multiplexer

  // ---------------------------------------------------------------- calls

  function Asked(es: seq<Event>): seq<Request> {
    if es == [] then []
    else
      var e := es[|es| - 1];
      Asked(es[..|es| - 1]) + if e.Enter? then [e.req] else []
  }

  lemma CallsStep(s: State, e: Event)
    requires Enabled(s, e)
    ensures |Apply(s, e).calls| == |s.calls| + if e.Enter? then 1 else 0
    ensures e.Enter? ==> Apply(s, e).calls[|s.calls|].req == e.req
    ensures forall c :: 0 <= c < |s.calls| ==> Apply(s, e).calls[c].req == s.calls[c].req
  {
  }

  /** Calls are numbered as they enter, and keep their request. */
  lemma {:induction false} CallsAreAsked(es: seq<Event>)
    requires Legal(es)
    ensures |After(es).calls| == |Asked(es)|
    ensures forall c :: 0 <= c < |Asked(es)| ==> After(es).calls[c].req == Asked(es)[c]
  {
    if es != [] {
      CallsAreAsked(es[..|es| - 1]);
      CallsStep(After(es[..|es| - 1]), es[|es| - 1]);
    }
  }

  function CallOf(e: Event): Option<nat> {
    match e
    case Alloc(c) => Some(c)
    case Register(c) => Some(c)
    case Write(c) => Some(c)
    case WriteFails(c, _) => Some(c)
    case FlushOk(c) => Some(c)
    case FlushFails(c) => Some(c)
    case TimerFires(c) => Some(c)
    case TimeoutRemoves(c) => Some(c)
    case Return(c) => Some(c)
    case ReturnDropped(c) => Some(c)
    case _ => None
  }

  lemma CallExists(s: State, e: Event, c: nat)
    requires Enabled(s, e) && CallOf(e) == Some(c)
    ensures c < |s.calls|
  {
  }

  lemma {:induction false} NoCallNoEvents(es: seq<Event>, c: nat)
    requires Legal(es) && c >= |After(es).calls|
    ensures forall e :: e in es ==> CallOf(e) != Some(c)
  {
    if es != [] {
      var init, e := es[..|es| - 1], es[|es| - 1];
      CallsStep(After(init), e);
      NoCallNoEvents(init, c);
      LastOf(es);
      if CallOf(e) == Some(c) {
        CallExists(After(init), e, c);
      }
    }
  }

  ghost predicate WriteFailed(es: seq<Event>, c: nat) {
    WriteFails(c, true) in es || WriteFails(c, false) in es
  }

  /** How far a call is, from what has happened to it. */
  ghost predicate PhaseIs(es: seq<Event>, c: nat, p: Phase) {
    StartIs(es, c, p) && EndIs(es, c, p)
  }

  ghost predicate StartIs(es: seq<Event>, c: nat, p: Phase) {
    && (Alloc(c) in es <==> !p.Entered?)
    && (Register(c) in es <==> !p.Entered? && !p.Allocated?)
    && (Write(c) in es || WriteFailed(es, c) <==> !p.Entered? && !p.Allocated? && !p.Registered?)
    && (FlushOk(c) in es <==> p.Waiting? || p.Expired? || (p.Returned? && !p.answer.IoError?))
  }

  ghost predicate EndIs(es: seq<Event>, c: nat, p: Phase) {
    && (WriteFailed(es, c) || FlushFails(c) in es <==> p == Returned(IoError))
    && (TimerFires(c) in es <==> p.Expired? || p == Returned(TimeoutError))
    && (TimeoutRemoves(c) in es <==> p == Returned(TimeoutError))
    && (Return(c) in es <==> p.Returned? && p.answer.FromPlugin?)
    && (ReturnDropped(c) in es <==> p == Returned(Dropped))
  }

  /** What an event makes of the phase of the call it is about. */
  ghost predicate PhaseStep(p: Phase, e: Event, p': Phase) {
    match e
    case Alloc(_) => p.Entered? && p'.Allocated?
    case Register(_) => p.Allocated? && p'.Registered?
    case Write(_) => p.Registered? && p'.Flushing?
    case WriteFails(_, _) => p.Registered? && p' == Returned(IoError)
    case FlushOk(_) => p.Flushing? && p'.Waiting?
    case FlushFails(_) => p.Flushing? && p' == Returned(IoError)
    case TimerFires(_) => p.Waiting? && p'.Expired?
    case TimeoutRemoves(_) => p.Expired? && p' == Returned(TimeoutError)
    case Return(_) => p.Waiting? && p'.Returned? && p'.answer.FromPlugin?
    case ReturnDropped(_) => p.Waiting? && p' == Returned(Dropped)
    case _ => false
  }

  lemma StartReached(es: seq<Event>, c: nat, p: Phase, e: Event, p': Phase)
    requires StartIs(es, c, p) && CallOf(e) == Some(c) && PhaseStep(p, e, p')
    ensures StartIs(es + [e], c, p')
  {
    LastOf(es + [e]);
  }

  lemma EndReached(es: seq<Event>, c: nat, p: Phase, e: Event, p': Phase)
    requires EndIs(es, c, p) && CallOf(e) == Some(c) && PhaseStep(p, e, p')
    ensures EndIs(es + [e], c, p')
  {
    LastOf(es + [e]);
  }

  lemma StartStays(es: seq<Event>, c: nat, p: Phase, e: Event)
    requires StartIs(es, c, p) && CallOf(e) != Some(c)
    ensures StartIs(es + [e], c, p)
  {
    LastOf(es + [e]);
  }

  lemma EndStays(es: seq<Event>, c: nat, p: Phase, e: Event)
    requires EndIs(es, c, p) && CallOf(e) != Some(c)
    ensures EndIs(es + [e], c, p)
  {
    LastOf(es + [e]);
  }

  lemma PhaseMoves(es: seq<Event>, c: nat, p: Phase, e: Event, p': Phase)
    requires PhaseIs(es, c, p)
    requires if CallOf(e) == Some(c) then PhaseStep(p, e, p') else p' == p
    ensures PhaseIs(es + [e], c, p')
  {
    if CallOf(e) == Some(c) {
      StartReached(es, c, p, e, p');
      EndReached(es, c, p, e, p');
    } else {
      StartStays(es, c, p, e);
      EndStays(es, c, p, e);
    }
  }

  lemma NewCall(es: seq<Event>, c: nat)
    requires forall e :: e in es ==> CallOf(e) != Some(c)
    ensures PhaseIs(es, c, Entered)
  {
  }

  lemma PhaseStepped(s: State, e: Event, c: nat)
    requires Enabled(s, e) && c < |s.calls|
    ensures
      var p, p' := s.calls[c].phase, Apply(s, e).calls[c].phase;
      if CallOf(e) == Some(c) then PhaseStep(p, e, p') else p' == p
  {
  }

  /** In every run, a call has the answer that the events about it say: an I/O error exactly when
      its write or its flush failed, a timeout exactly when its timer fired and it was removed, a
      plugin answer exactly when it received one. */
  lemma {:induction false} PhaseFromEvents(es: seq<Event>, c: nat)
    requires Legal(es) && c < |After(es).calls|
    ensures PhaseIs(es, c, After(es).calls[c].phase)
  {
    var init, e := es[..|es| - 1], es[|es| - 1];
    assert es == init + [e];
    if c < |After(init).calls| {
      PhaseFromEvents(init, c);
      PhaseStepped(After(init), e, c);
      PhaseMoves(init, c, After(init).calls[c].phase, e, After(es).calls[c].phase);
    } else {
      NoCallNoEvents(init, c);
      NewCall(init, c);
      PhaseMoves(init, c, Entered, e, Entered);
    }
  }

  /** What can happen to a call next, in a given phase. */
  ghost predicate Next(p: Phase, answered: bool, e: Event) {
    match p
    case Entered => e.Alloc?
    case Allocated => e.Register?
    case Registered => e.Write? || e.WriteFails?
    case Flushing => e.FlushOk? || e.FlushFails?
    case Waiting => if answered then e.Return? else e.TimerFires?
    case Expired => e.TimeoutRemoves?
    case Returned(_) => false
  }

  /** In every run a call can go on until it has returned, and only like this: it returns an answer
      if there is one, and else can time out; a write and a flush can succeed and can fail. */
  lemma CallGoesOn(es: seq<Event>, c: nat, e: Event)
    requires Legal(es) && c < |After(es).calls| && CallOf(e) == Some(c)
    ensures Legal(es + [e]) <==> Next(After(es).calls[c].phase, c in After(es).host.mail, e)
  {
    LegalIff(es, e);
    RunKeeps(es);
    CallNext(After(es), c, e);
  }

  lemma CallNext(s: State, c: nat, e: Event)
    requires Inv(s) && c < |s.calls| && CallOf(e) == Some(c)
    ensures Enabled(s, e) <==> Next(s.calls[c].phase, c in s.host.mail, e)
  {
    if s.calls[c].phase.Waiting? {
      SenderIsThere(s, c);
      WaitingNext(s, c, e);
    } else {
      OtherNext(s, c, e);
    }
  }

  lemma WaitingNext(s: State, c: nat, e: Event)
    requires c < |s.calls| && s.calls[c].phase.Waiting? && s.calls[c].id.Some? && CallOf(e) == Some(c)
    requires !SenderGone(s.host, c)
    ensures Enabled(s, e) <==> Next(Waiting, c in s.host.mail, e)
  {
  }

  lemma OtherNext(s: State, c: nat, e: Event)
    requires c < |s.calls| && !s.calls[c].phase.Waiting? && CallOf(e) == Some(c)
    requires s.calls[c].phase.Entered? || s.calls[c].id.Some?
    ensures Enabled(s, e) <==> Next(s.calls[c].phase, c in s.host.mail, e)
  {
  }

  lemma SenderIsThere(s: State, c: nat)
    requires Inv(s) && c < |s.calls| && s.calls[c].phase.Waiting?
    ensures !SenderGone(s.host, c)
  {
  }

  /** And a task of the plugin: it ends with any outcome, and its line is written or lost. */
  lemma TaskGoesOn(es: seq<Event>, t: nat, o: Outcome)
    requires Legal(es) && t < |After(es).tasks|
    ensures
      var p, up := After(es).tasks[t].progress, Shutdown !in es;
      && (Legal(es + [DispatchEnds(t, o)]) <==> p.Running? && up)
      && (Legal(es + [PluginWrites(t)]) <==> p.Answering? && up)
      && (Legal(es + [PluginLoses(t)]) <==> p.Answering?)
  {
    LegalIff(es, DispatchEnds(t, o));
    LegalIff(es, PluginWrites(t));
    LegalIff(es, PluginLoses(t));
    StoppedFromEvents(es);
  }

  /** Plugin and reader can take a line whenever there is one and they have not stopped. */
  lemma PluginGoesOn(es: seq<Event>)
    requires Legal(es)
    ensures Legal(es + [PluginReads]) <==> |After(es).tasks| < |LinesIn(es)| && Shutdown !in es
  {
    LegalIff(es, PluginReads);
    StoppedFromEvents(es);
    StdinIsQueue(es);
  }

  lemma ReaderGoesOn(es: seq<Event>)
    requires Legal(es)
    ensures Legal(es + [ReaderTakes]) <==> Taken(es) < |LinesOut(es)| && ReaderStops !in es
  {
    LegalIff(es, ReaderTakes);
    StoppedFromEvents(es);
    StdoutIsQueue(es);
  }

  lemma LegalIff(es: seq<Event>, e: Event)
    requires Legal(es)
    ensures Legal(es + [e]) <==> Enabled(After(es), e)
  {
    assert (es + [e])[..|es|] == es;
  }

  // ---------------------------------------------------------------- the pipes

  /** A write has broken off since the last whole one. */
  predicate BrokenOff(es: seq<Event>) {
    es != []
    && (var init, e := es[..|es| - 1], es[|es| - 1];
        if e.WriteFails? then e.partial || BrokenOff(init) else !e.Write? && BrokenOff(init))
  }

  lemma TornStep(s: State, e: Event)
    requires Enabled(s, e)
    ensures
      Apply(s, e).host.torn
      <==> if e.WriteFails? then e.partial || s.host.torn else !e.Write? && s.host.torn
  {
  }

  /** The pipe is torn exactly then. */
  lemma {:induction false} TornFromEvents(es: seq<Event>)
    requires Legal(es)
    ensures After(es).host.torn <==> BrokenOff(es)
  {
    if es != [] {
      TornFromEvents(es[..|es| - 1]);
      TornStep(After(es[..|es| - 1]), es[|es| - 1]);
    }
  }

  /** The lines that have gone into stdin. */
  function LinesIn(es: seq<Event>): seq<Line>
    requires Legal(es)
  {
    if es == [] then []
    else
      var init, e := es[..|es| - 1], es[|es| - 1];
      LinesIn(init)
      + if !e.Write? then []
        else if BrokenOff(init) then [Torn]
        else [Call(After(init).calls[e.c].id.value, After(init).calls[e.c].req)]
  }

  function TaskFor(line: Line): (Option<nat>, Request) {
    if line.Call? then (Some(line.id), line.req) else (None, Request("", Null))
  }

  ghost predicate TasksFollow(lines: seq<Line>, tasks: seq<Task>) {
    |tasks| <= |lines| && forall t :: 0 <= t < |tasks| ==> (tasks[t].id, tasks[t].req) == TaskFor(lines[t])
  }

  lemma TasksStep(s: State, e: Event)
    requires Enabled(s, e)
    ensures
      var s' := Apply(s, e);
      && (e.PluginReads? ==>
            |s'.tasks| == |s.tasks| + 1
            && (s'.tasks[|s.tasks|].id, s'.tasks[|s.tasks|].req) == TaskFor(s.host.stdin[0])
            && s'.host.stdin == s.host.stdin[1..])
      && (!e.PluginReads? ==> |s'.tasks| == |s.tasks|)
      && forall t :: 0 <= t < |s.tasks| ==> s'.tasks[t].id == s.tasks[t].id && s'.tasks[t].req == s.tasks[t].req
  {
  }

  lemma StdinStep(es: seq<Event>, e: Event)
    requires Legal(es) && Enabled(After(es), e) && !e.PluginReads?
    requires After(es).host.torn <==> BrokenOff(es)
    ensures
      Apply(After(es), e).host.stdin
      == After(es).host.stdin
         + if !e.Write? then []
           else if BrokenOff(es) then [Torn]
           else [Call(After(es).calls[e.c].id.value, After(es).calls[e.c].req)]
  {
  }

  /** Stdin is a queue: the plugin's tasks are the lines written first, in their order, and the
      pipe holds the others. */
  lemma {:induction false} StdinIsQueue(es: seq<Event>)
    requires Legal(es)
    ensures TasksFollow(LinesIn(es), After(es).tasks)
    ensures After(es).host.stdin == LinesIn(es)[|After(es).tasks|..]
  {
    if es != [] {
      var init, e := es[..|es| - 1], es[|es| - 1];
      StdinIsQueue(init);
      TasksStep(After(init), e);
      if !e.PluginReads? {
        TornFromEvents(init);
        StdinStep(init, e);
      }
    }
  }

  /** The lines that have gone into stdout: replies with the outcome their dispatch ended with, and
      notifications. */
  function LinesOut(es: seq<Event>): seq<RpcMessage>
    requires Legal(es)
  {
    if es == [] then []
    else
      var init, e := es[..|es| - 1], es[|es| - 1];
      LinesOut(init)
      + if e.PluginWrites? then [Respond(After(init).tasks[e.t].id, After(init).tasks[e.t].progress.o)]
        else if e.Notify? then [Notification(e.name, e.params)]
        else []
  }

  function Taken(es: seq<Event>): nat {
    if es == [] then 0 else Taken(es[..|es| - 1]) + if es[|es| - 1].ReaderTakes? then 1 else 0
  }

  lemma StdoutStep(s: State, e: Event)
    requires Enabled(s, e)
    ensures
      Apply(s, e).stdout
      == if e.ReaderTakes? then s.stdout[1..]
         else if e.PluginWrites? then s.stdout + [Respond(s.tasks[e.t].id, s.tasks[e.t].progress.o)]
         else if e.Notify? then s.stdout + [Notification(e.name, e.params)]
         else s.stdout
  {
  }

  /** Stdout is a queue too: the reader takes the lines in the order they were written. */
  lemma {:induction false} StdoutIsQueue(es: seq<Event>)
    requires Legal(es)
    ensures Taken(es) <= |LinesOut(es)| && After(es).stdout == LinesOut(es)[Taken(es)..]
  {
    if es != [] {
      var init, e := es[..|es| - 1], es[|es| - 1];
      StdoutIsQueue(init);
      StdoutStep(After(init), e);
      assert e.ReaderTakes? ==> Taken(init) < |LinesOut(init)|;
    }
  }

  /** A line that was no request is answered without an id, with an error. */
  lemma TornIsRefused(es: seq<Event>)
    requires Legal(es) && Enabled(After(es), PluginReads) && After(es).host.stdin[0].Torn?
    ensures
      var task := Apply(After(es), PluginReads).tasks[|After(es).tasks|];
      task.id.None? && task.progress.Answering? && ReplyOf(Respond(task.id, task.progress.o)).Failure?
  {
  }

  lemma StopStep(s: State, e: Event)
    requires Enabled(s, e)
    ensures Apply(s, e).readerUp <==> s.readerUp && !e.ReaderStops?
    ensures Apply(s, e).pluginUp <==> s.pluginUp && !e.Shutdown?
  {
  }

  lemma {:induction false} StoppedFromEvents(es: seq<Event>)
    requires Legal(es)
    ensures After(es).readerUp <==> ReaderStops !in es
    ensures After(es).pluginUp <==> Shutdown !in es
  {
    if es != [] {
      StoppedFromEvents(es[..|es| - 1]);
      StopStep(After(es[..|es| - 1]), es[|es| - 1]);
      LastOf(es);
    }
  }

  // ---------------------------------------------------------------- a call does get its answer

  /** Nothing is under way on the pipes. */
  ghost predicate Quiet(s: State) {
    s.pluginUp && s.readerUp && !s.host.torn && s.host.stdin == [] && s.stdout == []
  }

  /** A new call goes out. */
  function Sending(s: State, req: Request): seq<Event> {
    var c := |s.calls|;
    [Enter(req), Alloc(c), Register(c), Write(c), FlushOk(c)]
  }

  lemma Allocates(es: seq<Event>, req: Request) returns (fs: seq<Event>)
    requires Legal(es)
    ensures fs == es + [Enter(req), Alloc(|After(es).calls|)] && Legal(fs)
    ensures
      var s := After(es);
      var i := s.host.nextId;
      After(fs)
      == s.(calls := s.calls + [Invocation(req, Some(i), Allocated)], host := s.host.(nextId := i + 1),
            owner := s.owner[i := |s.calls|], reqs := s.reqs[i := req])
  {
    var c := |After(es).calls|;
    Extend(es, Enter(req));
    fs := es + [Enter(req)];
    Extend(fs, Alloc(c));
    fs := fs + [Alloc(c)];
  }

  lemma Registers(es: seq<Event>, req: Request) returns (fs: seq<Event>)
    requires Legal(es)
    ensures
      var c := |After(es).calls|;
      fs == es + [Enter(req), Alloc(c), Register(c)] && Legal(fs)
    ensures
      var s := After(es);
      var i := s.host.nextId;
      After(fs)
      == s.(calls := s.calls + [Invocation(req, Some(i), Registered)],
            host := s.host.(nextId := i + 1, pending := s.host.pending[i := |s.calls|]),
            owner := s.owner[i := |s.calls|], reqs := s.reqs[i := req])
  {
    var c := |After(es).calls|;
    var mid := Allocates(es, req);
    Extend(mid, Register(c));
    fs := mid + [Register(c)];
  }

  lemma Flushes(es: seq<Event>, c: nat, i: nat, req: Request) returns (fs: seq<Event>)
    requires Legal(es) && c < |After(es).calls| && After(es).calls[c] == Invocation(req, Some(i), Registered)
    requires !After(es).host.torn
    ensures fs == es + [Write(c), FlushOk(c)] && Legal(fs)
    ensures
      var s, s' := After(es), After(fs);
      && s'.calls == s.calls[c := Invocation(req, Some(i), Waiting)]
      && s'.host == s.host.(stdin := s.host.stdin + [Call(i, req)])
      && s'.tasks == s.tasks && s'.stdout == s.stdout && s'.pluginUp == s.pluginUp && s'.readerUp == s.readerUp
  {
    Extend(es, Write(c));
    fs := es + [Write(c)];
    Extend(fs, FlushOk(c));
    fs := fs + [FlushOk(c)];
  }

  lemma Sends(es: seq<Event>, req: Request) returns (fs: seq<Event>)
    requires Legal(es) && Quiet(After(es))
    ensures fs == es + Sending(After(es), req) && Legal(fs)
    ensures
      var s, s' := After(es), After(fs);
      var i := s.host.nextId;
      && s'.calls == s.calls + [Invocation(req, Some(i), Waiting)]
      && s'.host == Host(i + 1, s.host.pending[i := |s.calls|], s.host.mail, [Call(i, req)], false)
      && s'.tasks == s.tasks && s'.stdout == [] && s'.pluginUp && s'.readerUp
  {
    var mid := Registers(es, req);
    fs := Flushes(mid, |After(es).calls|, After(es).host.nextId, req);
  }

  lemma Dispatches(es: seq<Event>, i: nat, req: Request, o: Outcome) returns (fs: seq<Event>)
    requires Legal(es) && After(es).pluginUp && After(es).host.stdin == [Call(i, req)]
    ensures fs == es + [PluginReads, DispatchEnds(|After(es).tasks|, o)] && Legal(fs)
    ensures
      var s, s' := After(es), After(fs);
      && s'.calls == s.calls && s'.tasks == s.tasks + [Task(Some(i), req, Answering(o))]
      && s'.host == s.host.(stdin := []) && s'.stdout == s.stdout && s'.pluginUp && s'.readerUp == s.readerUp
  {
    Extend(es, PluginReads);
    fs := es + [PluginReads];
    Extend(fs, DispatchEnds(|After(es).tasks|, o));
    fs := fs + [DispatchEnds(|After(es).tasks|, o)];
  }

  lemma Delivers(es: seq<Event>, t: nat, c: nat, i: nat, o: Outcome) returns (fs: seq<Event>)
    requires Legal(es) && After(es).pluginUp && After(es).readerUp && After(es).stdout == []
    requires t < |After(es).tasks| && After(es).tasks[t].id == Some(i) && After(es).tasks[t].progress == Answering(o)
    requires i in After(es).host.pending && After(es).host.pending[i] == c
    ensures fs == es + [PluginWrites(t), ReaderTakes] && Legal(fs)
    ensures After(fs).calls == After(es).calls && c in After(fs).host.mail && After(fs).host.mail[c] == Seen(o)
  {
    Extend(es, PluginWrites(t));
    fs := es + [PluginWrites(t)];
    assert After(fs).stdout == [Respond(Some(i), o)];
    ReplyRoundTrip(Some(i), o);
    Extend(fs, ReaderTakes);
    fs := fs + [ReaderTakes];
  }

  lemma Answers(es: seq<Event>, c: nat, i: nat, req: Request, o: Outcome) returns (fs: seq<Event>)
    requires Legal(es) && After(es).pluginUp && After(es).readerUp
    requires After(es).host.stdin == [Call(i, req)] && After(es).stdout == []
    requires i in After(es).host.pending && After(es).host.pending[i] == c
    ensures
      var t := |After(es).tasks|;
      fs == es + [PluginReads, DispatchEnds(t, o), PluginWrites(t), ReaderTakes] && Legal(fs)
    ensures After(fs).calls == After(es).calls && c in After(fs).host.mail && After(fs).host.mail[c] == Seen(o)
  {
    var mid := Dispatches(es, i, req, o);
    fs := Delivers(mid, |After(es).tasks|, c, i, o);
  }

  /** From every point at which nothing is under way on the pipes: a new call can run to its end,
      and returns what its dispatch answers, whatever that is. */
  lemma CallCompletes(es: seq<Event>, req: Request, o: Outcome) returns (fs: seq<Event>)
    requires Legal(es) && Quiet(After(es))
    ensures
      var c, t := |After(es).calls|, |After(es).tasks|;
      && fs == es + Sending(After(es), req)
               + [PluginReads, DispatchEnds(t, o), PluginWrites(t), ReaderTakes] + [Return(c)]
      && Legal(fs)
      && |After(fs).calls| == c + 1 && After(fs).calls[c].req == req
      && After(fs).calls[c].phase == Returned(FromPlugin(Seen(o)))
  {
    var c, i := |After(es).calls|, After(es).host.nextId;
    var sent := Sends(es, req);
    var taken := Answers(sent, c, i, req, o);
    Extend(taken, Return(c));
    fs := taken + [Return(c)];
  }

  lemma Expires(es: seq<Event>, c: nat, i: nat) returns (fs: seq<Event>)
    requires Legal(es) && c < |After(es).calls| && c !in After(es).host.mail
    requires After(es).calls[c].phase == Waiting && After(es).calls[c].id == Some(i)
    ensures fs == es + [TimerFires(c), TimeoutRemoves(c)] && Legal(fs)
    ensures |After(fs).calls| == |After(es).calls| && After(fs).calls[c].phase == Returned(TimeoutError)
    ensures After(fs).host.pending == After(es).host.pending - {i}
  {
    Extend(es, TimerFires(c));
    fs := es + [TimerFires(c)];
    Extend(fs, TimeoutRemoves(c));
    fs := fs + [TimeoutRemoves(c)];
  }

  lemma UnusedId(s: State)
    requires Inv(s)
    ensures s.host.nextId !in s.host.pending && |s.calls| !in s.host.mail
  {
  }

  /** Or time out, and leave nothing behind in the map. */
  lemma CallTimesOut(es: seq<Event>, req: Request) returns (fs: seq<Event>)
    requires Legal(es) && Quiet(After(es))
    ensures
      var c := |After(es).calls|;
      && fs == es + Sending(After(es), req) + [TimerFires(c), TimeoutRemoves(c)] && Legal(fs)
      && |After(fs).calls| == c + 1 && After(fs).calls[c].phase == Returned(TimeoutError)
      && After(fs).host.pending == After(es).host.pending
  {
    RunKeeps(es);
    UnusedId(After(es));
    var sent := Sends(es, req);
    fs := Expires(sent, |After(es).calls|, After(es).host.nextId);
  }
}
