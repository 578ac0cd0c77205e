/** The Redis plugin's subscription registry.

    `subscriptions()` maps a channel to the sender of a oneshot; sending on it or dropping it
    stops the task that holds the receiver.  A subscribe handler looks the channel up, connects
    without the lock, and takes the lock again to insert its sender, so handlers and finishing
    tasks interleave between those sections. */
module PubSub {
  import opened Wrappers

  type Channel = string

  /** `registry` names each sender by its task.  `stopped` holds the tasks whose receiver is
      resolved, because their sender was used or dropped. */
  datatype Registry = Registry(senders: map<Channel, nat>, stopped: set<nat>)

  /** `map.insert`: the sender that was there is dropped. */
  function Inserted(r: Registry, ch: Channel, task: nat): Registry {
    Registry(r.senders[ch := task], if ch in r.senders then r.stopped + {r.senders[ch]} else r.stopped)
  }

  /** `map.remove`, with the removed sender used or dropped at once. */
  function Removed(r: Registry, ch: Channel): Registry {
    Registry(r.senders - {ch}, if ch in r.senders then r.stopped + {r.senders[ch]} else r.stopped)
  }

  class Subscriptions {
    var senders: map<Channel, nat>
    var stopped: set<nat>

    ghost function View(): Registry
      reads this
    {
      Registry(senders, stopped)
    }

    constructor ()
      ensures View() == Registry(map[], {})
    {
      senders, stopped := map[], {};
    }

    method Insert(ch: Channel, task: nat)
      modifies this
      ensures View() == Inserted(old(View()), ch, task)
    {
      if ch in senders {
        stopped := stopped + {senders[ch]};
      }
      senders := senders[ch := task];
    }

    /** `pubsub_unsubscribe`: takes the sender out and fires it. */
    method Unsubscribe(ch: Channel) returns (r: Result<bool, string>)
      modifies this
      ensures ch == "" ==> r == Failure("channel required") && View() == old(View())
      ensures ch != "" ==> r == Success(true) && View() == Removed(old(View()), ch)
    {
      if ch == "" {
        return Failure("channel required");
      }
      if ch in senders {
        var tx := senders[ch];
        senders := senders - {ch};
        stopped := stopped + {tx};
      } else {
        senders := senders - {ch};
      }
      return Success(true);
    }

    /** The end of a subscription task: removes whatever is under its channel's name. */
    method CleanUp(ch: Channel)
      modifies this
      ensures View() == Removed(old(View()), ch)
    {
      if ch in senders {
        stopped := stopped + {senders[ch]};
      }
      senders := senders - {ch};
    }
  }

  // ---------------------------------------------------------------- the machine

  /** `Listening` is the select loop; `Leaving` comes after it, before the cleanup. */
  datatype Phase = Created | Listening | Leaving | Done

  datatype Task = Task(channel: Channel, phase: Phase)

  /** Subscribe handlers between their two locks, by the channel they ask for. */
  datatype State = State(reg: Registry, tasks: seq<Task>, connecting: map<nat, Channel>)

  datatype Event =
    | Lookup(h: nat, ch: Channel)
    | ConnectFails(h: nat)
    | Insert(h: nat)
    | Spawn(t: nat)
    | Stop(t: nat)
    | StreamEnds(t: nat)
    | CleanUp(t: nat)
    | Unsubscribe(ch: Channel)

  function Init(): State {
    State(Registry(map[], {}), [], map[])
  }

  predicate InPhase(s: State, t: nat, p: Phase) {
    t < |s.tasks| && s.tasks[t].phase == p
  }

  predicate Enabled(s: State, e: Event) {
    match e
    case Lookup(h, ch) => h !in s.connecting && ch != ""
    case ConnectFails(h) => h in s.connecting
    case Insert(h) => h in s.connecting
    case Spawn(t) => InPhase(s, t, Created)
    case Stop(t) => InPhase(s, t, Listening) && t in s.reg.stopped
    case StreamEnds(t) => InPhase(s, t, Listening)
    case CleanUp(t) => InPhase(s, t, Leaving)
    case Unsubscribe(ch) => ch != ""
  }

  function Move(s: State, t: nat, p: Phase): State
    requires t < |s.tasks|
  {
    s.(tasks := s.tasks[t := s.tasks[t].(phase := p)])
  }

  function Apply(s: State, e: Event): State
    requires Enabled(s, e)
  {
    match e
    case Lookup(h, ch) => if ch in s.reg.senders then s else s.(connecting := s.connecting[h := ch])
    case ConnectFails(h) => s.(connecting := s.connecting - {h})
    case Insert(h) =>
      var ch := s.connecting[h];
      State(Inserted(s.reg, ch, |s.tasks|), s.tasks + [Task(ch, Created)], s.connecting - {h})
    case Spawn(t) => Move(s, t, Listening)
    case Stop(t) => Move(s, t, Leaving)
    case StreamEnds(t) => Move(s, t, Leaving)
    case CleanUp(t) => Move(s.(reg := Removed(s.reg, s.tasks[t].channel)), t, Done)
    case Unsubscribe(ch) => s.(reg := Removed(s.reg, ch))
  }

  predicate Legal(es: seq<Event>)
    decreases |es|, 0
  {
    es == [] || (Legal(es[..|es| - 1]) && Enabled(After(es[..|es| - 1]), es[|es| - 1]))
  }

  function After(es: seq<Event>): State
    requires Legal(es)
    decreases |es|, 1
  {
    if es == [] then Init() else Apply(After(es[..|es| - 1]), es[|es| - 1])
  }

  lemma Extend(es: seq<Event>, e: Event)
    requires Legal(es) && Enabled(After(es), e)
    ensures Legal(es + [e]) && After(es + [e]) == Apply(After(es), e)
  {
    assert (es + [e])[..|es|] == es;
  }

  /** A task's stop signal has not fired exactly while its own sender is the one registered
      under its channel. */
  ghost predicate Inv(s: State) {
    && (forall ch :: ch in s.reg.senders ==> s.reg.senders[ch] < |s.tasks| && s.tasks[s.reg.senders[ch]].channel == ch)
    && (forall t :: 0 <= t < |s.tasks| ==> (t !in s.reg.stopped <==> Registered(s, t)))
    && (forall t :: t in s.reg.stopped ==> t < |s.tasks|)
    && (forall t :: 0 <= t < |s.tasks| && s.tasks[t].phase.Done? ==> t in s.reg.stopped)
  }

  predicate Registered(s: State, t: nat)
    requires t < |s.tasks|
  {
    s.tasks[t].channel in s.reg.senders && s.reg.senders[s.tasks[t].channel] == t
  }

  lemma InsertKeeps(s: State, h: nat)
    requires Inv(s) && Enabled(s, Insert(h))
    ensures Inv(Apply(s, Insert(h)))
  {
    var s' := Apply(s, Insert(h));
    assert s'.tasks[|s.tasks|] == Task(s.connecting[h], Created);
    assert forall t :: 0 <= t < |s.tasks| ==> s'.tasks[t] == s.tasks[t];
  }

  lemma RemovedKeeps(s: State, ch: Channel)
    requires Inv(s)
    ensures Inv(s.(reg := Removed(s.reg, ch)))
  {
  }

  lemma MoveKeeps(s: State, t: nat, p: Phase)
    requires Inv(s) && t < |s.tasks| && (p.Done? ==> t in s.reg.stopped)
    ensures Inv(Move(s, t, p))
  {
  }

  lemma StepKeeps(s: State, e: Event)
    requires Inv(s) && Enabled(s, e)
    ensures Inv(Apply(s, e))
  {
    match e
    case Lookup(_, _) =>
    case ConnectFails(_) =>
    case Insert(h) => InsertKeeps(s, h);
    case Spawn(t) => MoveKeeps(s, t, Listening);
    case Stop(t) => MoveKeeps(s, t, Leaving);
    case StreamEnds(t) => MoveKeeps(s, t, Leaving);
    case CleanUp(t) =>
      RemovedKeeps(s, s.tasks[t].channel);
      MoveKeeps(s.(reg := Removed(s.reg, s.tasks[t].channel)), t, Done);
    case Unsubscribe(ch) => RemovedKeeps(s, ch);
  }

  lemma {:induction false} RunKeeps(es: seq<Event>)
    requires Legal(es)
    ensures Inv(After(es))
  {
    if es != [] {
      RunKeeps(es[..|es| - 1]);
      StepKeeps(After(es[..|es| - 1]), es[|es| - 1]);
    }
  }

  predicate Live(s: State, ch: Channel, t: nat) {
    t < |s.tasks| && s.tasks[t].channel == ch && t !in s.reg.stopped
  }

  /** In every interleaving a channel has at most one task whose stop signal has not fired: the
      one whose sender the registry holds. */
  lemma OneLiveTask(es: seq<Event>, ch: Channel, t: nat)
    requires Legal(es)
    ensures Live(After(es), ch, t) <==> ch in After(es).reg.senders && After(es).reg.senders[ch] == t
  {
    RunKeeps(es);
  }

  /** Right after an unsubscribe, every task of the channel has been told to stop. */
  lemma UnsubscribeStopsAll(es: seq<Event>, ch: Channel, t: nat)
    requires Legal(es) && ch != ""
    ensures !Live(Apply(After(es), Unsubscribe(ch)), ch, t)
    ensures forall c, u :: c != ch ==> (Live(Apply(After(es), Unsubscribe(ch)), c, u) <==> Live(After(es), c, u))
  {
    RunKeeps(es);
  }

  /** A subscribe that inserts leaves its own task as the channel's only live one. */
  lemma InsertReplaces(es: seq<Event>, h: nat, t: nat)
    requires Legal(es) && h in After(es).connecting
    ensures Live(Apply(After(es), Insert(h)), After(es).connecting[h], t) <==> t == |After(es).tasks|
  {
    RunKeeps(es);
  }

  /** A finishing task stops another one exactly when its own signal had fired and the channel
      has been subscribed again since: the cleanup goes by channel name. */
  lemma CleanUpEvicts(es: seq<Event>, t: nat)
    requires Legal(es) && InPhase(After(es), t, Leaving)
    ensures
      var s := After(es);
      var s' := Apply(s, CleanUp(t));
      && (forall c, u :: c != s.tasks[t].channel ==> (Live(s', c, u) <==> Live(s, c, u)))
      && (forall u :: !Live(s', s.tasks[t].channel, u))
      && ((exists u: nat :: u != t && Live(s, s.tasks[t].channel, u) && !Live(s', s.tasks[t].channel, u))
          <==> t in s.reg.stopped && s.tasks[t].channel in s.reg.senders)
  {
    RunKeeps(es);
    var s := After(es);
    var ch := s.tasks[t].channel;
    if t in s.reg.stopped && ch in s.reg.senders {
      var u := s.reg.senders[ch];
      assert u != t && Live(s, ch, u);
    }
  }

  // ---------------------------------------------------------------- the state, read off the events

  /** The channel that handler `h` is connecting for: a handler looks its channel up, and goes on to
      connect only if no task of it is live. */
  ghost function AsksFor(es: seq<Event>, h: nat): Option<Channel>
    requires Legal(es)
  {
    if es == [] then None
    else
      var init, e := es[..|es| - 1], es[|es| - 1];
      if e.Lookup? && e.h == h then if exists t :: Live(After(init), e.ch, t) then None else Some(e.ch)
      else if e == ConnectFails(h) || e == Insert(h) then None
      else AsksFor(init, h)
  }

  lemma LiveIff(es: seq<Event>, ch: Channel)
    requires Legal(es)
    ensures (exists t :: Live(After(es), ch, t)) <==> ch in After(es).reg.senders
  {
    RunKeeps(es);
    if ch in After(es).reg.senders {
      assert Live(After(es), ch, After(es).reg.senders[ch]);
    }
  }

  /** So a subscribe to a channel with a live task does nothing more. */
  lemma {:induction false} ConnectingIff(es: seq<Event>, h: nat, ch: Channel)
    requires Legal(es)
    ensures h in After(es).connecting && After(es).connecting[h] == ch <==> AsksFor(es, h) == Some(ch)
    ensures h !in After(es).connecting <==> AsksFor(es, h).None?
  {
    if es != [] {
      var init, e := es[..|es| - 1], es[|es| - 1];
      ConnectingIff(init, h, ch);
      if e.Lookup? {
        LiveIff(init, e.ch);
      }
    }
  }

  /** The channels of the tasks, in the order of their inserts. */
  ghost function Subscribed(es: seq<Event>): seq<Channel>
    requires Legal(es)
  {
    if es == [] then []
    else
      var init, e := es[..|es| - 1], es[|es| - 1];
      Subscribed(init) + if e.Insert? && AsksFor(init, e.h).Some? then [AsksFor(init, e.h).value] else []
  }

  /** How far an event about a task brings it. */
  function Moved(e: Event, t: nat, p: Phase): Phase {
    if e == Spawn(t) then Listening
    else if e == Stop(t) || e == StreamEnds(t) then Leaving
    else if e == CleanUp(t) then Done
    else p
  }

  function PhaseIn(es: seq<Event>, t: nat): Phase {
    if es == [] then Created else Moved(es[|es| - 1], t, PhaseIn(es[..|es| - 1], t))
  }

  lemma {:induction false} NoPhaseYet(es: seq<Event>, t: nat)
    requires Legal(es) && t >= |After(es).tasks|
    ensures PhaseIn(es, t) == Created
  {
    if es != [] {
      NoPhaseYet(es[..|es| - 1], t);
    }
  }

  lemma StepTask(s: State, e: Event, t: nat)
    requires Enabled(s, e) && t < |Apply(s, e).tasks|
    ensures t < |s.tasks| ==>
      Apply(s, e).tasks[t] == Task(s.tasks[t].channel, Moved(e, t, s.tasks[t].phase))
    ensures t >= |s.tasks| ==>
      t == |s.tasks| && e.Insert? && Apply(s, e).tasks[t] == Task(s.connecting[e.h], Created)
  {
  }

  lemma {:induction false} TasksCounted(es: seq<Event>)
    requires Legal(es)
    ensures |After(es).tasks| == |Subscribed(es)|
  {
    if es != [] {
      var init, e := es[..|es| - 1], es[|es| - 1];
      TasksCounted(init);
      if e.Insert? {
        ConnectingIff(init, e.h, After(init).connecting[e.h]);
      }
    }
  }

  /** In every run the tasks are those inserted, each in the phase its last event has brought it to. */
  lemma {:induction false} TaskIs(es: seq<Event>, t: nat)
    requires Legal(es) && t < |After(es).tasks|
    ensures t < |Subscribed(es)| && After(es).tasks[t] == Task(Subscribed(es)[t], PhaseIn(es, t))
  {
    var init, e := es[..|es| - 1], es[|es| - 1];
    TasksCounted(init);
    StepTask(After(init), e, t);
    if t < |After(init).tasks| {
      TaskIs(init, t);
    } else {
      ConnectingIff(init, e.h, After(init).connecting[e.h]);
      NoPhaseYet(init, t);
    }
  }

  /** The event tells whatever task of the channel there is to stop: an unsubscribe, another
      subscribe that gets through, or the cleanup of a task of the channel. */
  predicate Tells(s: State, e: Event, ch: Channel) {
    || e == Unsubscribe(ch)
    || (e.Insert? && e.h in s.connecting && s.connecting[e.h] == ch)
    || (e.CleanUp? && e.t < |s.tasks| && s.tasks[e.t].channel == ch)
  }

  predicate Told(es: seq<Event>, t: nat)
    requires Legal(es)
  {
    es != []
    && (var s := After(es[..|es| - 1]);
        Told(es[..|es| - 1], t) || (t < |s.tasks| && Tells(s, es[|es| - 1], s.tasks[t].channel)))
  }

  lemma StepTells(s: State, e: Event, t: nat)
    requires Inv(s) && Enabled(s, e)
    ensures t in Apply(s, e).reg.stopped
      <==> t in s.reg.stopped || (t < |s.tasks| && Tells(s, e, s.tasks[t].channel))
  {
  }

  /** In every run a task has been told to stop exactly when one of these came after its insert. */
  lemma {:induction false} StoppedIff(es: seq<Event>, t: nat)
    requires Legal(es)
    ensures t in After(es).reg.stopped <==> Told(es, t)
  {
    if es != [] {
      StoppedIff(es[..|es| - 1], t);
      RunKeeps(es[..|es| - 1]);
      StepTells(After(es[..|es| - 1]), es[|es| - 1], t);
    }
  }

  lemma LegalIff(es: seq<Event>, e: Event)
    requires Legal(es)
    ensures Legal(es + [e]) <==> Enabled(After(es), e)
  {
    assert (es + [e])[..|es|] == es;
  }

  /** A task that listens can leave its loop at any time because its stream ends, and because of its
      signal once it has been told; then it can clean up. */
  lemma TaskGoesOn(es: seq<Event>, t: nat)
    requires Legal(es) && t < |After(es).tasks|
    ensures Legal(es + [Spawn(t)]) <==> PhaseIn(es, t) == Created
    ensures Legal(es + [StreamEnds(t)]) <==> PhaseIn(es, t) == Listening
    ensures Legal(es + [Stop(t)]) <==> PhaseIn(es, t) == Listening && Told(es, t)
    ensures Legal(es + [CleanUp(t)]) <==> PhaseIn(es, t) == Leaving
  {
    TaskIs(es, t);
    StoppedIff(es, t);
    LegalIff(es, Spawn(t));
    LegalIff(es, StreamEnds(t));
    LegalIff(es, Stop(t));
    LegalIff(es, CleanUp(t));
  }

  /** A handler can come for any channel that has a name, and one that connects can fail or insert. */
  lemma HandlerGoesOn(es: seq<Event>, h: nat, ch: Channel)
    requires Legal(es)
    ensures Legal(es + [Lookup(h, ch)]) <==> AsksFor(es, h).None? && ch != ""
    ensures Legal(es + [ConnectFails(h)]) <==> AsksFor(es, h).Some?
    ensures Legal(es + [Insert(h)]) <==> AsksFor(es, h).Some?
    ensures Legal(es + [Unsubscribe(ch)]) <==> ch != ""
  {
    ConnectingIff(es, h, ch);
    LegalIff(es, Lookup(h, ch));
    LegalIff(es, ConnectFails(h));
    LegalIff(es, Insert(h));
    LegalIff(es, Unsubscribe(ch));
  }

  // ---------------------------------------------------------------- lost subscriptions

  /** A subscribe goes through: its task listens, and its sender is the registered one. */
  lemma Subscribes(es: seq<Event>, ch: Channel, h: nat) returns (fs: seq<Event>)
    requires Legal(es) && ch != "" && h !in After(es).connecting && ch !in After(es).reg.senders
    ensures
      var u := |After(es).tasks|;
      && fs == es + [Lookup(h, ch), Insert(h), Spawn(u)] && Legal(fs)
      && After(fs).tasks == After(es).tasks + [Task(ch, Listening)]
      && After(fs).reg == Inserted(After(es).reg, ch, u)
  {
    var u := |After(es).tasks|;
    var mid := Connects(es, ch, h);
    Extend(mid, Insert(h));
    mid := mid + [Insert(h)];
    Extend(mid, Spawn(u));
    fs := mid + [Spawn(u)];
  }

  lemma Connects(es: seq<Event>, ch: Channel, h: nat) returns (fs: seq<Event>)
    requires Legal(es) && ch != "" && h !in After(es).connecting && ch !in After(es).reg.senders
    ensures fs == es + [Lookup(h, ch)] && Legal(fs)
    ensures After(fs) == After(es).(connecting := After(es).connecting[h := ch])
  {
    Extend(es, Lookup(h, ch));
    fs := es + [Lookup(h, ch)];
  }

  /** A stopped task leaves its loop, unless it has, and cleans up. */
  function Ending(s: State, t: nat): seq<Event> {
    if InPhase(s, t, Listening) then [Stop(t), CleanUp(t)] else [CleanUp(t)]
  }

  lemma StoppedEnds(es: seq<Event>, ch: Channel, t: nat, u: nat) returns (fs: seq<Event>)
    requires Legal(es) && t in After(es).reg.stopped && t != u && InPhase(After(es), u, Listening)
    requires InPhase(After(es), t, Listening) || InPhase(After(es), t, Leaving)
    requires After(es).tasks[t].channel == ch && ch in After(es).reg.senders && After(es).reg.senders[ch] == u
    ensures fs == es + Ending(After(es), t) && Legal(fs)
    ensures InPhase(After(fs), u, Listening) && !Live(After(fs), ch, u)
  {
    fs := es;
    if InPhase(After(es), t, Listening) {
      Extend(fs, Stop(t));
      fs := fs + [Stop(t)];
    }
    Extend(fs, CleanUp(t));
    fs := fs + [CleanUp(t)];
  }

  /** From any point at which a task has been stopped and not yet cleaned up, and its channel is
      not subscribed: a new subscribe succeeds, and the cleanup then stops the new task. */
  lemma ResubscribeLost(es: seq<Event>, ch: Channel, t: nat, h: nat) returns (fs: seq<Event>)
    requires Legal(es) && ch != "" && h !in After(es).connecting
    requires InPhase(After(es), t, Listening) || InPhase(After(es), t, Leaving)
    requires After(es).tasks[t].channel == ch && t in After(es).reg.stopped && ch !in After(es).reg.senders
    ensures
      var u := |After(es).tasks|;
      && fs == es + [Lookup(h, ch), Insert(h), Spawn(u)] + Ending(After(es), t) && Legal(fs)
      && InPhase(After(fs), u, Listening) && !Live(After(fs), ch, u)
  {
    var u := |After(es).tasks|;
    var mid := Subscribes(es, ch, h);
    assert After(mid).tasks[t] == After(es).tasks[t];
    fs := StoppedEnds(mid, ch, t, u);
  }

  lemma StoppedListener(ch: Channel) returns (es: seq<Event>)
    requires ch != ""
    ensures Legal(es) && es == [Lookup(0, ch), Insert(0), Spawn(0), Unsubscribe(ch)]
    ensures After(es) == State(Registry(map[], {0}), [Task(ch, Listening)], map[])
  {
    es := [];
    Extend(es, Lookup(0, ch));
    es := es + [Lookup(0, ch)];
    Extend(es, Insert(0));
    es := es + [Insert(0)];
    assert After(es).connecting == map[];
    Extend(es, Spawn(0));
    es := es + [Spawn(0)];
    Extend(es, Unsubscribe(ch));
    es := es + [Unsubscribe(ch)];
    assert After(es).reg.senders == map[];
  }

  /** So a successful subscribe need not leave a live task, for any channel. */
  lemma SubscribeLost(ch: Channel)
    requires ch != ""
    ensures
      exists es :: es == [Lookup(0, ch), Insert(0), Spawn(0), Unsubscribe(ch), Lookup(0, ch), Insert(0), Spawn(1),
        Stop(0), CleanUp(0)]
        && Legal(es) && InPhase(After(es), 1, Listening) && !Live(After(es), ch, 1)
  {
    var es := StoppedListener(ch);
    var fs := ResubscribeLost(es, ch, 0, 0);
  }
}
