/** The client's single-flight caches: connection status and schema.

    An entry carries the promise of the probe that is on its way; callers that find one wait for
    it, callers that find a recent answer get that, and only otherwise a new probe starts. */
module ProbeCache {
  import opened Wrappers
  import opened Percent
  import opened Scan

  const STATUS_TTL := 60_000
  const SCHEMA_TTL := 5 * 60 * 1000

  /** Promises are named by the number of their probe. */
  datatype Entry<V> = Entry(value: V, ts: int, pending: Option<nat>)

  /** `done` is a finished probe's answer and when it came. */
  datatype Probe<K, V> = Probe(key: K, done: Option<(V, int)>)

  datatype State<K, V> = State(entries: map<K, Entry<V>>, probes: seq<Probe<K, V>>)

  datatype Answer<V> = AtOnce(value: V) | Wait(probe: nat)

  /** A caller asks for `k`; `hold` is what the entry says while its probe runs. */
  function Ask<K, V>(s: State<K, V>, k: K, force: bool, ttl: int, hold: V, now: int): (State<K, V>, Answer<V>) {
    if k in s.entries && s.entries[k].pending.Some? then (s, Wait(s.entries[k].pending.value))
    else if k in s.entries && !force && now - s.entries[k].ts < ttl then (s, AtOnce(s.entries[k].value))
    else
      (State(s.entries[k := Entry(hold, now, Some(|s.probes|))], s.probes + [Probe(k, None)]), Wait(|s.probes|))
  }

  /** A probe settles. */
  function Settle<K, V>(s: State<K, V>, p: nat, v: V, now: int): State<K, V>
    requires p < |s.probes|
  {
    State(s.entries[s.probes[p].key := Entry(v, now, None)], s.probes[p := s.probes[p].(done := Some((v, now)))])
  }

  // ---------------------------------------------------------------- runs

  datatype Event<K, V> = Asks(k: K, force: bool, hold: V, now: int) | Settles(p: nat, v: V, now: int)

  predicate Enabled<K, V>(s: State<K, V>, clock: int, e: Event<K, V>) {
    e.now >= clock && (e.Settles? ==> e.p < |s.probes| && s.probes[e.p].done.None?)
  }

  function Apply<K, V>(s: State<K, V>, clock: int, ttl: int, e: Event<K, V>): State<K, V>
    requires Enabled(s, clock, e)
  {
    match e
    case Asks(k, force, hold, now) => Ask(s, k, force, ttl, hold, now).0
    case Settles(p, v, now) => Settle(s, p, v, now)
  }

  /** Time of the last event. */
  function Clock<K, V>(es: seq<Event<K, V>>): int {
    if es == [] then 0 else es[|es| - 1].now
  }

  ghost predicate Legal<K, V>(es: seq<Event<K, V>>, ttl: int)
    decreases |es|, 0
  {
    es == [] || (Legal(es[..|es| - 1], ttl) && Enabled(After(es[..|es| - 1], ttl), Clock(es[..|es| - 1]), es[|es| - 1]))
  }

  ghost function After<K, V>(es: seq<Event<K, V>>, ttl: int): State<K, V>
    requires Legal(es, ttl)
    decreases |es|, 1
  {
    if es == [] then State(map[], [])
    else Apply(After(es[..|es| - 1], ttl), Clock(es[..|es| - 1]), ttl, es[|es| - 1])
  }

  /** The answer kept under a key is that of one of its probes. */
  ghost predicate Backed<K, V>(s: State<K, V>, k: K, v: V, ts: int) {
    exists p :: 0 <= p < |s.probes| && s.probes[p].key == k && s.probes[p].done == Some((v, ts))
  }

  ghost predicate Inv<K(!new), V>(s: State<K, V>, clock: int) {
    && (forall p :: 0 <= p < |s.probes| && s.probes[p].done.None? ==>
          s.probes[p].key in s.entries && s.entries[s.probes[p].key].pending == Some(p))
    && (forall k :: k in s.entries && s.entries[k].pending.Some? ==>
          var p := s.entries[k].pending.value; p < |s.probes| && s.probes[p] == Probe(k, None))
    && (forall k :: k in s.entries ==> s.entries[k].ts <= clock)
    && (forall k :: k in s.entries && s.entries[k].pending.None? ==> Backed(s, k, s.entries[k].value, s.entries[k].ts))
  }

  lemma ProbesGrow<K(!new), V(!new)>(s: State<K, V>, s': State<K, V>)
    requires |s.probes| <= |s'.probes|
    requires forall p :: 0 <= p < |s.probes| && s.probes[p].done.Some? ==> s'.probes[p] == s.probes[p]
    ensures forall k, v, ts :: Backed(s, k, v, ts) ==> Backed(s', k, v, ts)
  {
  }

  lemma LaterKeeps<K(!new), V(!new)>(s: State<K, V>, clock: int, now: int)
    requires Inv(s, clock) && now >= clock
    ensures Inv(s, now)
  {
  }

  /** A new probe. */
  lemma StartKeeps<K(!new), V(!new)>(s: State<K, V>, now: int, k: K, hold: V)
    requires Inv(s, now) && (k in s.entries ==> s.entries[k].pending.None?)
    ensures Inv(State(s.entries[k := Entry(hold, now, Some(|s.probes|))], s.probes + [Probe(k, None)]), now)
  {
    var s' := State(s.entries[k := Entry(hold, now, Some(|s.probes|))], s.probes + [Probe(k, None)]);
    ProbesGrow(s, s');
  }

  lemma AskKeeps<K(!new), V(!new)>(s: State<K, V>, clock: int, k: K, force: bool, ttl: int, hold: V, now: int)
    requires Inv(s, clock) && now >= clock
    ensures Inv(Ask(s, k, force, ttl, hold, now).0, now)
  {
    LaterKeeps(s, clock, now);
    if k !in s.entries || s.entries[k].pending.None? {
      StartKeeps(s, now, k, hold);
    }
  }

  lemma SettleKeeps<K(!new), V(!new)>(s: State<K, V>, clock: int, p: nat, v: V, now: int)
    requires Inv(s, clock) && now >= clock
    requires p < |s.probes| && s.probes[p].done.None?
    ensures Inv(Settle(s, p, v, now), now)
  {
    var s' := Settle(s, p, v, now);
    ProbesGrow(s, s');
    assert s'.probes[p].done == Some((v, now));
  }

  lemma StepKeeps<K(!new), V(!new)>(s: State<K, V>, clock: int, ttl: int, e: Event<K, V>)
    requires Inv(s, clock) && Enabled(s, clock, e)
    ensures Inv(Apply(s, clock, ttl, e), e.now)
  {
    match e
    case Asks(k, force, hold, now) => AskKeeps(s, clock, k, force, ttl, hold, now);
    case Settles(p, v, now) => SettleKeeps(s, clock, p, v, now);
  }

  lemma {:induction false} RunKeeps<K(!new), V(!new)>(es: seq<Event<K, V>>, ttl: int)
    requires Legal(es, ttl)
    ensures Inv(After(es, ttl), Clock(es))
  {
    if es != [] {
      RunKeeps(es[..|es| - 1], ttl);
      StepKeeps(After(es[..|es| - 1], ttl), Clock(es[..|es| - 1]), ttl, es[|es| - 1]);
    }
  }

  /** In every run at most one probe per key is outstanding. */
  lemma OneProbePerKey<K(!new), V(!new)>(es: seq<Event<K, V>>, ttl: int, p: nat, q: nat)
    requires Legal(es, ttl)
    requires p < |After(es, ttl).probes| && q < |After(es, ttl).probes|
    requires After(es, ttl).probes[p].done.None? && After(es, ttl).probes[q].done.None?
    requires After(es, ttl).probes[p].key == After(es, ttl).probes[q].key
    ensures p == q
  {
    RunKeeps(es, ttl);
  }

  /** An entry carries a promise exactly while a probe for its key runs, and that probe's. */
  lemma PendingWhileProbing<K(!new), V(!new)>(es: seq<Event<K, V>>, ttl: int, k: K, p: nat)
    requires Legal(es, ttl)
    ensures
      var s := After(es, ttl);
      k in s.entries && s.entries[k].pending == Some(p) <==> p < |s.probes| && s.probes[p] == Probe(k, None)
  {
    RunKeeps(es, ttl);
  }

  /** An answer given at once is that of a probe for the same key which came less than the time
      to live before; otherwise the caller waits for a probe of that key that is under way. */
  lemma AnswersAreFresh<K(!new), V(!new)>(es: seq<Event<K, V>>, ttl: int, k: K, force: bool, hold: V, now: int)
    requires Legal(es, ttl) && now >= Clock(es)
    ensures
      var s := After(es, ttl);
      var (s', a) := Ask(s, k, force, ttl, hold, now);
      match a
      case AtOnce(v) => !force && exists t :: t <= now < t + ttl && Backed(s, k, v, t)
      case Wait(p) => p < |s'.probes| && s'.probes[p] == Probe(k, None)
  {
    RunKeeps(es, ttl);
    var s := After(es, ttl);
    var (_, a) := Ask(s, k, force, ttl, hold, now);
    if a.AtOnce? {
      var t := s.entries[k].ts;
      assert t <= now < t + ttl && Backed(s, k, a.value, t);
    }
  }

  /** In every run, whoever asks while a probe of the key is under way waits for that probe, forced
      or not and however old the entry, and starts none. */
  lemma AskJoins<K(!new), V(!new)>(es: seq<Event<K, V>>, ttl: int, p: nat, force: bool, hold: V, now: int)
    requires Legal(es, ttl) && p < |After(es, ttl).probes| && After(es, ttl).probes[p].done.None?
    ensures Ask(After(es, ttl), After(es, ttl).probes[p].key, force, ttl, hold, now) == (After(es, ttl), Wait(p))
  {
    RunKeeps(es, ttl);
  }

  /** What the last probe of `k` to settle answered, and when. */
  ghost function LastAnswer<K, V>(es: seq<Event<K, V>>, ttl: int, k: K): Option<(V, int)>
    requires Legal(es, ttl)
  {
    if es == [] then None
    else
      var init, e := es[..|es| - 1], es[|es| - 1];
      if e.Settles? && After(init, ttl).probes[e.p].key == k then Some((e.v, e.now)) else LastAnswer(init, ttl, k)
  }

  ghost predicate UnderWay<K, V>(s: State<K, V>, k: K) {
    exists p :: 0 <= p < |s.probes| && s.probes[p] == Probe(k, None)
  }

  /** The entry of `k` is what this answer calls for. */
  ghost predicate Keeps<K, V>(s: State<K, V>, k: K, last: Option<(V, int)>) {
    match last
    case None => k !in s.entries
    case Some((v, t)) => k in s.entries && s.entries[k] == Entry(v, t, None)
  }

  lemma AskSettlesNothing<K(!new), V(!new)>(
    s: State<K, V>, k: K, x: K, force: bool, ttl: int, hold: V, now: int, last: Option<(V, int)>)
    requires !UnderWay(s, k) ==> Keeps(s, k, last)
    ensures
      var s' := Ask(s, x, force, ttl, hold, now).0;
      !UnderWay(s', k) ==> Keeps(s', k, last)
  {
    var s' := Ask(s, x, force, ttl, hold, now).0;
    if UnderWay(s, k) {
      var p :| 0 <= p < |s.probes| && s.probes[p] == Probe(k, None);
      assert s'.probes[p] == Probe(k, None);
    }
    if s' != s && x == k {
      assert s'.probes[|s.probes|] == Probe(k, None);
    }
  }

  lemma SettleIsKept<K(!new), V(!new)>(s: State<K, V>, k: K, p: nat, v: V, now: int, last: Option<(V, int)>)
    requires p < |s.probes|
    requires !UnderWay(s, k) ==> Keeps(s, k, last)
    ensures
      var s' := Settle(s, p, v, now);
      !UnderWay(s', k) ==> Keeps(s', k, if s.probes[p].key == k then Some((v, now)) else last)
  {
    var s' := Settle(s, p, v, now);
    if UnderWay(s, k) && s.probes[p].key != k {
      var q :| 0 <= q < |s.probes| && s.probes[q] == Probe(k, None);
      assert s'.probes[q] == Probe(k, None);
    }
  }

  /** While no probe of `k` is under way, its entry is the answer of the last one. */
  lemma {:induction false} LastAnswerIsKept<K(!new), V(!new)>(es: seq<Event<K, V>>, ttl: int, k: K)
    requires Legal(es, ttl)
    ensures !UnderWay(After(es, ttl), k) ==> Keeps(After(es, ttl), k, LastAnswer(es, ttl, k))
  {
    if es != [] {
      var init, e := es[..|es| - 1], es[|es| - 1];
      LastAnswerIsKept(init, ttl, k);
      match e
      case Asks(x, force, hold, now) =>
        AskSettlesNothing(After(init, ttl), k, x, force, ttl, hold, now, LastAnswer(init, ttl, k));
      case Settles(p, v, now) => SettleIsKept(After(init, ttl), k, p, v, now, LastAnswer(init, ttl, k));
    }
  }

  /** The last answer is less than the time to live old. */
  predicate Recent<V>(last: Option<(V, int)>, ttl: int, now: int) {
    last.Some? && now - last.value.1 < ttl
  }

  /** In every run a caller is answered at once exactly when it does not force a probe, none of its
      key is under way and the last one's answer is less than the time to live old.  It gets that
      answer, and nothing changes. */
  lemma AnsweredAtOnceIff<K(!new), V(!new)>(es: seq<Event<K, V>>, ttl: int, k: K, force: bool, hold: V, now: int)
    requires Legal(es, ttl)
    ensures
      var s, last := After(es, ttl), LastAnswer(es, ttl, k);
      var (s', a) := Ask(s, k, force, ttl, hold, now);
      && (a.AtOnce? <==> !force && !UnderWay(s, k) && Recent(last, ttl, now))
      && (a.AtOnce? ==> s' == s && a == AtOnce(last.value.0))
  {
    RunKeeps(es, ttl);
    LastAnswerIsKept(es, ttl, k);
    var s := After(es, ttl);
    if k in s.entries && s.entries[k].pending.Some? {
      assert s.probes[s.entries[k].pending.value] == Probe(k, None);
    }
  }

  /** And a new probe is started exactly when none of the key is under way and the caller forces one
      or has no recent answer.  The entry then says what the caller wants it to say, with the time
      of its question; nobody else's entry and no other probe changes. */
  lemma ProbeStartedIff<K(!new), V(!new)>(es: seq<Event<K, V>>, ttl: int, k: K, force: bool, hold: V, now: int)
    requires Legal(es, ttl)
    ensures
      var s, last := After(es, ttl), LastAnswer(es, ttl, k);
      var (s', a) := Ask(s, k, force, ttl, hold, now);
      if !UnderWay(s, k) && (force || !Recent(last, ttl, now)) then
        && a == Wait(|s.probes|) && s'.probes == s.probes + [Probe(k, None)]
        && s'.entries == s.entries[k := Entry(hold, now, Some(|s.probes|))]
      else s' == s
  {
    AnsweredAtOnceIff(es, ttl, k, force, hold, now);
    RunKeeps(es, ttl);
    LastAnswerIsKept(es, ttl, k);
  }

  lemma Extend<K, V>(es: seq<Event<K, V>>, ttl: int, e: Event<K, V>)
    requires Legal(es, ttl) && Enabled(After(es, ttl), Clock(es), e)
    ensures Legal(es + [e], ttl) && After(es + [e], ttl) == Apply(After(es, ttl), Clock(es), ttl, e)
  {
    assert (es + [e])[..|es|] == es;
  }

  /** So once a probe settles, whoever asks within the time to live gets its answer at once. */
  lemma SettledIsAnswered<K(!new), V(!new)>(
    es: seq<Event<K, V>>, ttl: int, p: nat, v: V, t: int, hold: V, now: int)
    requires Legal(es, ttl) && t >= Clock(es) && p < |After(es, ttl).probes| && After(es, ttl).probes[p].done.None?
    requires t <= now < t + ttl
    ensures
      var fs := es + [Settles(p, v, t)];
      && Legal(fs, ttl)
      && Ask(After(fs, ttl), After(es, ttl).probes[p].key, false, ttl, hold, now) == (After(fs, ttl), AtOnce(v))
  {
    var e: Event<K, V> := Settles(p, v, t);
    Extend(es, ttl, e);
    assert (es + [e])[..|es|] == es;
    RunKeeps(es + [e], ttl);
  }

  // ---------------------------------------------------------------- connection status

  datatype Status = Good | Bad | Checking

  class PingCache {
    var entries: map<nat, Entry<Status>>
    var probes: seq<Probe<nat, Status>>

    ghost function View(): State<nat, Status>
      reads this
    {
      State(entries, probes)
    }

    /** A status is "checking" just while its probe runs. */
    ghost predicate Valid()
      reads this
    {
      && (forall id :: id in entries ==> (entries[id].value.Checking? <==> entries[id].pending.Some?))
      && (forall p :: 0 <= p < |probes| && probes[p].done.Some? ==> probes[p].done.value.0 != Checking)
    }

    constructor ()
      ensures Valid() && View() == State(map[], [])
    {
      entries, probes := map[], [];
    }

    method Ping(id: nat, force: bool, now: int) returns (a: Answer<Status>)
      requires Valid()
      modifies this
      ensures Valid()
      ensures (View(), a) == Ask(old(View()), id, force, STATUS_TTL, Checking, now)
      ensures a.AtOnce? ==> a.value != Checking
      ensures
        var e := if id in old(entries) then Some(old(entries)[id]) else None;
        && (a.AtOnce? <==> !force && e.Some? && e.value.pending.None? && now - e.value.ts < 60_000)
        && (a.AtOnce? ==> a.value == e.value.value && View() == old(View()))
        && (a.Wait? && View() != old(View()) ==> entries[id].value == Checking)
    {
      if id in entries {
        var cached := entries[id];
        if cached.pending.Some? {
          return Wait(cached.pending.value);
        }
        if !force && now - cached.ts < STATUS_TTL && cached.value != Checking {
          return AtOnce(cached.value);
        }
      }
      entries := entries[id := Entry(Checking, now, None)];
      var pending := |probes|;
      probes := probes + [Probe(id, None)];
      entries := entries[id := Entry(Checking, now, Some(pending))];
      assert entries == old(entries)[id := Entry(Checking, now, Some(pending))];
      return Wait(pending);
    }

    /** The probe's `then` or `catch`. */
    method Settled(p: nat, ok: bool, now: int)
      requires Valid() && p < |probes|
      modifies this
      ensures Valid()
      ensures View() == Settle(old(View()), p, if ok then Good else Bad, now)
    {
      var status := if ok then Good else Bad;
      entries := entries[probes[p].key := Entry(status, now, None)];
      probes := probes[p := probes[p].(done := Some((status, now)))];
    }
  }

  /** A connection's status is given out for 60 seconds after its probe, and no longer. */
  lemma StatusLastsAMinute(es: seq<Event<nat, Status>>, id: nat, force: bool, now: int)
    requires Legal(es, STATUS_TTL)
    ensures
      var s, last := After(es, STATUS_TTL), LastAnswer(es, STATUS_TTL, id);
      Ask(s, id, force, STATUS_TTL, Checking, now).1.AtOnce?
      <==> !force && !UnderWay(s, id) && last.Some? && now - last.value.1 < 60_000
  {
    AnsweredAtOnceIff(es, STATUS_TTL, id, force, Checking, now);
  }

  // ---------------------------------------------------------------- schema

  type SchemaMap = map<string, seq<string>>

  function SchemaKey(connId: nat, database: string): string {
    Digits(connId) + "::" + database
  }

  /** No two connection and database pairs share an entry. */
  lemma SchemaKeysDiffer(c: nat, d: string, c': nat, d': string)
    ensures SchemaKey(c, d) == SchemaKey(c', d') <==> c == c' && d == d'
  {
    var a, b := Digits(c), Digits(c');
    assert ':' !in a && ':' !in b;
    assert SchemaKey(c, d) == a + [':'] + (":" + d) && SchemaKey(c', d') == b + [':'] + (":" + d');
    FirstAt(a, ':', ":" + d);
    FirstAt(b, ':', ":" + d');
    if SchemaKey(c, d) == SchemaKey(c', d') {
      assert SchemaKey(c, d)[..|a|] == a && SchemaKey(c', d')[..|b|] == b;
      assert SchemaKey(c, d)[|a| + 2..] == d && SchemaKey(c', d')[|b| + 2..] == d';
      NumberBack(c);
      NumberBack(c');
    }
  }

  /** A schema for five minutes. */
  lemma SchemaLastsFiveMinutes(es: seq<Event<string, SchemaMap>>, k: string, hold: SchemaMap, now: int)
    requires Legal(es, SCHEMA_TTL)
    ensures
      var s, last := After(es, SCHEMA_TTL), LastAnswer(es, SCHEMA_TTL, k);
      Ask(s, k, false, SCHEMA_TTL, hold, now).1.AtOnce?
      <==> !UnderWay(s, k) && last.Some? && now - last.value.1 < 300_000
  {
    AnsweredAtOnceIff(es, SCHEMA_TTL, k, false, hold, now);
  }

  class SchemaCache {
    var entries: map<string, Entry<SchemaMap>>
    var probes: seq<Probe<string, SchemaMap>>

    ghost function View(): State<string, SchemaMap>
      reads this
    {
      State(entries, probes)
    }

    constructor ()
      ensures View() == State(map[], [])
    {
      entries, probes := map[], [];
    }

    /** While a load runs the entry keeps the schema of the one before. */
    method GetSchema(connId: nat, database: string, now: int) returns (a: Answer<SchemaMap>)
      modifies this
      ensures
        var k := SchemaKey(connId, database);
        var stale: SchemaMap := if k in old(entries) then old(entries)[k].value else map[];
        (View(), a) == Ask(old(View()), k, false, SCHEMA_TTL, stale, now)
      ensures
        var k := SchemaKey(connId, database);
        var e := if k in old(entries) then Some(old(entries)[k]) else None;
        && (a.AtOnce? <==> e.Some? && e.value.pending.None? && now - e.value.ts < 300_000)
        && (a.AtOnce? ==> a.value == e.value.value && View() == old(View()))
    {
      var k := SchemaKey(connId, database);
      var stale: SchemaMap := map[];
      if k in entries {
        var cached := entries[k];
        if now - cached.ts < SCHEMA_TTL && cached.pending.None? {
          return AtOnce(cached.value);
        }
        if cached.pending.Some? {
          return Wait(cached.pending.value);
        }
        stale := cached.value;
      }
      var pending := |probes|;
      probes := probes + [Probe(k, None)];
      entries := entries[k := Entry(stale, now, Some(pending))];
      return Wait(pending);
    }

    /** A failed load counts as an empty schema. */
    method Loaded(p: nat, schema: Option<SchemaMap>, now: int)
      requires p < |probes|
      modifies this
      ensures View() == Settle(old(View()), p, if schema.Some? then schema.value else map[], now)
    {
      var value: SchemaMap := if schema.Some? then schema.value else map[];
      entries := entries[probes[p].key := Entry(value, now, None)];
      probes := probes[p := probes[p].(done := Some((value, now)))];
    }
  }
}
