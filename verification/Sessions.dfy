/** The sessions store: one saved session per connection, and how saved data from older versions
    is brought up to date when it is loaded. */
module Sessions {
  import opened Wrappers
  import opened Tabs

  /** What a session keeps beside its tabs.  An Option is a field that older data may lack; ""
      stands for null in `activeChannel`. */
  datatype Nav =
    | Sql(scripts: Option<seq<Script>>, activeScript: string, db: string, table: string, view: string,
          draft: Option<string>, history: Option<seq<string>>)
    | Document(db: string, collection: string, view: string)
    | Redis(db: string, key: string, view: string, channels: Option<seq<string>>, activeChannel: string,
            subscribed: Option<seq<string>>)

  datatype Saved = Saved(tabs: Option<seq<Tab>>, active: Option<string>, recents: Option<seq<Tab>>, nav: Nav)

  const INITIAL_SQL: string := "-- Escribe tu consulta SQL aquí. Cmd/Ctrl+Enter para ejecutar.\n"

  function OrNone<T>(s: Option<seq<T>>): seq<T> {
    if s.Some? then s.value else []
  }

  // ---------------------------------------------------------------- migration

  function ScriptTab(s: Script, now: int): Tab {
    Tab(TabId(Query(s.id)), Query(s.id), s.name, false, false, now)
  }

  function ScriptTabs(scripts: seq<Script>, now: int): seq<Tab> {
    seq(|scripts|, k requires 0 <= k < |scripts| => ScriptTab(scripts[k], now))
  }

  function ChannelTab(ch: string, now: int): Tab {
    Tab(TabId(Channel(ch)), Channel(ch), ch, false, true, now)
  }

  function ChannelTabs(channels: seq<string>, now: int): seq<Tab> {
    seq(|channels|, k requires 0 <= k < |channels| => ChannelTab(channels[k], now))
  }

  /** The tab for the table, collection or key that was open. */
  function EntityTabs(kind: EntityKind, db: string, name: string, now: int): seq<Tab> {
    if name == "" then [] else [Tab(TabId(Entity(kind, db, name)), Entity(kind, db, name), name, false, false, now)]
  }

  function MetricsTabs(view: string, now: int): seq<Tab> {
    if view != "metrics" then []
    else [Tab(TabId(View(Metrics, None)), View(Metrics, None), "Metrics", false, false, now)]
  }

  function EntityPart(nav: Nav, now: int): seq<Tab> {
    match nav
    case Sql(_, _, db, table, _, _, _) => EntityTabs(Table, db, table, now)
    case Document(db, collection, _) => EntityTabs(Collection, db, collection, now)
    case Redis(db, key, _, _, _, _) => EntityTabs(Key, db, key, now)
  }

  function NamedPart(nav: Nav, now: int): seq<Tab> {
    match nav
    case Sql(scripts, _, _, _, _, _, _) => ScriptTabs(OrNone(scripts), now)
    case Document(_, _, _) => []
    case Redis(_, _, _, channels, _, _) => ChannelTabs(OrNone(channels), now)
  }

  function BuiltTabs(nav: Nav, now: int): seq<Tab> {
    EntityPart(nav, now) + NamedPart(nav, now) + MetricsTabs(nav.view, now)
  }

  /** The tab the old navigation fields point at. */
  function BuiltActive(nav: Nav): Option<string> {
    var kind := if nav.Sql? then Table else if nav.Document? then Collection else Key;
    var name := if nav.Sql? then nav.table else if nav.Document? then nav.collection else nav.key;
    if nav.view == "metrics" then Some(TabId(View(Metrics, None)))
    else if nav.Sql? && nav.view == "queries" && nav.activeScript != "" then Some(TabId(Query(nav.activeScript)))
    else if nav.Redis? && nav.view == "pubsub" && nav.activeChannel != "" then Some(TabId(Channel(nav.activeChannel)))
    else if name != "" then Some(TabId(Entity(kind, nav.db, name)))
    else None
  }

  function Migrated(s: Saved, now: int): Saved {
    if s.tabs.Some? && s.tabs.value != [] then s
    else
      var tabs := BuiltTabs(s.nav, now);
      var active := BuiltActive(s.nav);
      s.(tabs := Some(tabs),
         active := if active.Some? then active else if tabs != [] then Some(tabs[0].id) else None)
  }

  /** `migrateSession`, with its loops and reassigned variables. */
  method MigrateSession(s: Saved, now: int) returns (r: Saved)
    ensures r == Migrated(s, now)
  {
    if s.tabs.Some? && |s.tabs.value| > 0 {
      return s;
    }
    var tabs: seq<Tab> := [];
    var activeId: Option<string> := None;
    match s.nav {
    case Sql(scripts, activeScript, db, table, view, _, _) =>
      tabs := PushScripts(OrNone(scripts), now);
      if table != "" {
        var t := Tab(TabId(Entity(Table, db, table)), Entity(Table, db, table), table, false, false, now);
        tabs := [t] + tabs;
        activeId := Some(t.id);
      }
      if view == "metrics" {
        var v := Tab(TabId(View(Metrics, None)), View(Metrics, None), "Metrics", false, false, now);
        tabs := tabs + [v];
        activeId := Some(v.id);
      } else if view == "queries" && activeScript != "" {
        activeId := Some(TabId(Query(activeScript)));
      }
    case Document(db, collection, view) =>
      if collection != "" {
        var c := Entity(Collection, db, collection);
        var t := Tab(TabId(c), c, collection, false, false, now);
        tabs := tabs + [t];
        activeId := Some(t.id);
      }
      if view == "metrics" {
        var v := Tab(TabId(View(Metrics, None)), View(Metrics, None), "Metrics", false, false, now);
        tabs := tabs + [v];
        activeId := Some(v.id);
      }
    case Redis(db, key, view, channels, activeChannel, _) =>
      if key != "" {
        var t := Tab(TabId(Entity(Key, db, key)), Entity(Key, db, key), key, false, false, now);
        tabs := tabs + [t];
        activeId := Some(t.id);
      }
      var more := PushChannels(OrNone(channels), now);
      tabs := tabs + more;
      if view == "metrics" {
        var v := Tab(TabId(View(Metrics, None)), View(Metrics, None), "Metrics", false, false, now);
        tabs := tabs + [v];
        activeId := Some(v.id);
      } else if view == "pubsub" && activeChannel != "" {
        activeId := Some(TabId(Channel(activeChannel)));
      }
    }
    assert tabs == BuiltTabs(s.nav, now);
    assert activeId == BuiltActive(s.nav);
    if activeId.None? && |tabs| > 0 {
      activeId := Some(tabs[0].id);
    }
    r := s.(tabs := Some(tabs), active := activeId);
  }

  method PushScripts(scripts: seq<Script>, now: int) returns (tabs: seq<Tab>)
    ensures tabs == ScriptTabs(scripts, now)
  {
    tabs := [];
    for k := 0 to |scripts|
      invariant tabs == ScriptTabs(scripts[..k], now)
    {
      tabs := tabs + [ScriptTab(scripts[k], now)];
    }
    assert scripts[..|scripts|] == scripts;
  }

  method PushChannels(channels: seq<string>, now: int) returns (tabs: seq<Tab>)
    ensures tabs == ChannelTabs(channels, now)
  {
    tabs := [];
    for k := 0 to |channels|
      invariant tabs == ChannelTabs(channels[..k], now)
    {
      tabs := tabs + [ChannelTab(channels[k], now)];
    }
    assert channels[..|channels|] == channels;
  }

  // ---------------------------------------------------------------- hydration

  function WithBase(s: Saved): Saved {
    if s.tabs.None? then s.(tabs := Some([]), active := None, recents := Some([]))
    else if s.recents.None? then s.(recents := Some([]))
    else s
  }

  predicate HasScript(scripts: seq<Script>, id: string) {
    exists k :: 0 <= k < |scripts| && scripts[k].id == id
  }

  /** `stamp` is the clock in base 36 with the connection's id. */
  function WithDefaults(nav: Nav, stamp: string): Nav {
    match nav
    case Sql(scripts, activeScript, db, table, view, draft, history) =>
      var text := if draft.Some? then draft.value else INITIAL_SQL;
      var kept := OrNone(scripts);
      var sid := "s-" + stamp;
      var some := if kept == [] then [Script(sid, "Script 1", text)] else kept;
      var active :=
        if kept == [] then sid
        else if activeScript == "" || !HasScript(kept, activeScript) then kept[0].id
        else activeScript;
      Sql(Some(some), active,
          db, table, view, Some(text), Some(OrNone(history)))
    case Document(_, _, _) => nav
    case Redis(_, _, _, channels, _, subscribed) =>
      nav.(subscribed := if subscribed.Some? then subscribed else Some(OrNone(channels)))
  }

  function Hydrated(s: Saved, stamp: string, now: int): Saved {
    var base := WithBase(s);
    Migrated(base.(nav := WithDefaults(base.nav, stamp)), now)
  }

  /** Loading what was loaded before, at any later time, changes nothing. */
  lemma HydrateIdempotent(s: Saved, stamp: string, now: int, stamp': string, now': int)
    ensures Hydrated(Hydrated(s, stamp, now), stamp', now') == Hydrated(s, stamp, now)
  {
  }

  predicate PointsNowhere(nav: Nav) {
    nav.Redis? && nav.view == "pubsub" && nav.activeChannel != "" && nav.activeChannel !in OrNone(nav.channels)
  }

  /** When a session without tabs is loaded, the active tab is null or one of the tabs built,
      unless a Redis session shows a channel it does not list. */
  lemma MigratedActiveIff(s: Saved, stamp: string, now: int)
    requires s.tabs.None? || s.tabs.value == []
    ensures
      var r := Hydrated(s, stamp, now);
      && r.tabs.Some?
      && (ActiveOk(r.tabs.value, r.active) <==> !PointsNowhere(s.nav))
  {
    var r := Hydrated(s, stamp, now);
    var nav := r.nav;
    var tabs := r.tabs.value;
    assert tabs == BuiltTabs(nav, now);
    if nav.Sql? {
      assert nav.scripts.value[0].id == nav.activeScript || HasScript(nav.scripts.value, nav.activeScript);
    }
    BuiltActiveOpen(nav, now);
    if BuiltActive(nav).None? && tabs != [] {
      assert tabs[0].id == r.active.value;
    }
  }

  predicate ScriptListed(nav: Nav) {
    nav.Sql? && nav.activeScript != "" ==> HasScript(OrNone(nav.scripts), nav.activeScript)
  }

  lemma BuiltActiveOpen(nav: Nav, now: int)
    requires ScriptListed(nav)
    ensures ActiveOk(BuiltTabs(nav, now), BuiltActive(nav)) <==> !PointsNowhere(nav)
  {
    var tabs := BuiltTabs(nav, now);
    if PointsNowhere(nav) {
      var c := Channel(nav.activeChannel);
      forall k | 0 <= k < |tabs| ensures tabs[k].id != TabId(c) {
        TabIdsEqualIff(tabs[k].content, c);
      }
    } else if nav.view == "metrics" {
      assert tabs[|tabs| - 1].id == TabId(View(Metrics, None));
    } else if nav.Sql? && nav.view == "queries" && nav.activeScript != "" {
      var k :| 0 <= k < |OrNone(nav.scripts)| && OrNone(nav.scripts)[k].id == nav.activeScript;
      assert tabs[|EntityTabs(Table, nav.db, nav.table, now)| + k].id == TabId(Query(nav.activeScript));
    } else if nav.Redis? && nav.view == "pubsub" && nav.activeChannel != "" {
      var k :| 0 <= k < |OrNone(nav.channels)| && OrNone(nav.channels)[k] == nav.activeChannel;
      assert tabs[|EntityTabs(Key, nav.db, nav.key, now)| + k].id == TabId(Channel(nav.activeChannel));
    } else if BuiltActive(nav).Some? {
      assert tabs[0].id == BuiltActive(nav).value;
    }
  }

  /** The names that loops turn into tabs. */
  function Names(nav: Nav): seq<string> {
    match nav
    case Sql(scripts, _, _, _, _, _, _) =>
      seq(|OrNone(scripts)|, k requires 0 <= k < |OrNone(scripts)| => OrNone(scripts)[k].id)
    case Document(_, _, _) => []
    case Redis(_, _, _, channels, _, _) => OrNone(channels)
  }

  lemma NamedDistinctIff(nav: Nav, now: int)
    ensures Distinct(NamedPart(nav, now)) <==> NoRepeat(Names(nav))
  {
    var tabs, names := NamedPart(nav, now), Names(nav);
    forall i, j | 0 <= i < j < |names| ensures tabs[i].id == tabs[j].id <==> names[i] == names[j] {
      TabIdsEqualIff(tabs[i].content, tabs[j].content);
    }
  }

  lemma PartsDiffer(nav: Nav, now: int)
    ensures forall i, j :: 0 <= i < |EntityPart(nav, now)| && 0 <= j < |NamedPart(nav, now)| ==>
      EntityPart(nav, now)[i].id != NamedPart(nav, now)[j].id
    ensures forall i, j :: 0 <= i < |EntityPart(nav, now)| && 0 <= j < |MetricsTabs(nav.view, now)| ==>
      EntityPart(nav, now)[i].id != MetricsTabs(nav.view, now)[j].id
    ensures forall i, j :: 0 <= i < |NamedPart(nav, now)| && 0 <= j < |MetricsTabs(nav.view, now)| ==>
      NamedPart(nav, now)[i].id != MetricsTabs(nav.view, now)[j].id
  {
    var e, n, m := EntityPart(nav, now), NamedPart(nav, now), MetricsTabs(nav.view, now);
    forall i, j | 0 <= i < |e| && 0 <= j < |n| ensures e[i].id != n[j].id {
      TabIdsEqualIff(e[i].content, n[j].content);
    }
    forall i, j | 0 <= i < |e| && 0 <= j < |m| ensures e[i].id != m[j].id {
      TabIdsEqualIff(e[i].content, m[j].content);
    }
    forall i, j | 0 <= i < |n| && 0 <= j < |m| ensures n[i].id != m[j].id {
      TabIdsEqualIff(n[i].content, m[j].content);
    }
  }

  lemma DistinctParts(e: seq<Tab>, n: seq<Tab>, m: seq<Tab>)
    requires |e| <= 1 && |m| <= 1
    requires forall i, j :: 0 <= i < |e| && 0 <= j < |n| ==> e[i].id != n[j].id
    requires forall i, j :: 0 <= i < |e| && 0 <= j < |m| ==> e[i].id != m[j].id
    requires forall i, j :: 0 <= i < |n| && 0 <= j < |m| ==> n[i].id != m[j].id
    ensures Distinct(e + n + m) <==> Distinct(n)
  {
    var all := e + n + m;
    if Distinct(all) {
      forall i, j | 0 <= i < j < |n| ensures n[i].id != n[j].id {
        assert all[|e| + i].id != all[|e| + j].id;
      }
    }
  }

  /** The built tabs are distinct exactly when the script ids or channels they come from are. */
  lemma BuiltDistinctIff(nav: Nav, now: int)
    ensures Distinct(BuiltTabs(nav, now)) <==> NoRepeat(Names(nav))
  {
    PartsDiffer(nav, now);
    DistinctParts(EntityPart(nav, now), NamedPart(nav, now), MetricsTabs(nav.view, now));
    NamedDistinctIff(nav, now);
  }

  // ---------------------------------------------------------------- what loading makes

  /** The fields of a SQL session after loading: the scripts are those saved, or one with the draft;
      the active script is the saved one if it is among them, or else the first. */
  lemma SqlFieldsLoaded(s: Saved, stamp: string, now: int)
    requires s.nav.Sql?
    ensures
      var nav, n := s.nav, Hydrated(s, stamp, now).nav;
      var text := if nav.draft.Some? then nav.draft.value
                  else "-- Escribe tu consulta SQL aquí. Cmd/Ctrl+Enter para ejecutar.\n";
      && n == nav.(scripts := n.scripts, activeScript := n.activeScript, draft := Some(text), history := n.history)
      && n.history == Some(if nav.history.Some? then nav.history.value else [])
      && n.scripts.Some? && n.scripts.value != []
      && (nav.scripts.Some? && nav.scripts.value != [] ==> n.scripts == nav.scripts)
      && (nav.scripts.None? || nav.scripts.value == [] ==>
            n.scripts.value == [Script("s-" + stamp, "Script 1", text)])
      && n.activeScript in [nav.activeScript, n.scripts.value[0].id]
      && (n.activeScript == nav.activeScript <==>
            || n.scripts.value[0].id == nav.activeScript
            || (nav.activeScript != "" && nav.scripts.Some?
                && exists k :: 0 <= k < |nav.scripts.value| && nav.scripts.value[k].id == nav.activeScript))
  {
  }

  /** Those of the others: a Redis session without a list of subscriptions gets its channels. */
  lemma OtherFieldsLoaded(s: Saved, stamp: string, now: int)
    requires !s.nav.Sql?
    ensures
      var nav, n := s.nav, Hydrated(s, stamp, now).nav;
      if nav.Redis? && nav.subscribed.None? then
        n == nav.(subscribed := Some(if nav.channels.Some? then nav.channels.value else []))
      else n == nav
  {
  }

  /** A session that has tabs keeps them, and what is active; recents stay where there are any, and
      go with the tabs where those are missing. */
  lemma TabsLoaded(s: Saved, stamp: string, now: int)
    ensures
      var r := Hydrated(s, stamp, now);
      && (s.tabs.Some? && s.tabs.value != [] ==> r.tabs == s.tabs && r.active == s.active)
      && r.recents == Some(if s.tabs.Some? && s.recents.Some? then s.recents.value else [])
  {
  }

  function AtMostOne(t: Option<Tab>): seq<Tab> {
    if t.Some? then [t.value] else []
  }

  predicate IsMetricsTab(t: Option<Tab>, view: string, now: int) {
    t == if view == "metrics" then Some(Tab("view:metrics:", View(Metrics, None), "Metrics", false, false, now))
         else None
  }

  lemma MetricsTabIs(t: Option<Tab>, view: string, now: int)
    requires IsMetricsTab(t, view, now)
    ensures MetricsTabs(view, now) == AtMostOne(t)
  {
    assert "view:" + ("metrics" + ":" + "") == "view:metrics:";
  }

  /** An entity's tab: a plain one, with the entity's name for a title. */
  ghost predicate IsEntityTab(t: Option<Tab>, kind: EntityKind, db: string, name: string, now: int) {
    && (t.Some? <==> name != "")
    && (t.Some? ==>
          t.value.content == Entity(kind, db, name) && t.value.title == name && t.value.id == TabId(t.value.content)
          && !t.value.ephemeral && !t.value.pinned && t.value.createdAt == now)
  }

  /** The tabs built: first that of the entity that was open, then one for each script or channel, and
      that of the metrics last if they were shown. */
  lemma SqlTabsBuilt(nav: Nav, now: int, entity: Option<Tab>, named: seq<Tab>, metrics: Option<Tab>)
    requires nav.Sql? && IsEntityTab(entity, Table, nav.db, nav.table, now)
    requires IsMetricsTab(metrics, nav.view, now)
    requires |named| == |OrNone(nav.scripts)|
    requires forall j :: 0 <= j < |named| ==>
      named[j] == Tab("query:" + OrNone(nav.scripts)[j].id, Query(OrNone(nav.scripts)[j].id),
                      OrNone(nav.scripts)[j].name, false, false, now)
    ensures BuiltTabs(nav, now) == AtMostOne(entity) + named + AtMostOne(metrics)
  {
    assert named == NamedPart(nav, now);
    MetricsTabIs(metrics, nav.view, now);
  }

  lemma DocumentTabsBuilt(nav: Nav, now: int, entity: Option<Tab>, metrics: Option<Tab>)
    requires nav.Document? && IsEntityTab(entity, Collection, nav.db, nav.collection, now)
    requires IsMetricsTab(metrics, nav.view, now)
    ensures BuiltTabs(nav, now) == AtMostOne(entity) + AtMostOne(metrics)
  {
    MetricsTabIs(metrics, nav.view, now);
  }

  /** Channels get pinned tabs. */
  lemma RedisTabsBuilt(nav: Nav, now: int, entity: Option<Tab>, named: seq<Tab>, metrics: Option<Tab>)
    requires nav.Redis? && IsEntityTab(entity, Key, nav.db, nav.key, now)
    requires IsMetricsTab(metrics, nav.view, now)
    requires |named| == |OrNone(nav.channels)|
    requires forall j :: 0 <= j < |named| ==>
      named[j] == Tab("channel:" + OrNone(nav.channels)[j], Channel(OrNone(nav.channels)[j]),
                      OrNone(nav.channels)[j], false, true, now)
    ensures BuiltTabs(nav, now) == AtMostOne(entity) + named + AtMostOne(metrics)
  {
    assert named == NamedPart(nav, now);
    MetricsTabIs(metrics, nav.view, now);
  }

  /** What a session without tabs shows: the metrics, the active script or the active channel, when
      its view says so; or else the entity that was open. */
  ghost predicate Shown(nav: Nav, c: Content) {
    if nav.view == "metrics" then c == View(Metrics, None)
    else if nav.Sql? && nav.view == "queries" && nav.activeScript != "" then c == Query(nav.activeScript)
    else if nav.Redis? && nav.view == "pubsub" && nav.activeChannel != "" then c == Channel(nav.activeChannel)
    else
      match nav
      case Sql(_, _, db, table, _, _, _) => table != "" && c == Entity(Table, db, table)
      case Document(db, collection, _) => collection != "" && c == Entity(Collection, db, collection)
      case Redis(db, key, _, _, _, _) => key != "" && c == Entity(Key, db, key)
  }

  /** When a session without tabs is loaded, the active tab is that of what it shows; and of nothing
      in particular, the first tab, or none if there is none. */
  lemma LoadedShows(s: Saved, stamp: string, now: int, c: Content)
    requires s.tabs.None? || s.tabs.value == []
    ensures
      var r := Hydrated(s, stamp, now);
      && r.tabs == Some(BuiltTabs(r.nav, now))
      && (Shown(r.nav, c) ==> r.active == Some(TabId(c)))
      && ((forall x :: !Shown(r.nav, x)) ==>
            r.active == if r.tabs.value == [] then None else Some(r.tabs.value[0].id))
  {
    var nav := Hydrated(s, stamp, now).nav;
    if BuiltActive(nav).Some? {
      SomethingShown(nav);
    }
  }

  lemma SomethingShown(nav: Nav)
    requires BuiltActive(nav).Some?
    ensures exists x :: Shown(nav, x)
  {
    if nav.view == "metrics" {
      assert Shown(nav, View(Metrics, None));
    } else if nav.Sql? && nav.view == "queries" && nav.activeScript != "" {
      assert Shown(nav, Query(nav.activeScript));
    } else if nav.Redis? && nav.view == "pubsub" && nav.activeChannel != "" {
      assert Shown(nav, Channel(nav.activeChannel));
    } else {
      match nav
      case Sql(_, _, db, table, _, _, _) => assert Shown(nav, Entity(Table, db, table));
      case Document(db, collection, _) => assert Shown(nav, Entity(Collection, db, collection));
      case Redis(db, key, _, _, _, _) => assert Shown(nav, Entity(Key, db, key));
    }
  }

  // ---------------------------------------------------------------- the store

  /** The tab strip of a loaded session. */
  function StripOf(s: Saved): Strip {
    Strip(OrNone(s.tabs), s.active, OrNone(s.recents), if s.nav.Sql? then OrNone(s.nav.scripts) else [])
  }

  function WithStrip(s: Saved, t: Strip): Saved {
    Saved(Some(t.tabs), t.active, Some(t.recents), if s.nav.Sql? then s.nav.(scripts := Some(t.scripts)) else s.nav)
  }

  /** A session holds just the strip it is given, and nothing else of it changes. */
  lemma StripBack(s: Saved, t: Strip)
    ensures StripOf(WithStrip(s, t)) == if s.nav.Sql? then t else t.(scripts := [])
    ensures
      WithStrip(s, t).nav
      == if s.nav.Sql? then s.nav.(scripts := Some(t.scripts)) else s.nav
    ensures s.tabs.Some? ==> StripOf(s).tabs == s.tabs.value && StripOf(s).active == s.active
    ensures s.nav.Sql? && s.nav.scripts.Some? ==> StripOf(s).scripts == s.nav.scripts.value
    ensures s.recents.Some? ==> StripOf(s).recents == s.recents.value
  {
  }

  /** A loaded session starts tidy exactly when its old fields repeat no name and point at a tab
      that is built; a migrated one has no previews, so pins are right from the start. */
  lemma LoadedTidyIff(s: Saved, stamp: string, now: int)
    requires s.tabs.None? || s.tabs.value == []
    requires s.tabs.Some? && s.recents.Some? ==> RecentsOk(s.recents.value)
    ensures
      Inv(StripOf(Hydrated(s, stamp, now)))
      <==> NoRepeat(Names(s.nav)) && !PointsNowhere(s.nav)
  {
    var r := Hydrated(s, stamp, now);
    MigratedActiveIff(s, stamp, now);
    BuiltDistinctIff(r.nav, now);
    BuiltNoPreviews(r.nav, now);
    LoadedNames(s.nav, stamp);
    assert r.tabs == Some(BuiltTabs(r.nav, now)) && r.nav == WithDefaults(s.nav, stamp);
  }

  lemma BuiltNoPreviews(nav: Nav, now: int)
    ensures PinsOk(BuiltTabs(nav, now))
  {
  }

  lemma LoadedNames(nav: Nav, stamp: string)
    ensures NoRepeat(Names(WithDefaults(nav, stamp))) <==> NoRepeat(Names(nav))
  {
  }

  class SessionsStore {
    var sessions: map<nat, Saved>
    var loaded: bool

    constructor ()
      ensures sessions == map[] && !loaded
    {
      sessions, loaded := map[], false;
    }

    /** The tab actions: nothing happens for a connection without a session. */
    method Dispatch(id: nat, action: Action, now: int)
      modifies this`sessions
      ensures sessions ==
        if id in old(sessions) then
          old(sessions)[id := WithStrip(old(sessions)[id], Do(StripOf(old(sessions)[id]), action, now))]
        else old(sessions)
      ensures id in old(sessions) && Inv(StripOf(old(sessions)[id])) ==>
        (Inv(StripOf(sessions[id])) <==> Proper(StripOf(old(sessions)[id]), action))
    {
      if id in sessions {
        var strip := Do(StripOf(sessions[id]), action, now);
        if Inv(StripOf(sessions[id])) {
          DoKeepsIff(StripOf(sessions[id]), action, now);
        }
        sessions := sessions[id := WithStrip(sessions[id], strip)];
      }
    }

    method Remove(id: nat)
      modifies this`sessions
      ensures sessions == old(sessions) - {id}
    {
      sessions := sessions - {id};
    }

    /** `hydrate`: every saved session is normalised and migrated. */
    method Hydrate(saved: map<nat, Saved>, stamps: map<nat, string>, now: int)
      requires saved.Keys <= stamps.Keys
      modifies this
      ensures loaded && sessions == map id | id in saved :: Hydrated(saved[id], stamps[id], now)
    {
      var normalized: map<nat, Saved> := map[];
      var ids := saved.Keys;
      while ids != {}
        invariant ids <= saved.Keys
        invariant normalized == map id | id in saved && id !in ids :: Hydrated(saved[id], stamps[id], now)
        decreases |ids|
      {
        var id :| id in ids;
        var base := WithBase(saved[id]);
        var session := MigrateSession(base.(nav := WithDefaults(base.nav, stamps[id])), now);
        normalized := normalized[id := session];
        ids := ids - {id};
      }
      sessions := normalized;
      loaded := true;
    }
  }
}
