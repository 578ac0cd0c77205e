/** The workspace tab store: one strip of tabs per connection. */
module Tabs {
  import opened Wrappers
  import opened Scan

  // ---------------------------------------------------------------- tabs and their ids

  datatype EntityKind = Table | Collection | Key

  datatype ViewKind = Metrics | Schema | ServerInfo

  datatype Content =
    | Entity(kind: EntityKind, db: string, name: string)
    | Query(scriptId: string)
    | Channel(channel: string)
    | View(view: ViewKind, viewDb: Option<string>)

  datatype Tab = Tab(id: string, content: Content, title: string, ephemeral: bool, pinned: bool, createdAt: int)

  datatype Script = Script(id: string, name: string, sql: string)

  function KindName(k: EntityKind): string {
    match k
    case Table => "table"
    case Collection => "collection"
    case Key => "key"
  }

  function ViewName(v: ViewKind): string {
    match v
    case Metrics => "metrics"
    case Schema => "schema"
    case ServerInfo => "server-info"
  }

  function OrEmpty(s: Option<string>): string {
    if s.Some? then s.value else ""
  }

  /** `workspaceTabId`. */
  function TabId(c: Content): string {
    match c
    case Entity(k, db, name) => "entity:" + (KindName(k) + ":" + (db + ":" + name))
    case Query(script) => "query:" + script
    case Channel(ch) => "channel:" + ch
    case View(v, db) => "view:" + (ViewName(v) + ":" + OrEmpty(db))
  }

  /** Text before and after the first ':' can be told apart. */
  lemma SplitOnce(a: string, x: string, b: string, y: string)
    requires ':' !in a && ':' !in b
    ensures a + ":" + x == b + ":" + y <==> a == b && x == y
  {
    FirstAt(a, ':', x);
    FirstAt(b, ':', y);
    if a + ":" + x == b + ":" + y {
      assert (a + ":" + x)[..|a|] == a && (b + ":" + y)[..|b|] == b;
      SameTail(a + ":", x, y);
    }
  }

  lemma NamesDiffer(k: EntityKind, l: EntityKind, v: ViewKind, w: ViewKind)
    ensures ':' !in KindName(k) && ':' !in ViewName(v)
    ensures KindName(k) == KindName(l) <==> k == l
    ensures ViewName(v) == ViewName(w) <==> v == w
  {
  }

  /** Two contents share an id exactly when they are of one kind and agree, a missing view
      database counting as an empty one, and an entity's database and name only as they read
      joined by ':'. */
  lemma TabIdsEqualIff(a: Content, b: Content)
    ensures
      TabId(a) == TabId(b)
      <==> match (a, b)
           case (Entity(k, db, name), Entity(l, db', name')) => k == l && db + ":" + name == db' + ":" + name'
           case (View(v, db), View(w, db')) => v == w && OrEmpty(db) == OrEmpty(db')
           case (_, _) => a == b
  {
    match (a, b)
    case (Entity(k, db, name), Entity(l, db', name')) =>
      NamesDiffer(k, l, Metrics, Metrics);
      NamesDiffer(l, k, Metrics, Metrics);
      SplitOnce(KindName(k), db + ":" + name, KindName(l), db' + ":" + name');
      if TabId(a) == TabId(b) {
        SameTail("entity:", KindName(k) + ":" + (db + ":" + name), KindName(l) + ":" + (db' + ":" + name'));
      }
    case (View(v, db), View(w, db')) =>
      NamesDiffer(Table, Table, v, w);
      NamesDiffer(Table, Table, w, v);
      SplitOnce(ViewName(v), OrEmpty(db), ViewName(w), OrEmpty(db'));
      if TabId(a) == TabId(b) {
        SameTail("view:", ViewName(v) + ":" + OrEmpty(db), ViewName(w) + ":" + OrEmpty(db'));
      }
    case (Query(x), Query(y)) =>
      if TabId(a) == TabId(b) {
        SameTail("query:", x, y);
      }
    case (Channel(x), Channel(y)) =>
      if TabId(a) == TabId(b) {
        SameTail("channel:", x, y);
      }
    case (_, _) =>
      assert TabId(a)[0] != TabId(b)[0];
  }

  /** So the id tells entities apart when no database name contains ':'. */
  lemma EntityIdsUnique(a: Content, b: Content)
    requires a.Entity? && b.Entity? && ':' !in a.db && ':' !in b.db
    ensures TabId(a) == TabId(b) <==> a == b
  {
    TabIdsEqualIff(a, b);
    SplitOnce(a.db, a.name, b.db, b.name);
  }

  /** And two different entities can share a tab when one does. */
  lemma ColonCollides(x: string, y: string, z: string)
    ensures TabId(Entity(Table, x + ":" + y, z)) == TabId(Entity(Table, x, y + ":" + z))
  {
  }

  // ---------------------------------------------------------------- the reducers

  datatype Strip = Strip(tabs: seq<Tab>, active: Option<string>, recents: seq<Tab>, scripts: seq<Script>)

  function IndexOf(tabs: seq<Tab>, id: string): (r: Option<nat>)
    ensures r.Some? ==> r.value < |tabs| && tabs[r.value].id == id && forall k :: 0 <= k < r.value ==> tabs[k].id != id
    ensures r.None? ==> forall k :: 0 <= k < |tabs| ==> tabs[k].id != id
  {
    if tabs == [] then None
    else if tabs[0].id == id then Some(0)
    else
      var k := IndexOf(tabs[1..], id);
      assert k.None? ==> forall j :: 0 <= j < |tabs[1..]| ==> tabs[1..][j] == tabs[j + 1];
      if k.None? then None else Some(k.value + 1)
  }

  /** `map`, changing the tabs with one id. */
  function Edited(tabs: seq<Tab>, id: string, ephemeral: Option<bool>, pinned: Option<bool>): (r: seq<Tab>)
    ensures |r| == |tabs|
  {
    seq(|tabs|, k requires 0 <= k < |tabs| =>
      if tabs[k].id != id then tabs[k]
      else tabs[k].(ephemeral := if ephemeral.Some? then ephemeral.value else tabs[k].ephemeral,
                    pinned := if pinned.Some? then pinned.value else tabs[k].pinned))
  }

  /** The tab that a preview replaces: the active one, if it is a preview itself. */
  function PreviewIndex(s: Strip): Option<nat> {
    if s.active.None? then None
    else
      var k := IndexOf(s.tabs, s.active.value);
      if k.Some? && s.tabs[k.value].ephemeral then k else None
  }

  function OpenTab(s: Strip, c: Content, title: string, ephemeral: bool, now: int): Strip {
    var id := TabId(c);
    if IndexOf(s.tabs, id).Some? then
      s.(tabs := Edited(s.tabs, id, if ephemeral then None else Some(false), None), active := Some(id))
    else
      var tab := Tab(id, c, title, ephemeral, false, now);
      var at := PreviewIndex(s);
      if ephemeral && at.Some? then s.(tabs := s.tabs[at.value := tab], active := Some(id))
      else s.(tabs := s.tabs + [tab], active := Some(id))
  }

  function Without(tabs: seq<Tab>, id: string): seq<Tab> {
    if tabs == [] then [] else (if tabs[0].id == id then [] else [tabs[0]]) + Without(tabs[1..], id)
  }

  function PushRecent(recents: seq<Tab>, tab: Tab): seq<Tab> {
    var all := [tab] + Without(recents, tab.id);
    if |all| <= 20 then all else all[..20]
  }

  function CloseTab(s: Strip, id: string): Strip {
    var at := IndexOf(s.tabs, id);
    if at.None? then s
    else
      var k := at.value;
      var tabs := s.tabs[..k] + s.tabs[k + 1..];
      var active :=
        if s.active != Some(id) then s.active
        else if k < |tabs| then Some(tabs[k].id)
        else if k > 0 then Some(tabs[k - 1].id)
        else None;
      s.(tabs := tabs, active := active, recents := PushRecent(s.recents, s.tabs[k]))
  }

  function PinTab(s: Strip, id: string): Strip {
    s.(tabs := Edited(s.tabs, id, Some(false), Some(true)))
  }

  function UnpinTab(s: Strip, id: string): Strip {
    s.(tabs := Edited(s.tabs, id, None, Some(false)))
  }

  function SetActive(s: Strip, id: Option<string>): Strip {
    if id.Some? && IndexOf(s.tabs, id.value).None? then s else s.(active := id)
  }

  /** The last tab with an id, which is the one a `Map` built from the tabs holds. */
  function ById(tabs: seq<Tab>, id: string): Option<Tab> {
    if tabs == [] then None
    else if tabs[|tabs| - 1].id == id then Some(tabs[|tabs| - 1])
    else ById(tabs[..|tabs| - 1], id)
  }

  function Picked(tabs: seq<Tab>, ids: seq<string>): seq<Tab> {
    if ids == [] then []
    else
      var t := ById(tabs, ids[0]);
      (if t.Some? then [t.value] else []) + Picked(tabs, ids[1..])
  }

  function ReorderTabs(s: Strip, ids: seq<string>): Strip {
    var tabs := Picked(s.tabs, ids);
    if |tabs| != |s.tabs| then s else s.(tabs := tabs)
  }

  function ScriptById(scripts: seq<Script>, id: string): Option<Script> {
    if scripts == [] then None else if scripts[0].id == id then Some(scripts[0]) else ScriptById(scripts[1..], id)
  }

  /** `stamp` is the clock in base 36. */
  function DuplicateTab(s: Strip, id: string, stamp: string, now: int): Strip {
    var at := IndexOf(s.tabs, id);
    if at.None? || !s.tabs[at.value].content.Query? then s
    else
      var source := ScriptById(s.scripts, s.tabs[at.value].content.scriptId);
      var scriptId := "s-" + stamp;
      var script :=
        Script(scriptId,
               (if source.Some? then source.value.name else "Script") + " copy",
               if source.Some? then source.value.sql else "");
      var c := Query(scriptId);
      var tab := Tab(TabId(c), c, script.name, false, false, now);
      s.(tabs := s.tabs[..at.value + 1] + [tab] + s.tabs[at.value + 1..],
         active := Some(tab.id), scripts := s.scripts + [script])
  }

  // ---------------------------------------------------------------- the invariant

  ghost predicate Distinct(tabs: seq<Tab>) {
    forall i, j :: 0 <= i < j < |tabs| ==> tabs[i].id != tabs[j].id
  }

  ghost predicate IsOpen(tabs: seq<Tab>, id: string) {
    exists k :: 0 <= k < |tabs| && tabs[k].id == id
  }

  ghost predicate ActiveOk(tabs: seq<Tab>, active: Option<string>) {
    active.Some? ==> IsOpen(tabs, active.value)
  }

  ghost predicate PinsOk(tabs: seq<Tab>) {
    forall k :: 0 <= k < |tabs| && tabs[k].pinned ==> !tabs[k].ephemeral
  }

  ghost predicate RecentsOk(recents: seq<Tab>) {
    |recents| <= 20 && Distinct(recents)
  }

  ghost predicate Inv(s: Strip) {
    Distinct(s.tabs) && ActiveOk(s.tabs, s.active) && PinsOk(s.tabs) && RecentsOk(s.recents)
  }

  lemma EditedKeeps(tabs: seq<Tab>, id: string, ephemeral: Option<bool>, pinned: Option<bool>, active: Option<string>)
    requires Distinct(tabs) && PinsOk(tabs) && ActiveOk(tabs, active)
    requires ephemeral != Some(true) && (pinned == Some(true) ==> ephemeral == Some(false))
    ensures var r := Edited(tabs, id, ephemeral, pinned); Distinct(r) && PinsOk(r) && ActiveOk(r, active)
    ensures IsOpen(tabs, id) ==> IsOpen(Edited(tabs, id, ephemeral, pinned), id)
  {
    var r := Edited(tabs, id, ephemeral, pinned);
    forall x | IsOpen(tabs, x) ensures IsOpen(r, x) {
      var k :| 0 <= k < |tabs| && tabs[k].id == x;
      assert r[k].id == x;
    }
  }

  lemma OpenKeeps(s: Strip, c: Content, title: string, ephemeral: bool, now: int)
    requires Inv(s)
    ensures Inv(OpenTab(s, c, title, ephemeral, now))
  {
    var id := TabId(c);
    var s' := OpenTab(s, c, title, ephemeral, now);
    if IndexOf(s.tabs, id).Some? {
      EditedKeeps(s.tabs, id, if ephemeral then None else Some(false), None, s.active);
    } else {
      var at := PreviewIndex(s);
      assert s'.tabs[if ephemeral && at.Some? then at.value else |s.tabs|].id == id;
    }
  }

  lemma {:induction false} WithoutOk(tabs: seq<Tab>, id: string)
    requires Distinct(tabs)
    ensures Distinct(Without(tabs, id)) && |Without(tabs, id)| <= |tabs|
    ensures forall t :: t in Without(tabs, id) ==> t in tabs && t.id != id
  {
    if tabs != [] {
      WithoutOk(tabs[1..], id);
      forall t | t in Without(tabs[1..], id) ensures t.id != tabs[0].id {
        assert t in tabs[1..];
      }
    }
  }

  lemma PushRecentOk(recents: seq<Tab>, tab: Tab)
    requires RecentsOk(recents)
    ensures RecentsOk(PushRecent(recents, tab)) && PushRecent(recents, tab)[0] == tab
  {
    WithoutOk(recents, tab.id);
    var rest := Without(recents, tab.id);
    forall k | 0 <= k < |rest| ensures rest[k].id != tab.id {
      assert rest[k] in rest;
    }
  }

  lemma CloseKeeps(s: Strip, id: string)
    requires Inv(s)
    ensures Inv(CloseTab(s, id)) && !IsOpen(CloseTab(s, id).tabs, id)
  {
    var at := IndexOf(s.tabs, id);
    if at.Some? {
      var k := at.value;
      var s' := CloseTab(s, id);
      PushRecentOk(s.recents, s.tabs[k]);
      assert forall j :: 0 <= j < |s'.tabs| ==> s'.tabs[j] == s.tabs[if j < k then j else j + 1];
      if s.active.Some? && s.active != Some(id) {
        var j :| 0 <= j < |s.tabs| && s.tabs[j].id == s.active.value;
        assert s'.tabs[if j < k then j else j - 1].id == s.active.value;
      }
    }
  }

  /** The tab is one that is duplicated. */
  predicate Copied(s: Strip, id: string) {
    IndexOf(s.tabs, id).Some? && s.tabs[IndexOf(s.tabs, id).value].content.Query?
  }

  /** A duplicate keeps the strip in order exactly when it is turned down or its id, which comes
      from the clock, is not open yet. */
  lemma DuplicateKeepsIff(s: Strip, id: string, stamp: string, now: int)
    requires Inv(s)
    ensures Inv(DuplicateTab(s, id, stamp, now)) <==> !Copied(s, id) || !IsOpen(s.tabs, TabId(Query("s-" + stamp)))
  {
    var s' := DuplicateTab(s, id, stamp, now);
    var copy := TabId(Query("s-" + stamp));
    if Copied(s, id) {
      var k := IndexOf(s.tabs, id).value + 1;
      assert s'.tabs[k].id == copy;
      assert forall j :: 0 <= j < |s'.tabs| && j != k ==> s'.tabs[j] == s.tabs[if j < k then j else j - 1];
      if IsOpen(s.tabs, copy) {
        var j :| 0 <= j < |s.tabs| && s.tabs[j].id == copy;
        assert s'.tabs[if j < k then j else j + 1].id == copy;
      }
    }
  }

  // ---------------------------------------------------------------- reordering

  function Known(tabs: seq<Tab>, ids: seq<string>): seq<string> {
    if ids == [] then [] else (if ById(tabs, ids[0]).Some? then [ids[0]] else []) + Known(tabs, ids[1..])
  }

  ghost predicate NoRepeat(ids: seq<string>) {
    forall i, j :: 0 <= i < j < |ids| ==> ids[i] != ids[j]
  }

  lemma {:induction false} ByIdOk(tabs: seq<Tab>, id: string)
    ensures ById(tabs, id).Some? <==> IsOpen(tabs, id)
    ensures ById(tabs, id).Some? ==> ById(tabs, id).value in tabs && ById(tabs, id).value.id == id
  {
    if tabs != [] {
      ByIdOk(tabs[..|tabs| - 1], id);
      if IsOpen(tabs, id) && tabs[|tabs| - 1].id != id {
        var k :| 0 <= k < |tabs| && tabs[k].id == id;
        assert tabs[..|tabs| - 1][k].id == id;
      }
      if IsOpen(tabs[..|tabs| - 1], id) {
        var k :| 0 <= k < |tabs| - 1 && tabs[..|tabs| - 1][k].id == id;
        assert tabs[k].id == id;
      }
    }
  }

  /** The picked tabs are open tabs with the known ids, in the requested order. */
  lemma {:induction false} PickedOk(tabs: seq<Tab>, ids: seq<string>)
    ensures |Picked(tabs, ids)| == |Known(tabs, ids)|
    ensures forall k :: 0 <= k < |Picked(tabs, ids)| ==>
      Picked(tabs, ids)[k].id == Known(tabs, ids)[k] && Picked(tabs, ids)[k] in tabs
    ensures NoRepeat(ids) ==> NoRepeat(Known(tabs, ids))
    ensures forall x :: x in Known(tabs, ids) ==> x in ids
  {
    if ids != [] {
      PickedOk(tabs, ids[1..]);
      ByIdOk(tabs, ids[0]);
      if NoRepeat(ids) {
        assert forall i, j :: 0 <= i < j < |ids[1..]| ==> ids[1..][i] != ids[1..][j];
        forall x | x in Known(tabs, ids[1..]) ensures x != ids[0] {
          var k :| 0 <= k < |ids[1..]| && ids[1..][k] == x;
          assert ids[k + 1] == x;
        }
        var rest := Known(tabs, ids[1..]);
        forall k | 0 <= k < |rest| ensures rest[k] != ids[0] {
          assert rest[k] in rest;
        }
      }
    }
  }

  function SetOf(tabs: seq<Tab>): set<Tab> {
    set t | t in tabs
  }

  lemma {:induction false} SetSize(tabs: seq<Tab>)
    requires Distinct(tabs)
    ensures |SetOf(tabs)| == |tabs|
    ensures multiset(tabs) == multiset(SetOf(tabs))
  {
    if tabs != [] {
      var init, last := tabs[..|tabs| - 1], tabs[|tabs| - 1];
      SetSize(init);
      assert tabs == init + [last];
      assert SetOf(tabs) == SetOf(init) + {last};
      assert last !in SetOf(init);
    }
  }

  lemma SubsetOfSameSize(a: set<Tab>, b: set<Tab>)
    requires a <= b && |a| == |b|
    ensures a == b
  {
    assert |b - a| == |b| - |a|;
  }

  /** A reorder keeps the strip in order exactly when it is turned down or repeats no id of an
      open tab; then it is a permutation of the tabs. */
  lemma ReorderKeepsIff(s: Strip, ids: seq<string>)
    requires Inv(s)
    ensures Inv(ReorderTabs(s, ids)) <==> |Known(s.tabs, ids)| != |s.tabs| || NoRepeat(Known(s.tabs, ids))
    ensures Inv(ReorderTabs(s, ids)) ==> multiset(ReorderTabs(s, ids).tabs) == multiset(s.tabs)
  {
    PickedOk(s.tabs, ids);
    var tabs := Picked(s.tabs, ids);
    if |tabs| == |s.tabs| && NoRepeat(Known(s.tabs, ids)) {
      assert Distinct(tabs);
      SetSize(tabs);
      SetSize(s.tabs);
      SubsetOfSameSize(SetOf(tabs), SetOf(s.tabs));
      SameTabs(s.tabs, tabs, s.active);
    }
  }

  lemma SameTabs(a: seq<Tab>, b: seq<Tab>, active: Option<string>)
    requires SetOf(a) == SetOf(b) && ActiveOk(a, active) && PinsOk(a)
    ensures ActiveOk(b, active) && PinsOk(b)
  {
    if active.Some? {
      var k :| 0 <= k < |a| && a[k].id == active.value;
      assert a[k] in SetOf(b);
      var j :| 0 <= j < |b| && b[j] == a[k];
      assert b[j].id == active.value;
    }
    forall k | 0 <= k < |b| && b[k].pinned ensures !b[k].ephemeral {
      assert b[k] in SetOf(a);
    }
  }

  // ---------------------------------------------------------------- runs

  datatype Action =
    | Open(content: Content, title: string, preview: bool)
    | Close(id: string)
    | Pin(id: string)
    | Unpin(id: string)
    | Activate(target: Option<string>)
    | Reorder(ids: seq<string>)
    | Duplicate(id: string, stamp: string)

  function Do(s: Strip, a: Action, now: int): Strip {
    match a
    case Open(c, title, preview) => OpenTab(s, c, title, preview, now)
    case Close(id) => CloseTab(s, id)
    case Pin(id) => PinTab(s, id)
    case Unpin(id) => UnpinTab(s, id)
    case Activate(id) => SetActive(s, id)
    case Reorder(ids) => ReorderTabs(s, ids)
    case Duplicate(id, stamp) => DuplicateTab(s, id, stamp, now)
  }

  /** What the store relies on: a fresh clock stamp, and reorders without repeated ids. */
  ghost predicate Proper(s: Strip, a: Action) {
    && (a.Duplicate? ==> !Copied(s, a.id) || !IsOpen(s.tabs, TabId(Query("s-" + a.stamp))))
    && (a.Reorder? ==> |Known(s.tabs, a.ids)| != |s.tabs| || NoRepeat(Known(s.tabs, a.ids)))
  }

  function Run(s: Strip, actions: seq<(Action, int)>): Strip
    decreases |actions|
  {
    if actions == [] then s else Run(Do(s, actions[0].0, actions[0].1), actions[1..])
  }

  ghost predicate ProperRun(s: Strip, actions: seq<(Action, int)>)
    decreases |actions|
  {
    actions == [] || (Proper(s, actions[0].0) && ProperRun(Do(s, actions[0].0, actions[0].1), actions[1..]))
  }

  /** An action keeps the invariant exactly when it is one the store relies on. */
  lemma DoKeepsIff(s: Strip, a: Action, now: int)
    requires Inv(s)
    ensures Inv(Do(s, a, now)) <==> Proper(s, a)
  {
    match a
    case Open(c, title, preview) => OpenKeeps(s, c, title, preview, now);
    case Close(id) => CloseKeeps(s, id);
    case Pin(id) => EditedKeeps(s.tabs, id, Some(false), Some(true), s.active);
    case Unpin(id) => EditedKeeps(s.tabs, id, None, Some(false), s.active);
    case Activate(id) =>
    case Reorder(ids) => ReorderKeepsIff(s, ids);
    case Duplicate(id, stamp) => DuplicateKeepsIff(s, id, stamp, now);
  }

  /** Over every run of the store: open ids are distinct, the active tab is open, pinned tabs
      are no previews, and recents are distinct and at most twenty. */
  lemma {:induction false} RunKeeps(s: Strip, actions: seq<(Action, int)>)
    requires Inv(s) && ProperRun(s, actions)
    ensures Inv(Run(s, actions))
    decreases |actions|
  {
    if actions != [] {
      DoKeepsIff(s, actions[0].0, actions[0].1);
      RunKeeps(Do(s, actions[0].0, actions[0].1), actions[1..]);
    }
  }

  /** Opening never drops a tab that is no preview, and drops at most one that is. */
  lemma OpenDropsNoTab(s: Strip, c: Content, title: string, ephemeral: bool, now: int, k: nat)
    requires Inv(s) && k < |s.tabs|
    ensures
      var s' := OpenTab(s, c, title, ephemeral, now);
      && |s'.tabs| >= |s.tabs|
      && s'.active == Some(TabId(c)) && IsOpen(s'.tabs, TabId(c))
      && (s'.tabs[k].id != s.tabs[k].id ==>
        s.tabs[k].ephemeral && !s.tabs[k].pinned && s.active == Some(s.tabs[k].id) && ephemeral)
      && (s'.tabs[k].id == s.tabs[k].id ==>
        s'.tabs[k].content == s.tabs[k].content && s'.tabs[k].pinned == s.tabs[k].pinned)
  {
    OpenKeeps(s, c, title, ephemeral, now);
  }

  /** Closing a tab just opened without preview, or a duplicate just made, undoes it: the strip is
      as before, and only the recents and what is active tell. */
  lemma CloseUndoes(s: Strip, c: Content, title: string, now: int, id: string, stamp: string)
    requires Inv(s)
    ensures !IsOpen(s.tabs, TabId(c)) ==> CloseTab(OpenTab(s, c, title, false, now), TabId(c)).tabs == s.tabs
    ensures
      var copy := TabId(Query("s-" + stamp));
      !IsOpen(s.tabs, copy) ==> CloseTab(DuplicateTab(s, id, stamp, now), copy).tabs == s.tabs
  {
    if !IsOpen(s.tabs, TabId(c)) {
      CutOut(s.tabs, Tab(TabId(c), c, title, false, false, now), |s.tabs|);
      assert s.tabs[..|s.tabs|] == s.tabs && s.tabs[|s.tabs|..] == [];
      assert s.tabs + [Tab(TabId(c), c, title, false, false, now)] + []
        == s.tabs + [Tab(TabId(c), c, title, false, false, now)];
    }
    var copy := TabId(Query("s-" + stamp));
    if !IsOpen(s.tabs, copy) {
      var at := IndexOf(s.tabs, id);
      var s' := DuplicateTab(s, id, stamp, now);
      if at.Some? && s.tabs[at.value].content.Query? {
        CutOut(s.tabs, s'.tabs[at.value + 1], at.value + 1);
      }
    }
  }

  lemma CutOut(tabs: seq<Tab>, tab: Tab, k: nat)
    requires k <= |tabs| && !IsOpen(tabs, tab.id)
    ensures
      var more := tabs[..k] + [tab] + tabs[k..];
      IndexOf(more, tab.id) == Some(k) && more[..k] + more[k + 1..] == tabs
  {
    var more := tabs[..k] + [tab] + tabs[k..];
    assert more[k] == tab;
    assert forall j :: 0 <= j < k ==> more[j] == tabs[j];
  }

  ghost predicate PinnedOpen(tabs: seq<Tab>, id: string, c: Content) {
    exists k :: 0 <= k < |tabs| && tabs[k].id == id && tabs[k].content == c && tabs[k].pinned
  }

  predicate Releases(a: Action, id: string) {
    a == Close(id) || a == Unpin(id)
  }

  lemma EditedKeepsPin(
    tabs: seq<Tab>, edited: string, ephemeral: Option<bool>, pinned: Option<bool>, id: string, c: Content)
    requires PinnedOpen(tabs, id, c) && (pinned == Some(false) ==> edited != id)
    ensures PinnedOpen(Edited(tabs, edited, ephemeral, pinned), id, c)
  {
    var k :| 0 <= k < |tabs| && tabs[k].id == id && tabs[k].content == c && tabs[k].pinned;
    assert Edited(tabs, edited, ephemeral, pinned)[k].id == id;
  }

  lemma OpenKeepsPin(s: Strip, c: Content, title: string, preview: bool, now: int, id: string, x: Content)
    requires Inv(s) && PinnedOpen(s.tabs, id, x)
    ensures PinnedOpen(OpenTab(s, c, title, preview, now).tabs, id, x)
  {
    if IndexOf(s.tabs, TabId(c)).Some? {
      EditedKeepsPin(s.tabs, TabId(c), if preview then None else Some(false), None, id, x);
    } else {
      var k :| 0 <= k < |s.tabs| && s.tabs[k].id == id && s.tabs[k].content == x && s.tabs[k].pinned;
      assert OpenTab(s, c, title, preview, now).tabs[k] == s.tabs[k];
    }
  }

  lemma CloseKeepsPin(s: Strip, closed: string, id: string, x: Content)
    requires PinnedOpen(s.tabs, id, x) && closed != id
    ensures PinnedOpen(CloseTab(s, closed).tabs, id, x)
  {
    var k :| 0 <= k < |s.tabs| && s.tabs[k].id == id && s.tabs[k].content == x && s.tabs[k].pinned;
    var at := IndexOf(s.tabs, closed);
    if at.Some? {
      assert CloseTab(s, closed).tabs[if k < at.value then k else k - 1] == s.tabs[k];
    }
  }

  lemma ReorderKeepsPin(s: Strip, ids: seq<string>, id: string, x: Content)
    requires Inv(s) && PinnedOpen(s.tabs, id, x) && Proper(s, Reorder(ids))
    ensures PinnedOpen(ReorderTabs(s, ids).tabs, id, x)
  {
    var k :| 0 <= k < |s.tabs| && s.tabs[k].id == id && s.tabs[k].content == x && s.tabs[k].pinned;
    var tabs := ReorderTabs(s, ids).tabs;
    PickedOk(s.tabs, ids);
    ReorderKeepsIff(s, ids);
    assert s.tabs[k] in multiset(tabs);
    var j :| 0 <= j < |tabs| && tabs[j] == s.tabs[k];
    assert tabs[j].id == id;
  }

  lemma DuplicateKeepsPin(s: Strip, source: string, stamp: string, now: int, id: string, x: Content)
    requires PinnedOpen(s.tabs, id, x)
    ensures PinnedOpen(DuplicateTab(s, source, stamp, now).tabs, id, x)
  {
    var k :| 0 <= k < |s.tabs| && s.tabs[k].id == id && s.tabs[k].content == x && s.tabs[k].pinned;
    var at := IndexOf(s.tabs, source);
    if at.Some? && s.tabs[at.value].content.Query? {
      assert DuplicateTab(s, source, stamp, now).tabs[if k <= at.value then k else k + 1] == s.tabs[k];
    }
  }

  /** A pinned tab stays open, pinned and showing what it shows through every run that neither
      closes nor unpins it. */
  lemma {:induction false} PinnedStays(s: Strip, actions: seq<(Action, int)>, id: string, x: Content)
    requires Inv(s) && ProperRun(s, actions) && PinnedOpen(s.tabs, id, x)
    requires forall k :: 0 <= k < |actions| ==> !Releases(actions[k].0, id)
    ensures PinnedOpen(Run(s, actions).tabs, id, x)
    decreases |actions|
  {
    if actions != [] {
      var a, now := actions[0].0, actions[0].1;
      assert !Releases(a, id);
      PinStep(s, a, now, id, x);
      DoKeepsIff(s, a, now);
      PinnedStays(Do(s, a, now), actions[1..], id, x);
    }
  }

  lemma PinStep(s: Strip, a: Action, now: int, id: string, x: Content)
    requires Inv(s) && Proper(s, a) && PinnedOpen(s.tabs, id, x) && !Releases(a, id)
    ensures PinnedOpen(Do(s, a, now).tabs, id, x)
  {
    match a
    case Open(c, title, preview) => OpenKeepsPin(s, c, title, preview, now, id, x);
    case Close(closed) => CloseKeepsPin(s, closed, id, x);
    case Pin(pinned) => EditedKeepsPin(s.tabs, pinned, Some(false), Some(true), id, x);
    case Unpin(unpinned) => EditedKeepsPin(s.tabs, unpinned, None, Some(false), id, x);
    case Activate(_) =>
    case Reorder(ids) => ReorderKeepsPin(s, ids, id, x);
    case Duplicate(source, stamp) => DuplicateKeepsPin(s, source, stamp, now, id, x);
  }

  ghost predicate Previews(s: Strip, actions: seq<(Action, int)>)
    decreases |actions|
  {
    actions == []
    || (actions[0].0.Open? && actions[0].0.preview && !IsOpen(s.tabs, TabId(actions[0].0.content))
        && Previews(Do(s, actions[0].0, actions[0].1), actions[1..]))
  }

  /** A preview of a tab not yet open takes the place of the active preview, or is appended, and
      is then the active preview itself. */
  lemma PreviewOpened(s: Strip, c: Content, title: string, now: int)
    requires Inv(s) && !IsOpen(s.tabs, TabId(c))
    ensures
      var s' := OpenTab(s, c, title, true, now);
      var at := if PreviewIndex(s).Some? then PreviewIndex(s).value else |s.tabs|;
      && |s'.tabs| == (if PreviewIndex(s).Some? then |s.tabs| else |s.tabs| + 1)
      && PreviewIndex(s') == Some(at)
  {
    var s' := OpenTab(s, c, title, true, now);
    var at := if PreviewIndex(s).Some? then PreviewIndex(s).value else |s.tabs|;
    OpenKeeps(s, c, title, true, now);
    assert s'.tabs[at].ephemeral && s'.tabs[at].id == TabId(c);
    ActivePreview(s', at);
  }

  lemma ActivePreview(s: Strip, at: nat)
    requires Distinct(s.tabs) && at < |s.tabs| && s.tabs[at].ephemeral && s.active == Some(s.tabs[at].id)
    ensures PreviewIndex(s) == Some(at)
  {
    assert IndexOf(s.tabs, s.tabs[at].id) == Some(at);
  }

  /** However many previews of tabs not yet open follow one another, the strip grows by at most
      one tab, and by none if the active tab is a preview to begin with. */
  lemma {:induction false} PreviewsAddAtMostOne(s: Strip, actions: seq<(Action, int)>)
    requires Inv(s) && Previews(s, actions)
    ensures |s.tabs| <= |Run(s, actions).tabs| <= |s.tabs| + 1
    ensures PreviewIndex(s).Some? ==> |Run(s, actions).tabs| == |s.tabs|
    decreases |actions|
  {
    if actions != [] {
      var a, now := actions[0].0, actions[0].1;
      OpenKeeps(s, a.content, a.title, true, now);
      PreviewOpened(s, a.content, a.title, now);
      PreviewsAddAtMostOne(OpenTab(s, a.content, a.title, true, now), actions[1..]);
    }
  }
}
