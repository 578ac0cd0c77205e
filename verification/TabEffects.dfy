/** What each action of the tab store does to the strip, and that it does nothing else. */
module TabEffects {
  import opened Wrappers
  import opened Tabs

  /** The same tabs in the same places, but for what `changed` says of those with the id. */
  ghost predicate OnlyThose(tabs: seq<Tab>, tabs': seq<Tab>, id: string, changed: Tab -> Tab) {
    && |tabs'| == |tabs|
    && forall k :: 0 <= k < |tabs| ==> tabs'[k] == if tabs[k].id == id then changed(tabs[k]) else tabs[k]
  }

  lemma PinPins(s: Strip, id: string, now: int)
    ensures
      var s' := Do(s, Pin(id), now);
      && s' == s.(tabs := s'.tabs)
      && OnlyThose(s.tabs, s'.tabs, id, (t: Tab) => t.(pinned := true, ephemeral := false))
  {
  }

  lemma UnpinUnpins(s: Strip, id: string, now: int)
    ensures
      var s' := Do(s, Unpin(id), now);
      && s' == s.(tabs := s'.tabs)
      && OnlyThose(s.tabs, s'.tabs, id, (t: Tab) => t.(pinned := false))
  {
  }

  /** Any open tab can be made the active one, or none; nothing else can. */
  lemma ActivateActivates(s: Strip, target: Option<string>, now: int)
    ensures
      Do(s, Activate(target), now)
      == s.(active := if target.None? || IsOpen(s.tabs, target.value) then target else s.active)
  {
  }

  /** A tab that is open already is activated, and is a preview no longer unless it is opened as one. */
  lemma OpenAgain(s: Strip, c: Content, title: string, preview: bool, now: int)
    requires IsOpen(s.tabs, TabId(c))
    ensures
      var s' := Do(s, Open(c, title, preview), now);
      && s' == s.(tabs := s'.tabs, active := Some(TabId(c)))
      && OnlyThose(s.tabs, s'.tabs, TabId(c), (t: Tab) => t.(ephemeral := preview && t.ephemeral))
  {
  }

  /** Any other is made, and is the active one; a preview takes the place of an active preview. */
  lemma OpenNew(s: Strip, c: Content, title: string, preview: bool, now: int, k: nat)
    requires Distinct(s.tabs) && !IsOpen(s.tabs, TabId(c))
    ensures
      var s' := Do(s, Open(c, title, preview), now);
      var tab := Tab(TabId(c), c, title, preview, false, now);
      && s' == s.(tabs := s'.tabs, active := Some(tab.id))
      && (k < |s.tabs| && preview && s.tabs[k].ephemeral && s.active == Some(s.tabs[k].id) ==>
            s'.tabs == s.tabs[k := tab])
      && ((!preview || forall j :: 0 <= j < |s.tabs| && s.tabs[j].ephemeral ==> s.active != Some(s.tabs[j].id)) ==>
            s'.tabs == s.tabs + [tab])
  {
  }

  // ---------------------------------------------------------------- closing

  /** The recents with one more in front, whatever they held under its id, at most twenty. */
  ghost predicate InFront(recents: seq<Tab>, tab: Tab, recents': seq<Tab>) {
    && recents' != [] && recents'[0] == tab
    && (forall j :: 0 <= j < |recents| && recents[j].id == tab.id ==> recents'[1..] == recents[..j] + recents[j + 1..])
    && (!IsOpen(recents, tab.id) ==> recents'[1..] == if |recents| < 20 then recents else recents[..19])
  }

  lemma {:induction false} WithoutNone(tabs: seq<Tab>, id: string)
    requires !IsOpen(tabs, id)
    ensures Without(tabs, id) == tabs
  {
    if tabs != [] {
      assert tabs[0].id != id;
      assert forall k :: 0 <= k < |tabs[1..]| ==> tabs[1..][k] == tabs[k + 1];
      WithoutNone(tabs[1..], id);
    }
  }

  lemma {:induction false} WithoutOne(tabs: seq<Tab>, id: string, j: nat)
    requires Distinct(tabs) && j < |tabs| && tabs[j].id == id
    ensures Without(tabs, id) == tabs[..j] + tabs[j + 1..]
  {
    assert forall k :: 0 <= k < |tabs[1..]| ==> tabs[1..][k] == tabs[k + 1];
    if j == 0 {
      WithoutNone(tabs[1..], id);
    } else {
      WithoutOne(tabs[1..], id, j - 1);
      assert [tabs[0]] + (tabs[1..][..j - 1] + tabs[1..][j..]) == tabs[..j] + tabs[j + 1..];
    }
  }

  lemma PushedInFront(recents: seq<Tab>, tab: Tab)
    requires RecentsOk(recents)
    ensures InFront(recents, tab, PushRecent(recents, tab))
  {
    if IsOpen(recents, tab.id) {
      var j :| 0 <= j < |recents| && recents[j].id == tab.id;
      WithoutOne(recents, tab.id, j);
    } else {
      WithoutNone(recents, tab.id);
    }
  }

  /** A tab that is not open cannot be closed. */
  lemma CloseUnknown(s: Strip, id: string, now: int)
    requires !IsOpen(s.tabs, id)
    ensures Do(s, Close(id), now) == s
  {
  }

  /** The closed tab is gone and is the newest of the recents.  If it was the active one, the tab
      behind it becomes that, or the one before it, or none. */
  lemma CloseCloses(s: Strip, k: nat, now: int)
    requires Inv(s) && k < |s.tabs|
    ensures
      var s' := Do(s, Close(s.tabs[k].id), now);
      && s' == s.(tabs := s.tabs[..k] + s.tabs[k + 1..], active := s'.active, recents := s'.recents)
      && InFront(s.recents, s.tabs[k], s'.recents)
      && s'.active == (if s.active != Some(s.tabs[k].id) then s.active
                       else if k + 1 < |s.tabs| then Some(s.tabs[k + 1].id)
                       else if k > 0 then Some(s.tabs[k - 1].id)
                       else None)
  {
    PushedInFront(s.recents, s.tabs[k]);
  }

  // ---------------------------------------------------------------- reordering

  /** A tab with the one id comes before a tab with the other. */
  ghost predicate InOrder(tabs: seq<Tab>, x: string, y: string) {
    exists i, j :: 0 <= i < j < |tabs| && tabs[i].id == x && tabs[j].id == y
  }

  lemma {:induction false} PicksOpen(tabs: seq<Tab>, ids: seq<string>, a: nat)
    requires a < |ids| && IsOpen(tabs, ids[a])
    ensures IsOpen(Picked(tabs, ids), ids[a])
  {
    ByIdOk(tabs, ids[0]);
    if a == 0 {
      assert Picked(tabs, ids)[0].id == ids[0];
    } else {
      PicksOpen(tabs, ids[1..], a - 1);
      var rest := Picked(tabs, ids[1..]);
      var i :| 0 <= i < |rest| && rest[i].id == ids[a];
      assert Picked(tabs, ids)[|Picked(tabs, ids)| - |rest| + i] == rest[i];
    }
  }

  lemma {:induction false} PicksInOrder(tabs: seq<Tab>, ids: seq<string>, a: nat, b: nat)
    requires a < b < |ids| && IsOpen(tabs, ids[a]) && IsOpen(tabs, ids[b])
    ensures InOrder(Picked(tabs, ids), ids[a], ids[b])
  {
    ByIdOk(tabs, ids[0]);
    var picked, rest := Picked(tabs, ids), Picked(tabs, ids[1..]);
    if a == 0 {
      PicksOpen(tabs, ids[1..], b - 1);
      var j :| 0 <= j < |rest| && rest[j].id == ids[b];
      assert picked[0].id == ids[0] && picked[j + 1] == rest[j];
    } else {
      PicksInOrder(tabs, ids[1..], a - 1, b - 1);
      var i, j :| 0 <= i < j < |rest| && rest[i].id == ids[a] && rest[j].id == ids[b];
      var d := |picked| - |rest|;
      assert picked[d + i] == rest[i] && picked[d + j] == rest[j];
    }
  }

  ghost predicate AllNamed(tabs: seq<Tab>, ids: seq<string>) {
    forall k :: 0 <= k < |tabs| ==> tabs[k].id in ids
  }

  /** With every open tab named, there are as many tabs picked. */
  lemma AllPickedIff(tabs: seq<Tab>, ids: seq<string>)
    requires Distinct(tabs) && NoRepeat(ids)
    ensures |Picked(tabs, ids)| == |tabs| <==> AllNamed(tabs, ids)
  {
    var picked := Picked(tabs, ids);
    PickedOk(tabs, ids);
    SetSize(tabs);
    SetSize(picked);
    if AllNamed(tabs, ids) {
      forall t | t in SetOf(tabs) ensures t in SetOf(picked) {
        var k :| 0 <= k < |tabs| && tabs[k] == t;
        var a :| 0 <= a < |ids| && ids[a] == tabs[k].id;
        PicksOpen(tabs, ids, a);
        var i :| 0 <= i < |picked| && picked[i].id == t.id;
        assert picked[i] in tabs;
      }
      assert SetOf(tabs) == SetOf(picked);
    } else if |picked| == |tabs| {
      SubsetOfSameSize(SetOf(picked), SetOf(tabs));
      forall k | 0 <= k < |tabs| ensures tabs[k].id in ids {
        assert tabs[k] in SetOf(picked);
        var i :| 0 <= i < |picked| && picked[i] == tabs[k];
        assert Known(tabs, ids)[i] in ids;
      }
    }
  }

  /** A reorder that names every open tab puts the tabs into the order it names them in; one that
      leaves a tab out does nothing.  Ids that are not open do not matter. */
  lemma ReorderReorders(s: Strip, ids: seq<string>, now: int)
    requires Inv(s) && NoRepeat(ids)
    ensures
      var s' := Do(s, Reorder(ids), now);
      && s' == s.(tabs := s'.tabs)
      && (!AllNamed(s.tabs, ids) ==> s' == s)
      && (AllNamed(s.tabs, ids) ==>
            && multiset(s'.tabs) == multiset(s.tabs)
            && forall a, b :: 0 <= a < b < |ids| && IsOpen(s.tabs, ids[a]) && IsOpen(s.tabs, ids[b]) ==>
                 InOrder(s'.tabs, ids[a], ids[b]))
  {
    AllPickedIff(s.tabs, ids);
    PickedOk(s.tabs, ids);
    ReorderKeepsIff(s, ids);
    forall a, b | 0 <= a < b < |ids| && IsOpen(s.tabs, ids[a]) && IsOpen(s.tabs, ids[b])
      ensures InOrder(Picked(s.tabs, ids), ids[a], ids[b])
    {
      PicksInOrder(s.tabs, ids, a, b);
    }
  }

  // ---------------------------------------------------------------- duplicating

  /** `r` is the first script with the id, if there is one. */
  ghost predicate IsFirstScript(scripts: seq<Script>, id: string, r: Option<Script>) {
    match r
    case None => forall j :: 0 <= j < |scripts| ==> scripts[j].id != id
    case Some(x) =>
      exists j :: 0 <= j < |scripts| && scripts[j] == x && x.id == id && forall i :: 0 <= i < j ==> scripts[i].id != id
  }

  lemma {:induction false} ScriptFound(scripts: seq<Script>, id: string)
    ensures IsFirstScript(scripts, id, ScriptById(scripts, id))
  {
    if scripts != [] && scripts[0].id != id {
      var rest, r := scripts[1..], ScriptById(scripts[1..], id);
      ScriptFound(rest, id);
      assert forall j :: 0 <= j < |rest| ==> rest[j] == scripts[j + 1];
      if r.Some? {
        var j :| 0 <= j < |rest| && rest[j] == r.value && forall i :: 0 <= i < j ==> rest[i].id != id;
        assert scripts[j + 1] == r.value;
      }
    }
  }

  lemma OneFirstScript(scripts: seq<Script>, id: string, a: Option<Script>, b: Option<Script>)
    requires IsFirstScript(scripts, id, a) && IsFirstScript(scripts, id, b)
    ensures a == b
  {
  }

  lemma DuplicateRefused(s: Strip, id: string, stamp: string, now: int)
    requires forall k :: 0 <= k < |s.tabs| && s.tabs[k].id == id ==> !s.tabs[k].content.Query?
    ensures Do(s, Duplicate(id, stamp), now) == s
  {
  }

  /** A duplicate shows a new script with the text of the one it is of, or no text if that is
      gone, under its name and " copy".  Its tab comes right behind, and is the active one. */
  lemma DuplicateDuplicates(s: Strip, k: nat, of: Option<Script>, stamp: string, now: int)
    requires Distinct(s.tabs) && k < |s.tabs| && s.tabs[k].content.Query?
    requires IsFirstScript(s.scripts, s.tabs[k].content.scriptId, of)
    ensures
      var name := if of.Some? then of.value.name + " copy" else "Script copy";
      var copy := Tab("query:s-" + stamp, Query("s-" + stamp), name, false, false, now);
      Do(s, Duplicate(s.tabs[k].id, stamp), now)
      == s.(tabs := s.tabs[..k + 1] + [copy] + s.tabs[k + 1..], active := Some(copy.id),
            scripts := s.scripts + [Script("s-" + stamp, name, if of.Some? then of.value.sql else "")])
  {
    ScriptFound(s.scripts, s.tabs[k].content.scriptId);
    OneFirstScript(s.scripts, s.tabs[k].content.scriptId, of, ScriptById(s.scripts, s.tabs[k].content.scriptId));
    assert "query:" + ("s-" + stamp) == "query:s-" + stamp;
    assert "Script" + " copy" == "Script copy";
  }
}
