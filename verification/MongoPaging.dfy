/** Paging through a Mongo collection by `_id` cursor.

    The server is a specification: it keeps the documents in `_id` order and answers a find by
    filtering, skipping and cutting off.  `$gt` with an ObjectId matches ObjectIds only, because
    a comparison operator never matches a value of another BSON type. */
module MongoPaging {
  import opened Wrappers

  /** An `_id`, by how its BSON type sorts against ObjectId. */
  datatype DocId = Low(key: nat) | Oid(key: nat) | High(key: nat)

  function Band(id: DocId): nat {
    match id
    case Low(_) => 0
    case Oid(_) => 1
    case High(_) => 2
  }

  predicate Before(a: DocId, b: DocId) {
    Band(a) < Band(b) || (Band(a) == Band(b) && a.key < b.key)
  }

  datatype Doc = Doc(id: DocId, body: string)

  /** `_id` is unique, and its index keeps the collection in order. */
  ghost predicate Sorted(s: seq<Doc>) {
    forall i, j :: 0 <= i < j < |s| ==> Before(s[i].id, s[j].id)
  }

  function Filter(s: seq<Doc>, p: Doc -> bool): seq<Doc> {
    if s == [] then [] else (if p(s[0]) then [s[0]] else []) + Filter(s[1..], p)
  }

  // ---------------------------------------------------------------- the request

  /** `NotBson` is JSON that BSON cannot hold, an integer beyond 64 bits say. */
  datatype FilterText = Blank | NotJson | NotBson | NotObject | Object(matches: Doc -> bool)

  datatype CursorText = NoCursor | NotAnOid | OidText(key: nat)

  datatype Request = Request(limit: int, offset: int, filter: FilterText, cursor: CursorText)

  /** The filter document: the user's condition, and the `_id` lower bound. */
  datatype Query = Query(user: Option<Doc -> bool>, after: Option<nat>)

  predicate UserMatches(user: Option<Doc -> bool>, d: Doc) {
    user.Some? ==> user.value(d)
  }

  predicate AfterCursor(after: Option<nat>, d: Doc) {
    after.Some? ==> d.id.Oid? && d.id.key > after.value
  }

  function Select(coll: seq<Doc>, q: Query): seq<Doc> {
    Filter(coll, d => UserMatches(q.user, d) && AfterCursor(q.after, d))
  }

  function Cut(found: seq<Doc>, limit: nat, skip: nat): seq<Doc> {
    var rest := if skip <= |found| then found[skip..] else [];
    if limit <= |rest| then rest[..limit] else rest
  }

  /** What the server answers: filter, sort by `_id`, skip, limit. */
  function Find(coll: seq<Doc>, q: Query, limit: nat, skip: nat): seq<Doc> {
    Cut(Select(coll, q), limit, skip)
  }

  function EffectiveLimit(limit: int): nat {
    if limit <= 0 then 50 else limit
  }

  function UserFilter(f: FilterText): Option<Doc -> bool> {
    if f.Object? then Some(f.matches) else None
  }

  datatype Page = Page(docs: seq<Doc>, total: nat, next: Option<nat>)

  /** The page a request asks for, and the cursor behind its last document. */
  function PageOf(coll: seq<Doc>, docs: seq<Doc>, user: Option<Doc -> bool>): Page {
    Page(docs, |Select(coll, Query(user, None))|, NextCursor(docs))
  }

  function NextCursor(docs: seq<Doc>): Option<nat> {
    if docs != [] && docs[|docs| - 1].id.Oid? then Some(docs[|docs| - 1].id.key) else None
  }

  function QueryOf(req: Request): Query {
    Query(UserFilter(req.filter), if req.cursor.OidText? then Some(req.cursor.key) else None)
  }

  function SkipOf(req: Request): nat {
    if req.cursor.OidText? || req.offset < 0 then 0 else req.offset
  }

  function Answer(coll: seq<Doc>, req: Request): Page {
    PageOf(coll, Find(coll, QueryOf(req), EffectiveLimit(req.limit), SkipOf(req)), UserFilter(req.filter))
  }

  /** `get_documents`.  A filter that is JSON but no object counts as no filter, a cursor that
      is no ObjectId is ignored, and a cursor that is used turns the offset off. */
  method GetDocuments(coll: seq<Doc>, req: Request) returns (r: Result<Page, string>)
    ensures r.Failure? <==> req.filter.NotJson? || req.filter.NotBson?
    ensures r.Success? ==> r.value == Answer(coll, req)
    ensures r.Success? ==> forall d :: d in r.value.docs ==> d in coll && Wanted(req, d)
    ensures r.Success? ==> r.value.total == |AllMatches(coll, req.filter)|
  {
    AnswerIsWanted(coll, req);
    var limit: nat := if req.limit <= 0 then 50 else req.limit;
    if req.filter.NotJson? {
      return Failure("invalid json");
    }
    if req.filter.NotBson? {
      return Failure("invalid bson");
    }
    var user := if req.filter.Object? then Some(req.filter.matches) else None;
    var query := Query(user, None);
    var useCursor := false;
    if req.cursor.OidText? {
      useCursor := true;
      query := Query(user, Some(req.cursor.key));
    }
    var skip: nat := 0;
    if !useCursor && req.offset > 0 {
      skip := req.offset;
    }
    assert query == QueryOf(req) && skip == SkipOf(req) && limit == EffectiveLimit(req.limit);
    var total := Count(coll, user, req.filter.Blank? && !useCursor);
    var docs := Drain(Find(coll, query, limit, skip));
    var next := None;
    if docs != [] {
      var last := docs[|docs| - 1];
      if last.id.Oid? {
        next := Some(last.id.key);
      }
    }
    r := Success(Page(docs, total, next));
  }

  /** What the request asks for: what its filter matches, if it is an object, and what follows its
      cursor, if it is an ObjectId. */
  ghost predicate Wanted(req: Request, d: Doc) {
    && (req.filter.Object? ==> req.filter.matches(d))
    && (req.cursor.OidText? ==> d.id.Oid? && d.id.key > req.cursor.key)
  }

  /** What there is with that filter, whatever the cursor. */
  ghost function AllMatches(coll: seq<Doc>, f: FilterText): seq<Doc> {
    if f.Object? then Filter(coll, f.matches) else coll
  }

  lemma AllMatchesSelected(coll: seq<Doc>, f: FilterText)
    ensures Select(coll, Query(UserFilter(f), None)) == AllMatches(coll, f)
  {
    if f.Object? {
      FilterSame(coll, d => UserMatches(Some(f.matches), d) && AfterCursor(None, d), f.matches);
    } else {
      SelectAll(coll);
    }
  }

  lemma {:induction false} FilterSame(s: seq<Doc>, p: Doc -> bool, q: Doc -> bool)
    requires forall d :: p(d) <==> q(d)
    ensures Filter(s, p) == Filter(s, q)
  {
    if s != [] {
      FilterSame(s[1..], p, q);
    }
  }

  /** Every document of an answer is one of the collection that was asked for, and the total counts
      what the filter matches. */
  lemma AnswerIsWanted(coll: seq<Doc>, req: Request)
    ensures forall d :: d in Answer(coll, req).docs ==> d in coll && Wanted(req, d)
    ensures Answer(coll, req).total == |AllMatches(coll, req.filter)|
  {
    var q := QueryOf(req);
    FilterMembers(coll, d => UserMatches(q.user, d) && AfterCursor(q.after, d));
    AllMatchesSelected(coll, req.filter);
  }

  /** The documents are those of `m` from number `skip` on, `limit` of them if there are as many. */
  ghost predicate IsPage(docs: seq<Doc>, m: seq<Doc>, skip: nat, limit: nat) {
    && |docs| == (if |m| <= skip then 0 else if |m| - skip < limit then |m| - skip else limit)
    && forall k :: 0 <= k < |docs| ==> docs[k] == m[skip + k]
  }

  lemma CutIsPage(m: seq<Doc>, limit: nat, skip: nat)
    ensures IsPage(Cut(m, limit, skip), m, skip, limit)
  {
  }

  lemma PageIsPage(coll: seq<Doc>, docs: seq<Doc>, f: FilterText, skip: nat, limit: nat)
    requires docs == Find(coll, Query(UserFilter(f), None), limit, skip)
    ensures IsPage(docs, AllMatches(coll, f), skip, limit)
  {
    AllMatchesSelected(coll, f);
    CutIsPage(AllMatches(coll, f), limit, skip);
  }

  /** Without a cursor that is an ObjectId, the k-th document is the match with the number
      offset + k, a negative offset counting as none, and a limit that is not positive as 50. */
  lemma OffsetPage(coll: seq<Doc>, req: Request)
    requires !req.cursor.OidText?
    ensures
      IsPage(Answer(coll, req).docs, AllMatches(coll, req.filter),
             if req.offset < 0 then 0 else req.offset, if req.limit <= 0 then 50 else req.limit)
  {
    PageIsPage(coll, Answer(coll, req).docs, req.filter, SkipOf(req), EffectiveLimit(req.limit));
  }

  /** A page leaves this one out only when it is full and ends before. */
  ghost predicate FrontFor(docs: seq<Doc>, limit: nat, d: Doc) {
    |docs| <= limit && (d !in docs ==> |docs| == limit > 0 && Before(docs[limit - 1].id, d.id))
  }

  lemma PageIsFront(docs: seq<Doc>, m: seq<Doc>, limit: nat, d: Doc)
    requires Sorted(m) && limit > 0 && IsPage(docs, m, 0, limit) && d in m
    ensures FrontFor(docs, limit, d)
  {
    if d !in docs {
      var i :| 0 <= i < |m| && m[i] == d;
      forall k | 0 <= k < |docs| ensures m[k] in docs {
        assert docs[k] == m[0 + k];
      }
    }
  }

  lemma FindIsFront(coll: seq<Doc>, docs: seq<Doc>, q: Query, limit: nat, d: Doc)
    requires Sorted(coll) && limit > 0 && docs == Find(coll, q, limit, 0)
    ensures Sorted(docs)
    ensures d in coll && UserMatches(q.user, d) && AfterCursor(q.after, d) ==> FrontFor(docs, limit, d)
  {
    var p := d => UserMatches(q.user, d) && AfterCursor(q.after, d);
    var m := Filter(coll, p);
    FilterMembers(coll, p);
    FilterSorted(coll, p);
    CutIsPage(m, limit, 0);
    if d in m {
      PageIsFront(docs, m, limit, d);
    }
  }

  /** Behind one, the documents are in `_id` order, and a document that is wanted is left out only
      when the page is full and it comes after all of them. */
  lemma CursorPage(coll: seq<Doc>, req: Request, d: Doc)
    requires Sorted(coll) && req.cursor.OidText?
    ensures Sorted(Answer(coll, req).docs)
    ensures
      d in coll && Wanted(req, d)
      ==> FrontFor(Answer(coll, req).docs, if req.limit <= 0 then 50 else req.limit, d)
  {
    FindIsFront(coll, Answer(coll, req).docs, QueryOf(req), EffectiveLimit(req.limit), d);
  }

  /** The next cursor is the id of the last document, and there is none when that is no ObjectId or
      the page is empty. */
  lemma NextIsLast(coll: seq<Doc>, req: Request, k: nat)
    ensures
      var a := Answer(coll, req);
      a.next == Some(k) <==> |a.docs| > 0 && a.docs[|a.docs| - 1].id == Oid(k)
  {
  }

  /** The cursor loop. */
  method Drain(cursor: seq<Doc>) returns (docs: seq<Doc>)
    ensures docs == cursor
  {
    docs := [];
    while |docs| < |cursor|
      invariant |docs| <= |cursor| && docs == cursor[..|docs|]
    {
      docs := docs + [cursor[|docs|]];
    }
  }

  /** The total: the size of the collection stands in for the count when nothing is filtered. */
  method Count(coll: seq<Doc>, user: Option<Doc -> bool>, noFilter: bool) returns (total: nat)
    requires noFilter ==> user.None?
    ensures total == |Select(coll, Query(user, None))|
  {
    if noFilter {
      SelectAll(coll);
      total := |coll|;
    } else {
      total := |Select(coll, Query(user, None))|;
    }
  }

  lemma SelectAll(coll: seq<Doc>)
    ensures Select(coll, Query(None, None)) == coll
  {
    FilterAll(coll, d => UserMatches(None, d) && AfterCursor(None, d));
  }

  lemma {:induction false} FilterAll(s: seq<Doc>, p: Doc -> bool)
    requires forall d :: p(d)
    ensures Filter(s, p) == s
  {
    if s != [] {
      FilterAll(s[1..], p);
    }
  }

  // ---------------------------------------------------------------- filtering a sorted collection

  lemma {:induction false} FilterMembers(s: seq<Doc>, p: Doc -> bool)
    ensures |Filter(s, p)| <= |s|
    ensures forall d :: d in Filter(s, p) <==> d in s && p(d)
  {
    if s != [] {
      FilterMembers(s[1..], p);
      assert s == [s[0]] + s[1..];
    }
  }

  lemma {:induction false} FilterSorted(s: seq<Doc>, p: Doc -> bool)
    requires Sorted(s)
    ensures Sorted(Filter(s, p))
  {
    if s != [] {
      FilterSorted(s[1..], p);
      FilterMembers(s[1..], p);
      forall d | d in Filter(s[1..], p) ensures Before(s[0].id, d.id) {
        var i :| 0 <= i < |s[1..]| && s[1..][i] == d;
        assert s[1..][i] == s[i + 1];
      }
    }
  }

  lemma {:induction false} FilterTwice(s: seq<Doc>, p: Doc -> bool, q: Doc -> bool, pq: Doc -> bool)
    requires forall d :: pq(d) <==> p(d) && q(d)
    ensures Filter(s, pq) == Filter(Filter(s, p), q)
  {
    if s != [] {
      FilterTwice(s[1..], p, q, pq);
      var rest := Filter(s[1..], p);
      if p(s[0]) {
        assert Filter(s, p) == [s[0]] + rest;
        assert ([s[0]] + rest)[1..] == rest;
      } else {
        assert Filter(s, p) == rest;
      }
    }
  }

  /** The predicate holds at the indices from `lo` to `hi` and nowhere else. */
  predicate HoldsOn(s: seq<Doc>, p: Doc -> bool, lo: int, hi: int) {
    s == [] || ((p(s[0]) <==> lo <= 0 < hi) && HoldsOn(s[1..], p, lo - 1, hi - 1))
  }

  lemma {:induction false} HoldsOnIndices(s: seq<Doc>, p: Doc -> bool, lo: int, hi: int)
    requires forall i :: 0 <= i < |s| ==> (p(s[i]) <==> lo <= i < hi)
    ensures HoldsOn(s, p, lo, hi)
  {
    if s != [] {
      forall i | 0 <= i < |s| - 1 ensures p(s[1..][i]) <==> lo - 1 <= i < hi - 1 {
        assert s[1..][i] == s[i + 1];
      }
      HoldsOnIndices(s[1..], p, lo - 1, hi - 1);
    }
  }

  lemma {:induction false} FilterNone(s: seq<Doc>, p: Doc -> bool, lo: int, hi: int)
    requires hi <= 0 && HoldsOn(s, p, lo, hi)
    ensures Filter(s, p) == []
  {
    if s != [] {
      FilterNone(s[1..], p, lo - 1, hi - 1);
    }
  }

  function Floor(lo: int): nat {
    if lo < 0 then 0 else lo
  }

  lemma SliceFront(s: seq<Doc>, lo: int, hi: int)
    requires 0 < hi <= |s| && lo <= hi
    ensures
      s[Floor(lo)..hi]
      == if lo <= 0 then [s[0]] + s[1..][Floor(lo - 1)..hi - 1] else s[1..][Floor(lo - 1)..hi - 1]
  {
  }

  /** A predicate that holds on one stretch of a sequence selects that stretch. */
  lemma {:induction false} FilterStretch(s: seq<Doc>, p: Doc -> bool, lo: int, hi: nat)
    requires lo <= hi <= |s| && HoldsOn(s, p, lo, hi)
    ensures Filter(s, p) == s[Floor(lo)..hi]
  {
    if hi == 0 {
      FilterNone(s, p, lo, hi);
    } else {
      FilterStretch(s[1..], p, lo - 1, hi - 1);
      SliceFront(s, lo, hi);
    }
  }

  /** How many documents sort no later than the last ObjectId could. */
  function Reachable(m: seq<Doc>): (n: nat)
    ensures n <= |m|
  {
    if m == [] then 0 else if m[|m| - 1].id.High? then Reachable(m[..|m| - 1]) else |m|
  }

  lemma {:induction false} ReachableSplits(m: seq<Doc>)
    requires Sorted(m)
    ensures forall i :: 0 <= i < |m| ==> (m[i].id.High? <==> i >= Reachable(m))
  {
    if m != [] {
      if m[|m| - 1].id.High? {
        ReachableSplits(m[..|m| - 1]);
      } else {
        forall i | 0 <= i < |m| ensures !m[i].id.High? {
          assert i < |m| - 1 ==> Before(m[i].id, m[|m| - 1].id);
        }
      }
    }
  }

  ghost function Matches(coll: seq<Doc>, user: Option<Doc -> bool>): seq<Doc> {
    Select(coll, Query(user, None))
  }

  /** The query behind an ObjectId selects the matches that follow it, up to the first `_id` of
      a type that sorts after ObjectId. */
  lemma SelectAfter(coll: seq<Doc>, user: Option<Doc -> bool>, j: nat, k: nat)
    requires Sorted(coll)
    requires 1 <= j <= |Matches(coll, user)| && Matches(coll, user)[j - 1].id == Oid(k)
    ensures j <= Reachable(Matches(coll, user))
    ensures Select(coll, Query(user, Some(k))) == Matches(coll, user)[j..Reachable(Matches(coll, user))]
    ensures forall i :: j <= i < Reachable(Matches(coll, user)) ==> Matches(coll, user)[i].id.Oid?
  {
    var m := Matches(coll, user);
    var p := d => UserMatches(user, d) && AfterCursor(None, d);
    var q := d => AfterCursor(Some(k), d);
    var pq := d => UserMatches(user, d) && AfterCursor(Some(k), d);
    FilterTwice(coll, p, q, pq);
    FilterSorted(coll, p);
    ReachableSplits(m);
    forall i | 0 <= i < |m| ensures q(m[i]) <==> j <= i < Reachable(m) {
      if i < j - 1 {
        assert Before(m[i].id, m[j - 1].id);
      } else if i > j - 1 {
        assert Before(m[j - 1].id, m[i].id);
      }
    }
    HoldsOnIndices(m, q, j, Reachable(m));
    FilterStretch(m, q, j, Reachable(m));
  }

  // ---------------------------------------------------------------- following the cursor

  /** The pages a reader gets who starts without a cursor and follows `next_cursor` as long as
      there is one. */
  ghost function Follow(coll: seq<Doc>, user: Option<Doc -> bool>, limit: nat, after: Option<nat>): seq<seq<Doc>>
    requires Sorted(coll) && limit > 0
    decreases |Select(coll, Query(user, after))|
  {
    var page := Find(coll, Query(user, after), limit, 0);
    if NextCursor(page).None? then [page]
    else
      FewerLeft(coll, user, limit, after);
      [page] + Follow(coll, user, limit, NextCursor(page))
  }

  lemma FewerLeft(coll: seq<Doc>, user: Option<Doc -> bool>, limit: nat, after: Option<nat>)
    requires Sorted(coll) && limit > 0
    requires NextCursor(Find(coll, Query(user, after), limit, 0)).Some?
    ensures
      var next := NextCursor(Find(coll, Query(user, after), limit, 0));
      |Select(coll, Query(user, next))| < |Select(coll, Query(user, after))|
  {
    var found := Select(coll, Query(user, after));
    LastOfCut(found, limit);
    var last :| last in found && last.id == Oid(NextCursor(Cut(found, limit, 0)).value);
    FewerAfter(coll, user, after, last);
  }

  lemma LastOfCut(found: seq<Doc>, limit: nat)
    requires NextCursor(Cut(found, limit, 0)).Some?
    ensures exists d :: d in found && d.id == Oid(NextCursor(Cut(found, limit, 0)).value)
  {
    var page := Cut(found, limit, 0);
    assert found[0..] == found;
    assert page[|page| - 1] in found;
  }

  lemma FewerAfter(coll: seq<Doc>, user: Option<Doc -> bool>, after: Option<nat>, last: Doc)
    requires last in Select(coll, Query(user, after)) && last.id.Oid?
    ensures |Select(coll, Query(user, Some(last.id.key)))| < |Select(coll, Query(user, after))|
  {
    var p := d => UserMatches(user, d) && AfterCursor(after, d);
    var q := d => UserMatches(user, d) && AfterCursor(Some(last.id.key), d);
    FilterMembers(coll, p);
    FilterFewer(coll, p, q, last);
  }

  lemma {:induction false} FilterNoMore(s: seq<Doc>, p: Doc -> bool, q: Doc -> bool)
    requires forall d :: q(d) ==> p(d)
    ensures |Filter(s, q)| <= |Filter(s, p)|
  {
    if s != [] {
      FilterNoMore(s[1..], p, q);
    }
  }

  /** A stronger predicate that turns some document away selects fewer. */
  lemma {:induction false} FilterFewer(s: seq<Doc>, p: Doc -> bool, q: Doc -> bool, out: Doc)
    requires forall d :: q(d) ==> p(d)
    requires out in s && p(out) && !q(out)
    ensures |Filter(s, q)| < |Filter(s, p)|
  {
    if s[0] == out {
      FilterNoMore(s[1..], p, q);
    } else {
      FilterFewer(s[1..], p, q, out);
    }
  }

  /** Slices of `limit` documents, and an empty one to close. */
  ghost function Chunks(m: seq<Doc>, limit: nat): seq<seq<Doc>>
    requires limit > 0
  {
    if m == [] then [[]]
    else if |m| <= limit then [m, []]
    else [m[..limit]] + Chunks(m[limit..], limit)
  }

  function Flatten(pages: seq<seq<Doc>>): seq<Doc> {
    if pages == [] then [] else pages[0] + Flatten(pages[1..])
  }

  lemma {:induction false} ChunksFlatten(m: seq<Doc>, limit: nat)
    requires limit > 0
    ensures Flatten(Chunks(m, limit)) == m
  {
    assert Flatten([[]]) == [];
    if m != [] && |m| <= limit {
      assert [m, []][1..] == [[]];
      assert Flatten([m, []]) == m + [];
    } else if |m| > limit {
      ChunksFlatten(m[limit..], limit);
      assert ([m[..limit]] + Chunks(m[limit..], limit))[1..] == Chunks(m[limit..], limit);
    }
  }

  /** `q` is `n / d` rounded up. */
  predicate IsCeil(q: int, n: nat, d: nat) {
    n <= q * d < n + d
  }

  lemma {:induction false} ChunksCount(m: seq<Doc>, limit: nat)
    requires limit > 0
    ensures |Chunks(m, limit)| >= 1
    ensures IsCeil(|Chunks(m, limit)| - 1, |m|, limit)
  {
    if |m| > limit {
      ChunksCount(m[limit..], limit);
      var n := |Chunks(m[limit..], limit)|;
      assert n * limit == (n - 1) * limit + limit;
    } else {
      assert m != [] ==> |Chunks(m, limit)| == 2 && (2 - 1) * limit == limit;
    }
  }

  lemma {:induction false} ChunkIsCut(m: seq<Doc>, limit: nat, k: nat, skip: nat)
    requires limit > 0 && k < |Chunks(m, limit)| && skip == k * limit
    ensures Chunks(m, limit)[k] == Cut(m, limit, skip)
  {
    if k == 0 {
      assert skip == 0 && m[0..] == m;
    } else if |m| > limit {
      assert skip - limit == (k - 1) * limit && skip - limit >= 0;
      ChunkIsCut(m[limit..], limit, k - 1, skip - limit);
      CutShift(m, limit, skip - limit);
    } else {
      assert k == 1 && skip == limit;
    }
  }

  lemma CutShift(m: seq<Doc>, limit: nat, skip: nat)
    requires limit <= |m|
    ensures Cut(m, limit, skip + limit) == Cut(m[limit..], limit, skip)
  {
    if skip + limit <= |m| {
      assert m[skip + limit..] == m[limit..][skip..];
    }
  }

  lemma FirstChunk(m: seq<Doc>, limit: nat)
    requires limit > 0
    ensures
      var end := if |m| < limit then |m| else limit;
      Chunks(m, limit) == if m == [] then [m[..end]] else [m[..end]] + Chunks(m[end..|m|], limit)
  {
    if m != [] && |m| <= limit {
      assert m[..|m|] == m && m[|m|..|m|] == [];
    } else if m != [] {
      assert m[limit..|m|] == m[limit..];
    }
  }

  lemma PageAfter(coll: seq<Doc>, user: Option<Doc -> bool>, limit: nat, j: nat, k: nat)
    requires Sorted(coll) && limit > 0
    requires 1 <= j <= |Matches(coll, user)| && Matches(coll, user)[j - 1].id == Oid(k)
    ensures
      var m := Matches(coll, user);
      var hi := Reachable(m);
      && j <= hi
      && (forall i :: j <= i < hi ==> m[i].id.Oid?)
      && Find(coll, Query(user, Some(k)), limit, 0) == m[j..if hi - j < limit then hi else j + limit]
  {
    SelectAfter(coll, user, j, k);
    var found := Matches(coll, user)[j..Reachable(Matches(coll, user))];
    assert found[0..] == found;
  }

  lemma FollowOn(coll: seq<Doc>, user: Option<Doc -> bool>, limit: nat, after: Option<nat>, k: nat)
    requires Sorted(coll) && limit > 0
    requires NextCursor(Find(coll, Query(user, after), limit, 0)) == Some(k)
    ensures Follow(coll, user, limit, after)
      == [Find(coll, Query(user, after), limit, 0)] + Follow(coll, user, limit, Some(k))
  {
  }

  lemma FollowEnds(coll: seq<Doc>, user: Option<Doc -> bool>, limit: nat, after: Option<nat>)
    requires Sorted(coll) && limit > 0
    requires NextCursor(Find(coll, Query(user, after), limit, 0)) == None
    ensures Follow(coll, user, limit, after) == [Find(coll, Query(user, after), limit, 0)]
  {
  }

  lemma NextOfSlice(m: seq<Doc>, j: nat, end: nat)
    requires j < end <= |m|
    ensures NextCursor(m[j..end]) == if m[end - 1].id.Oid? then Some(m[end - 1].id.key) else None
  {
    assert m[j..end][end - j - 1] == m[end - 1];
  }

  /** Behind the `j`-th match, if that is an ObjectId, the cursor walks the rest in chunks. */
  lemma {:induction false} FollowFrom(
    coll: seq<Doc>, user: Option<Doc -> bool>, limit: nat, m: seq<Doc>, j: nat, k: nat)
    requires Sorted(coll) && limit > 0 && m == Matches(coll, user)
    requires 1 <= j <= |m| && m[j - 1].id == Oid(k)
    ensures j <= Reachable(m)
    ensures Follow(coll, user, limit, Some(k)) == Chunks(m[j..Reachable(m)], limit)
    decreases |m| - j
  {
    PageAfter(coll, user, limit, j, k);
    var hi := Reachable(m);
    var end := if hi - j < limit then hi else j + limit;
    if j < end {
      NextOfSlice(m, j, end);
      var next := m[end - 1].id.key;
      FollowOn(coll, user, limit, Some(k), next);
      FollowFrom(coll, user, limit, m, end, next);
      NextChunk(m, limit, j, hi);
    } else {
      assert m[j..hi] == [];
      FollowEnds(coll, user, limit, Some(k));
    }
  }

  lemma NextChunk(m: seq<Doc>, limit: nat, j: nat, hi: nat)
    requires j < hi <= |m| && limit > 0
    ensures
      var end := if hi - j < limit then hi else j + limit;
      Chunks(m[j..hi], limit) == [m[j..end]] + Chunks(m[end..hi], limit)
  {
    var s := m[j..hi];
    var n := if |s| < limit then |s| else limit;
    FirstChunk(s, limit);
    assert s[..n] == m[j..j + n] && s[n..|s|] == m[j + n..hi];
  }

  /** What following the cursor gets to: everything when the first page holds everything; only
      the first page when that ends in an id that is no ObjectId; else all but the ids whose
      type sorts after ObjectId. */
  function Reach(m: seq<Doc>, limit: nat): (n: nat)
    requires limit > 0
    ensures n <= |m|
  {
    if |m| <= limit then |m| else if m[limit - 1].id.Oid? then Reachable(m) else limit
  }

  /** The pages from the start, in terms of the matches alone. */
  ghost function PagesOf(m: seq<Doc>, limit: nat): seq<seq<Doc>>
    requires limit > 0
  {
    var end := if |m| < limit then |m| else limit;
    if end > 0 && m[end - 1].id.Oid? && end <= Reachable(m) then [m[..end]] + Chunks(m[end..Reachable(m)], limit)
    else [m[..end]]
  }

  lemma MatchesSorted(coll: seq<Doc>, user: Option<Doc -> bool>)
    requires Sorted(coll)
    ensures Sorted(Matches(coll, user))
  {
    FilterSorted(coll, d => UserMatches(user, d) && AfterCursor(None, d));
  }

  lemma FirstCut(m: seq<Doc>, limit: nat, end: nat)
    requires end == if |m| < limit then |m| else limit
    ensures Cut(m, limit, 0) == m[..end]
    ensures NextCursor(m[..end]) == if end > 0 && m[end - 1].id.Oid? then Some(m[end - 1].id.key) else None
  {
    assert m[0..] == m;
  }

  lemma FirstGoesOn(coll: seq<Doc>, user: Option<Doc -> bool>, limit: nat, m: seq<Doc>, end: nat)
    requires Sorted(coll) && limit > 0 && m == Matches(coll, user)
    requires 0 < end <= |m| && m[end - 1].id.Oid?
    requires Find(coll, Query(user, None), limit, 0) == m[..end]
    ensures end <= Reachable(m)
    ensures Follow(coll, user, limit, None) == [m[..end]] + Chunks(m[end..Reachable(m)], limit)
  {
    var k := m[end - 1].id.key;
    FollowOn(coll, user, limit, None, k);
    FollowFrom(coll, user, limit, m, end, k);
  }

  lemma FirstIsLast(coll: seq<Doc>, user: Option<Doc -> bool>, limit: nat, m: seq<Doc>, end: nat)
    requires Sorted(coll) && limit > 0 && m == Matches(coll, user)
    requires end == (if |m| < limit then |m| else limit) && (end == 0 || !m[end - 1].id.Oid?)
    ensures Follow(coll, user, limit, None) == [m[..end]]
  {
    FirstCut(m, limit, end);
    FollowEnds(coll, user, limit, None);
  }

  lemma FirstPage(coll: seq<Doc>, user: Option<Doc -> bool>, limit: nat, m: seq<Doc>)
    requires Sorted(coll) && limit > 0 && m == Matches(coll, user)
    ensures Follow(coll, user, limit, None) == PagesOf(m, limit)
  {
    var end := if |m| < limit then |m| else limit;
    if end > 0 && m[end - 1].id.Oid? {
      FirstCut(m, limit, end);
      FirstGoesOn(coll, user, limit, m, end);
    } else {
      FirstIsLast(coll, user, limit, m, end);
    }
  }

  lemma PagesFlatten(m: seq<Doc>, limit: nat)
    requires Sorted(m) && limit > 0
    ensures Flatten(PagesOf(m, limit)) == m[..Reach(m, limit)]
  {
    var end := if |m| < limit then |m| else limit;
    ReachableSplits(m);
    if end > 0 && m[end - 1].id.Oid? {
      var rest := Chunks(m[end..Reachable(m)], limit);
      ChunksFlatten(m[end..Reachable(m)], limit);
      assert ([m[..end]] + rest)[1..] == rest;
      assert m[..end] + m[end..Reachable(m)] == m[..Reachable(m)];
    } else {
      assert [m[..end]][1..] == [];
      assert m[..end] + [] == m[..end];
    }
  }

  /** Following the cursor lists matches in order, each at most once, and lists them all exactly
      when they fit on one page, or the first page ends in an ObjectId and no match has an id
      whose type sorts after ObjectId. */
  lemma CursorListsAllIff(coll: seq<Doc>, user: Option<Doc -> bool>, limit: nat)
    requires Sorted(coll) && limit > 0
    ensures
      var m := Matches(coll, user);
      var got := Flatten(Follow(coll, user, limit, None));
      && got <= m
      && Sorted(got)
      && (got == m <==> |m| <= limit || (m[limit - 1].id.Oid? && forall i :: 0 <= i < |m| ==> !m[i].id.High?))
  {
    var m := Matches(coll, user);
    MatchesSorted(coll, user);
    FirstPage(coll, user, limit, m);
    PagesListAllIff(m, limit);
  }

  lemma PagesListAllIff(m: seq<Doc>, limit: nat)
    requires Sorted(m) && limit > 0
    ensures
      var got := Flatten(PagesOf(m, limit));
      && got <= m
      && Sorted(got)
      && (got == m <==> |m| <= limit || (m[limit - 1].id.Oid? && forall i :: 0 <= i < |m| ==> !m[i].id.High?))
  {
    PagesFlatten(m, limit);
    AllReached(m, limit);
    PrefixIsAll(m, Reach(m, limit));
  }

  lemma PrefixIsAll(m: seq<Doc>, n: nat)
    requires Sorted(m) && n <= |m|
    ensures Sorted(m[..n]) && (m[..n] == m <==> n == |m|)
  {
    assert n < |m| ==> |m[..n]| < |m|;
  }

  lemma AllReached(m: seq<Doc>, limit: nat)
    requires Sorted(m) && limit > 0
    ensures Reach(m, limit) == |m|
      <==> |m| <= limit || (m[limit - 1].id.Oid? && forall i :: 0 <= i < |m| ==> !m[i].id.High?)
  {
    ReachableSplits(m);
  }

  lemma PagesAreChunks(m: seq<Doc>, limit: nat)
    requires limit > 0
    requires forall i :: 0 <= i < |m| ==> m[i].id.Oid?
    ensures PagesOf(m, limit) == Chunks(m, limit)
  {
    assert Reachable(m) == |m|;
    FirstChunk(m, limit);
  }

  /** With ObjectId ids throughout, all matches are listed by ceil(n / limit) + 1 requests, the
      last one empty, and the k-th page is the offset page that skips k * limit. */
  lemma CursorEqualsOffset(coll: seq<Doc>, user: Option<Doc -> bool>, limit: nat, k: nat, skip: nat)
    requires Sorted(coll) && limit > 0 && skip == k * limit
    requires forall i :: 0 <= i < |Matches(coll, user)| ==> Matches(coll, user)[i].id.Oid?
    ensures
      var pages := Follow(coll, user, limit, None);
      && Flatten(pages) == Matches(coll, user)
      && IsCeil(|pages| - 1, |Matches(coll, user)|, limit)
      && (k < |pages| ==> pages[k] == Find(coll, Query(user, None), limit, skip))
  {
    var m := Matches(coll, user);
    FirstPage(coll, user, limit, m);
    PagesFacts(m, limit, k, skip);
  }

  lemma PagesFacts(m: seq<Doc>, limit: nat, k: nat, skip: nat)
    requires limit > 0 && skip == k * limit
    requires forall i :: 0 <= i < |m| ==> m[i].id.Oid?
    ensures
      var pages := PagesOf(m, limit);
      && Flatten(pages) == m
      && IsCeil(|pages| - 1, |m|, limit)
      && (k < |pages| ==> pages[k] == Cut(m, limit, skip))
  {
    PagesAreChunks(m, limit);
    ChunksFacts(m, limit, k, skip);
  }

  lemma ChunksFacts(m: seq<Doc>, limit: nat, k: nat, skip: nat)
    requires limit > 0 && skip == k * limit
    ensures Flatten(Chunks(m, limit)) == m
    ensures IsCeil(|Chunks(m, limit)| - 1, |m|, limit)
    ensures k < |Chunks(m, limit)| ==> Chunks(m, limit)[k] == Cut(m, limit, skip)
  {
    ChunksFlatten(m, limit);
    ChunksCount(m, limit);
    if k < |Chunks(m, limit)| {
      ChunkIsCut(m, limit, k, skip);
    }
  }

  lemma FollowStep(coll: seq<Doc>, user: Option<Doc -> bool>, limit: nat, after: Option<nat>, docs: seq<Doc>)
    requires Sorted(coll) && limit > 0 && docs == Find(coll, Query(user, after), limit, 0)
    ensures
      var pages := Follow(coll, user, limit, after);
      && pages != [] && pages[0] == docs
      && (NextCursor(docs).None? ==> pages == [pages[0]])
      && (NextCursor(docs).Some? ==> pages[1..] == Follow(coll, user, limit, NextCursor(docs)))
  {
    if NextCursor(docs).Some? {
      FollowOn(coll, user, limit, after, NextCursor(docs).value);
    } else {
      FollowEnds(coll, user, limit, after);
    }
  }

  /** The documents of an answer to a request as the pager sends it are the pages of `Follow`. */
  lemma AnswerIsFollowed(coll: seq<Doc>, req: Request)
    requires Sorted(coll) && !req.filter.NotJson? && !req.filter.NotBson? && !req.cursor.NotAnOid?
      && (req.cursor.NoCursor? ==> req.offset <= 0)
    ensures
      var user := UserFilter(req.filter);
      var after := if req.cursor.OidText? then Some(req.cursor.key) else None;
      var pages := Follow(coll, user, EffectiveLimit(req.limit), after);
      && Answer(coll, req).docs == pages[0]
      && Answer(coll, req).total == |Matches(coll, user)|
      && (Answer(coll, req).next.None? ==> pages == [pages[0]])
      && (Answer(coll, req).next.Some? ==>
        pages[1..] == Follow(coll, user, EffectiveLimit(req.limit), Answer(coll, req).next))
  {
    var after := if req.cursor.OidText? then Some(req.cursor.key) else None;
    FollowStep(coll, UserFilter(req.filter), EffectiveLimit(req.limit), after, Answer(coll, req).docs);
  }
}
