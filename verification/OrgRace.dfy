/** How interleaved handlers leave an org without an administrator: from every point at which two
    sole administrators have sessions, and from an empty store. */
module OrgRace {
  import opened Wrappers
  import opened OrgServer

  /** Handler `p` is about to enter the `k`-th critical section of expelling `target`. */
  predicate ExpelAt(s: State, p: nat, k: nat, t: Token, o: OrgId, actor: UserId, target: UserId) {
    && p in s.active
    && (k == 0 ==>
          && s.active[p] == Authenticate(Session(t), Expel(o, target))
          && t in s.db.sessions && s.db.sessions[t] == actor)
    && (k == 1 ==> s.active[p] == Authed(actor, Expel(o, target)))
    && (k >= 2 ==> s.active[p].RoleOk? && s.active[p].org == o && s.active[p].req == Expel(o, target))
  }

  lemma ExpelStep(es: seq<Event>, k: nat, id: string, p: nat, t: Token, o: OrgId, actor: UserId, target: UserId)
    returns (fs: seq<Event>)
    requires Legal(es) && ExpelAt(After(es), p, k, t, o, actor, target)
    requires id !in After(es).minted && actor != target && k <= 2
    requires k <= 1 ==> Administers(After(es).db.members, o, actor)
    ensures Legal(fs) && es <= fs
    ensures After(fs).db == (if k == 2 then MemberRemoved(After(es).db, o, target) else After(es).db)
    ensures After(fs).minted == After(es).minted + {id}
    ensures forall q :: q != p && q in After(es).active ==>
      q in After(fs).active && After(fs).active[q] == After(es).active[q]
    ensures k <= 1 ==> ExpelAt(After(fs), p, k + 1, t, o, actor, target)
  {
    Extend(es, Run(p, Env(0, id)));
    fs := es + [Run(p, Env(0, id))];
  }

  /** One section of each of two handlers that expel each other's user. */
  lemma ExpelRound(
    es: seq<Event>, k: nat, id: string, id': string, o: OrgId, a: UserId, b: UserId, ta: Token, tb: Token, p: nat,
    q: nat)
    returns (fs: seq<Event>)
    requires Legal(es) && k <= 1 && p != q && a != b
    requires ExpelAt(After(es), p, k, ta, o, a, b) && ExpelAt(After(es), q, k, tb, o, b, a)
    requires Administers(After(es).db.members, o, a) && Administers(After(es).db.members, o, b)
    requires id != id' && id !in After(es).minted && id' !in After(es).minted
    ensures Legal(fs) && es <= fs && After(fs).db == After(es).db && After(fs).minted == After(es).minted + {id, id'}
    ensures ExpelAt(After(fs), p, k + 1, ta, o, a, b) && ExpelAt(After(fs), q, k + 1, tb, o, b, a)
  {
    fs := ExpelStep(es, k, id, p, ta, o, a, b);
    assert ExpelAt(After(fs), q, k, tb, o, b, a);
    fs := ExpelStep(fs, k, id', q, tb, o, b, a);
  }

  lemma ExpelBoth(
    es: seq<Event>, id: string, id': string, o: OrgId, a: UserId, b: UserId, ta: Token, tb: Token, p: nat, q: nat)
    returns (fs: seq<Event>)
    requires Legal(es) && p != q && a != b && o in After(es).db.orgs
    requires forall u :: Administers(After(es).db.members, o, u) <==> u == a || u == b
    requires ExpelAt(After(es), p, 2, ta, o, a, b) && ExpelAt(After(es), q, 2, tb, o, b, a)
    requires id != id' && id !in After(es).minted && id' !in After(es).minted
    ensures Legal(fs) && es <= fs && o in After(fs).db.orgs && !HasAdmin(After(fs).db.members, o)
  {
    fs := ExpelStep(es, 2, id, p, ta, o, a, b);
    fs := ExpelStep(fs, 2, id', q, tb, o, b, a);
    var m := After(fs).db.members;
    assert m == After(es).db.members - {(o, b)} - {(o, a)};
    assert forall u :: Administers(m, o, u) ==> Administers(After(es).db.members, o, u);
  }

  lemma ExpelBegins(es: seq<Event>, p: nat, t: Token, o: OrgId, target: UserId) returns (fs: seq<Event>)
    requires Legal(es) && p !in After(es).active
    ensures Legal(fs) && es <= fs
    ensures After(fs) == After(es).(active := After(es).active[p := Authenticate(Session(t), Expel(o, target))])
  {
    Extend(es, Begin(p, Authenticate(Session(t), Expel(o, target))));
    fs := es + [Begin(p, Authenticate(Session(t), Expel(o, target)))];
  }

  predicate Unused(ids: seq<string>, minted: set<string>) {
    (forall i :: 0 <= i < |ids| ==> ids[i] !in minted) && forall i, j :: 0 <= i < j < |ids| ==> ids[i] != ids[j]
  }

  /** Both pass their role check before either removes anybody. */
  lemma ExpelChecks(es: seq<Event>, o: OrgId, a: UserId, b: UserId, ta: Token, tb: Token, p: nat, q: nat,
                    id: string, id': string, jd: string, jd': string)
    returns (fs: seq<Event>)
    requires Legal(es) && p != q && a != b
    requires id != id' && jd != jd' && {id, id'} !! After(es).minted && {jd, jd'} !! After(es).minted + {id, id'}
    requires ExpelAt(After(es), p, 0, ta, o, a, b) && ExpelAt(After(es), q, 0, tb, o, b, a)
    requires Administers(After(es).db.members, o, a) && Administers(After(es).db.members, o, b)
    ensures Legal(fs) && es <= fs && After(fs).db == After(es).db
      && After(fs).minted == After(es).minted + {id, id'} + {jd, jd'}
    ensures ExpelAt(After(fs), p, 2, ta, o, a, b) && ExpelAt(After(fs), q, 2, tb, o, b, a)
  {
    fs := ExpelRound(es, 0, id, id', o, a, b, ta, tb, p, q);
    fs := ExpelRound(fs, 1, jd, jd', o, a, b, ta, tb, p, q);
  }

  /** Interleaved, it fails: from any point at which two users are an org's only
      administrators and both have a session, they can expel each other. */
  lemma ExpelRace(
    es: seq<Event>, o: OrgId, a: UserId, b: UserId, ta: Token, tb: Token, p: nat, q: nat, ids: seq<string>)
    returns (fs: seq<Event>)
    requires Legal(es) && o in After(es).db.orgs
    requires a != b && forall u :: Administers(After(es).db.members, o, u) <==> u == a || u == b
    requires ta in After(es).db.sessions && After(es).db.sessions[ta] == a
    requires tb in After(es).db.sessions && After(es).db.sessions[tb] == b
    requires p != q && p !in After(es).active && q !in After(es).active
    requires |ids| == 6 && Unused(ids, After(es).minted)
    ensures Legal(fs) && es <= fs && o in After(fs).db.orgs && !HasAdmin(After(fs).db.members, o)
  {
    fs := ExpelBegins(es, p, ta, o, b);
    fs := ExpelBegins(fs, q, tb, o, a);
    fs := ExpelChecks(fs, o, a, b, ta, tb, p, q, ids[0], ids[1], ids[2], ids[3]);
    fs := ExpelBoth(fs, ids[4], ids[5], o, a, b, ta, tb, p, q);
  }

  // ---------------------------------------------------------------- from an empty store

  // Two users sign in, and one makes the other an administrator of her org.

  /** UUIDs for the run, told apart by their length. */
  function Uuid(n: nat): (id: string)
    ensures |id| == n && 'o' !in id && '_' !in id
  {
    seq(n, k => 'u')
  }

  /** No UUID from `n` on has been handed out. */
  ghost predicate Spare(minted: set<string>, n: nat) {
    forall k: nat :: k >= n ==> Uuid(k) !in minted
  }

  lemma SpareAtFirst()
    ensures Spare(Init().minted, 1)
  {
    assert LOCAL_ORG[0] == 'o' && LOCAL_USER[0] == '_';
  }

  /** Handler 0, if any, is the only one, and UUIDs from `n` on are spare. */
  ghost predicate At(es: seq<Event>, db: Db, active: map<nat, Stage>, n: nat)
    requires Legal(es)
  {
    After(es).db == db && After(es).active == active && Spare(After(es).minted, n)
  }

  /** Handler `p` runs its next section. */
  lemma Turn(es: seq<Event>, db: Db, active: map<nat, Stage>, p: nat, n: nat) returns (fs: seq<Event>)
    requires Legal(es) && At(es, db, active, n) && p in active
    ensures Legal(fs) && fs == es + [Run(p, Env(0, Uuid(n)))]
    ensures
      var (db', next) := Step(db, active[p], Env(0, Uuid(n)));
      At(fs, db', if next.Go? then active[p := next.stage] else active - {p}, n + 1)
  {
    Extend(es, Run(p, Env(0, Uuid(n))));
    fs := es + [Run(p, Env(0, Uuid(n)))];
    assert forall k: nat :: k >= n + 1 ==> |Uuid(k)| != |Uuid(n)|;
  }

  lemma Joins(es: seq<Event>, db: Db, active: map<nat, Stage>, p: nat, st: Stage, n: nat) returns (fs: seq<Event>)
    requires Legal(es) && At(es, db, active, n) && p !in active && Initial(st)
    ensures Legal(fs) && At(fs, db, active[p := st], n)
  {
    Extend(es, Begin(p, st));
    fs := es + [Begin(p, st)];
  }

  /** Handler 0 runs its next section. */
  lemma Advance(es: seq<Event>, db: Db, st: Stage, n: nat) returns (fs: seq<Event>)
    requires Legal(es) && At(es, db, map[0 := st], n)
    ensures Legal(fs)
    ensures
      var (db', next) := Step(db, st, Env(0, Uuid(n)));
      At(fs, db', if next.Go? then map[0 := next.stage] else map[], n + 1)
  {
    fs := Turn(es, db, map[0 := st], 0, n);
    assert map[0 := st] - {0} == map[];
  }

  lemma Starts(es: seq<Event>, db: Db, st: Stage, n: nat) returns (fs: seq<Event>)
    requires Legal(es) && At(es, db, map[], n) && Initial(st)
    ensures Legal(fs) && At(fs, db, map[0 := st], n)
  {
    fs := Joins(es, db, map[], 0, st, n);
  }

  lemma AsksToSignIn(es: seq<Event>, db: Db, n: nat) returns (fs: seq<Event>)
    requires Legal(es) && At(es, db, map[], n)
    ensures Legal(fs) && At(fs, db.(codes := db.codes[Uuid(n) := PendingCallback]), map[], n + 1)
  {
    fs := Starts(es, db, SignIn, n);
    fs := Advance(fs, db, SignIn, n);
  }

  lemma CallsBack(es: seq<Event>, db: Db, n: nat, code: Token, u: UserId) returns (fs: seq<Event>)
    requires Legal(es) && At(es, db, map[], n) && code in db.codes && db.codes[code] == PendingCallback
    ensures Legal(fs) && At(fs, db.(codes := db.codes - {code}), map[0 := CallbackUser(u)], n + 1)
  {
    fs := Starts(es, db, Callback(code, u), n);
    fs := Advance(fs, db, Callback(code, u), n);
  }

  lemma LeavesCode(es: seq<Event>, db: Db, n: nat, u: UserId) returns (fs: seq<Event>)
    requires Legal(es) && At(es, db, map[0 := CallbackUser(u)], n)
    ensures Legal(fs)
    ensures At(fs, db.(users := db.users + {u}, codes := db.codes[Uuid(n + 1) := GrantedTo(u)]), map[], n + 2)
  {
    fs := Advance(es, db, CallbackUser(u), n);
    fs := Advance(fs, db.(users := db.users + {u}), CallbackCode(u), n + 1);
  }

  /** The provider's callback leaves a code for the user. */
  lemma SignsIn(es: seq<Event>, db: Db, n: nat, u: UserId) returns (fs: seq<Event>)
    requires Legal(es) && At(es, db, map[], n) && db.codes == map[]
    ensures Legal(fs) && At(fs, db.(users := db.users + {u}, codes := map[Uuid(n + 3) := GrantedTo(u)]), map[], n + 4)
  {
    var db1 := db.(codes := map[Uuid(n) := PendingCallback]);
    fs := AsksToSignIn(es, db, n);
    fs := CallsBack(fs, db1, n + 1, Uuid(n), u);
    assert db1.(codes := db1.codes - {Uuid(n)}) == db;
    fs := LeavesCode(fs, db, n + 2, u);
  }

  lemma TakesCode(es: seq<Event>, db: Db, n: nat, code: Token, u: UserId) returns (fs: seq<Event>)
    requires Legal(es) && At(es, db, map[], n) && code in db.codes && db.codes[code] == GrantedTo(u)
    ensures Legal(fs) && At(fs, db.(codes := db.codes - {code}), map[0 := ExchangeSession(u)], n + 1)
  {
    fs := Starts(es, db, Exchange(code), n);
    fs := Advance(fs, db, Exchange(code), n);
  }

  lemma OpensOrg(es: seq<Event>, db: Db, n: nat, u: UserId) returns (fs: seq<Event>)
    requires Legal(es) && At(es, db, map[0 := ExchangeOrgs(u)], n) && !HasOrgs(db, u)
    ensures Legal(fs) && At(fs, OrgCreated(db, Uuid(n + 1), u), map[], n + 2)
  {
    fs := Advance(es, db, ExchangeOrgs(u), n);
    fs := Advance(fs, db, ExchangeCreate(u), n + 1);
  }

  /** Exchanging the code gives a session, and an org of one's own to who has none. */
  lemma Exchanges(es: seq<Event>, db: Db, n: nat, code: Token, u: UserId) returns (fs: seq<Event>)
    requires Legal(es) && At(es, db.(codes := map[code := GrantedTo(u)]), map[], n)
    requires db.codes == map[] && u in db.users && !HasOrgs(db, u)
    ensures Legal(fs)
    ensures At(fs, OrgCreated(db.(sessions := db.sessions[Uuid(n + 1) := u]), Uuid(n + 3), u), map[], n + 4)
  {
    var db1 := db.(codes := map[code := GrantedTo(u)]);
    var db2 := db.(sessions := db.sessions[Uuid(n + 1) := u]);
    fs := TakesCode(es, db1, n, code, u);
    assert db1.(codes := db1.codes - {code}) == db;
    fs := Advance(fs, db, ExchangeSession(u), n + 1);
    assert !HasOrgs(db2, u);
    fs := OpensOrg(fs, db2, n + 2, u);
  }

  lemma LogsIn(es: seq<Event>, db: Db, n: nat, u: UserId) returns (fs: seq<Event>)
    requires Legal(es) && At(es, db, map[], n) && db.codes == map[] && !HasOrgs(db, u)
    ensures Legal(fs)
    ensures
      var db' := db.(users := db.users + {u}, sessions := db.sessions[Uuid(n + 5) := u]);
      At(fs, OrgCreated(db', Uuid(n + 7), u), map[], n + 8)
  {
    var db1 := db.(users := db.users + {u});
    fs := SignsIn(es, db, n, u);
    assert !HasOrgs(db1, u);
    fs := Exchanges(fs, db1, n + 4, Uuid(n + 3), u);
  }

  lemma Invites(es: seq<Event>, db: Db, n: nat, t: Token, a: UserId, o: OrgId) returns (fs: seq<Event>)
    requires Legal(es) && At(es, db, map[], n)
    requires t in db.sessions && db.sessions[t] == a && RoleIn(db, o, a) == Some(Owner)
    ensures Legal(fs) && At(fs, InviteCreated(db, Uuid(n + 2), o, Admin, a, 0), map[], n + 3)
  {
    var req := InviteTo(o, Some(Admin), 0);
    fs := Starts(es, db, Authenticate(Session(t), req), n);
    fs := Advance(fs, db, Authenticate(Session(t), req), n);
    fs := Advance(fs, db, Authed(a, req), n + 1);
    fs := Advance(fs, db, RoleOk(a, Owner, o, req), n + 2);
  }

  lemma Accepts(es: seq<Event>, db: Db, n: nat, t: Token, b: UserId, invite: Token) returns (fs: seq<Event>)
    requires Legal(es) && At(es, db, map[], n)
    requires t in db.sessions && db.sessions[t] == b
    ensures Legal(fs) && At(fs, InviteRedeemed(db, invite, b, 0), map[], n + 2)
  {
    fs := Starts(es, db, Authenticate(Session(t), Accept(invite)), n);
    fs := Advance(fs, db, Authenticate(Session(t), Accept(invite)), n);
    fs := Advance(fs, db, Authed(b, Accept(invite)), n + 1);
  }

  /** Two sole administrators of an org, both with a session. */
  ghost predicate TwoAdmins(db: Db, o: OrgId, a: UserId, b: UserId, ta: Token, tb: Token) {
    && o in db.orgs && a != b && (forall u :: Administers(db.members, o, u) <==> u == a || u == b)
    && ta in db.sessions && db.sessions[ta] == a && tb in db.sessions && db.sessions[tb] == b
  }

  lemma TwoLogIn(a: UserId, b: UserId) returns (es: seq<Event>)
    requires a != b
    ensures
      var db := Db({a, b}, {Uuid(8), Uuid(16)}, map[(Uuid(8), a) := Owner, (Uuid(16), b) := Owner], map[],
                   map[], 1, map[], 1, map[], map[Uuid(6) := a, Uuid(14) := b], None);
      Legal(es) && At(es, db, map[], 17)
  {
    es := [];
    SpareAtFirst();
    var db := After(es).db;
    es := LogsIn(es, db, 1, a);
    var db1 := After(es).db;
    assert db1.members == map[(Uuid(8), a) := Owner] && db1.sessions == map[Uuid(6) := a];
    assert !HasOrgs(db1, b);
    es := LogsIn(es, db1, 9, b);
    assert |Uuid(6)| != |Uuid(14)| && |Uuid(8)| != |Uuid(16)|;
  }

  /** For any two users there is a run, of serial handlers even, that makes them the only
      administrators of an org. */
  lemma TwoAdminsReached(a: UserId, b: UserId) returns (es: seq<Event>)
    requires a != b
    ensures Legal(es) && After(es).active == map[] && Spare(After(es).minted, 22)
    ensures TwoAdmins(After(es).db, Uuid(8), a, b, Uuid(6), Uuid(14))
    ensures RoleIn(After(es).db, Uuid(8), a) == Some(Owner) && RoleIn(After(es).db, Uuid(8), b) == Some(Admin)
  {
    es := TwoLogIn(a, b);
    assert |Uuid(6)| != |Uuid(14)| && |Uuid(8)| != |Uuid(16)|;
    var db := After(es).db;
    es := Invites(es, db, 17, Uuid(6), a, Uuid(8));
    var db1 := After(es).db;
    es := Accepts(es, db1, 20, Uuid(14), b, Uuid(19));
  }

  /** From there the race can be run: a whole run, from an empty store, after which an org is left
      without an administrator. */
  lemma AdminsLost(a: UserId, b: UserId) returns (es: seq<Event>)
    requires a != b
    ensures Legal(es) && Uuid(8) in After(es).db.orgs && !HasAdmin(After(es).db.members, Uuid(8))
  {
    es := TwoAdminsReached(a, b);
    var ids := [Uuid(22), Uuid(23), Uuid(24), Uuid(25), Uuid(26), Uuid(27)];
    assert forall i :: 0 <= i < 6 ==> ids[i] == Uuid(22 + i) && |ids[i]| == 22 + i;
    es := ExpelRace(es, Uuid(8), a, b, Uuid(6), Uuid(14), 0, 1, ids);
  }

  // ---------------------------------------------------------------- an owner made by a former one

  /** A change of role passes its checks. */
  lemma ChangePasses(
    es: seq<Event>, db: Db, active: map<nat, Stage>, p: nat, n: nat, t: Token, actor: UserId, req: Request)
    returns (fs: seq<Event>)
    requires Legal(es) && At(es, db, active, n) && p !in active && req.ChangeRole? && req.role.Some?
    requires t in db.sessions && db.sessions[t] == actor && Administers(db.members, req.org, actor)
      && actor != req.target
    requires req.role == Some(Owner) ==> db.members[(req.org, actor)] == Owner
    ensures Legal(fs) && At(fs, db, active[p := RoleOk(actor, db.members[(req.org, actor)], req.org, req)], n + 2)
  {
    var st := Authenticate(Session(t), req);
    fs := Joins(es, db, active, p, st, n);
    fs := Turn(fs, db, active[p := st], p, n);
    fs := Turn(fs, db, active[p := st][p := Authed(actor, req)], p, n + 1);
    assert active[p := st][p := Authed(actor, req)][p := RoleOk(actor, db.members[(req.org, actor)], req.org, req)]
        == active[p := RoleOk(actor, db.members[(req.org, actor)], req.org, req)];
  }

  /** Two changes checked, and the second written first. */
  lemma BothPass(es: seq<Event>, db: Db, n: nat, o: OrgId, a: UserId, b: UserId, ta: Token, tb: Token)
    returns (fs: seq<Event>)
    requires Legal(es) && At(es, db, map[], n) && TwoAdmins(db, o, a, b, ta, tb)
    requires RoleIn(db, o, a) == Some(Owner) && RoleIn(db, o, b) == Some(Admin)
    ensures Legal(fs)
    ensures
      At(fs, RoleSet(db, o, a, Viewer), map[0 := RoleOk(a, Owner, o, ChangeRole(o, b, Some(Owner)))], n + 5)
  {
    var first := RoleOk(a, Owner, o, ChangeRole(o, b, Some(Owner)));
    var second := RoleOk(b, Admin, o, ChangeRole(o, a, Some(Viewer)));
    fs := ChangePasses(es, db, map[], 0, n, ta, a, ChangeRole(o, b, Some(Owner)));
    fs := ChangePasses(fs, db, map[0 := first], 1, n + 2, tb, b, ChangeRole(o, a, Some(Viewer)));
    fs := Turn(fs, db, map[0 := first][1 := second], 1, n + 4);
    assert map[0 := first][1 := second] - {1} == map[0 := first];
  }

  /** Interleaved, somebody who is no owner any more can make an owner: for any two users, a whole
      run from an empty store up to that section. */
  lemma FormerOwnerMakesOwner(a: UserId, b: UserId) returns (es: seq<Event>, env: Env)
    requires a != b
    ensures Legal(es) && Enabled(After(es), Run(0, env))
    ensures After(es).active[0].RoleOk? && After(es).active[0].actor == a
    ensures Uuid(8) in After(es).db.orgs
    ensures !Owns(After(es).db, Uuid(8), a) && !Owns(After(es).db, Uuid(8), b)
    ensures Owns(Apply(After(es), Run(0, env)).db, Uuid(8), b)
  {
    es := TwoAdminsReached(a, b);
    es := BothPass(es, After(es).db, 22, Uuid(8), a, b, Uuid(6), Uuid(14));
    env := Env(0, Uuid(27));
    OwnerMadeIff(es, 0, env, Uuid(8), b);
  }
}
