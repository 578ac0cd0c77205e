/** What a handler's answer means: which requests are let through, what a success has done to the
    tables, and that a refusal has done nothing.  All of it in every interleaving. */
module OrgEffects {
  import opened Wrappers
  import opened OrgServer

  /** The end of a critical section: what it has made of the tables, and what it says. */
  function Outcome(es: seq<Event>, p: nat, env: Env): (Db, Next)
    requires Legal(es) && Enabled(After(es), Run(p, env))
  {
    var s' := Apply(After(es), Run(p, env));
    (s'.db, Step(After(es).db, After(es).active[p], env).1)
  }

  predicate Success(n: Next) {
    n.Reply? && n.status < 400
  }

  predicate Refusal(n: Next) {
    n.Reply? && n.status >= 400
  }

  // ---------------------------------------------------------------- who is let through

  /** The role is enough for the request. */
  predicate MayAsk(r: Role, req: Request) {
    if req.DropOrg? then r == Owner
    else if req.InviteTo? || req.ChangeRole? || req.Expel? then r == Owner || r == Admin
    else r != Viewer
  }

  /** And the body is one that is accepted of that role. */
  predicate BodyOk(u: UserId, r: Role, req: Request) {
    match req
    case InviteTo(_, role, _) => role.Some? && role != Some(Owner)
    case ChangeRole(_, target, role) => target != u && role.Some? && (role == Some(Owner) ==> r == Owner)
    case Expel(_, target) => target != u
    case _ => true
  }

  predicate NamesOrg(req: Request) {
    req.DropOrg? || req.InviteTo? || req.ChangeRole? || req.Expel? || req.AddConn? || req.AddCred?
  }

  predicate NamesRow(req: Request) {
    req.EditConn? || req.DropConn? || req.DropCred?
  }

  /** A request that names an org is let through exactly for a member whose role is enough and whose
      body is accepted, and goes on with that role. */
  lemma AdmittedIff(db: Db, u: UserId, req: Request, env: Env)
    requires NamesOrg(req)
    ensures
      var (db', next) := Step(db, Authed(u, req), env);
      var r := RoleIn(db, req.org, u);
      && db' == db
      && if r.Some? && MayAsk(r.value, req) && BodyOk(u, r.value, req) then next == Go(RoleOk(u, r.value, req.org, req))
         else Refusal(next)
  {
  }

  function OrgOfRow(db: Db, req: Request): Option<OrgId> {
    if req.DropCred? then if req.id in db.creds then Some(db.creds[req.id]) else None
    else if (req.EditConn? || req.DropConn?) && req.id in db.conns then Some(db.conns[req.id].org)
    else None
  }

  /** One that names a row goes on with the row's org, and then is let through for every member of
      it but viewers. */
  lemma RowAdmittedIff(db: Db, u: UserId, req: Request, env: Env)
    requires NamesRow(req)
    ensures
      var o := OrgOfRow(db, req);
      Step(db, Authed(u, req), env) == (db, if o.Some? then Go(Found(u, o.value, req)) else Reply(404))
  {
  }

  lemma WriterAdmittedIff(db: Db, u: UserId, o: OrgId, req: Request, env: Env)
    ensures
      var (db', next) := Step(db, Found(u, o, req), env);
      var r := RoleIn(db, o, u);
      && db' == db
      && if r.Some? && r.value != Viewer then next == Go(RoleOk(u, r.value, o, req)) else Refusal(next)
  {
  }

  /** The credential that a connection is to have must exist, and in the same org. */
  lemma CredentialCheckIff(db: Db, u: UserId, r: Role, o: OrgId, req: Request, env: Env)
    requires req.AddConn? || req.EditConn?
    ensures
      Step(db, RoleOk(u, r, o, req), env)
      == (db,
          if req.cred.None? then Go(CredOk(u, r, o, req))
          else if req.cred.value !in db.creds then Reply(400)
          else if db.creds[req.cred.value] != o then Reply(403)
          else Go(CredOk(u, r, o, req)))
  {
  }

  /** A session stands for its user, and the local token for the local user; nothing else does. */
  lemma AuthenticatedIff(db: Db, b: Bearer, req: Request, env: Env)
    ensures
      var (db', next) := Step(db, Authenticate(b, req), env);
      && db' == db
      && match b
         case Session(t) => next == if t in db.sessions then Go(Authed(db.sessions[t], req)) else Reply(401)
         case AdminToken => next == if db.adminHash.Some? then Go(EnterLocal(req)) else Reply(401)
    ensures Step(db, EnterLocal(req), env).1 == Go(Authed(LOCAL_USER, req))
  {
  }

  // ---------------------------------------------------------------- what success means

  ghost predicate OneMore<V>(m: map<nat, V>, m': map<nat, V>, v: V) {
    exists id :: id in m' && id !in m && m' == m[id := v]
  }

  ghost predicate OneLess<V>(m: map<nat, V>, m': map<nat, V>, id: nat) {
    id !in m' && (forall k :: k in m' <==> k in m && k != id) && forall k :: k in m' ==> m'[k] == m[k]
  }

  /** Only this member's role differs. */
  ghost predicate OneRole(db: Db, db': Db, o: OrgId, u: UserId, r: Option<Role>) {
    && RoleIn(db', o, u) == r
    && (forall x, v :: (x, v) != (o, u) ==> RoleIn(db', x, v) == RoleIn(db, x, v))
    && db' == db.(members := db'.members)
  }

  ghost predicate Emptied(db: Db, o: OrgId) {
    && o !in db.orgs
    && (forall u :: RoleIn(db, o, u).None?) && (forall t :: InviteIn(db, t, o).None?)
    && (forall c :: ConnIn(db, c, o).None?) && (forall k :: !CredIn(db, k, o))
  }

  /** What the last section of a request is to do. */
  ghost predicate Done(db: Db, st: Stage, env: Env, db': Db) {
    match st
    case CredOk(_, _, o, AddConn(_, cred)) =>
      OneMore(db.conns, db'.conns, Connection(o, cred)) && db' == db.(conns := db'.conns, nextConn := db'.nextConn)
    case CredOk(_, _, _, EditConn(id, cred)) =>
      && id in db.conns && db'.conns.Keys == db.conns.Keys
      && db'.conns[id] == Connection(db.conns[id].org, cred)
      && (forall c :: c in db.conns && c != id ==> db'.conns[c] == db.conns[c])
      && db' == db.(conns := db'.conns)
    case RoleOk(_, _, _, DropConn(id)) => OneLess(db.conns, db'.conns, id) && db' == db.(conns := db'.conns)
    case RoleOk(_, _, o, AddCred(_)) =>
      OneMore(db.creds, db'.creds, o) && db' == db.(creds := db'.creds, nextCred := db'.nextCred)
    case RoleOk(_, _, _, DropCred(id)) => OneLess(db.creds, db'.creds, id) && db' == db.(creds := db'.creds)
    case RoleOk(_, _, o, DropOrg(_)) =>
      Emptied(db', o) && (forall x :: x != o ==> SameRows(db, db', x)) && db'.users == db.users
    case RoleOk(_, _, o, InviteTo(_, role, expires)) =>
      && env.uuid !in db.invites && role.Some?
      && db' == db.(invites := db.invites[env.uuid := Invite(o, role.value, expires, None)])
    case RoleOk(_, _, o, ChangeRole(_, target, role)) =>
      OneRole(db, db', o, target, if RoleIn(db, o, target).Some? then role else None)
    case RoleOk(_, _, o, Expel(_, target)) => OneRole(db, db', o, target, None)
    case Authed(u, NewOrg) =>
      && env.uuid !in db.orgs && db'.orgs == db.orgs + {env.uuid}
      && OneRole(db.(orgs := db'.orgs), db', env.uuid, u, Some(Owner))
    case Authed(u, Accept(t)) =>
      && t in db.invites
      && (var i := db.invites[t];
          && db'.invites == db.invites[t := i.(usedBy := Some(u))]
          && OneRole(db.(invites := db'.invites), db', i.org, u,
                     if RoleIn(db, i.org, u).Some? then RoleIn(db, i.org, u) else Some(i.role)))
    case _ => true
  }

  /** When it does it. */
  predicate Possible(db: Db, st: Stage, env: Env) {
    match st
    case CredOk(_, _, o, AddConn(_, _)) => o in db.orgs
    case CredOk(_, _, _, EditConn(id, _)) => id in db.conns
    case RoleOk(_, _, o, AddCred(_)) => o in db.orgs
    case RoleOk(_, _, o, InviteTo(_, _, _)) => o in db.orgs
    case Authed(_, Accept(t)) => t in db.invites && db.invites[t].usedBy.None? && env.now <= db.invites[t].expires
    case _ => true
  }

  /** The sections that end a request which changes something. */
  predicate Writes(st: Stage) {
    || (st.CredOk? && (st.req.AddConn? || st.req.EditConn?))
    || (st.RoleOk?
        && (st.req.DropConn? || st.req.AddCred? || st.req.DropCred? || st.req.DropOrg? || st.req.InviteTo?
            || st.req.ChangeRole? || st.req.Expel?))
    || (st.Authed? && (st.req.NewOrg? || st.req.Accept?))
  }

  lemma StoresConn(db: Db, u: UserId, r: Role, o: OrgId, req: Request, env: Env)
    requires DbOk(db) && (req.AddConn? || req.EditConn?)
    ensures
      var st := CredOk(u, r, o, req);
      var (db', next) := Step(db, st, env);
      if Possible(db, st, env) then Success(next) && Done(db, st, env, db') else Refusal(next) && db' == db
  {
    if req.AddConn? && o in db.orgs {
      assert db.nextConn !in db.conns;
      assert OneMore(db.conns, db.conns[db.nextConn := Connection(o, req.cred)], Connection(o, req.cred));
    }
  }

  lemma ChangesRows(db: Db, u: UserId, r: Role, o: OrgId, req: Request, env: Env)
    requires DbOk(db) && (req.DropConn? || req.AddCred? || req.DropCred?)
    ensures
      var st := RoleOk(u, r, o, req);
      var (db', next) := Step(db, st, env);
      if Possible(db, st, env) then Success(next) && Done(db, st, env, db') else Refusal(next) && db' == db
  {
    if req.AddCred? && o in db.orgs {
      assert db.nextCred !in db.creds;
      assert OneMore(db.creds, db.creds[db.nextCred := o], o);
    }
  }

  lemma DropsOrg(db: Db, u: UserId, r: Role, o: OrgId, req: Request, env: Env)
    requires req.DropOrg?
    ensures
      var (db', next) := Step(db, RoleOk(u, r, o, req), env);
      Success(next) && Done(db, RoleOk(u, r, o, req), env, db')
  {
    forall x | x != o ensures SameRows(db, OrgDeleted(db, o), x) {
      OrgDeletedElsewhere(db, o, x);
    }
  }

  lemma ChangesMembers(db: Db, u: UserId, r: Role, o: OrgId, req: Request, env: Env)
    requires req.ChangeRole? || req.Expel?
    requires req.ChangeRole? ==> req.role.Some?
    ensures
      var (db', next) := Step(db, RoleOk(u, r, o, req), env);
      Success(next) && Done(db, RoleOk(u, r, o, req), env, db')
  {
  }

  lemma MakesInvite(db: Db, u: UserId, r: Role, o: OrgId, req: Request, env: Env)
    requires req.InviteTo? && req.role.Some? && req.role != Some(Owner)
    requires u in db.users && env.uuid !in db.invites
    ensures
      var st := RoleOk(u, r, o, req);
      var (db', next) := Step(db, st, env);
      if Possible(db, st, env) then Success(next) && Done(db, st, env, db') else Refusal(next) && db' == db
  {
  }

  lemma TakesInvite(db: Db, u: UserId, req: Request, env: Env)
    requires DbOk(db) && req.Accept? && u in db.users
    ensures
      var st := Authed(u, req);
      var (db', next) := Step(db, st, env);
      if Possible(db, st, env) then Success(next) && Done(db, st, env, db') else Refusal(next) && db' == db
  {
  }

  lemma MakesOrg(db: Db, u: UserId, env: Env)
    requires u in db.users && env.uuid !in db.orgs
    ensures
      var (db', next) := Step(db, Authed(u, NewOrg), env);
      Success(next) && Done(db, Authed(u, NewOrg), env, db')
  {
  }

  /** The bodies that the checks let through stay as they are. */
  predicate BodyKept(st: Stage) {
    st.RoleOk? ==> BodyOk(st.actor, st.actorRole, st.req)
  }

  lemma StepBody(db: Db, st: Stage, env: Env)
    requires Vetted(st) && BodyKept(st)
    ensures Step(db, st, env).1.Go? ==> BodyKept(Step(db, st, env).1.stage)
  {
  }

  lemma {:induction false} BodiesKept(es: seq<Event>, p: nat)
    requires Legal(es) && p in After(es).active
    ensures BodyKept(After(es).active[p])
  {
    var init, e := es[..|es| - 1], es[|es| - 1];
    if p in After(init).active {
      BodiesKept(init, p);
      RunMintsAndVets(init);
      if e.Run? && e.pid == p {
        StepBody(After(init).db, After(init).active[p], e.env);
      }
    }
  }

  lemma StepMeans(db: Db, st: Stage, env: Env)
    requires DbOk(db) && StageOk(db, st) && BodyKept(st) && Writes(st)
    requires env.uuid !in db.orgs && env.uuid !in db.invites
    ensures
      var (db', next) := Step(db, st, env);
      if Possible(db, st, env) then Success(next) && Done(db, st, env, db') else Refusal(next) && db' == db
  {
    if st.CredOk? {
      StoresConn(db, st.actor, st.actorRole, st.org, st.req, env);
    } else if st.Authed? {
      if st.req.NewOrg? {
        MakesOrg(db, st.actor, env);
      } else {
        TakesInvite(db, st.actor, st.req, env);
      }
    } else if st.req.DropOrg? {
      DropsOrg(db, st.actor, st.actorRole, st.org, st.req, env);
    } else if st.req.InviteTo? {
      MakesInvite(db, st.actor, st.actorRole, st.org, st.req, env);
    } else if st.req.ChangeRole? || st.req.Expel? {
      ChangesMembers(db, st.actor, st.actorRole, st.org, st.req, env);
    } else {
      ChangesRows(db, st.actor, st.actorRole, st.org, st.req, env);
    }
  }

  /** In every interleaving, the last section of a request answers with success exactly when it
      can do what was asked, and then has done that and nothing else; a refusal has done nothing. */
  lemma AnswersMeanWhatTheySay(es: seq<Event>, p: nat, env: Env)
    requires Legal(es) && Enabled(After(es), Run(p, env)) && Writes(After(es).active[p])
    ensures
      var db, st := After(es).db, After(es).active[p];
      var (db', next) := Outcome(es, p, env);
      if Possible(db, st, env) then Success(next) && Done(db, st, env, db') else Refusal(next) && db' == db
  {
    RunKeeps(es);
    RunMintsAndVets(es);
    BodiesKept(es, p);
    StepMeans(After(es).db, After(es).active[p], env);
  }

  // ---------------------------------------------------------------- signing in

  /** A code is good for one exchange: it is gone, and a session for its user follows. */
  lemma ExchangeMeans(db: Db, code: Token, env: Env)
    ensures
      var (db', next) := Step(db, Exchange(code), env);
      && db' == db.(codes := db'.codes) && code !in db'.codes
      && (forall c :: c != code ==>
            (c in db.codes <==> c in db'.codes) && (c in db.codes ==> db'.codes[c] == db.codes[c]))
      && if code in db.codes && db.codes[code].GrantedTo? then next == Go(ExchangeSession(db.codes[code].user))
         else Refusal(next)
  {
  }

  lemma SessionMeans(db: Db, u: UserId, env: Env)
    requires u in db.users
    ensures
      Step(db, ExchangeSession(u), env)
      == (db.(sessions := db.sessions[env.uuid := u]), Go(ExchangeOrgs(u)))
  {
  }

  /** Whoever signs in or lists their orgs has one in the end. */
  lemma HasOrgInTheEnd(db: Db, u: UserId, env: Env)
    requires u in db.users
    ensures Step(db, ExchangeOrgs(u), env) == (db, if HasOrgs(db, u) then Reply(200) else Go(ExchangeCreate(u)))
    ensures Step(db, Authed(u, MyOrgs), env) == (db, if HasOrgs(db, u) then Reply(200) else Go(HealUser(u)))
    ensures Step(db, HealUser(u), env) == (db, Go(HealCreate(u)))
    ensures HasOrgs(Step(db, ExchangeCreate(u), env).0, u) && HasOrgs(Step(db, HealCreate(u), env).0, u)
  {
    assert (env.uuid, u) in OrgCreated(db, env.uuid, u).members;
  }

  /** The callback needs a sign-in of its own that waits, and uses it up. */
  lemma CallbackMeans(db: Db, code: Token, u: UserId, env: Env)
    ensures Step(db, SignIn, env).0 == db.(codes := db.codes[env.uuid := PendingCallback])
    ensures
      var (db', next) := Step(db, Callback(code, u), env);
      && code !in db'.codes
      && if code in db.codes && db.codes[code] == PendingCallback then next == Go(CallbackUser(u)) else Refusal(next)
    ensures
      && u in Step(db, CallbackUser(u), env).0.users
      && Step(db, CallbackUser(u), env).1 == Go(CallbackCode(u))
      && Step(db, CallbackCode(u), env).0 == db.(codes := db.codes[env.uuid := GrantedTo(u)])
  {
  }

  /** The local token can be set up once, and then the local org is there with its owner, unless
      somebody has changed that. */
  lemma SetupMeans(db: Db, hash: string, env: Env)
    ensures
      Step(db, Setup(hash), env)
      == (db,
          if db.adminHash.Some? then Reply(409)
          else if forall c :: c in hash ==> White(c) then Reply(400)
          else Go(SetupStore(hash)))
    ensures Step(db, SetupStore(hash), env) == (db.(adminHash := Some(hash)), Go(SetupLocal))
    ensures
      var (db', next) := Step(db, SetupLocal, env);
      && Success(next) && LOCAL_USER in db'.users && LOCAL_ORG in db'.orgs
      && (LOCAL_ORG !in db.orgs ==> RoleIn(db', LOCAL_ORG, LOCAL_USER) == Some(Owner))
      && (LOCAL_ORG in db.orgs ==> db' == db.(users := db.users + {LOCAL_USER}))
  {
  }

  // ---------------------------------------------------------------- a request does get through

  /** Handlers of every kind can begin. */
  lemma HandlersBegin(es: seq<Event>, p: nat, st: Stage)
    requires Legal(es) && p !in After(es).active
    requires st.Authenticate? || st.SignIn? || st.Callback? || st.Exchange? || st.Setup?
    ensures Legal(es + [Begin(p, st)])
    ensures After(es + [Begin(p, st)]) == After(es).(active := After(es).active[p := st])
  {
    Extend(es, Begin(p, st));
  }

  /** And one that has begun can always go on. */
  lemma HandlerGoesOn(es: seq<Event>, p: nat, env: Env)
    requires Legal(es)
    ensures Legal(es + [Run(p, env)]) <==> p in After(es).active && env.uuid !in After(es).minted
  {
    assert (es + [Run(p, env)])[..|es|] == es;
  }

  /** Handler `p` is at the stage, over these tables. */
  ghost predicate Stands(es: seq<Event>, p: nat, db: Db, st: Stage)
    requires Legal(es)
  {
    p in After(es).active && After(es).active[p] == st && After(es).db == db
  }

  lemma Goes(es: seq<Event>, p: nat, db: Db, st: Stage, id: string, next: Stage) returns (fs: seq<Event>)
    requires Legal(es) && Stands(es, p, db, st) && id !in After(es).minted
    requires Step(db, st, Env(0, id)) == (db, Go(next))
    ensures fs == es + [Run(p, Env(0, id))] && Legal(fs) && Stands(fs, p, db, next)
    ensures After(fs).minted == After(es).minted + {id}
  {
    Extend(es, Run(p, Env(0, id)));
    fs := es + [Run(p, Env(0, id))];
  }

  lemma Begins(es: seq<Event>, p: nat, st: Stage) returns (fs: seq<Event>)
    requires Legal(es) && p !in After(es).active && Initial(st)
    ensures fs == es + [Begin(p, st)] && Legal(fs) && Stands(fs, p, After(es).db, st)
    ensures After(fs).minted == After(es).minted
  {
    HandlersBegin(es, p, st);
    fs := es + [Begin(p, st)];
  }

  lemma Stores(es: seq<Event>, p: nat, db: Db, u: UserId, r: Role, req: Request, id: string)
    requires Legal(es) && req.AddConn? && Stands(es, p, db, CredOk(u, r, req.org, req)) && id !in After(es).minted
    requires req.org in db.orgs
    ensures Legal(es + [Run(p, Env(0, id))])
    ensures OneMore(db.conns, After(es + [Run(p, Env(0, id))]).db.conns, Connection(req.org, req.cred))
  {
    AnswersMeanWhatTheySay(es, p, Env(0, id));
    Extend(es, Run(p, Env(0, id)));
  }

  /** From every point: whoever has a session and a role other than viewer can create a connection
      in the org, without a credential or with one of the org. */
  lemma ConnectionGetsCreated(
    es: seq<Event>, p: nat, t: Token, u: UserId, o: OrgId, cred: Option<nat>, ids: seq<string>)
    returns (fs: seq<Event>)
    requires Legal(es) && p !in After(es).active
    requires t in After(es).db.sessions && After(es).db.sessions[t] == u
    requires RoleIn(After(es).db, o, u).Some? && RoleIn(After(es).db, o, u) != Some(Viewer)
    requires cred.Some? ==> CredIn(After(es).db, cred.value, o)
    requires |ids| == 4 && (forall i :: 0 <= i < 4 ==> ids[i] !in After(es).minted)
    requires forall i, j :: 0 <= i < j < 4 ==> ids[i] != ids[j]
    ensures
      var st := Authenticate(Session(t), AddConn(o, cred));
      fs == es + [Begin(p, st)] + [Run(p, Env(0, ids[0]))] + [Run(p, Env(0, ids[1]))] + [Run(p, Env(0, ids[2]))]
            + [Run(p, Env(0, ids[3]))]
    ensures Legal(fs) && OneMore(After(es).db.conns, After(fs).db.conns, Connection(o, cred))
  {
    var db, req, r := After(es).db, AddConn(o, cred), RoleIn(After(es).db, o, u).value;
    RunKeeps(es);
    fs := Begins(es, p, Authenticate(Session(t), req));
    fs := Goes(fs, p, db, Authenticate(Session(t), req), ids[0], Authed(u, req));
    fs := Goes(fs, p, db, Authed(u, req), ids[1], RoleOk(u, r, o, req));
    fs := Goes(fs, p, db, RoleOk(u, r, o, req), ids[2], CredOk(u, r, o, req));
    Stores(fs, p, db, u, r, req, ids[3]);
    fs := fs + [Run(p, Env(0, ids[3]))];
  }
}
