/** The server's membership, invite and credential machine.

    `Store` is the database behind one mutex: each of its methods is one critical section.  A
    handler locks the store several times, and other handlers may run in between; `Step` is one
    such section of one handler.  Serial runs are the runs in which a handler starts only when
    no other is active. */
module OrgServer {
  import opened Wrappers

  type OrgId = string
  type UserId = string
  type Token = string

  const LOCAL_ORG: OrgId := "org_local"
  const LOCAL_USER: UserId := "__local__"

  datatype Role = Owner | Admin | Member | Viewer

  function Rank(r: Role): nat {
    match r
    case Owner => 4
    case Admin => 3
    case Member => 2
    case Viewer => 1
  }

  datatype Invite = Invite(org: OrgId, role: Role, expires: int, usedBy: Option<UserId>)

  datatype Connection = Connection(org: OrgId, cred: Option<nat>)

  /** The value kept under an OAuth code: a callback waiting for the provider, or a user. */
  datatype Grant = PendingCallback | GrantedTo(user: UserId)

  /** The tables.  `nextConn` and `nextCred` are the AUTOINCREMENT counters. */
  datatype Db = Db(
    users: set<UserId>, orgs: set<OrgId>, members: map<(OrgId, UserId), Role>, invites: map<Token, Invite>,
    conns: map<nat, Connection>, nextConn: nat, creds: map<nat, OrgId>, nextCred: nat,
    codes: map<Token, Grant>, sessions: map<Token, UserId>, adminHash: Option<string>)

  // ---------------------------------------------------------------- critical sections

  /** Two inserts under one lock and no transaction: when the second one violates its foreign
      key, the first one stays. */
  function OrgCreated(db: Db, o: OrgId, u: UserId): Db {
    db.(orgs := db.orgs + {o},
        members := if u in db.users then db.members[(o, u) := Owner] else db.members)
  }

  function OrgDeleted(db: Db, o: OrgId): Db {
    db.(orgs := db.orgs - {o},
        members := map k | k in db.members && k.0 != o :: db.members[k],
        invites := map t | t in db.invites && db.invites[t].org != o :: db.invites[t],
        conns := map c | c in db.conns && db.conns[c].org != o :: db.conns[c],
        creds := map c | c in db.creds && db.creds[c] != o :: db.creds[c])
  }

  function RoleSet(db: Db, o: OrgId, u: UserId, r: Role): Db {
    if (o, u) in db.members then db.(members := db.members[(o, u) := r]) else db
  }

  function MemberRemoved(db: Db, o: OrgId, u: UserId): Db {
    db.(members := db.members - {(o, u)})
  }

  function InviteCreated(db: Db, t: Token, o: OrgId, r: Role, creator: UserId, expires: int): Db {
    if o in db.orgs && creator in db.users && r != Owner then
      db.(invites := db.invites[t := Invite(o, r, expires, None)])
    else db
  }

  predicate Redeemable(db: Db, t: Token, u: UserId, now: int) {
    && t in db.invites && db.invites[t].usedBy.None? && now <= db.invites[t].expires
    && db.invites[t].org in db.orgs && u in db.users
  }

  function InviteRedeemed(db: Db, t: Token, u: UserId, now: int): Db {
    if Redeemable(db, t, u, now) then
      var i := db.invites[t];
      db.(members := if (i.org, u) in db.members then db.members else db.members[(i.org, u) := i.role],
          invites := db.invites[t := i.(usedBy := Some(u))])
    else db
  }

  function LocalEnsured(db: Db): Db {
    var db1 := db.(users := db.users + {LOCAL_USER});
    if LOCAL_ORG in db.orgs then db1
    else db1.(orgs := db1.orgs + {LOCAL_ORG}, members := db1.members[(LOCAL_ORG, LOCAL_USER) := Owner])
  }

  function ConnCreated(db: Db, o: OrgId, cred: Option<nat>): Db {
    if o in db.orgs then db.(conns := db.conns[db.nextConn := Connection(o, cred)], nextConn := db.nextConn + 1) else db
  }

  function ConnUpdated(db: Db, id: nat, cred: Option<nat>): Db {
    if id in db.conns then db.(conns := db.conns[id := db.conns[id].(cred := cred)]) else db
  }

  function ConnDeleted(db: Db, id: nat): Db {
    db.(conns := db.conns - {id})
  }

  function CredCreated(db: Db, o: OrgId): Db {
    if o in db.orgs then db.(creds := db.creds[db.nextCred := o], nextCred := db.nextCred + 1) else db
  }

  function CredDeleted(db: Db, id: nat): Db {
    db.(creds := db.creds - {id})
  }

  class Store {
    var users: set<UserId>
    var orgs: set<OrgId>
    var members: map<(OrgId, UserId), Role>
    var invites: map<Token, Invite>
    var conns: map<nat, Connection>
    var nextConn: nat
    var creds: map<nat, OrgId>
    var nextCred: nat
    var codes: map<Token, Grant>
    var sessions: map<Token, UserId>
    var adminHash: Option<string>

    ghost function View(): Db
      reads this
    {
      Db(users, orgs, members, invites, conns, nextConn, creds, nextCred, codes, sessions, adminHash)
    }

    constructor Open()
      ensures View() == Db({}, {}, map[], map[], map[], 1, map[], 1, map[], map[], None)
    {
      users, orgs, members, invites := {}, {}, map[], map[];
      conns, nextConn, creds, nextCred := map[], 1, map[], 1;
      codes, sessions, adminHash := map[], map[], None;
    }

    method CreateOrg(id: OrgId, ownerUserId: UserId) returns (ok: bool)
      modifies this`orgs, this`members
      ensures View() == OrgCreated(old(View()), id, ownerUserId)
      ensures ok <==> ownerUserId in users
    {
      orgs := orgs + {id};
      ok := ownerUserId in users;
      if ok {
        members := members[(id, ownerUserId) := Owner];
      }
    }

    method DeleteOrg(id: OrgId)
      modifies this`orgs, this`members, this`invites, this`conns, this`creds
      ensures View() == OrgDeleted(old(View()), id)
    {
      orgs := orgs - {id};
      members := map k | k in members && k.0 != id :: members[k];
      invites := map t | t in invites && invites[t].org != id :: invites[t];
      conns := map c | c in conns && conns[c].org != id :: conns[c];
      creds := map c | c in creds && creds[c] != id :: creds[c];
    }

    method GetMemberRole(org: OrgId, user: UserId) returns (r: Option<Role>)
      ensures r == if (org, user) in View().members then Some(View().members[(org, user)]) else None
    {
      if (org, user) in members {
        r := Some(members[(org, user)]);
      } else {
        r := None;
      }
    }

    method SetMemberRole(org: OrgId, user: UserId, role: Role)
      modifies this`members
      ensures View() == RoleSet(old(View()), org, user, role)
    {
      if (org, user) in members {
        members := members[(org, user) := role];
      }
    }

    method RemoveMember(org: OrgId, user: UserId)
      modifies this`members
      ensures View() == MemberRemoved(old(View()), org, user)
    {
      members := members - {(org, user)};
    }

    method CreateInvite(token: Token, org: OrgId, role: Role, createdBy: UserId, expires: int) returns (ok: bool)
      modifies this`invites
      ensures View() == InviteCreated(old(View()), token, org, role, createdBy, expires)
      ensures ok <==> org in orgs && createdBy in users && role != Owner
    {
      ok := org in orgs && createdBy in users && role != Owner;
      if ok {
        invites := invites[token := Invite(org, role, expires, None)];
      }
    }

    method RedeemInvite(token: Token, user: UserId, now: int) returns (r: Result<Invite, string>)
      modifies this`members, this`invites
      ensures View() == InviteRedeemed(old(View()), token, user, now)
      ensures r.Success? <==> Redeemable(old(View()), token, user, now)
      ensures r.Success? ==> r.value == old(View()).invites[token]
    {
      if token !in invites {
        return Failure("invite not found");
      }
      var invite := invites[token];
      if invite.usedBy.Some? {
        return Failure("invite already redeemed");
      }
      if invite.expires < now {
        return Failure("invite expired");
      }
      if invite.org !in orgs || user !in users {
        return Failure("FOREIGN KEY constraint failed");
      }
      if (invite.org, user) !in members {
        members := members[(invite.org, user) := invite.role];
      }
      invites := invites[token := invite.(usedBy := Some(user))];
      return Success(invite);
    }

    method EnsureLocalUserAndOrg() returns (id: UserId)
      modifies this`users, this`orgs, this`members
      ensures View() == LocalEnsured(old(View()))
      ensures id == LOCAL_USER
    {
      users := users + {LOCAL_USER};
      if LOCAL_ORG !in orgs {
        orgs := orgs + {LOCAL_ORG};
        members := members[(LOCAL_ORG, LOCAL_USER) := Owner];
      }
      id := LOCAL_USER;
    }

    method CreateOrgConnection(org: OrgId, cred: Option<nat>) returns (id: Option<nat>)
      modifies this`conns, this`nextConn
      ensures View() == ConnCreated(old(View()), org, cred)
      ensures id == if org in orgs then Some(old(nextConn)) else None
    {
      id := None;
      if org in orgs {
        id := Some(nextConn);
        conns := conns[nextConn := Connection(org, cred)];
        nextConn := nextConn + 1;
      }
    }

    method UpdateOrgConnection(id: nat, cred: Option<nat>) returns (ok: bool)
      modifies this`conns
      ensures View() == ConnUpdated(old(View()), id, cred)
      ensures ok <==> id in old(conns)
    {
      ok := id in conns;
      if ok {
        conns := conns[id := conns[id].(cred := cred)];
      }
    }

    method DeleteOrgConnection(id: nat)
      modifies this`conns
      ensures View() == ConnDeleted(old(View()), id)
    {
      conns := conns - {id};
    }

    method CreateOrgCredential(org: OrgId) returns (id: Option<nat>)
      modifies this`creds, this`nextCred
      ensures View() == CredCreated(old(View()), org)
      ensures id == if org in orgs then Some(old(nextCred)) else None
    {
      id := None;
      if org in orgs {
        id := Some(nextCred);
        creds := creds[nextCred := org];
        nextCred := nextCred + 1;
      }
    }

    method DeleteOrgCredential(id: nat)
      modifies this`creds
      ensures View() == CredDeleted(old(View()), id)
    {
      creds := creds - {id};
    }

    method TakeOauthCode(code: Token) returns (value: Option<Grant>)
      modifies this`codes
      ensures value == if code in old(codes) then Some(old(codes)[code]) else None
      ensures View() == old(View()).(codes := old(codes) - {code})
    {
      value := if code in codes then Some(codes[code]) else None;
      codes := codes - {code};
    }
  }

  // ---------------------------------------------------------------- handlers

  datatype Bearer = Session(token: Token) | AdminToken

  /** The authenticated requests.  `role` is None when the body names no known role. */
  datatype Request =
    | NewOrg
    | MyOrgs
    | DropOrg(org: OrgId)
    | InviteTo(org: OrgId, role: Option<Role>, expires: int)
    | ChangeRole(org: OrgId, target: UserId, role: Option<Role>)
    | Expel(org: OrgId, target: UserId)
    | Accept(token: Token)
    | AddConn(org: OrgId, cred: Option<nat>)
    | EditConn(id: nat, cred: Option<nat>)
    | DropConn(id: nat)
    | AddCred(org: OrgId)
    | DropCred(id: nat)

  /** What a handler does at its next lock of the store. */
  datatype Stage =
    | Authenticate(bearer: Bearer, req: Request)
    | EnterLocal(req: Request)
    | Authed(actor: UserId, req: Request)
    | HealUser(actor: UserId)
    | HealCreate(actor: UserId)
    | Found(actor: UserId, org: OrgId, req: Request)
    | RoleOk(actor: UserId, actorRole: Role, org: OrgId, req: Request)
    | CredOk(actor: UserId, actorRole: Role, org: OrgId, req: Request)
    | SignIn
    | Callback(state: Token, user: UserId)
    | CallbackUser(user: UserId)
    | CallbackCode(user: UserId)
    | Exchange(code: Token)
    | ExchangeSession(user: UserId)
    | ExchangeOrgs(user: UserId)
    | ExchangeCreate(user: UserId)
    | Setup(hash: string)
    | SetupStore(hash: string)
    | SetupLocal

  predicate Initial(st: Stage) {
    st.Authenticate? || st.SignIn? || st.Callback? || st.Exchange? || st.Setup?
  }

  datatype Next = Go(stage: Stage) | Reply(status: nat)

  /** What the outside world supplies: the clock and a new UUID. */
  datatype Env = Env(now: int, uuid: string)

  function CheckRole(db: Db, u: UserId, o: OrgId, req: Request, min: Role): Next {
    if (o, u) !in db.members then Reply(403)
    else if Rank(db.members[(o, u)]) < Rank(min) then Reply(403)
    else Go(RoleOk(u, db.members[(o, u)], o, req))
  }

  function CheckWriter(db: Db, u: UserId, o: OrgId, req: Request): Next {
    if (o, u) !in db.members || db.members[(o, u)].Viewer? then Reply(403)
    else Go(RoleOk(u, db.members[(o, u)], o, req))
  }

  /** `require_role` and the checks on the body that follow it without a lock. */
  function CheckChange(db: Db, u: UserId, req: Request): Next
    requires req.ChangeRole?
  {
    var n := CheckRole(db, u, req.org, req, Admin);
    if n.Reply? then n
    else if u == req.target then Reply(400)
    else if req.role.None? then Reply(400)
    else if req.role == Some(Owner) && n.stage.actorRole != Owner then Reply(403)
    else n
  }

  function CheckExpel(db: Db, u: UserId, req: Request): Next
    requires req.Expel?
  {
    var n := CheckRole(db, u, req.org, req, Admin);
    if n.Go? && u == req.target then Reply(400) else n
  }

  function CheckInvite(db: Db, u: UserId, req: Request): Next
    requires req.InviteTo?
  {
    var n := CheckRole(db, u, req.org, req, Admin);
    if n.Go? && (req.role.None? || req.role == Some(Owner)) then Reply(400) else n
  }

  /** The characters that `trim` takes off, those with the Unicode property White_Space. */
  predicate White(c: char) {
    || '\U{9}' <= c <= '\U{d}' || '\U{2000}' <= c <= '\U{200a}'
    || c in {' ', '\U{85}', '\U{a0}', '\U{1680}', '\U{2028}', '\U{2029}', '\U{202f}', '\U{205f}', '\U{3000}'}
  }

  predicate Blank(s: string) {
    forall c :: c in s ==> White(c)
  }

  predicate HasOrgs(db: Db, u: UserId) {
    exists k :: k in db.members && k.1 == u
  }

  function StepAuthed(db: Db, u: UserId, req: Request, env: Env): (Db, Next) {
    match req
    case NewOrg => (OrgCreated(db, env.uuid, u), Reply(if u in db.users then 200 else 500))
    case MyOrgs => (db, if HasOrgs(db, u) then Reply(200) else Go(HealUser(u)))
    case DropOrg(o) => (db, CheckRole(db, u, o, req, Owner))
    case InviteTo(_, _, _) => (db, CheckInvite(db, u, req))
    case ChangeRole(_, _, _) => (db, CheckChange(db, u, req))
    case Expel(_, _) => (db, CheckExpel(db, u, req))
    case Accept(t) => (InviteRedeemed(db, t, u, env.now), Reply(if Redeemable(db, t, u, env.now) then 200 else 400))
    case AddConn(o, _) => (db, CheckWriter(db, u, o, req))
    case AddCred(o) => (db, CheckWriter(db, u, o, req))
    case EditConn(id, _) => (db, if id in db.conns then Go(Found(u, db.conns[id].org, req)) else Reply(404))
    case DropConn(id) => (db, if id in db.conns then Go(Found(u, db.conns[id].org, req)) else Reply(404))
    case DropCred(id) => (db, if id in db.creds then Go(Found(u, db.creds[id], req)) else Reply(404))
  }

  /** `ensure_credential_in_org`. */
  function CheckCred(db: Db, u: UserId, r: Role, o: OrgId, req: Request, cred: Option<nat>): Next {
    if cred.None? then Go(CredOk(u, r, o, req))
    else if cred.value !in db.creds then Reply(400)
    else if db.creds[cred.value] != o then Reply(403)
    else Go(CredOk(u, r, o, req))
  }

  function StepRoleOk(db: Db, u: UserId, r: Role, o: OrgId, req: Request, env: Env): (Db, Next) {
    match req
    case DropOrg(_) => (OrgDeleted(db, o), Reply(200))
    case InviteTo(_, role, expires) =>
      if role.None? then (db, Reply(400))
      else
        (InviteCreated(db, env.uuid, o, role.value, u, expires),
         Reply(if o in db.orgs && u in db.users then 200 else 500))
    case ChangeRole(_, target, role) =>
      if role.None? then (db, Reply(400)) else (RoleSet(db, o, target, role.value), Reply(200))
    case Expel(_, target) => (MemberRemoved(db, o, target), Reply(200))
    case AddConn(_, cred) => (db, CheckCred(db, u, r, o, req, cred))
    case EditConn(_, cred) => (db, CheckCred(db, u, r, o, req, cred))
    case DropConn(id) => (ConnDeleted(db, id), Reply(204))
    case AddCred(_) => (CredCreated(db, o), Reply(if o in db.orgs then 200 else 500))
    case DropCred(id) => (CredDeleted(db, id), Reply(204))
    case _ => (db, Reply(500))
  }

  function StepCredOk(db: Db, o: OrgId, req: Request): (Db, Next) {
    match req
    case AddConn(_, cred) => (ConnCreated(db, o, cred), Reply(if o in db.orgs then 200 else 500))
    case EditConn(id, cred) => (ConnUpdated(db, id, cred), Reply(if id in db.conns then 200 else 500))
    case _ => (db, Reply(500))
  }

  /** One critical section of one handler. */
  function Step(db: Db, st: Stage, env: Env): (Db, Next) {
    match st
    case Authenticate(Session(t), req) =>
      (db, if t in db.sessions then Go(Authed(db.sessions[t], req)) else Reply(401))
    case Authenticate(AdminToken, req) => (db, if db.adminHash.Some? then Go(EnterLocal(req)) else Reply(401))
    case EnterLocal(req) => (LocalEnsured(db), Go(Authed(LOCAL_USER, req)))
    case Authed(u, req) => StepAuthed(db, u, req, env)
    case HealUser(u) => (db, if u in db.users then Go(HealCreate(u)) else Reply(200))
    case HealCreate(u) => (OrgCreated(db, env.uuid, u), Reply(200))
    case Found(u, o, req) => (db, CheckWriter(db, u, o, req))
    case RoleOk(u, r, o, req) => StepRoleOk(db, u, r, o, req, env)
    case CredOk(_, _, o, req) => StepCredOk(db, o, req)
    case SignIn => (db.(codes := db.codes[env.uuid := PendingCallback]), Reply(307))
    case Callback(code, u) =>
      (db.(codes := db.codes - {code}),
       if code in db.codes && db.codes[code].PendingCallback? then Go(CallbackUser(u)) else Reply(400))
    case CallbackUser(u) => (db.(users := db.users + {u}), Go(CallbackCode(u)))
    case CallbackCode(u) => (db.(codes := db.codes[env.uuid := GrantedTo(u)]), Reply(303))
    case Exchange(code) =>
      (db.(codes := db.codes - {code}),
       if code !in db.codes then Reply(400)
       else if db.codes[code].PendingCallback? then Reply(500)
       else Go(ExchangeSession(db.codes[code].user)))
    case ExchangeSession(u) =>
      if u in db.users then (db.(sessions := db.sessions[env.uuid := u]), Go(ExchangeOrgs(u))) else (db, Reply(500))
    case ExchangeOrgs(u) => (db, if HasOrgs(db, u) then Reply(200) else Go(ExchangeCreate(u)))
    case ExchangeCreate(u) => (OrgCreated(db, env.uuid, u), Reply(200))
    case Setup(hash) =>
      (db,
       if db.adminHash.Some? then Reply(409) else if Blank(hash) then Reply(400) else Go(SetupStore(hash)))
    case SetupStore(hash) => (db.(adminHash := Some(hash)), Go(SetupLocal))
    case SetupLocal => (LocalEnsured(db), Reply(200))
  }

  // ---------------------------------------------------------------- runs

  /** `minted` are the UUIDs handed out so far, with the two fixed names. */
  datatype State = State(db: Db, active: map<nat, Stage>, minted: set<string>)

  datatype Event = Begin(pid: nat, stage: Stage) | Run(pid: nat, env: Env)

  function Init(): State {
    State(Db({}, {}, map[], map[], map[], 1, map[], 1, map[], map[], None), map[], {LOCAL_ORG, LOCAL_USER})
  }

  predicate Enabled(s: State, e: Event) {
    match e
    case Begin(p, st) => p !in s.active && Initial(st)
    case Run(p, env) => p in s.active && env.uuid !in s.minted
  }

  function Apply(s: State, e: Event): State
    requires Enabled(s, e)
  {
    match e
    case Begin(p, st) => s.(active := s.active[p := st])
    case Run(p, env) =>
      var (db, next) := Step(s.db, s.active[p], env);
      State(db, if next.Go? then s.active[p := next.stage] else s.active - {p}, s.minted + {env.uuid})
  }

  predicate Legal(es: seq<Event>)
    decreases |es|, 0
  {
    es == [] || (Legal(es[..|es| - 1]) && Enabled(After(es[..|es| - 1]), es[|es| - 1]))
  }

  function After(es: seq<Event>): State
    requires Legal(es)
    decreases |es|, 1
  {
    if es == [] then Init() else Apply(After(es[..|es| - 1]), es[|es| - 1])
  }

  /** Handlers run one after the other. */
  predicate Serial(es: seq<Event>)
    requires Legal(es)
  {
    es == [] || (Serial(es[..|es| - 1]) && (es[|es| - 1].Begin? ==> After(es[..|es| - 1]).active == map[]))
  }

  // ---------------------------------------------------------------- in every interleaving

  ghost predicate MembersOk(members: map<(OrgId, UserId), Role>, orgs: set<OrgId>, users: set<UserId>) {
    forall o: OrgId, u: UserId :: (o, u) in members ==> o in orgs && u in users
  }

  ghost predicate InvitesOk(invites: map<Token, Invite>, orgs: set<OrgId>) {
    forall t :: t in invites ==> invites[t].org in orgs && invites[t].role != Owner
  }

  /** A reference to a credential id that has been given out, and whose credential, while it
      exists, belongs to the org. */
  predicate Fits(creds: map<nat, OrgId>, nextCred: nat, o: OrgId, cred: Option<nat>) {
    cred.Some? ==> cred.value < nextCred && (cred.value in creds ==> creds[cred.value] == o)
  }

  ghost predicate ConnsOk(conns: map<nat, Connection>, nextConn: nat, creds: map<nat, OrgId>, nextCred: nat) {
    forall c :: c in conns ==> c < nextConn && Fits(creds, nextCred, conns[c].org, conns[c].cred)
  }

  ghost predicate CredsOk(creds: map<nat, OrgId>, nextCred: nat) {
    forall k :: k in creds ==> k < nextCred
  }

  ghost predicate LoginsOk(codes: map<Token, Grant>, sessions: map<Token, UserId>, users: set<UserId>) {
    && (forall t :: t in sessions ==> sessions[t] in users)
    && (forall t :: t in codes && codes[t].GrantedTo? ==> codes[t].user in users)
  }

  ghost predicate DbOk(db: Db) {
    && MembersOk(db.members, db.orgs, db.users)
    && InvitesOk(db.invites, db.orgs)
    && ConnsOk(db.conns, db.nextConn, db.creds, db.nextCred)
    && CredsOk(db.creds, db.nextCred)
    && LoginsOk(db.codes, db.sessions, db.users)
  }

  predicate CredFits(db: Db, o: OrgId, cred: Option<nat>) {
    Fits(db.creds, db.nextCred, o, cred)
  }

  /** A request acts on the org it names, or on the org of the row it names. */
  predicate TargetFits(db: Db, o: OrgId, req: Request) {
    && (req.EditConn? || req.DropConn? ==> req.id < db.nextConn && (req.id in db.conns ==> db.conns[req.id].org == o))
    && (req.DropCred? ==> req.id < db.nextCred && (req.id in db.creds ==> db.creds[req.id] == o))
    && (req.DropOrg? || req.InviteTo? || req.ChangeRole? || req.Expel? || req.AddConn? || req.AddCred? ==> req.org == o)
  }

  function CredOf(req: Request): Option<nat> {
    if req.AddConn? || req.EditConn? then req.cred else None
  }

  /** What a handler still knows for sure when it gets the lock again. */
  predicate StageOk(db: Db, st: Stage) {
    match st
    case EnterLocal(_) => true
    case Authed(u, _) => u in db.users
    case HealUser(u) => u in db.users
    case HealCreate(u) => u in db.users
    case Found(u, o, req) => u in db.users && TargetFits(db, o, req)
    case RoleOk(u, _, o, req) => u in db.users && TargetFits(db, o, req)
    case CredOk(u, _, o, req) => u in db.users && TargetFits(db, o, req) && CredFits(db, o, CredOf(req))
    case CallbackCode(u) => u in db.users
    case ExchangeSession(u) => u in db.users
    case ExchangeOrgs(u) => u in db.users
    case ExchangeCreate(u) => u in db.users
    case _ => true
  }

  ghost predicate ConnsLater(conns: map<nat, Connection>, n: nat, conns': map<nat, Connection>, n': nat) {
    n <= n' && forall c :: c < n && c in conns' ==> c in conns && conns'[c].org == conns[c].org
  }

  ghost predicate CredsLater(creds: map<nat, OrgId>, n: nat, creds': map<nat, OrgId>, n': nat) {
    n <= n' && forall k :: k < n && k in creds' ==> k in creds && creds'[k] == creds[k]
  }

  /** What no critical section undoes: users stay, ids below a counter are never given out
      again, and rows never change their org. */
  ghost predicate Later(db: Db, db': Db) {
    && db.users <= db'.users
    && ConnsLater(db.conns, db.nextConn, db'.conns, db'.nextConn)
    && CredsLater(db.creds, db.nextCred, db'.creds, db'.nextCred)
  }

  lemma StageStays(db: Db, db': Db, st: Stage)
    requires StageOk(db, st) && Later(db, db')
    ensures StageOk(db', st)
  {
  }

  lemma OrgCreatedOk(db: Db, o: OrgId, u: UserId)
    requires DbOk(db)
    ensures DbOk(OrgCreated(db, o, u)) && Later(db, OrgCreated(db, o, u))
  {
    var db' := OrgCreated(db, o, u);
    assert MembersOk(db'.members, db'.orgs, db'.users);
    assert InvitesOk(db'.invites, db'.orgs);
  }

  lemma UsersGrowOk(db: Db, u: UserId)
    requires DbOk(db)
    ensures DbOk(db.(users := db.users + {u})) && Later(db, db.(users := db.users + {u}))
  {
    assert MembersOk(db.members, db.orgs, db.users + {u});
    assert LoginsOk(db.codes, db.sessions, db.users + {u});
  }

  lemma LocalEnsuredOk(db: Db)
    requires DbOk(db)
    ensures DbOk(LocalEnsured(db)) && Later(db, LocalEnsured(db))
  {
    UsersGrowOk(db, LOCAL_USER);
    if LOCAL_ORG !in db.orgs {
      OrgCreatedOk(db.(users := db.users + {LOCAL_USER}), LOCAL_ORG, LOCAL_USER);
    }
  }

  lemma DropTablesOk(db: Db, o: OrgId)
    requires DbOk(db)
    ensures DbOk(OrgDeleted(db, o)) && Later(db, OrgDeleted(db, o))
  {
    var db' := OrgDeleted(db, o);
    assert MembersOk(db'.members, db'.orgs, db'.users);
    assert InvitesOk(db'.invites, db'.orgs);
    assert ConnsOk(db'.conns, db'.nextConn, db'.creds, db'.nextCred);
  }

  lemma ConnDeletedOk(db: Db, id: nat)
    requires DbOk(db)
    ensures DbOk(ConnDeleted(db, id)) && Later(db, ConnDeleted(db, id))
  {
  }

  lemma CredCreatedOk(db: Db, o: OrgId)
    requires DbOk(db)
    ensures DbOk(CredCreated(db, o)) && Later(db, CredCreated(db, o))
  {
  }

  lemma CredDeletedOk(db: Db, id: nat)
    requires DbOk(db)
    ensures DbOk(CredDeleted(db, id)) && Later(db, CredDeleted(db, id))
  {
  }

  lemma MemberTablesOk(db: Db, o: OrgId, u: UserId, r: Role)
    requires DbOk(db)
    ensures DbOk(RoleSet(db, o, u, r)) && Later(db, RoleSet(db, o, u, r))
    ensures DbOk(MemberRemoved(db, o, u)) && Later(db, MemberRemoved(db, o, u))
  {
  }

  lemma InviteCreatedOk(db: Db, t: Token, o: OrgId, u: UserId, r: Role, expires: int)
    requires DbOk(db)
    ensures DbOk(InviteCreated(db, t, o, r, u, expires)) && Later(db, InviteCreated(db, t, o, r, u, expires))
  {
  }

  lemma InviteRedeemedOk(db: Db, t: Token, u: UserId, now: int)
    requires DbOk(db)
    ensures DbOk(InviteRedeemed(db, t, u, now)) && Later(db, InviteRedeemed(db, t, u, now))
  {
  }

  lemma StepAuthedDb(db: Db, u: UserId, req: Request, env: Env)
    requires DbOk(db) && u in db.users
    ensures DbOk(StepAuthed(db, u, req, env).0) && Later(db, StepAuthed(db, u, req, env).0)
  {
    OrgCreatedOk(db, env.uuid, u);
    if req.Accept? {
      InviteRedeemedOk(db, req.token, u, env.now);
    }
  }

  lemma StepRoleOkDb(db: Db, u: UserId, r: Role, o: OrgId, req: Request, env: Env)
    requires DbOk(db) && StageOk(db, RoleOk(u, r, o, req))
    ensures DbOk(StepRoleOk(db, u, r, o, req, env).0) && Later(db, StepRoleOk(db, u, r, o, req, env).0)
  {
    match req
    case DropOrg(_) => DropTablesOk(db, o);
    case InviteTo(_, role, expires) =>
      InviteCreatedOk(db, env.uuid, o, u, if role.Some? then role.value else Viewer, expires);
    case ChangeRole(_, target, role) => MemberTablesOk(db, o, target, if role.Some? then role.value else Viewer);
    case Expel(_, target) => MemberTablesOk(db, o, target, Viewer);
    case DropConn(id) => ConnDeletedOk(db, id);
    case AddCred(_) => CredCreatedOk(db, o);
    case DropCred(id) => CredDeletedOk(db, id);
    case _ =>
  }

  lemma ConnCreatedOk(db: Db, o: OrgId, cred: Option<nat>)
    requires DbOk(db) && CredFits(db, o, cred)
    ensures DbOk(ConnCreated(db, o, cred)) && Later(db, ConnCreated(db, o, cred))
  {
  }

  lemma ConnUpdatedOk(db: Db, id: nat, cred: Option<nat>)
    requires DbOk(db) && (id in db.conns ==> CredFits(db, db.conns[id].org, cred))
    ensures DbOk(ConnUpdated(db, id, cred)) && Later(db, ConnUpdated(db, id, cred))
  {
  }

  lemma StepCredOkDb(db: Db, o: OrgId, req: Request)
    requires DbOk(db) && TargetFits(db, o, req) && CredFits(db, o, CredOf(req))
    ensures DbOk(StepCredOk(db, o, req).0) && Later(db, StepCredOk(db, o, req).0)
  {
    match req
    case AddConn(_, cred) => ConnCreatedOk(db, o, cred);
    case EditConn(id, cred) => ConnUpdatedOk(db, id, cred);
    case _ =>
  }

  lemma StepDb(db: Db, st: Stage, env: Env)
    requires DbOk(db) && StageOk(db, st)
    ensures DbOk(Step(db, st, env).0) && Later(db, Step(db, st, env).0)
  {
    match st
    case Authed(u, req) => StepAuthedDb(db, u, req, env);
    case RoleOk(u, r, o, req) => StepRoleOkDb(db, u, r, o, req, env);
    case CredOk(_, _, o, req) => StepCredOkDb(db, o, req);
    case HealCreate(u) => OrgCreatedOk(db, env.uuid, u);
    case ExchangeCreate(u) => OrgCreatedOk(db, env.uuid, u);
    case EnterLocal(_) => LocalEnsuredOk(db);
    case SetupLocal => LocalEnsuredOk(db);
    case CallbackUser(u) => UsersGrowOk(db, u);
    case _ =>
  }

  lemma AuthedStage(db: Db, u: UserId, req: Request, env: Env)
    requires DbOk(db) && u in db.users
    ensures
      var (db', next) := StepAuthed(db, u, req, env);
      next.Go? ==> StageOk(db', next.stage)
  {
  }

  lemma RoleOkStage(db: Db, u: UserId, r: Role, o: OrgId, req: Request, env: Env)
    requires DbOk(db) && StageOk(db, RoleOk(u, r, o, req))
    ensures
      var (db', next) := StepRoleOk(db, u, r, o, req, env);
      next.Go? ==> StageOk(db', next.stage)
  {
  }

  lemma StepStage(db: Db, st: Stage, env: Env)
    requires DbOk(db) && StageOk(db, st)
    ensures Step(db, st, env).1.Go? ==> StageOk(Step(db, st, env).0, Step(db, st, env).1.stage)
  {
    match st
    case Authed(u, req) => AuthedStage(db, u, req, env);
    case RoleOk(u, r, o, req) => RoleOkStage(db, u, r, o, req, env);
    case _ =>
  }

  ghost predicate Inv(s: State) {
    DbOk(s.db) && forall p :: p in s.active ==> StageOk(s.db, s.active[p])
  }

  lemma EventKeeps(s: State, e: Event)
    requires Inv(s) && Enabled(s, e)
    ensures Inv(Apply(s, e))
  {
    if e.Run? {
      var s' := Apply(s, e);
      StepDb(s.db, s.active[e.pid], e.env);
      StepStage(s.db, s.active[e.pid], e.env);
      forall p | p in s'.active ensures StageOk(s'.db, s'.active[p]) {
        if p != e.pid {
          StageStays(s.db, s'.db, s.active[p]);
        }
      }
    }
  }

  lemma {:induction false} RunKeeps(es: seq<Event>)
    requires Legal(es)
    ensures Inv(After(es))
  {
    if es != [] {
      RunKeeps(es[..|es| - 1]);
      EventKeeps(After(es[..|es| - 1]), es[|es| - 1]);
    }
  }

  /** Under every interleaving, a connection that names a credential that still exists is in
      the credential's org. */
  lemma CredentialsStayInTheirOrg(es: seq<Event>, c: nat, k: nat)
    requires Legal(es)
    requires c in After(es).db.conns && After(es).db.conns[c].cred == Some(k) && k in After(es).db.creds
    ensures After(es).db.creds[k] == After(es).db.conns[c].org
  {
    RunKeeps(es);
  }

  // ---------------------------------------------------------------- one org at a time

  function InviteIn(db: Db, t: Token, x: OrgId): Option<Invite> {
    if t in db.invites && db.invites[t].org == x then Some(db.invites[t]) else None
  }

  function ConnIn(db: Db, c: nat, x: OrgId): Option<Connection> {
    if c in db.conns && db.conns[c].org == x then Some(db.conns[c]) else None
  }

  function RoleIn(db: Db, x: OrgId, u: UserId): Option<Role> {
    if (x, u) in db.members then Some(db.members[(x, u)]) else None
  }

  predicate CredIn(db: Db, k: nat, x: OrgId) {
    k in db.creds && db.creds[k] == x
  }

  /** The rows of org `x` are the same in both. */
  ghost predicate SameRows(db: Db, db': Db, x: OrgId) {
    && (x in db.orgs <==> x in db'.orgs)
    && (forall u :: RoleIn(db, x, u) == RoleIn(db', x, u))
    && (forall t :: InviteIn(db, t, x) == InviteIn(db', t, x))
    && (forall c :: ConnIn(db, c, x) == ConnIn(db', c, x))
    && (forall k :: CredIn(db, k, x) <==> CredIn(db', k, x))
  }

  predicate Checked(st: Stage) {
    st.RoleOk? || st.CredOk?
  }

  /** The org a critical section may change, if there is one. */
  function OrgOf(db: Db, st: Stage, env: Env): Option<OrgId> {
    match st
    case Authed(_, NewOrg) => Some(env.uuid)
    case Authed(_, Accept(t)) => if t in db.invites then Some(db.invites[t].org) else None
    case RoleOk(_, _, o, _) => Some(o)
    case CredOk(_, _, o, _) => Some(o)
    case HealCreate(_) => Some(env.uuid)
    case ExchangeCreate(_) => Some(env.uuid)
    case EnterLocal(_) => Some(LOCAL_ORG)
    case SetupLocal => Some(LOCAL_ORG)
    case _ => None
  }

  lemma StepAuthedElsewhere(db: Db, u: UserId, req: Request, env: Env, x: OrgId)
    requires OrgOf(db, Authed(u, req), env) != Some(x)
    ensures SameRows(db, StepAuthed(db, u, req, env).0, x)
  {
  }

  lemma OrgCreatedElsewhere(db: Db, o: OrgId, u: UserId, x: OrgId)
    requires o != x
    ensures SameRows(db, OrgCreated(db, o, u), x)
  {
  }

  lemma OrgDeletedElsewhere(db: Db, o: OrgId, x: OrgId)
    requires o != x
    ensures SameRows(db, OrgDeleted(db, o), x)
  {
  }

  lemma RoleSetElsewhere(db: Db, o: OrgId, u: UserId, r: Role, x: OrgId)
    requires o != x
    ensures SameRows(db, RoleSet(db, o, u, r), x)
  {
  }

  lemma MemberRemovedElsewhere(db: Db, o: OrgId, u: UserId, x: OrgId)
    requires o != x
    ensures SameRows(db, MemberRemoved(db, o, u), x)
  {
  }

  lemma InviteCreatedElsewhere(db: Db, t: Token, o: OrgId, r: Role, u: UserId, expires: int, x: OrgId)
    requires o != x && t !in db.invites
    ensures SameRows(db, InviteCreated(db, t, o, r, u, expires), x)
  {
  }

  lemma ConnDeletedElsewhere(db: Db, id: nat, x: OrgId)
    requires id in db.conns ==> db.conns[id].org != x
    ensures SameRows(db, ConnDeleted(db, id), x)
  {
  }

  lemma CredDeletedElsewhere(db: Db, id: nat, x: OrgId)
    requires id in db.creds ==> db.creds[id] != x
    ensures SameRows(db, CredDeleted(db, id), x)
  {
  }

  lemma CredCreatedElsewhere(db: Db, o: OrgId, x: OrgId)
    requires DbOk(db) && o != x
    ensures SameRows(db, CredCreated(db, o), x)
  {
  }

  lemma StepRoleOkElsewhere(db: Db, u: UserId, r: Role, o: OrgId, req: Request, env: Env, x: OrgId)
    requires DbOk(db) && TargetFits(db, o, req) && o != x && env.uuid !in db.invites
    ensures SameRows(db, StepRoleOk(db, u, r, o, req, env).0, x)
  {
    match req
    case DropOrg(_) => OrgDeletedElsewhere(db, o, x);
    case InviteTo(_, role, expires) =>
      InviteCreatedElsewhere(db, env.uuid, o, if role.Some? then role.value else Viewer, u, expires, x);
    case ChangeRole(_, target, role) => RoleSetElsewhere(db, o, target, if role.Some? then role.value else Viewer, x);
    case Expel(_, target) => MemberRemovedElsewhere(db, o, target, x);
    case DropConn(id) => ConnDeletedElsewhere(db, id, x);
    case DropCred(id) => CredDeletedElsewhere(db, id, x);
    case AddCred(_) => CredCreatedElsewhere(db, o, x);
    case _ =>
  }

  lemma StepCredOkElsewhere(db: Db, o: OrgId, req: Request, x: OrgId)
    requires DbOk(db) && TargetFits(db, o, req) && o != x
    ensures SameRows(db, StepCredOk(db, o, req).0, x)
  {
  }

  lemma LocalEnsuredElsewhere(db: Db, x: OrgId)
    requires x != LOCAL_ORG
    ensures SameRows(db, LocalEnsured(db), x)
  {
    if LOCAL_ORG !in db.orgs {
      var db1 := db.(users := db.users + {LOCAL_USER});
      OrgCreatedElsewhere(db1, LOCAL_ORG, LOCAL_USER, x);
      assert LocalEnsured(db) == OrgCreated(db1, LOCAL_ORG, LOCAL_USER);
    }
  }

  /** The stages that belong to no org. */
  predicate Quiet(st: Stage) {
    !st.Authed? && !Checked(st) && !st.HealCreate? && !st.ExchangeCreate? && !st.EnterLocal? && !st.SetupLocal?
  }

  predicate SameTables(db: Db, db': Db) {
    && db'.orgs == db.orgs && db'.members == db.members && db'.invites == db.invites
    && db'.conns == db.conns && db'.creds == db.creds
  }

  lemma QuietStages(db: Db, st: Stage, env: Env)
    requires Quiet(st)
    ensures SameTables(db, Step(db, st, env).0)
  {
  }

  lemma CreatingElsewhere(db: Db, st: Stage, env: Env, x: OrgId)
    requires st.HealCreate? || st.ExchangeCreate? || st.EnterLocal? || st.SetupLocal?
    requires OrgOf(db, st, env) != Some(x)
    ensures SameRows(db, Step(db, st, env).0, x)
  {
    match st
    case HealCreate(u) => OrgCreatedElsewhere(db, env.uuid, u, x);
    case ExchangeCreate(u) => OrgCreatedElsewhere(db, env.uuid, u, x);
    case EnterLocal(_) => LocalEnsuredElsewhere(db, x);
    case SetupLocal => LocalEnsuredElsewhere(db, x);
  }

  lemma CheckedElsewhere(db: Db, st: Stage, env: Env, x: OrgId)
    requires DbOk(db) && StageOk(db, st) && env.uuid !in db.invites && Checked(st) && st.org != x
    ensures SameRows(db, Step(db, st, env).0, x)
  {
    match st
    case RoleOk(u, r, o, req) => StepRoleOkElsewhere(db, u, r, o, req, env, x);
    case CredOk(_, _, o, req) => StepCredOkElsewhere(db, o, req, x);
  }

  lemma StepElsewhere(db: Db, st: Stage, env: Env, x: OrgId)
    requires DbOk(db) && StageOk(db, st) && env.uuid !in db.invites && OrgOf(db, st, env) != Some(x)
    ensures SameRows(db, Step(db, st, env).0, x)
  {
    if st.Authed? {
      StepAuthedElsewhere(db, st.actor, st.req, env, x);
    } else if Checked(st) {
      CheckedElsewhere(db, st, env, x);
    } else if Quiet(st) {
      QuietStages(db, st, env);
    } else {
      CreatingElsewhere(db, st, env, x);
    }
  }

  /** In any interleaving a critical section changes the rows of one org at most: the org whose
      role was checked, the invite's, the local one, or a new one. */
  lemma OneOrgPerStep(es: seq<Event>, p: nat, env: Env, x: OrgId)
    requires Legal(es) && Enabled(After(es), Run(p, env))
    requires OrgOf(After(es).db, After(es).active[p], env) != Some(x)
    ensures SameRows(After(es).db, Apply(After(es), Run(p, env)).db, x)
  {
    RunKeeps(es);
    RunMintsAndVets(es);
    StepElsewhere(After(es).db, After(es).active[p], env, x);
  }

  function RankFor(req: Request): nat {
    match req
    case DropOrg(_) => Rank(Owner)
    case InviteTo(_, _, _) => Rank(Admin)
    case ChangeRole(_, _, _) => Rank(Admin)
    case Expel(_, _) => Rank(Admin)
    case _ => Rank(Member)
  }

  /** User `u` had role `r` in org `o` at some point since handler `p` began. */
  ghost predicate HadRole(es: seq<Event>, p: nat, o: OrgId, u: UserId, r: Role)
    requires Legal(es)
  {
    || RoleIn(After(es).db, o, u) == Some(r)
    || (es != [] && !(es[|es| - 1].Begin? && es[|es| - 1].pid == p) && HadRole(es[..|es| - 1], p, o, u, r))
  }

  /** A stage is reached from one with the same actor, role, org and request, or by a check that
      finds the role in the store. */
  lemma StepChecks(db: Db, st: Stage, env: Env)
    requires Vetted(st) && Step(db, st, env).1.Go? && Checked(Step(db, st, env).1.stage)
    ensures
      var next := Step(db, st, env).1.stage;
      || (Checked(st) && (st.actor, st.actorRole, st.org, st.req) == (next.actor, next.actorRole, next.org, next.req))
      || (Step(db, st, env).0 == db && RoleIn(db, next.org, next.actor) == Some(next.actorRole)
        && Rank(next.actorRole) >= RankFor(next.req))
  {
  }

  /** Whoever is about to change an org's rows did have, at some point since the handler began, the
      role that was checked, and that role suffices for the request. */
  lemma {:induction false} ActorsHadTheirRole(es: seq<Event>, p: nat)
    requires Legal(es) && p in After(es).active && Checked(After(es).active[p])
    ensures
      var st := After(es).active[p];
      HadRole(es, p, st.org, st.actor, st.actorRole) && Rank(st.actorRole) >= RankFor(st.req)
  {
    var init, e := es[..|es| - 1], es[|es| - 1];
    if e.Run? && e.pid == p {
      var before := After(init).active[p];
      RunMintsAndVets(init);
      StepChecks(After(init).db, before, e.env);
      if Checked(before) {
        ActorsHadTheirRole(init, p);
      }
    } else {
      ActorsHadTheirRole(init, p);
    }
  }

  // ---------------------------------------------------------------- administrators

  predicate Administers(members: map<(OrgId, UserId), Role>, o: OrgId, u: UserId) {
    (o, u) in members && Rank(members[(o, u)]) >= Rank(Admin)
  }

  ghost predicate HasAdmin(members: map<(OrgId, UserId), Role>, o: OrgId) {
    exists u :: Administers(members, o, u)
  }

  ghost predicate AllHaveAdmin(db: Db) {
    forall o :: o in db.orgs ==> HasAdmin(db.members, o)
  }

  /** What the checks after `require_role` settle for good: they do not depend on the store. */
  predicate Vetted(st: Stage) {
    && (st.Found? ==> st.req.EditConn? || st.req.DropConn? || st.req.DropCred?)
    && (st.RoleOk? ==>
      && (st.req.ChangeRole? || st.req.Expel? ==>
            st.org == st.req.org && st.actor != st.req.target && Rank(st.actorRole) >= Rank(Admin))
      && (st.req.ChangeRole? && st.req.role == Some(Owner) ==> st.actorRole == Owner))
  }

  /** What they found in the store, true as long as nobody else has had the lock. */
  predicate StillTrue(db: Db, st: Stage) {
    st.RoleOk? ==> (st.org, st.actor) in db.members && db.members[(st.org, st.actor)] == st.actorRole
  }

  /** The stage changes or ends somebody's membership. */
  predicate WritesRole(st: Stage) {
    st.RoleOk? && (st.req.ChangeRole? || st.req.Expel?)
  }

  predicate WriterAdministers(db: Db, st: Stage) {
    WritesRole(st) ==> Administers(db.members, st.org, st.actor)
  }

  lemma StepVetted(db: Db, st: Stage, env: Env)
    requires Vetted(st)
    ensures
      var (db', next) := Step(db, st, env);
      next.Go? ==> Vetted(next.stage) && StillTrue(db', next.stage)
  {
  }

  lemma KeptByActor(
    members: map<(OrgId, UserId), Role>, members': map<(OrgId, UserId), Role>, orgs: set<OrgId>, o: OrgId,
    target: UserId, actor: UserId)
    requires forall x :: x in orgs ==> HasAdmin(members, x)
    requires Administers(members, o, actor) && actor != target
    requires forall x: OrgId, u: UserId :: (x, u) != (o, target) && (x, u) in members ==>
      (x, u) in members' && members'[(x, u)] == members[(x, u)]
    ensures forall x :: x in orgs ==> HasAdmin(members', x)
  {
    forall x | x in orgs ensures HasAdmin(members', x) {
      var u :| Administers(members, x, u);
      assert Administers(members', x, if x == o then actor else u);
    }
  }

  lemma KeptByAll(members: map<(OrgId, UserId), Role>, members': map<(OrgId, UserId), Role>, orgs: set<OrgId>)
    requires forall x :: x in orgs ==> HasAdmin(members, x)
    requires forall x: OrgId, u: UserId :: x in orgs && (x, u) in members ==>
      (x, u) in members' && members'[(x, u)] == members[(x, u)]
    ensures forall x :: x in orgs ==> HasAdmin(members', x)
  {
    forall x | x in orgs ensures HasAdmin(members', x) {
      var u :| Administers(members, x, u);
      assert Administers(members', x, u);
    }
  }

  lemma CreatedHasAdmin(db: Db, o: OrgId, u: UserId)
    requires AllHaveAdmin(db) && u in db.users
    ensures AllHaveAdmin(OrgCreated(db, o, u))
  {
    var db' := OrgCreated(db, o, u);
    forall x | x in db'.orgs ensures HasAdmin(db'.members, x) {
      if x == o {
        assert Administers(db'.members, o, u);
      } else {
        var v :| Administers(db.members, x, v);
        assert Administers(db'.members, x, v);
      }
    }
  }

  lemma LocalHasAdmin(db: Db)
    requires AllHaveAdmin(db)
    ensures AllHaveAdmin(LocalEnsured(db))
  {
    if LOCAL_ORG !in db.orgs {
      CreatedHasAdmin(db.(users := db.users + {LOCAL_USER}), LOCAL_ORG, LOCAL_USER);
    }
  }

  lemma AuthedHasAdmin(db: Db, u: UserId, req: Request, env: Env)
    requires AllHaveAdmin(db) && u in db.users
    ensures AllHaveAdmin(StepAuthed(db, u, req, env).0)
  {
    if req.NewOrg? {
      CreatedHasAdmin(db, env.uuid, u);
    } else {
      var db' := StepAuthed(db, u, req, env).0;
      KeptByAll(db.members, db'.members, db.orgs);
    }
  }

  lemma RoleOkHasAdmin(db: Db, st: Stage, env: Env)
    requires st.RoleOk? && AllHaveAdmin(db) && Vetted(st) && WriterAdministers(db, st)
    ensures AllHaveAdmin(StepRoleOk(db, st.actor, st.actorRole, st.org, st.req, env).0)
  {
    var db' := StepRoleOk(db, st.actor, st.actorRole, st.org, st.req, env).0;
    if st.req.ChangeRole? || st.req.Expel? {
      KeptByActor(db.members, db'.members, db.orgs, st.org, st.req.target, st.actor);
    } else {
      KeptByAll(db.members, db'.members, db'.orgs);
    }
  }

  /** A critical section leaves every org an admin if a change of membership is made by somebody
      who administers the org. */
  lemma StepHasAdmin(db: Db, st: Stage, env: Env)
    requires StageOk(db, st) && AllHaveAdmin(db)
    requires Vetted(st) && WriterAdministers(db, st)
    ensures AllHaveAdmin(Step(db, st, env).0)
  {
    match st
    case Authed(u, req) => AuthedHasAdmin(db, u, req, env);
    case RoleOk(_, _, _, _) => RoleOkHasAdmin(db, st, env);
    case HealCreate(u) => CreatedHasAdmin(db, env.uuid, u);
    case ExchangeCreate(u) => CreatedHasAdmin(db, env.uuid, u);
    case EnterLocal(_) => LocalHasAdmin(db);
    case SetupLocal => LocalHasAdmin(db);
    case _ =>
  }

  ghost predicate AtMostOne(active: map<nat, Stage>) {
    forall p, q :: p in active && q in active ==> p == q
  }

  ghost predicate SerialInv(s: State) {
    && AllHaveAdmin(s.db) && AtMostOne(s.active)
    && forall p :: p in s.active ==> Vetted(s.active[p]) && StillTrue(s.db, s.active[p])
  }

  lemma {:induction false} SerialKeeps(es: seq<Event>)
    requires Legal(es) && Serial(es)
    ensures SerialInv(After(es))
  {
    if es != [] {
      var s, e := After(es[..|es| - 1]), es[|es| - 1];
      SerialKeeps(es[..|es| - 1]);
      RunKeeps(es[..|es| - 1]);
      if e.Run? {
        StepHasAdmin(s.db, s.active[e.pid], e.env);
        StepVetted(s.db, s.active[e.pid], e.env);
      }
    }
  }

  /** When handlers are serial, every org always has a member of rank admin or higher. */
  lemma EveryOrgKeepsAnAdmin(es: seq<Event>, o: OrgId)
    requires Legal(es) && Serial(es) && o in After(es).db.orgs
    ensures exists u :: Administers(After(es).db.members, o, u)
  {
    SerialKeeps(es);
  }

  /** In the run, whoever changed or ended a membership was still an administrator then. */
  predicate WritersAdminister(es: seq<Event>)
    requires Legal(es)
  {
    es == []
    || (var init, e := es[..|es| - 1], es[|es| - 1];
        WritersAdminister(init) && (e.Run? ==> WriterAdministers(After(init).db, After(init).active[e.pid])))
  }

  /** And so in every interleaving in which that is so. */
  lemma {:induction false} AdministeredRunsKeepAdmins(es: seq<Event>)
    requires Legal(es) && WritersAdminister(es)
    ensures AllHaveAdmin(After(es).db)
  {
    if es != [] {
      var init, e := es[..|es| - 1], es[|es| - 1];
      AdministeredRunsKeepAdmins(init);
      RunKeeps(init);
      RunMintsAndVets(init);
      if e.Run? {
        StepHasAdmin(After(init).db, After(init).active[e.pid], e.env);
      }
    }
  }

  // When an org loses its last administrator.

  /** The membership change takes administration away from its target. */
  predicate Demotes(st: Stage, o: OrgId) {
    WritesRole(st) && st.org == o && (st.req.Expel? || (st.req.role.Some? && Rank(st.req.role.value) < Rank(Admin)))
  }

  ghost predicate OnlyAdmin(members: map<(OrgId, UserId), Role>, o: OrgId, target: UserId) {
    forall u :: Administers(members, o, u) ==> u == target
  }

  /** An org that is there before and after keeps its roles through everything but a change of
      membership. */
  lemma StepKeepsRoles(db: Db, st: Stage, env: Env, o: OrgId, u: UserId)
    requires DbOk(db) && StageOk(db, st) && env.uuid !in db.orgs && env.uuid !in db.invites
    requires o in db.orgs && o in Step(db, st, env).0.orgs && RoleIn(db, o, u).Some?
    requires !(WritesRole(st) && st.org == o)
    ensures RoleIn(Step(db, st, env).0, o, u) == RoleIn(db, o, u)
  {
    if OrgOf(db, st, env) != Some(o) {
      StepElsewhere(db, st, env, o);
    } else {
      match st
      case Authed(v, req) => RedeemAddsOneMember(db, req.token, v, env.now, o, u);
      case _ =>
    }
  }

  lemma LostIff(members: map<(OrgId, UserId), Role>, members': map<(OrgId, UserId), Role>, o: OrgId, target: UserId)
    requires forall u :: u != target ==> (Administers(members', o, u) <==> Administers(members, o, u))
    requires !Administers(members', o, target)
    ensures !HasAdmin(members', o) <==> OnlyAdmin(members, o, target)
  {
  }

  lemma DemotionIff(db: Db, st: Stage, env: Env, o: OrgId)
    requires Demotes(st, o) && TargetFits(db, st.org, st.req)
    ensures !HasAdmin(Step(db, st, env).0.members, o) <==> OnlyAdmin(db.members, o, st.req.target)
  {
    LostIff(db.members, Step(db, st, env).0.members, o, st.req.target);
  }

  lemma NoDemotion(db: Db, st: Stage, env: Env, o: OrgId, u: UserId)
    requires DbOk(db) && StageOk(db, st) && env.uuid !in db.orgs && env.uuid !in db.invites
    requires o in db.orgs && o in Step(db, st, env).0.orgs && Administers(db.members, o, u)
    requires !Demotes(st, o)
    ensures Administers(Step(db, st, env).0.members, o, u)
  {
    if !(WritesRole(st) && st.org == o) {
      StepKeepsRoles(db, st, env, o, u);
    }
  }

  /** In any interleaving, an org loses its last administrator exactly when a change of membership
      demotes or removes the only one it has; the actor of that change is then no administrator
      any more. */
  lemma AdminLostIff(es: seq<Event>, p: nat, env: Env, o: OrgId)
    requires Legal(es) && Enabled(After(es), Run(p, env))
    requires o in After(es).db.orgs && HasAdmin(After(es).db.members, o)
    requires o in Apply(After(es), Run(p, env)).db.orgs
    ensures
      var db, st, db' := After(es).db, After(es).active[p], Apply(After(es), Run(p, env)).db;
      && (!HasAdmin(db'.members, o) <==> Demotes(st, o) && OnlyAdmin(db.members, o, st.req.target))
      && (!HasAdmin(db'.members, o) ==> !Administers(db.members, o, st.actor))
  {
    RunKeeps(es);
    RunMintsAndVets(es);
    var db, st := After(es).db, After(es).active[p];
    if Demotes(st, o) {
      DemotionIff(db, st, env, o);
    } else {
      var u :| Administers(db.members, o, u);
      NoDemotion(db, st, env, o, u);
    }
  }

  lemma Extend(es: seq<Event>, e: Event)
    requires Legal(es) && Enabled(After(es), e)
    ensures Legal(es + [e]) && After(es + [e]) == Apply(After(es), e)
  {
    assert (es + [e])[..|es|] == es;
  }

  // ---------------------------------------------------------------- owners and invites

  predicate Owns(db: Db, o: OrgId, u: UserId) {
    (o, u) in db.members && db.members[(o, u)] == Owner
  }

  ghost predicate MintedOk(s: State) {
    LOCAL_ORG in s.minted && s.db.orgs <= s.minted && s.db.invites.Keys <= s.minted
  }

  lemma StepAuthedMints(db: Db, u: UserId, req: Request, env: Env)
    ensures StepAuthed(db, u, req, env).0.orgs <= db.orgs + {env.uuid}
    ensures StepAuthed(db, u, req, env).0.invites.Keys == db.invites.Keys
  {
  }

  lemma StepRoleOkMints(db: Db, u: UserId, r: Role, o: OrgId, req: Request, env: Env)
    ensures StepRoleOk(db, u, r, o, req, env).0.orgs <= db.orgs
    ensures StepRoleOk(db, u, r, o, req, env).0.invites.Keys <= db.invites.Keys + {env.uuid}
  {
  }

  /** Only new UUIDs and the local org's id become orgs. */
  lemma StepMintsOrg(db: Db, st: Stage, env: Env, x: OrgId)
    requires x in Step(db, st, env).0.orgs
    ensures x in db.orgs || x == env.uuid || x == LOCAL_ORG
  {
    match st
    case Authed(u, req) => StepAuthedMints(db, u, req, env);
    case RoleOk(u, r, o, req) => StepRoleOkMints(db, u, r, o, req, env);
    case CredOk(_, _, _, _) =>
    case _ =>
      if Quiet(st) {
        QuietStages(db, st, env);
      } else {
        CreatingMints(db, st, env);
      }
  }

  lemma CreatingMints(db: Db, st: Stage, env: Env)
    requires st.HealCreate? || st.ExchangeCreate? || st.EnterLocal? || st.SetupLocal?
    ensures Step(db, st, env).0.orgs <= db.orgs + {env.uuid, LOCAL_ORG}
  {
  }

  lemma StepMintsInvite(db: Db, st: Stage, env: Env, t: Token)
    requires t in Step(db, st, env).0.invites
    ensures t in db.invites || t == env.uuid
  {
    match st
    case Authed(u, req) => StepAuthedMints(db, u, req, env);
    case RoleOk(u, r, o, req) => StepRoleOkMints(db, u, r, o, req, env);
    case _ =>
  }

  lemma StepMints(db: Db, st: Stage, env: Env, minted: set<string>)
    requires LOCAL_ORG in minted && db.orgs <= minted && db.invites.Keys <= minted
    ensures Step(db, st, env).0.orgs <= minted + {env.uuid} && Step(db, st, env).0.invites.Keys <= minted + {env.uuid}
  {
    var db' := Step(db, st, env).0;
    forall x | x in db'.orgs ensures x in minted + {env.uuid} {
      StepMintsOrg(db, st, env, x);
    }
    forall t | t in db'.invites ensures t in minted + {env.uuid} {
      StepMintsInvite(db, st, env, t);
    }
  }

  lemma {:induction false} RunMintsAndVets(es: seq<Event>)
    requires Legal(es)
    ensures MintedOk(After(es)) && forall p :: p in After(es).active ==> Vetted(After(es).active[p])
  {
    if es != [] {
      var s, e := After(es[..|es| - 1]), es[|es| - 1];
      RunMintsAndVets(es[..|es| - 1]);
      if e.Run? {
        StepMints(s.db, s.active[e.pid], e.env, s.minted);
        StepVetted(s.db, s.active[e.pid], e.env);
      }
    }
  }

  lemma StepAuthedOwners(db: Db, u: UserId, req: Request, env: Env, o: OrgId, v: UserId)
    requires DbOk(db) && env.uuid !in db.orgs && o in db.orgs && !Owns(db, o, v)
    ensures !Owns(StepAuthed(db, u, req, env).0, o, v)
  {
  }

  lemma StepRoleOkOwners(db: Db, u: UserId, r: Role, o: OrgId, req: Request, env: Env, x: OrgId, v: UserId)
    requires !Owns(db, x, v) && Owns(StepRoleOk(db, u, r, o, req, env).0, x, v)
    ensures x == o && req.ChangeRole? && req.target == v && req.role == Some(Owner)
  {
  }

  /** An org that is there gets no owner from the creation of one. */
  lemma CreatingOwners(db: Db, st: Stage, env: Env, o: OrgId, v: UserId)
    requires st.HealCreate? || st.ExchangeCreate? || st.EnterLocal? || st.SetupLocal?
    requires env.uuid !in db.orgs && o in db.orgs
    ensures Owns(Step(db, st, env).0, o, v) <==> Owns(db, o, v)
  {
  }

  lemma StepOwners(db: Db, st: Stage, env: Env, o: OrgId, v: UserId)
    requires DbOk(db) && Vetted(st) && env.uuid !in db.orgs
    requires o in db.orgs && !Owns(db, o, v) && Owns(Step(db, st, env).0, o, v)
    ensures st.RoleOk? && st.actorRole == Owner && st.org == o && st.req == ChangeRole(o, v, Some(Owner))
      && v != st.actor
  {
    match st
    case Authed(u, req) => StepAuthedOwners(db, u, req, env, o, v);
    case RoleOk(u, r, x, req) => StepRoleOkOwners(db, u, r, x, req, env, o, v);
    case CredOk(_, _, _, _) =>
    case _ =>
      if Quiet(st) {
        QuietStages(db, st, env);
      } else {
        CreatingOwners(db, st, env, o, v);
      }
  }

  /** In any interleaving, the only thing that gives an existing org a new owner is a role
      change to owner, by somebody else who was an owner when the role was checked. */
  lemma OnlyOwnersMakeOwners(es: seq<Event>, p: nat, env: Env, o: OrgId, v: UserId)
    requires Legal(es) && Enabled(After(es), Run(p, env))
    requires o in After(es).db.orgs && !Owns(After(es).db, o, v) && Owns(Apply(After(es), Run(p, env)).db, o, v)
    ensures
      var st := After(es).active[p];
      st.RoleOk? && st.actorRole == Owner && st.org == o && st.req == ChangeRole(o, v, Some(Owner)) && v != st.actor
  {
    RunKeeps(es);
    RunMintsAndVets(es);
    StepOwners(After(es).db, After(es).active[p], env, o, v);
  }

  predicate MakesOwner(st: Stage, o: OrgId, v: UserId) {
    st.RoleOk? && st.org == o && st.req == ChangeRole(o, v, Some(Owner))
  }

  lemma ChangeMakesOwner(db: Db, st: Stage, env: Env, o: OrgId, v: UserId)
    requires MakesOwner(st, o, v)
    ensures Owns(Step(db, st, env).0, o, v) <==> (o, v) in db.members
  {
  }

  /** In any interleaving, an existing org gets a new owner exactly when such a role change finds a
      member.  If its actor is no owner then, it was one when checked, since the handler began. */
  lemma OwnerMadeIff(es: seq<Event>, p: nat, env: Env, o: OrgId, v: UserId)
    requires Legal(es) && Enabled(After(es), Run(p, env))
    requires o in After(es).db.orgs && !Owns(After(es).db, o, v)
    ensures
      var db, st := After(es).db, After(es).active[p];
      && (Owns(Apply(After(es), Run(p, env)).db, o, v) <==> MakesOwner(st, o, v) && (o, v) in db.members)
      && (MakesOwner(st, o, v) ==> st.actorRole == Owner && HadRole(es, p, o, st.actor, Owner))
  {
    var db, st := After(es).db, After(es).active[p];
    RunMintsAndVets(es);
    if MakesOwner(st, o, v) {
      ChangeMakesOwner(db, st, env, o, v);
      ActorsHadTheirRole(es, p);
    } else if Owns(Apply(After(es), Run(p, env)).db, o, v) {
      OnlyOwnersMakeOwners(es, p, env, o, v);
    }
  }

  /** With serial handlers that somebody is an owner at the very moment of the change. */
  lemma SerialOwnersMakeOwners(es: seq<Event>, p: nat, env: Env, o: OrgId, v: UserId)
    requires Legal(es) && Serial(es) && Enabled(After(es), Run(p, env))
    requires o in After(es).db.orgs && !Owns(After(es).db, o, v) && Owns(Apply(After(es), Run(p, env)).db, o, v)
    ensures After(es).active[p].RoleOk? && Owns(After(es).db, o, After(es).active[p].actor)
  {
    OnlyOwnersMakeOwners(es, p, env, o, v);
    SerialKeeps(es);
  }

  /** The event is a redemption of `t` that succeeds. */
  predicate Redeems(s: State, e: Event, t: Token) {
    && e.Run? && e.pid in s.active && s.active[e.pid].Authed? && s.active[e.pid].req == Accept(t)
    && Redeemable(s.db, t, s.active[e.pid].actor, e.env.now)
  }

  function Redemptions(es: seq<Event>, t: Token): nat
    requires Legal(es)
  {
    if es == [] then 0
    else Redemptions(es[..|es| - 1], t) + if Redeems(After(es[..|es| - 1]), es[|es| - 1], t) then 1 else 0
  }

  predicate Spent(s: State, t: Token) {
    t in s.minted && (t in s.db.invites ==> s.db.invites[t].usedBy.Some?)
  }

  lemma StepAuthedSpends(db: Db, u: UserId, req: Request, env: Env, t: Token)
    ensures
      var invites := StepAuthed(db, u, req, env).0.invites;
      && (t in invites ==> t in db.invites && (db.invites[t].usedBy.Some? ==> invites[t].usedBy.Some?))
      && (req == Accept(t) && Redeemable(db, t, u, env.now) ==> t in invites && invites[t].usedBy.Some?)
  {
  }

  lemma StepRoleOkSpends(db: Db, u: UserId, r: Role, o: OrgId, req: Request, env: Env, t: Token)
    requires t != env.uuid
    ensures
      var invites := StepRoleOk(db, u, r, o, req, env).0.invites;
      t in invites ==> t in db.invites && invites[t] == db.invites[t]
  {
  }

  lemma StepInvites(db: Db, st: Stage, env: Env, t: Token)
    requires t != env.uuid
    ensures
      var invites := Step(db, st, env).0.invites;
      t in invites ==> t in db.invites && (db.invites[t].usedBy.Some? ==> invites[t].usedBy.Some?)
  {
    match st
    case Authed(u, req) => StepAuthedSpends(db, u, req, env, t);
    case RoleOk(u, r, o, req) => StepRoleOkSpends(db, u, r, o, req, env, t);
    case HealCreate(_) =>
    case ExchangeCreate(_) =>
    case EnterLocal(_) =>
    case SetupLocal =>
    case CredOk(_, _, _, _) =>
    case _ => QuietStages(db, st, env);
  }

  lemma StepSpends(s: State, e: Event, t: Token)
    requires Enabled(s, e)
    ensures Spent(s, t) ==> Spent(Apply(s, e), t) && !Redeems(s, e, t)
    ensures t in s.minted && Redeems(s, e, t) ==> Spent(Apply(s, e), t)
  {
    if e.Run? && t in s.minted {
      var st := s.active[e.pid];
      StepInvites(s.db, st, e.env, t);
      if Redeems(s, e, t) {
        StepAuthedSpends(s.db, st.actor, st.req, e.env, t);
      }
    }
  }

  /** In any interleaving an invite is redeemed at most once. */
  lemma {:induction false} InviteUsedOnce(es: seq<Event>, t: Token)
    requires Legal(es)
    ensures Redemptions(es, t) <= 1
    ensures Redemptions(es, t) == 1 ==> Spent(After(es), t)
  {
    if es != [] {
      InviteUsedOnce(es[..|es| - 1], t);
      RunMintsAndVets(es[..|es| - 1]);
      StepSpends(After(es[..|es| - 1]), es[|es| - 1], t);
    }
  }

  /** Redeeming never changes the role of an existing member, and the one membership it may add
      is the redeemer's, with the invite's role and so never an owner's. */
  lemma RedeemAddsOneMember(db: Db, t: Token, u: UserId, now: int, o: OrgId, v: UserId)
    requires DbOk(db)
    ensures
      var db' := InviteRedeemed(db, t, u, now);
      && ((o, v) in db.members ==> (o, v) in db'.members && db'.members[(o, v)] == db.members[(o, v)])
      && ((o, v) !in db.members && (o, v) in db'.members ==>
            v == u && Redeemable(db, t, u, now) && o == db.invites[t].org
            && db'.members[(o, v)] == db.invites[t].role && !Owns(db', o, v))
      && (Redeemable(db, t, u, now) ==> (db.invites[t].org, u) in db'.members && !Redeemable(db', t, v, now))
  {
  }
}
