/** Tenants, principals, sessions and API keys: what each identity call decides, as a
    function of the stored tables. */
module Credentials {
  import opened Values
  import opened Contracts
  import opened Rbac
  import L = Limiter

  // ---- rows --------------------------------------------------------------------------------

  datatype TenantRow = TenantRow(id: string, slug: string, active: bool)

  datatype UserRow = UserRow(
    id: string,
    tenantId: string,
    email: string,
    passwordHash: string,
    active: bool,
    platformAdmin: bool,
    defaultOrg: Option<string>)

  datatype Service = Service(id: string, tenantId: string, orgId: string, active: bool)

  datatype Session = Session(tenantId: string, userId: string, orgId: string, expiresAt: int, revoked: bool)

  datatype ApiKey = ApiKey(tenantId: string, orgId: string, principalType: string, principalId: string, active: bool)

  datatype Assignment = Assignment(tenantId: string, principalId: string, roleKey: string)

  /** The tables, with the unique indexes on slugs and on emails within a tenant. Sessions and
      keys are unique by the hash of their token. */
  datatype Tables = Tables(
    tenants: map<string, TenantRow>,
    slugs: map<string, string>,
    orgs: set<string>,
    users: map<string, UserRow>,
    emails: map<TenantKey, string>,
    services: map<string, Service>,
    sessions: map<string, Session>,
    keys: map<string, ApiKey>,
    assignments: seq<Assignment>,
    limits: L.Windows)

  const EMPTY := Tables(map[], map[], {}, map[], map[], map[], map[], map[], [], map[])

  /** Roles and grants, the string and cryptographic functions, and the session lifetime. */
  datatype Setup = Setup(
    access: Config,
    trim: string -> string,
    normalize: string -> string,
    validSlug: string -> bool,
    validEmail: string -> bool,
    strongPassword: string -> bool,
    hashPassword: (string, string) -> string,
    verifyPassword: (string, string) -> bool,
    hashToken: string -> string,
    sessionTtl: nat)

  const USER_TYPE := "user"
  const SERVICE_TYPE := "service_account"
  const ACTIVE := "active"
  const DISABLED := "disabled"
  const SUSPENDED := "suspended"
  const ADMIN_USERS := "admin:users"
  const ADMIN_ROLES := "admin:roles"
  const ADMIN_KEYS := "admin:api_keys"
  const TENANT_ADMIN := "tenant_admin"
  const KEY_PREFIX := "ldb_"
  const SESSION_PREFIX := "lds_"

  // ---- lookups -------------------------------------------------------------------------------

  function TenantBySlug(s: Tables, slug: string): Option<TenantRow> {
    if slug in s.slugs && s.slugs[slug] in s.tenants then Some(s.tenants[s.slugs[slug]]) else None
  }

  function UserByEmail(s: Tables, tenantId: string, email: string): Option<UserRow> {
    var key := TenantKey(tenantId, email);
    if key in s.emails && s.emails[key] in s.users then Some(s.users[s.emails[key]]) else None
  }

  function UserOf(s: Tables, tenantId: string, id: string): Option<UserRow> {
    if id in s.users && s.users[id].tenantId == tenantId then Some(s.users[id]) else None
  }

  predicate TenantActive(s: Tables, tenantId: string) {
    tenantId in s.tenants && s.tenants[tenantId].active
  }

  /** Is there an active row for the principal, in the table its type names and in the tenant? */
  predicate PrincipalActive(s: Tables, tenantId: string, principalType: string, id: string) {
    if principalType == USER_TYPE then id in s.users && s.users[id].tenantId == tenantId && s.users[id].active
    else id in s.services && s.services[id].tenantId == tenantId && s.services[id].active
  }

  function RolesFor(assignments: seq<Assignment>, tenantId: string, principalId: string): (r: seq<string>)
    ensures forall k :: k in r <==> Assignment(tenantId, principalId, k) in assignments
  {
    if assignments == [] then []
    else
      var last := assignments[|assignments| - 1];
      RolesFor(assignments[..|assignments| - 1], tenantId, principalId)
      + (if last.tenantId == tenantId && last.principalId == principalId then [last.roleKey] else [])
  }

  /** Insert one assignment per role key; a repeated one violates the unique constraint. */
  function AddRoles(assignments: seq<Assignment>, tenantId: string, principalId: string, roleKeys: seq<string>)
    : Option<seq<Assignment>>
  {
    if roleKeys == [] then Some(assignments)
    else
      var a := Assignment(tenantId, principalId, roleKeys[|roleKeys| - 1]);
      match AddRoles(assignments, tenantId, principalId, roleKeys[..|roleKeys| - 1])
      case None => None
      case Some(before) => if a in before then None else Some(before + [a])
  }

  // ---- replies --------------------------------------------------------------------------------

  datatype LoginResult = LoginResult(
    token: string, expiresAt: int, userId: string, tenantId: string, orgId: string, roleKeys: seq<string>,
    platformAdmin: bool)

  datatype Reply =
    | Refused(code: ErrorCode)
    | UserReply(user: UserRow)
    | ServiceReply(service: Service)
    | TenantReply(tenant: TenantRow)
    | KeyReply(token: string)
    | LoginReply(login: LoginResult)
    | ActorReply(actor: AuthContext)
    | ScopeReply(scope: Option<TenantKey>)
    | CountReply(count: nat)
    | DoneReply

  /** What an identity call writes: one transaction, with the limiter's table beside it. */
  datatype Write =
    | NoWrite
    | NewTenant(tenant: TenantRow, org: string, admin: UserRow, roles: seq<Assignment>)
    | NewUser(user: UserRow, roles: seq<Assignment>)
    | NewService(service: Service, roles: seq<Assignment>)
    | NewRole(row: Assignment)
    | NewKey(hash: string, key: ApiKey)
    | UserStatus(id: string, user: UserRow)
    | TenantStatus(id: string, tenant: TenantRow)
    | NewSession(limits: L.Windows, hash: string, session: Session)
    | Limits(limits: L.Windows)
    | EndSession(hash: string)
    | EndSessions(tenantId: string, userId: string)
    | Purge(now: int)

  datatype Outcome = Outcome(write: Write, reply: Reply)

  function RevokeFor(sessions: map<string, Session>, tenantId: string, userId: string): (r: map<string, Session>)
    ensures r.Keys == sessions.Keys
  {
    map h | h in sessions ::
      if sessions[h].tenantId == tenantId && sessions[h].userId == userId
      then sessions[h].(revoked := true) else sessions[h]
  }

  function Dead(sessions: map<string, Session>, now: int): set<string> {
    set h | h in sessions && (sessions[h].revoked || sessions[h].expiresAt <= now)
  }

  function SessionsAfter(sessions: map<string, Session>, w: Write): map<string, Session> {
    match w
    case NewSession(_, hash, session) => sessions[hash := session]
    case UserStatus(id, user) => if user.active then sessions else RevokeFor(sessions, user.tenantId, id)
    case EndSession(hash) => if hash in sessions then sessions[hash := sessions[hash].(revoked := true)] else sessions
    case EndSessions(tenantId, userId) => RevokeFor(sessions, tenantId, userId)
    case Purge(now) => sessions - Dead(sessions, now)
    case _ => sessions
  }

  function LimitsAfter(limits: L.Windows, w: Write): L.Windows {
    match w
    case NewSession(m, _, _) => m
    case Limits(m) => m
    case Purge(now) => L.Apply(limits, L.Timed(now, L.Prune))
    case _ => limits
  }

  function UsersAfter(users: map<string, UserRow>, w: Write): map<string, UserRow> {
    match w
    case NewTenant(_, _, admin, _) => users[admin.id := admin]
    case NewUser(user, _) => users[user.id := user]
    case UserStatus(id, user) => users[id := user]
    case _ => users
  }

  function EmailsAfter(emails: map<TenantKey, string>, w: Write): map<TenantKey, string> {
    match w
    case NewTenant(_, _, admin, _) => emails[TenantKey(admin.tenantId, admin.email) := admin.id]
    case NewUser(user, _) => emails[TenantKey(user.tenantId, user.email) := user.id]
    case _ => emails
  }

  function TenantsAfter(tenants: map<string, TenantRow>, w: Write): map<string, TenantRow> {
    match w
    case NewTenant(tenant, _, _, _) => tenants[tenant.id := tenant]
    case TenantStatus(id, tenant) => tenants[id := tenant]
    case _ => tenants
  }

  function RolesAfter(rows: seq<Assignment>, w: Write): seq<Assignment> {
    match w
    case NewTenant(_, _, _, roles) => roles
    case NewUser(_, roles) => roles
    case NewService(_, roles) => roles
    case NewRole(row) => rows + [row]
    case _ => rows
  }

  /** The tables after the write, table by table. */
  function Commit(s: Tables, w: Write): Tables {
    Tables(
      TenantsAfter(s.tenants, w),
      if w.NewTenant? then s.slugs[w.tenant.slug := w.tenant.id] else s.slugs,
      if w.NewTenant? then s.orgs + {w.org} else s.orgs,
      UsersAfter(s.users, w),
      EmailsAfter(s.emails, w),
      if w.NewService? then s.services[w.service.id := w.service] else s.services,
      SessionsAfter(s.sessions, w),
      if w.NewKey? then s.keys[w.hash := w.key] else s.keys,
      RolesAfter(s.assignments, w),
      LimitsAfter(s.limits, w))
  }

  predicate May(x: Setup, ctx: AuthContext, action: Action, resource: string) {
    Authorized(x.access, ctx, action, resource, None)
  }

  // ---- administration --------------------------------------------------------------------------

  function Bootstrap(
    x: Setup, s: Tables, slug: string, email: string, password: string, salt: string, tenantId: string,
    orgId: string, adminId: string): Outcome
  {
    var slug' := x.normalize(slug);
    var email' := x.normalize(email);
    if !x.validSlug(slug') || !x.validEmail(email') || !x.strongPassword(password) then
      Outcome(NoWrite, Refused(Validation))
    else
      var roles := AddRoles(s.assignments, tenantId, adminId, [TENANT_ADMIN]);
      if tenantId in s.tenants || slug' in s.slugs || orgId in s.orgs || adminId in s.users
         || TenantKey(tenantId, email') in s.emails || roles.None?
      then Outcome(NoWrite, Refused(Conflict))
      else
        var tenant := TenantRow(tenantId, slug', true);
        var admin := UserRow(adminId, tenantId, email', x.hashPassword(password, salt), true, false, Some(orgId));
        Outcome(NewTenant(tenant, orgId, admin, roles.value), TenantReply(tenant))
  }

  function CreateUser(
    x: Setup, s: Tables, ctx: AuthContext, email: string, password: string, salt: string, roleKeys: seq<string>,
    id: string): Outcome
  {
    var email' := x.normalize(email);
    if !May(x, ctx, Configure, ADMIN_USERS) then Outcome(NoWrite, Refused(Forbidden))
    else if !x.validEmail(email') || !x.strongPassword(password) then Outcome(NoWrite, Refused(Validation))
    else
      var roles := AddRoles(s.assignments, ctx.tenantId, id, roleKeys);
      if id in s.users || TenantKey(ctx.tenantId, email') in s.emails then Outcome(NoWrite, Refused(Conflict))
      else if ctx.tenantId !in s.tenants then Outcome(NoWrite, Refused(Validation))
      else if roles.None? then Outcome(NoWrite, Refused(Conflict))
      else
        var user := UserRow(id, ctx.tenantId, email', x.hashPassword(password, salt), true, false, Some(ctx.orgId));
        Outcome(NewUser(user, roles.value), UserReply(user))
  }

  function CreateService(x: Setup, s: Tables, ctx: AuthContext, roleKeys: seq<string>, id: string): Outcome {
    if !May(x, ctx, Configure, ADMIN_USERS) then Outcome(NoWrite, Refused(Forbidden))
    else
      var roles := AddRoles(s.assignments, ctx.tenantId, id, roleKeys);
      if id in s.services then Outcome(NoWrite, Refused(Conflict))
      else if ctx.tenantId !in s.tenants || ctx.orgId !in s.orgs then Outcome(NoWrite, Refused(Validation))
      else if roles.None? then Outcome(NoWrite, Refused(Conflict))
      else
        var service := Service(id, ctx.tenantId, ctx.orgId, true);
        Outcome(NewService(service, roles.value), ServiceReply(service))
  }

  function AssignRole(x: Setup, s: Tables, ctx: AuthContext, principalId: string, roleKey: string): Outcome {
    var a := Assignment(ctx.tenantId, principalId, roleKey);
    if !May(x, ctx, Configure, ADMIN_ROLES) then Outcome(NoWrite, Refused(Forbidden))
    else if a in s.assignments then Outcome(NoWrite, DoneReply)
    else if ctx.tenantId !in s.tenants then Outcome(NoWrite, Refused(Validation))
    else Outcome(NewRole(a), DoneReply)
  }

  function CreateKey(
    x: Setup, s: Tables, ctx: AuthContext, principalId: Option<string>, principalType: string, secret: string): Outcome
  {
    var principal := if principalId.Some? then principalId.value else ctx.actorId;
    var token := KEY_PREFIX + secret;
    if !May(x, ctx, Configure, ADMIN_KEYS) then Outcome(NoWrite, Refused(Forbidden))
    else if principalType != USER_TYPE && principalType != SERVICE_TYPE then Outcome(NoWrite, Refused(Validation))
    else if !PrincipalActive(s, ctx.tenantId, principalType, principal) then Outcome(NoWrite, Refused(Validation))
    else if x.hashToken(token) in s.keys then Outcome(NoWrite, Refused(Conflict))
    else
      Outcome(NewKey(x.hashToken(token), ApiKey(ctx.tenantId, ctx.orgId, principalType, principal, true)),
              KeyReply(token))
  }

  function SetUser(x: Setup, s: Tables, ctx: AuthContext, userId: string, status: string): Outcome {
    var user := UserOf(s, ctx.tenantId, userId);
    if !May(x, ctx, Configure, ADMIN_USERS) then Outcome(NoWrite, Refused(Forbidden))
    else if status != ACTIVE && status != DISABLED then Outcome(NoWrite, Refused(Validation))
    else if userId == ctx.actorId && status != ACTIVE then Outcome(NoWrite, Refused(FailedPrecondition))
    else if !May(x, ctx, Read, ADMIN_USERS) then Outcome(NoWrite, Refused(Forbidden))
    else if user.None? then Outcome(NoWrite, Refused(NotFound))
    else
      var updated := user.value.(active := status == ACTIVE);
      Outcome(UserStatus(userId, updated), UserReply(updated))
  }

  function SetTenant(s: Tables, ctx: AuthContext, tenantId: string, status: string): Outcome {
    if !Trusted(ctx) then Outcome(NoWrite, Refused(Forbidden))
    else if status != ACTIVE && status != SUSPENDED then Outcome(NoWrite, Refused(Validation))
    else if tenantId !in s.tenants then Outcome(NoWrite, Refused(NotFound))
    else
      var tenant := s.tenants[tenantId].(active := status == ACTIVE);
      Outcome(TenantStatus(tenantId, tenant), TenantReply(tenant))
  }

  // ---- login -------------------------------------------------------------------------------------

  function LimiterKey(slug: string, email: string): string {
    slug + "|" + email
  }

  /** The user a login names, if every check on the way passes. */
  function Identified(x: Setup, s: Tables, slug: string, email: string, password: string): Option<UserRow> {
    var tenant := TenantBySlug(s, slug);
    if tenant.None? || !tenant.value.active then None
    else
      var user := UserByEmail(s, tenant.value.id, email);
      if user.None? || !user.value.active || !x.verifyPassword(password, user.value.passwordHash) then None
      else user
  }

  function OrgOf(u: UserRow): string {
    if u.defaultOrg.Some? then u.defaultOrg.value else ""
  }

  function Rejected(limits: L.Windows, key: string, now: int): Outcome {
    Outcome(Limits(L.Apply(limits, L.Timed(now, L.RecordFailure(key)))), Refused(Unauthorized))
  }

  /** A session for the user, under the hash of a new token. */
  function Admitted(
    x: Setup, s: Tables, user: UserRow, tenantId: string, limits: L.Windows, secret: string, now: int): Outcome
  {
    var token := SESSION_PREFIX + secret;
    var expires := now + x.sessionTtl;
    if x.hashToken(token) in s.sessions then Outcome(Limits(limits), Refused(Conflict))
    else
      Outcome(NewSession(limits, x.hashToken(token), Session(tenantId, user.id, OrgOf(user), expires, false)),
              LoginReply(LoginResult(token, expires, user.id, tenantId, OrgOf(user),
                                     RolesFor(s.assignments, tenantId, user.id), user.platformAdmin)))
  }

  function Login(
    x: Setup, s: Tables, slug: string, email: string, password: string, secret: string, now: int): Outcome
  {
    var key := LimiterKey(x.trim(slug), x.normalize(email));
    var check := L.Timed(now, L.IsLocked(key));
    var checked := L.Apply(s.limits, check);
    if L.AnswerTo(s.limits, check) == L.Locked(true) then Outcome(Limits(checked), Refused(RateLimited))
    else
      match Identified(x, s, x.trim(slug), x.normalize(email), password)
      case None => Rejected(checked, key, now)
      case Some(user) =>
        Admitted(x, s, user, TenantBySlug(s, x.trim(slug)).value.id, L.Apply(checked, L.Timed(now, L.Reset(key))),
                 secret, now)
  }

  // ---- verification --------------------------------------------------------------------------------

  /** The session row a token opens right now. */
  function Usable(sessions: map<string, Session>, hash: string, now: int): Option<Session> {
    if hash in sessions && !sessions[hash].revoked && now < sessions[hash].expiresAt then Some(sessions[hash]) else None
  }

  function SessionActor(s: Tables, found: Option<Session>): Reply {
    match found
    case None => Refused(Unauthorized)
    case Some(row) =>
      if !TenantActive(s, row.tenantId) then Refused(Unauthorized)
      else if row.userId !in s.users || !s.users[row.userId].active then Refused(Unauthorized)
      else
        ActorReply(AuthContext(User, row.userId, row.tenantId, row.orgId, None,
                               RolesFor(s.assignments, row.tenantId, row.userId), s.users[row.userId].platformAdmin))
  }

  function KeyActor(s: Tables, hash: string): Reply {
    if hash !in s.keys || !s.keys[hash].active then Refused(Unauthorized)
    else
      var key := s.keys[hash];
      if !TenantActive(s, key.tenantId) then Refused(Unauthorized)
      else if !PrincipalActive(s, key.tenantId, key.principalType, key.principalId) then Refused(Unauthorized)
      else
        ActorReply(AuthContext(if key.principalType == USER_TYPE then User else ServiceAccount,
                               key.principalId, key.tenantId, key.orgId, None,
                               RolesFor(s.assignments, key.tenantId, key.principalId), false))
  }

  function Authenticate(x: Setup, s: Tables, token: string, now: int): Reply {
    if HasPrefix(token, KEY_PREFIX) then KeyActor(s, x.hashToken(token))
    else SessionActor(s, Usable(s.sessions, x.hashToken(token), now))
  }

  // ---- ending sessions --------------------------------------------------------------------------------

  /** The reply names the scope whose onboarding report is due: that of an unrevoked session. */
  function Logout(x: Setup, s: Tables, token: string): Outcome {
    var hash := x.hashToken(token);
    Outcome(EndSession(hash),
            ScopeReply(if hash in s.sessions && !s.sessions[hash].revoked
                       then Some(TenantKey(s.sessions[hash].tenantId, s.sessions[hash].orgId)) else None))
  }

  function Unrevoked(sessions: map<string, Session>, tenantId: string, userId: string): set<string> {
    set h | h in sessions && sessions[h].tenantId == tenantId && sessions[h].userId == userId && !sessions[h].revoked
  }

  function Revoke(s: Tables, tenantId: string, userId: string): Outcome {
    Outcome(EndSessions(tenantId, userId), CountReply(|Unrevoked(s.sessions, tenantId, userId)|))
  }

  /** `cleanup_expired_sessions`, then the limiter's prune. */
  function Housekeep(now: int): Outcome {
    Outcome(Purge(now), DoneReply)
  }
}
