/** The identity service as it runs: login, token verification and credential administration,
    statement by statement on tables updated in place. */
module IdentityService {
  import opened Values
  import opened Contracts
  import opened Rbac
  import opened C = Credentials
  import L = Limiter

  class Identity {
    const x: Setup
    var tenants: map<string, TenantRow>
    var slugs: map<string, string>
    var orgs: set<string>
    var users: map<string, UserRow>
    var emails: map<TenantKey, string>
    var services: map<string, Service>
    var sessions: map<string, Session>
    var keys: map<string, ApiKey>
    var assignments: seq<Assignment>
    const limiter: L.LoginLimiter

    constructor (x: Setup)
      ensures this.x == x && fresh(limiter) && Contents() == EMPTY
    {
      this.x := x;
      tenants, slugs, orgs, users, emails := map[], map[], {}, map[], map[];
      services, sessions, keys, assignments := map[], map[], map[], [];
      limiter := new L.LoginLimiter();
    }

    function Contents(): Tables
      reads this, limiter
    {
      Tables(tenants, slugs, orgs, users, emails, services, sessions, keys, assignments, limiter.state)
    }

    /** The insert loop of the role assignments, inside a transaction that a clash rolls back. */
    method InsertRoles(
      principalId: string, tenantId: string, roleKeys: seq<string>) returns (rows: Option<seq<Assignment>>)
      ensures rows == AddRoles(assignments, tenantId, principalId, roleKeys)
    {
      var added := assignments;
      for i := 0 to |roleKeys|
        invariant AddRoles(assignments, tenantId, principalId, roleKeys[..i]) == Some(added)
      {
        assert roleKeys[..i + 1][..i] == roleKeys[..i];
        var a := Assignment(tenantId, principalId, roleKeys[i]);
        if a in added {
          RolesClash(assignments, tenantId, principalId, roleKeys, i + 1);
          return None;
        }
        added := added + [a];
      }
      assert roleKeys[..|roleKeys|] == roleKeys;
      rows := Some(added);
    }

    static lemma RolesClash(rows: seq<Assignment>, tenantId: string, principalId: string, roleKeys: seq<string>, n: nat)
      requires n <= |roleKeys| && AddRoles(rows, tenantId, principalId, roleKeys[..n]).None?
      ensures AddRoles(rows, tenantId, principalId, roleKeys).None?
      decreases |roleKeys|
    {
      if n == |roleKeys| {
        assert roleKeys[..n] == roleKeys;
      } else {
        assert roleKeys[..|roleKeys| - 1][..n] == roleKeys[..n];
        RolesClash(rows, tenantId, principalId, roleKeys[..|roleKeys| - 1], n);
      }
    }

    method BootstrapTenant(
      slug: string, email: string, password: string, salt: string, tenantId: string, orgId: string, adminId: string)
      returns (reply: Reply)
      modifies this
      ensures var o := Bootstrap(x, old(Contents()), slug, email, password, salt, tenantId, orgId, adminId);
              Contents() == Commit(old(Contents()), o.write) && o.reply == reply
    {
      var slug', email' := x.normalize(slug), x.normalize(email);
      if !x.validSlug(slug') || !x.validEmail(email') || !x.strongPassword(password) {
        return Refused(Validation);
      }
      var rows := InsertRoles(adminId, tenantId, [TENANT_ADMIN]);
      if tenantId in tenants || slug' in slugs || orgId in orgs || adminId in users
         || TenantKey(tenantId, email') in emails || rows.None?
      {
        return Refused(Conflict);
      }
      var tenant := TenantRow(tenantId, slug', true);
      var admin := UserRow(adminId, tenantId, email', x.hashPassword(password, salt), true, false, Some(orgId));
      StoreTenant(tenant, orgId, admin, rows.value);
      reply := TenantReply(tenant);
    }

    /** The inserts of a new tenant, in one transaction. */
    method StoreTenant(tenant: TenantRow, org: string, admin: UserRow, roles: seq<Assignment>)
      modifies this
      ensures Contents() == Commit(old(Contents()), NewTenant(tenant, org, admin, roles))
    {
      tenants := tenants[tenant.id := tenant];
      slugs := slugs[tenant.slug := tenant.id];
      orgs := orgs + {org};
      users := users[admin.id := admin];
      emails := emails[TenantKey(admin.tenantId, admin.email) := admin.id];
      assignments := roles;
    }

    method CreateUser(
      ctx: AuthContext, email: string, password: string, salt: string, roleKeys: seq<string>, id: string)
      returns (reply: Reply)
      modifies this
      ensures var o := C.CreateUser(x, old(Contents()), ctx, email, password, salt, roleKeys, id);
              Contents() == Commit(old(Contents()), o.write) && o.reply == reply
    {
      if !May(x, ctx, Configure, ADMIN_USERS) {
        return Refused(Forbidden);
      }
      var normalized := x.normalize(email);
      if !x.validEmail(normalized) || !x.strongPassword(password) {
        return Refused(Validation);
      }
      if id in users || TenantKey(ctx.tenantId, normalized) in emails {
        return Refused(Conflict);
      }
      if ctx.tenantId !in tenants {
        return Refused(Validation);
      }
      var rows := InsertRoles(id, ctx.tenantId, roleKeys);
      if rows.None? {
        return Refused(Conflict);
      }
      var user := UserRow(id, ctx.tenantId, normalized, x.hashPassword(password, salt), true, false, Some(ctx.orgId));
      users := users[id := user];
      emails := emails[TenantKey(ctx.tenantId, normalized) := id];
      assignments := rows.value;
      reply := UserReply(user);
    }

    method CreateService(ctx: AuthContext, roleKeys: seq<string>, id: string) returns (reply: Reply)
      modifies this
      ensures var o := C.CreateService(x, old(Contents()), ctx, roleKeys, id);
              Contents() == Commit(old(Contents()), o.write) && o.reply == reply
    {
      if !May(x, ctx, Configure, ADMIN_USERS) {
        return Refused(Forbidden);
      }
      if id in services {
        return Refused(Conflict);
      }
      if ctx.tenantId !in tenants || ctx.orgId !in orgs {
        return Refused(Validation);
      }
      var rows := InsertRoles(id, ctx.tenantId, roleKeys);
      if rows.None? {
        return Refused(Conflict);
      }
      var service := Service(id, ctx.tenantId, ctx.orgId, true);
      services := services[id := service];
      assignments := rows.value;
      reply := ServiceReply(service);
    }

    /** A role the principal already holds is ignored. */
    method AssignRole(ctx: AuthContext, principalId: string, roleKey: string) returns (reply: Reply)
      modifies this`assignments
      ensures var o := C.AssignRole(x, old(Contents()), ctx, principalId, roleKey);
              Contents() == Commit(old(Contents()), o.write) && o.reply == reply
    {
      if !May(x, ctx, Configure, ADMIN_ROLES) {
        return Refused(Forbidden);
      }
      var row := Assignment(ctx.tenantId, principalId, roleKey);
      if row !in assignments {
        if ctx.tenantId !in tenants {
          return Refused(Validation);
        }
        assignments := assignments + [row];
      }
      reply := DoneReply;
    }

    method CreateKey(ctx: AuthContext, principalId: Option<string>, principalType: string, secret: string)
      returns (reply: Reply)
      modifies this
      ensures var o := C.CreateKey(x, old(Contents()), ctx, principalId, principalType, secret);
              Contents() == Commit(old(Contents()), o.write) && o.reply == reply
    {
      if !May(x, ctx, Configure, ADMIN_KEYS) {
        return Refused(Forbidden);
      }
      var principal := if principalId.Some? then principalId.value else ctx.actorId;
      var exists_ := false;
      if principalType == USER_TYPE {
        exists_ := principal in users && users[principal].tenantId == ctx.tenantId && users[principal].active;
      } else if principalType == SERVICE_TYPE {
        exists_ := principal in services && services[principal].tenantId == ctx.tenantId && services[principal].active;
      } else {
        return Refused(Validation);
      }
      if !exists_ {
        return Refused(Validation);
      }
      var token := KEY_PREFIX + secret;
      if x.hashToken(token) in keys {
        return Refused(Conflict);
      }
      keys := keys[x.hashToken(token) := ApiKey(ctx.tenantId, ctx.orgId, principalType, principal, true)];
      reply := KeyReply(token);
    }

    /** One update statement over the sessions table. */
    method RevokeSessionsForUser(tenantId: string, userId: string) returns (count: nat)
      modifies this`sessions
      ensures var o := Revoke(old(Contents()), tenantId, userId);
              Contents() == Commit(old(Contents()), o.write) && o.reply == CountReply(count)
    {
      var matching := Unrevoked(sessions, tenantId, userId);
      count := |matching|;
      var todo := matching;
      while todo != {}
        invariant todo <= matching && sessions.Keys == old(sessions).Keys
        invariant forall h | h in sessions ::
                    sessions[h] == if h in matching && h !in todo
                                   then old(sessions)[h].(revoked := true) else old(sessions)[h]
        decreases |todo|
      {
        var h :| h in todo;
        sessions := sessions[h := sessions[h].(revoked := true)];
        todo := todo - {h};
      }
      assert sessions == RevokeFor(old(sessions), tenantId, userId);
    }

    method SetUserStatus(ctx: AuthContext, userId: string, status: string) returns (reply: Reply)
      modifies this
      ensures var o := SetUser(x, old(Contents()), ctx, userId, status);
              Contents() == Commit(old(Contents()), o.write) && o.reply == reply
    {
      if !May(x, ctx, Configure, ADMIN_USERS) {
        return Refused(Forbidden);
      }
      if status != ACTIVE && status != DISABLED {
        return Refused(Validation);
      }
      if userId == ctx.actorId && status != ACTIVE {
        return Refused(FailedPrecondition);
      }
      if !May(x, ctx, Read, ADMIN_USERS) {
        return Refused(Forbidden);
      }
      if userId !in users || users[userId].tenantId != ctx.tenantId {
        return Refused(NotFound);
      }
      var user := users[userId].(active := status == ACTIVE);
      StoreStatus(userId, user);
      reply := UserReply(user);
    }

    /** The update, and the revocation that disabling brings with it. */
    method StoreStatus(userId: string, user: UserRow)
      modifies this
      ensures Contents() == Commit(old(Contents()), UserStatus(userId, user))
    {
      users := users[userId := user];
      if !user.active {
        var _ := RevokeSessionsForUser(user.tenantId, userId);
      }
    }

    method SetTenantStatus(ctx: AuthContext, tenantId: string, status: string) returns (reply: Reply)
      modifies this
      ensures var o := SetTenant(old(Contents()), ctx, tenantId, status);
              Contents() == Commit(old(Contents()), o.write) && o.reply == reply
    {
      if !ctx.isPlatformAdmin && !ctx.actorType.System? {
        return Refused(Forbidden);
      }
      if status != ACTIVE && status != SUSPENDED {
        return Refused(Validation);
      }
      if tenantId !in tenants {
        return Refused(NotFound);
      }
      tenants := tenants[tenantId := tenants[tenantId].(active := status == ACTIVE)];
      reply := TenantReply(tenants[tenantId]);
    }

    /** The lookups of a login; every way to fail is answered alike. */
    method Identify(slug: string, email: string, password: string) returns (user: Option<UserRow>)
      ensures user == Identified(x, Contents(), slug, email, password)
    {
      var tenant := TenantBySlug(Contents(), slug);
      if tenant.None? || !tenant.value.active {
        return None;
      }
      user := UserByEmail(Contents(), tenant.value.id, email);
      if user.None? || !user.value.active {
        return None;
      }
      if !x.verifyPassword(password, user.value.passwordHash) {
        return None;
      }
    }

    /** The limiter's side of an attempt that got past the lock. */
    method Settle(key: string, accepted: bool, now: int)
      modifies limiter
      ensures limiter.state
              == L.Apply(old(limiter.state), L.Timed(now, if accepted then L.Reset(key) else L.RecordFailure(key)))
    {
      if accepted {
        limiter.Reset(key);
      } else {
        var _ := limiter.RecordFailure(key, now);
      }
    }

    method Login(slug: string, email: string, password: string, secret: string, now: int) returns (reply: Reply)
      modifies this, limiter
      ensures var o := C.Login(x, old(Contents()), slug, email, password, secret, now);
              Contents() == Commit(old(Contents()), o.write) && o.reply == reply
    {
      var slug', email' := x.trim(slug), x.normalize(email);
      var key := LimiterKey(slug', email');
      var locked := limiter.IsLocked(key, now);
      if locked {
        return Refused(RateLimited);
      }
      reply := Attempt(slug', email', password, secret, key, now);
    }

    /** A login past the lock. */
    method Attempt(slug: string, email: string, password: string, secret: string, key: string, now: int)
      returns (reply: Reply)
      modifies this`sessions, limiter
      ensures var user := Identified(x, old(Contents()), slug, email, password);
              var o := if user.None? then Rejected(old(limiter.state), key, now)
                       else Admitted(x, old(Contents()), user.value, TenantBySlug(old(Contents()), slug).value.id,
                                     L.Apply(old(limiter.state), L.Timed(now, L.Reset(key))), secret, now);
              Contents() == Commit(old(Contents()), o.write) && o.reply == reply
    {
      var user := Identify(slug, email, password);
      Settle(key, user.Some?, now);
      if user.None? {
        return Refused(Unauthorized);
      }
      reply := IssueSession(user.value, TenantBySlug(Contents(), slug).value.id, secret, now);
    }

    method IssueSession(user: UserRow, tenantId: string, secret: string, now: int) returns (reply: Reply)
      modifies this`sessions
      ensures var o := Admitted(x, old(Contents()), user, tenantId, limiter.state, secret, now);
              Contents() == Commit(old(Contents()), o.write) && o.reply == reply
    {
      var orgId := if user.defaultOrg.Some? then user.defaultOrg.value else "";
      var roleKeys := RolesFor(assignments, tenantId, user.id);
      var token := SESSION_PREFIX + secret;
      var expires := now + x.sessionTtl;
      if x.hashToken(token) in sessions {
        return Refused(Conflict);
      }
      sessions := sessions[x.hashToken(token) := Session(tenantId, user.id, orgId, expires, false)];
      reply := LoginReply(LoginResult(token, expires, user.id, tenantId, orgId, roleKeys, user.platformAdmin));
    }

    method AuthenticateSession(hash: string, now: int) returns (reply: Reply)
      ensures reply == SessionActor(Contents(), Usable(sessions, hash, now))
    {
      if hash !in sessions || sessions[hash].revoked {
        return Refused(Unauthorized);
      }
      var row := sessions[hash];
      if row.expiresAt <= now {
        return Refused(Unauthorized);
      }
      if row.tenantId !in tenants || !tenants[row.tenantId].active {
        return Refused(Unauthorized);
      }
      if row.userId !in users || !users[row.userId].active {
        return Refused(Unauthorized);
      }
      var roleKeys := RolesFor(assignments, row.tenantId, row.userId);
      reply := ActorReply(AuthContext(User, row.userId, row.tenantId, row.orgId, None, roleKeys,
                                      users[row.userId].platformAdmin));
    }

    method AuthenticateApiKey(hash: string) returns (reply: Reply)
      ensures reply == KeyActor(Contents(), hash)
    {
      if hash !in keys || !keys[hash].active {
        return Refused(Unauthorized);
      }
      var key := keys[hash];
      if key.tenantId !in tenants || !tenants[key.tenantId].active {
        return Refused(Unauthorized);
      }
      var actorType, alive := ServiceAccount, false;
      if key.principalType == USER_TYPE {
        actorType := User;
        alive := key.principalId in users && users[key.principalId].tenantId == key.tenantId
                 && users[key.principalId].active;
      } else {
        alive := key.principalId in services && services[key.principalId].tenantId == key.tenantId
                 && services[key.principalId].active;
      }
      if !alive {
        return Refused(Unauthorized);
      }
      var roleKeys := RolesFor(assignments, key.tenantId, key.principalId);
      reply := ActorReply(AuthContext(actorType, key.principalId, key.tenantId, key.orgId, None, roleKeys, false));
    }

    method Authenticate(token: string, now: int) returns (reply: Reply)
      ensures reply == C.Authenticate(x, Contents(), token, now)
    {
      var hash := x.hashToken(token);
      if HasPrefix(token, KEY_PREFIX) {
        reply := AuthenticateApiKey(hash);
      } else {
        reply := AuthenticateSession(hash, now);
      }
    }

    method Logout(token: string) returns (reply: Reply)
      modifies this`sessions
      ensures var o := C.Logout(x, old(Contents()), token);
              Contents() == Commit(old(Contents()), o.write) && o.reply == reply
    {
      var hash := x.hashToken(token);
      var scope := None;
      if hash in sessions {
        if !sessions[hash].revoked {
          scope := Some(TenantKey(sessions[hash].tenantId, sessions[hash].orgId));
        }
        sessions := sessions[hash := sessions[hash].(revoked := true)];
      }
      reply := ScopeReply(scope);
    }

    method RunHousekeeping(now: int)
      modifies this`sessions, limiter
      ensures var o := Housekeep(now);
              Contents() == Commit(old(Contents()), o.write)
    {
      sessions := sessions - Dead(sessions, now);
      limiter.Prune(now);
    }
  }
}
